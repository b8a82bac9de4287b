/** `next_item` and `prev_item` of the two terminal applications (chordflow_tui/src/main.rs and
    src/main.rs): stepping through the variants of an enumeration, or the entries of any listing,
    with wrap-around at both ends. A variant's position is its place in the listing
    (`T::iter().position(..)`), and `from_repr` turns a position back into the variant at that
    place. */
module EnumCycle {
  /** The position after `position` among `count` entries, wrapping from the last to the first. */
  function NextItem(position: nat, count: nat): (next: nat)
    requires position < count
    ensures next < count
    ensures position + 1 < count ==> next == position + 1
    ensures position + 1 == count ==> next == 0
  {
    (position + 1) % count
  }

  /** The position before `position` among `count` entries, wrapping from the first to the last. */
  function PrevItem(position: nat, count: nat): (prev: nat)
    requires position < count
    ensures prev < count
    ensures position == 0 ==> prev == count - 1
    ensures 0 < position ==> prev + 1 == position
  {
    if position == 0 then count - 1 else position - 1
  }

  /** Stepping back undoes stepping forward and stepping forward undoes stepping back. */
  lemma PrevUndoesNext(position: nat, count: nat)
    requires position < count
    ensures PrevItem(NextItem(position, count), count) == position
    ensures NextItem(PrevItem(position, count), count) == position
  {
    if position == 0 {
      assert PrevItem(0, count) == count - 1;
    }
  }

  /** No entry of the listing is repeated. */
  predicate Distinct<T(==)>(s: seq<T>)
  {
    forall j, k :: 0 <= j < k < |s| ==> s[j] != s[k]
  }

  /** `iter().position(|t| t == x)`: the place of the first entry equal to `x`; the caller
      unwraps it, so `x` must be listed. */
  function IndexOf<T(==)>(s: seq<T>, x: T): (k: nat)
    requires x in s
    ensures k < |s| && s[k] == x
    ensures forall j :: 0 <= j < k ==> s[j] != x
  {
    if s[0] == x then 0 else 1 + IndexOf(s[1..], x)
  }

  /** In a listing without repeats, the place of the entry at `k` is `k`. */
  lemma IndexOfDistinct<T>(s: seq<T>, k: nat)
    requires Distinct(s) && k < |s|
    ensures IndexOf(s, s[k]) == k
  {
  }

  /** `from_repr(next_item(x)).unwrap()`: the entry after `x`, the first after the last. */
  function Succ<T(==)>(s: seq<T>, x: T): (y: T)
    requires x in s
    ensures y in s
  {
    s[NextItem(IndexOf(s, x), |s|)]
  }

  /** `from_repr(prev_item(x)).unwrap()`: the entry before `x`, the last before the first. */
  function Pred<T(==)>(s: seq<T>, x: T): (y: T)
    requires x in s
    ensures y in s
  {
    s[PrevItem(IndexOf(s, x), |s|)]
  }

  /** In a listing without repeats, stepping back undoes stepping forward and vice versa. */
  lemma PredUndoesSucc<T>(s: seq<T>, x: T)
    requires Distinct(s) && x in s
    ensures Pred(s, Succ(s, x)) == x
    ensures Succ(s, Pred(s, x)) == x
  {
    var i := IndexOf(s, x);
    IndexOfDistinct(s, NextItem(i, |s|));
    IndexOfDistinct(s, PrevItem(i, |s|));
    PrevUndoesNext(i, |s|);
  }

  /** The last entry is followed by the first, and the first is preceded by the last. */
  lemma SuccWraps<T>(s: seq<T>)
    requires Distinct(s) && |s| > 0
    ensures Succ(s, s[|s| - 1]) == s[0]
    ensures Pred(s, s[0]) == s[|s| - 1]
  {
    IndexOfDistinct(s, |s| - 1);
    IndexOfDistinct(s, 0);
  }

  /** Any other entry is followed by the next one in the listing. */
  lemma SuccSteps<T>(s: seq<T>, k: nat)
    requires Distinct(s) && k + 1 < |s|
    ensures Succ(s, s[k]) == s[k + 1]
    ensures Pred(s, s[k + 1]) == s[k]
  {
    IndexOfDistinct(s, k);
    IndexOfDistinct(s, k + 1);
  }
}
