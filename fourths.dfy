/** chordflow_desktop/src/state/fourths.rs: the circle of fourths. Each step moves the root up a
    perfect fourth and spells G flat as F sharp, so the walk from B visits all twelve pitch
    classes and returns to B. The same step is used by the shared practice state. */
module FourthsCircle {
  import opened Notes
  import opened Intervals
  import opened Qualities
  import opened Chords
  import RustInt

  /** The root a perfect fourth above n, with G flat respelled as F sharp. */
  function FourthsRoot(n: Note): (r: Note)
    ensures r != Note(G, -1)
    ensures r == Note(F, 1) || LetterIndex(r.letter) == (LetterIndex(n.letter) + 3) % 7
    ensures AddIntervalAsWritten(n, PerfectFourth) != Note(G, -1) ==> r == AddIntervalAsWritten(n, PerfectFourth)
  {
    var next := AddIntervalAsWritten(n, PerfectFourth);
    if next == Note(G, -1) then Note(F, 1) else next
  }

  /** Each step sounds a perfect fourth (five semitones) higher, up to whole octaves, the
      respelling of G flat as F sharp included. */
  lemma FourthsRootPitch(n: Note)
    ensures (NoteSemitones(FourthsRoot(n)) - (NoteSemitones(n) + 5)) % 12 == 0
  {
    var w := AddIntervalAsWritten(n, PerfectFourth);
    var s := NoteSemitones(n) + 5;
    assert NoteSemitones(w) == RustInt.Rem(s, 12);
    RustInt.RemOctaveCongruent(s);
    assert NoteSemitones(FourthsRoot(n)) == NoteSemitones(w);
  }

  /** The twelve roots of the walk from B, in visiting order. */
  function CycleRoot(k: int): (n: Note)
    requires 0 <= k < 12
    ensures n != Note(G, -1)
  {
    if k == 0 then Note(B, 0) else if k == 1 then Note(E, 0) else if k == 2 then Note(A, 0)
    else if k == 3 then Note(D, 0) else if k == 4 then Note(G, 0) else if k == 5 then Note(C, 0)
    else if k == 6 then Note(F, 0) else if k == 7 then Note(B, -1) else if k == 8 then Note(E, -1)
    else if k == 9 then Note(A, -1) else if k == 10 then Note(D, -1) else Note(F, 1)
  }

  /** A note with the letter three steps up and the pitch five semitones up (Rust remainder)
      is what `add_interval` gives for a perfect fourth. */
  lemma FourthAbove(n: Note, r: Note)
    requires LetterIndex(r.letter) == (LetterIndex(n.letter) + 3) % 7
    requires NoteSemitones(r) == RustInt.Rem(NoteSemitones(n) + 5, 12)
    ensures AddIntervalAsWritten(n, PerfectFourth) == r
  {
    var w := AddIntervalAsWritten(n, PerfectFourth);
    LetterIndexPosition(w.letter);
    LetterIndexPosition(r.letter);
    assert w.letter == r.letter;
  }

  /** Off the walk, a fourth above G flat is spelled C with eleven sharps, as `add_interval`
      computes it; only a result of G flat itself is respelled. */
  lemma FourthAboveGFlat()
    ensures FourthsRoot(Note(G, -1)) == Note(C, 11)
  {
    FourthAbove(Note(G, -1), Note(C, 11));
  }

  /** The position after k on the cycle of twelve. */
  function CycleNext(k: int): (j: int)
    requires 0 <= k < 12
    ensures 0 <= j < 12
  {
    if k == 11 then 0 else k + 1
  }

  /** One step of the walk moves each listed root to the next one, F sharp back to B. */
  lemma CycleStep(k: int)
    requires 0 <= k < 12
    ensures FourthsRoot(CycleRoot(k)) == CycleRoot(CycleNext(k))
  {
    if k == 0 {
      assert CycleRoot(k) == Note(B, 0) && CycleRoot(CycleNext(k)) == Note(E, 0);
      FourthAbove(Note(B, 0), Note(E, 0));
    } else if k == 1 {
      assert CycleRoot(k) == Note(E, 0) && CycleRoot(CycleNext(k)) == Note(A, 0);
      FourthAbove(Note(E, 0), Note(A, 0));
    } else if k == 2 {
      assert CycleRoot(k) == Note(A, 0) && CycleRoot(CycleNext(k)) == Note(D, 0);
      FourthAbove(Note(A, 0), Note(D, 0));
    } else if k == 3 {
      assert CycleRoot(k) == Note(D, 0) && CycleRoot(CycleNext(k)) == Note(G, 0);
      FourthAbove(Note(D, 0), Note(G, 0));
    } else if k == 4 {
      assert CycleRoot(k) == Note(G, 0) && CycleRoot(CycleNext(k)) == Note(C, 0);
      FourthAbove(Note(G, 0), Note(C, 0));
    } else if k == 5 {
      assert CycleRoot(k) == Note(C, 0) && CycleRoot(CycleNext(k)) == Note(F, 0);
      FourthAbove(Note(C, 0), Note(F, 0));
    } else if k == 6 {
      assert CycleRoot(k) == Note(F, 0) && CycleRoot(CycleNext(k)) == Note(B, -1);
      FourthAbove(Note(F, 0), Note(B, -1));
    } else if k == 7 {
      assert CycleRoot(k) == Note(B, -1) && CycleRoot(CycleNext(k)) == Note(E, -1);
      FourthAbove(Note(B, -1), Note(E, -1));
    } else if k == 8 {
      assert CycleRoot(k) == Note(E, -1) && CycleRoot(CycleNext(k)) == Note(A, -1);
      FourthAbove(Note(E, -1), Note(A, -1));
    } else if k == 9 {
      assert CycleRoot(k) == Note(A, -1) && CycleRoot(CycleNext(k)) == Note(D, -1);
      FourthAbove(Note(A, -1), Note(D, -1));
    } else if k == 10 {
      assert CycleRoot(k) == Note(D, -1) && CycleRoot(CycleNext(k)) == Note(F, 1);
      FourthAbove(Note(D, -1), Note(G, -1));
    } else {
      assert CycleRoot(k) == Note(F, 1) && CycleRoot(CycleNext(k)) == Note(B, 0);
      FourthAbove(Note(F, 1), Note(B, 0));
    }
  }

  /** Counting one further moves the remainder modulo 12 one place on the cycle. */
  lemma SuccessorModTwelve(k: nat)
    ensures CycleNext(k % 12) == (k + 1) % 12
  {
    var q := k / 12;
    assert k == 12 * q + k % 12;
    assert k + 1 == 12 * q + (k % 12 + 1);
    if k % 12 == 11 {
      assert k + 1 == 12 * (q + 1);
    }
  }

  /** The root reached after k applications of step, starting from n. */
  function Iterate(step: Note -> Note, n: Note, k: nat): Note
  {
    if k == 0 then n else step(Iterate(step, n, k - 1))
  }

  /** The root reached after k steps from n. */
  function FourthsIterate(n: Note, k: nat): Note
  {
    Iterate(FourthsRoot, n, k)
  }

  /** The position on the cycle after k steps, counted without a remainder. */
  function CyclePos(k: nat): (j: int)
    ensures 0 <= j < 12
  {
    if k == 0 then 0 else CycleNext(CyclePos(k - 1))
  }

  /** A walk that starts on a closed cycle of twelve roots (each root's successor is the
      next one) follows that cycle step by step. */
  lemma {:induction false} WalkAlongCycle(step: Note -> Note, cyc: seq<Note>, k: nat)
    requires |cyc| == 12
    requires forall j :: 0 <= j < 12 ==> step(cyc[j]) == cyc[CycleNext(j)]
    ensures Iterate(step, cyc[0], k) == cyc[CyclePos(k)]
  {
    if k > 0 {
      WalkAlongCycle(step, cyc, k - 1);
      assert step(cyc[CyclePos(k - 1)]) == cyc[CycleNext(CyclePos(k - 1))];
    }
  }

  /** Step by step, the walk from B visits the listed roots in order. */
  lemma WalkOnCycle(k: nat)
    ensures FourthsIterate(Note(B, 0), k) == CycleRoot(CyclePos(k))
  {
    var cyc := seq(12, j requires 0 <= j < 12 => CycleRoot(j));
    forall j | 0 <= j < 12
      ensures FourthsRoot(cyc[j]) == cyc[CycleNext(j)]
    {
      CycleStep(j);
    }
    WalkAlongCycle(FourthsRoot, cyc, k);
    assert cyc[0] == Note(B, 0);
  }

  /** Counting positions on the cycle is taking the remainder modulo 12. */
  lemma {:induction false} CyclePosIsRemainder(k: nat)
    ensures CyclePos(k) == k % 12
  {
    if k > 0 {
      CyclePosIsRemainder(k - 1);
      SuccessorModTwelve(k - 1);
    }
  }

  /** The walk from B follows the listed cycle: after k steps it is at CycleRoot(k % 12). */
  lemma WalkFromB(k: nat)
    ensures FourthsIterate(Note(B, 0), k) == CycleRoot(k % 12)
  {
    WalkOnCycle(k);
    CyclePosIsRemainder(k);
  }

  /** No step of any walk lands on G flat, and the walk from B does not start there. */
  lemma WalkAvoidsGFlat(n: Note, k: nat)
    requires n != Note(G, -1)
    ensures FourthsIterate(n, k) != Note(G, -1)
  {
  }

  /** The walk from B repeats itself every twelve steps. */
  lemma WalkPeriodTwelve(k: nat)
    ensures FourthsIterate(Note(B, 0), k + 12) == FourthsIterate(Note(B, 0), k)
  {
    assert FourthsIterate(Note(B, 0), k + 12) == CycleRoot((k + 12) % 12) by {
      WalkFromB(k + 12);
    }
    assert FourthsIterate(Note(B, 0), k) == CycleRoot(k % 12) by {
      WalkFromB(k);
    }
    assert (k + 12) % 12 == k % 12 by {
      RustInt.TwelveRemainder(k + 12, k / 12 + 1, k % 12);
    }
  }

  /** The fourths generator: a fixed quality and the current and upcoming chords. */
  class FourthsConfig {
    var quality: Quality
    var currentChord: Chord
    var nextChord: Chord

    /** Both chords carry the quality, the upcoming root is a fourth above the current one, and
        the current root lies on the walk from B. */
    predicate OnCycle()
      reads this
    {
      currentChord.quality == quality && nextChord.quality == quality
      && (exists k :: 0 <= k < 12 && currentChord.root == CycleRoot(k)) && nextChord.root == FourthsRoot(currentChord.root)
    }

    /** `FourthsConfig::new`: B then E, both with the given quality. */
    constructor (q: Quality)
      ensures quality == q
      ensures currentChord == Chord(Note(B, 0), q) && nextChord == Chord(Note(E, 0), q)
      ensures OnCycle()
    {
      quality := q;
      currentChord := Chord(Note(B, 0), q);
      nextChord := Chord(Note(E, 0), q);
      CycleStep(0);
    }

    /** `FourthsConfig::default()`, the same as `new(Major)`. */
    constructor Default()
      ensures quality == Major
      ensures currentChord == Chord(Note(B, 0), Major) && nextChord == Chord(Note(E, 0), Major)
      ensures OnCycle()
    {
      quality := Major;
      currentChord := Chord(Note(B, 0), Major);
      nextChord := Chord(Note(E, 0), Major);
      CycleStep(0);
    }

    /** `get_chords`: the display texts of the current and upcoming chords. */
    function GetChords(): (texts: (string, string))
      reads this
      ensures texts == (TheoryChordText(currentChord), TheoryChordText(nextChord))
    {
      (TheoryChordText(currentChord), TheoryChordText(nextChord))
    }

    /** `reset`: back to B then E with the stored quality, which is kept. */
    method Reset()
      modifies this
      ensures quality == old(quality)
      ensures currentChord == Chord(Note(B, 0), quality) && nextChord == Chord(Note(E, 0), quality)
      ensures OnCycle()
    {
      currentChord := Chord(Note(B, 0), quality);
      nextChord := Chord(Note(E, 0), quality);
      CycleStep(0);
    }

    /** `generate_next_chord`: the upcoming chord becomes current and the new upcoming root is a
        fourth above it; the quality is kept and the walk stays on the cycle, away from G flat. */
    method GenerateNextChord()
      modifies this
      ensures quality == old(quality)
      ensures currentChord == old(nextChord)
      ensures nextChord == Chord(FourthsRoot(currentChord.root), quality)
      ensures old(OnCycle()) ==> OnCycle() && currentChord.root != Note(G, -1)
    {
      currentChord := nextChord;
      var nextNote := AddIntervalAsWritten(currentChord.root, PerfectFourth);
      if nextNote == Note(G, -1) {
        nextNote := Note(F, 1);
      }
      nextChord := Chord(nextNote, quality);
      if old(OnCycle()) {
        var k :| 0 <= k < 12 && CycleRoot(k) == old(currentChord.root);
        CycleStep(k);
        CycleStep(CycleNext(k));
      }
    }
  }
}
