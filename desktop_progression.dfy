/** chordflow_desktop/src/state/progression.rs: the desktop's custom progression. It holds the
    list of chords with their bar counts, the current and upcoming chords and the index of the
    current one, and cycles through the list. The chords come from an external chord parser;
    only the text they were parsed from is read here. */
module DesktopProgression {
  import opened Wrappers

  /** A chord of the external parser, of which only its source text is used. */
  datatype ParsedChord = ParsedChord(origin: string)

  /** A chord of the progression and the number of bars it lasts (a `u8`). */
  datatype ProgressionChord = ProgressionChord(chord: ParsedChord, bars: nat)

  /** `ProgressionChord::new`: a chord lasts one bar until edited. */
  function NewProgressionChord(c: ParsedChord): (pc: ProgressionChord)
    ensures pc.chord == c && pc.bars == 1
  {
    ProgressionChord(c, 1)
  }

  /** The text of an optional chord, empty when there is none (`unwrap_or_default`). */
  function OriginOr(c: Option<ParsedChord>): (s: string)
    ensures c.Some? ==> s == c.value.origin
    ensures c.None? ==> s == ""
  {
    match c
    case Some(pc) => pc.origin
    case None => ""
  }

  /** The index after i, wrapping at the end of a list of n chords. */
  function Following(i: nat, n: nat): (j: nat)
    requires n > 0
    ensures j < n
    ensures i + 1 < n ==> j == i + 1
    ensures i + 1 == n ==> j == 0
  {
    (i + 1) % n
  }

  /** Lowering a bar count saturates at zero (`saturating_sub(1)`). */
  function Lowered(bars: nat): (b: nat)
    ensures bars > 0 ==> b + 1 == bars
    ensures bars == 0 ==> b == 0
  {
    if bars == 0 then 0 else bars - 1
  }

  class ProgressionConfig {
    var chords: seq<ProgressionChord>
    var currentChord: Option<ParsedChord>
    var nextChord: Option<ParsedChord>
    var currentChordIndex: nat

    /** Every bar count fits a `u8`. */
    predicate BarsFit()
      reads this
    {
      forall j :: 0 <= j < |chords| ==> chords[j].bars < 256
    }

    /** The chords shown are the one at the index and the one after it, wrapping. */
    predicate InStep()
      reads this
    {
      0 < |chords| && currentChordIndex < |chords|
      && currentChord == Some(chords[currentChordIndex].chord)
      && nextChord == Some(chords[Following(currentChordIndex, |chords|)].chord)
    }

    /** `ProgressionConfig::default()`: no chords, nothing shown, index 0. */
    constructor ()
      ensures chords == [] && currentChord == None && nextChord == None && currentChordIndex == 0
      ensures BarsFit()
    {
      chords := [];
      currentChord := None;
      nextChord := None;
      currentChordIndex := 0;
    }

    /** `get_chords`: the texts of the current and upcoming chords, empty where none is set. */
    function GetChords(): (texts: (string, string))
      reads this
      ensures texts.0 == OriginOr(currentChord) && texts.1 == OriginOr(nextChord)
      ensures InStep() ==> texts == (chords[currentChordIndex].chord.origin,
                                     chords[Following(currentChordIndex, |chords|)].chord.origin)
    {
      (OriginOr(currentChord), OriginOr(nextChord))
    }

    /** `get_bars_per_cycle_current`: the bar count of the current chord; indexing past the end
        panics. */
    function BarsPerCycleCurrent(): (bars: nat)
      requires currentChordIndex < |chords|
      reads this
      ensures bars == chords[currentChordIndex].bars
      ensures BarsFit() ==> bars < 256
    {
      chords[currentChordIndex].bars
    }

    /** `generate_next_chord`: the upcoming chord becomes current, the index moves on one place
        and the chord after it is the new upcoming one. An empty list divides by zero. */
    method GenerateNextChord()
      requires 0 < |chords|
      modifies this`currentChord, this`nextChord, this`currentChordIndex
      ensures currentChord == old(nextChord)
      ensures currentChordIndex == Following(old(currentChordIndex), |chords|)
      ensures nextChord == Some(chords[Following(currentChordIndex, |chords|)].chord)
      ensures old(InStep()) ==> InStep()
    {
      currentChord := nextChord;
      currentChordIndex := (currentChordIndex + 1) % |chords|;
      var nextIndex := (currentChordIndex + 1) % |chords|;
      nextChord := Some(chords[nextIndex].chord);
    }

    /** `decrements_bars`: the chord at the index loses a bar, down to zero; an index past the
        end changes nothing, and no other entry changes. */
    method DecrementsBars(index: nat)
      modifies this`chords
      ensures |chords| == |old(chords)|
      ensures forall j :: 0 <= j < |chords| && j != index ==> chords[j] == old(chords[j])
      ensures index < |chords| ==>
        chords[index].chord == old(chords[index].chord) && chords[index].bars == Lowered(old(chords[index].bars))
      ensures old(BarsFit()) ==> BarsFit()
    {
      if index < |chords| {
        var entry := chords[index];
        chords := chords[index := entry.(bars := Lowered(entry.bars))];
      }
    }

    /** `increments_bars`: the chord at the index gains a bar; an index past the end changes
        nothing. A count already at the `u8` limit would overflow. */
    method IncrementsBars(index: nat)
      requires index < |chords| ==> chords[index].bars < 255
      modifies this`chords
      ensures |chords| == |old(chords)|
      ensures forall j :: 0 <= j < |chords| && j != index ==> chords[j] == old(chords[j])
      ensures index < |chords| ==>
        chords[index].chord == old(chords[index].chord) && chords[index].bars == old(chords[index].bars) + 1
      ensures old(BarsFit()) ==> BarsFit()
    {
      if index < |chords| {
        var entry := chords[index];
        chords := chords[index := entry.(bars := entry.bars + 1)];
      }
    }

    /** `reset`: an empty list changes nothing; otherwise the walk restarts on the first chord,
        followed by the second, or by the first again when it is the only one. */
    method Reset()
      modifies this`currentChord, this`nextChord, this`currentChordIndex
      ensures |chords| == 0 ==>
        currentChord == old(currentChord) && nextChord == old(nextChord)
        && currentChordIndex == old(currentChordIndex)
      ensures |chords| == 1 ==>
        currentChord == Some(chords[0].chord) && nextChord == Some(chords[0].chord) && currentChordIndex == 0
      ensures |chords| >= 2 ==>
        currentChord == Some(chords[0].chord) && nextChord == Some(chords[1].chord) && currentChordIndex == 0
      ensures |chords| > 0 ==> InStep()
    {
      if |chords| == 0 {
        return;
      }
      if |chords| < 2 {
        currentChord := Some(chords[0].chord);
        nextChord := Some(chords[0].chord);
        currentChordIndex := 0;
        return;
      }
      currentChord := Some(chords[0].chord);
      nextChord := Some(chords[1].chord);
      currentChordIndex := 0;
    }
  }

  /** The index after k steps of `generate_next_chord` from index i in a list of n chords. */
  function Advance(i: nat, n: nat, k: nat): nat
    requires n > 0
  {
    if k == 0 then i else Following(Advance(i, n, k - 1), n)
  }

  /** Steps compose: a + b steps are a steps followed by b steps. */
  lemma {:induction false} AdvanceSplit(i: nat, n: nat, a: nat, b: nat)
    requires n > 0
    ensures Advance(i, n, a + b) == Advance(Advance(i, n, a), n, b)
  {
    if b > 0 {
      AdvanceSplit(i, n, a, b - 1);
    }
  }

  /** Short of the end of the list, k steps move the index k places on. */
  lemma {:induction false} AdvanceClimbs(i: nat, n: nat, k: nat)
    requires i + k < n
    ensures Advance(i, n, k) == i + k
  {
    if k > 0 {
      AdvanceClimbs(i, n, k - 1);
    }
  }

  /** After as many steps as there are chords the progression is back at the chord it started
      from: the steps to the end of the list wrap to the first chord, and the rest climb back. */
  lemma CycleReturns(i: nat, n: nat)
    requires i < n
    ensures Advance(i, n, n) == i
  {
    AdvanceSplit(i, n, n - i, i);
    AdvanceClimbs(i, n, n - i - 1);
    assert Advance(i, n, n - i) == 0;
    AdvanceClimbs(0, n, i);
  }
}
