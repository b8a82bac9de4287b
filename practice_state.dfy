/** chordflow_shared/src/practice_state.rs: the practice state shared by the front ends. It
    holds the current and upcoming chords of the active mode and advances them: up a fourth,
    through a custom progression, or along the degrees of a diatonic scale, with the triad
    quality of each degree read off the scale. */
module PracticeStates {
  import opened Wrappers
  import opened Notes
  import opened Intervals
  import opened Qualities
  import opened Chords
  import opened Scales
  import opened ProgressionParser
  import opened SharedModes
  import opened FourthsCircle
  import opened RustInt
  import opened RandomChoices

  /** `normalize(i, base) = (i + base) % base` with Rust's remainder: within one period on
      either side of [0, base) it wraps i into [0, base); below -base the result stays
      non-positive. */
  function Normalize(i: int, base: int): (r: int)
    requires base > 0
    ensures -base <= i ==> 0 <= r < base
    ensures -base <= i < 0 ==> r == i + base
    ensures 0 <= i < base ==> r == i
    ensures base <= i < 2 * base ==> r == i - base
    ensures i < -base ==> -base < r <= 0
  {
    RemShiftedByPeriod(i, base);
    Rem(i + base, base)
  }

  /** Rust's remainder of i + base by base where i lies within one period of [0, base). */
  lemma RemShiftedByPeriod(i: int, base: int)
    requires base > 0
    ensures -base <= i < 0 ==> Rem(i + base, base) == i + base
    ensures 0 <= i < base ==> Rem(i + base, base) == i
    ensures base <= i < 2 * base ==> Rem(i + base, base) == i - base
  {
    var x := i + base;
    if 0 <= x < base {
      ModInRange(x, base);
    } else if base <= x < 2 * base {
      ModOnePeriod(x, base);
    }
  }

  /** `position(..).unwrap()`: the first index holding x. */
  function Position(s: seq<Interval>, x: Interval): (k: nat)
    requires x in s
    ensures k < |s| && s[k] == x
    ensures forall j :: 0 <= j < k ==> s[j] != x
  {
    if s[0] == x then 0 else 1 + Position(s[1..], x)
  }

  /** The incremental walk: the interval after `current` in the scale's list, wrapping the last
      to the first. */
  function IncrementalSuccessor(intervals: seq<Interval>, current: Interval): (r: Interval)
    requires current in intervals
    ensures r in intervals
  {
    intervals[(Position(intervals, current) + 1) % |intervals|]
  }

  /** The diatonic degrees are pairwise distinct, so each sits at its own position. */
  lemma DiatonicPositions(k: int)
    requires 0 <= k < 7
    ensures Position(DiatonicIntervals, DiatonicIntervals[k]) == k
  {
    DiatonicIntervalsShape();
  }

  /** On the diatonic scale the incremental walk goes from degree k to degree k + 1, and from
      the seventh degree back to the root. */
  lemma DiatonicSuccessor(k: int)
    requires 0 <= k < 7
    ensures k < 6 ==> IncrementalSuccessor(DiatonicIntervals, DiatonicIntervals[k]) == DiatonicIntervals[k + 1]
    ensures k == 6 ==> IncrementalSuccessor(DiatonicIntervals, DiatonicIntervals[k]) == DiatonicIntervals[0]
  {
    assert IncrementalSuccessor(DiatonicIntervals, DiatonicIntervals[k]) == DiatonicIntervals[(k + 1) % 7] by {
      DiatonicPositions(k);
    }
    if k < 6 {
      assert (k + 1) % 7 == k + 1 by {
        ModInRange(k + 1, 7);
      }
    } else {
      assert (k + 1) % 7 == 0 by {
        ModOnePeriod(k + 1, 7);
      }
    }
  }

  /** The seventh degree is followed by the root. */
  lemma SeventhWrapsToRoot()
    ensures IncrementalSuccessor(DiatonicIntervals, Intervals.MajorSeventh) == Unison
  {
    DiatonicSuccessor(6);
    assert DiatonicIntervals[6] == Intervals.MajorSeventh && DiatonicIntervals[0] == Unison;
  }

  /** `next_diatonic_scale_interval`: the incremental successor, or any interval of the scale
      when the walk is random. The position lookup panics when the current interval is not in
      the scale, and the random choice when the scale is empty. */
  method NextDiatonicScaleInterval(option: DiatonicChoice, scale: Scale, current: Interval)
    returns (i: Interval)
    requires option == Incemental ==> current in scale.intervals
    requires |scale.intervals| > 0
    ensures i in scale.intervals
    ensures option == Incemental ==> i == IncrementalSuccessor(scale.intervals, current)
  {
    match option
    case Incemental =>
      i := IncrementalSuccessor(scale.intervals, current);
    case RandomDegree =>
      assert scale.intervals[0] in scale.intervals;
      i :| i in scale.intervals;
  }

  /** Every scale the program builds is `Scale::new(root, Diatonic)`. */
  predicate IsDiatonicScale(s: Scale)
  {
    s.intervals == DiatonicIntervals
  }

  /** The semitones of scale degree k, counted modulo seven degrees. */
  function DegreeSemitones(intervals: seq<Interval>, k: int): (s: int)
    requires |intervals| == 7 && -7 <= k
    ensures 0 <= s <= 12
  {
    IntervalSemitones(intervals[Normalize(k, 7)])
  }

  /** The triad stacked in thirds on degree k (degrees k, k + 2, k + 4), as semitones above
      its root, each reduced into the octave. */
  function TriadPattern(intervals: seq<Interval>, k: int): (p: seq<int>)
    requires |intervals| == 7 && 0 <= k < 7
    ensures |p| == 3 && p[0] == 0
    ensures forall j :: 0 <= j < 3 ==> 0 <= p[j] < 12
  {
    var first := DegreeSemitones(intervals, k);
    [Normalize(first - first, 12),
     Normalize(DegreeSemitones(intervals, k + 2) - first, 12),
     Normalize(DegreeSemitones(intervals, k + 4) - first, 12)]
  }

  /** The qualities of the triads on the seven degrees of a major scale. */
  function DegreeQuality(k: int): Quality
    requires 0 <= k < 7
  {
    if k == 0 || k == 3 || k == 4 then Major
    else if k == 6 then Diminished
    else Minor
  }

  /** The triad on degree 1. */
  lemma TonicTriad()
    ensures TriadPattern(DiatonicIntervals, 0) == [0, 4, 7]
  {
    assert DegreeSemitones(DiatonicIntervals, 0) == 0;
    assert DegreeSemitones(DiatonicIntervals, 2) == 4;
    assert DegreeSemitones(DiatonicIntervals, 4) == 7;
  }

  /** The triad on degree 2. */
  lemma SupertonicTriad()
    ensures TriadPattern(DiatonicIntervals, 1) == [0, 3, 7]
  {
    assert DegreeSemitones(DiatonicIntervals, 1) == 2;
    assert DegreeSemitones(DiatonicIntervals, 3) == 5;
    assert DegreeSemitones(DiatonicIntervals, 5) == 9;
  }

  /** The triad on degree 3. */
  lemma MediantTriad()
    ensures TriadPattern(DiatonicIntervals, 2) == [0, 3, 7]
  {
    assert DegreeSemitones(DiatonicIntervals, 2) == 4;
    assert DegreeSemitones(DiatonicIntervals, 4) == 7;
    assert DegreeSemitones(DiatonicIntervals, 6) == 11;
  }

  /** The triad on degree 4. */
  lemma SubdominantTriad()
    ensures TriadPattern(DiatonicIntervals, 3) == [0, 4, 7]
  {
    assert DegreeSemitones(DiatonicIntervals, 3) == 5;
    assert DegreeSemitones(DiatonicIntervals, 5) == 9;
    assert DegreeSemitones(DiatonicIntervals, 7) == 0;
  }

  /** The triad on degree 5. */
  lemma DominantTriad()
    ensures TriadPattern(DiatonicIntervals, 4) == [0, 4, 7]
  {
    assert DegreeSemitones(DiatonicIntervals, 4) == 7;
    assert DegreeSemitones(DiatonicIntervals, 6) == 11;
    assert DegreeSemitones(DiatonicIntervals, 8) == 2;
  }

  /** The triad on degree 6. */
  lemma SubmediantTriad()
    ensures TriadPattern(DiatonicIntervals, 5) == [0, 3, 7]
  {
    assert DegreeSemitones(DiatonicIntervals, 5) == 9;
    assert DegreeSemitones(DiatonicIntervals, 7) == 0;
    assert DegreeSemitones(DiatonicIntervals, 9) == 4;
  }

  /** The triad on degree 7. */
  lemma LeadingToneTriad()
    ensures TriadPattern(DiatonicIntervals, 6) == [0, 3, 6]
  {
    assert DegreeSemitones(DiatonicIntervals, 6) == 11;
    assert DegreeSemitones(DiatonicIntervals, 8) == 2;
    assert DegreeSemitones(DiatonicIntervals, 10) == 5;
  }

  /** Stacking thirds on each degree of the major scale gives the major, minor or diminished
      triad pattern. */
  lemma DiatonicTriads(k: int)
    requires 0 <= k < 7
    ensures TriadPattern(DiatonicIntervals, k) == QualitySemitones(DegreeQuality(k))
  {
    if k == 0 {
      TonicTriad();
    } else if k == 1 {
      SupertonicTriad();
    } else if k == 2 {
      MediantTriad();
    } else if k == 3 {
      SubdominantTriad();
    } else if k == 4 {
      DominantTriad();
    } else if k == 5 {
      SubmediantTriad();
    } else {
      LeadingToneTriad();
    }
  }

  /** `calculate_chord_quality_in_scale`: the quality whose pattern is the triad stacked on the
      interval's degree. The position lookup panics when the interval is not in the scale, and
      `from_intervals` on a pattern it does not know. */
  function ChordQualityInScale(scale: Scale, interval: Interval): Quality
    requires IsDiatonicScale(scale) && interval in scale.intervals
  {
    var k := Position(scale.intervals, interval);
    DiatonicTriads(k);
    IntervalsRoundTrip(DegreeQuality(k));
    QualityFromIntervals(TriadPattern(scale.intervals, k))
  }

  /** The quality found is the one whose pattern is the triad stacked on the interval's
      degree. */
  lemma ChordQualityInScaleSound(scale: Scale, interval: Interval)
    requires IsDiatonicScale(scale) && interval in scale.intervals
    ensures QualitySemitones(ChordQualityInScale(scale, interval))
      == TriadPattern(scale.intervals, Position(scale.intervals, interval))
  {
    var k := Position(scale.intervals, interval);
    DiatonicTriads(k);
    IntervalsRoundTrip(DegreeQuality(k));
  }

  /** On a diatonic scale the quality found for an interval is the triad quality of the
      degree it sits on. */
  lemma QualityOfDegree(scale: Scale, interval: Interval)
    requires IsDiatonicScale(scale) && interval in scale.intervals
    ensures ChordQualityInScale(scale, interval) == DegreeQuality(Position(scale.intervals, interval))
  {
    var k := Position(scale.intervals, interval);
    DiatonicTriads(k);
    IntervalsRoundTrip(DegreeQuality(k));
  }

  /** On any root the degrees of the diatonic scale carry the qualities major, minor, minor,
      major, major, minor, diminished. */
  lemma ScaleDegreeQualities(root: Note, k: int)
    requires 0 <= k < 7
    ensures ChordQualityInScale(NewScale(root, Scales.Diatonic), DiatonicIntervals[k]) == DegreeQuality(k)
  {
    DiatonicPositions(k);
    DiatonicTriads(k);
    IntervalsRoundTrip(DegreeQuality(k));
  }

  /** The source's first test case: the third degree of C major carries a minor triad. */
  lemma CMajorThirdIsMinor()
    ensures ChordQualityInScale(NewScale(Note(C, 0), Scales.Diatonic), MajorThird) == Minor
  {
    assert DiatonicIntervals[2] == MajorThird;
    ScaleDegreeQualities(Note(C, 0), 2);
  }

  /** The source's second test case: the fourth degree of F sharp major carries a major
      triad. */
  lemma FSharpMajorFourthIsMajor()
    ensures ChordQualityInScale(NewScale(Note(F, 1), Scales.Diatonic), PerfectFourth) == Major
  {
    assert DiatonicIntervals[3] == PerfectFourth;
    ScaleDegreeQualities(Note(F, 1), 3);
  }

  /** What `generate_next_chord` needs of a mode to run without panicking: a non-empty custom
      progression, and a diatonic scale containing the current interval when walking it. */
  predicate CanGenerate(m: Mode, interval: Interval)
  {
    match m
    case Fourths(_) => true
    case Random(_) => true
    case Custom(p) => p.Some? ==> |p.value.chords| > 0
    case Diatonic(s, option) => IsDiatonicScale(s) && interval in s.intervals
  }

  /** What `reset` needs of a mode: a non-empty quality list to choose from, a progression with
      a first chord, and a diatonic scale. */
  predicate CanReset(m: Mode)
  {
    match m
    case Fourths(_) => true
    case Random(qs) => |qs| > 0
    case Custom(p) => p.Some? && |p.value.chords| > 0
    case Diatonic(s, _) => IsDiatonicScale(s)
  }

  /** The relation between the inputs of `generate_next_chord` (the chord, the mode, the
      progression index and scale interval before) and its outcome (the chord returned, the
      index and interval after). */
  predicate Generated(chord: Chord, m: Mode, idx: nat, interval: Interval,
                      r: Option<Chord>, idx': nat, interval': Interval)
  {
    match m
    case Fourths(_) =>
      r == Some(Chord(FourthsRoot(chord.root), chord.quality)) && idx' == idx && interval' == interval
    case Random(qs) =>
      r.Some? && IsOfferedNote(r.value.root)
      && (|qs| > 0 ==> r.value.quality in qs)
      && idx' == idx && interval' == interval
    case Custom(p) =>
      (p.None? ==> r.None? && idx' == idx)
      && (p.Some? ==> ProgressionStep(p.value, idx, r, idx'))
      && interval' == interval
    case Diatonic(s, option) =>
      DiatonicStep(s, option, interval, r, interval') && idx' == idx
  }

  /** A generation step from a resettable mode always yields a chord, keeps the scale
      interval on a degree of the scale, and in a custom progression leaves the index on the
      chord it returned. */
  lemma GeneratedFacts(chord: Chord, m: Mode, idx: nat, interval: Interval,
                       r: Option<Chord>, idx': nat, interval': Interval)
    requires CanReset(m) && interval in DiatonicIntervals
    requires Generated(chord, m, idx, interval, r, idx', interval')
    ensures r.Some? && interval' in DiatonicIntervals
    ensures m.Custom? ==> idx' < |m.progression.value.chords| && r.value == m.progression.value.chords[idx'].chord
  {
  }

  /** A progression step: the index moves one on, wrapping at the end, and the chord it now
      points at is returned. */
  predicate ProgressionStep(p: Progression, idx: nat, r: Option<Chord>, idx': nat)
  {
    |p.chords| > 0 && idx' == (idx + 1) % |p.chords| && r == Some(p.chords[idx'].chord)
  }

  /** A diatonic step: the next interval is a degree of the scale, the following degree when
      walking in order, and the chord returned is built on that degree with the triad quality
      of its position (major, minor, minor, major, major, minor, diminished). */
  predicate DiatonicStep(s: Scale, option: DiatonicChoice, interval: Interval,
                         r: Option<Chord>, interval': Interval)
  {
    IsDiatonicScale(s) && interval' in s.intervals
    && (option == Incemental && interval in s.intervals ==>
          interval' == IncrementalSuccessor(s.intervals, interval))
    && r == Some(Chord(AddIntervalAsWritten(s.root, interval'), DegreeQuality(Position(s.intervals, interval'))))
  }

  /** The chord `reset` starts every non-random mode on. */
  function StartChord(m: Mode): (c: Chord)
    requires CanReset(m) && !m.Random?
  {
    match m
    case Fourths(q) => Chord(Note(B, 0), q)
    case Diatonic(s, _) => Chord(s.root, Major)
    case Custom(p) => p.value.chords[0].chord
  }

  /** The fields of a practice state that generation moves, as one value. */
  datatype Snapshot = Snapshot(current: Chord, next: Chord, idx: nat, interval: Interval)

  /** One `next_chord` in mode m: the upcoming chord becomes current and the new upcoming chord,
      index and interval are one generation step from it. */
  predicate Advanced(m: Mode, s: Snapshot, s': Snapshot)
  {
    s'.current == s.next && Generated(s'.current, m, s.idx, s.interval, Some(s'.next), s'.idx, s'.interval)
  }

  /** What `reset` leaves in mode m, from the progression index and scale interval the state
      held before it: the mode's start chord as current (an offered root with an allowed quality
      in random mode), and as upcoming the chord generated after it. */
  predicate ResetFrom(m: Mode, idx: nat, interval: Interval, s: Snapshot)
  {
    CanReset(m)
    && (!m.Random? ==> s.current == StartChord(m))
    && (m.Random? ==> IsOfferedNote(s.current.root) && s.current.quality in m.qualities)
    && Generated(s.current, m, idx, interval, Some(s.next), s.idx, s.interval)
  }

  /** `reset` as it shows on one practice state, against that state before it. */
  twostate predicate ResetDone(state: PracticeState)
    reads state
  {
    ResetFrom(state.mode, old(state.nextProgressionChordIdx), old(state.nextScaleInterval), state.Snap())
  }

  class PracticeState {
    var currentChord: Chord
    var nextChord: Chord
    var mode: Mode
    var nextScaleInterval: Interval
    var nextProgressionChordIdx: nat

    /** The mode can be reset and advanced: the scale interval is a diatonic degree. */
    predicate Valid()
      reads this
    {
      nextScaleInterval in DiatonicIntervals && CanReset(mode)
    }

    /** The chords, index and interval, as one value. */
    function Snap(): Snapshot
      reads this
    {
      Snapshot(currentChord, nextChord, nextProgressionChordIdx, nextScaleInterval)
    }

    /** In a custom progression, the upcoming chord is the one at the stored index. */
    predicate CustomAligned()
      reads this
    {
      mode.Custom? && mode.progression.Some? ==>
        nextProgressionChordIdx < |mode.progression.value.chords|
        && nextChord == mode.progression.value.chords[nextProgressionChordIdx].chord
    }

    /** `PracticState::default()`: major fourths from B major to E major, the walk on the root,
        the progression at its start. */
    constructor ()
      ensures mode == Fourths(Major)
      ensures currentChord == Chord(Note(B, 0), Major) && nextChord == Chord(Note(E, 0), Major)
      ensures nextScaleInterval == Unison && nextProgressionChordIdx == 0
      ensures Valid() && CustomAligned()
    {
      mode := Fourths(Major);
      currentChord := Chord(Note(B, 0), Major);
      nextChord := Chord(Note(E, 0), Major);
      nextScaleInterval := Unison;
      nextProgressionChordIdx := 0;
    }

    /** `generate_next_chord(chord, mode)`: the chord that follows `chord` in `mode`. Only the
        progression index (custom mode) and the scale interval (diatonic mode) change. */
    method GenerateNextChord(chord: Chord, m: Mode) returns (r: Option<Chord>)
      requires CanGenerate(m, nextScaleInterval)
      modifies this`nextProgressionChordIdx, this`nextScaleInterval
      ensures Generated(chord, m, old(nextProgressionChordIdx), old(nextScaleInterval),
                        r, nextProgressionChordIdx, nextScaleInterval)
    {
      match m {
      case Fourths(_) =>
        var c := NextFourthsChord(chord);
        r := Some(c);
      case Random(qualities) =>
        var c := NextRandomChord(qualities);
        r := Some(c);
      case Custom(p) =>
        match p {
        case Some(progression) =>
          var c := GenerateProgressionChord(progression);
          r := Some(c);
        case None =>
          r := None;
        }
      case Diatonic(scale, option) =>
        var c := GenerateDiatonicChord(scale, option);
        r := Some(c);
      }
    }

    /** The fourths arm of `generate_next_chord`: the same quality a fourth higher, G flat
        respelled as F sharp. */
    static method NextFourthsChord(chord: Chord) returns (c: Chord)
      ensures c == Chord(FourthsRoot(chord.root), chord.quality)
    {
      var nextNote := AddIntervalAsWritten(chord.root, PerfectFourth);
      if nextNote == Note(G, -1) {
        nextNote := Note(F, 1);
      }
      c := Chord(nextNote, chord.quality);
    }

    /** The random arm of `generate_next_chord`: an offered root with one of the listed
        qualities, or with any quality when the list is empty. */
    static method NextRandomChord(qualities: seq<Quality>) returns (c: Chord)
      ensures IsOfferedNote(c.root)
      ensures |qualities| > 0 ==> c.quality in qualities
    {
      if |qualities| == 0 {
        c := RandomChord(None);
      } else {
        c := RandomChord(Some(qualities));
      }
    }

    /** The custom arm of `generate_next_chord`: the progression index moves one on, wrapping
        at the end, and the chord it now points at is returned. */
    method GenerateProgressionChord(progression: Progression) returns (c: Chord)
      requires |progression.chords| > 0
      modifies this`nextProgressionChordIdx
      ensures ProgressionStep(progression, old(nextProgressionChordIdx), Some(c), nextProgressionChordIdx)
    {
      nextProgressionChordIdx := (nextProgressionChordIdx + 1) % |progression.chords|;
      c := progression.chords[nextProgressionChordIdx].chord;
    }

    /** The diatonic arm of `generate_next_chord`: the next degree of the scale is stored and
        the chord on it, with the quality the scale gives that degree, is returned. */
    method GenerateDiatonicChord(scale: Scale, option: DiatonicChoice) returns (c: Chord)
      requires IsDiatonicScale(scale) && nextScaleInterval in scale.intervals
      modifies this`nextScaleInterval
      ensures DiatonicStep(scale, option, old(nextScaleInterval), Some(c), nextScaleInterval)
    {
      var current := nextScaleInterval;
      var interval := NextDiatonicScaleInterval(option, scale, current);
      assert interval != Octave by {
        DiatonicIntervalsShape();
      }
      var quality := ChordQualityInScale(scale, interval);
      QualityOfDegree(scale, interval);
      var nextNote := AddIntervalAsWritten(scale.root, interval);
      c := Chord(nextNote, quality);
      assert DiatonicStep(scale, option, current, Some(c), interval);
      nextScaleInterval := interval;
    }

    /** `reset`: the mode's starting chord (a random root and allowed quality in random mode),
        then the chord generated after it. The progression index is not rewound. */
    method Reset()
      requires Valid()
      modifies this`currentChord, this`nextChord, this`nextProgressionChordIdx, this`nextScaleInterval
      ensures mode == old(mode) && Valid()
      ensures ResetDone(this)
      ensures CustomAligned()
    {
      var m, idx, interval := mode, nextProgressionChordIdx, nextScaleInterval;
      var start := ResetChord(m);
      var r := GenerateNextChord(start, m);
      GeneratedFacts(start, m, idx, interval, r, nextProgressionChordIdx, nextScaleInterval);
      ghost var after := Snapshot(start, r.value, nextProgressionChordIdx, nextScaleInterval);
      assert ResetFrom(m, idx, interval, after);
      currentChord, nextChord := start, r.value;
      assert Snap() == after;
    }

    /** The first chord `reset` puts up: the mode's start chord, or in random mode an offered
        root with one of the allowed qualities. */
    static method ResetChord(m: Mode) returns (c: Chord)
      requires CanReset(m)
      ensures !m.Random? ==> c == StartChord(m)
      ensures m.Random? ==> IsOfferedNote(c.root) && c.quality in m.qualities
    {
      match m {
      case Fourths(q) =>
        c := Chord(Note(B, 0), q);
      case Random(qs) =>
        var note := RandomNote();
        assert qs[0] in qs;
        var q :| q in qs;
        c := Chord(note, q);
      case Diatonic(scale, _) =>
        c := Chord(scale.root, Major);
      case Custom(p) =>
        c := p.value.chords[0].chord;
      }
    }

    /** `set_mode`: an equal mode changes nothing and reports false; a different one is stored,
        the state is reset for it, and true is reported. */
    method SetMode(m: Mode) returns (changed: bool)
      requires Valid()
      requires m != mode ==> CanReset(m)
      modifies this
      ensures changed <==> m != old(mode)
      ensures !changed ==>
        currentChord == old(currentChord) && nextChord == old(nextChord) && mode == old(mode)
        && nextScaleInterval == old(nextScaleInterval)
        && nextProgressionChordIdx == old(nextProgressionChordIdx)
      ensures mode == m && Valid()
      ensures changed ==> ResetDone(this) && CustomAligned()
    {
      if m == mode {
        return false;
      }
      mode := m;
      Reset();
      changed := true;
    }

    /** `next_chord`: the upcoming chord becomes current and the chord after it is generated.
        The state stays valid, and in a custom progression the upcoming chord stays the one at
        the stored index. */
    method NextChord()
      requires Valid()
      modifies this
      ensures mode == old(mode) && Valid()
      ensures currentChord == old(nextChord)
      ensures Generated(currentChord, mode, old(nextProgressionChordIdx), old(nextScaleInterval),
                        Some(nextChord), nextProgressionChordIdx, nextScaleInterval)
      ensures CustomAligned()
    {
      currentChord := nextChord;
      var r := GenerateNextChord(currentChord, mode);
      GeneratedFacts(currentChord, mode, old(nextProgressionChordIdx), old(nextScaleInterval),
                     r, nextProgressionChordIdx, nextScaleInterval);
      nextChord := r.value;
    }
  }
}
