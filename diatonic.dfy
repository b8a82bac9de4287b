/** chordflow_desktop/src/state/diatonic.rs: the desktop's diatonic generator. It keeps a
    diatonic scale, the current and upcoming chords, and the scale interval the walk last
    reached, and builds each chord on a degree of the scale with that degree's triad quality.
    The interval walk and the quality lookup are the ones of the shared practice state. */
module DesktopDiatonic {
  import opened Wrappers
  import opened Notes
  import opened Intervals
  import opened Qualities
  import opened Chords
  import opened Scales
  import opened SharedModes
  import opened PracticeStates

  /** The desktop keeps a flag where the shared state keeps an option. */
  function ChoiceOf(isRandom: bool): (o: DiatonicChoice)
    ensures o == Incemental <==> !isRandom
  {
    if isRandom then RandomDegree else Incemental
  }

  /** The chord on degree k of the diatonic scale on root: the root moved by the degree's
      interval, with the triad quality of the degree. */
  function DegreeChord(root: Note, k: int): Chord
    requires 0 <= k < 7
  {
    Chord(AddIntervalAsWritten(root, DiatonicIntervals[k]), DegreeQuality(k))
  }

  /** The second degree of A sharp major, as `add_interval` spells it: B with eleven flats. */
  lemma ASharpSupertonic()
    ensures DegreeChord(Note(A, 1), 1) == Chord(Note(B, -11), Minor)
  {
  }

  /** The intervals of the diatonic scale, told apart by their variant. */
  predicate IsDegree(i: Interval)
  {
    i.Unison? || i.MajorSecond? || i.MajorThird? || i.PerfectFourth? || i.PerfectFifth?
    || i.MajorSixth? || i.MajorSeventh?
  }

  /** The degree after k, the seventh wrapping to the root. */
  function NextDegree(k: int): int
  {
    if k == 6 then 0 else k + 1
  }

  /** One step of the desktop's walk, stated on degrees: the walk lands on a degree of the
      scale, in order it lands on the degree after the current one, and the chord is the one
      on the degree landed on. */
  predicate DegreeStep(root: Note, isRandom: bool, current: Interval, c: Chord, interval': Interval)
  {
    IsDegree(interval')
    && (!isRandom && IsDegree(current) ==> IntervalIndex(interval') == NextDegree(IntervalIndex(current)))
    && c == DegreeChord(root, IntervalIndex(interval'))
  }

  /** What `preview_next_chord` may show: the chord on the second degree when walking in
      order, a chord on some degree when walking at random. */
  predicate IsPreview(root: Note, isRandom: bool, c: Chord)
  {
    (!isRandom ==> c == DegreeChord(root, 1))
    && (isRandom ==> exists k :: 0 <= k < 7 && c == DegreeChord(root, k))
  }

  /** The degrees are exactly the members of the diatonic interval list, each at the position
      its index names. */
  lemma DegreesListed(i: Interval)
    ensures IsDegree(i) <==> i in DiatonicIntervals
    ensures IsDegree(i) ==> Position(DiatonicIntervals, i) == IntervalIndex(i)
  {
    DiatonicIntervalsShape();
    if IsDegree(i) {
      var k := Position(DiatonicIntervals, i);
      assert DiatonicIntervals[k] == i;
    }
  }

  /** The incremental walk over the diatonic list moves to the next degree. */
  lemma SuccessorOnDegrees(current: Interval)
    requires IsDegree(current)
    ensures current in DiatonicIntervals
    ensures IsDegree(IncrementalSuccessor(DiatonicIntervals, current))
    ensures IntervalIndex(IncrementalSuccessor(DiatonicIntervals, current)) == NextDegree(IntervalIndex(current))
  {
    DegreesListed(current);
    var k := IntervalIndex(current);
    DiatonicSuccessor(k);
    DiatonicIntervalsShape();
    DegreesListed(IncrementalSuccessor(DiatonicIntervals, current));
  }

  /** The shared state's diatonic step, seen on degrees. */
  lemma StepOnDegrees(s: Scale, isRandom: bool, current: Interval, c: Chord, interval': Interval)
    requires IsDiatonicScale(s) && IsDegree(current)
    requires DiatonicStep(s, ChoiceOf(isRandom), current, Some(c), interval')
    ensures DegreeStep(s.root, isRandom, current, c, interval')
  {
    assert IsDegree(interval') && Position(s.intervals, interval') == IntervalIndex(interval') by {
      DegreesListed(interval');
    }
    if !isRandom {
      SuccessorOnDegrees(current);
    }
  }

  /** From the root, the walk in order moves to the second degree. */
  lemma StepFromRoot(root: Note, c: Chord, interval': Interval)
    requires DegreeStep(root, false, Unison, c, interval')
    ensures interval' == MajorSecond && c == DegreeChord(root, 1)
  {
  }

  /** Consecutive degrees carry different letters, so the walk in order never shows the same
      chord twice in a row. */
  lemma NextDegreeDiffers(root: Note, k: int)
    requires 0 <= k < 7
    ensures DegreeChord(root, k) != DegreeChord(root, NextDegree(k))
  {
    DiatonicIntervalsShape();
    var j := NextDegree(k);
    var l := LetterIndex(root.letter);
    assert LetterIndex(DegreeChord(root, k).root.letter) == (l + k) % 7;
    assert LetterIndex(DegreeChord(root, j).root.letter) == (l + j) % 7;
    var q, r := (l + k) / 7, (l + j) / 7;
    assert l + k == 7 * q + (l + k) % 7;
    assert l + j == 7 * r + (l + j) % 7;
  }

  /** Seen from C major: the chord on the second degree is D minor. */
  lemma CMajorSupertonic()
    ensures DegreeChord(Note(C, 0), 1) == Chord(Note(D, 0), Minor)
  {
    calc {
      DegreeChord(Note(C, 0), 1);
      { DiatonicSecond(); }
      Chord(AddIntervalAsWritten(Note(C, 0), MajorSecond), Minor);
      { AddIntervalFromC(MajorSecond); }
      Chord(ExpectedFromC(MajorSecond), Minor);
    }
  }

  /** One diatonic step from `current`, as `generate_next_chord` takes it: the next interval of
      the walk, and the chord on it with the quality found in the scale. */
  method StepFrom(s: Scale, isRandom: bool, current: Interval) returns (c: Chord, interval: Interval)
    requires IsDiatonicScale(s) && IsDegree(current)
    ensures DegreeStep(s.root, isRandom, current, c, interval)
  {
    DegreesListed(current);
    interval := NextDiatonicScaleInterval(ChoiceOf(isRandom), s, current);
    var quality := ChordQualityInScale(s, interval);
    QualityOfDegree(s, interval);
    assert interval != Octave by {
      DiatonicIntervalsShape();
    }
    c := Chord(AddIntervalAsWritten(s.root, interval), quality);
    StepOnDegrees(s, isRandom, current, c, interval);
  }

  class DiatonicConfig {
    var scale: Scale
    var isRandom: bool
    var nextScaleInterval: Interval
    var currentChord: Chord
    var nextChord: Chord

    /** The scale is diatonic and the stored interval is one of its degrees. */
    predicate Valid()
      reads this
    {
      IsDiatonicScale(scale) && IsDegree(nextScaleInterval)
    }

    /** The upcoming chord is the one on the degree the walk last reached. */
    predicate InStep()
      reads this
    {
      IsDegree(nextScaleInterval) && nextChord == DegreeChord(scale.root, IntervalIndex(nextScaleInterval))
    }

    /** `get_chords`: the display texts of the current and upcoming chords. */
    function GetChords(): (texts: (string, string))
      reads this
      ensures texts == (TheoryChordText(currentChord), TheoryChordText(nextChord))
    {
      (TheoryChordText(currentChord), TheoryChordText(nextChord))
    }

    /** `DiatonicConfig::default()`: C diatonic walked in order, C major then D minor, and the
        walk still on the root. */
    constructor ()
      ensures scale == NewScale(Note(C, 0), Scales.Diatonic) && !isRandom
      ensures currentChord == Chord(Note(C, 0), Major) && nextChord == Chord(Note(D, 0), Minor)
      ensures nextScaleInterval == Unison && Valid()
    {
      scale := NewScale(Note(C, 0), Scales.Diatonic);
      isRandom := false;
      currentChord := Chord(Note(C, 0), Major);
      nextScaleInterval := Unison;
      nextChord := Chord(Note(D, 0), Minor);
    }

    /** `preview_next_chord`: the chord a step from the root would give. The stored interval
        is neither read nor written. */
    method PreviewNextChord() returns (c: Chord)
      requires IsDiatonicScale(scale)
      ensures IsPreview(scale.root, isRandom, c)
    {
      var interval;
      c, interval := StepFrom(scale, isRandom, Unison);
    }

    /** `set_root`: the scale is rebuilt on the new root, the current chord is its major chord
        and the upcoming one the preview. The random flag and the stored interval are kept. */
    method SetRoot(root: Note)
      requires Valid()
      modifies this`scale, this`currentChord, this`nextChord
      ensures scale == NewScale(root, Scales.Diatonic) && Valid()
      ensures currentChord == Chord(root, Major) && IsPreview(root, isRandom, nextChord)
    {
      scale := NewScale(root, Scales.Diatonic);
      currentChord := Chord(scale.root, Major);
      nextChord := PreviewNextChord();
    }

    /** `reset`: the current chord is the root's major chord and the upcoming one the preview;
        the scale, the random flag and the stored interval are kept. */
    method Reset()
      requires Valid()
      modifies this`currentChord, this`nextChord
      ensures Valid()
      ensures currentChord == Chord(scale.root, Major) && IsPreview(scale.root, isRandom, nextChord)
    {
      currentChord := Chord(scale.root, Major);
      nextChord := PreviewNextChord();
    }

    /** `generate_next_chord`: the upcoming chord becomes current, and a diatonic step from the
        stored interval gives the new upcoming chord and interval. */
    method GenerateNextChord()
      requires Valid()
      modifies this`currentChord, this`nextChord, this`nextScaleInterval
      ensures currentChord == old(nextChord) && Valid() && InStep()
      ensures DegreeStep(scale.root, isRandom, old(nextScaleInterval), nextChord, nextScaleInterval)
    {
      var c, interval := StepFrom(scale, isRandom, nextScaleInterval);
      currentChord := nextChord;
      nextScaleInterval := interval;
      nextChord := c;
    }

    /** A reset that also stores the interval its preview stands on, so that the walk goes on
        from the degree shown. */
    method ResetInStep()
      requires Valid()
      modifies this`currentChord, this`nextChord, this`nextScaleInterval
      ensures currentChord == Chord(scale.root, Major) && Valid() && InStep()
      ensures IsPreview(scale.root, isRandom, nextChord)
    {
      var c, interval := StepFrom(scale, isRandom, Unison);
      currentChord := Chord(scale.root, Major);
      nextScaleInterval := interval;
      nextChord := c;
    }
  }

  /** As written, `default` leaves the walk on the root while already showing the second
      degree, so the first step shows D minor again: the chord that just became current is also
      the new upcoming chord. */
  method DefaultRepeatsSupertonic() returns (current: Chord, next: Chord)
    ensures current == Chord(Note(D, 0), Minor) && next == current
  {
    var d := new DiatonicConfig();
    d.GenerateNextChord();
    CMajorSupertonic();
    current, next := d.currentChord, d.nextChord;
  }

  /** With the walk kept on the degree shown, each step in order moves to the next degree, and
      the new upcoming chord differs from the one that just became current. */
  lemma InStepAdvances(root: Note, interval: Interval, shown: Chord, c: Chord, interval': Interval)
    requires IsDegree(interval) && shown == DegreeChord(root, IntervalIndex(interval))
    requires DegreeStep(root, false, interval, c, interval')
    ensures c != shown
  {
    NextDegreeDiffers(root, IntervalIndex(interval));
  }
}
