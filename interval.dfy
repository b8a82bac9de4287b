/** chordflow_music_theory/src/interval.rs: intervals, their size in semitones and their
    distance in letter names. */
module Intervals {
  datatype Interval =
    | Unison | MinorSecond | MajorSecond | MinorThird | MajorThird | PerfectFourth
    | AugmentedFourth | Tritone | DiminishedFifth | PerfectFifth | MinorSixth | MajorSixth
    | MinorSeventh | MajorSeventh | Octave

  /** The variants in declaration order, as `Interval::iter()` yields them. */
  const AllIntervals: seq<Interval> := [
    Unison, MinorSecond, MajorSecond, MinorThird, MajorThird, PerfectFourth,
    AugmentedFourth, Tritone, DiminishedFifth, PerfectFifth, MinorSixth, MajorSixth,
    MinorSeventh, MajorSeventh, Octave
  ]

  /** `to_semitones`: the size of the interval; only the octave reaches 12. */
  function IntervalSemitones(i: Interval): (s: int)
    ensures 0 <= s <= 12
    ensures s == 12 <==> i == Octave
    ensures s == 0 <==> i == Unison
  {
    match i
    case Unison => 0
    case MinorSecond => 1
    case MajorSecond => 2
    case MinorThird => 3
    case MajorThird => 4
    case PerfectFourth => 5
    case AugmentedFourth => 6
    case Tritone => 6
    case DiminishedFifth => 6
    case PerfectFifth => 7
    case MinorSixth => 8
    case MajorSixth => 9
    case MinorSeventh => 10
    case MajorSeventh => 11
    case Octave => 12
  }

  /** `from_semitone`: defined on 0..11 only (anything else panics); six semitones are spelled
      as a Tritone, never as an augmented fourth or a diminished fifth. */
  function IntervalFromSemitone(s: int): (i: Interval)
    requires 0 <= s < 12
    ensures IntervalSemitones(i) == s
    ensures i != AugmentedFourth && i != DiminishedFifth && i != Octave
  {
    match s
    case 0 => Unison
    case 1 => MinorSecond
    case 2 => MajorSecond
    case 3 => MinorThird
    case 4 => MajorThird
    case 5 => PerfectFourth
    case 6 => Tritone
    case 7 => PerfectFifth
    case 8 => MinorSixth
    case 9 => MajorSixth
    case 10 => MinorSeventh
    case _ => MajorSeventh
  }

  /** `to_index`: how many letter names the interval spans; the octave panics. */
  function IntervalIndex(i: Interval): (k: int)
    requires i != Octave
    ensures 0 <= k < 7
    ensures k == 0 <==> i == Unison
  {
    match i
    case Unison => 0
    case MinorSecond => 1
    case MajorSecond => 1
    case MinorThird => 2
    case MajorThird => 2
    case PerfectFourth => 3
    case AugmentedFourth => 3
    case Tritone => 3
    case DiminishedFifth => 4
    case PerfectFifth => 4
    case MinorSixth => 5
    case MajorSixth => 5
    case MinorSeventh => 6
    case MajorSeventh => 6
  }

  /** `from_semitones`: the element-wise map of `IntervalFromSemitone`. */
  function IntervalsFromSemitones(ss: seq<int>): (r: seq<Interval>)
    requires forall k :: 0 <= k < |ss| ==> 0 <= ss[k] < 12
    ensures |r| == |ss|
    ensures forall k :: 0 <= k < |ss| ==> IntervalSemitones(r[k]) == ss[k]
    ensures forall k :: 0 <= k < |r| ==> r[k] == IntervalFromSemitone(ss[k])
  {
    seq(|ss|, k requires 0 <= k < |ss| => IntervalFromSemitone(ss[k]))
  }

  /** Reading an interval's size back gives the interval itself, except for the two
      alternative spellings of six semitones and the octave. */
  lemma SemitoneRoundTrip(i: Interval)
    requires i != AugmentedFourth && i != DiminishedFifth && i != Octave
    ensures IntervalFromSemitone(IntervalSemitones(i)) == i
  {
  }

  /** Sizes never decrease along the declaration order. */
  lemma SemitonesNonDecreasing(j: int, k: int)
    requires 0 <= j <= k < |AllIntervals|
    ensures IntervalSemitones(AllIntervals[j]) <= IntervalSemitones(AllIntervals[k])
  {
  }

  /** The three six-semitone intervals: same size, but the diminished fifth spans one
      more letter than the other two. */
  lemma SixSemitoneSpellings()
    ensures IntervalSemitones(AugmentedFourth) == IntervalSemitones(Tritone) == IntervalSemitones(DiminishedFifth) == 6
    ensures IntervalIndex(AugmentedFourth) == IntervalIndex(Tritone) == 3
    ensures IntervalIndex(DiminishedFifth) == 4
  {
  }
}
