/** src/music/scale.rs: a scale is a root, a scale type and the intervals of its degrees. */
module Scales {
  import opened Notes
  import opened Intervals

  datatype ScaleType = Diatonic

  datatype Scale = Scale(root: Note, scaleType: ScaleType, intervals: seq<Interval>)

  /** The seven degrees of the diatonic (major) scale, from the root up. */
  const DiatonicIntervals: seq<Interval> :=
    [Unison, MajorSecond, MajorThird, PerfectFourth, PerfectFifth, MajorSixth, MajorSeventh]

  /** `Scale::new`: root and type are stored as given; the intervals depend on the type only. */
  function NewScale(root: Note, scaleType: ScaleType): (s: Scale)
    ensures s.root == root && s.scaleType == scaleType
    ensures scaleType == Diatonic ==> |s.intervals| == 7
    ensures scaleType == Diatonic ==>
      forall k :: 0 <= k < 7 ==> IntervalSemitones(s.intervals[k]) == [0, 2, 4, 5, 7, 9, 11][k]
  {
    match scaleType
    case Diatonic => Scale(root, scaleType, DiatonicIntervals)
  }

  /** The degrees are distinct, rise strictly, and none is the octave, so each has a letter
      distance and degree k lies k letters above the root. */
  lemma DiatonicIntervalsShape()
    ensures forall j, k :: 0 <= j < k < 7 ==>
      IntervalSemitones(DiatonicIntervals[j]) < IntervalSemitones(DiatonicIntervals[k])
    ensures forall k :: 0 <= k < 7 ==> DiatonicIntervals[k] != Octave && IntervalIndex(DiatonicIntervals[k]) == k
  {
  }

  /** The second degree lies a major second above the root. */
  lemma DiatonicSecond()
    ensures DiatonicIntervals[1] == MajorSecond
  {
  }

  /** Two scales of the same type share their interval list whatever their roots. */
  lemma IntervalsIndependentOfRoot(r1: Note, r2: Note, t: ScaleType)
    ensures NewScale(r1, t).intervals == NewScale(r2, t).intervals
  {
  }

  /** The derived `Display` name of the scale type. */
  function ScaleTypeName(t: ScaleType): string
  {
    match t
    case Diatonic => "Diatonic"
  }

  /** `Display for Scale`: the root, one space, the scale type. */
  function ScaleText(s: Scale): (t: string)
    ensures t == NoteToString(s.root) + " " + ScaleTypeName(s.scaleType)
    ensures |t| > |NoteToString(s.root)| && t[|NoteToString(s.root)|] == ' '
  {
    NoteToString(s.root) + " " + ScaleTypeName(s.scaleType)
  }

  /** The degrees of C major are the seven natural notes C D E F G A B, with the spelling as
      written and with the corrected one alike. */
  lemma CMajorNotes()
    ensures forall k :: 0 <= k < 7 ==> AddIntervalAsWritten(Note(C, 0), DiatonicIntervals[k]) == Note(AllLetters[k], 0)
    ensures forall k :: 0 <= k < 7 ==> AddInterval(Note(C, 0), DiatonicIntervals[k]) == Note(AllLetters[k], 0)
  {
    forall k | 0 <= k < 7
      ensures AddIntervalAsWritten(Note(C, 0), DiatonicIntervals[k]) == Note(AllLetters[k], 0)
      ensures AddInterval(Note(C, 0), DiatonicIntervals[k]) == Note(AllLetters[k], 0)
    {
      var i := DiatonicIntervals[k];
      AddIntervalFromC(i);
      assert ExpectedFromC(i) == Note(AllLetters[k], 0);
      AddIntervalAgrees(Note(C, 0), i);
    }
  }
}
