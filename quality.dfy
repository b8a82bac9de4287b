/** chordflow_music_theory/src/quality.rs: chord qualities, their symbols and names, and their
    interval patterns. */
module Qualities {
  import Intervals

  datatype Quality =
    | Major | Minor | Diminished | Augmented
    | Dominant | MajorSeventh | MinorSeventh | HalfDiminished

  /** The variants in declaration order, as `Quality::iter()` yields them. */
  const AllQualities: seq<Quality> :=
    [Major, Minor, Diminished, Augmented, Dominant, MajorSeventh, MinorSeventh, HalfDiminished]

  /** `Quality::iter()` lists every quality exactly once. */
  lemma AllQualitiesListsEach()
    ensures |AllQualities| == 8
    ensures forall q: Quality :: q in AllQualities
    ensures forall j, k :: 0 <= j < k < |AllQualities| ==> AllQualities[j] != AllQualities[k]
  {
    forall q: Quality
      ensures q in AllQualities
    {
      match q
      case Major => assert AllQualities[0] == q;
      case Minor => assert AllQualities[1] == q;
      case Diminished => assert AllQualities[2] == q;
      case Augmented => assert AllQualities[3] == q;
      case Dominant => assert AllQualities[4] == q;
      case MajorSeventh => assert AllQualities[5] == q;
      case MinorSeventh => assert AllQualities[6] == q;
      case HalfDiminished => assert AllQualities[7] == q;
    }
  }

  /** `#[default]` is Major. */
  const DefaultQuality: Quality := Major

  /** The strum `Display` symbols: the suffix printed after a chord's root. */
  function QualitySymbol(q: Quality): string
  {
    match q
    case Major => ""
    case Minor => "-"
    case Diminished => "o"
    case Augmented => "+"
    case Dominant => "7"
    case MajorSeventh => "Δ"
    case MinorSeventh => "-7"
    case HalfDiminished => "ø"
  }

  /** The symbols are pairwise distinct, so a symbol names one quality. */
  lemma QualitySymbolsDistinct(p: Quality, q: Quality)
    requires QualitySymbol(p) == QualitySymbol(q)
    ensures p == q
  {
  }

  /** `from_string` as written: "m7" is read as a major seventh, and anything unrecognised as
      Major. */
  function QualityFromStringAsWritten(s: string): (q: Quality)
    ensures q == Minor <==> s == "m" || s == "-"
    ensures q == Diminished <==> s == "o" || s == "dim"
    ensures q == Augmented <==> s == "+" || s == "aug"
    ensures q == Dominant <==> s == "7"
    ensures q == MajorSeventh <==> s == "maj7" || s == "m7"
    ensures q == HalfDiminished <==> s == "m7b5"
    ensures q != MinorSeventh
    ensures q == Major <==> s !in {"m", "-", "o", "dim", "+", "aug", "7", "maj7", "m7", "m7b5"}
  {
    match s
    case "" => Major
    case "m" => Minor
    case "-" => Minor
    case "o" => Diminished
    case "dim" => Diminished
    case "+" => Augmented
    case "aug" => Augmented
    case "7" => Dominant
    case "maj7" => MajorSeventh
    case "m7" => MajorSeventh
    case "m7b5" => HalfDiminished
    case _ => Major
  }

  /** `from_string` with "m7" read as the minor seventh it abbreviates; every other input is
      read as the source reads it. */
  function QualityFromString(s: string): (q: Quality)
    ensures q == Minor <==> s == "m" || s == "-"
    ensures q == Diminished <==> s == "o" || s == "dim"
    ensures q == Augmented <==> s == "+" || s == "aug"
    ensures q == Dominant <==> s == "7"
    ensures q == MajorSeventh <==> s == "maj7"
    ensures q == MinorSeventh <==> s == "m7"
    ensures q == HalfDiminished <==> s == "m7b5"
    ensures s != "m7" ==> q == QualityFromStringAsWritten(s)
  {
    if s == "m7" then MinorSeventh else QualityFromStringAsWritten(s)
  }

  /** "m7" is a minor seventh chord, but the source reads it as a major seventh. */
  lemma MinorSeventhMisread()
    ensures QualityFromStringAsWritten("m7") == MajorSeventh
    ensures QualityFromString("m7") == MinorSeventh
  {
  }

  /** `name`: the long name shown in menus. */
  function QualityName(q: Quality): string
  {
    match q
    case Major => "Major"
    case Minor => "Minor"
    case Diminished => "Diminished"
    case Augmented => "Augmented"
    case Dominant => "Dominant"
    case MinorSeventh => "Minor Seventh"
    case MajorSeventh => "Major Seventh"
    case HalfDiminished => "Half Diminished"
  }

  /** `from_name`: the inverse of `name`; anything else reads as Major. */
  function QualityFromName(s: string): (q: Quality)
    ensures forall p :: QualityName(p) == s ==> q == p
    ensures QualityName(q) == s || q == Major
  {
    match s
    case "Major" => Major
    case "Minor" => Minor
    case "Diminished" => Diminished
    case "Augmented" => Augmented
    case "Dominant" => Dominant
    case "Minor Seventh" => MinorSeventh
    case "Major Seventh" => MajorSeventh
    case "Half Diminished" => HalfDiminished
    case _ => Major
  }

  /** Names identify qualities: reading back a name gives the quality, so no two share one. */
  lemma NameRoundTrip(q: Quality)
    ensures QualityFromName(QualityName(q)) == q
  {
  }

  /** The semitone pattern `to_intervals` feeds to `from_semitones`. */
  function QualitySemitones(q: Quality): (p: seq<int>)
    ensures |p| == 3 || |p| == 4
    ensures p[0] == 0
    ensures forall k :: 0 <= k < |p| ==> 0 <= p[k] < 12
    ensures forall j, k :: 0 <= j < k < |p| ==> p[j] < p[k]
  {
    match q
    case Major => [0, 4, 7]
    case Minor => [0, 3, 7]
    case Diminished => [0, 3, 6]
    case Augmented => [0, 4, 8]
    case Dominant => [0, 4, 7, 10]
    case MinorSeventh => [0, 3, 7, 10]
    case MajorSeventh => [0, 4, 7, 11]
    case HalfDiminished => [0, 3, 6, 10]
  }

  /** The four triads. */
  predicate IsTriad(q: Quality)
  {
    q in {Major, Minor, Diminished, Augmented}
  }

  /** `to_intervals`: three intervals for a triad, four for a seventh chord, always starting at
      the root, each as large as the pattern says and rising. */
  function QualityIntervals(q: Quality): (r: seq<Intervals.Interval>)
    ensures |r| == (if IsTriad(q) then 3 else 4)
    ensures r[0] == Intervals.Unison
    ensures forall k :: 0 <= k < |r| ==> r[k] != Intervals.Octave && Intervals.IntervalSemitones(r[k]) == QualitySemitones(q)[k]
    ensures forall j, k :: 0 <= j < k < |r| ==> Intervals.IntervalSemitones(r[j]) < Intervals.IntervalSemitones(r[k])
  {
    Intervals.IntervalsFromSemitones(QualitySemitones(q))
  }

  /** The patterns `from_intervals` matches, as written: the augmented triad is listed as
      [0, 5, 7]. */
  function MatchedPatternAsWritten(q: Quality): seq<int>
  {
    if q == Augmented then [0, 5, 7] else QualitySemitones(q)
  }

  /** The input `from_intervals` accepts without panicking. */
  predicate IsMatchedPatternAsWritten(s: seq<int>)
  {
    s in {[0, 4, 7], [0, 3, 7], [0, 3, 6], [0, 5, 7], [0, 4, 7, 10], [0, 3, 7, 10], [0, 4, 7, 11], [0, 3, 6, 10]}
  }

  /** `from_intervals` as written: panics on any other pattern. */
  function QualityFromIntervalsAsWritten(s: seq<int>): (q: Quality)
    requires IsMatchedPatternAsWritten(s)
    ensures MatchedPatternAsWritten(q) == s
  {
    if s == [0, 4, 7] then Major
    else if s == [0, 3, 7] then Minor
    else if s == [0, 3, 6] then Diminished
    else if s == [0, 5, 7] then Augmented
    else if s == [0, 4, 7, 10] then Dominant
    else if s == [0, 3, 7, 10] then MinorSeventh
    else if s == [0, 4, 7, 11] then MajorSeventh
    else HalfDiminished
  }

  /** The augmented triad's own pattern [0, 4, 8] is not among the patterns `from_intervals`
      matches, so it panics on it; every other quality survives the round trip. */
  lemma AugmentedPatternRejected()
    ensures !IsMatchedPatternAsWritten(QualitySemitones(Augmented))
    ensures forall q :: q != Augmented ==>
      IsMatchedPatternAsWritten(QualitySemitones(q)) && QualityFromIntervalsAsWritten(QualitySemitones(q)) == q
  {
  }

  /** The patterns `to_intervals` produces. */
  predicate IsQualityPattern(s: seq<int>)
  {
    s in {[0, 4, 7], [0, 3, 7], [0, 3, 6], [0, 4, 8], [0, 4, 7, 10], [0, 3, 7, 10], [0, 4, 7, 11], [0, 3, 6, 10]}
  }

  /** `from_intervals` with the augmented triad matched by its own pattern [0, 4, 8]. */
  function QualityFromIntervals(s: seq<int>): (q: Quality)
    requires IsQualityPattern(s)
    ensures QualitySemitones(q) == s
    ensures s != [0, 4, 8] ==> IsMatchedPatternAsWritten(s) && q == QualityFromIntervalsAsWritten(s)
  {
    if s == [0, 4, 8] then Augmented else QualityFromIntervalsAsWritten(s)
  }

  /** Every quality's pattern reads back as that quality. */
  lemma IntervalsRoundTrip(q: Quality)
    ensures IsQualityPattern(QualitySemitones(q))
    ensures QualityFromIntervals(QualitySemitones(q)) == q
  {
  }
}
