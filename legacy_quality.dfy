/** src/music/quality.rs: the first version of the quality enum. Its variants, names and interval
    patterns are those of module Qualities; only the display symbols and the parse differ. */
module LegacyQualities {
  import opened Qualities

  /** The strum `Display` symbols of this version. */
  function LegacySymbol(q: Quality): string
  {
    match q
    case Major => ""
    case Minor => "m"
    case Diminished => "dim"
    case Augmented => "aug"
    case Dominant => "7"
    case MajorSeventh => "maj7"
    case MinorSeventh => "m7"
    case HalfDiminished => "m7b5"
  }

  /** `from_str` as written: "m7" is read as a major seventh, and anything unrecognised as Major. */
  function LegacyFromStrAsWritten(s: string): Quality
  {
    match s
    case "" => Major
    case "m" => Minor
    case "dim" => Diminished
    case "aug" => Augmented
    case "7" => Dominant
    case "maj7" => MajorSeventh
    case "m7" => MajorSeventh
    case "m7b5" => HalfDiminished
    case _ => Major
  }

  /** What the parse as written accepts: each symbol names its quality, "m7" names the major
      seventh as well, and the minor seventh is never produced. */
  lemma LegacyParseAsWritten(s: string)
    ensures var q := LegacyFromStrAsWritten(s);
      (q == Minor <==> s == "m") && (q == Diminished <==> s == "dim")
      && (q == Augmented <==> s == "aug") && (q == Dominant <==> s == "7")
      && (q == MajorSeventh <==> s == "maj7" || s == "m7")
      && (q == HalfDiminished <==> s == "m7b5") && q != MinorSeventh
  {
  }

  /** Parsing a quality's own symbol gives it back, except the minor seventh, whose symbol "m7"
      is read as a major seventh. */
  lemma LegacySymbolRoundTripAsWritten(q: Quality)
    ensures q != MinorSeventh ==> LegacyFromStrAsWritten(LegacySymbol(q)) == q
    ensures q == MinorSeventh ==> LegacyFromStrAsWritten(LegacySymbol(q)) == MajorSeventh
  {
  }

  /** `from_str` with "m7" read as the minor seventh its own symbol names. */
  function LegacyFromStr(s: string): Quality
  {
    if s == "m7" then MinorSeventh else LegacyFromStrAsWritten(s)
  }

  /** With "m7" read as a minor seventh, every quality's symbol reads back as that quality, and
      only "m7" is read differently from the parse as written. */
  lemma LegacySymbolRoundTrip(q: Quality)
    ensures LegacyFromStr(LegacySymbol(q)) == q
  {
    LegacySymbolRoundTripAsWritten(q);
  }

  /** The corrected parse differs from the parse as written on "m7" alone. */
  lemma LegacyFromStrCorrects(s: string)
    ensures LegacyFromStr(s) != LegacyFromStrAsWritten(s) <==> s == "m7"
  {
    LegacyParseAsWritten(s);
  }

  /** Symbols are pairwise distinct, so each one names exactly one quality. */
  lemma LegacySymbolsDistinct(p: Quality, q: Quality)
    requires LegacySymbol(p) == LegacySymbol(q)
    ensures p == q
  {
    LegacySymbolRoundTrip(p);
    LegacySymbolRoundTrip(q);
  }
}
