/** chordflow_music_theory/src/accidental.rs: the three accidentals and their tables. */
module Accidentals {
  datatype Accidental = Natural | Sharp | Flat

  /** The variants in declaration order, as `Accidental::iter()` yields them. */
  const AllAccidentals: seq<Accidental> := [Natural, Sharp, Flat]

  /** `#[default]` is Natural. */
  const DefaultAccidental: Accidental := Natural

  /** `from_string`: "#" and "b" are recognised, everything else reads as natural; it never fails. */
  function AccidentalFromString(s: string): (a: Accidental)
    ensures a == Sharp <==> s == "#"
    ensures a == Flat <==> s == "b"
    ensures a == Natural <==> s != "#" && s != "b"
  {
    if s == "#" then Sharp
    else if s == "b" then Flat
    else Natural
  }

  /** `to_semitones`: the pitch offset of the accidental. */
  function AccidentalSemitones(a: Accidental): (n: int)
    ensures -1 <= n <= 1
    ensures n == 0 <==> a == Natural
    ensures n == 1 <==> a == Sharp
    ensures n == -1 <==> a == Flat
  {
    match a
    case Natural => 0
    case Sharp => 1
    case Flat => -1
  }

  /** Distinct accidentals shift the pitch by distinct amounts. */
  lemma AccidentalSemitonesInjective(a: Accidental, b: Accidental)
    requires AccidentalSemitones(a) == AccidentalSemitones(b)
    ensures a == b
  {
  }

  /** Parsing the sharp and flat signs gives back a +1 and a -1 offset. */
  lemma ParsedSignsOffsets()
    ensures AccidentalSemitones(AccidentalFromString("#")) == 1
    ensures AccidentalSemitones(AccidentalFromString("b")) == -1
    ensures AccidentalFromString("") == DefaultAccidental
  {
  }
}
