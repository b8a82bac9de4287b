/** src/music/chord.rs: a chord is a root note and a quality; its tones are reported as pitch
    classes counted from C. */
module Chords {
  import opened Notes
  import opened Qualities
  import Intervals
  import LegacyQualities

  datatype Chord = Chord(root: Note, quality: Quality)

  /** `Display for Chord`: the root's text followed by the quality's symbol of this crate. The
      text opens with the root's letter. */
  function ChordText(c: Chord): (s: string)
    ensures |s| >= 1 && s[..1] == LetterName(c.root.letter)
  {
    var t := NoteToString(c.root);
    assert (t + LegacyQualities.LegacySymbol(c.quality))[..1] == t[..1];
    t + LegacyQualities.LegacySymbol(c.quality)
  }

  /** The chord text of chordflow_music_theory, which the desktop front end shows: the root's
      text followed by the quality's strum `Display` symbol (Major prints nothing, Minor "-",
      Diminished "o" and so on). That crate's chord.rs is not part of this model; the text is
      the one the desktop components compose from `root.to_string()` and
      `quality.to_string()`. */
  function TheoryChordText(c: Chord): (s: string)
    ensures |s| >= 1 && s[..1] == LetterName(c.root.letter)
  {
    var t := NoteToString(c.root);
    assert (t + QualitySymbol(c.quality))[..1] == t[..1];
    t + QualitySymbol(c.quality)
  }

  /** Two chords on the same root are shown alike exactly when their qualities agree, in both
      crates' texts. */
  lemma {:induction false} ChordTextShowsQuality(root: Note, p: Quality, q: Quality)
    ensures ChordText(Chord(root, p)) == ChordText(Chord(root, q)) <==> p == q
    ensures TheoryChordText(Chord(root, p)) == TheoryChordText(Chord(root, q)) <==> p == q
  {
    var t := NoteToString(root);
    if ChordText(Chord(root, p)) == ChordText(Chord(root, q)) {
      assert (t + LegacyQualities.LegacySymbol(p))[|t|..] == LegacyQualities.LegacySymbol(p);
      assert (t + LegacyQualities.LegacySymbol(q))[|t|..] == LegacyQualities.LegacySymbol(q);
      LegacyQualities.LegacySymbolsDistinct(p, q);
    }
    if TheoryChordText(Chord(root, p)) == TheoryChordText(Chord(root, q)) {
      assert (t + QualitySymbol(p))[|t|..] == QualitySymbol(p);
      assert (t + QualitySymbol(q))[|t|..] == QualitySymbol(q);
      QualitySymbolsDistinct(p, q);
    }
  }

  /** `normalize_semitone_within_octave`: negative values climb by octaves until they are not
      negative, positive ones are reduced modulo 12. */
  function NormalizeSemitoneWithinOctave(i: int): (r: int)
    ensures 0 <= r < 12
    ensures (r - i) % 12 == 0
    ensures 0 <= i < 12 ==> r == i
    decreases if i < 0 then -i else 0
  {
    if i < 0 then NormalizeSemitoneWithinOctave(i + 12)
    else if i > 0 then i % 12
    else 0
  }

  /** What `to_c_based_semitones` computes: each interval of the quality added to the root's
      pitch, brought into the octave. */
  function CBasedSemitones(c: Chord): (s: seq<int>)
    ensures |s| == |QualityIntervals(c.quality)|
    ensures forall k :: 0 <= k < |s| ==> 0 <= s[k] < 12
  {
    var ivs := QualityIntervals(c.quality);
    seq(|ivs|, k requires 0 <= k < |ivs| =>
      NormalizeSemitoneWithinOctave(NoteSemitones(c.root) + Intervals.IntervalSemitones(ivs[k])))
  }

  /** `to_c_based_semitones`: pushes the raw pitches in one loop, then normalises them in a second
      pass, as the iterator chain does. */
  method ToCBasedSemitones(c: Chord) returns (s: seq<int>)
    ensures s == CBasedSemitones(c)
  {
    var rootSemitones := NoteSemitones(c.root);
    var ivs := QualityIntervals(c.quality);
    var raw: seq<int> := [];
    var k := 0;
    while k < |ivs|
      invariant 0 <= k <= |ivs|
      invariant |raw| == k
      invariant forall j :: 0 <= j < k ==> raw[j] == rootSemitones + Intervals.IntervalSemitones(ivs[j])
    {
      raw := raw + [rootSemitones + Intervals.IntervalSemitones(ivs[k])];
      k := k + 1;
    }
    s := [];
    k := 0;
    while k < |raw|
      invariant 0 <= k <= |raw|
      invariant |s| == k
      invariant forall j :: 0 <= j < k ==> s[j] == NormalizeSemitoneWithinOctave(raw[j])
    {
      s := s + [NormalizeSemitoneWithinOctave(raw[k])];
      k := k + 1;
    }
  }

  /** Each tone is congruent, modulo the octave, to the root plus the matching interval. */
  lemma CBasedTone(c: Chord, k: int)
    requires 0 <= k < |QualityIntervals(c.quality)|
    ensures (CBasedSemitones(c)[k] - NoteSemitones(c.root) - QualitySemitones(c.quality)[k]) % 12 == 0
  {
    assert Intervals.IntervalSemitones(QualityIntervals(c.quality)[k]) == QualitySemitones(c.quality)[k];
  }

  /** One pitch class per interval of the quality (three for a triad, four for a seventh chord),
      the first being the root's own pitch class, and each tone congruent to root plus interval. */
  lemma CBasedSemitonesShape(c: Chord)
    ensures |CBasedSemitones(c)| == (if IsTriad(c.quality) then 3 else 4)
    ensures CBasedSemitones(c)[0] == NormalizeSemitoneWithinOctave(NoteSemitones(c.root))
    ensures forall k :: 0 <= k < |CBasedSemitones(c)| ==>
      (CBasedSemitones(c)[k] - NoteSemitones(c.root) - QualitySemitones(c.quality)[k]) % 12 == 0
  {
    forall k | 0 <= k < |CBasedSemitones(c)|
      ensures (CBasedSemitones(c)[k] - NoteSemitones(c.root) - QualitySemitones(c.quality)[k]) % 12 == 0
    {
      CBasedTone(c, k);
    }
  }

  /** C major's tones are C, E and G. */
  lemma CMajorSemitones()
    ensures CBasedSemitones(Chord(Note(C, 0), Major)) == [0, 4, 7]
  {
    CBasedSemitonesShape(Chord(Note(C, 0), Major));
  }
}
