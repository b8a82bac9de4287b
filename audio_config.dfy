/** chordflow_desktop/src/audio/config.rs: the mapping from a chord's pitch classes to MIDI
    note numbers in the octave starting at middle C (60). */
module AudioConfig {
  import opened RustInt
  import opened Chords
  import Notes
  import Qualities

  /** `note_to_midi`: the pitch class, by Rust's truncating `%`, placed above middle C. Every
      `i32` lands in 49..71, so the cast to an unsigned type never truncates; a pitch class
      from 0..11 lands in 60..71. */
  function NoteToMidi(semitonesFromC: int): (m: int)
    ensures 49 <= m <= 71
    ensures 0 <= semitonesFromC ==> 60 <= m <= 71
    ensures 0 <= semitonesFromC < 12 ==> m == semitonesFromC + 60
    ensures (m - 60 - semitonesFromC) % 12 == 0
  {
    RemOctaveCongruent(semitonesFromC);
    Rem(semitonesFromC, 12) + 60
  }

  /** `chord_to_midi`: one MIDI note per chord tone, in the order of the tones. */
  function ChordToMidi(c: Chord): (ms: seq<int>)
    ensures |ms| == |CBasedSemitones(c)|
    ensures forall k :: 0 <= k < |ms| ==> ms[k] == CBasedSemitones(c)[k] + 60 && 60 <= ms[k] <= 71
  {
    var s := CBasedSemitones(c);
    seq(|s|, k requires 0 <= k < |s| => NoteToMidi(s[k]))
  }

  /** Two MIDI notes from pitch classes are equal exactly when the pitch classes are. */
  lemma NoteToMidiInjective(a: int, b: int)
    requires 0 <= a < 12 && 0 <= b < 12
    ensures NoteToMidi(a) == NoteToMidi(b) <==> a == b
  {
  }

  /** C major sounds as middle C, E and G. */
  lemma CMajorMidi()
    ensures ChordToMidi(Chord(Notes.Note(Notes.C, 0), Qualities.Major)) == [60, 64, 67]
  {
    CMajorSemitones();
  }

  /** The MIDI notes of a chord start on its root's note: the first tone is the root's pitch
      class, above middle C. */
  lemma ChordToMidiStartsOnRoot(c: Chord)
    ensures |ChordToMidi(c)| >= 3
    ensures ChordToMidi(c)[0] == NormalizeSemitoneWithinOctave(Notes.NoteSemitones(c.root)) + 60
  {
    CBasedSemitonesShape(c);
  }
}
