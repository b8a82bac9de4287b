/** chordflow_music_theory/src/util.rs: random roots, qualities and chords. The random number
    generator is not modelled; each draw is a nondeterministic choice from the offered set. */
module RandomChoices {
  import opened Wrappers
  import opened Notes
  import opened Qualities
  import opened Chords

  /** `random_note`: one of the seventeen roots `generate_all_roots` offers. */
  method RandomNote() returns (n: Note)
    ensures n in AllRoots() && IsOfferedNote(n)
  {
    assert AllRoots()[0] in AllRoots() by {
      AllRootsProperties();
    }
    n :| n in AllRoots();
    AllRootsAreOffered(n);
  }

  /** `random_quality`: a quality from the allowed list, or from every quality when none is
      given. An empty allowed list makes the source's range empty and panic. */
  method RandomQuality(allowed: Option<seq<Quality>>) returns (q: Quality)
    requires allowed.Some? ==> |allowed.value| > 0
    ensures allowed.Some? ==> q in allowed.value
    ensures q in AllQualities
  {
    AllQualitiesListsEach();
    var qualities := if allowed.Some? then allowed.value else AllQualities;
    var k :| 0 <= k < |qualities|;
    q := qualities[k];
  }

  /** `random_chord`: a random root with a random quality drawn as above. */
  method RandomChord(selected: Option<seq<Quality>>) returns (c: Chord)
    requires selected.Some? ==> |selected.value| > 0
    ensures IsOfferedNote(c.root)
    ensures selected.Some? ==> c.quality in selected.value
  {
    var root := RandomNote();
    var quality := RandomQuality(selected);
    c := Chord(root, quality);
  }
}
