# ChordFlow in Dafny

ChordFlow is a chord-practice tool. It shows the chord to play now and the chord coming next, and it
keeps time with a metronome. The practice modes are:

- walking the circle of fourths;
- random chords drawn from a set of qualities;
- a custom progression typed as text such as `3C 2Bm 1F#aug`;
- the degrees of a major (diatonic) scale.

There are three front ends:

- a terminal application (`chordflow_tui`);
- a desktop application (`chordflow_desktop`), with an audio thread that schedules woodblock clicks;
- the first terminal application at the repository root (`src/`), with its own music types and
  progression parser.

This project models the behavioural core of all of them and proves properties of the model.

Modules, one per source file or per concept shared by several files:

- Music theory: `Accidentals`, `Intervals`, `Notes`, `Qualities` (chordflow_music_theory);
  `LegacyQualities`, `Chords`, `Scales`, `ProgressionParser` (the root crate's `src/music` and
  `src/progression.rs`); `RandomChoices` (random roots, qualities and chords as nondeterministic
  choices); `RustInt` (Rust's truncating `%`).
- Shared practice logic: `SharedModes` (modes, configuration, mode text), `PracticeStates` (the
  practice state class), `ModeUpdates` (`update_mode_from_state`), `Metronomes` (the logical
  metronome class), `FourthsCircle` (the fourths step and the desktop fourths generator).
- Desktop: `DesktopDiatonic`, `DesktopProgression`, `DesktopApp` (the application state and the
  metronome counter), `AudioCommands`, `AudioConfig`, `AudioStream` (the click scheduler and
  output callback), `Subdivisions`, and `ChordAudio` (the offline chord player of chordflow_audio).
- Terminal front ends: `EnumCycle` (`next_item`/`prev_item` over any listing), `MetronomeGrid`
  (the bar-and-beat progress string both terminal front ends build), `TuiUi`, `TuiApp`,
  `TuiKeymap`, `LegacyApp` (`src/main.rs`) and `LegacyScreen` (`src/app.rs`).

Objects whose fields the source updates in place are classes with `modifies` frames:

- the practice state, the metronome, the desktop generators and application state;
- the click stream, the synthesiser wrapper and the terminal `App`.

The loops that fill buffers, build strings or walk schedules are methods with loop invariants,
proved against specification functions. The tables, parsers and arithmetic are functions with
lemmas relating them:

- round trips (symbol and parse, semitones and interval, position and variant);
- the twelve-step closure of the circle of fourths;
- the exact layout of the metronome strings;
- the schedule of clicks and ticks.

Where the source panics, the model requires the condition that avoids the panic.

These source quirks are modelled as they are:

- `src/app.rs` is not declared in `src/main.rs`, and its handlers use screen fields that its
  own `ScreenState` does not hold. The model keeps exactly the fields the handlers touch.
- On the Fourths tab of `src/app.rs`, the practice keys are applied twice.
- The desktop subdivision selector writes `metronome_state.subdivision`, a field that the
  `MetronomeState` of `chordflow_desktop/src/ui/app.rs` does not declare. The picker's state is
  the class `Subdivisions.SubdivisionControl`, which holds that field beside the bar counters.
- `PracticState::reset` in Custom mode keeps the stored progression index. So after a reset,
  the next chord is the entry after the stored index, not the second entry.

Six places where the code evidently does not do what was meant are listed under Findings.
Each has two definitions: the one as written, with a lemma that exhibits the discrepancy, and
the corrected one, with the intended property proved about it. The operations compute what
the code as written computes:

- Note spelling: every generator and the fourths walk use `AddIntervalAsWritten`. So G flat
  steps to C with eleven sharps, and the second degree of A sharp major is B with eleven flats.
  The corrected `AddInterval` appears only in the lemmas about it.
- The desktop diatonic generator: `default` leaves the walk on the root while showing the
  second degree, and `reset` keeps the stored interval wherever the walk had put it
  (`DesktopDiatonic.DiatonicConfig.Reset`). The corrected `ResetInStep` stands beside it, and no
  operation of the model calls it.
- The root crate's progression parser takes its list of quality alternatives as a parameter.
  The lemmas about the source's own parse use the list as written; the round trip is proved
  for the corrected list. Captured symbols are read with `LegacyFromStr`, which differs from
  the reader as written only on "m7", a symbol the list as written never captures.
- Triad qualities are read with `QualityFromIntervals`. It agrees with `from_intervals` as
  written on every pattern but the augmented one, which no diatonic triad has.

## Model

| member | source | states |
|---|---|---|
| Accidentals.AccidentalFromString | chordflow_music_theory/src/accidental.rs:15-21 | "#" reads as sharp and "b" as flat, each exactly for that string; every other string reads as natural, so parsing never fails |
| Accidentals.AccidentalSemitones | chordflow_music_theory/src/accidental.rs:23-29 | the offset lies in -1..1 and is 0 exactly for natural, +1 exactly for sharp, -1 exactly for flat |
| Accidentals.AccidentalSemitonesInjective | chordflow_music_theory/src/accidental.rs:23-29 | accidentals with the same offset are the same accidental |
| Accidentals.ParsedSignsOffsets | chordflow_music_theory/src/accidental.rs:3-29 | the parsed "#" shifts by +1, the parsed "b" by -1, and the empty string reads as the default (natural) accidental |
| Intervals.IntervalSemitones | chordflow_music_theory/src/interval.rs:26-44 | sizes lie in 0..12; 12 exactly for the octave, 0 exactly for the unison |
| Intervals.IntervalFromSemitone | chordflow_music_theory/src/interval.rs:45-61 | defined for 0..11 only (any other value panics); the interval found has exactly that size, and it is never the augmented fourth, the diminished fifth or the octave |
| Intervals.IntervalIndex | chordflow_music_theory/src/interval.rs:63-81 | defined for every interval but the octave (which panics); the letter span lies in 0..6 and is 0 exactly for the unison |
| Intervals.IntervalsFromSemitones | chordflow_music_theory/src/interval.rs:83-88 | one interval per input value, in order: the k-th is `from_semitone` of the k-th value, of exactly that size |
| Intervals.SemitoneRoundTrip | chordflow_music_theory/src/interval.rs:26-61 | reading an interval's size back gives the interval, for every interval but the two alternative six-semitone spellings and the octave |
| Intervals.SemitonesNonDecreasing | chordflow_music_theory/src/interval.rs:6-44 | sizes never decrease along the declaration order |
| Intervals.SixSemitoneSpellings | chordflow_music_theory/src/interval.rs:34-36 | the augmented fourth, tritone and diminished fifth all span 6 semitones; the first two span 3 letters' distance (index 3), the diminished fifth index 4 (lines 70-73) |
| Notes.LetterIndex | chordflow_music_theory/src/note.rs:23-33 | a letter's index lies in 0..6 |
| Notes.LetterFromIndex | chordflow_music_theory/src/note.rs:34-45 | defined on 0..6 only (anything else panics), and the letter found has exactly that index |
| Notes.LetterIndexPosition | chordflow_music_theory/src/note.rs:11-45 | a letter's index is its place in the declaration order, and `from_letter_index(to_index(l)) == l` |
| Notes.LetterSemitones | chordflow_music_theory/src/note.rs:46-56 | a letter's natural pitch lies in 0..11 |
| Notes.LetterSemitonesIncreasing | chordflow_music_theory/src/note.rs:46-56 | natural pitches strictly increase with the letter index |
| Notes.LetterName | chordflow_music_theory/src/note.rs:8-20 | a letter displays as one of the seven capitals C..B |
| Notes.LetterFromString | chordflow_music_theory/src/note.rs:58-69 | defined on the seven capital names only (anything else panics), and the letter found displays as that name |
| Notes.NoteSemitones | chordflow_music_theory/src/note.rs:98-100 | a note's pitch is its letter's natural pitch plus its accidental count |
| Notes.AddIntervalAsWritten | chordflow_music_theory/src/note.rs:102-110 | the new letter index is the old plus the interval's letter distance, mod 7; the new pitch is the old plus the interval's size under Rust's truncating `% 12`; the octave panics |
| Notes.AddInterval | chordflow_music_theory/src/note.rs:102-110 | the same letter as the source computes, with the accidental count reduced to at most six sharps or five flats |
| Notes.AddIntervalPitch | chordflow_music_theory/src/note.rs:102-110 | the reduced note sounds the interval above the starting note, up to whole octaves |
| Notes.AddIntervalAgrees | chordflow_music_theory/src/note.rs:102-110 | wherever the source's spelling already has at most six sharps or five flats, both definitions give the same note |
| Notes.AddIntervalElevenFlats | chordflow_music_theory/src/note.rs:102-110 | G sharp plus a major third is B with eleven flats as written, and B sharp once reduced |
| Notes.AccidentalText | chordflow_music_theory/src/note.rs:80-86 | a positive count prints as that many '#', a negative one as that many 'b', zero as nothing |
| Notes.NoteToString | chordflow_music_theory/src/note.rs:78-89 | a note prints as its letter followed by its accidental text |
| Notes.OfferedRoots | chordflow_music_theory/src/note.rs:116-123 | the filter keeps at most its input, and every note kept is an offered root (not C flat, E sharp, B sharp or F flat) |
| Notes.AllRoots | chordflow_music_theory/src/note.rs:113-125 | every generated root is an offered root |
| Notes.AllRootsListing | chordflow_music_theory/src/note.rs:113-125 | the roots are, in order, every letter with natural, sharp and flat, less the four excluded spellings |
| Notes.AllRootsProperties | chordflow_music_theory/src/note.rs:113-125 | 17 distinct roots, the first C natural, and none of B sharp, C flat, E sharp or F flat |
| Notes.AllRootsAreOffered | chordflow_music_theory/src/note.rs:113-125 | a note is generated exactly when it is an offered root (its accidental count in -1..1 and not one of the four excluded spellings) |
| Notes.FromCNatural | chordflow_music_theory/src/note.rs:102-110 | from C natural the letter is the interval's letter distance and the accidentals are the interval's size less that letter's natural pitch |
| Notes.AddIntervalFromC | chordflow_music_theory/src/note.rs:131-156 | C plus each interval but the octave gives C, Db, D, Eb, E, F, F#, F#, Gb, G, Ab, A, Bb, B |
| Notes.AddIntervalFSharpFifth | chordflow_music_theory/src/note.rs:157-160 | F sharp plus a perfect fifth is C sharp |
| Qualities.AllQualitiesListsEach | chordflow_music_theory/src/quality.rs:5-26 | `Quality::iter()` lists all eight qualities, each exactly once |
| Qualities.QualityFromStringAsWritten | chordflow_music_theory/src/quality.rs:29-44 | "m" and "-" read as minor, "o" and "dim" as diminished, "+" and "aug" as augmented, "7" as dominant, "maj7" and also "m7" as major seventh, "m7b5" as half-diminished, each exactly for those strings; no string reads as minor seventh; every other string reads as major |
| Qualities.QualityFromString | chordflow_music_theory/src/quality.rs:29-44 | the same table with "m7" read as the minor seventh, each quality exactly for its strings; on every other input it agrees with the source |
| Qualities.MinorSeventhMisread | chordflow_music_theory/src/quality.rs:40 | "m7" reads as a major seventh as written, and as a minor seventh once corrected |
| Qualities.QualityFromName | chordflow_music_theory/src/quality.rs:46-58 | a quality's name reads back as that quality; any string that is no quality's name reads as major |
| Qualities.NameRoundTrip | chordflow_music_theory/src/quality.rs:46-72 | `from_name(name(q)) == q` for all eight qualities |
| Qualities.QualitySemitones | chordflow_music_theory/src/quality.rs:74-85 | every pattern has 3 or 4 entries, starts at 0, lies within the octave and strictly increases |
| Qualities.QualityIntervals | chordflow_music_theory/src/quality.rs:74-85 | three intervals for the four triads and four for the seventh chords, starting with the unison, never the octave, sized as the quality's pattern and strictly increasing |
| Qualities.QualityFromIntervalsAsWritten | chordflow_music_theory/src/quality.rs:87-99 | defined exactly on the eight listed patterns (anything else panics), and the quality found is the one listed for that pattern |
| Qualities.AugmentedPatternRejected | chordflow_music_theory/src/quality.rs:76-99 | the augmented triad's own pattern [0, 4, 8] panics as written; every other quality's own pattern reads back as that quality |
| Qualities.QualityFromIntervals | chordflow_music_theory/src/quality.rs:87-99 | accepts exactly the patterns `to_intervals` produces and returns the quality whose pattern it is; apart from [0, 4, 8] it agrees with the source |
| Qualities.IntervalsRoundTrip | chordflow_music_theory/src/quality.rs:74-99 | every quality's pattern is accepted and reads back as that quality |
| LegacyQualities.LegacyParseAsWritten | src/music/quality.rs:29-41 | "m", "dim", "aug", "7" and "m7b5" read as their qualities, "maj7" and also "m7" as major seventh, each exactly for those strings; nothing reads as minor seventh |
| LegacyQualities.LegacySymbolRoundTripAsWritten | src/music/quality.rs:5-41 | parsing a quality's own symbol gives it back for every quality but the minor seventh, whose symbol "m7" reads as major seventh |
| LegacyQualities.LegacySymbolRoundTrip | src/music/quality.rs:5-41 | with "m7" read as a minor seventh, every quality's symbol reads back as that quality |
| LegacyQualities.LegacyFromStrCorrects | src/music/quality.rs:29-41 | the corrected parse differs from the source's on "m7" alone |
| LegacyQualities.LegacySymbolsDistinct | src/music/quality.rs:5-26 | no two qualities share a symbol |
| RustInt.Rem | chordflow_music_theory/src/note.rs:103-104 | Rust's `%` on a possibly negative `i32`: for a non-negative dividend the Euclidean remainder, for a negative one the negated remainder of its magnitude, lying in -(b-1)..0 |
| Chords.ChordText | src/music/chord.rs:11-15 | the root crate's text of a chord opens with its root's letter; that the quality's symbol follows and tells qualities apart is `Chords.ChordTextShowsQuality` |
| Chords.TheoryChordText | chordflow_desktop/src/state/fourths.rs:39-41 | the desktop's text of a chord (root text, then chordflow_music_theory's quality symbol) opens with the root's letter |
| Chords.ChordTextShowsQuality | chordflow_music_theory/src/quality.rs:9-24 | in either crate's text, two chords on one root print alike exactly when their qualities are equal |
| Qualities.QualitySymbolsDistinct | chordflow_music_theory/src/quality.rs:9-24 | the display symbols are pairwise distinct, so a symbol names one quality |
| Chords.NormalizeSemitoneWithinOctave | src/music/chord.rs:37-47 | for every integer the result lies in 0..11 and is congruent to the input mod 12; on 0..11 it is the identity |
| Chords.CBasedSemitones | src/music/chord.rs:22-34 | one value per interval of the quality, each within the octave |
| Chords.ToCBasedSemitones | src/music/chord.rs:22-34 | the loop that pushes root plus interval and then normalises computes `CBasedSemitones` |
| Chords.CBasedTone | src/music/chord.rs:22-34 | entry k is the root's pitch plus the quality's k-th interval, up to whole octaves |
| Chords.CBasedSemitonesShape | src/music/chord.rs:22-34 | 3 entries for a triad and 4 for a seventh chord; the first is the root's pitch normalised into the octave; every entry is root plus interval up to whole octaves |
| Chords.CMajorSemitones | src/music/chord.rs:22-34 | C major gives [0, 4, 7] |
| Scales.NewScale | src/music/scale.rs:28-47 | root and scale type are stored unchanged; a diatonic scale has seven intervals of 0, 2, 4, 5, 7, 9, 11 semitones |
| Scales.DiatonicIntervalsShape | src/music/scale.rs:31-39 | the diatonic intervals strictly increase in size, none is the octave, and the k-th spans k letters |
| Scales.IntervalsIndependentOfRoot | src/music/scale.rs:29-40 | the interval list does not depend on the root |
| Scales.ScaleText | src/music/scale.rs:22-26 | a scale prints as its root, one space, and its type |
| Scales.CMajorNotes | src/music/scale.rs:55-75 | C natural plus the k-th diatonic interval is the k-th letter, natural (C, D, E, F, G, A, B), both with the spelling as written and with the corrected one |
| PracticeStates.Normalize | chordflow_shared/src/practice_state.rs:148-150 | `(i + base) % base` with Rust's remainder: within one period below zero it adds the base, on 0..base-1 it is the identity, one period above it subtracts the base, and far below zero it stays non-positive |
| PracticeStates.Position | chordflow_shared/src/practice_state.rs:121-125 | `position(..).unwrap()` panics unless the interval is listed; the index found holds it and no earlier index does |
| PracticeStates.IncrementalSuccessor | chordflow_shared/src/practice_state.rs:120-128 | the interval after the current one is again an interval of the scale |
| PracticeStates.DiatonicPositions | src/music/scale.rs:31-39 | the seven diatonic degrees are distinct, so degree k sits at position k |
| PracticeStates.DiatonicSuccessor | chordflow_shared/src/practice_state.rs:120-128 | on the diatonic scale the incremental walk goes from degree k to degree k + 1, and from the seventh back to the root |
| PracticeStates.SeventhWrapsToRoot | chordflow_shared/src/practice_state.rs:209-227 | the major seventh is followed by the unison |
| PracticeStates.NextDiatonicScaleInterval | chordflow_shared/src/practice_state.rs:113-131 | the interval chosen is always one of the scale's; walking in order it is the successor of the current one (the random option may pick any of them) |
| PracticeStates.DegreeSemitones | chordflow_shared/src/practice_state.rs:136-139 | the size of the degree reached, counted modulo seven degrees, lies in 0..12 |
| PracticeStates.TriadPattern | chordflow_shared/src/practice_state.rs:133-144 | the triad stacked on degree k has three entries, starts at 0 and lies within the octave |
| PracticeStates.TonicTriad | chordflow_shared/src/practice_state.rs:133-144 | the triad on the first degree of the major scale is [0, 4, 7] |
| PracticeStates.SupertonicTriad | chordflow_shared/src/practice_state.rs:133-144 | the triad on the second degree is [0, 3, 7] |
| PracticeStates.MediantTriad | chordflow_shared/src/practice_state.rs:133-144 | the triad on the third degree is [0, 3, 7] |
| PracticeStates.SubdominantTriad | chordflow_shared/src/practice_state.rs:133-144 | the triad on the fourth degree is [0, 4, 7] |
| PracticeStates.DominantTriad | chordflow_shared/src/practice_state.rs:133-144 | the triad on the fifth degree is [0, 4, 7] |
| PracticeStates.SubmediantTriad | chordflow_shared/src/practice_state.rs:133-144 | the triad on the sixth degree is [0, 3, 7] |
| PracticeStates.LeadingToneTriad | chordflow_shared/src/practice_state.rs:133-144 | the triad on the seventh degree is [0, 3, 6] |
| PracticeStates.DiatonicTriads | chordflow_shared/src/practice_state.rs:133-145 | on every degree of the major scale the stacked triad is the pattern of that degree's quality (major, minor, minor, major, major, minor, diminished), so `from_intervals` never panics there |
| PracticeStates.ChordQualityInScaleSound | chordflow_shared/src/practice_state.rs:133-146 | the quality found has exactly the pattern of the triad stacked on the interval's degree |
| PracticeStates.QualityOfDegree | chordflow_shared/src/practice_state.rs:133-146 | on a diatonic scale the quality found is the triad quality of the interval's degree |
| PracticeStates.ScaleDegreeQualities | chordflow_shared/src/practice_state.rs:190-205 | on any root the seven degrees carry major, minor, minor, major, major, minor, diminished |
| PracticeStates.CMajorThirdIsMinor | chordflow_shared/src/practice_state.rs:175-181 | the third degree of C major carries a minor triad |
| PracticeStates.FSharpMajorFourthIsMajor | chordflow_shared/src/practice_state.rs:182-188 | the fourth degree of F sharp major carries a major triad |
| PracticeStates.GeneratedFacts | chordflow_shared/src/practice_state.rs:62-94 | from a resettable mode a generation step always yields a chord (so `unwrap` never panics), keeps the scale interval a diatonic degree, and in a custom progression leaves the index on the chord it returned |
| PracticeStates.PracticeState.constructor | chordflow_shared/src/practice_state.rs:152-165 | major fourths, B major now and E major next, the walk on the unison, the progression index at 0 |
| PracticeStates.PracticeState.GenerateNextChord | chordflow_shared/src/practice_state.rs:62-94 | fourths: the same quality on the root a fourth up as `add_interval` spells it, G flat respelled F sharp (so G flat itself steps to C with eleven sharps); random: an offered root and, when qualities are listed, one of them; custom with a progression: the index moves one on, wrapping, and the chord there is returned; custom without one: nothing; diatonic: the next degree, with the triad quality of its position, on the root moved by that interval as `add_interval` spells it |
| PracticeStates.PracticeState.GenerateProgressionChord | chordflow_shared/src/practice_state.rs:78-82 | the index moves one on, wrapping at the end, and the chord it now points at is returned |
| PracticeStates.PracticeState.GenerateDiatonicChord | chordflow_shared/src/practice_state.rs:84-92 | the next degree is stored; the chord on it is the root moved by that interval as `add_interval` spells it, with that degree's triad quality |
| PracticeStates.PracticeState.Reset | chordflow_shared/src/practice_state.rs:96-110 | the mode stays; fourths start on B, diatonic on the scale root (major), custom on the first entry, random on an offered root with a listed quality; the next chord is generated from that start as `generate_next_chord` computes it, so in a custom progression it is the entry after the stored index |
| PracticeStates.PracticeState.SetMode | chordflow_shared/src/practice_state.rs:46-53 | the answer is true exactly when the mode differs; then the new mode is stored and the state reset for it as `reset` computes; otherwise no field changes |
| PracticeStates.PracticeState.NextChord | chordflow_shared/src/practice_state.rs:55-60 | the upcoming chord becomes current and the next one is generated from it in the same mode, as `generate_next_chord` computes it |
| RandomChoices.RandomNote | chordflow_music_theory/src/util.rs:7-10 | the note is one of the generated roots |
| RandomChoices.RandomQuality | chordflow_music_theory/src/util.rs:12-17 | the quality is one of the allowed ones when a list is given, and a quality of the full listing in any case |
| RandomChoices.RandomChord | chordflow_music_theory/src/util.rs:19-24 | an offered root with, when a list is given, one of its qualities |
| SharedModes.DefaultConfigState | chordflow_shared/src/practice_state.rs:24-34 | major for fourths, no progression, all eight qualities selected for random, the diatonic walk on C natural in order |
| SharedModes.ModeFor | chordflow_shared/src/mode.rs:42-61 | the mode is of the selected kind and is built from that kind's configuration fields; the diatonic scale is `Scale::new(root, Diatonic)` |
| SharedModes.ModeForReadsOnlySelected | chordflow_shared/src/mode.rs:42-61 | the derived mode depends only on the configuration fields of the selected kind |
| SharedModes.ModeText | chordflow_shared/src/mode.rs:22-34 | "Fourths - " and the quality's name; "Random"; "Custom: " and the progression, or "Custom" without one; "Diatonic: " with the scale and the option |
| SharedModes.ModeTextShowsKind | chordflow_shared/src/mode.rs:22-34 | modes shown alike are of the same kind |
| SharedModes.FourthsTextShowsQuality | chordflow_shared/src/mode.rs:25 | fourths modes shown alike have the same quality |
| ModeUpdates.UpdateModeFromState | chordflow_shared/src/mode.rs:42-61 | the answer is true exactly when the derived mode differs from the active one; afterwards the derived mode, of the selected kind, is active; on a change the state was reset for it (its start chord current, the chord `generate_next_chord` computes from it upcoming); when nothing changed no field of the practice state moved |
| ModeUpdates.Reapply | chordflow_desktop/src/state/mode.rs:29-49 | the desktop copy of the dispatch: a first application answers whether the derived mode differs from the active one, a second one with the same selection and configuration answers false, and the derived mode stays active |
| FourthsCircle.FourthsRoot | chordflow_desktop/src/state/fourths.rs:29-35 | the next root is `add_interval` of a perfect fourth (three letters on), except that G flat is respelled F sharp, so the result is never G flat |
| FourthsCircle.FourthsRootPitch | chordflow_desktop/src/state/fourths.rs:29-35 | the next root sounds five semitones above the current one, up to whole octaves |
| FourthsCircle.CycleRoot | chordflow_desktop/src/state/fourths.rs:18-35 | the twelve roots of the walk from B, none of them G flat |
| FourthsCircle.FourthAbove | chordflow_music_theory/src/note.rs:102-110 | a note three letters on whose pitch is five semitones up under Rust's truncating `% 12` is exactly what `add_interval` gives for a fourth |
| FourthsCircle.FourthAboveGFlat | chordflow_desktop/src/state/fourths.rs:29-35 | from G flat the walk steps to C with eleven sharps, as `add_interval` spells the fourth |
| FourthsCircle.CycleStep | chordflow_desktop/src/state/fourths.rs:29-35 | each root of the walk is followed by the next root of the walk |
| FourthsCircle.WalkAlongCycle | chordflow_desktop/src/state/fourths.rs:27-37 | a step function that follows a twelve-entry cycle visits entry k mod 12 after k steps |
| FourthsCircle.WalkOnCycle | chordflow_desktop/src/state/fourths.rs:27-37 | k steps from B land on root number k along the cycle |
| FourthsCircle.CyclePosIsRemainder | chordflow_desktop/src/state/fourths.rs:27-37 | the position reached after k steps is k mod 12 |
| FourthsCircle.WalkFromB | chordflow_desktop/src/state/fourths.rs:18-37 | k steps from B give the (k mod 12)-th root of the cycle |
| FourthsCircle.WalkAvoidsGFlat | chordflow_desktop/src/state/fourths.rs:33-35 | a walk that does not start on G flat never reaches it |
| FourthsCircle.WalkPeriodTwelve | chordflow_desktop/src/state/fourths.rs:27-37 | the walk from B returns to where it was after twelve steps |
| FourthsCircle.FourthsConfig.constructor | chordflow_desktop/src/state/fourths.rs:15-21 | the quality given, B then E in that quality, on the cycle |
| FourthsCircle.FourthsConfig.Default | chordflow_desktop/src/state/fourths.rs:44-52 | major, B major then E major, on the cycle |
| FourthsCircle.FourthsConfig.GetChords | chordflow_desktop/src/state/fourths.rs:39-41 | the texts of the current and upcoming chords in chordflow_music_theory's symbols (Major nothing, Minor "-", Diminished "o", Augmented "+") |
| FourthsCircle.FourthsConfig.Reset | chordflow_desktop/src/state/fourths.rs:23-26 | the quality stays; B then E in that quality, back on the cycle |
| FourthsCircle.FourthsConfig.GenerateNextChord | chordflow_desktop/src/state/fourths.rs:27-37 | the upcoming chord becomes current and the next one is its fourth successor in the same quality; a state on the cycle stays on it and never shows G flat |
| DesktopDiatonic.ChoiceOf | chordflow_desktop/src/state/diatonic.rs:67-84 | the walk is in order exactly when `is_random` is false |
| DesktopDiatonic.DegreesListed | chordflow_desktop/src/state/diatonic.rs:76-82 | the degrees are exactly the members of the diatonic list, each at the position its letter span names |
| DesktopDiatonic.SuccessorOnDegrees | chordflow_desktop/src/state/diatonic.rs:76-82 | in order, the interval after a degree is the degree after it, the seventh wrapping to the root |
| DesktopDiatonic.StepOnDegrees | chordflow_desktop/src/state/diatonic.rs:38-47 | a step of the shared generator, read on degrees, lands on a degree, in order on the next one, and gives the chord on that degree |
| DesktopDiatonic.StepFromRoot | chordflow_desktop/src/state/diatonic.rs:25-31 | in order, a step from the root lands on the major second and gives the chord on the second degree |
| DesktopDiatonic.NextDegreeDiffers | chordflow_desktop/src/state/diatonic.rs:38-47 | the chords on consecutive degrees differ |
| DesktopDiatonic.CMajorSupertonic | chordflow_desktop/src/state/diatonic.rs:62 | the chord on the second degree of C major is D minor |
| DesktopDiatonic.ASharpSupertonic | chordflow_desktop/src/state/diatonic.rs:38-47 | the chord on the second degree of A sharp major is B with eleven flats, minor, as `add_interval` spells it |
| DesktopDiatonic.StepFrom | chordflow_desktop/src/state/diatonic.rs:40-44 | interval choice, quality and the root moved by the interval as `add_interval` spells it make one step on degrees |
| DesktopDiatonic.DiatonicConfig.GetChords | chordflow_desktop/src/state/diatonic.rs:49-51 | the texts of the current and upcoming chords in chordflow_music_theory's symbols (Major nothing, Minor "-", Diminished "o") |
| DesktopDiatonic.DiatonicConfig.constructor | chordflow_desktop/src/state/diatonic.rs:54-65 | C diatonic in order, C major then D minor, the walk still on the root |
| DesktopDiatonic.DiatonicConfig.PreviewNextChord | chordflow_desktop/src/state/diatonic.rs:25-31 | the chord a step from the root gives, spelled as `add_interval` spells it: the second degree in order, some degree at random |
| DesktopDiatonic.DiatonicConfig.SetRoot | chordflow_desktop/src/state/diatonic.rs:19-23 | the scale is rebuilt on the new root, the current chord is its major chord and the next is the preview, spelled as `add_interval` spells it |
| DesktopDiatonic.DiatonicConfig.Reset | chordflow_desktop/src/state/diatonic.rs:33-36 | the current chord is the root's major chord and the next is the preview, spelled as `add_interval` spells it; the stored interval is untouched |
| DesktopDiatonic.DiatonicConfig.GenerateNextChord | chordflow_desktop/src/state/diatonic.rs:38-47 | the upcoming chord becomes current and the walk takes one step on degrees from the stored interval, storing the degree reached; the chord's root is spelled as `add_interval` spells it |
| DesktopDiatonic.DiatonicConfig.ResetInStep | chordflow_desktop/src/state/diatonic.rs:33-36 | a reset that also stores the degree its preview stands on, so the upcoming chord is the one on the stored degree |
| DesktopDiatonic.DefaultRepeatsSupertonic | chordflow_desktop/src/state/diatonic.rs:54-65 | from the default state, one step makes D minor current and shows D minor again as the upcoming chord |
| DesktopDiatonic.InStepAdvances | chordflow_desktop/src/state/diatonic.rs:38-47 | when the stored degree is the one shown, a step in order always shows a different chord |
| DesktopProgression.NewProgressionChord | chordflow_desktop/src/state/progression.rs:72-75 | the chord given, held for one bar |
| DesktopProgression.OriginOr | chordflow_desktop/src/state/progression.rs:16-23 | the chord's original text, or the empty string without a chord |
| DesktopProgression.Following | chordflow_desktop/src/state/progression.rs:33-34 | the index after i among n entries, the last wrapping to the first |
| DesktopProgression.Lowered | chordflow_desktop/src/state/progression.rs:40 | one bar less, never below zero |
| DesktopProgression.ProgressionConfig.constructor | chordflow_desktop/src/state/progression.rs:5-11 | the derived default: no chords, no current or upcoming chord, index 0 |
| DesktopProgression.ProgressionConfig.GetChords | chordflow_desktop/src/state/progression.rs:14-25 | the original texts of the current and upcoming chords (empty when absent); in step, the texts of the entries at the index and after it |
| DesktopProgression.ProgressionConfig.BarsPerCycleCurrent | chordflow_desktop/src/state/progression.rs:27-29 | the bar count of the current entry, below 256 as a `u8`; an index out of range panics |
| DesktopProgression.ProgressionConfig.GenerateNextChord | chordflow_desktop/src/state/progression.rs:31-36 | the upcoming chord becomes current, the index moves one on with wrap-around and the chord after it is upcoming; an empty list panics |
| DesktopProgression.ProgressionConfig.DecrementsBars | chordflow_desktop/src/state/progression.rs:38-42 | the entry at the index, if any, loses a bar (never below zero); every other entry and the length are unchanged |
| DesktopProgression.ProgressionConfig.IncrementsBars | chordflow_desktop/src/state/progression.rs:44-48 | the entry at the index, if any, gains a bar (`u8` overflow at 255 panics); every other entry and the length are unchanged |
| DesktopProgression.ProgressionConfig.Reset | chordflow_desktop/src/state/progression.rs:50-63 | no change without chords; with one chord it is both current and upcoming; otherwise the first two; the index is 0 and the state is in step |
| DesktopProgression.AdvanceSplit | chordflow_desktop/src/state/progression.rs:31-36 | a + b steps are a steps followed by b steps |
| DesktopProgression.AdvanceClimbs | chordflow_desktop/src/state/progression.rs:31-36 | short of the end, k steps add k to the index |
| DesktopProgression.CycleReturns | chordflow_desktop/src/state/progression.rs:31-36 | as many steps as entries bring the index back where it was |
| Metronomes.Step | chordflow_shared/src/metronome.rs:63-71 | without the timer's `ended` flag nothing moves; with counters in range before, they are in range after (a zero bar count panics once a bar ends) |
| Metronomes.RunWithinBar | chordflow_shared/src/metronome.rs:63-71 | j ended beats from the start of a bar, short of its end, leave the bar and put the beat at j |
| Metronomes.OneBarPerBeats | chordflow_shared/src/metronome.rs:63-71 | as many ended beats as the bar has move the bar counter one on, wrapping, and the beat back to 0 |
| Metronomes.QuarterNoteMs | chordflow_shared/src/metronome.rs:23 | the integer quotient of 60 000 by the tempo: the largest whole number of milliseconds that fits the tempo into a minute |
| Metronomes.Metronome.constructor | chordflow_shared/src/metronome.rs:17-35 | tempo and counts as given, the beat and bar durations derived from the tempo, both counters at 0, a timer neither running nor ended; in range when both counts are positive |
| Metronomes.Metronome.SyncTimersWithBpm | chordflow_shared/src/metronome.rs:43-49 | beat and bar durations derived from the current tempo and beat count |
| Metronomes.Metronome.Reset | chordflow_shared/src/metronome.rs:37-41 | both counters at 0 and the durations re-derived |
| Metronomes.Metronome.Start | chordflow_shared/src/metronome.rs:51-53 | the timer runs |
| Metronomes.Metronome.Toggle | chordflow_shared/src/metronome.rs:73-75 | the timer's running flag flips |
| Metronomes.Metronome.ResetTimers | chordflow_shared/src/metronome.rs:77-79 | the timer's ended flag is cleared |
| Metronomes.Metronome.HasCycleEnded | chordflow_shared/src/metronome.rs:55-61 | a cycle ends exactly when a bar ends and the bar counter is a multiple of the bar count |
| Metronomes.Metronome.Tick | chordflow_shared/src/metronome.rs:63-71 | the ended flag follows the elapsed clock while running and is kept when paused; the counters take one `Step` on that flag |
| Metronomes.Metronome.IncreaseBpm | chordflow_shared/src/metronome.rs:81-83 | the tempo rises by the amount given |
| Metronomes.Metronome.DecreaseBpm | chordflow_shared/src/metronome.rs:84-86 | the tempo falls by the amount given; unsigned underflow panics |
| DesktopApp.TickCounters | chordflow_desktop/src/ui/app.rs:43-57 | from 1-based counters in range, the counters stay in range; the cycle is done exactly when the last tick of the last bar passes, and then both counters are back at 1; otherwise the bar stays or moves one on |
| DesktopApp.ChordToAnnounce | chordflow_desktop/src/ui/app.rs:201-215 | a chord is announced exactly on the last tick of a bar: the upcoming chord on the last bar of the cycle, the current chord on any other bar; nothing otherwise |
| DesktopApp.AnnouncementPrecedesBar | chordflow_desktop/src/ui/app.rs:195-215 | a chord is announced exactly when the next tick starts a bar; when the chords differ, the upcoming one is announced exactly at a cycle's end |
| DesktopApp.MetronomeState.constructor | chordflow_desktop/src/ui/app.rs:30-40 | two bars per chord, four ticks per bar, the initial tempo, bar 1 and tick 0 |
| DesktopApp.MetronomeState.Tick | chordflow_desktop/src/ui/app.rs:43-57 | the counters and the cycle flag are those `TickCounters` gives for the counters before (`u8` overflow is excluded) |
| DesktopApp.AppState.constructor | chordflow_desktop/src/ui/app.rs:60-67 | not playing, fourths selected; fourths from B major to E major; the diatonic walk on C major in order, from C major to D minor with the interval at the unison; the progression empty, with no chords and index 0 |
| DesktopApp.AppState.GetChords | chordflow_desktop/src/ui/app.rs:70-86 | the selected generator's texts (the fourths and diatonic ones in chordflow_music_theory's symbols); two empty strings for the random mode |
| DesktopApp.AppState.GetMidiCodes | chordflow_desktop/src/ui/app.rs:88-113 | the selected generator's MIDI codes, each in 60..71 for fourths and diatonic; the external chord's codes or nothing for custom; two empty lists for random |
| DesktopApp.AppState.Advance | chordflow_desktop/src/ui/app.rs:115-132 | only the selected generator advances: its upcoming chord becomes current and the next is generated (a fourth up with the quality kept; a diatonic step from the stored interval with scale and order kept; the following entry of an unchanged progression, its index moved on by one with wrap-around); in custom mode the metronome takes the bar count of the new current entry; the other generators stay unchanged |
| DesktopApp.AppState.Restart | chordflow_desktop/src/ui/app.rs:134-163 | the selected generator restarts with its own `reset`: fourths from B to E in the kept quality; the diatonic walk on the root, previewing from it with its stored interval kept; the progression on its first entry, followed by the second (or the first again when alone), index 0; the other generators stay unchanged; the metronome goes back to bar 1, tick 0; the current chord's codes are sent to the audio thread |
| DesktopApp.AppState.OnTick | chordflow_desktop/src/ui/app.rs:195-215 | the metronome ticks; the generators stay unchanged unless the cycle is done, and then the selected one advances exactly as `advance` does; the command sent is the announcement for the new counters |
| DesktopApp.AppState.TogglePlay | chordflow_desktop/src/ui/app.rs:223-231 | the playing flag flips; Stop is sent when it was playing and Start otherwise |
| AudioConfig.NoteToMidi | chordflow_desktop/src/audio/config.rs:19-21 | the pitch class by Rust's truncating remainder placed above middle C: every `i32` lands in 49..71, so the unsigned cast never truncates; a non-negative input lands in 60..71, 0..11 map to 60..71 one to one, and the result is always congruent to 60 plus the input modulo 12 (the same function is chordflow_audio/src/audio.rs:150-152 and chordflow_desktop/src/ui/app.rs:269-271) |
| AudioConfig.ChordToMidi | chordflow_desktop/src/audio/config.rs:23-29 | one MIDI key per C-based semitone of the chord, in order, each 60 plus that semitone and within 60..71 (the same function is chordflow_audio/src/audio.rs:154-160 and chordflow_desktop/src/ui/app.rs:261-267) |
| AudioConfig.NoteToMidiInjective | chordflow_desktop/src/audio/config.rs:19-21 | two pitch classes map to the same key exactly when they are equal |
| AudioConfig.CMajorMidi | chordflow_desktop/src/audio/config.rs:23-29 | C major sounds as keys 60, 64, 67 |
| AudioConfig.ChordToMidiStartsOnRoot | chordflow_desktop/src/audio/config.rs:23-29 | every chord sounds at least three keys and the first is its root's pitch class above middle C |
| ChordAudio.TickStart | chordflow_audio/src/audio.rs:57 | the tick's first sample, clamped so it never lies past the end of the buffer |
| ChordAudio.AddTick | chordflow_audio/src/audio.rs:58-63 | mixing a tick in keeps the buffer's length |
| ChordAudio.MixTicks | chordflow_audio/src/audio.rs:32-36 | mixing the first k ticks in keeps the buffer's length |
| ChordAudio.TickLog | chordflow_audio/src/audio.rs:33-36 | k ticks make three synthesiser calls each |
| ChordAudio.Synth.constructor | chordflow_audio/src/audio.rs:113-121 | a synthesiser that has received no calls |
| ChordAudio.Synth.NoteOnCall | chordflow_audio/src/audio.rs:26 | a note-on is recorded with its channel, key and velocity, after every earlier call |
| ChordAudio.Synth.NoteOffCall | chordflow_audio/src/audio.rs:40 | a note-off is recorded with its channel and key, after every earlier call |
| ChordAudio.Synth.Write | chordflow_audio/src/audio.rs:29 | the buffer holds what the synthesiser renders, and one render call of the buffer's length is recorded |
| ChordAudio.Synth.PlayTick | chordflow_audio/src/audio.rs:46-64 | note-on of key 76 on channel 9 at velocity 120, a render of a tenth of a second and the note-off, in that order; the buffer becomes the old one with the tick added from its clamped start |
| ChordAudio.Synth.PlayChordWithTicks | chordflow_audio/src/audio.rs:16-44 | a fresh buffer of duration × 44100 × 2 / 1000 samples holding the rendered chord with every tick mixed in; the calls are the chord's note-ons, one render, three calls per tick and the note-offs, in that order |
| ChordAudio.Synth.PlayTicks | chordflow_audio/src/audio.rs:32-36 | the buffer gains each of the bar's ticks at its own time, and the calls are three per tick |
| ChordAudio.Synth.StrikeAll | chordflow_audio/src/audio.rs:25-27 | one note-on per chord key, in order, on channel 0 at velocity 100 |
| ChordAudio.Synth.ReleaseAll | chordflow_audio/src/audio.rs:39-41 | one note-off per chord key, in order, on channel 0 |
| ChordAudio.NotesOnSplit | chordflow_audio/src/audio.rs:25-27 | striking two runs of keys records the two runs of note-ons one after the other |
| ChordAudio.NotesOffSplit | chordflow_audio/src/audio.rs:39-41 | releasing two runs of keys records the two runs of note-offs one after the other |
| ChordAudio.BufferLengthBounds | chordflow_audio/src/audio.rs:22 | the buffer length is the duration's sample count rounded down: no more than exact and less than one sample short |
| ChordAudio.TicksEvenlySpaced | chordflow_audio/src/audio.rs:32-35 | the first tick is at time 0 and each following tick one truncated interval later |
| ChordAudio.TicksWithinChord | chordflow_audio/src/audio.rs:32-35 | every tick time lies within the chord, strictly before its end when it lasts at all |
| ChordAudio.TicksStartInsideBuffer | chordflow_audio/src/audio.rs:32-57 | for a chord that lasts, every tick starts at its own time's sample, which lies inside the buffer, so the clamp never applies |
| ChordAudio.TickConfined | chordflow_audio/src/audio.rs:57-63 | a tick changes only the samples from its start for its own length, adding its samples to them; a tick starting at or past the end changes nothing |
| ChordAudio.NotesOnAt | chordflow_audio/src/audio.rs:25-27 | the k-th note-on strikes the k-th key |
| ChordAudio.NotesOffAt | chordflow_audio/src/audio.rs:39-41 | the k-th note-off releases the k-th key |
| ChordAudio.TickLogAt | chordflow_audio/src/audio.rs:33-36 | each tick's three calls are the note-on, the render and the note-off of the woodblock |
| ChordAudio.ChordLogStrikes | chordflow_audio/src/audio.rs:16-44 | a chord's calls start with one note-on per key, in order, followed by the chord's render |
| ChordAudio.ChordLogTicks | chordflow_audio/src/audio.rs:16-44 | after the render come the ticks' calls, three per tick |
| ChordAudio.ChordLogReleases | chordflow_audio/src/audio.rs:16-44 | after the ticks comes one note-off per key, in order, and nothing else |
| AudioStream.Woodblocks | chordflow_desktop/src/audio/stream.rs:97-99 | k strikes of the woodblock: key 76 on channel index 9 at velocity 100, each one |
| AudioStream.SamplesPerBeat | chordflow_desktop/src/audio/stream.rs:121 | the sample rate times 60 divided by the tempo, truncated: the largest whole number of samples that fits the tempo into a minute |
| AudioStream.ScheduleShape | chordflow_desktop/src/audio/stream.rs:123-137 | at most one click per frame, in frame order; the schedule moves one beat per click, however late the frame that fired; the i-th click fires on a frame whose sample has reached the i-th scheduled sample |
| AudioStream.OnTimeClicksOnGrid | chordflow_desktop/src/audio/stream.rs:123-137 | when the schedule is not behind and a beat lasts a sample or more, each click fires exactly on its beat and afterwards the schedule lies at or past the end of the frames |
| AudioStream.Stream.constructor | chordflow_desktop/src/audio/stream.rs:24-36 | the device's channel count and sample rate, 120 BPM, not playing, both sample counters at 0, no strikes and no ticks sent |
| AudioStream.Stream.HandleCommand | chordflow_desktop/src/audio/stream.rs:75-89 | Start plays and schedules the first click at the current sample; Stop stops without touching the schedule; SetBPM sets the tempo alone; every other command changes nothing |
| AudioStream.Stream.FireClicks | chordflow_desktop/src/audio/stream.rs:123-137 | the schedule and the strikes and ticks sent are those of the click schedule over the frames from the current sample |
| AudioStream.Stream.Callback | chordflow_desktop/src/audio/stream.rs:105-167 | while stopped the buffer is silence and nothing else changes; while playing, the clicks follow the schedule and the counter moves on by the frames; stereo interleaves the rendered channels (a trailing odd sample stays silent); any other channel count writes the average of both channels into every sample of a frame |
| AudioStream.FillZero | chordflow_desktop/src/audio/stream.rs:106 | every sample is 0 |
| AudioStream.MixStereo | chordflow_desktop/src/audio/stream.rs:150-153 | each whole frame gains the left sample on its first slot and the right on its second; a trailing odd sample is left alone |
| AudioStream.MixDown | chordflow_desktop/src/audio/stream.rs:161-163 | every sample gains the average of its frame's left and right samples |
| AudioStream.FrameInside | chordflow_desktop/src/audio/stream.rs:161-163 | with a buffer of whole frames, every sample's frame index lies inside the rendered channels |
| Subdivisions.SubdivisionsPerBeat | chordflow_desktop/src/ui/top_zone/subdivision_selector.rs:15-22 | one to four clicks per beat, never zero |
| Subdivisions.All | chordflow_desktop/src/ui/top_zone/subdivision_selector.rs:33-40 | the four subdivisions |
| Subdivisions.Ordinal | chordflow_desktop/src/ui/top_zone/subdivision_selector.rs:33-40 | a subdivision's place in the listing, one of four |
| Subdivisions.PerBeatDistinct | chordflow_desktop/src/ui/top_zone/subdivision_selector.rs:15-22 | two subdivisions click equally often exactly when they are the same |
| Subdivisions.ParseLabel | chordflow_desktop/src/ui/top_zone/subdivision_selector.rs:52-58 | parsing a subdivision's label gives that subdivision back |
| Subdivisions.LabelsDistinct | chordflow_desktop/src/ui/top_zone/subdivision_selector.rs:24-31 | two subdivisions have the same label exactly when they are the same |
| Subdivisions.ParseUnknown | chordflow_desktop/src/ui/top_zone/subdivision_selector.rs:57 | any text that is no label parses as no subdivision |
| Subdivisions.AllInOrder | chordflow_desktop/src/ui/top_zone/subdivision_selector.rs:33-40 | the listing holds every subdivision once, each at its own place |
| Subdivisions.Options | chordflow_desktop/src/ui/top_zone/subdivision_selector.rs:67-73 | one option per listed subdivision |
| Subdivisions.OneOptionSelected | chordflow_desktop/src/ui/top_zone/subdivision_selector.rs:67-73 | exactly the current subdivision's option is marked selected, and its value parses back to it |
| Subdivisions.SubdivisionControl.constructor | chordflow_desktop/src/ui/app.rs:30-40 | the bar display starts on bar 1 before any tick, with no subdivision and nothing sent |
| Subdivisions.SubdivisionControl.OnChange | chordflow_desktop/src/ui/top_zone/subdivision_selector.rs:51-66 | the bar display restarts on bar 1 before any tick, the chosen value is parsed and stored, and its click count is sent to the audio thread unless the queue is full |
| MetronomeGrid.RowShape | chordflow_tui/src/ui.rs:416-424 | a bar's row has one square per beat, the t-th square coloured for that bar and beat |
| MetronomeGrid.GridLength | chordflow_tui/src/ui.rs:412-425 | no bars give an empty line; otherwise every bar takes its beats plus three characters of separator, except that the first has none |
| MetronomeGrid.GridPrefix | chordflow_tui/src/ui.rs:412-425 | the line for fewer bars is the start of the line for more: the builder only ever appends |
| MetronomeGrid.BarOffset | chordflow_tui/src/ui.rs:412-425 | bar b starts at b × (beats + 3), after the earlier bars and a separator when it is not the first, and contributes one row of the bar's beats |
| MetronomeGrid.SquareAt | chordflow_tui/src/ui.rs:416-424 | the square of bar b and beat t sits at b × (beats + 3) + t, inside the line, coloured for that bar and beat |
| MetronomeGrid.SeparatorAt | chordflow_tui/src/ui.rs:413-415 | every bar after the first is preceded by the separator (space, bar line, space) |
| MetronomeGrid.GridCongruent | chordflow_tui/src/ui.rs:409-428 | two colourings that agree on every square of the cycle draw the same line |
| MetronomeGrid.SeparatorCount | chordflow_tui/src/ui.rs:414 | a separator is one bar and two spaces |
| MetronomeGrid.RowOn | chordflow_tui/src/ui.rs:416-424 | in a row coloured by progress, every square of an earlier bar is on, the current bar is on up to and including the current beat, and a later bar has none on |
| MetronomeGrid.RowSquares | chordflow_tui/src/ui.rs:416-424 | a row of two colours holds one of them per beat and no bar character |
| MetronomeGrid.GridSquares | chordflow_tui/src/ui.rs:409-428 | with two colours distinct from the separator's characters, the line holds one square per beat of every bar and one bar character between consecutive bars |
| MetronomeGrid.GridOnUpTo | chordflow_tui/src/ui.rs:409-428 | the first k bars hold every square up to and including the current beat as on, and no other |
| MetronomeGrid.GridOn | chordflow_tui/src/ui.rs:409-428 | with the metronome inside the cycle, the line holds exactly current bar × beats + current beat + 1 squares that are on |
| MetronomeGrid.BeatIndexOrder | src/app.rs:61-68 | comparing flat beat indices bar × beats + beat is comparing (bar, beat) pairs lexicographically, as long as both beats lie within a bar |
| TuiUi.GenerateMetronomeDisplay | chordflow_tui/src/ui.rs:409-428 | the line built by the nested loops is the grid of the metronome's bars and beats, each square filled when it lies at or before the current bar and beat and hollow after |
| TuiUi.DisplayCounts | chordflow_tui/src/ui.rs:409-428 | one square per beat of every bar, one bar character between bars, and, with the metronome inside the cycle, exactly the beats played so far filled |
| TuiUi.SquareColour | chordflow_tui/src/ui.rs:417-423 | the square of bar b and beat t is filled exactly when b is an earlier bar or t is at or before the current beat of the current bar, and hollow exactly otherwise |
| TuiUi.NoBarsNoDisplay | chordflow_tui/src/ui.rs:412 | a metronome without bars draws nothing |
| TuiUi.RowOfFour | chordflow_tui/src/ui.rs:416-424 | a bar of four beats is its four squares |
| TuiUi.TwoBarsOfFour | chordflow_tui/src/ui.rs:412-425 | two bars of four beats are four squares, the separator (space, bar line, space) and four squares |
| TuiUi.DisplayAtStart | chordflow_tui/src/ui.rs:439-443 | at the start of two bars of four only the first square is filled |
| TuiUi.DisplayOnThirdBeat | chordflow_tui/src/ui.rs:445-449 | on the third beat of the first bar the first three squares are filled |
| TuiUi.DisplayInSecondBar | chordflow_tui/src/ui.rs:450-454 | on the third beat of the second bar all of the first bar and three squares of the second are filled |
| EnumCycle.NextItem | chordflow_tui/src/main.rs:122-129 | the position after the given one among the variants, the first after the last |
| EnumCycle.PrevItem | chordflow_tui/src/main.rs:131-142 | a position among the variants: the one before, or the last when at the first |
| EnumCycle.PrevUndoesNext | chordflow_tui/src/main.rs:122-142 | stepping back undoes stepping forward, and stepping forward undoes stepping back |
| EnumCycle.IndexOf | chordflow_tui/src/main.rs:126 | the place of the first entry equal to the item, which must be listed for the unwrap to succeed |
| EnumCycle.IndexOfDistinct | chordflow_tui/src/main.rs:126 | in a listing without repeats the entry at place k is found at place k |
| EnumCycle.Succ | chordflow_tui/src/main.rs:122-129 | the entry after a listed one is listed |
| EnumCycle.Pred | chordflow_tui/src/main.rs:131-142 | the entry before a listed one is listed |
| EnumCycle.PredUndoesSucc | chordflow_tui/src/main.rs:122-142 | in a listing without repeats, the entry before the next one is the entry itself, and the other way round |
| EnumCycle.SuccWraps | chordflow_tui/src/main.rs:127 | the last entry is followed by the first and the first is preceded by the last |
| EnumCycle.SuccSteps | chordflow_tui/src/main.rs:127 | any other entry is followed by the one listed after it |
| TuiApp.TabsListed | chordflow_tui/src/main.rs:65-70 | the tabs are listed in declaration order, each exactly once |
| TuiApp.ModeOptionsListed | chordflow_shared/src/lib.rs:9-15 | the mode options are listed in declaration order, each exactly once |
| TuiApp.DiatonicChoicesListed | chordflow_shared/src/lib.rs:17-24 | the diatonic options are listed in declaration order, each exactly once |
| TuiApp.CountersAfterOne | chordflow_tui/src/main.rs:169-195 | one event alone: a completed cycle zeroes both counters, a completed bar moves to that bar at beat 0, a tick keeps the bar and moves to its beat |
| TuiApp.CountersAfterConcat | chordflow_tui/src/main.rs:169-195 | draining two batches of metronome events one after the other leaves the counters the combined batch leaves |
| TuiApp.TicksKeepBar | chordflow_tui/src/main.rs:193 | tick events never move the bar counter, and the tick counter ends at the last tick reported |
| TuiApp.BarCompletes | chordflow_tui/src/main.rs:184-192 | no more bar ends than events |
| TuiApp.CycleCompletes | chordflow_tui/src/main.rs:171-183 | no more cycle ends than events |
| TuiApp.App.constructor | chordflow_tui/src/main.rs:95-120 | the Playback tab, Fourths mode, the default configuration, Major under the random-qualities cursor, no input, the given tempo and counts, both counters at 0, the default practice state (B major current, E major upcoming, index 0, interval unison) and nothing sent |
| TuiApp.App.SyncMetronomeBars | chordflow_tui/src/main.rs:199-206 | in a parsed custom progression the bar count becomes that of the upcoming entry, otherwise it stays; the count is sent to the metronome |
| TuiApp.App.CompleteCycle | chordflow_tui/src/main.rs:171-183 | the bar count is synced and sent, the metronome is told to reset, the chord advances to the upcoming one and both counters restart; in a custom progression the chord that now sounds is held for its own entry's bar count |
| TuiApp.App.HandleEvent | chordflow_tui/src/main.rs:169-195 | a cycle end advances the chord as above and sends no audio; a bar end plays the current chord at the tempo and ticks per bar and sets the bar; a tick sets the tick; only a cycle end touches the practice state or the metronome queue |
| TuiApp.App.Update | chordflow_tui/src/main.rs:168-196 | draining a batch of events advances the practice state once per cycle end (the trail of states it passes through, each one `next_chord` after the one before); each bar end plays the chord current at that point at the tempo and ticks per bar, each cycle end sends the bar count it leaves and a reset, in event order; the counters end as the events dictate and nothing else changes |
| TuiApp.AudioLog | chordflow_tui/src/main.rs:184-192 | one play request per bar end, in order, each for the chord current after the cycle ends before it |
| TuiApp.MetronomeLog | chordflow_tui/src/main.rs:171-183 | two metronome commands per cycle end, in order: the bar count that cycle leaves, then a reset |
| TuiApp.StepLogs | chordflow_tui/src/main.rs:169-195 | one more event extends the trail by the cycle it completes, if any, and each log by exactly what that event sends |
| TuiApp.App.Consume | chordflow_tui/src/main.rs:169-195 | handling one event of the batch keeps the logs equal to the log functions of the events handled so far |
| TuiKeymap.TabCyclingUndoes | chordflow_tui/src/keymap.rs:16-21 | Left undoes Right on the tab bar, and Right undoes Left |
| TuiKeymap.ModeCyclingUndoes | chordflow_tui/src/keymap.rs:71-81 | Up undoes Down in the mode list, and Down undoes Up |
| TuiKeymap.QualityCyclingUndoes | chordflow_tui/src/keymap.rs:83-107 | Up undoes Down on a quality list, and Down undoes Up |
| TuiKeymap.CyclingWraps | chordflow_tui/src/keymap.rs:16-21 | Right from Playback reaches Mode and Left from Mode reaches Playback, Mode and Config step forward in order; the mode list wraps from Custom to Fourths and back; Tab flips between the two diatonic options |
| TuiKeymap.NextRoot | chordflow_tui/src/keymap.rs:129-137 | Down on the diatonic configuration moves from an offered root to an offered root |
| TuiKeymap.PrevRoot | chordflow_tui/src/keymap.rs:138-149 | Up on the diatonic configuration moves from an offered root to an offered root |
| TuiKeymap.RootCyclingUndoes | chordflow_tui/src/keymap.rs:129-149 | Up undoes Down on the root list, and Down undoes Up |
| TuiKeymap.RootsWrap | chordflow_tui/src/keymap.rs:129-149 | the root list wraps from B flat to C natural and back |
| TuiKeymap.Without | chordflow_tui/src/keymap.rs:116-118 | `retain` keeps exactly the entries other than the given quality, and never grows the list |
| TuiKeymap.WithoutDistinct | chordflow_tui/src/keymap.rs:116-118 | removing a quality from a list without repeats keeps it without repeats, one shorter when the quality was there |
| TuiKeymap.WithoutAbsent | chordflow_tui/src/keymap.rs:116-118 | removing a quality that is not there changes nothing |
| TuiKeymap.WithoutTrailing | chordflow_tui/src/keymap.rs:116-123 | removing a quality that was just appended restores the list |
| TuiKeymap.ToggleKeepsSelection | chordflow_tui/src/keymap.rs:109-125 | Space keeps the selection non-empty and without repeats, touches no other quality, and leaves the cursor's quality selected exactly when it was not, or was the only one |
| TuiKeymap.ToggleTwice | chordflow_tui/src/keymap.rs:109-125 | Space twice on an unselected quality restores the selection |
| TuiKeymap.Pop | chordflow_tui/src/keymap.rs:169-171 | Backspace drops the last character of the input, and leaves an empty input empty |
| TuiKeymap.OnlyCustomCanFail | chordflow_tui/src/keymap.rs:24-42 | applying the selected mode can only panic for a custom selection without a parsed, non-empty progression |
| TuiKeymap.SelectMode | chordflow_tui/src/keymap.rs:24-42 | F1 makes the selected mode active and reports a change exactly when it differs from the active one; the bar count is synced and sent either way; on a change the practice state is reset for the new mode (start chord, then the chord generated from it), the metronome resets, both counters restart and the new chord is played; otherwise the chords, index and interval stay |
| TuiKeymap.NavigationKeys | chordflow_tui/src/keymap.rs:16-23 | Left and Right step the tab back and forth; Esc and q set the exit flag, which is never cleared |
| TuiKeymap.ChangeTempo | chordflow_tui/src/keymap.rs:47-56 | Up adds 2 to the tempo and Down takes 2 off, the matching command goes to the metronome, then the bar count is synced and sent |
| TuiKeymap.ResetPractice | chordflow_tui/src/keymap.rs:58 | the practice state keeps its mode and starts over on its first chord, with the chord generated from it upcoming, ready to advance |
| TuiKeymap.Restart | chordflow_tui/src/keymap.rs:57-67 | r resets the practice (start chord, then the chord generated from it), zeroes both counters, sends Reset to the metronome and plays the new current chord; tempo and bar count stay |
| TuiKeymap.PlaybackKeys | chordflow_tui/src/keymap.rs:46-69 | Up adds 2 to the tempo and Down takes 2 off, sending the matching command and the synced bar count; r restarts as `Restart` does; any other key changes nothing; mode selection and configuration always stay |
| TuiKeymap.ModeKeys | chordflow_tui/src/keymap.rs:71-81 | Up selects the previous mode option, Down the next, any other key none; nothing else changes |
| TuiKeymap.FourthsKeys | chordflow_tui/src/keymap.rs:83-97 | Up selects the previous quality for the fourths mode, Down the next; nothing else changes |
| TuiKeymap.RandomKeys | chordflow_tui/src/keymap.rs:98-127 | Up and Down move the cursor through the qualities; Space toggles the quality under the cursor in the selection; nothing else changes |
| TuiKeymap.DiatonicKeys | chordflow_tui/src/keymap.rs:128-157 | Down and Up step the root through the offered roots, Tab steps the diatonic option; nothing else changes |
| TuiKeymap.CustomKeys | chordflow_tui/src/keymap.rs:158-176 | Enter stores the parsed input as the progression, or none when parsing fails; Backspace drops the input's last character; any character is appended; nothing else changes |
| TuiKeymap.ConfigKeys | chordflow_tui/src/keymap.rs:82-177 | exactly the effect of the selected mode's handler (Fourths, Random, Diatonic or Custom keys) and nothing else |
| TuiKeymap.TabKeys | chordflow_tui/src/keymap.rs:45-178 | exactly the effect of the selected tab's handler (Playback, Mode or Config keys), never on the tab or the exit flag; function, arrow-left, arrow-right and Esc keys change nothing |
| TuiKeymap.IgnoredKeysChangeNothing | chordflow_tui/src/keymap.rs:45-178 | no tab's handler reacts to a function key, Left, Right or Esc: with one of those the second match changes nothing |
| TuiKeymap.HandleKeys | chordflow_tui/src/keymap.rs:14-179 | the tab moves and the exit flag is set as the first match says; F1 applies the selected mode exactly as `SelectMode` does and changes nothing else; any other key then has the new tab's handler effect; Left and Right change nothing else; q on the custom configuration both exits and types a q, since both matches run |
| LegacyApp.App.constructor | src/main.rs:152-169 | the Mode tab in Fourths mode with Major selected, every quality selected for the random mode with Major under the cursor, no input and no parsed progression, the incremental diatonic walk on C natural, a fresh metronome at 100 BPM with two bars of four beats and both counters at 0, the default practice state (B major current, E major upcoming, index 0, interval unison), nothing played; the loop can run |
| LegacyApp.App.Begin | src/main.rs:193-201 | the metronome's timer starts, the Playback tab is shown and the current chord is played once, at the bar's duration and beats |
| LegacyApp.App.EndCycle | src/main.rs:211-218 | in a parsed custom progression the metronome takes the upcoming entry's bar count, otherwise its bar count stays; the chord advances as `next_chord` does (the upcoming chord current, the next one generated from it) and the metronome restarts at bar 0, beat 0, so the chord that now sounds is held for its own entry's bar count |
| LegacyApp.App.Update | src/main.rs:209-228 | one tick of the metronome; when it completes a cycle the chord advances as `next_chord` does, the metronome restarts and the new chord is played at once; otherwise the chord and bar count stay, the counters are those of the tick, and the chord is played again exactly when a bar ends |
| LegacyScreen.SaturatingDec | src/app.rs:309 | one less, but never below zero |
| LegacyScreen.PracticeKey | src/app.rs:297-321 | = adds 2 to the tempo and - takes 2 off; Left and [ take one bar or beat off, stopping at zero; Right and ] add one; every other key leaves the settings alone |
| LegacyScreen.PracticeKeysUndo | src/app.rs:297-321 | each adjusting key is undone by its partner, the decrements wherever they do not stop at zero |
| LegacyScreen.CycleUp | src/app.rs:328-334 | Up on a modal list of three steps back one place, from the first to the last |
| LegacyScreen.CycleDown | src/app.rs:335-337 | Down on a modal list of three steps forward one place, from the last to the first |
| LegacyScreen.ModalCyclingUndoes | src/app.rs:328-337 | Up undoes Down and Down undoes Up on a modal list, and three steps either way return to the start |
| LegacyScreen.BeatIndex | src/app.rs:61-66 | a beat within a bar lies before the start of the next bar |
| LegacyScreen.LegacyCellIsProgress | src/app.rs:57-75 | comparing flat beat indices colours every beat at or before the current one hollow and every later beat filled, exactly the colouring of the newer terminal display with the two squares swapped |
| LegacyScreen.LegacyDisplayCounts | src/app.rs:57-75 | one square per beat of every bar, one bar character between bars, and, with the metronome inside the cycle, exactly the beats played so far hollow |
| LegacyScreen.Screen.constructor | src/app.rs:382-389 | not exiting, the Fourths tab, the practice view, both modal selections at 0, the given metronome |
| LegacyScreen.Screen.HandlePracticeKeys | src/app.rs:297-322 | the metronome's tempo, bars and beats change as one practice key says, and q sets the exit flag |
| LegacyScreen.Screen.HandleModalMainKeys | src/app.rs:323-343 | Esc returns to the practice view and Enter opens the second level; Up and Down cycle the selected mode among three; other keys change nothing |
| LegacyScreen.Screen.HandleModalSecondaryKeys | src/app.rs:345-365 | Esc returns to the first level; Up and Down cycle the selected quality among three; other keys change nothing |
| LegacyScreen.Screen.HandleEvents | src/app.rs:367-380 | every key first acts as a practice key; on the Fourths tab it acts as one a second time, so each adjustment happens twice; on the Random tab it then drives the first modal level (only Esc and Enter change the modal, only Up and Down the mode) and on the Custom tab the second (only Esc changes the modal, only Up and Down the quality) |
| LegacyScreen.Screen.MetronomeDisplay | src/app.rs:57-75 | the line built by the nested loops is the grid of the metronome's bars and beats, each square hollow at or before the current beat and filled after it |
| LegacyScreen.FourthsTabDoubleStep | src/app.rs:370-372 | on the Fourths tab = raises the tempo by 4, Right and ] add two bars or beats, and - lowers the tempo by 4 |
| ProgressionParser.FirstAlternativeFromSound | src/progression.rs:50 | the quality alternative picked is one of the pattern's alternatives and occurs at the position; when none is picked, none of them occurs there |
| ProgressionParser.CapturedAccidental | src/progression.rs:50-60 | the optional accidental group takes one character or none, and taking none means natural |
| ProgressionParser.CapturedQuality | src/progression.rs:50-62 | the optional quality group never moves the match backwards or past the end of the text |
| ProgressionParser.MatchAt | src/progression.rs:50-63 | a match starts exactly where a digit is followed by a letter of the class; it spans at least those two characters, ends inside the text and holds 0 to 9 bars |
| ProgressionParser.MatchFound | src/progression.rs:54-63 | a match reads its bars from the digit, its root from the letter and the accidental's semitones, and its quality from the quality group, and ends after the last group captured |
| ProgressionParser.Scan | src/progression.rs:54-64 | every entry found holds 0 to 9 bars |
| ProgressionParser.Parse | src/progression.rs:48-76 | an error is always "Invalid progression"; a success holds at least one entry, each of 0 to 9 bars |
| ProgressionParser.FromStr | src/progression.rs:48-76 | the loop over the matches, pushing one entry per match and then rejecting an empty result, gives exactly the parse |
| ProgressionParser.ScanEmptyIff | src/progression.rs:54-68 | the scan finds nothing exactly when no digit in the text is followed by a letter of the class |
| ProgressionParser.ParseErrIff | src/progression.rs:66-68 | parsing fails exactly when no digit in the text is followed by a letter of the class |
| ProgressionParser.NoAlternativeAt | src/progression.rs:50 | when no alternative starts with the character at the position, no quality is captured there |
| ProgressionParser.FoundFirst | src/progression.rs:50 | alternation picks the first alternative in pattern order that occurs at the position |
| ProgressionParser.ExampleNoQuality | src/progression.rs:85 | in "3C 2Bm 1F#aug" no quality follows the C |
| ProgressionParser.ExampleFirstMatch | src/progression.rs:90 | "3C" reads as C major held for three bars |
| ProgressionParser.ExampleMinorQuality | src/progression.rs:91 | the quality after "2B" is minor |
| ProgressionParser.ExampleSecondMatch | src/progression.rs:91 | "2Bm" reads as B minor held for two bars |
| ProgressionParser.ExampleAugmentedQuality | src/progression.rs:92-95 | the quality after "1F#" is augmented |
| ProgressionParser.ExampleThirdMatch | src/progression.rs:92-95 | "1F#aug" reads as F sharp augmented held for one bar |
| ProgressionParser.ScanSkips | src/progression.rs:54 | a character that is not a digit starts no match and is skipped |
| ProgressionParser.ScanTakes | src/progression.rs:54-63 | a match is taken and the scan resumes after its end |
| ProgressionParser.ExampleScanTail | src/progression.rs:92-95 | after "2Bm" only F sharp augmented for one bar remains |
| ProgressionParser.ExampleScanFromSecond | src/progression.rs:91-95 | after "3C" B minor for two bars and F sharp augmented for one remain |
| ProgressionParser.ExampleScan | src/progression.rs:84-98 | "3C 2Bm 1F#aug" yields C major for 3 bars, B minor for 2 and F sharp augmented for 1, in that order |
| ProgressionParser.ParseExample | src/progression.rs:84-98 | parsing "3C 2Bm 1F#aug" succeeds with those three entries |
| ProgressionParser.MajorSeventhShadowed | src/progression.rs:50 | with the alternatives as written, "1Cmaj7" parses as C minor for one bar: "m" is tried before "maj7" |
| ProgressionParser.ShadowedQuality | src/progression.rs:50 | with the alternatives as written, the quality captured in "1Cmaj7" is minor and stops after the "m" |
| ProgressionParser.ShadowedMatch | src/progression.rs:50 | with the alternatives as written, the match in "1Cmaj7" ends after "1Cm" |
| ProgressionParser.SymbolAlone | src/progression.rs:50 | with the reordered alternatives, a quality's symbol on its own captures exactly that symbol, and the major chord's empty symbol captures nothing |
| ProgressionParser.SymbolCaptured | src/progression.rs:50 | the same holds for a symbol written after any text |
| ProgressionParser.AccidentalSign | src/progression.rs:50-60 | the sign written for an accidental is empty exactly for natural, at most one character, and reads back as that accidental |
| ProgressionParser.AccidentalGroupCaptured | src/progression.rs:50-60 | after a digit and a letter, the accidental group captures exactly the sign written |
| ProgressionParser.LetterCaptured | src/progression.rs:50-58 | every letter's name is in the letter class and reads back as that letter |
| ProgressionParser.QualityGroupCaptured | src/progression.rs:50-62 | with the reordered alternatives, a quality's symbol written after any text reads back as that quality and is consumed entirely |
| ProgressionParser.MatchAfterRoot | src/progression.rs:54-63 | a digit and a letter followed by groups that read as an accidental and a quality make one match of the whole text |
| ProgressionParser.SingleChordMatch | src/progression.rs:54-63 | with the reordered alternatives, a chord written as digit, letter, accidental sign and quality symbol is matched as a whole, as exactly that chord held for that many bars |
| ProgressionParser.SingleChordRoundTrip | src/progression.rs:48-76 | with the reordered alternatives, parsing a chord so written gives back exactly that one chord and bar count |
| ProgressionParser.NatText | src/progression.rs:32 | a bar count is written as one or more decimal digits |
| ProgressionParser.EntryHasNoSpace | src/progression.rs:32 | an entry "{bars}x{chord}" holds no space |
| ProgressionParser.ProgressionTextSpaces | src/progression.rs:25-37 | a progression of n chords is shown with exactly n - 1 spaces, one between each pair of entries |

## Left out

- Threads, channels and atomics: the audio threads, the `try_recv`/`try_send` polling loops, and the atomic and mutex-guarded shared values. Each command handler, each output callback and each event handler is one sequential method. A message to another thread is appended to a log field of the sender (`audioSent`, `metronomeSent`, `ticksSent`, the returned `AudioCommand`). A `try_send` that finds the queue full drops its message. `Subdivisions.SubdivisionControl.OnChange` models that drop through its `delivered` flag; the other senders are modelled as always delivering.
- Audio devices and synthesis: device and stream setup, the soundfont synthesisers' `render`/`write`, the rodio sink and soundfont loading. The synthesiser is represented by the log of `note_on`/`note_off` calls made to it. What it renders is a parameter of `ChordAudio.Synth.Write` and `AudioStream.Stream.Callback`.
- Floating point: samples and gains are exact reals, so `f32` rounding of the mixes is not modelled.
- AudioStream.SamplesPerBeat: the source computes `(sample_rate as f64 * 60.0 / bpm as f64) as u64`; the model uses exact integer division, which can differ from the `f64` result by rounding.
- AudioStream.Stream.Callback: requires a positive tempo. At tempo 0 the source's beat length saturates to `u64::MAX` and the schedule overflows on the next click; that path is not modelled.
- src/timer.rs and the beat timer's clock are not part of this model. The metronome takes the timer's `ended` flag and the elapsed-time comparison as inputs.
- chordflow_desktop/src/audio/settings.rs (the atomic volume with clamping) is not part of this model.
- Randomness: random roots, qualities and chords, the Random mode, and the random diatonic option are nondeterministic choices from the set the source draws from. The model promises only membership in that set, not a distribution.
- The external chord parser behind the desktop `ProgressionConfig::from_string` is not part of this model. Its chords are an opaque type (`ParsedChord`), and their MIDI codes and bar counts are parameters.
- The regular expression of src/progression.rs is modelled as a hand-written leftmost-first scanner over ASCII digits. `NoteLetter::from_str`, which reads the captured letter, is not part of this model: lower-case letters go through a parameter (`lowercase`).
- chordflow_shared/src/progression.rs is not part of this model. The terminal application's Enter key takes its parser as a parameter, and the shared practice state holds progressions of the root crate's `ProgressionChord` type.
- chordflow_desktop/src/state/practice.rs is not part of this model. The desktop copy of `update_mode_from_state` is modelled against the shared practice state, whose `set_mode` has the same contract.
- The duration calculation of the terminal application (`calculate_duration_per_bar`) is not part of this model. A play request records the tempo and the tick count it is computed from.
- src/music/note.rs and src/music/accidental.rs are not part of this model. The root crate's chords and scales use the notes and accidentals of chordflow_music_theory, whose variants and tables these files share.
- chordflow_music_theory/src/chord.rs and scale.rs are not part of this model. Their roles are taken by src/music/chord.rs and src/music/scale.rs (modules `Chords` and `Scales`).
- The command-line interface (chordflow_shared/src/cli.rs and its clap parsing).
- User-interface rendering: the Dioxus components, the ratatui layouts and widgets, the settings panel, button components and styling. Only the state changes of their handlers and the strings the terminal front ends build are modelled.
- The terminal applications' main loops and terminal event polling. Each key or event is one call to the modelled handler.
- The declaration-only files: chordflow_desktop/src/state/events.rs, modes.rs, lib.rs and config.rs, chordflow_shared/src/lib.rs and chordflow_desktop/src/audio/state.rs. Their types appear where the modelled code uses them.
- Panics become preconditions rather than behaviour:
  - unsigned underflow of the tempo (`bpm -= 2` below 2);
  - `u8` overflow of the bar and tick counters;
  - a remainder by zero (no beats, no bars, no channels, an empty listing);
  - `unwrap` on a missing position or an empty choice;
  - `from_intervals` on an unknown pattern;
  - `from_letter_index` and `from_semitone` out of range;
  - `to_index` of an octave.
- LegacyApp.App.Update: requires that no entry of a custom progression has zero bars. The metronome reduces its bar counter modulo the bar count it takes from the entry, so such an entry makes the source panic.

## Findings

| source | as written | input that shows it | evidently intended | confidence | as-written member | corrected member |
|---|---|---|---|---|---|---|
| chordflow_music_theory/src/note.rs:102-110 | the letter is stepped by the interval's letter distance and the accidental is whatever is left of the pitch class reduced modulo 12, with no wrap of the octave | G sharp plus a major third gives B with eleven flats | B sharp: the accidental is the smallest offset that reaches the pitch class (`Notes.AddIntervalPitch` proves the pitch is always right) | not executed | Notes.AddIntervalElevenFlats | Notes.AddInterval |
| chordflow_music_theory/src/quality.rs:40 | "m7" parses as a major seventh | the symbol "m7" | a minor seventh, the quality whose own symbol is "m7" | not executed | Qualities.MinorSeventhMisread | Qualities.QualityFromString |
| chordflow_music_theory/src/quality.rs:87-99 | the augmented pattern is [0, 5, 7], a suspended fourth, so the augmented triad's own pattern [0, 4, 8] panics | the intervals [0, 4, 8] | [0, 4, 8] reads as augmented, so every quality's pattern reads back as that quality (`Qualities.IntervalsRoundTrip`) | not executed | Qualities.AugmentedPatternRejected | Qualities.QualityFromIntervals |
| src/music/quality.rs:29-41 | "m7" parses as a major seventh | the symbol "m7" | a minor seventh, so every quality's symbol reads back as that quality | not executed | LegacyQualities.LegacySymbolRoundTripAsWritten | LegacyQualities.LegacySymbolRoundTrip |
| src/progression.rs:50 | the quality alternatives are tried in the order M, m, aug, dim, maj7, 7, m7b5, so "m" wins over "maj7" and "m7b5" | the text "1Cmaj7" reads as one bar of C minor | the longest symbol wins, so a written chord reads back as itself; the corrected list also offers "m7", which the pattern as written lacks, so the minor seventh's own symbol can be read at all | not executed | ProgressionParser.MajorSeventhShadowed | ProgressionParser.SingleChordRoundTrip |
| chordflow_desktop/src/state/diatonic.rs:54-65 | the default state shows the second degree as the upcoming chord but leaves the walk on the root; `reset` likewise shows the second degree and leaves the stored interval wherever the walk had put it | one step from the default state makes D minor current and shows D minor again | the stored degree is the one the upcoming chord stands on, so each step shows a new chord (`DesktopDiatonic.InStepAdvances`) | not executed | DesktopDiatonic.DefaultRepeatsSupertonic | DesktopDiatonic.DiatonicConfig.ResetInStep |
