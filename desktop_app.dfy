/** chordflow_desktop/src/ui/app.rs: the desktop application's state. A 1-based metronome
    counter follows the audio thread's ticks; at the end of each chord's bars the active
    generator advances, and one tick ahead of each bar the interface tells the audio thread
    which chord to sound next. */
module DesktopApp {
  import opened Wrappers
  import opened Chords
  import opened SharedModes
  import opened AudioConfig
  import opened AudioCommands
  import opened FourthsCircle
  import opened DesktopDiatonic
  import opened DesktopProgression
  import Notes
  import Qualities
  import Intervals
  import Scales

  /** `INITIAL_BPM`. */
  const InitialBpm: nat := 100

  /** The counters after one `MetronomeState::tick`, and whether that tick completed the chord's
      bars. */
  datatype TickOutcome = TickOutcome(bar: nat, tick: nat, cycleDone: bool)

  /** What `MetronomeState::tick` computes: the tick moves on; past the bar's last tick it wraps
      to 1 and the bar moves on; past the chord's last bar the bar wraps to 1 and the cycle is
      done. From counters in range the counters stay in range, and the cycle completes exactly
      on the last tick of the last bar. */
  function TickCounters(bar: nat, tick: nat, barsPerChord: nat, ticksPerBar: nat): (o: TickOutcome)
    ensures 1 <= ticksPerBar && tick <= ticksPerBar && 1 <= bar <= barsPerChord ==>
      1 <= o.tick <= ticksPerBar && 1 <= o.bar <= barsPerChord
    ensures tick <= ticksPerBar && bar <= barsPerChord ==>
      (o.cycleDone <==> tick == ticksPerBar && bar == barsPerChord)
    ensures o.cycleDone ==> o.bar == 1 && o.tick == 1
    ensures !o.cycleDone ==> o.bar == bar || o.bar == bar + 1
  {
    if tick + 1 > ticksPerBar then
      if bar + 1 > barsPerChord then TickOutcome(1, 1, true) else TickOutcome(bar + 1, 1, false)
    else
      TickOutcome(bar, tick + 1, false)
  }

  /** The chord the Tick handler announces after the counters moved: on a bar's last tick the
      chord of the coming bar (the upcoming chord when the chord's last bar ends, the current one
      otherwise), and nothing on any other tick. */
  function ChordToAnnounce(tick: nat, bar: nat, ticksPerBar: nat, barsPerChord: nat,
                           codes: (seq<int>, seq<int>)): (notes: Option<seq<int>>)
    ensures notes.Some? <==> tick + 1 > ticksPerBar
    ensures notes.Some? && bar + 1 > barsPerChord ==> notes.value == codes.1
    ensures notes.Some? && bar + 1 <= barsPerChord ==> notes.value == codes.0
  {
    if tick + 1 > ticksPerBar then
      if bar + 1 > barsPerChord then Some(codes.1) else Some(codes.0)
    else
      None
  }

  /** The announcement looks exactly one tick ahead: from counters in range, a chord is
      announced exactly when the next tick starts a bar, and it is the upcoming chord exactly
      when the next tick completes the cycle. */
  lemma AnnouncementPrecedesBar(bar: nat, tick: nat, barsPerChord: nat, ticksPerBar: nat,
                                codes: (seq<int>, seq<int>))
    requires 1 <= tick <= ticksPerBar && 1 <= bar <= barsPerChord
    ensures ChordToAnnounce(tick, bar, ticksPerBar, barsPerChord, codes).Some? <==>
      TickCounters(bar, tick, barsPerChord, ticksPerBar).tick == 1
    ensures codes.0 != codes.1 && ChordToAnnounce(tick, bar, ticksPerBar, barsPerChord, codes) == Some(codes.1) ==>
      TickCounters(bar, tick, barsPerChord, ticksPerBar).cycleDone
    ensures TickCounters(bar, tick, barsPerChord, ticksPerBar).cycleDone ==>
      ChordToAnnounce(tick, bar, ticksPerBar, barsPerChord, codes) == Some(codes.1)
  {
  }

  class MetronomeState {
    var barsPerChord: nat
    var ticksPerBar: nat
    var bpm: nat
    var currentBar: nat
    var currentTick: nat

    /** `MetronomeState::default()`: two bars of four ticks at the initial tempo, before the first
        tick of the first bar. */
    constructor ()
      ensures barsPerChord == 2 && ticksPerBar == 4 && bpm == InitialBpm
      ensures currentBar == 1 && currentTick == 0
    {
      barsPerChord := 2;
      ticksPerBar := 4;
      bpm := InitialBpm;
      currentBar := 1;
      currentTick := 0;
    }

    /** `tick`: the counters take one step; the answer says whether the chord's bars are over.
        The `u8` counters must not overflow. */
    method Tick() returns (cycleDone: bool)
      requires currentTick < 255 && (currentTick + 1 > ticksPerBar ==> currentBar < 255)
      modifies this`currentBar, this`currentTick
      ensures TickOutcome(currentBar, currentTick, cycleDone)
        == TickCounters(old(currentBar), old(currentTick), barsPerChord, ticksPerBar)
    {
      currentTick := currentTick + 1;
      cycleDone := false;
      if currentTick > ticksPerBar {
        currentTick := 1;
        currentBar := currentBar + 1;
        if currentBar > barsPerChord {
          currentBar := 1;
          cycleDone := true;
        }
      }
    }
  }

  /** The desktop's application state: which generator is active and the three generators. */
  class AppState {
    var isPlaying: bool
    var selectedMode: ModeOption
    const fourths: FourthsConfig
    const diatonic: DiatonicConfig
    const progression: ProgressionConfig

    /** What the active generator needs in order to advance: a valid diatonic walk, or a
        non-empty progression whose bar counts fit a `u8`. */
    predicate Ready()
      reads this, diatonic, progression
    {
      (selectedMode == DiatonicOption ==> diatonic.Valid())
      && (selectedMode == CustomOption ==> 0 < |progression.chords| && progression.BarsFit())
    }

    /** `AppState::default()`: stopped, on the circle of fourths, each generator at its default. */
    constructor ()
      ensures !isPlaying && selectedMode == FourthsOption && Ready()
      ensures fresh(fourths) && fresh(diatonic) && fresh(progression)
      ensures fourths.quality == Qualities.Major && fourths.currentChord == Chord(Notes.Note(Notes.B, 0), Qualities.Major)
      ensures fourths.nextChord == Chord(Notes.Note(Notes.E, 0), Qualities.Major)
      ensures diatonic.Valid() && diatonic.scale == Scales.NewScale(Notes.Note(Notes.C, 0), Scales.Diatonic)
      ensures !diatonic.isRandom && diatonic.nextScaleInterval == Intervals.Unison
      ensures diatonic.currentChord == Chord(Notes.Note(Notes.C, 0), Qualities.Major)
      ensures diatonic.nextChord == Chord(Notes.Note(Notes.D, 0), Qualities.Minor)
      ensures progression.chords == [] && progression.currentChord == None && progression.nextChord == None
      ensures progression.currentChordIndex == 0
    {
      isPlaying := false;
      selectedMode := FourthsOption;
      fourths := new FourthsConfig.Default();
      diatonic := new DiatonicConfig();
      progression := new ProgressionConfig();
    }

    /** `get_chords`: the texts of the active generator's chords; none in random mode. */
    function GetChords(): (texts: (string, string))
      reads this, fourths, diatonic, progression
      ensures selectedMode == FourthsOption ==> texts == fourths.GetChords()
      ensures selectedMode == DiatonicOption ==> texts == diatonic.GetChords()
      ensures selectedMode == CustomOption ==> texts == progression.GetChords()
      ensures selectedMode == RandomOption ==> texts == ("", "")
    {
      match selectedMode
      case FourthsOption => fourths.GetChords()
      case DiatonicOption => diatonic.GetChords()
      case CustomOption => progression.GetChords()
      case RandomOption => ("", "")
    }

    /** `get_midi_codes_for_chords`: the MIDI notes of the active generator's current and
        upcoming chords. The progression's chords come from an external parser whose
        `to_midi_codes` is the parameter `midiOf`; a missing chord gives no notes, and random mode
        gives none at all. The built-in generators' notes all lie in the octave above middle C. */
    function GetMidiCodes(midiOf: ParsedChord -> seq<int>): (codes: (seq<int>, seq<int>))
      reads this, fourths, diatonic, progression
      ensures selectedMode == FourthsOption ==>
        codes == (ChordToMidi(fourths.currentChord), ChordToMidi(fourths.nextChord))
      ensures selectedMode == DiatonicOption ==>
        codes == (ChordToMidi(diatonic.currentChord), ChordToMidi(diatonic.nextChord))
      ensures selectedMode == CustomOption ==>
        codes.0 == (if progression.currentChord.Some? then midiOf(progression.currentChord.value) else [])
        && codes.1 == (if progression.nextChord.Some? then midiOf(progression.nextChord.value) else [])
      ensures selectedMode == RandomOption ==> codes == ([], [])
      ensures selectedMode == FourthsOption || selectedMode == DiatonicOption ==>
        (forall k :: 0 <= k < |codes.0| ==> 60 <= codes.0[k] <= 71)
        && (forall k :: 0 <= k < |codes.1| ==> 60 <= codes.1[k] <= 71)
    {
      match selectedMode
      case FourthsOption => (ChordToMidi(fourths.currentChord), ChordToMidi(fourths.nextChord))
      case DiatonicOption => (ChordToMidi(diatonic.currentChord), ChordToMidi(diatonic.nextChord))
      case CustomOption =>
        (match progression.currentChord case Some(c) => midiOf(c) case None => [],
         match progression.nextChord case Some(c) => midiOf(c) case None => [])
      case RandomOption => ([], [])
    }

    /** What `advance` leaves, against the state before it: the active generator moved on one
        chord (its upcoming chord is current and the chord after it generated: a fourth up, a
        diatonic step, or the following entry of the progression), in custom mode the metronome
        took the new current chord's bar count, and the other generators stayed as they were. */
    twostate predicate Stepped(m: MetronomeState)
      reads this, fourths, diatonic, progression, m
    {
      (selectedMode == FourthsOption ==>
         fourths.quality == old(fourths.quality) && fourths.currentChord == old(fourths.nextChord)
         && fourths.nextChord == Chord(FourthsRoot(fourths.currentChord.root), fourths.quality))
      && (selectedMode == DiatonicOption ==>
            diatonic.scale == old(diatonic.scale) && diatonic.isRandom == old(diatonic.isRandom)
            && diatonic.currentChord == old(diatonic.nextChord)
            && DegreeStep(diatonic.scale.root, diatonic.isRandom, old(diatonic.nextScaleInterval),
                          diatonic.nextChord, diatonic.nextScaleInterval))
      && (selectedMode == CustomOption ==>
            progression.chords == old(progression.chords) && 0 < |progression.chords|
            && progression.currentChord == old(progression.nextChord)
            && progression.currentChordIndex == Following(old(progression.currentChordIndex), |progression.chords|)
            && progression.nextChord
               == Some(progression.chords[Following(progression.currentChordIndex, |progression.chords|)].chord)
            && m.barsPerChord == progression.chords[progression.currentChordIndex].bars)
      && (selectedMode != CustomOption ==> m.barsPerChord == old(m.barsPerChord))
      && (selectedMode != FourthsOption ==> unchanged(fourths))
      && (selectedMode != DiatonicOption ==> unchanged(diatonic))
      && (selectedMode != CustomOption ==> unchanged(progression))
    }

    /** `advance`: the active generator moves on one chord; in custom mode the metronome then
        takes the new current chord's bar count. Random mode does nothing. */
    method Advance(m: MetronomeState)
      requires Ready()
      modifies fourths, diatonic, progression, m`barsPerChord
      ensures Ready()
      ensures Stepped(m)
    {
      match selectedMode {
        case FourthsOption =>
          fourths.GenerateNextChord();
        case DiatonicOption =>
          diatonic.GenerateNextChord();
        case CustomOption =>
          progression.GenerateNextChord();
          m.barsPerChord := progression.BarsPerCycleCurrent();
        case RandomOption =>
      }
    }

    /** `restart`: the active generator starts over (custom mode also takes the first chord's
        bar count), then the metronome goes back before the first tick of the first bar and the
        current chord's notes are sent to the audio thread. The diatonic walk's stored interval
        is kept, as `reset` keeps it. */
    method Restart(m: MetronomeState, midiOf: ParsedChord -> seq<int>) returns (cmd: AudioCommand)
      requires Ready()
      modifies fourths, diatonic, progression, m`barsPerChord, m`currentBar, m`currentTick
      ensures Ready()
      ensures m.currentBar == 1 && m.currentTick == 0
      ensures cmd == SetChord(Some(GetMidiCodes(midiOf).0))
      ensures selectedMode == FourthsOption ==>
        fourths.quality == old(fourths.quality)
        && fourths.currentChord == Chord(Notes.Note(Notes.B, 0), fourths.quality)
        && fourths.nextChord == Chord(Notes.Note(Notes.E, 0), fourths.quality)
      ensures selectedMode == DiatonicOption ==>
        diatonic.scale == old(diatonic.scale) && diatonic.isRandom == old(diatonic.isRandom)
        && diatonic.currentChord == Chord(diatonic.scale.root, Qualities.Major)
        && IsPreview(diatonic.scale.root, diatonic.isRandom, diatonic.nextChord)
        && diatonic.nextScaleInterval == old(diatonic.nextScaleInterval)
      ensures selectedMode == CustomOption ==>
        progression.chords == old(progression.chords)
        && progression.currentChord == Some(progression.chords[0].chord)
        && progression.nextChord == Some(progression.chords[if |progression.chords| >= 2 then 1 else 0].chord)
        && progression.currentChordIndex == 0
        && m.barsPerChord == progression.chords[0].bars
      ensures selectedMode != CustomOption ==> m.barsPerChord == old(m.barsPerChord)
      ensures selectedMode != FourthsOption ==> unchanged(fourths)
      ensures selectedMode != DiatonicOption ==> unchanged(diatonic)
      ensures selectedMode != CustomOption ==> unchanged(progression)
    {
      match selectedMode {
        case FourthsOption =>
          fourths.Reset();
        case DiatonicOption =>
          diatonic.Reset();
        case CustomOption =>
          progression.Reset();
          m.barsPerChord := progression.BarsPerCycleCurrent();
        case RandomOption =>
      }
      cmd := SetChord(Some(GetMidiCodes(midiOf).0));
      m.currentBar := 1;
      m.currentTick := 0;
    }

    /** The handler of the audio thread's Tick event: the metronome ticks, a completed cycle
        advances the active generator, and the chord for the coming bar is announced on the last
        tick of a bar (`SetChord(None)` otherwise). */
    method OnTick(m: MetronomeState, midiOf: ParsedChord -> seq<int>) returns (cmd: AudioCommand)
      requires Ready()
      requires m.currentTick < 255 && (m.currentTick + 1 > m.ticksPerBar ==> m.currentBar < 255)
      modifies fourths, diatonic, progression, m`barsPerChord, m`currentBar, m`currentTick
      ensures Ready()
      ensures m.currentBar == TickCounters(old(m.currentBar), old(m.currentTick), old(m.barsPerChord), m.ticksPerBar).bar
      ensures m.currentTick == TickCounters(old(m.currentBar), old(m.currentTick), old(m.barsPerChord), m.ticksPerBar).tick
      ensures !TickCounters(old(m.currentBar), old(m.currentTick), old(m.barsPerChord), m.ticksPerBar).cycleDone ==>
        unchanged(fourths) && unchanged(diatonic) && unchanged(progression) && m.barsPerChord == old(m.barsPerChord)
      ensures TickCounters(old(m.currentBar), old(m.currentTick), old(m.barsPerChord), m.ticksPerBar).cycleDone ==>
        Stepped(m)
      ensures cmd == SetChord(ChordToAnnounce(m.currentTick, m.currentBar, m.ticksPerBar, m.barsPerChord,
                                              GetMidiCodes(midiOf)))
    {
      var cycleDone := m.Tick();
      if cycleDone {
        Advance(m);
      }
      cmd := SetChord(ChordToAnnounce(m.currentTick, m.currentBar, m.ticksPerBar, m.barsPerChord,
                                      GetMidiCodes(midiOf)));
    }

    /** `toggle_play`: playing stops with a Stop command, and stopped starts with a Start
        command. */
    method TogglePlay() returns (cmd: AudioCommand)
      modifies this`isPlaying
      ensures isPlaying == !old(isPlaying)
      ensures cmd == (if old(isPlaying) then Stop else Start)
    {
      if isPlaying {
        isPlaying := false;
        cmd := Stop;
      } else {
        isPlaying := true;
        cmd := Start;
      }
    }
  }
}
