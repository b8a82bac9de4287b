/** chordflow_tui/src/main.rs: the terminal application's state and its reaction to the events
    of the metronome thread. The metronome and audio threads are reached through channels; the
    model records every command sent on them, in order. */
module TuiApp {
  import opened Notes
  import opened Qualities
  import opened Chords
  import opened ProgressionParser
  import opened SharedModes
  import opened PracticeStates
  import opened EnumCycle
  import Intervals

  /** The tabs, in declaration order. */
  datatype AppTab = ModeTab | ConfigTab | PlaybackTab

  const AllTabs: seq<AppTab> := [ModeTab, ConfigTab, PlaybackTab]

  /** `ModeOption::iter()` and `DiatonicOption::iter()`: the variants in declaration order. */
  const AllModeOptions: seq<ModeOption> := [FourthsOption, DiatonicOption, RandomOption, CustomOption]

  const AllDiatonicChoices: seq<DiatonicChoice> := [Incemental, RandomDegree]

  /** Each listing names every variant exactly once, so `from_repr` of a position below the
      count always succeeds and cycling through it reaches every variant. */
  lemma TabsListed()
    ensures Distinct(AllTabs) && forall t: AppTab :: t in AllTabs
  {
    forall t: AppTab
      ensures t in AllTabs
    {
      match t
      case ModeTab => assert AllTabs[0] == t;
      case ConfigTab => assert AllTabs[1] == t;
      case PlaybackTab => assert AllTabs[2] == t;
    }
  }

  lemma ModeOptionsListed()
    ensures Distinct(AllModeOptions) && forall m: ModeOption :: m in AllModeOptions
  {
    forall m: ModeOption
      ensures m in AllModeOptions
    {
      match m
      case FourthsOption => assert AllModeOptions[0] == m;
      case DiatonicOption => assert AllModeOptions[1] == m;
      case RandomOption => assert AllModeOptions[2] == m;
      case CustomOption => assert AllModeOptions[3] == m;
    }
  }

  lemma DiatonicChoicesListed()
    ensures Distinct(AllDiatonicChoices) && forall o: DiatonicChoice :: o in AllDiatonicChoices
  {
    forall o: DiatonicChoice
      ensures o in AllDiatonicChoices
    {
      match o
      case Incemental => assert AllDiatonicChoices[0] == o;
      case RandomDegree => assert AllDiatonicChoices[1] == o;
    }
  }

  /** What the metronome thread reports. */
  datatype MetronomeEvent = CycleComplete | BarComplete(bar: nat) | Tick(tick: nat)

  /** What the application asks of the metronome thread. */
  datatype MetronomeCommand = SetBars(bars: nat) | Reset | IncreaseBpm(delta: nat) | DecreaseBpm(delta: nat)

  /** `AudioCommand::PlayChord` as the application sends it: the chord, with the bar duration
      `calculate_duration_per_bar` derives from the tempo and the beats per bar (that function is
      not part of this model, so the request records its two inputs), and the beats per bar. */
  datatype ChordRequest = PlayChord(chord: Chord, bpm: nat, ticksPerBar: nat)

  /** The counters after a run of metronome events: a completed cycle zeroes both, a completed
      bar sets the bar and zeroes the beat, a tick sets the beat. */
  function CountersAfter(events: seq<MetronomeEvent>, bar: nat, tick: nat): (nat, nat)
  {
    if events == [] then (bar, tick)
    else
      var before := CountersAfter(events[..|events| - 1], bar, tick);
      match events[|events| - 1]
      case CycleComplete => (0, 0)
      case BarComplete(b) => (b, 0)
      case Tick(t) => (before.0, t)
  }

  /** One event alone: a completed cycle zeroes both counters, a completed bar moves to its bar
      at beat 0, and a tick keeps the bar and moves to its beat. */
  lemma CountersAfterOne(e: MetronomeEvent, bar: nat, tick: nat)
    ensures e.CycleComplete? ==> CountersAfter([e], bar, tick) == (0, 0)
    ensures e.BarComplete? ==> CountersAfter([e], bar, tick) == (e.bar, 0)
    ensures e.Tick? ==> CountersAfter([e], bar, tick) == (bar, e.tick)
  {
    assert [e][..0] == [];
  }

  /** Running two batches of events one after the other is running them together. */
  lemma {:induction false} CountersAfterConcat(a: seq<MetronomeEvent>, b: seq<MetronomeEvent>, bar: nat, tick: nat)
    ensures var mid := CountersAfter(a, bar, tick);
      CountersAfter(a + b, bar, tick) == CountersAfter(b, mid.0, mid.1)
  {
    if b != [] {
      CountersAfterConcat(a, b[..|b| - 1], bar, tick);
      assert (a + b)[..|a + b| - 1] == a + b[..|b| - 1];
    } else {
      assert a + b == a;
    }
  }

  /** Ticks alone never move the bar counter, and leave the beat counter at the last tick. */
  lemma {:induction false} TicksKeepBar(events: seq<MetronomeEvent>, bar: nat, tick: nat)
    requires forall i :: 0 <= i < |events| ==> events[i].Tick?
    ensures CountersAfter(events, bar, tick).0 == bar
    ensures events != [] ==> CountersAfter(events, bar, tick).1 == events[|events| - 1].tick
  {
    if events != [] {
      TicksKeepBar(events[..|events| - 1], bar, tick);
    }
  }

  /** The number of completed bars among the events. */
  function BarCompletes(events: seq<MetronomeEvent>): (n: nat)
    ensures n <= |events|
  {
    if events == [] then 0
    else BarCompletes(events[..|events| - 1]) + (if events[|events| - 1].BarComplete? then 1 else 0)
  }

  /** The number of completed cycles among the events. */
  function CycleCompletes(events: seq<MetronomeEvent>): (n: nat)
    ensures n <= |events|
  {
    if events == [] then 0
    else CycleCompletes(events[..|events| - 1]) + (if events[|events| - 1].CycleComplete? then 1 else 0)
  }

  /** The chord requests the events send, given the practice state before each completed
      cycle: one request per completed bar, for the chord current at that point (the one after
      as many cycles as have completed before it). */
  function AudioLog(events: seq<MetronomeEvent>, trail: seq<Snapshot>, bpm: nat, ticksPerBar: nat): (log: seq<ChordRequest>)
    requires CycleCompletes(events) < |trail|
    ensures |log| == BarCompletes(events)
  {
    if events == [] then []
    else
      var before := events[..|events| - 1];
      AudioLog(before, trail, bpm, ticksPerBar)
      + (if events[|events| - 1].BarComplete? then [PlayChord(trail[CycleCompletes(before)].current, bpm, ticksPerBar)] else [])
  }

  /** The metronome commands the events send, given the bar count after each completed cycle:
      the new bar count and a reset per completed cycle. */
  function MetronomeLog(events: seq<MetronomeEvent>, bars: seq<nat>): (log: seq<MetronomeCommand>)
    requires CycleCompletes(events) < |bars|
    ensures |log| == 2 * CycleCompletes(events)
  {
    if events == [] then []
    else
      var before := events[..|events| - 1];
      MetronomeLog(before, bars)
      + (if events[|events| - 1].CycleComplete? then [SetBars(bars[CycleCompletes(events)]), Reset] else [])
  }

  /** The requests depend only on the states reached by the cycles among the events. */
  lemma {:induction false} AudioLogExtend(events: seq<MetronomeEvent>, trail: seq<Snapshot>, more: seq<Snapshot>, bpm: nat, ticksPerBar: nat)
    requires CycleCompletes(events) < |trail|
    ensures AudioLog(events, trail + more, bpm, ticksPerBar) == AudioLog(events, trail, bpm, ticksPerBar)
  {
    if events != [] {
      var before := events[..|events| - 1];
      AudioLogExtend(before, trail, more, bpm, ticksPerBar);
      assert (trail + more)[CycleCompletes(before)] == trail[CycleCompletes(before)];
    }
  }

  /** The commands depend only on the bar counts set by the cycles among the events. */
  lemma {:induction false} MetronomeLogExtend(events: seq<MetronomeEvent>, bars: seq<nat>, more: seq<nat>)
    requires CycleCompletes(events) < |bars|
    ensures MetronomeLog(events, bars + more) == MetronomeLog(events, bars)
  {
    if events != [] {
      var before := events[..|events| - 1];
      MetronomeLogExtend(before, bars, more);
      assert (bars + more)[CycleCompletes(events)] == bars[CycleCompletes(events)];
    }
  }

  /** The bar count a completed cycle leaves, from state s to s': in a custom progression the
      count of the entry at s's index, whose chord is the one now current; otherwise unchanged. */
  predicate BarsStep(m: Mode, s: Snapshot, s': Snapshot, b: nat, b': nat)
  {
    if m.Custom? && m.progression.Some? then
      s.idx < |m.progression.value.chords| && ProgressionChord(s'.current, b') == m.progression.value.chords[s.idx]
    else b' == b
  }

  /** One more event: the cycle count, the requests and the commands each grow by what that
      event sends. */
  lemma LogsSnoc(events: seq<MetronomeEvent>, i: nat, trail: seq<Snapshot>, bars: seq<nat>, bpm: nat, ticksPerBar: nat)
    requires i < |events|
    requires CycleCompletes(events[..i]) + (if events[i].CycleComplete? then 1 else 0) < |trail|
    requires CycleCompletes(events[..i]) + (if events[i].CycleComplete? then 1 else 0) < |bars|
    ensures CycleCompletes(events[..i + 1]) == CycleCompletes(events[..i]) + (if events[i].CycleComplete? then 1 else 0)
    ensures AudioLog(events[..i + 1], trail, bpm, ticksPerBar) == AudioLog(events[..i], trail, bpm, ticksPerBar)
      + (if events[i].BarComplete? then [PlayChord(trail[CycleCompletes(events[..i])].current, bpm, ticksPerBar)] else [])
    ensures MetronomeLog(events[..i + 1], bars) == MetronomeLog(events[..i], bars)
      + (if events[i].CycleComplete? then [SetBars(bars[CycleCompletes(events[..i + 1])]), Reset] else [])
  {
    assert events[..i + 1][..i] == events[..i];
  }

  /** One event extends the trail by the state its cycle reaches, if it completes one, and the
      logs by what it sends: the current chord's request for a completed bar, the new bar count
      and a reset for a completed cycle. */
  lemma StepLogs(m: Mode, events: seq<MetronomeEvent>, i: nat, trail: seq<Snapshot>, bars: seq<nat>,
                 s': Snapshot, b': nat, bpm: nat, ticksPerBar: nat,
                 audio0: seq<ChordRequest>, metro0: seq<MetronomeCommand>)
      returns (trail': seq<Snapshot>, bars': seq<nat>)
    requires i < |events|
    requires Trail(m, trail, bars) && |trail| == CycleCompletes(events[..i]) + 1
    requires events[i].CycleComplete? ==>
      Advanced(m, trail[|trail| - 1], s') && BarsStep(m, trail[|trail| - 1], s', bars[|bars| - 1], b')
    requires !events[i].CycleComplete? ==> s' == trail[|trail| - 1] && b' == bars[|bars| - 1]
    ensures Trail(m, trail', bars') && |trail'| == CycleCompletes(events[..i + 1]) + 1
    ensures trail <= trail' && bars <= bars'
    ensures trail'[|trail'| - 1] == s' && bars'[|bars'| - 1] == b'
    ensures audio0 + AudioLog(events[..i + 1], trail', bpm, ticksPerBar)
      == audio0 + AudioLog(events[..i], trail, bpm, ticksPerBar)
      + (if events[i].BarComplete? then [PlayChord(trail[|trail| - 1].current, bpm, ticksPerBar)] else [])
    ensures metro0 + MetronomeLog(events[..i + 1], bars')
      == metro0 + MetronomeLog(events[..i], bars) + (if events[i].CycleComplete? then [SetBars(b'), Reset] else [])
  {
    trail', bars' := trail, bars;
    if events[i].CycleComplete? {
      TrailSnoc(m, trail, bars, s', b');
      AudioLogExtend(events[..i], trail, [s'], bpm, ticksPerBar);
      MetronomeLogExtend(events[..i], bars, [b']);
      trail' := trail + [s'];
      bars' := bars + [b'];
    }
    LogsSnoc(events, i, trail', bars', bpm, ticksPerBar);
    var sentAudio := if events[i].BarComplete? then [PlayChord(trail[|trail| - 1].current, bpm, ticksPerBar)] else [];
    var sentMetro := if events[i].CycleComplete? then [SetBars(b'), Reset] else [];
    assert audio0 + (AudioLog(events[..i], trail, bpm, ticksPerBar) + sentAudio)
      == audio0 + AudioLog(events[..i], trail, bpm, ticksPerBar) + sentAudio;
    assert metro0 + (MetronomeLog(events[..i], bars) + sentMetro) == metro0 + MetronomeLog(events[..i], bars) + sentMetro;
  }

  /** Each state of the trail is one `next_chord` after the one before it, and each bar count
      the one that cycle leaves. */
  predicate Trail(m: Mode, trail: seq<Snapshot>, bars: seq<nat>)
  {
    |trail| == |bars| > 0
    && forall k :: 0 <= k < |trail| - 1 ==>
      Advanced(m, trail[k], trail[k + 1]) && BarsStep(m, trail[k], trail[k + 1], bars[k], bars[k + 1])
  }

  /** A trail grows by one further cycle. */
  lemma TrailSnoc(m: Mode, trail: seq<Snapshot>, bars: seq<nat>, s: Snapshot, b: nat)
    requires Trail(m, trail, bars)
    requires Advanced(m, trail[|trail| - 1], s) && BarsStep(m, trail[|trail| - 1], s, bars[|bars| - 1], b)
    ensures Trail(m, trail + [s], bars + [b])
  {
    var t, u := trail + [s], bars + [b];
    forall k | 0 <= k < |t| - 1
      ensures Advanced(m, t[k], t[k + 1]) && BarsStep(m, t[k], t[k + 1], u[k], u[k + 1])
    {
      if k < |trail| - 1 {
        assert t[k] == trail[k] && t[k + 1] == trail[k + 1] && u[k] == bars[k] && u[k + 1] == bars[k + 1];
      }
    }
  }

  /** The fields of the application that the key handlers read and write, as one value; the
      practice state appears as its mode and the snapshot of its chords, index and interval. */
  datatype AppView = AppView(
    selectedMode: ModeOption, barsPerChord: nat, ticksPerBar: nat, bpm: nat,
    currentBar: nat, currentTick: nat,
    configState: ConfigState, randomQualitiesCursor: Quality, customInputBuffer: string,
    metronomeSent: seq<MetronomeCommand>, audioSent: seq<ChordRequest>,
    mode: Mode, practice: Snapshot)

  /** The bar count after `sync_metronome_bars` from `before`: in a custom progression, the bars
      of the entry of the upcoming chord; in any other mode, unchanged. */
  predicate BarsSynced(v: AppView, before: nat)
  {
    if v.mode.Custom? && v.mode.progression.Some? then
      var p := v.mode.progression.value;
      v.practice.idx < |p.chords| && ProgressionChord(v.practice.next, v.barsPerChord) == p.chords[v.practice.idx]
    else
      v.barsPerChord == before
  }

  /** The request for the chord now sounding at the current tempo. */
  function Request(v: AppView): ChordRequest
  {
    PlayChord(v.practice.current, v.bpm, v.ticksPerBar)
  }

  class App {
    var exit: bool
    var selectedTab: AppTab
    var selectedMode: ModeOption
    var barsPerChord: nat
    var ticksPerBar: nat
    var bpm: nat
    var currentBar: nat
    var currentTick: nat
    var configState: ConfigState
    var randomQualitiesCursor: Quality
    var customInputBuffer: string
    const practiceState: PracticeState
    /** The commands sent to the metronome thread and to the audio thread, oldest first. */
    var metronomeSent: seq<MetronomeCommand>
    var audioSent: seq<ChordRequest>

    /** The practice state can be reset and advanced, a custom progression's upcoming chord is
        the one at the stored index, the random selection is non-empty without repeats, and the
        diatonic root is one `generate_all_roots` offers. */
    predicate Ready()
      reads this, practiceState
    {
      practiceState.Valid() && practiceState.CustomAligned()
      && |configState.randomSelectedQualities| > 0 && Distinct(configState.randomSelectedQualities)
      && IsOfferedNote(configState.diatonicRoot)
    }

    /** The handled fields as one value. */
    function View(): AppView
      reads this, practiceState
    {
      AppView(selectedMode, barsPerChord, ticksPerBar, bpm, currentBar, currentTick,
              configState, randomQualitiesCursor, customInputBuffer, metronomeSent, audioSent,
              practiceState.mode, practiceState.Snap())
    }

    /** The bar count after `sync_metronome_bars` from `before`; the same as `BarsSynced` of
        the view. */
    predicate BarsSyncedFrom(before: nat)
      reads this, practiceState
    {
      if practiceState.mode.Custom? && practiceState.mode.progression.Some? then
        var p := practiceState.mode.progression.value;
        practiceState.nextProgressionChordIdx < |p.chords|
        && ProgressionChord(practiceState.nextChord, barsPerChord) == p.chords[practiceState.nextProgressionChordIdx]
      else
        barsPerChord == before
    }

    /** `App::new`: the Playback tab in Fourths mode, default configuration and practice state,
        Major under the random cursor, an empty input, the counters at zero. */
    constructor (bpm0: nat, barsPerChord0: nat, ticksPerBar0: nat)
      ensures !exit && selectedTab == PlaybackTab && selectedMode == FourthsOption
      ensures configState == DefaultConfigState() && randomQualitiesCursor == Major
      ensures customInputBuffer == ""
      ensures bpm == bpm0 && barsPerChord == barsPerChord0 && ticksPerBar == ticksPerBar0
      ensures currentBar == 0 && currentTick == 0
      ensures fresh(practiceState) && practiceState.mode == Fourths(Major)
      ensures practiceState.Snap()
        == Snapshot(Chord(Note(B, 0), Major), Chord(Note(E, 0), Major), 0, Intervals.Unison)
      ensures metronomeSent == [] && audioSent == []
      ensures Ready()
    {
      exit := false;
      selectedTab := PlaybackTab;
      selectedMode := FourthsOption;
      configState := DefaultConfigState();
      randomQualitiesCursor := Major;
      customInputBuffer := "";
      practiceState := new PracticeState();
      barsPerChord := barsPerChord0;
      ticksPerBar := ticksPerBar0;
      currentBar := 0;
      currentTick := 0;
      bpm := bpm0;
      metronomeSent := [];
      audioSent := [];
      AllQualitiesListsEach();
    }

    /** The request for the chord now sounding at the current tempo. */
    function CurrentRequest(): ChordRequest
      reads this, practiceState
    {
      PlayChord(practiceState.currentChord, bpm, ticksPerBar)
    }

    /** `sync_metronome_bars`: in a custom progression the bar count becomes that of the entry of
        the upcoming chord, in any other mode it stays; either way it is sent to the metronome. */
    method SyncMetronomeBars()
      requires Ready()
      modifies this`barsPerChord, this`metronomeSent
      ensures BarsSyncedFrom(old(barsPerChord))
      ensures metronomeSent == old(metronomeSent) + [SetBars(barsPerChord)]
    {
      if practiceState.mode.Custom? && practiceState.mode.progression.Some? {
        barsPerChord := practiceState.mode.progression.value.chords[practiceState.nextProgressionChordIdx].bars;
      }
      metronomeSent := metronomeSent + [SetBars(barsPerChord)];
    }

    /** The completed-cycle branch of `update`: the bar count of the upcoming chord in a custom
        progression is sent with a reset to the metronome, the chord advances and both counters
        return to zero, so the chord that now sounds is held for its own bar count. */
    method CompleteCycle()
      requires Ready()
      modifies this`barsPerChord, this`metronomeSent, this`currentBar, this`currentTick, practiceState
      ensures Ready() && practiceState.mode == old(practiceState.mode)
      ensures currentBar == 0 && currentTick == 0
      ensures practiceState.currentChord == old(practiceState.nextChord)
      ensures Advanced(practiceState.mode, old(practiceState.Snap()), practiceState.Snap())
      ensures metronomeSent == old(metronomeSent) + [SetBars(barsPerChord), Reset]
      ensures old(practiceState.mode).Custom? && old(practiceState.mode).progression.Some? ==>
        ProgressionChord(practiceState.currentChord, barsPerChord)
        == old(practiceState.mode).progression.value.chords[old(practiceState.nextProgressionChordIdx)]
      ensures !(old(practiceState.mode).Custom? && old(practiceState.mode).progression.Some?) ==>
        barsPerChord == old(barsPerChord)
    {
      ghost var upcoming := practiceState.nextChord;
      ghost var idx := practiceState.nextProgressionChordIdx;
      if practiceState.mode.Custom? && practiceState.mode.progression.Some? {
        barsPerChord := practiceState.mode.progression.value.chords[practiceState.nextProgressionChordIdx].bars;
        assert ProgressionChord(upcoming, barsPerChord) == practiceState.mode.progression.value.chords[idx];
      }
      metronomeSent := metronomeSent + [SetBars(barsPerChord), Reset];
      practiceState.NextChord();
      currentBar := 0;
      currentTick := 0;
    }

    /** One event of the loop in `update`.
        - A completed cycle takes the bar count of the upcoming chord in a custom progression,
          sends it and a reset to the metronome, advances the chord and zeroes both counters, so
          the chord that now sounds is held for its own bar count.
        - A completed bar asks the audio thread for the current chord and moves to that bar.
        - A tick only moves the beat counter. */
    method HandleEvent(e: MetronomeEvent)
      requires Ready()
      modifies this, practiceState
      ensures Ready() && practiceState.mode == old(practiceState.mode)
      ensures exit == old(exit) && selectedTab == old(selectedTab) && selectedMode == old(selectedMode)
      ensures configState == old(configState) && randomQualitiesCursor == old(randomQualitiesCursor)
      ensures customInputBuffer == old(customInputBuffer) && bpm == old(bpm) && ticksPerBar == old(ticksPerBar)
      ensures (currentBar, currentTick) == CountersAfter([e], old(currentBar), old(currentTick))
      ensures e.CycleComplete? ==>
        practiceState.currentChord == old(practiceState.nextChord)
        && Advanced(practiceState.mode, old(practiceState.Snap()), practiceState.Snap())
        && metronomeSent == old(metronomeSent) + [SetBars(barsPerChord), Reset]
        && audioSent == old(audioSent)
      ensures e.CycleComplete? && old(practiceState.mode).Custom? && old(practiceState.mode).progression.Some? ==>
        ProgressionChord(practiceState.currentChord, barsPerChord)
        == old(practiceState.mode).progression.value.chords[old(practiceState.nextProgressionChordIdx)]
      ensures e.CycleComplete? && !(old(practiceState.mode).Custom? && old(practiceState.mode).progression.Some?) ==>
        barsPerChord == old(barsPerChord)
      ensures !e.CycleComplete? ==>
        unchanged(practiceState) && barsPerChord == old(barsPerChord) && metronomeSent == old(metronomeSent)
      ensures e.BarComplete? ==> audioSent == old(audioSent) + [old(CurrentRequest())]
      ensures e.Tick? ==> audioSent == old(audioSent)
    {
      CountersAfterOne(e, currentBar, currentTick);
      match e
      case CycleComplete =>
        CompleteCycle();
      case BarComplete(b) =>
        CompleteBar(b);
      case Tick(t) =>
        currentTick := t;
    }

    /** The completed-bar branch of `update`: the current chord is requested again and the
        counters move to the start of bar b. */
    method CompleteBar(b: nat)
      modifies this`audioSent, this`currentBar, this`currentTick
      ensures audioSent == old(audioSent) + [CurrentRequest()]
      ensures currentBar == b && currentTick == 0
    {
      audioSent := audioSent + [PlayChord(practiceState.currentChord, bpm, ticksPerBar)];
      currentBar := b;
      currentTick := 0;
    }

    /** `update`: the pending events, oldest first. The practice state advances once per
        completed cycle, `trail` being the states it passes through and `bars` the bar counts
        each cycle leaves; each completed bar requests the chord current at that point, each
        completed cycle sends its bar count and a reset; the counters end where the events
        leave them, and the mode and the interface selections stay as they were. */
    method Update(events: seq<MetronomeEvent>) returns (ghost trail: seq<Snapshot>, ghost bars: seq<nat>)
      requires Ready()
      modifies this, practiceState
      ensures Ready() && practiceState.mode == old(practiceState.mode)
      ensures exit == old(exit) && selectedTab == old(selectedTab) && selectedMode == old(selectedMode)
      ensures configState == old(configState) && customInputBuffer == old(customInputBuffer)
      ensures bpm == old(bpm) && ticksPerBar == old(ticksPerBar)
      ensures (currentBar, currentTick) == CountersAfter(events, old(currentBar), old(currentTick))
      ensures Trail(practiceState.mode, trail, bars) && |trail| == CycleCompletes(events) + 1
      ensures trail[0] == old(practiceState.Snap()) && trail[|trail| - 1] == practiceState.Snap()
      ensures bars[0] == old(barsPerChord) && bars[|bars| - 1] == barsPerChord
      ensures audioSent == old(audioSent) + AudioLog(events, trail, bpm, ticksPerBar)
      ensures metronomeSent == old(metronomeSent) + MetronomeLog(events, bars)
    {
      trail := [practiceState.Snap()];
      bars := [barsPerChord];
      var i := 0;
      while i < |events|
        invariant 0 <= i <= |events|
        invariant Ready() && practiceState.mode == old(practiceState.mode)
        invariant exit == old(exit) && selectedTab == old(selectedTab) && selectedMode == old(selectedMode)
        invariant configState == old(configState) && customInputBuffer == old(customInputBuffer)
        invariant bpm == old(bpm) && ticksPerBar == old(ticksPerBar)
        invariant (currentBar, currentTick) == CountersAfter(events[..i], old(currentBar), old(currentTick))
        invariant Trail(practiceState.mode, trail, bars) && |trail| == CycleCompletes(events[..i]) + 1
        invariant trail[0] == old(practiceState.Snap()) && trail[|trail| - 1] == practiceState.Snap()
        invariant bars[0] == old(barsPerChord) && bars[|bars| - 1] == barsPerChord
        invariant audioSent == old(audioSent) + AudioLog(events[..i], trail, bpm, ticksPerBar)
        invariant metronomeSent == old(metronomeSent) + MetronomeLog(events[..i], bars)
      {
        assert events[..i + 1][..i] == events[..i];
        trail, bars := Consume(events, i, trail, bars, old(audioSent), old(metronomeSent));
        i := i + 1;
      }
      assert events[..i] == events;
    }

    /** One pass of the loop in `update`: event i is handled, the trail and the bar counts grow
        by the cycle it completes, if any, and the logs by what it sends. */
    method Consume(events: seq<MetronomeEvent>, i: nat, ghost trail: seq<Snapshot>, ghost bars: seq<nat>,
                   ghost audio0: seq<ChordRequest>, ghost metro0: seq<MetronomeCommand>)
      returns (ghost trail': seq<Snapshot>, ghost bars': seq<nat>)
      requires Ready() && i < |events|
      requires Trail(practiceState.mode, trail, bars) && |trail| == CycleCompletes(events[..i]) + 1
      requires trail[|trail| - 1] == practiceState.Snap() && bars[|bars| - 1] == barsPerChord
      requires audioSent == audio0 + AudioLog(events[..i], trail, bpm, ticksPerBar)
      requires metronomeSent == metro0 + MetronomeLog(events[..i], bars)
      modifies this, practiceState
      ensures Ready() && practiceState.mode == old(practiceState.mode)
      ensures exit == old(exit) && selectedTab == old(selectedTab) && selectedMode == old(selectedMode)
      ensures configState == old(configState) && customInputBuffer == old(customInputBuffer)
      ensures bpm == old(bpm) && ticksPerBar == old(ticksPerBar)
      ensures (currentBar, currentTick) == CountersAfter([events[i]], old(currentBar), old(currentTick))
      ensures Trail(practiceState.mode, trail', bars') && |trail'| == CycleCompletes(events[..i + 1]) + 1
      ensures trail <= trail' && bars <= bars'
      ensures trail'[|trail'| - 1] == practiceState.Snap() && bars'[|bars'| - 1] == barsPerChord
      ensures audioSent == audio0 + AudioLog(events[..i + 1], trail', bpm, ticksPerBar)
      ensures metronomeSent == metro0 + MetronomeLog(events[..i + 1], bars')
    {
      HandleEvent(events[i]);
      trail', bars' := StepLogs(practiceState.mode, events, i, trail, bars, practiceState.Snap(), barsPerChord,
                                bpm, ticksPerBar, audio0, metro0);
    }
  }
}
