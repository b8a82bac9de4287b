/** chordflow_tui/src/keymap.rs: what a key press does to the terminal application. A first
    match handles the keys that work everywhere (tab switching, quitting, applying the selected
    mode); a second match, on the tab selected after the first, handles the tab's own keys. */
module TuiKeymap {
  import opened Wrappers
  import opened Notes
  import opened Qualities
  import opened ProgressionParser
  import opened SharedModes
  import opened PracticeStates
  import opened ModeUpdates
  import opened EnumCycle
  import opened TuiApp

  datatype KeyCode = Left | Right | Up | Down | Esc | Enter | Backspace | Tab | Fn(number: nat) | Char(c: char) | Other

  /** Stepping through tabs, modes, qualities and diatonic options in declaration order. */
  function NextTab(t: AppTab): AppTab
  {
    TabsListed();
    Succ(AllTabs, t)
  }

  function PrevTab(t: AppTab): AppTab
  {
    TabsListed();
    Pred(AllTabs, t)
  }

  function NextModeOption(m: ModeOption): ModeOption
  {
    ModeOptionsListed();
    Succ(AllModeOptions, m)
  }

  function PrevModeOption(m: ModeOption): ModeOption
  {
    ModeOptionsListed();
    Pred(AllModeOptions, m)
  }

  function NextQuality(q: Quality): Quality
  {
    AllQualitiesListsEach();
    Succ(AllQualities, q)
  }

  function PrevQuality(q: Quality): Quality
  {
    AllQualitiesListsEach();
    Pred(AllQualities, q)
  }

  function NextChoice(o: DiatonicChoice): DiatonicChoice
  {
    DiatonicChoicesListed();
    Succ(AllDiatonicChoices, o)
  }

  /** Left and Right undo each other on the tabs, Up and Down on the modes and qualities. */
  lemma TabCyclingUndoes(t: AppTab)
    ensures PrevTab(NextTab(t)) == t && NextTab(PrevTab(t)) == t
  {
    TabsListed();
    PredUndoesSucc(AllTabs, t);
  }

  lemma ModeCyclingUndoes(m: ModeOption)
    ensures PrevModeOption(NextModeOption(m)) == m && NextModeOption(PrevModeOption(m)) == m
  {
    ModeOptionsListed();
    PredUndoesSucc(AllModeOptions, m);
  }

  lemma QualityCyclingUndoes(q: Quality)
    ensures PrevQuality(NextQuality(q)) == q && NextQuality(PrevQuality(q)) == q
  {
    AllQualitiesListsEach();
    PredUndoesSucc(AllQualities, q);
  }

  /** Right from Playback wraps to Mode, Left from Mode wraps to Playback; Tab alternates the
      two diatonic options. */
  lemma CyclingWraps()
    ensures NextTab(PlaybackTab) == ModeTab && PrevTab(ModeTab) == PlaybackTab
    ensures NextTab(ModeTab) == ConfigTab && NextTab(ConfigTab) == PlaybackTab
    ensures NextModeOption(CustomOption) == FourthsOption && PrevModeOption(FourthsOption) == CustomOption
    ensures NextChoice(Incemental) == RandomDegree && NextChoice(RandomDegree) == Incemental
  {
    TabsListed();
    ModeOptionsListed();
    DiatonicChoicesListed();
    SuccWraps(AllTabs);
    SuccSteps(AllTabs, 0);
    SuccSteps(AllTabs, 1);
    SuccWraps(AllModeOptions);
    SuccSteps(AllDiatonicChoices, 0);
    SuccWraps(AllDiatonicChoices);
  }

  /** The diatonic root after Down and Up: the next and previous entry of `generate_all_roots`,
      wrapping at both ends. */
  function NextRoot(root: Note): (r: Note)
    requires IsOfferedNote(root)
    ensures IsOfferedNote(r)
  {
    AllRootsAreOffered(root);
    var r := Succ(AllRoots(), root);
    AllRootsAreOffered(r);
    r
  }

  function PrevRoot(root: Note): (r: Note)
    requires IsOfferedNote(root)
    ensures IsOfferedNote(r)
  {
    AllRootsAreOffered(root);
    var r := Pred(AllRoots(), root);
    AllRootsAreOffered(r);
    r
  }

  /** Up undoes Down on the diatonic root and Down undoes Up. */
  lemma RootCyclingUndoes(root: Note)
    requires IsOfferedNote(root)
    ensures PrevRoot(NextRoot(root)) == root && NextRoot(PrevRoot(root)) == root
  {
    AllRootsAreOffered(root);
    AllRootsProperties();
    PredUndoesSucc(AllRoots(), root);
  }

  /** The last root, B flat, is followed by the first, C natural, and the other way round. */
  lemma RootsWrap()
    ensures NextRoot(Note(B, -1)) == Note(C, 0) && PrevRoot(Note(C, 0)) == Note(B, -1)
  {
    AllRootsListing();
    AllRootsProperties();
    SuccWraps(AllRoots());
  }

  /** `retain(|&x| x != q)`: the selection without `q`, in order. */
  function Without(s: seq<Quality>, q: Quality): (r: seq<Quality>)
    ensures forall x :: x in r <==> x in s && x != q
    ensures |r| <= |s|
  {
    if s == [] then []
    else (if s[0] == q then [] else [s[0]]) + Without(s[1..], q)
  }

  /** Removing a quality from a selection without repeats keeps it without repeats and, when the
      quality was selected, shortens it by exactly one. */
  lemma {:induction false} WithoutDistinct(s: seq<Quality>, q: Quality)
    requires Distinct(s)
    ensures Distinct(Without(s, q))
    ensures q in s ==> |Without(s, q)| == |s| - 1
  {
    if s != [] {
      DistinctCons(s);
      WithoutDistinct(s[1..], q);
      var rest := Without(s[1..], q);
      if s[0] != q {
        var r := [s[0]] + rest;
        assert Without(s, q) == r;
        assert r[1..] == rest;
        DistinctCons(r);
        if q in s {
          assert q in s[1..];
        }
      } else {
        WithoutAbsent(s[1..], q);
      }
    }
  }

  /** A listing has no repeats exactly when its head does not recur and its tail has none. */
  lemma DistinctCons<T>(s: seq<T>)
    requires s != []
    ensures Distinct(s) <==> s[0] !in s[1..] && Distinct(s[1..])
  {
    if s[0] !in s[1..] && Distinct(s[1..]) {
      forall j, k | 0 <= j < k < |s|
        ensures s[j] != s[k]
      {
        assert s[k] == s[1..][k - 1];
        if j > 0 {
          assert s[j] == s[1..][j - 1];
        }
      }
    }
    if Distinct(s) {
      assert forall j, k :: 0 <= j < k < |s[1..]| ==> s[1..][j] == s[j + 1] && s[1..][k] == s[k + 1];
    }
  }

  /** Removing an unselected quality changes nothing. */
  lemma {:induction false} WithoutAbsent(s: seq<Quality>, q: Quality)
    requires q !in s
    ensures Without(s, q) == s
  {
    if s != [] {
      WithoutAbsent(s[1..], q);
      assert [s[0]] + s[1..] == s;
    }
  }

  /** The Space key on the Random configuration: the quality under the cursor is removed when
      selected, unless it is the only one; otherwise it is appended. */
  function Toggle(selected: seq<Quality>, q: Quality): seq<Quality>
  {
    if q in selected then
      if |selected| > 1 then Without(selected, q) else selected
    else
      selected + [q]
  }

  /** A non-empty selection without repeats stays so; every other quality keeps its
      membership, and the toggled one ends up selected exactly when it was not, or when it was
      the only one. */
  lemma ToggleKeepsSelection(selected: seq<Quality>, q: Quality)
    requires |selected| > 0 && Distinct(selected)
    ensures var r := Toggle(selected, q);
      |r| > 0 && Distinct(r)
      && (forall x :: x != q ==> (x in r <==> x in selected))
      && (q in r <==> q !in selected || |selected| == 1)
  {
    WithoutDistinct(selected, q);
    if q !in selected {
      var r := selected + [q];
      forall j, k | 0 <= j < k < |r|
        ensures r[j] != r[k]
      {
        if k == |selected| {
          assert r[j] == selected[j];
        }
      }
    }
  }

  /** Toggling an unselected quality twice gives a non-empty selection back (an empty one
      would keep the quality, as a lone quality is never removed). */
  lemma ToggleTwice(selected: seq<Quality>, q: Quality)
    requires q !in selected && |selected| > 0
    ensures Toggle(Toggle(selected, q), q) == selected
  {
    WithoutTrailing(selected, q);
  }

  lemma {:induction false} WithoutTrailing(s: seq<Quality>, q: Quality)
    requires q !in s
    ensures Without(s + [q], q) == s
  {
    if s == [] {
      assert Without([q], q) == [] + Without([], q);
    } else {
      WithoutTrailing(s[1..], q);
      assert (s + [q])[1..] == s[1..] + [q];
      assert [s[0]] + s[1..] == s;
    }
  }

  /** Backspace: the input without its last character; an empty input stays empty. */
  function Pop(s: string): (r: string)
    ensures s != [] ==> r + [s[|s| - 1]] == s
    ensures s == [] ==> r == []
  {
    if s == [] then s else s[..|s| - 1]
  }

  /** The configured progression after Enter: the chords of a successful parse, or none. */
  function ParsedProgression(result: Result<seq<ProgressionChord>, string>): Option<Progression>
  {
    match result
    case Ok(chords) => Some(Progression(chords))
    case Err(_) => None
  }

  /** The tab the second match runs on: Left and Right step back and forth. */
  function TabAfter(tab: AppTab, key: KeyCode): AppTab
  {
    if key == Left then PrevTab(tab) else if key == Right then NextTab(tab) else tab
  }

  /** What `update_mode_from_state` needs to apply the selected mode without panicking: a mode
      that differs from the active one must be resettable. */
  predicate ModeSelectable(app: App)
    reads app, app.practiceState
  {
    var m := ModeFor(app.selectedMode, app.configState);
    m != app.practiceState.mode ==> CanReset(m)
  }

  /** With the application ready, only a custom selection without a parsed, non-empty
      progression can fail to be applied. */
  lemma OnlyCustomCanFail(app: App)
    requires app.Ready()
    requires app.selectedMode != CustomOption
      || (app.configState.progression.Some? && |app.configState.progression.value.chords| > 0)
    ensures ModeSelectable(app)
  {
  }

  /** The tempo, the bar count and the metronome queue, kept still from b to a. */
  predicate TempoKept(b: AppView, a: AppView)
  {
    a.bpm == b.bpm && a.barsPerChord == b.barsPerChord && a.metronomeSent == b.metronomeSent
  }

  /** The practice state, both counters and the audio queue, kept still from b to a. */
  predicate PracticeKept(b: AppView, a: AppView)
  {
    a.mode == b.mode && a.practice == b.practice
    && a.currentBar == b.currentBar && a.currentTick == b.currentTick && a.audioSent == b.audioSent
  }

  /** The configuration, the random cursor and the input, kept still from b to a. */
  predicate ConfigKept(b: AppView, a: AppView)
  {
    a.configState == b.configState && a.randomQualitiesCursor == b.randomQualitiesCursor
    && a.customInputBuffer == b.customInputBuffer
  }

  /** What F1 leaves, from b to a: the selected mode is active and the bar count synchronised.
      When the mode changed, the practice state was reset for it, both counters are back at
      zero, the metronome got the bar count and a reset, and the new current chord was
      requested; otherwise the chords, index and interval stay and only the bar count was
      sent. */
  predicate ModeApplied(b: AppView, a: AppView)
  {
    var changed := a.mode != b.mode;
    a.mode == ModeFor(a.selectedMode, a.configState)
    && BarsSynced(a, b.barsPerChord) && a.bpm == b.bpm && a.ticksPerBar == b.ticksPerBar
    && (changed ==>
          ResetFrom(a.mode, b.practice.idx, b.practice.interval, a.practice)
          && a.currentBar == 0 && a.currentTick == 0
          && a.metronomeSent == b.metronomeSent + [SetBars(a.barsPerChord), Reset]
          && a.audioSent == b.audioSent + [Request(a)])
    && (!changed ==>
          a.practice == b.practice
          && a.currentBar == b.currentBar && a.currentTick == b.currentTick
          && a.metronomeSent == b.metronomeSent + [SetBars(a.barsPerChord)]
          && a.audioSent == b.audioSent)
  }

  /** F1: the selected mode is applied, the bar count synchronised, and when the mode changed
      the metronome is reset, both counters return to zero and the first chord is requested. */
  method SelectMode(app: App) returns (changed: bool)
    requires app.Ready() && ModeSelectable(app)
    modifies app`barsPerChord, app`metronomeSent, app`audioSent, app`currentBar, app`currentTick, app.practiceState
    ensures app.Ready()
    ensures changed <==> ModeFor(app.selectedMode, app.configState) != old(app.practiceState.mode)
    ensures ModeApplied(old(app.View()), app.View())
  {
    ghost var b := app.View();
    changed := ApplyMode(app);
    ghost var m := app.View();
    if changed {
      StartOver(app);
    }
    assert app.View() == if changed then m.(currentBar := 0, currentTick := 0,
      metronomeSent := m.metronomeSent + [Reset], audioSent := m.audioSent + [Request(m)]) else m;
  }

  /** `update_mode_from_state` followed by `sync_metronome_bars`. */
  method ApplyMode(app: App) returns (changed: bool)
    requires app.Ready() && ModeSelectable(app)
    modifies app`barsPerChord, app`metronomeSent, app.practiceState
    ensures app.Ready()
    ensures changed <==> app.practiceState.mode != old(app.practiceState.mode)
    ensures app.practiceState.mode == ModeFor(app.selectedMode, app.configState)
    ensures changed ==> ResetDone(app.practiceState)
    ensures !changed ==> app.practiceState.Snap() == old(app.practiceState.Snap())
    ensures app.BarsSyncedFrom(old(app.barsPerChord))
    ensures app.metronomeSent == old(app.metronomeSent) + [SetBars(app.barsPerChord)]
  {
    changed := UpdateModeFromState(app.selectedMode, app.practiceState, app.configState);
    app.SyncMetronomeBars();
  }

  /** What F1 and 'r' do once the practice state is reset: the metronome is reset, both counters
      return to zero and the current chord is requested. */
  method StartOver(app: App)
    requires app.Ready()
    modifies app`metronomeSent, app`audioSent, app`currentBar, app`currentTick
    ensures app.Ready()
    ensures app.currentBar == 0 && app.currentTick == 0
    ensures app.metronomeSent == old(app.metronomeSent) + [Reset]
    ensures app.audioSent == old(app.audioSent) + [app.CurrentRequest()]
  {
    app.metronomeSent := app.metronomeSent + [Reset];
    app.currentBar := 0;
    app.currentTick := 0;
    app.audioSent := app.audioSent + [PlayChord(app.practiceState.currentChord, app.bpm, app.ticksPerBar)];
  }

  /** The first match, apart from F1: Left and Right switch tabs, Esc and 'q' quit; no other
      key does anything here. */
  method NavigationKeys(app: App, key: KeyCode)
    modifies app`selectedTab, app`exit
    ensures app.selectedTab == TabAfter(old(app.selectedTab), key)
    ensures app.exit == (old(app.exit) || key == Esc || key == Char('q'))
  {
    match key
    case Left => app.selectedTab := PrevTab(app.selectedTab);
    case Right => app.selectedTab := NextTab(app.selectedTab);
    case Esc => app.exit := true;
    case Char(c) =>
      if c == 'q' {
        app.exit := true;
      }
    case _ =>
  }

  /** Up and Down on the Playback tab: the tempo moves by two, the metronome is told, and the bar
      count is synchronised. Lowering below zero would underflow. */
  method ChangeTempo(app: App, up: bool)
    requires app.Ready()
    requires !up ==> app.bpm >= 2
    modifies app`bpm, app`barsPerChord, app`metronomeSent
    ensures up ==> app.bpm == old(app.bpm) + 2
    ensures !up ==> app.bpm + 2 == old(app.bpm)
    ensures app.BarsSyncedFrom(old(app.barsPerChord))
    ensures app.metronomeSent
      == old(app.metronomeSent) + [if up then IncreaseBpm(2) else DecreaseBpm(2), SetBars(app.barsPerChord)]
  {
    if up {
      app.bpm := app.bpm + 2;
      app.metronomeSent := app.metronomeSent + [IncreaseBpm(2)];
    } else {
      app.bpm := app.bpm - 2;
      app.metronomeSent := app.metronomeSent + [DecreaseBpm(2)];
    }
    app.SyncMetronomeBars();
  }

  /** `PracticState::reset` as the Playback tab uses it: the mode stays, its first chord is
      current and the chord generated after it is upcoming, and the state stays ready to
      advance. */
  method ResetPractice(state: PracticeState)
    requires state.Valid()
    modifies state
    ensures state.Valid() && state.CustomAligned() && state.mode == old(state.mode)
    ensures ResetDone(state)
  {
    state.Reset();
  }

  /** What 'r' on the Playback tab leaves, from b to a: the practice state restarted from the
      mode's first chord, both counters at zero, a reset sent to the metronome and the current
      chord requested; the tempo and the bar count stay. */
  predicate Restarted(b: AppView, a: AppView)
  {
    a.mode == b.mode && ResetFrom(a.mode, b.practice.idx, b.practice.interval, a.practice)
    && a.currentBar == 0 && a.currentTick == 0
    && a.metronomeSent == b.metronomeSent + [Reset]
    && a.audioSent == b.audioSent + [Request(a)]
    && a.bpm == b.bpm && a.barsPerChord == b.barsPerChord
  }

  /** 'r' on the Playback tab: the practice state restarts from the mode's first chord, both
      counters return to zero, the metronome is reset and the chord is requested. */
  method Restart(app: App)
    requires app.Ready()
    modifies app`metronomeSent, app`audioSent, app`currentBar, app`currentTick, app.practiceState
    ensures app.Ready()
    ensures Restarted(old(app.View()), app.View())
  {
    ResetPractice(app.practiceState);
    StartOver(app);
  }

  /** What a key does on the Playback tab, from b to a: Up and Down move the tempo by two, tell
      the metronome and synchronise the bar count; 'r' restarts; any other key changes
      nothing. The mode selection, the configuration and the beats per bar stay. */
  predicate PlaybackEffect(b: AppView, a: AppView, key: KeyCode)
  {
    a.selectedMode == b.selectedMode && ConfigKept(b, a) && a.ticksPerBar == b.ticksPerBar
    && (key == Up || key == Down ==>
       (key == Up ==> a.bpm == b.bpm + 2)
       && (key == Down ==> a.bpm + 2 == b.bpm)
       && BarsSynced(a, b.barsPerChord)
       && a.metronomeSent
          == b.metronomeSent + [if key == Up then IncreaseBpm(2) else DecreaseBpm(2), SetBars(a.barsPerChord)]
       && PracticeKept(b, a))
    && (key == Char('r') ==> Restarted(b, a))
    && (key != Up && key != Down && key != Char('r') ==> TempoKept(b, a) && PracticeKept(b, a))
  }

  /** The Playback tab: Up and Down change the tempo, 'r' restarts; other keys do nothing. */
  method PlaybackKeys(app: App, key: KeyCode)
    requires app.Ready()
    requires key == Down ==> app.bpm >= 2
    modifies app`bpm, app`barsPerChord, app`metronomeSent, app`audioSent, app`currentBar, app`currentTick, app.practiceState
    ensures app.Ready() && app.practiceState.mode == old(app.practiceState.mode)
    ensures PlaybackEffect(old(app.View()), app.View(), key)
    ensures key != Char('r') ==> unchanged(app.practiceState)
  {
    match key
    case Up => ChangeTempo(app, true);
    case Down => ChangeTempo(app, false);
    case Char(c) =>
      if c == 'r' {
        Restart(app);
      }
    case _ =>
  }

  /** What a key does on the Mode tab: Up and Down step back and forth through the modes;
      nothing else changes. */
  predicate ModeEffect(b: AppView, a: AppView, key: KeyCode)
  {
    TempoKept(b, a) && PracticeKept(b, a) && ConfigKept(b, a) && a.ticksPerBar == b.ticksPerBar
    && (key == Up ==> a.selectedMode == PrevModeOption(b.selectedMode))
    && (key == Down ==> a.selectedMode == NextModeOption(b.selectedMode))
    && (key != Up && key != Down ==> a.selectedMode == b.selectedMode)
  }

  /** The Mode tab: Up and Down step through the modes. */
  method ModeKeys(app: App, key: KeyCode)
    modifies app`selectedMode
    ensures ModeEffect(old(app.View()), app.View(), key)
  {
    if key == Up {
      app.selectedMode := PrevModeOption(app.selectedMode);
    } else if key == Down {
      app.selectedMode := NextModeOption(app.selectedMode);
    }
  }

  /** A configuration handler keeps the tempo, the practice, the mode selection and the beats
      per bar. */
  predicate OnlyConfigMoves(b: AppView, a: AppView)
  {
    TempoKept(b, a) && PracticeKept(b, a) && a.selectedMode == b.selectedMode && a.ticksPerBar == b.ticksPerBar
  }

  /** What a key does in the Fourths configuration: Up and Down step through the qualities. */
  predicate FourthsEffect(b: AppView, a: AppView, key: KeyCode)
  {
    var c := b.configState;
    OnlyConfigMoves(b, a)
    && a.randomQualitiesCursor == b.randomQualitiesCursor && a.customInputBuffer == b.customInputBuffer
    && (key == Up ==> a.configState == c.(fourthsSelectedQuality := PrevQuality(c.fourthsSelectedQuality)))
    && (key == Down ==> a.configState == c.(fourthsSelectedQuality := NextQuality(c.fourthsSelectedQuality)))
    && (key != Up && key != Down ==> a.configState == c)
  }

  /** The Fourths configuration: Up and Down step through the qualities. */
  method FourthsKeys(app: App, key: KeyCode)
    requires app.Ready()
    modifies app`configState
    ensures app.Ready()
    ensures FourthsEffect(old(app.View()), app.View(), key)
  {
    if key == Up {
      app.configState := app.configState.(fourthsSelectedQuality := PrevQuality(app.configState.fourthsSelectedQuality));
    } else if key == Down {
      app.configState := app.configState.(fourthsSelectedQuality := NextQuality(app.configState.fourthsSelectedQuality));
    }
  }

  /** What a key does in the Random configuration: Up and Down move the cursor through the
      qualities, Space toggles the quality under it, and nothing else changes. */
  predicate RandomEffect(b: AppView, a: AppView, key: KeyCode)
  {
    OnlyConfigMoves(b, a) && a.customInputBuffer == b.customInputBuffer
    && (key == Up ==> a.randomQualitiesCursor == PrevQuality(b.randomQualitiesCursor))
    && (key == Down ==> a.randomQualitiesCursor == NextQuality(b.randomQualitiesCursor))
    && (key != Up && key != Down ==> a.randomQualitiesCursor == b.randomQualitiesCursor)
    && (key == Char(' ') ==>
          a.configState == b.configState.(randomSelectedQualities :=
            Toggle(b.configState.randomSelectedQualities, b.randomQualitiesCursor)))
    && (key != Char(' ') ==> a.configState == b.configState)
  }

  /** The Random configuration: Up and Down move the cursor through the qualities, Space
      toggles the quality under it; the selection never becomes empty. */
  method RandomKeys(app: App, key: KeyCode)
    requires app.Ready()
    modifies app`randomQualitiesCursor, app`configState
    ensures app.Ready()
    ensures RandomEffect(old(app.View()), app.View(), key)
  {
    match key
    case Up => app.randomQualitiesCursor := PrevQuality(app.randomQualitiesCursor);
    case Down => app.randomQualitiesCursor := NextQuality(app.randomQualitiesCursor);
    case Char(c) =>
      if c == ' ' {
        var selected := app.configState.randomSelectedQualities;
        ToggleKeepsSelection(selected, app.randomQualitiesCursor);
        if app.randomQualitiesCursor in selected {
          if |selected| > 1 {
            app.configState := app.configState.(randomSelectedQualities := Without(selected, app.randomQualitiesCursor));
          }
        } else {
          app.configState := app.configState.(randomSelectedQualities := selected + [app.randomQualitiesCursor]);
        }
      }
    case _ =>
  }

  /** What a key does in the Diatonic configuration: Down and Up move the root through the
      offered roots, Tab switches the walk between in order and random. */
  predicate DiatonicEffect(b: AppView, a: AppView, key: KeyCode)
  {
    var c := b.configState;
    OnlyConfigMoves(b, a)
    && a.randomQualitiesCursor == b.randomQualitiesCursor && a.customInputBuffer == b.customInputBuffer
    && (key == Down ==> IsOfferedNote(c.diatonicRoot) && a.configState == c.(diatonicRoot := NextRoot(c.diatonicRoot)))
    && (key == Up ==> IsOfferedNote(c.diatonicRoot) && a.configState == c.(diatonicRoot := PrevRoot(c.diatonicRoot)))
    && (key == Tab ==> a.configState == c.(diatonicOption := NextChoice(c.diatonicOption)))
    && (key != Down && key != Up && key != Tab ==> a.configState == c)
  }

  /** The Diatonic configuration: Down and Up move the root through the offered roots, Tab
      switches between the incremental and the random walk. */
  method DiatonicKeys(app: App, key: KeyCode)
    requires app.Ready()
    modifies app`configState
    ensures app.Ready()
    ensures DiatonicEffect(old(app.View()), app.View(), key)
  {
    if key == Down {
      app.configState := app.configState.(diatonicRoot := NextRoot(app.configState.diatonicRoot));
    } else if key == Up {
      app.configState := app.configState.(diatonicRoot := PrevRoot(app.configState.diatonicRoot));
    } else if key == Tab {
      app.configState := app.configState.(diatonicOption := NextChoice(app.configState.diatonicOption));
    }
  }

  /** What a key does in the Custom configuration: Enter stores the parse of the input as the
      configured progression (none when it does not parse), Backspace drops the last
      character, any character is appended. */
  predicate CustomEffect(b: AppView, a: AppView, key: KeyCode, parse: string -> Result<seq<ProgressionChord>, string>)
  {
    OnlyConfigMoves(b, a) && a.randomQualitiesCursor == b.randomQualitiesCursor
    && (key == Enter ==>
       a.configState == b.configState.(progression := ParsedProgression(parse(b.customInputBuffer))))
    && (key != Enter ==> a.configState == b.configState)
    && (key == Backspace ==> a.customInputBuffer == Pop(b.customInputBuffer))
    && (key.Char? ==> a.customInputBuffer == b.customInputBuffer + [key.c])
    && (key != Backspace && !key.Char? ==> a.customInputBuffer == b.customInputBuffer)
  }

  /** The Custom configuration: Enter parses the input into the configured progression (none
      when it does not parse), Backspace drops the last character, any character is appended.
      The parser, `ProgressionChord::from_string`, is passed in. */
  method CustomKeys(app: App, key: KeyCode, parse: string -> Result<seq<ProgressionChord>, string>)
    requires app.Ready()
    modifies app`configState, app`customInputBuffer
    ensures app.Ready()
    ensures CustomEffect(old(app.View()), app.View(), key, parse)
  {
    match key
    case Enter =>
      var result := parse(app.customInputBuffer);
      match result {
        case Ok(chords) => app.configState := app.configState.(progression := Some(Progression(chords)));
        case Err(_) => app.configState := app.configState.(progression := None);
      }
    case Backspace =>
      if |app.customInputBuffer| > 0 {
        app.customInputBuffer := app.customInputBuffer[..|app.customInputBuffer| - 1];
      }
    case Char(c) => app.customInputBuffer := app.customInputBuffer + [c];
    case _ =>
  }

  /** What a key does on the Config tab in mode selection `selected`: the effect of that mode's
      handler. */
  predicate ConfigEffect(selected: ModeOption, b: AppView, a: AppView, key: KeyCode,
                         parse: string -> Result<seq<ProgressionChord>, string>)
  {
    match selected
    case FourthsOption => FourthsEffect(b, a, key)
    case RandomOption => RandomEffect(b, a, key)
    case DiatonicOption => DiatonicEffect(b, a, key)
    case CustomOption => CustomEffect(b, a, key, parse)
  }

  /** The Config tab: the keys of the selected mode's configuration. */
  method ConfigKeys(app: App, key: KeyCode, parse: string -> Result<seq<ProgressionChord>, string>)
    requires app.Ready()
    modifies app`configState, app`randomQualitiesCursor, app`customInputBuffer
    ensures app.Ready()
    ensures ConfigEffect(old(app.selectedMode), old(app.View()), app.View(), key, parse)
  {
    match app.selectedMode
    case FourthsOption => FourthsKeys(app, key);
    case RandomOption => RandomKeys(app, key);
    case DiatonicOption => DiatonicKeys(app, key);
    case CustomOption => CustomKeys(app, key, parse);
  }

  /** What the second match does on tab `tab` in mode selection `selected`, from b to a: the
      effect of that tab's handler. */
  predicate TabEffect(tab: AppTab, selected: ModeOption, b: AppView, a: AppView, key: KeyCode,
                      parse: string -> Result<seq<ProgressionChord>, string>)
  {
    match tab
    case PlaybackTab => PlaybackEffect(b, a, key)
    case ModeTab => ModeEffect(b, a, key)
    case ConfigTab => ConfigEffect(selected, b, a, key, parse)
  }

  /** The second match: the keys of the selected tab. The selections that no handler of that
      tab touches stay as they were. */
  method TabKeys(app: App, key: KeyCode, parse: string -> Result<seq<ProgressionChord>, string>)
    requires app.Ready()
    requires key == Down && app.selectedTab == PlaybackTab ==> app.bpm >= 2
    modifies app, app.practiceState
    ensures app.Ready()
    ensures app.exit == old(app.exit) && app.selectedTab == old(app.selectedTab)
    ensures TabEffect(app.selectedTab, old(app.selectedMode), old(app.View()), app.View(), key, parse)
    ensures app.selectedTab != PlaybackTab ==> unchanged(app.practiceState)
    ensures key.Fn? || key == Left || key == Right || key == Esc ==>
      unchanged(app.practiceState) && app.View() == old(app.View())
  {
    match app.selectedTab
    case PlaybackTab => PlaybackKeys(app, key);
    case ModeTab => ModeKeys(app, key);
    case ConfigTab => ConfigKeys(app, key, parse);
    if key.Fn? || key == Left || key == Right || key == Esc {
      IgnoredKeysChangeNothing(app.selectedTab, old(app.selectedMode), old(app.View()), app.View(), key, parse);
    }
  }

  /** No tab's handler reacts to a function key, to Left or Right, or to Esc: with one of those
      the second match leaves every handled field as it was. */
  lemma IgnoredKeysChangeNothing(tab: AppTab, selected: ModeOption, b: AppView, a: AppView, key: KeyCode,
                                 parse: string -> Result<seq<ProgressionChord>, string>)
    requires key.Fn? || key == Left || key == Right || key == Esc
    requires TabEffect(tab, selected, b, a, key, parse)
    ensures a == b
  {
  }

  /** `handle_keys`: the first match (navigation, or F1 applying the selected mode), then the
      second on the tab it leaves selected. A character typed into the Custom configuration is
      also seen by the first match, so 'q' there both quits and is appended to the input. F1 is
      ignored by every tab's handler, so it does nothing but apply the mode. */
  method HandleKeys(app: App, key: KeyCode, parse: string -> Result<seq<ProgressionChord>, string>)
    requires app.Ready()
    requires key == Fn(1) ==> ModeSelectable(app)
    requires key == Down && app.selectedTab == PlaybackTab ==> app.bpm >= 2
    modifies app, app.practiceState
    ensures app.Ready()
    ensures app.selectedTab == TabAfter(old(app.selectedTab), key)
    ensures app.exit == (old(app.exit) || key == Esc || key == Char('q'))
    ensures key == Fn(1) ==>
      ModeApplied(old(app.View()), app.View()) && app.selectedMode == old(app.selectedMode)
      && ConfigKept(old(app.View()), app.View())
    ensures key != Fn(1) ==> TabEffect(app.selectedTab, old(app.selectedMode), old(app.View()), app.View(), key, parse)
    ensures key == Left || key == Right ==> app.View() == old(app.View())
    ensures key == Char('q') && old(app.selectedTab) == ConfigTab && old(app.selectedMode) == CustomOption ==>
      app.exit && app.customInputBuffer == old(app.customInputBuffer) + ['q']
  {
    ghost var before := app.View();
    if key == Fn(1) {
      var _ := SelectMode(app);
      ghost var applied := app.View();
      TabKeys(app, key, parse);
      assert app.View() == applied;
    } else {
      NavigationKeys(app, key);
      assert app.View() == before;
      TabKeys(app, key, parse);
    }
  }
}
