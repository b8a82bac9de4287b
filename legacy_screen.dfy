/** src/app.rs: an earlier screen of the first terminal application, with three tabs (Fourths,
    Random, Custom), a practice view whose keys adjust the metronome, and a two-level modal for
    picking a mode and a quality by index. The file is not declared in src/main.rs, and its
    handlers use a screen state and a mode selection that its own `ScreenState` does not hold;
    the model keeps exactly the fields the handlers read and write. */
module LegacyScreen {
  import opened EnumCycle
  import opened Metronomes
  import opened MetronomeGrid
  import opened TuiKeymap

  /** The tabs of this screen, in declaration order. */
  datatype LegacyTab = FourthsTab | RandomTab | CustomTab

  /** The two levels of the mode-selection modal. */
  datatype ModalState = Main | Secondary

  /** What the screen shows: the practice view or one level of the modal. */
  datatype ScreenMode = Practice | Modal(level: ModalState)

  /** The metronome settings the practice keys adjust. */
  datatype Settings = Settings(bpm: nat, numBars: nat, numBeats: nat)

  /** `saturating_sub(1)` on an unsigned count: one less, but never below zero. */
  function SaturatingDec(n: nat): (r: nat)
    ensures n > 0 ==> r + 1 == n
    ensures n == 0 ==> r == 0
  {
    if n == 0 then 0 else n - 1
  }

  /** The effect of one key of the practice view on the metronome settings: '=' and '-' move the
      tempo by 2 (an unsigned tempo below 2 cannot go down), Left and Right move the bar count by
      one and '[' and ']' the beat count, the decrements stopping at zero; every other key leaves
      the settings alone. */
  function PracticeKey(s: Settings, key: KeyCode): (r: Settings)
    requires key == Char('-') ==> s.bpm >= 2
    ensures key == Char('=') ==> r == s.(bpm := s.bpm + 2)
    ensures key == Char('-') ==> r == s.(bpm := s.bpm - 2)
    ensures key == Left ==> (r.bpm == s.bpm && r.numBeats == s.numBeats
      && (s.numBars > 0 ==> r.numBars + 1 == s.numBars) && (s.numBars == 0 ==> r.numBars == 0))
    ensures key == Right ==> r == s.(numBars := s.numBars + 1)
    ensures key == Char('[') ==> (r.bpm == s.bpm && r.numBars == s.numBars
      && (s.numBeats > 0 ==> r.numBeats + 1 == s.numBeats) && (s.numBeats == 0 ==> r.numBeats == 0))
    ensures key == Char(']') ==> r == s.(numBeats := s.numBeats + 1)
    ensures !(key in {Char('='), Char('-'), Left, Right, Char('['), Char(']')}) ==> r == s
  {
    match key
    case Char('=') => s.(bpm := s.bpm + 2)
    case Char('-') => s.(bpm := s.bpm - 2)
    case Left => s.(numBars := SaturatingDec(s.numBars))
    case Right => s.(numBars := s.numBars + 1)
    case Char('[') => s.(numBeats := SaturatingDec(s.numBeats))
    case Char(']') => s.(numBeats := s.numBeats + 1)
    case _ => s
  }

  /** Each increment is undone by its decrement, and each decrement of a positive count by its
      increment. */
  lemma PracticeKeysUndo(s: Settings)
    ensures PracticeKey(PracticeKey(s, Char('=')), Char('-')) == s
    ensures PracticeKey(PracticeKey(s, Right), Left) == s
    ensures PracticeKey(PracticeKey(s, Char(']')), Char('[')) == s
    ensures s.bpm >= 2 ==> PracticeKey(PracticeKey(s, Char('-')), Char('=')) == s
    ensures s.numBars > 0 ==> PracticeKey(PracticeKey(s, Left), Right) == s
    ensures s.numBeats > 0 ==> PracticeKey(PracticeKey(s, Char('[')), Char(']')) == s
  {
  }

  /** Up in a three-entry list: the previous index, from the first to the last. */
  function CycleUp(i: nat): (r: nat)
    ensures i < 3 ==> r == PrevItem(i, 3)
    ensures i > 0 ==> r + 1 == i
  {
    if i == 0 then 2 else i - 1
  }

  /** Down in a three-entry list: the next index, from the last to the first; any index, in range
      or not, lands in range. */
  function CycleDown(i: nat): (r: nat)
    ensures r < 3
    ensures i < 3 ==> r == NextItem(i, 3)
  {
    (i + 1) % 3
  }

  /** Within the three entries, Up undoes Down and Down undoes Up, and three steps either way
      come back to the start. */
  lemma {:induction false} ModalCyclingUndoes(i: nat)
    requires i < 3
    ensures CycleUp(CycleDown(i)) == i && CycleDown(CycleUp(i)) == i
    ensures CycleDown(CycleDown(CycleDown(i))) == i && CycleUp(CycleUp(CycleUp(i))) == i
  {
    PrevUndoesNext(i, 3);
  }

  /** The overall index of square `beat` of bar `bar` when every bar has `width` beats. */
  function BeatIndex(bar: nat, beat: nat, width: nat): (index: nat)
    ensures beat < width ==> index < (bar + 1) * width
  {
    beat + bar * width
  }

  /** The colouring of this display: a square is hollow when its overall index is at most the
      current one, filled after it. */
  function LegacyCell(currentBar: nat, currentBeat: nat, width: nat): (nat, nat) -> char
  {
    (bar: nat, beat: nat) => if BeatIndex(bar, beat, width) <= BeatIndex(currentBar, currentBeat, width) then Hollow else Filled
  }

  /** With the current beat inside its bar, comparing overall indices is the progress colouring:
      hollow for the finished bars and for the current bar up to the current beat. */
  lemma LegacyCellIsProgress(numBars: nat, width: nat, currentBar: nat, currentBeat: nat)
    requires currentBeat < width
    ensures Grid(numBars, width, LegacyCell(currentBar, currentBeat, width))
      == Grid(numBars, width, Progress(currentBar, currentBeat, Hollow, Filled))
  {
    forall bar: nat, beat: nat | bar < numBars && beat < width
      ensures LegacyCell(currentBar, currentBeat, width)(bar, beat) == Progress(currentBar, currentBeat, Hollow, Filled)(bar, beat)
    {
      BeatIndexOrder(bar, beat, currentBar, currentBeat, width);
    }
    GridCongruent(numBars, width, LegacyCell(currentBar, currentBeat, width), Progress(currentBar, currentBeat, Hollow, Filled));
  }

  /** With the current beat inside its bar, the display has one square per beat of the cycle and
      one '|' between consecutive bars; with the bar in range as well, the hollow squares number
      the beats played so far in the cycle, the current one included (the colours are the other
      way round from the later terminal interface). */
  lemma LegacyDisplayCounts(numBars: nat, width: nat, currentBar: nat, currentBeat: nat)
    requires currentBeat < width
    ensures var d := Grid(numBars, width, LegacyCell(currentBar, currentBeat, width));
      Count(d, Hollow) + Count(d, Filled) == numBars * width
      && Count(d, '|') == (if numBars == 0 then 0 else numBars - 1)
      && (currentBar < numBars ==> Count(d, Hollow) == currentBar * width + currentBeat + 1)
  {
    LegacyCellIsProgress(numBars, width, currentBar, currentBeat);
    GridSquares(numBars, width, currentBar, currentBeat, Hollow, Filled);
    if currentBar < numBars {
      GridOn(numBars, width, currentBar, currentBeat, Hollow, Filled);
    }
  }

  class Screen {
    var exit: bool
    var tab: LegacyTab
    var mode: ScreenMode
    var selectedMode: nat
    var selectedQuality: nat
    const metronome: Metronome

    constructor (m: Metronome)
      ensures !exit && tab == FourthsTab && mode == Practice
      ensures selectedMode == 0 && selectedQuality == 0 && metronome == m
    {
      exit := false;
      tab := FourthsTab;
      mode := Practice;
      selectedMode := 0;
      selectedQuality := 0;
      metronome := m;
    }

    /** The tempo, bar count and beat count of the metronome. */
    function CurrentSettings(): Settings
      reads metronome
    {
      Settings(metronome.bpm, metronome.numBars, metronome.numBeats)
    }

    /** `handle_practice_keys`: 'q' asks to exit; the metronome keys change the settings as
        `PracticeKey` says, and nothing else of the metronome. */
    method HandlePracticeKeys(key: KeyCode)
      requires key == Char('-') ==> metronome.bpm >= 2
      modifies this`exit, metronome`bpm, metronome`numBars, metronome`numBeats
      ensures CurrentSettings() == PracticeKey(old(CurrentSettings()), key)
      ensures exit == (old(exit) || key == Char('q'))
    {
      match key {
        case Char('q') =>
          exit := true;
        case Char('=') =>
          metronome.bpm := metronome.bpm + 2;
        case Char('-') =>
          metronome.bpm := metronome.bpm - 2;
        case Left =>
          metronome.numBars := SaturatingDec(metronome.numBars);
        case Right =>
          metronome.numBars := metronome.numBars + 1;
        case Char('[') =>
          metronome.numBeats := SaturatingDec(metronome.numBeats);
        case Char(']') =>
          metronome.numBeats := metronome.numBeats + 1;
        case _ =>
      }
    }

    /** `handle_modal_main_keys`: Esc closes the modal, Up and Down move the mode index through
        the three modes with wrap-around, Enter opens the quality level. */
    method HandleModalMainKeys(key: KeyCode)
      modifies this`mode, this`selectedMode
      ensures key == Esc ==> mode == Practice
      ensures key == Enter ==> mode == Modal(Secondary)
      ensures !(key in {Esc, Enter}) ==> mode == old(mode)
      ensures key == Up ==> selectedMode == CycleUp(old(selectedMode))
      ensures key == Down ==> selectedMode == CycleDown(old(selectedMode))
      ensures !(key in {Up, Down}) ==> selectedMode == old(selectedMode)
    {
      match key {
        case Esc =>
          mode := Practice;
        case Up =>
          selectedMode := CycleUp(selectedMode);
        case Down =>
          selectedMode := CycleDown(selectedMode);
        case Enter =>
          mode := Modal(Secondary);
        case _ =>
      }
    }

    /** `handle_modal_secondary_keys`: Esc goes back to the mode level, Up and Down move the
        quality index through three entries with wrap-around; the space bar does nothing. */
    method HandleModalSecondaryKeys(key: KeyCode)
      modifies this`mode, this`selectedQuality
      ensures key == Esc ==> mode == Modal(Main)
      ensures key != Esc ==> mode == old(mode)
      ensures key == Up ==> selectedQuality == CycleUp(old(selectedQuality))
      ensures key == Down ==> selectedQuality == CycleDown(old(selectedQuality))
      ensures !(key in {Up, Down}) ==> selectedQuality == old(selectedQuality)
    {
      match key {
        case Esc =>
          mode := Modal(Main);
        case Up =>
          selectedQuality := CycleUp(selectedQuality);
        case Down =>
          selectedQuality := CycleDown(selectedQuality);
        case _ =>
      }
    }

    /** `handle_events` for one key: the practice keys always apply, and then the tab decides:
        on the Fourths tab the practice keys apply a second time, on the Random tab the key goes
        to the mode level of the modal and on the Custom tab to its quality level. */
    method HandleEvents(key: KeyCode)
      requires key == Char('-') ==> metronome.bpm >= (if tab == FourthsTab then 4 else 2)
      modifies this`exit, this`mode, this`selectedMode, this`selectedQuality,
        metronome`bpm, metronome`numBars, metronome`numBeats
      ensures exit == (old(exit) || key == Char('q')) && tab == old(tab)
      ensures old(tab) == FourthsTab ==>
        CurrentSettings() == PracticeKey(PracticeKey(old(CurrentSettings()), key), key)
        && mode == old(mode) && selectedMode == old(selectedMode) && selectedQuality == old(selectedQuality)
      ensures old(tab) == RandomTab ==>
        CurrentSettings() == PracticeKey(old(CurrentSettings()), key)
        && selectedQuality == old(selectedQuality)
        && (key == Down ==> selectedMode == CycleDown(old(selectedMode)))
        && (key == Up ==> selectedMode == CycleUp(old(selectedMode)))
        && (key == Esc ==> mode == Practice) && (key == Enter ==> mode == Modal(Secondary))
        && (!(key in {Esc, Enter}) ==> mode == old(mode))
        && (!(key in {Up, Down}) ==> selectedMode == old(selectedMode))
      ensures old(tab) == CustomTab ==>
        CurrentSettings() == PracticeKey(old(CurrentSettings()), key)
        && selectedMode == old(selectedMode)
        && (key == Down ==> selectedQuality == CycleDown(old(selectedQuality)))
        && (key == Up ==> selectedQuality == CycleUp(old(selectedQuality)))
        && (key == Esc ==> mode == Modal(Main))
        && (key != Esc ==> mode == old(mode))
        && (!(key in {Up, Down}) ==> selectedQuality == old(selectedQuality))
    {
      HandlePracticeKeys(key);
      match tab {
        case FourthsTab =>
          HandlePracticeKeys(key);
        case RandomTab =>
          HandleModalMainKeys(key);
        case CustomTab =>
          HandleModalSecondaryKeys(key);
      }
    }

    /** `metronome_display`: for each bar a separator (except before the first) and one square
        per beat, hollow up to and including the current overall beat index and filled after it. */
    method MetronomeDisplay() returns (display: string)
      ensures display == Grid(metronome.numBars, metronome.numBeats,
        LegacyCell(metronome.currentBar, metronome.currentBeat, metronome.numBeats))
    {
      ghost var cell := LegacyCell(metronome.currentBar, metronome.currentBeat, metronome.numBeats);
      display := "";
      var bar := 0;
      while bar < metronome.numBars
        invariant 0 <= bar <= metronome.numBars
        invariant display == Grid(bar, metronome.numBeats, cell)
      {
        var currentTick := BeatIndex(metronome.currentBar, metronome.currentBeat, metronome.numBeats);
        if bar > 0 {
          display := display + " | ";
        }
        var tick := 0;
        while tick < metronome.numBeats
          invariant 0 <= tick <= metronome.numBeats
          invariant display == Grid(bar, metronome.numBeats, cell) + (if bar > 0 then Separator else "") + Row(bar, tick, cell)
        {
          var thisTick := BeatIndex(bar, tick, metronome.numBeats);
          if thisTick <= currentTick {
            display := display + ['⬜'];
          } else {
            display := display + ['⬛'];
          }
          tick := tick + 1;
        }
        bar := bar + 1;
      }
    }
  }

  /** On the Fourths tab a key reaches the practice keys twice: '=' raises the tempo by 4,
      Right adds two bars and ']' two beats per bar. */
  lemma FourthsTabDoubleStep(s: Settings)
    ensures PracticeKey(PracticeKey(s, Char('=')), Char('=')).bpm == s.bpm + 4
    ensures PracticeKey(PracticeKey(s, Right), Right).numBars == s.numBars + 2
    ensures PracticeKey(PracticeKey(s, Char(']')), Char(']')).numBeats == s.numBeats + 2
    ensures s.bpm >= 4 ==> PracticeKey(PracticeKey(s, Char('-')), Char('-')).bpm + 4 == s.bpm
  {
  }
}
