/** src/main.rs: the first terminal application, which runs the metronome and the synthesiser in
    its own loop. Each pass ticks the metronome; at the end of a cycle the chord advances, and at
    the end of every bar the current chord is played. The synthesiser and the audio sink are
    left out: the model records every chord handed to `play`, in order. */
module LegacyApp {
  import opened Wrappers
  import opened Notes
  import opened Qualities
  import opened Chords
  import opened ProgressionParser
  import opened SharedModes
  import opened PracticeStates
  import opened Metronomes
  import TuiApp
  import Intervals

  /** One call of `play`: the chord, the bar duration in milliseconds and the beats per bar. */
  datatype Played = Played(chord: Chord, durationMs: nat, beats: nat)

  /** Every entry of a custom progression lasts at least one bar (a zero would make the next
      tick of the metronome take a remainder by zero). */
  predicate BarsPositive(m: Mode)
  {
    m.Custom? && m.progression.Some? ==>
      forall i :: 0 <= i < |m.progression.value.chords| ==> m.progression.value.chords[i].bars > 0
  }

  /** Whether a tick that left the counters at `c` with the timer flag `ended` completed a
      cycle: a bar ended and the bar counter wrapped to zero (`has_cycle_ended`). */
  predicate CycleEnded(c: Counters, numBars: nat, numBeats: nat, ended: bool)
    requires numBeats > 0 && numBars > 0
  {
    BarEnded(c, numBeats, ended) && c.bar % numBars == 0
  }

  class App {
    var exit: bool
    var selectedTab: TuiApp.AppTab
    var selectedMode: ModeOption
    var fourthsSelectedQuality: Quality
    var randomSelectedQualities: seq<Quality>
    var randomQualitiesCursor: Quality
    var customInputBuffer: string
    var customParsedProgression: Option<Progression>
    var diatonicSelectedOption: DiatonicChoice
    var diatonicSelectedRoot: Note
    const metronome: Metronome
    const practiceState: PracticeState
    /** The chords handed to the synthesiser, oldest first. */
    var played: seq<Played>

    /** The loop can run: the practice state can advance, the metronome counts at least one
        beat in at least one bar at a positive tempo, and no progression entry has zero bars. */
    predicate Runnable()
      reads this, metronome, practiceState
    {
      practiceState.Valid() && practiceState.CustomAligned()
      && metronome.numBeats > 0 && metronome.numBars > 0 && metronome.bpm > 0
      && BarsPositive(practiceState.mode)
    }

    /** `App::new`: the Mode tab in Fourths mode with Major selected; every quality selected for
        the random mode, Major under its cursor; no input and no parsed progression; the
        incremental diatonic walk on C natural; a metronome at 100 BPM with two bars of four
        beats; the default practice state; nothing played yet. */
    constructor ()
      ensures !exit && selectedTab == TuiApp.ModeTab && selectedMode == FourthsOption
      ensures fourthsSelectedQuality == Major && randomQualitiesCursor == Major
      ensures randomSelectedQualities == AllQualities
      ensures customInputBuffer == "" && customParsedProgression == None
      ensures diatonicSelectedOption == Incemental && diatonicSelectedRoot == Note(C, 0)
      ensures fresh(metronome) && metronome.bpm == 100 && metronome.numBars == 2 && metronome.numBeats == 4
      ensures metronome.currentBar == 0 && metronome.currentBeat == 0
      ensures fresh(practiceState) && practiceState.mode == Fourths(Major)
      ensures practiceState.Snap()
        == Snapshot(Chord(Note(B, 0), Major), Chord(Note(E, 0), Major), 0, Intervals.Unison)
      ensures played == []
      ensures Runnable()
    {
      exit := false;
      selectedTab := TuiApp.ModeTab;
      selectedMode := FourthsOption;
      fourthsSelectedQuality := Major;
      randomSelectedQualities := AllQualities;
      randomQualitiesCursor := Major;
      customInputBuffer := "";
      customParsedProgression := None;
      diatonicSelectedOption := Incemental;
      diatonicSelectedRoot := Note(C, 0);
      metronome := new Metronome(100, 2, 4);
      practiceState := new PracticeState();
      played := [];
    }

    /** The start of `run`, before its loop: the metronome's timer starts, the Playback tab is
        shown and the current chord is played. */
    method Begin()
      modifies metronome`timerRunning, this`selectedTab, this`played
      ensures metronome.timerRunning && selectedTab == TuiApp.PlaybackTab
      ensures played == old(played) + [Played(practiceState.currentChord, metronome.durationPerBar, metronome.numBeats)]
    {
      metronome.Start();
      selectedTab := TuiApp.PlaybackTab;
      played := played + [Played(practiceState.currentChord, metronome.durationPerBar, metronome.numBeats)];
    }

    /** The cycle-end branch of `update`: in a custom progression the metronome takes the bar
        count of the upcoming chord's entry, then the chord advances and the metronome is reset,
        so the chord that now sounds is held for its own bar count. */
    method EndCycle()
      requires Runnable()
      modifies metronome`numBars, metronome`currentBar, metronome`currentBeat,
        metronome`beatDurationMs, metronome`durationPerBar, practiceState
      ensures Runnable() && practiceState.mode == old(practiceState.mode)
      ensures practiceState.currentChord == old(practiceState.nextChord)
      ensures Advanced(practiceState.mode, old(practiceState.Snap()), practiceState.Snap())
      ensures metronome.currentBar == 0 && metronome.currentBeat == 0
      ensures metronome.durationPerBar == QuarterNoteMs(metronome.bpm) * metronome.numBeats
      ensures old(practiceState.mode).Custom? && old(practiceState.mode).progression.Some? ==>
        ProgressionChord(practiceState.currentChord, metronome.numBars)
        == old(practiceState.mode).progression.value.chords[old(practiceState.nextProgressionChordIdx)]
      ensures !(old(practiceState.mode).Custom? && old(practiceState.mode).progression.Some?) ==>
        metronome.numBars == old(metronome.numBars)
    {
      ghost var upcoming := practiceState.nextChord;
      ghost var idx := practiceState.nextProgressionChordIdx;
      if practiceState.mode.Custom? && practiceState.mode.progression.Some? {
        metronome.numBars := practiceState.mode.progression.value.chords[practiceState.nextProgressionChordIdx].bars;
        assert ProgressionChord(upcoming, metronome.numBars) == practiceState.mode.progression.value.chords[idx];
      }
      practiceState.NextChord();
      metronome.Reset();
    }

    /** `update`: one tick of the metronome (`elapsed` says whether its timer's duration has
        passed). When the tick completes a cycle, the chord advances and the metronome is reset;
        the bar-end check comes after, so the chord that has just become current is played at
        once. Otherwise the chord stays and is played again exactly when the tick ends a bar. */
    method Update(elapsed: bool)
      requires Runnable()
      modifies metronome, practiceState, this`played
      ensures Runnable() && practiceState.mode == old(practiceState.mode)
      ensures metronome.bpm == old(metronome.bpm) && metronome.numBeats == old(metronome.numBeats)
      ensures metronome.timerEnded == (if old(metronome.timerRunning) then elapsed else old(metronome.timerEnded))
      ensures var c := Step(old(metronome.Position()), old(metronome.numBars), metronome.numBeats, metronome.timerEnded);
        if CycleEnded(c, old(metronome.numBars), metronome.numBeats, metronome.timerEnded) then
          practiceState.currentChord == old(practiceState.nextChord)
          && Advanced(practiceState.mode, old(practiceState.Snap()), practiceState.Snap())
          && metronome.currentBar == 0 && metronome.currentBeat == 0
          && played == old(played) + [Played(practiceState.currentChord, metronome.durationPerBar, metronome.numBeats)]
        else
          unchanged(practiceState) && metronome.Position() == c && metronome.numBars == old(metronome.numBars)
          && played == old(played)
            + (if BarEnded(c, metronome.numBeats, metronome.timerEnded)
               then [Played(practiceState.currentChord, metronome.durationPerBar, metronome.numBeats)]
               else [])
    {
      metronome.Tick(elapsed);
      if metronome.HasCycleEnded() {
        EndCycle();
      }
      if metronome.HasBarEnded() {
        played := played + [Played(practiceState.currentChord, metronome.durationPerBar, metronome.numBeats)];
      }
    }
  }
}
