/** chordflow_shared/src/metronome.rs: the logical metronome. A beat timer (its clock is not
    part of this model) raises an `ended` flag once per beat; each tick advances the beat
    counter on that flag and the bar counter when the beat counter wraps. */
module Metronomes {
  import opened RustInt

  /** The bar and beat counters, both counted from 0. */
  datatype Counters = Counters(bar: nat, beat: nat)

  /** Whether the counters stand at a bar boundary while the timer has just ended
      (`has_bar_ended`); `% 0` would panic. */
  predicate BarEnded(c: Counters, numBeats: nat, ended: bool)
    requires numBeats > 0
  {
    c.beat % numBeats == 0 && ended
  }

  /** What one `tick` does to the counters once the timer has set its flag: the beat moves on
      when the timer ended, and the bar moves on when that made a bar end. */
  function Step(c: Counters, numBars: nat, numBeats: nat, ended: bool): (c': Counters)
    requires numBeats > 0
    requires ended && (c.beat + 1) % numBeats == 0 ==> numBars > 0
    ensures !ended ==> c' == c
    ensures c.beat < numBeats && (numBars > 0 ==> c.bar < numBars) ==>
      c'.beat < numBeats && (numBars > 0 ==> c'.bar < numBars)
  {
    var beat := if ended then (c.beat + 1) % numBeats else c.beat;
    var bar := if beat % numBeats == 0 && ended then (c.bar + 1) % numBars else c.bar;
    Counters(bar, beat)
  }

  /** The counters after k ticks on each of which the timer ended. */
  function Run(c: Counters, numBars: nat, numBeats: nat, k: nat): Counters
    requires numBeats > 0 && numBars > 0
  {
    if k == 0 then c else Step(Run(c, numBars, numBeats, k - 1), numBars, numBeats, true)
  }

  /** Within a bar, each expiry of the timer moves the beat on by one and keeps the bar. */
  lemma {:induction false} RunWithinBar(bar: nat, numBars: nat, numBeats: nat, j: nat)
    requires numBeats > 0 && numBars > 0 && j < numBeats
    ensures Run(Counters(bar, 0), numBars, numBeats, j) == Counters(bar, j)
  {
    if j > 0 {
      RunWithinBar(bar, numBars, numBeats, j - 1);
      ModInRange(j, numBeats);
      ModInRange(j, numBeats);
    }
  }

  /** A bar lasts exactly num_beats expiries of the timer: from the first beat of a bar, after
      num_beats of them the beat is back to 0 and the bar has moved on by one, wrapping. */
  lemma OneBarPerBeats(bar: nat, numBars: nat, numBeats: nat)
    requires numBeats > 0 && numBars > 0
    ensures Run(Counters(bar, 0), numBars, numBeats, numBeats) == Counters((bar + 1) % numBars, 0)
  {
    RunWithinBar(bar, numBars, numBeats, numBeats - 1);
    ModOnePeriod(numBeats, numBeats);
    ModInRange(0, numBeats);
  }

  /** The beat duration in milliseconds, whole because `60_000 / bpm` divides integers. */
  function QuarterNoteMs(bpm: nat): (ms: nat)
    requires bpm > 0
    ensures ms * bpm <= 60000 < (ms + 1) * bpm
  {
    60000 / bpm
  }

  class Metronome {
    var beatDurationMs: nat
    var timerRunning: bool
    var timerEnded: bool
    var durationPerBar: nat
    var bpm: nat
    var currentBar: nat
    var numBars: nat
    var numBeats: nat
    var currentBeat: nat

    /** The counters together. */
    function Position(): Counters
      reads this
    {
      Counters(currentBar, currentBeat)
    }

    /** Both counters lie below their counts. */
    predicate InRange()
      reads this
    {
      currentBeat < numBeats && currentBar < numBars
    }

    /** `new`: both durations derived from the tempo, the counters at 0, and a paused timer that
        has not ended. A tempo of 0 divides by zero. */
    constructor (bpm0: nat, numBars0: nat, numBeats0: nat)
      requires bpm0 > 0
      ensures bpm == bpm0 && numBars == numBars0 && numBeats == numBeats0
      ensures beatDurationMs == QuarterNoteMs(bpm0) && durationPerBar == QuarterNoteMs(bpm0) * numBeats0
      ensures currentBar == 0 && currentBeat == 0 && !timerRunning && !timerEnded
      ensures numBars0 > 0 && numBeats0 > 0 ==> InRange()
    {
      var quarter := 60000 / bpm0;
      beatDurationMs := quarter;
      timerRunning := false;
      timerEnded := false;
      bpm := bpm0;
      durationPerBar := quarter * numBeats0;
      currentBar := 0;
      currentBeat := 0;
      numBars := numBars0;
      numBeats := numBeats0;
    }

    /** `sync_timers_with_bpm`: both durations follow the current tempo. */
    method SyncTimersWithBpm()
      requires bpm > 0
      modifies this`beatDurationMs, this`durationPerBar
      ensures beatDurationMs == QuarterNoteMs(bpm) && durationPerBar == QuarterNoteMs(bpm) * numBeats
    {
      var quarter := 60000 / bpm;
      durationPerBar := quarter * numBeats;
      beatDurationMs := quarter;
    }

    /** `reset`: the counters go back to 0 and the durations follow the current tempo. */
    method Reset()
      requires bpm > 0
      modifies this`currentBar, this`currentBeat, this`beatDurationMs, this`durationPerBar
      ensures currentBar == 0 && currentBeat == 0
      ensures beatDurationMs == QuarterNoteMs(bpm) && durationPerBar == QuarterNoteMs(bpm) * numBeats
      ensures numBars > 0 && numBeats > 0 ==> InRange()
    {
      currentBar := 0;
      currentBeat := 0;
      SyncTimersWithBpm();
    }

    /** `start`: the timer runs. */
    method Start()
      modifies this`timerRunning
      ensures timerRunning
    {
      timerRunning := true;
    }

    /** `toggle`: a paused timer starts and a running one pauses. */
    method Toggle()
      modifies this`timerRunning
      ensures timerRunning == !old(timerRunning)
    {
      timerRunning := !timerRunning;
    }

    /** `reset_timers`: the timer's flag is cleared. */
    method ResetTimers()
      modifies this`timerEnded
      ensures !timerEnded
    {
      timerEnded := false;
    }

    /** `has_bar_ended`. */
    predicate HasBarEnded()
      requires numBeats > 0
      reads this
    {
      BarEnded(Position(), numBeats, timerEnded)
    }

    /** `has_cycle_ended`: a bar ended and the bar counter wrapped to 0; it can only hold when
        a bar ended. */
    function HasCycleEnded(): (ended: bool)
      requires numBeats > 0 && (HasBarEnded() ==> numBars > 0)
      reads this
      ensures ended ==> HasBarEnded()
      ensures ended <==> HasBarEnded() && currentBar % numBars == 0
    {
      HasBarEnded() && currentBar % numBars == 0 && timerEnded
    }

    /** `tick`: a running timer records whether its beat has elapsed (`elapsed`, as measured on
        its clock) and a paused one keeps its flag; then the counters take one step on the flag.
        The counts must be positive wherever a `%` by them is reached. */
    method Tick(elapsed: bool)
      requires numBeats > 0
      requires (if timerRunning then elapsed else timerEnded) && (currentBeat + 1) % numBeats == 0 ==> numBars > 0
      modifies this`timerEnded, this`currentBeat, this`currentBar
      ensures timerEnded == (if old(timerRunning) then elapsed else old(timerEnded))
      ensures Position() == Step(old(Position()), numBars, numBeats, timerEnded)
    {
      if timerRunning {
        timerEnded := elapsed;
      }
      var ended, beat, bar := timerEnded, currentBeat, currentBar;
      if ended {
        beat := (beat + 1) % numBeats;
      }
      if beat % numBeats == 0 && ended {
        bar := (bar + 1) % numBars;
      }
      currentBeat, currentBar := beat, bar;
    }

    /** `increase_bpm`: only the tempo changes; the durations follow at the next reset. */
    method IncreaseBpm(delta: nat)
      modifies this`bpm
      ensures bpm == old(bpm) + delta
    {
      bpm := bpm + delta;
    }

    /** `decrease_bpm`: only the tempo changes; going below zero would panic. */
    method DecreaseBpm(delta: nat)
      requires delta <= bpm
      modifies this`bpm
      ensures bpm + delta == old(bpm)
    {
      bpm := bpm - delta;
    }
  }
}
