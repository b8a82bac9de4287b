/** chordflow_audio/src/audio.rs: the offline chord player. A chord is rendered into one
    interleaved stereo buffer at 44100 Hz, and a woodblock tick is mixed in at each of the
    bar's evenly spaced tick times. The synthesiser is modelled by the log of the calls made to
    it; what it renders is a parameter. */
module ChordAudio {
  import opened RustInt

  /** 44100 samples per second per channel. */
  const SampleRate: nat := 44100

  /** The tick is rendered into a buffer of a tenth of a second of stereo samples. */
  const TickSamples: nat := SampleRate * 2 / 10

  /** The woodblock: key 76 (Hi Wood Block) on channel index 9, the General MIDI percussion
      channel, at velocity 120; chord notes sound on channel 0 at velocity 100. */
  const TickChannel: nat := 9
  const TickNote: nat := 76
  const TickVelocity: nat := 120
  const ChordChannel: nat := 0
  const ChordVelocity: nat := 100

  /** A call made to the synthesiser; `Render(n)` fills a buffer of n samples. */
  datatype SynthEvent =
    | NoteOn(channel: nat, key: nat, velocity: nat)
    | NoteOff(channel: nat, key: nat)
    | Render(samples: nat)

  /** The stereo samples of `ms` milliseconds, truncated. */
  function BufferLength(ms: nat): nat
  {
    ms * SampleRate * 2 / 1000
  }

  /** The time of tick i: i whole tick intervals, the interval being the chord's duration
      divided by the ticks of a bar, truncated. */
  function TickTime(i: nat, durationMs: nat, ticksPerBar: nat): nat
    requires ticksPerBar > 0
  {
    i * (durationMs / ticksPerBar)
  }

  /** The sample a tick at `tickTime` starts on, clamped to the end of a buffer of `len`
      samples. */
  function TickStart(tickTime: nat, len: nat): (start: nat)
    ensures start <= len
  {
    var s := tickTime * SampleRate * 2 / 1000;
    if s < len then s else len
  }

  /** The samples of `b` with `tick` added from `start` on, cut off at the end of `b`. */
  function AddTick(b: seq<real>, start: nat, tick: seq<real>): (r: seq<real>)
    ensures |r| == |b|
  {
    seq(|b|, j requires 0 <= j < |b| => if start <= j < start + |tick| then b[j] + tick[j - start] else b[j])
  }

  /** The chord's samples with the first k ticks mixed in. */
  function MixTicks(chord: seq<real>, ticks: seq<seq<real>>, durationMs: nat, ticksPerBar: nat, k: nat): (r: seq<real>)
    requires ticksPerBar > 0 && k <= |ticks|
    ensures |r| == |chord|
  {
    if k == 0 then chord
    else AddTick(MixTicks(chord, ticks, durationMs, ticksPerBar, k - 1),
                 TickStart(TickTime(k - 1, durationMs, ticksPerBar), |chord|), ticks[k - 1])
  }

  /** Note-on calls for each note, in order. */
  function NotesOn(notes: seq<nat>): seq<SynthEvent>
  {
    if notes == [] then [] else [NoteOn(ChordChannel, notes[0], ChordVelocity)] + NotesOn(notes[1..])
  }

  /** Note-off calls for each note, in order. */
  function NotesOff(notes: seq<nat>): seq<SynthEvent>
  {
    if notes == [] then [] else [NoteOff(ChordChannel, notes[0])] + NotesOff(notes[1..])
  }

  /** The calls `play_tick` makes: strike the woodblock, render it, release it. */
  const TickCalls: seq<SynthEvent> := [NoteOn(TickChannel, TickNote, TickVelocity), Render(TickSamples), NoteOff(TickChannel, TickNote)]

  /** The calls of k ticks. */
  function TickLog(k: nat): (log: seq<SynthEvent>)
    ensures |log| == 3 * k
  {
    if k == 0 then [] else TickLog(k - 1) + TickCalls
  }

  /** The calls `play_chord_with_ticks` makes: the chord's notes on, the chord rendered into the
      whole buffer, the ticks, and the chord's notes off. */
  function ChordLog(notes: seq<nat>, len: nat, ticksPerBar: nat): seq<SynthEvent>
  {
    NotesOn(notes) + [Render(len)] + TickLog(ticksPerBar) + NotesOff(notes)
  }

  /** The synthesiser, seen through the calls made to it. */
  class Synth {
    var log: seq<SynthEvent>

    constructor ()
      ensures log == []
    {
      log := [];
    }

    method NoteOnCall(channel: nat, key: nat, velocity: nat)
      modifies this
      ensures log == old(log) + [NoteOn(channel, key, velocity)]
    {
      log := log + [NoteOn(channel, key, velocity)];
    }

    method NoteOffCall(channel: nat, key: nat)
      modifies this
      ensures log == old(log) + [NoteOff(channel, key)]
    {
      log := log + [NoteOff(channel, key)];
    }

    /** `write`: the buffer is filled with the synthesiser's output, given as `rendered`. */
    method Write(buffer: array<real>, rendered: seq<real>)
      requires |rendered| == buffer.Length
      modifies this, buffer
      ensures log == old(log) + [Render(buffer.Length)]
      ensures buffer[..] == rendered
    {
      var i := 0;
      while i < buffer.Length
        invariant 0 <= i <= buffer.Length
        invariant forall j :: 0 <= j < i ==> buffer[j] == rendered[j]
        invariant log == old(log)
      {
        buffer[i] := rendered[i];
        i := i + 1;
      }
      log := log + [Render(buffer.Length)];
    }

    /** `play_tick`: the woodblock is struck, rendered (as `tick`) into its own buffer and
        released, and that buffer is added into `buffer` from the tick's start sample, clamped
        to the buffer's end; samples past the end are dropped, and no other sample changes. */
    method PlayTick(tickTime: nat, buffer: array<real>, tick: seq<real>)
      requires |tick| == TickSamples
      modifies this, buffer
      ensures log == old(log) + TickCalls
      ensures buffer[..] == AddTick(old(buffer[..]), TickStart(tickTime, buffer.Length), tick)
    {
      NoteOnCall(TickChannel, TickNote, TickVelocity);
      var tickBuffer := new real[TickSamples];
      Write(tickBuffer, tick);
      NoteOffCall(TickChannel, TickNote);
      var len := buffer.Length;
      var s := tickTime * SampleRate * 2 / 1000;
      var start := if s < len then s else len;
      ghost var before := buffer[..];
      var i := 0;
      while i < tickBuffer.Length
        invariant 0 <= i <= tickBuffer.Length
        invariant tickBuffer[..] == tick && log == old(log) + TickCalls
        invariant forall j :: 0 <= j < len ==>
          buffer[j] == if start <= j < start + i then before[j] + tick[j - start] else before[j]
      {
        var idx := start + i;
        if idx < len {
          buffer[idx] := buffer[idx] + tickBuffer[i];
        }
        i := i + 1;
      }
    }

    /** `play_chord_with_ticks`: a buffer of the chord's duration receives the chord (rendered
        as `chord`), then tick i (rendered as `ticks[i]`) at `TickTime(i)` for each tick of the
        bar, and the chord's notes are released. A bar of no ticks divides by zero. */
    method PlayChordWithTicks(notes: seq<nat>, durationMs: nat, ticksPerBar: nat, chord: seq<real>, ticks: seq<seq<real>>)
      returns (buffer: array<real>)
      requires ticksPerBar > 0
      requires |chord| == BufferLength(durationMs)
      requires |ticks| == ticksPerBar && forall i :: 0 <= i < |ticks| ==> |ticks[i]| == TickSamples
      modifies this
      ensures fresh(buffer) && buffer.Length == BufferLength(durationMs)
      ensures buffer[..] == MixTicks(chord, ticks, durationMs, ticksPerBar, ticksPerBar)
      ensures log == old(log) + ChordLog(notes, buffer.Length, ticksPerBar)
    {
      buffer := new real[BufferLength(durationMs)];
      StrikeAll(notes);
      Write(buffer, chord);
      PlayTicks(buffer, durationMs, ticksPerBar, ticks);
      ReleaseAll(notes);
    }

    /** The tick loop of `play_chord_with_ticks`: tick i at `TickTime(i)`, for each tick of the
        bar. */
    method PlayTicks(buffer: array<real>, durationMs: nat, ticksPerBar: nat, ticks: seq<seq<real>>)
      requires ticksPerBar > 0
      requires |ticks| == ticksPerBar && forall i :: 0 <= i < |ticks| ==> |ticks[i]| == TickSamples
      modifies this, buffer
      ensures buffer[..] == MixTicks(old(buffer[..]), ticks, durationMs, ticksPerBar, ticksPerBar)
      ensures log == old(log) + TickLog(ticksPerBar)
    {
      ghost var chord := buffer[..];
      ghost var log0 := log;
      var i := 0;
      while i < ticksPerBar
        invariant 0 <= i <= ticksPerBar
        invariant buffer[..] == MixTicks(chord, ticks, durationMs, ticksPerBar, i)
        invariant log == log0 + TickLog(i)
      {
        PlayTick(TickTime(i, durationMs, ticksPerBar), buffer, ticks[i]);
        i := i + 1;
      }
    }

    /** The note-on loop: every note, in order, on the chord channel. */
    method StrikeAll(notes: seq<nat>)
      modifies this
      ensures log == old(log) + NotesOn(notes)
    {
      var k := 0;
      while k < |notes|
        invariant 0 <= k <= |notes|
        invariant log == old(log) + NotesOn(notes[..k])
      {
        NoteOnCall(ChordChannel, notes[k], ChordVelocity);
        assert notes[..k + 1] == notes[..k] + [notes[k]];
        NotesOnSplit(notes[..k], [notes[k]]);
        k := k + 1;
      }
      assert notes[..|notes|] == notes;
    }

    /** The note-off loop: every note, in order, on the chord channel. */
    method ReleaseAll(notes: seq<nat>)
      modifies this
      ensures log == old(log) + NotesOff(notes)
    {
      var k := 0;
      while k < |notes|
        invariant 0 <= k <= |notes|
        invariant log == old(log) + NotesOff(notes[..k])
      {
        NoteOffCall(ChordChannel, notes[k]);
        assert notes[..k + 1] == notes[..k] + [notes[k]];
        NotesOffSplit(notes[..k], [notes[k]]);
        k := k + 1;
      }
      assert notes[..|notes|] == notes;
    }
  }

  lemma {:induction false} NotesOnSplit(a: seq<nat>, b: seq<nat>)
    ensures NotesOn(a + b) == NotesOn(a) + NotesOn(b)
  {
    if a == [] {
      assert a + b == b;
    } else {
      assert (a + b)[1..] == a[1..] + b;
      NotesOnSplit(a[1..], b);
    }
  }

  lemma {:induction false} NotesOffSplit(a: seq<nat>, b: seq<nat>)
    ensures NotesOff(a + b) == NotesOff(a) + NotesOff(b)
  {
    if a == [] {
      assert a + b == b;
    } else {
      assert (a + b)[1..] == a[1..] + b;
      NotesOffSplit(a[1..], b);
    }
  }

  /** The buffer holds the stereo samples of the chord's duration: its length times 1000 is
      within one millisecond's worth of samples below the duration's sample count. */
  lemma BufferLengthBounds(ms: nat)
    ensures BufferLength(ms) * 1000 <= ms * SampleRate * 2 < (BufferLength(ms) + 1) * 1000
  {
  }

  /** The ticks start at 0 and follow each other by one tick interval. */
  lemma TicksEvenlySpaced(i: nat, durationMs: nat, ticksPerBar: nat)
    requires ticksPerBar > 0
    ensures TickTime(0, durationMs, ticksPerBar) == 0
    ensures TickTime(i + 1, durationMs, ticksPerBar) == TickTime(i, durationMs, ticksPerBar) + durationMs / ticksPerBar
  {
    var q := durationMs / ticksPerBar;
    assert (i + 1) * q == i * q + q;
  }

  /** Every tick of the bar falls within the chord: at or before its end, and strictly before it
      when the chord lasts at all. */
  lemma TicksWithinChord(i: nat, durationMs: nat, ticksPerBar: nat)
    requires i < ticksPerBar
    ensures TickTime(i, durationMs, ticksPerBar) <= durationMs
    ensures durationMs > 0 ==> TickTime(i, durationMs, ticksPerBar) < durationMs
  {
    var q := durationMs / ticksPerBar;
    MulMonotone(i, ticksPerBar - 1, q);
    assert (ticksPerBar - 1) * q + q == ticksPerBar * q <= durationMs;
  }

  /** So every tick of a chord that lasts at all starts inside the buffer: its start sample is
      not clamped and lies before the last sample. */
  lemma TicksStartInsideBuffer(i: nat, durationMs: nat, ticksPerBar: nat)
    requires i < ticksPerBar && durationMs > 0
    ensures var time := TickTime(i, durationMs, ticksPerBar);
      TickStart(time, BufferLength(durationMs)) == BufferLength(time) < BufferLength(durationMs)
  {
    var time := TickTime(i, durationMs, ticksPerBar);
    TicksWithinChord(i, durationMs, ticksPerBar);
    assert BufferLength(time) <= BufferLength(durationMs - 1);
    assert BufferLength(durationMs - 1) < BufferLength(durationMs);
  }

  /** `play_tick` writes inside its window only: samples outside [start, start + |tick|) keep
      their value and samples inside gain the tick's sample; a tick whose start lies at or past
      the end of the buffer leaves it as it was. */
  lemma TickConfined(b: seq<real>, tickTime: nat, tick: seq<real>)
    ensures var start := TickStart(tickTime, |b|);
      var r := AddTick(b, start, tick);
      (forall j :: 0 <= j < |b| && !(start <= j < start + |tick|) ==> r[j] == b[j])
      && (forall j :: 0 <= j < |b| && start <= j < start + |tick| ==> r[j] == b[j] + tick[j - start])
    ensures BufferLength(tickTime) >= |b| ==> AddTick(b, TickStart(tickTime, |b|), tick) == b
  {
  }

  lemma {:induction false} NotesOnAt(notes: seq<nat>)
    ensures |NotesOn(notes)| == |notes|
    ensures forall k :: 0 <= k < |notes| ==> NotesOn(notes)[k] == NoteOn(ChordChannel, notes[k], ChordVelocity)
  {
    if notes != [] {
      NotesOnAt(notes[1..]);
    }
  }

  lemma {:induction false} NotesOffAt(notes: seq<nat>)
    ensures |NotesOff(notes)| == |notes|
    ensures forall k :: 0 <= k < |notes| ==> NotesOff(notes)[k] == NoteOff(ChordChannel, notes[k])
  {
    if notes != [] {
      NotesOffAt(notes[1..]);
    }
  }

  lemma {:induction false} TickLogAt(k: nat)
    ensures forall i :: 0 <= i < k ==> TickLog(k)[3 * i..3 * i + 3] == TickCalls
  {
    if k > 0 {
      TickLogAt(k - 1);
      forall i | 0 <= i < k
        ensures TickLog(k)[3 * i..3 * i + 3] == TickCalls
      {
        if i < k - 1 {
          assert TickLog(k)[3 * i..3 * i + 3] == TickLog(k - 1)[3 * i..3 * i + 3];
        }
      }
    }
  }

  /** The calls of `play_chord_with_ticks`, in order: every chord note struck on channel 0 at
      velocity 100, then one render of the whole buffer. */
  lemma ChordLogStrikes(notes: seq<nat>, len: nat, ticksPerBar: nat)
    ensures var log := ChordLog(notes, len, ticksPerBar);
      |log| == 2 * |notes| + 1 + 3 * ticksPerBar
      && (forall k :: 0 <= k < |notes| ==> log[k] == NoteOn(ChordChannel, notes[k], ChordVelocity))
      && log[|notes|] == Render(len)
  {
    NotesOnAt(notes);
    NotesOffAt(notes);
    var log := ChordLog(notes, len, ticksPerBar);
    assert log == NotesOn(notes) + ([Render(len)] + TickLog(ticksPerBar) + NotesOff(notes));
  }

  /** Then one strike, render and release of the woodblock (key 76 on channel 9) per tick. */
  lemma ChordLogTicks(notes: seq<nat>, len: nat, ticksPerBar: nat)
    ensures var log := ChordLog(notes, len, ticksPerBar);
      var n := |notes|;
      forall i :: 0 <= i < ticksPerBar ==> n + 4 + 3 * i <= |log| && log[n + 1 + 3 * i..n + 4 + 3 * i] == TickCalls
  {
    NotesOnAt(notes);
    TickLogAt(ticksPerBar);
    var n := |notes|;
    var log := ChordLog(notes, len, ticksPerBar);
    var ticks := TickLog(ticksPerBar);
    assert log[n + 1..n + 1 + 3 * ticksPerBar] == ticks;
    forall i | 0 <= i < ticksPerBar
      ensures log[n + 1 + 3 * i..n + 4 + 3 * i] == TickCalls
    {
      assert log[n + 1 + 3 * i..n + 4 + 3 * i] == ticks[3 * i..3 * i + 3];
    }
  }

  /** And last every chord note released, in order. */
  lemma ChordLogReleases(notes: seq<nat>, len: nat, ticksPerBar: nat)
    ensures var log := ChordLog(notes, len, ticksPerBar);
      var m := |notes| + 1 + 3 * ticksPerBar;
      forall k :: 0 <= k < |notes| ==> m + k < |log| && log[m + k] == NoteOff(ChordChannel, notes[k])
  {
    NotesOnAt(notes);
    NotesOffAt(notes);
    var log := ChordLog(notes, len, ticksPerBar);
    var m := |notes| + 1 + 3 * ticksPerBar;
    assert log == (NotesOn(notes) + [Render(len)] + TickLog(ticksPerBar)) + NotesOff(notes);
    assert log[m..] == NotesOff(notes);
  }
}
