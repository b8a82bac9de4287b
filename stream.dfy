/** chordflow_desktop/src/audio/stream.rs: the desktop's click scheduler. The audio device
    asks for a buffer of samples at a time; while playing, every frame whose sample position has
    reached the scheduled click sounds the woodblock and tells the interface that a tick
    happened, and the schedule moves on by one beat. A separate command handler starts, stops
    and retunes the scheduler. Each callback and each command is modelled as one sequential
    method; the synthesiser's rendered output is a parameter. */
module AudioStream {
  import opened AudioCommands

  /** The woodblock: key 76 (Hi Wood Block) on channel index 9, the General MIDI percussion
      channel, at velocity 100. */
  const WoodblockChannel: int := 9
  const WoodblockNote: int := 76
  const WoodblockVelocity: int := 100

  datatype NoteOn = NoteOn(channel: int, key: int, velocity: int)

  const Woodblock: NoteOn := NoteOn(WoodblockChannel, WoodblockNote, WoodblockVelocity)

  /** k woodblock strikes. */
  function Woodblocks(k: nat): (log: seq<NoteOn>)
    ensures |log| == k && forall j :: 0 <= j < k ==> log[j] == Woodblock
  {
    seq(k, _ => Woodblock)
  }

  /** The samples of one beat: the sample rate times 60 over the tempo, truncated. */
  function SamplesPerBeat(sampleRate: nat, bpm: nat): (spb: nat)
    requires bpm > 0
    ensures spb * bpm <= sampleRate * 60 < (spb + 1) * bpm
  {
    sampleRate * 60 / bpm
  }

  /** The scheduled click sample and the frames, in order, on which a click fired. */
  datatype Schedule = Schedule(next: nat, clicks: seq<nat>)

  /** The clicks of the first `frames` frames of a callback that starts at sample `start` with
      the click scheduled at `next`: a frame fires when its sample has reached the scheduled
      one, and firing moves the schedule on by one beat. */
  function ScheduleFrames(start: nat, next: nat, spb: nat, frames: nat): Schedule
  {
    if frames == 0 then Schedule(next, [])
    else
      var s := ScheduleFrames(start, next, spb, frames - 1);
      if start + (frames - 1) >= s.next then Schedule(s.next + spb, s.clicks + [frames - 1]) else s
  }

  /** At most one click per frame, in frame order; the schedule moves one beat per click,
      whatever the lateness of the frame that fired; and the i-th click fires on a frame whose
      sample has reached the i-th scheduled sample. */
  lemma {:induction false} ScheduleShape(start: nat, next: nat, spb: nat, frames: nat)
    ensures var s := ScheduleFrames(start, next, spb, frames);
      s.next == next + spb * |s.clicks| && |s.clicks| <= frames
      && (forall i :: 0 <= i < |s.clicks| ==> s.clicks[i] < frames && start + s.clicks[i] >= next + spb * i)
      && (forall i, j :: 0 <= i < j < |s.clicks| ==> s.clicks[i] < s.clicks[j])
  {
    if frames > 0 {
      ScheduleShape(start, next, spb, frames - 1);
      var s := ScheduleFrames(start, next, spb, frames - 1);
      assert spb * (|s.clicks| + 1) == spb * |s.clicks| + spb;
    }
  }

  /** When the schedule is not behind and a beat lasts at least one sample, each click fires
      exactly on its beat, and afterwards the schedule lies at or past the end of the frames:
      every beat that falls within the frames sounds once, on time. */
  lemma {:induction false} OnTimeClicksOnGrid(start: nat, next: nat, spb: nat, frames: nat)
    requires start <= next && spb > 0
    ensures var s := ScheduleFrames(start, next, spb, frames);
      (forall i :: 0 <= i < |s.clicks| ==> start + s.clicks[i] == next + spb * i)
      && start + frames <= s.next
  {
    if frames > 0 {
      OnTimeClicksOnGrid(start, next, spb, frames - 1);
      ScheduleShape(start, next, spb, frames - 1);
      var s := ScheduleFrames(start, next, spb, frames - 1);
      if start + (frames - 1) >= s.next {
        var clicks := s.clicks + [frames - 1];
        assert ScheduleFrames(start, next, spb, frames) == Schedule(s.next + spb, clicks);
        forall i | 0 <= i < |clicks|
          ensures start + clicks[i] == next + spb * i
        {
          if i < |s.clicks| {
            assert clicks[i] == s.clicks[i];
          }
        }
      }
    }
  }

  class Stream {
    const channels: nat
    const sampleRate: nat
    var bpm: nat
    var isPlaying: bool
    var sampleCounter: nat
    var nextClickSample: nat
    /** The synthesiser's note_on calls and the Tick events offered to the interface. */
    ghost var noteOns: seq<NoteOn>
    ghost var ticksSent: nat

    /** `init_stream`: 120 beats per minute, stopped, both sample positions at 0. */
    constructor (channels0: nat, sampleRate0: nat)
      ensures channels == channels0 && sampleRate == sampleRate0
      ensures bpm == 120 && !isPlaying && sampleCounter == 0 && nextClickSample == 0
      ensures noteOns == [] && ticksSent == 0
    {
      channels := channels0;
      sampleRate := sampleRate0;
      bpm := 120;
      isPlaying := false;
      sampleCounter := 0;
      nextClickSample := 0;
      noteOns := [];
      ticksSent := 0;
    }

    /** The command handler: Start plays and schedules the first click on the current sample,
        Stop only stops (the schedule and the sample position are kept), SetBPM stores the
        tempo, and every other command is ignored. */
    method HandleCommand(cmd: AudioCommand)
      modifies this`isPlaying, this`nextClickSample, this`bpm
      ensures cmd.Start? ==> isPlaying && nextClickSample == sampleCounter && bpm == old(bpm)
      ensures cmd.Stop? ==> !isPlaying && nextClickSample == old(nextClickSample) && bpm == old(bpm)
      ensures cmd.SetBpm? ==> bpm == cmd.bpm && isPlaying == old(isPlaying) && nextClickSample == old(nextClickSample)
      ensures !(cmd.Start? || cmd.Stop? || cmd.SetBpm?) ==>
        isPlaying == old(isPlaying) && nextClickSample == old(nextClickSample) && bpm == old(bpm)
    {
      match cmd {
        case Start =>
          isPlaying := true;
          var current := sampleCounter;
          nextClickSample := current;
        case Stop =>
          isPlaying := false;
        case SetBpm(newBpm) =>
          bpm := newBpm;
        case _ =>
      }
    }

    /** The frame loop of the callback: frame f fires when sample `current + f` has reached the
        scheduled click, striking the woodblock, offering a Tick and moving the schedule on by a
        beat of `spb` samples. */
    method FireClicks(current: nat, frames: nat, spb: nat)
      modifies this`nextClickSample, this`noteOns, this`ticksSent
      ensures var s := ScheduleFrames(current, old(nextClickSample), spb, frames);
        nextClickSample == s.next && noteOns == old(noteOns) + Woodblocks(|s.clicks|)
        && ticksSent == old(ticksSent) + |s.clicks|
    {
      ghost var clicks: seq<nat> := [];
      var frame := 0;
      while frame < frames
        invariant 0 <= frame <= frames
        invariant ScheduleFrames(current, old(nextClickSample), spb, frame) == Schedule(nextClickSample, clicks)
        invariant noteOns == old(noteOns) + Woodblocks(|clicks|)
        invariant ticksSent == old(ticksSent) + |clicks|
      {
        var nextClick := nextClickSample;
        if current + frame >= nextClick {
          noteOns := noteOns + [Woodblock];
          ticksSent := ticksSent + 1;
          nextClickSample := nextClick + spb;
          clicks := clicks + [frame];
        }
        frame := frame + 1;
      }
    }

    /** The output callback. The buffer is zeroed; when stopped nothing else happens. When
        playing, the frames fire clicks as `ScheduleFrames` says, each click striking the
        woodblock and offering one Tick, the synthesiser's output (`left`, `right`, one sample
        per frame) is mixed in, and the sample position moves on by the number of frames. A
        device with no channels, or a buffer a mono or multi-channel mix would overrun, would
        panic; a tempo of 0 is excluded as well (its beat length saturates to `u64::MAX`). */
    method Callback(buffer: array<real>, left: seq<real>, right: seq<real>)
      requires isPlaying ==> channels > 0 && bpm > 0
      requires isPlaying ==> |left| == |right| == buffer.Length / channels
      requires isPlaying && channels != 2 ==> buffer.Length % channels == 0
      modifies buffer, this`sampleCounter, this`nextClickSample, this`noteOns, this`ticksSent
      ensures !isPlaying ==>
        (forall i :: 0 <= i < buffer.Length ==> buffer[i] == 0.0)
        && sampleCounter == old(sampleCounter) && nextClickSample == old(nextClickSample)
        && noteOns == old(noteOns) && ticksSent == old(ticksSent)
      ensures isPlaying ==>
        var s := ScheduleFrames(old(sampleCounter), old(nextClickSample), SamplesPerBeat(sampleRate, bpm),
                                buffer.Length / channels);
        nextClickSample == s.next && sampleCounter == old(sampleCounter) + buffer.Length / channels
        && noteOns == old(noteOns) + Woodblocks(|s.clicks|) && ticksSent == old(ticksSent) + |s.clicks|
      ensures isPlaying && channels == 2 ==>
        (forall i :: 0 <= i < buffer.Length / 2 ==> buffer[2 * i] == left[i] && buffer[2 * i + 1] == right[i])
        && (buffer.Length % 2 == 1 ==> buffer[buffer.Length - 1] == 0.0)
      ensures isPlaying && channels != 2 ==>
        forall i :: 0 <= i < buffer.Length ==>
          i / channels < |left| && buffer[i] == (left[i / channels] + right[i / channels]) * 0.5
    {
      FillZero(buffer);
      var current := sampleCounter;
      if !isPlaying {
        return;
      }
      var frames := buffer.Length / channels;
      FireClicks(current, frames, sampleRate * 60 / bpm);
      if channels == 2 {
        MixStereo(buffer, left, right);
      } else {
        MixDown(buffer, left, right, channels);
      }
      sampleCounter := current + frames;
    }
  }

  /** `buffer.fill(0.0)`. */
  method FillZero(buffer: array<real>)
    modifies buffer
    ensures forall i :: 0 <= i < buffer.Length ==> buffer[i] == 0.0
  {
    var i := 0;
    while i < buffer.Length
      invariant 0 <= i <= buffer.Length
      invariant forall j :: 0 <= j < i ==> buffer[j] == 0.0
    {
      buffer[i] := 0.0;
      i := i + 1;
    }
  }

  /** The stereo mix: frame i of the buffer, a pair of samples, gains sample i of each side; a
      trailing odd sample is not part of any frame. */
  method MixStereo(buffer: array<real>, left: seq<real>, right: seq<real>)
    requires |left| == |right| == buffer.Length / 2
    modifies buffer
    ensures forall i :: 0 <= i < buffer.Length / 2 ==>
      buffer[2 * i] == old(buffer[2 * i]) + left[i] && buffer[2 * i + 1] == old(buffer[2 * i + 1]) + right[i]
    ensures buffer.Length % 2 == 1 ==> buffer[buffer.Length - 1] == old(buffer[buffer.Length - 1])
  {
    var i := 0;
    while i < buffer.Length / 2
      invariant 0 <= i <= buffer.Length / 2
      invariant forall j :: 0 <= j < i ==>
        buffer[2 * j] == old(buffer[2 * j]) + left[j] && buffer[2 * j + 1] == old(buffer[2 * j + 1]) + right[j]
      invariant forall j :: 2 * i <= j < buffer.Length ==> buffer[j] == old(buffer[j])
    {
      buffer[2 * i] := buffer[2 * i] + left[i];
      buffer[2 * i + 1] := buffer[2 * i + 1] + right[i];
      i := i + 1;
    }
  }

  /** The mix for any other channel count: every sample gains the mean of the two sides at its
      frame. */
  method MixDown(buffer: array<real>, left: seq<real>, right: seq<real>, channels: nat)
    requires channels > 0 && buffer.Length % channels == 0
    requires |left| == |right| == buffer.Length / channels
    modifies buffer
    ensures forall i :: 0 <= i < buffer.Length ==>
      i / channels < |left| && buffer[i] == old(buffer[i]) + (left[i / channels] + right[i / channels]) * 0.5
  {
    var i := 0;
    while i < buffer.Length
      invariant 0 <= i <= buffer.Length
      invariant forall j :: 0 <= j < i ==>
        j / channels < |left| && buffer[j] == old(buffer[j]) + (left[j / channels] + right[j / channels]) * 0.5
      invariant forall j :: i <= j < buffer.Length ==> buffer[j] == old(buffer[j])
    {
      FrameInside(i, channels, buffer.Length);
      buffer[i] := buffer[i] + (left[i / channels] + right[i / channels]) * 0.5;
      i := i + 1;
    }
  }

  /** A sample of a buffer made of whole frames lies in one of its frames. */
  lemma FrameInside(i: nat, channels: nat, len: nat)
    requires channels > 0 && len % channels == 0 && i < len
    ensures i / channels < len / channels
  {
    var q, f := len / channels, i / channels;
    assert len == channels * q;
    assert i == channels * f + i % channels;
  }
}
