/** chordflow_desktop/src/main.rs: the commands the desktop interface sends to its audio
    thread, and the event the audio thread sends back. */
module AudioCommands {
  import opened Wrappers

  datatype AudioCommand =
    | Start
    | StartWithCountIn
    | Stop
    | Restart
    | SetBpm(bpm: nat)
    | SetBarsPerCycle(bars: nat)
    | SetSubdivision(subdivisions: nat)
    | SetChord(notes: Option<seq<int>>)

  datatype AudioEvent = Tick
}
