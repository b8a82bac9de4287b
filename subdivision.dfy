/** chordflow_desktop/src/ui/top_zone/subdivision_selector.rs: the beat subdivision picker. Each
    subdivision has a count of clicks per beat and a label; the drop-down lists the labels,
    marks the current one, and on a change parses the chosen label, restarts the bar display and
    asks the audio thread for the new count. */
module Subdivisions {
  import AudioCommands

  datatype Subdivision = None | Eighth | Triplet | Sixteenth

  /** `subdivisions_per_beat`: clicks per beat, never zero. */
  function SubdivisionsPerBeat(s: Subdivision): (n: nat)
    ensures 1 <= n <= 4
  {
    match s
    case None => 1
    case Eighth => 2
    case Triplet => 3
    case Sixteenth => 4
  }

  /** `label`: the text shown in the drop-down. */
  function Label(s: Subdivision): string
  {
    match s
    case None => "None"
    case Eighth => "1/8"
    case Triplet => "Triplet"
    case Sixteenth => "1/16"
  }

  /** `all`: the subdivisions in declaration order. */
  function All(): (all: seq<Subdivision>)
    ensures |all| == 4
  {
    [None, Eighth, Triplet, Sixteenth]
  }

  /** The position of a subdivision in the declaration. */
  function Ordinal(s: Subdivision): (i: nat)
    ensures i < 4
  {
    match s
    case None => 0
    case Eighth => 1
    case Triplet => 2
    case Sixteenth => 3
  }

  /** The label parse of the change handler: each label names its subdivision, anything else
      falls back to no subdivision. */
  function Parse(text: string): Subdivision
  {
    if text == "None" then None
    else if text == "1/8" then Eighth
    else if text == "Triplet" then Triplet
    else if text == "1/16" then Sixteenth
    else None
  }

  /** Each subdivision has its own click count, so the count sent to the audio thread tells the
      subdivision. */
  lemma PerBeatDistinct(a: Subdivision, b: Subdivision)
    ensures SubdivisionsPerBeat(a) == SubdivisionsPerBeat(b) <==> a == b
  {
  }

  /** Parsing a label gives back its subdivision. */
  lemma ParseLabel(s: Subdivision)
    ensures Parse(Label(s)) == s
  {
  }

  /** So no two subdivisions share a label. */
  lemma LabelsDistinct(a: Subdivision, b: Subdivision)
    ensures Label(a) == Label(b) <==> a == b
  {
    ParseLabel(a);
    ParseLabel(b);
  }

  /** A text that is no label parses to no subdivision. */
  lemma ParseUnknown(text: string)
    requires forall s: Subdivision :: text != Label(s)
    ensures Parse(text) == None
  {
    assert text != Label(Eighth) && text != Label(Triplet) && text != Label(Sixteenth);
  }

  /** `all` lists every subdivision exactly once, at its place in the declaration. */
  lemma AllInOrder()
    ensures forall s :: All()[Ordinal(s)] == s
    ensures forall i :: 0 <= i < 4 ==> Ordinal(All()[i]) == i
    ensures forall i, j :: 0 <= i < j < 4 ==> All()[i] != All()[j]
  {
  }

  /** The drop-down's options: one per subdivision, in order, with its label as text and value,
      selected when it is the current subdivision. */
  function Options(current: Subdivision): (options: seq<(string, bool)>)
    ensures |options| == |All()|
  {
    seq(4, i requires 0 <= i < 4 => (Label(All()[i]), All()[i] == current))
  }

  /** Exactly one option is selected, and choosing it parses back to the current subdivision. */
  lemma OneOptionSelected(current: Subdivision)
    ensures var options := Options(current);
      options[Ordinal(current)].1 && Parse(options[Ordinal(current)].0) == current
      && forall i :: 0 <= i < 4 && i != Ordinal(current) ==> !options[i].1
  {
    AllInOrder();
    ParseLabel(current);
  }

  /** The part of the desktop metronome state the picker writes, with the commands it has
      offered to the audio thread. */
  class SubdivisionControl {
    var currentBar: nat
    var currentTick: nat
    var subdivision: Subdivision
    var sent: seq<AudioCommands.AudioCommand>

    constructor ()
      ensures currentBar == 1 && currentTick == 0 && subdivision == None && sent == []
    {
      currentBar := 1;
      currentTick := 0;
      subdivision := None;
      sent := [];
    }

    /** The change handler: the chosen value is parsed, the bar display restarts on bar 1 before
        any tick, the subdivision is stored, and its click count is offered to the audio thread;
        a full queue drops the command (`delivered` false). */
    method OnChange(value: string, delivered: bool)
      modifies this
      ensures currentBar == 1 && currentTick == 0
      ensures subdivision == Parse(value)
      ensures delivered ==> sent == old(sent) + [AudioCommands.SetSubdivision(SubdivisionsPerBeat(subdivision))]
      ensures !delivered ==> sent == old(sent)
    {
      var s := Parse(value);
      currentBar := 1;
      currentTick := 0;
      subdivision := s;
      if delivered {
        sent := sent + [AudioCommands.SetSubdivision(SubdivisionsPerBeat(s))];
      }
    }
  }
}
