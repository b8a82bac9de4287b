/** chordflow_shared/src/mode.rs and lib.rs: the practice modes, the configuration a mode is
    derived from, and the text a mode is shown as. */
module SharedModes {
  import opened Notes
  import opened Qualities
  import opened Scales
  import opened ProgressionParser
  import opened Wrappers

  /** The four selectable kinds of practice. */
  datatype ModeOption = FourthsOption | DiatonicOption | RandomOption | CustomOption

  /** How the diatonic mode walks the scale; `Incemental` keeps the source's spelling. */
  datatype DiatonicChoice = Incemental | RandomDegree

  const DefaultDiatonicChoice: DiatonicChoice := Incemental

  /** The derived `Display` of the diatonic option. */
  function DiatonicChoiceText(o: DiatonicChoice): string
  {
    match o
    case Incemental => "Incemental"
    case RandomDegree => "Random"
  }

  datatype Mode =
    | Fourths(quality: Quality)
    | Random(qualities: seq<Quality>)
    | Custom(progression: Option<Progression>)
    | Diatonic(scale: Scale, option: DiatonicChoice)

  /** `Mode::default()`. */
  const DefaultMode: Mode := Fourths(Major)

  /** The kind of a mode. */
  function OptionOf(m: Mode): ModeOption
  {
    match m
    case Fourths(_) => FourthsOption
    case Random(_) => RandomOption
    case Custom(_) => CustomOption
    case Diatonic(_, _) => DiatonicOption
  }

  /** The user's selections in each mode, from which the active mode is derived. */
  datatype ConfigState = ConfigState(
    fourthsSelectedQuality: Quality,
    progression: Option<Progression>,
    randomSelectedQualities: seq<Quality>,
    diatonicRoot: Note,
    diatonicOption: DiatonicChoice)

  /** `ConfigState::default()`: major fourths, no progression, every quality allowed, C natural
      as diatonic root, incremental walk. */
  function DefaultConfigState(): (c: ConfigState)
    ensures c.fourthsSelectedQuality == DefaultQuality && c.progression == None
    ensures |c.randomSelectedQualities| == 8 && forall q: Quality :: q in c.randomSelectedQualities
    ensures c.diatonicRoot == Note(C, 0) && c.diatonicOption == Incemental
  {
    AllQualitiesListsEach();
    ConfigState(Major, None, AllQualities, Note(C, 0), Incemental)
  }

  /** The mode `update_mode_from_state` hands to `set_mode` for a selected kind: the kind
      selected, carrying that kind's configuration, and for the diatonic kind a freshly built
      diatonic scale on the configured root. */
  function ModeFor(selected: ModeOption, config: ConfigState): (m: Mode)
    ensures OptionOf(m) == selected
    ensures m.Fourths? ==> m.quality == config.fourthsSelectedQuality
    ensures m.Random? ==> m.qualities == config.randomSelectedQualities
    ensures m.Custom? ==> m.progression == config.progression
    ensures m.Diatonic? ==>
      m.scale.root == config.diatonicRoot && m.scale.intervals == DiatonicIntervals
      && m.option == config.diatonicOption
  {
    match selected
    case FourthsOption => Fourths(config.fourthsSelectedQuality)
    case RandomOption => Random(config.randomSelectedQualities)
    case CustomOption => Custom(config.progression)
    case DiatonicOption => Mode.Diatonic(NewScale(config.diatonicRoot, Scales.Diatonic), config.diatonicOption)
  }

  /** Two configurations that agree on the selected kind's field give the same mode, whatever
      the other fields hold. */
  lemma ModeForReadsOnlySelected(selected: ModeOption, c1: ConfigState, c2: ConfigState)
    requires selected == FourthsOption ==> c1.fourthsSelectedQuality == c2.fourthsSelectedQuality
    requires selected == RandomOption ==> c1.randomSelectedQualities == c2.randomSelectedQualities
    requires selected == CustomOption ==> c1.progression == c2.progression
    requires selected == DiatonicOption ==>
      c1.diatonicRoot == c2.diatonicRoot && c1.diatonicOption == c2.diatonicOption
    ensures ModeFor(selected, c1) == ModeFor(selected, c2)
  {
  }

  /** `Display for Mode`. */
  function ModeText(m: Mode): (s: string)
    ensures m.Fourths? ==> s == "Fourths - " + QualityName(m.quality)
    ensures m.Random? ==> s == "Random"
    ensures m.Custom? ==> s == if m.progression.Some? then "Custom: " + ProgressionText(m.progression.value) else "Custom"
    ensures m.Diatonic? ==> s == "Diatonic: " + ScaleText(m.scale) + " - " + DiatonicChoiceText(m.option)
  {
    match m
    case Fourths(q) => "Fourths - " + QualityName(q)
    case Random(_) => "Random"
    case Custom(p) =>
      (match p
       case Some(progression) => "Custom: " + ProgressionText(progression)
       case None => "Custom")
    case Diatonic(scale, option) => "Diatonic: " + ScaleText(scale) + " - " + DiatonicChoiceText(option)
  }

  /** The text of a mode tells its kind: the first character differs between kinds. */
  lemma ModeTextShowsKind(m1: Mode, m2: Mode)
    requires ModeText(m1) == ModeText(m2)
    ensures OptionOf(m1) == OptionOf(m2)
  {
    assert ModeText(m1)[0] == ModeText(m2)[0];
    if m1.Custom? || m2.Custom? {
      assert ModeText(m1)[1] == ModeText(m2)[1];
    }
  }

  /** The fourths text names its quality: distinct qualities are shown differently. */
  lemma FourthsTextShowsQuality(p: Quality, q: Quality)
    requires ModeText(Fourths(p)) == ModeText(Fourths(q))
    ensures p == q
  {
    var prefix := "Fourths - ";
    assert ModeText(Fourths(p))[|prefix|..] == QualityName(p);
    assert ModeText(Fourths(q))[|prefix|..] == QualityName(q);
    NameRoundTrip(p);
    NameRoundTrip(q);
  }
}
