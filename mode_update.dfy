/** chordflow_shared/src/mode.rs: deriving the active mode from the user's configuration and
    handing it to the practice state. */
module ModeUpdates {
  import opened SharedModes
  import opened PracticeStates

  /** `update_mode_from_state`: the mode of the selected kind, built from the configuration, is
      passed to `set_mode`, whose answer is returned. The answer is true exactly when the derived
      mode differs from the active one; afterwards the derived mode is active. When it changed
      the state was reset for it (start chord, then the chord generated after it); when nothing
      changed no field of the practice state moved. The configuration is a value and is only
      read. */
  method UpdateModeFromState(selected: ModeOption, state: PracticeState, config: ConfigState)
    returns (changed: bool)
    requires state.Valid()
    requires ModeFor(selected, config) != state.mode ==> CanReset(ModeFor(selected, config))
    modifies state
    ensures changed <==> ModeFor(selected, config) != old(state.mode)
    ensures state.mode == ModeFor(selected, config) && state.Valid()
    ensures !changed ==> state.Snap() == old(state.Snap())
    ensures changed ==> ResetDone(state) && state.CustomAligned()
    ensures OptionOf(state.mode) == selected
  {
    changed := state.SetMode(ModeFor(selected, config));
  }

  /** The desktop front end (chordflow_desktop/src/state/mode.rs) applies the same dispatch each
      time the user picks a mode. Applying it a second time with the same selection and
      configuration answers false: the derived mode is already active, so nothing is reset. */
  method Reapply(selected: ModeOption, state: PracticeState, config: ConfigState)
    returns (first: bool, second: bool)
    requires state.Valid()
    requires ModeFor(selected, config) != state.mode ==> CanReset(ModeFor(selected, config))
    modifies state
    ensures first <==> ModeFor(selected, config) != old(state.mode)
    ensures !second
    ensures state.mode == ModeFor(selected, config) && state.Valid()
  {
    first := UpdateModeFromState(selected, state, config);
    second := UpdateModeFromState(selected, state, config);
  }
}
