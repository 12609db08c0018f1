/** The override value type of the store package. */
module Overrides {
  import opened Wrappers
  import opened GateTypes

  datatype Override = Override(state: OverrideState, value: bool) {
    /** HasValue: the override carries a concrete value. */
    predicate HasValue() {
      state == Enabled || state == Disabled
    }
  }

  /** One stored override found along a chain, and the scope it was found at. */
  datatype OverrideMatch = OverrideMatch(scope: ScopeRef, override: Override)

  function MissingOverride(): Override { Override(Missing, false) }

  function UnsetOverride(): Override { Override(Unset, false) }

  function EnabledOverride(): Override { Override(Enabled, true) }

  function DisabledOverride(): Override { Override(Disabled, false) }

  /** EnabledOverride or DisabledOverride, as the stores' Set picks it. */
  function FromBool(enabled: bool): (o: Override)
    ensures o.HasValue() && o.value == enabled
    ensures o == (if enabled then EnabledOverride() else DisabledOverride())
  {
    if enabled then EnabledOverride() else DisabledOverride()
  }

  /** The constructors give four pairwise-distinct states; only the concrete ones have a value. */
  lemma ConstructorsDistinct()
    ensures MissingOverride().state != UnsetOverride().state
    ensures !MissingOverride().value && !UnsetOverride().value
    ensures EnabledOverride().value && !DisabledOverride().value
    ensures |{MissingOverride().state, UnsetOverride().state, EnabledOverride().state, DisabledOverride().state}| == 4
    ensures !MissingOverride().HasValue() && !UnsetOverride().HasValue()
    ensures EnabledOverride().HasValue() && DisabledOverride().HasValue()
  {
  }

  /** valueFromOverride: true/false for a concrete state, nil otherwise. */
  function ValueOf(o: Override): (r: Option<bool>)
    ensures r.Some? <==> o.HasValue()
    ensures r.Some? ==> r.value == (o.state == Enabled)
  {
    if o.state == Enabled then Some(true)
    else if o.state == Disabled then Some(false)
    else None
  }
}
