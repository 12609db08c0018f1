/**
 * The guard's Require: a feature check that yields nothing when access is
 * allowed and an error when it is denied, with alternate keys tried when the
 * primary key is disabled.
 */
module Guard {
  import opened Wrappers
  import opened Errors

  /**
   * The gate's Enabled for one key: the flag and the error. Whatever the
   * gate does beyond answering is not part of this model.
   */
  type EnabledFn = string -> (bool, Option<Error>)

  /** An error mapper; None stands for a mapper that returns nil. */
  type Mapper = Error -> Option<Error>

  datatype GuardOption =
    | WithDisabledError(err: Option<Error>)
    | WithErrorMapper(mapper: Option<Mapper>)
    | WithOverrides(keys: seq<string>)

  datatype Config = Config(disabledErr: Option<Error>, errorMapper: Option<Mapper>, overrides: seq<string>)

  const EmptyConfig := Config(None, None, [])

  function ApplyOption(cfg: Config, opt: GuardOption): Config {
    match opt
    case WithDisabledError(err) => cfg.(disabledErr := err)
    case WithErrorMapper(mapper) => cfg.(errorMapper := mapper)
    case WithOverrides(keys) => cfg.(overrides := cfg.overrides + keys)
  }

  /** The configuration the options leave, applied in order. */
  function ConfigOf(opts: seq<GuardOption>): Config {
    if opts == [] then EmptyConfig else ApplyOption(ConfigOf(opts[..|opts| - 1]), opts[|opts| - 1])
  }

  /** Every WithOverrides key, option by option, in order. */
  function OverrideKeys(opts: seq<GuardOption>): seq<string> {
    if opts == [] then []
    else (if opts[0].WithOverrides? then opts[0].keys else []) + OverrideKeys(opts[1..])
  }

  /** WithOverrides accumulates: the overrides are all the options' keys in order. */
  lemma {:induction false} OverridesAccumulate(opts: seq<GuardOption>)
    ensures ConfigOf(opts).overrides == OverrideKeys(opts)
  {
    if opts != [] {
      var init := opts[..|opts| - 1];
      OverridesAccumulate(init);
      OverrideKeysSnoc(init, opts[|opts| - 1]);
      assert opts == init + [opts[|opts| - 1]];
    }
  }

  lemma {:induction false} OverrideKeysSnoc(opts: seq<GuardOption>, opt: GuardOption)
    ensures OverrideKeys(opts + [opt]) == OverrideKeys(opts) + (if opt.WithOverrides? then opt.keys else [])
  {
    if opts == [] {
      assert [] + [opt] == [opt];
      assert [opt][1..] == [];
    } else {
      assert (opts + [opt])[1..] == opts[1..] + [opt];
      OverrideKeysSnoc(opts[1..], opt);
    }
  }

  /** The last WithDisabledError decides the disabled error; with none, it is unset. */
  lemma {:induction false} LastDisabledErrorWins(opts: seq<GuardOption>, i: nat)
    requires i < |opts| && opts[i].WithDisabledError?
    requires forall j :: i < j < |opts| ==> !opts[j].WithDisabledError?
    ensures ConfigOf(opts).disabledErr == opts[i].err
  {
    if i < |opts| - 1 {
      LastDisabledErrorWins(opts[..|opts| - 1], i);
    }
  }

  /** mapErr: the mapper's result when one is configured, else the error itself. */
  function MapErr(cfg: Config, err: Error): (r: Option<Error>)
    ensures cfg.errorMapper.None? ==> r == Some(err)
    ensures cfg.errorMapper.Some? ==> r == cfg.errorMapper.value(err)
  {
    if cfg.errorMapper.Some? then cfg.errorMapper.value(err) else Some(err)
  }

  /** The error when every key is disabled: the configured one, else DisabledError{Key}. */
  function DisabledOutcome(cfg: Config, key: string): (r: Error)
    ensures cfg.disabledErr.None? ==> r == Disabled(key) && Is(r, FeatureDisabled)
    ensures cfg.disabledErr.Some? ==> r == cfg.disabledErr.value
  {
    if cfg.disabledErr.Some? then cfg.disabledErr.value else Disabled(key)
  }

  /** DisabledError's text: "feature disabled", then ": <key>" when there is a key. */
  lemma DisabledErrorText(key: string)
    ensures ErrorText(Disabled(key)) == "feature disabled" <==> key == ""
    ensures key != "" ==> ErrorText(Disabled(key)) == "feature disabled: " + key
    ensures Is(Disabled(key), FeatureDisabled)
  {
    if key != "" {
      assert |ErrorText(Disabled(key))| > |"feature disabled"|;
    }
  }

  /**
   * The override loop: None when no override decides; Some(result) at the
   * first override that is enabled (nil) or errors (the mapped error), with
   * the keys queried up to it.
   */
  function OverridesOutcome(enabled: EnabledFn, cfg: Config, overrides: seq<string>): (r: (Option<Option<Error>>, seq<string>))
  {
    if overrides == [] then (None, [])
    else
      var (ok, err) := enabled(overrides[0]);
      if err.Some? then (Some(MapErr(cfg, err.value)), [overrides[0]])
      else if ok then (Some(None), [overrides[0]])
      else
        var (rest, calls) := OverridesOutcome(enabled, cfg, overrides[1..]);
        (rest, [overrides[0]] + calls)
  }

  /**
   * The keys queried are a prefix of the overrides; no override decides
   * exactly when every one is disabled without error, and then all of them
   * were queried.
   */
  lemma {:induction false} OverridesOutcomeShape(enabled: EnabledFn, cfg: Config, overrides: seq<string>)
    ensures var r := OverridesOutcome(enabled, cfg, overrides);
            |r.1| <= |overrides| && r.1 == overrides[..|r.1|]
            && (r.0.None? ==> r.1 == overrides)
            && (r.0.None? <==> forall j :: 0 <= j < |overrides| ==> enabled(overrides[j]) == (false, None))
  {
    if overrides != [] {
      OverridesOutcomeShape(enabled, cfg, overrides[1..]);
      assert forall j :: 1 <= j < |overrides| ==> overrides[j] == overrides[1..][j - 1];
      var r := OverridesOutcome(enabled, cfg, overrides[1..]);
      assert overrides[..|r.1| + 1] == [overrides[0]] + overrides[1..][..|r.1|];
    }
  }

  /** Require, as a value: the error returned (None for nil) and the keys the gate was asked about. */
  function RequireOutcome(gate: Option<EnabledFn>, key: string, cfg: Config): (r: (Option<Error>, seq<string>))
  {
    if gate.None? then (None, [])
    else
      var (ok, err) := gate.value(key);
      if err.Some? then (MapErr(cfg, err.value), [key])
      else if ok then (None, [key])
      else
        var (decided, calls) := OverridesOutcome(gate.value, cfg, cfg.overrides);
        if decided.Some? then (decided.value, [key] + calls)
        else (Some(DisabledOutcome(cfg, key)), [key] + calls)
  }

  /** The options applied in order to an empty configuration. */
  method Configure(opts: seq<GuardOption>) returns (cfg: Config)
    ensures cfg == ConfigOf(opts)
  {
    cfg := EmptyConfig;
    var i := 0;
    while i < |opts|
      invariant 0 <= i <= |opts| && cfg == ConfigOf(opts[..i])
    {
      assert opts[..i + 1][..i] == opts[..i];
      cfg := ApplyOption(cfg, opts[i]);
      i := i + 1;
    }
    assert opts[..i] == opts;
  }

  /** Require's loop over the overrides, with early returns. */
  method TryOverrides(enabled: EnabledFn, cfg: Config, overrides: seq<string>) returns (decided: Option<Option<Error>>, calls: seq<string>)
    ensures (decided, calls) == OverridesOutcome(enabled, cfg, overrides)
  {
    ghost var target := OverridesOutcome(enabled, cfg, overrides);
    calls := [];
    var j := 0;
    assert overrides[j..] == overrides && calls + target.1 == target.1;
    while j < |overrides|
      invariant 0 <= j <= |overrides|
      invariant calls == overrides[..j]
      invariant target == (OverridesOutcome(enabled, cfg, overrides[j..]).0, calls + OverridesOutcome(enabled, cfg, overrides[j..]).1)
    {
      var ovr := overrides[j];
      var ok, oe := enabled(ovr).0, enabled(ovr).1;
      OverridesStep(enabled, cfg, overrides, j, calls);
      calls := calls + [ovr];
      if oe.Some? {
        return Some(MapErr(cfg, oe.value)), calls;
      }
      if ok {
        return Some(None), calls;
      }
      j := j + 1;
    }
    OverridesDone(enabled, cfg, overrides, calls);
    decided := None;
  }

  /** Require: nil for a nil gate; the primary key, then the overrides in order; the mapped error at the first error. */
  method Require(gate: Option<EnabledFn>, key: string, opts: seq<GuardOption>) returns (err: Option<Error>, calls: seq<string>)
    ensures (err, calls) == RequireOutcome(gate, key, ConfigOf(opts))
  {
    if gate.None? {
      return None, [];
    }
    var cfg := Configure(opts);
    var enabled, e := gate.value(key).0, gate.value(key).1;
    if e.Some? {
      return MapErr(cfg, e.value), [key];
    }
    if enabled {
      return None, [key];
    }
    var decided, tried := TryOverrides(gate.value, cfg, cfg.overrides);
    calls := [key] + tried;
    if decided.Some? {
      return decided.value, calls;
    }
    err := Some(DisabledOutcome(cfg, key));
  }

  /** The override loop at key `j`: it decides there, or it goes on with the keys after it. */
  lemma OverridesStep(enabled: EnabledFn, cfg: Config, overrides: seq<string>, j: nat, calls: seq<string>)
    requires j < |overrides| && calls == overrides[..j]
    ensures calls + [overrides[j]] == overrides[..j + 1]
    ensures var o := OverridesOutcome(enabled, cfg, overrides[j..]);
            var o' := OverridesOutcome(enabled, cfg, overrides[j + 1..]);
            var call := enabled(overrides[j]);
            (call.1.Some? ==> o == (Some(MapErr(cfg, call.1.value)), [overrides[j]]))
            && (call == (true, None) ==> o == (Some(None), [overrides[j]]))
            && (call.1.None? && !call.0 ==>
                  (o.0, calls + o.1) == (o'.0, calls + [overrides[j]] + o'.1))
  {
    assert overrides[j..][1..] == overrides[j + 1..];
    var o' := OverridesOutcome(enabled, cfg, overrides[j + 1..]);
    assert calls + ([overrides[j]] + o'.1) == calls + [overrides[j]] + o'.1;
    assert overrides[..j + 1] == overrides[..j] + [overrides[j]];
  }

  /** The override loop past its last key: nothing decided, and every key was queried. */
  lemma OverridesDone(enabled: EnabledFn, cfg: Config, overrides: seq<string>, calls: seq<string>)
    requires calls == overrides[..|overrides|]
    ensures OverridesOutcome(enabled, cfg, overrides[|overrides|..]) == (None, [])
    ensures (None, calls) == (OverridesOutcome(enabled, cfg, overrides[|overrides|..]).0, calls + OverridesOutcome(enabled, cfg, overrides[|overrides|..]).1)
    ensures calls == overrides
  {
    assert overrides[|overrides|..] == [];
    assert calls + [] == calls;
  }

  /** A nil gate allows everything and is never asked. */
  lemma NilGateAllows(key: string, cfg: Config)
    ensures RequireOutcome(None, key, cfg) == (None, [])
  {
  }

  /** An enabled primary key allows access and the overrides are never queried. */
  lemma PrimaryEnabledAllows(enabled: EnabledFn, key: string, cfg: Config)
    requires enabled(key) == (true, None)
    ensures RequireOutcome(Some(enabled), key, cfg) == (None, [key])
  {
  }

  /** A primary-key error comes back through the mapper, before any override is queried. */
  lemma PrimaryErrorMapped(enabled: EnabledFn, key: string, cfg: Config, e: Error)
    requires enabled(key).1 == Some(e)
    ensures RequireOutcome(Some(enabled), key, cfg) == (MapErr(cfg, e), [key])
  {
  }

  /**
   * With the primary key disabled, the first override that answers decides:
   * every override before it is disabled, and it allows access when enabled
   * or gives the mapped error when it errors.
   */
  lemma {:induction false} FirstOverrideDecides(enabled: EnabledFn, cfg: Config, overrides: seq<string>, i: nat)
    requires i < |overrides|
    requires forall j :: 0 <= j < i ==> enabled(overrides[j]) == (false, None)
    requires enabled(overrides[i]) != (false, None)
    ensures OverridesOutcome(enabled, cfg, overrides).1 == overrides[..i + 1]
    ensures enabled(overrides[i]).1.None? ==> OverridesOutcome(enabled, cfg, overrides).0 == Some(None)
    ensures enabled(overrides[i]).1.Some? ==> OverridesOutcome(enabled, cfg, overrides).0 == Some(MapErr(cfg, enabled(overrides[i]).1.value))
  {
    if i > 0 {
      assert forall j :: 0 <= j < i - 1 ==> overrides[1..][j] == overrides[j + 1];
      FirstOverrideDecides(enabled, cfg, overrides[1..], i - 1);
      assert overrides[..i + 1] == [overrides[0]] + overrides[1..][..i];
    }
  }

  /** Everything disabled: the configured disabled error, else DisabledError{Key}, after every key was queried. */
  lemma AllDisabledDenies(enabled: EnabledFn, key: string, cfg: Config)
    requires enabled(key) == (false, None)
    requires forall j :: 0 <= j < |cfg.overrides| ==> enabled(cfg.overrides[j]) == (false, None)
    ensures RequireOutcome(Some(enabled), key, cfg) == (Some(DisabledOutcome(cfg, key)), [key] + cfg.overrides)
    ensures cfg.disabledErr.None? ==> Is(RequireOutcome(Some(enabled), key, cfg).0.value, FeatureDisabled)
  {
    OverridesOutcomeShape(enabled, cfg, cfg.overrides);
  }

  /** The test double: the key's flag from the map, true for unknown keys, or the error for every key. */
  function StubGate(flags: map<string, bool>, err: Option<Error>): EnabledFn {
    (k: string) => if err.Some? then (false, err) else if k in flags then (flags[k], None) else (true, None)
  }

  /** The guard test: a configured disabled error is returned after asking about the key alone. */
  lemma RequireReturnsDisabledError()
    ensures RequireOutcome(Some(StubGate(map["users.signup" := false], None)), "users.signup",
                           ConfigOf([WithDisabledError(Some(Plain("disabled")))]))
            == (Some(Plain("disabled")), ["users.signup"])
  {
    assert [WithDisabledError(Some(Plain("disabled")))][..0] == [];
    var cfg := ConfigOf([WithDisabledError(Some(Plain("disabled")))]);
    assert cfg == Config(Some(Plain("disabled")), None, []);
    var g := StubGate(map["users.signup" := false], None);
    assert g("users.signup") == (false, None);
    assert OverridesOutcome(g, cfg, []) == (None, []);
    assert Some(g).value == g;
    assert RequireOutcome(Some(g), "users.signup", cfg).1 == ["users.signup"];
    assert RequireOutcome(Some(g), "users.signup", cfg).0 == Some(Plain("disabled"));
  }

  /** The guard test: an enabled override allows a disabled primary key, after two queries. */
  lemma RequireHonorsOverride()
    ensures RequireOutcome(Some(StubGate(map["users.password_reset" := false, "users.password_reset.finalize" := true], None)),
                           "users.password_reset", ConfigOf([WithOverrides(["users.password_reset.finalize"])]))
            == (None, ["users.password_reset", "users.password_reset.finalize"])
  {
    assert [WithOverrides(["users.password_reset.finalize"])][..0] == [];
    var cfg := ConfigOf([WithOverrides(["users.password_reset.finalize"])]);
    assert cfg == Config(None, None, ["users.password_reset.finalize"]);
    var g := StubGate(map["users.password_reset" := false, "users.password_reset.finalize" := true], None);
    assert g("users.password_reset") == (false, None);
    assert g("users.password_reset.finalize") == (true, None);
    assert OverridesOutcome(g, cfg, cfg.overrides) == (Some(None), ["users.password_reset.finalize"]);
    assert RequireOutcome(Some(g), "users.password_reset", cfg).1 == ["users.password_reset", "users.password_reset.finalize"];
  }

  /** The guard test: a gate error is returned through the mapper. */
  lemma RequireMapsErrors(mapper: Mapper)
    requires mapper(Plain("gate failed")) == Some(Plain("mapped"))
    ensures RequireOutcome(Some(StubGate(map[], Some(Plain("gate failed")))), "users.signup",
                           ConfigOf([WithErrorMapper(Some(mapper))])).0
            == Some(Plain("mapped"))
  {
    assert [WithErrorMapper(Some(mapper))][..0] == [];
  }

  /** The guard test: with no options, a disabled key gives an error that is ErrFeatureDisabled. */
  lemma RequireDefaultDisabledError()
    ensures RequireOutcome(Some(StubGate(map["users.signup" := false], None)), "users.signup", ConfigOf([])).0.Some?
    ensures Is(RequireOutcome(Some(StubGate(map["users.signup" := false], None)), "users.signup", ConfigOf([])).0.value,
               FeatureDisabled)
  {
  }
}
