/**
 * The gate's resolution engine: a feature key is resolved along a scope
 * chain through runtime overrides (the canonical key, then its aliases),
 * then config defaults, then a hard `false`; around that sit the claims
 * failure modes, strict or permissive store errors, a cache cleared on
 * every write, and resolve/update hooks.
 */
module Resolver {
  import opened Wrappers
  import opened Text
  import opened GateTypes
  import opened Overrides
  import opened Keys
  import opened Chain
  import opened Strategy
  import Errors

  type Error = Errors.Error

  const FailOpen := "fail_open"
  const FailClosed := "fail_closed"

  /**
   * What the options of New configure. The collaborators (reader, writer,
   * permission provider, cache) are reduced to whether they are present;
   * `caching` is false for the NoopCache that New installs by default.
   */
  datatype Config = Config(
    hasReader: bool,
    hasWriter: bool,
    hasPermissionProvider: bool,
    caching: bool,
    strictStore: bool,
    scopeOrder: seq<ScopeKind>,
    strategy: Option<StrategyFn>,
    failureMode: string,
    fallbackChain: ScopeChain,
    appendSystemOnFailure: bool,
    appendSystemOnProvidedChain: bool,
    preserveRolePermOrder: bool,
    normalizer: Normalizer)

  /** The configuration New starts from, before options apply (`lower` stands for strings.ToLower). */
  function NewConfig(lower: string -> string): (c: Config)
    ensures c.scopeOrder == DefaultScopeOrder && GroupOrder(c.scopeOrder) == DefaultGroups
    ensures c.failureMode == FailOpen && c.appendSystemOnFailure && !c.appendSystemOnProvidedChain
    ensures c.strategy.None? && !c.strictStore && !c.caching && c.fallbackChain == []
    ensures !c.hasReader && !c.hasWriter && !c.hasPermissionProvider && !c.preserveRolePermOrder
  {
    DefaultOrderGroups();
    Config(false, false, false, false, false, DefaultScopeOrder, None, FailOpen, [], true, false, false,
           DefaultNormalizer(lower))
  }

  /** The parts of the configuration buildChain reads. */
  function ChainConfigOf(cfg: Config): ChainConfig {
    ChainConfig(cfg.scopeOrder, cfg.preserveRolePermOrder, cfg.normalizer)
  }

  /**
   * One resolve call's request: an explicit chain when one was passed, and
   * what the claims and permission providers return for the call's context.
   */
  datatype Request = Request(chain: Option<ScopeChain>, claims: Result<ActorClaims, Error>, perms: Result<seq<string>, Error>)

  /**
   * The stores behind the gate: the override table read by GetAll and
   * written by the writer, the keys whose reads or writes fail, and the
   * config defaults with the keys whose lookup fails.
   */
  datatype Backend = Backend(
    table: map<(string, ScopeRef), Override>,
    readFaults: map<string, Error>,
    writeFaults: map<string, Error>,
    defaults: map<string, DefaultResult>,
    defaultFaults: map<string, Error>)

  // ---------------------------------------------------------------- resolveChain

  /** The chain used after a claims or permission failure. */
  function FailureChain(cfg: Config, e: Error): (ScopeChain, string, Option<Error>) {
    if cfg.failureMode == FailClosed then ([], cfg.failureMode, Some(e))
    else ((if cfg.appendSystemOnFailure then WithSystem(cfg.fallbackChain) else cfg.fallbackChain), cfg.failureMode, None)
  }

  /** resolveChain: the chain, the failure mode, and the claims error under fail-closed. */
  function ChainOf(cfg: Config, req: Request): (ScopeChain, string, Option<Error>) {
    if req.chain.Some? then
      ((if cfg.appendSystemOnProvidedChain then WithSystem(req.chain.value) else req.chain.value), cfg.failureMode, None)
    else if req.claims.Failure? then FailureChain(cfg, req.claims.error)
    else if cfg.hasPermissionProvider && req.perms.Failure? then FailureChain(cfg, req.perms.error)
    else
      var claims := req.claims.value;
      var merged := if cfg.hasPermissionProvider then claims.(perms := MergePerms(claims.perms, req.perms.value)) else claims;
      (WithSystem(BuiltChain(ChainConfigOf(cfg), merged)), cfg.failureMode, None)
  }

  /** An explicit chain is used as given, plus system only when configured. */
  lemma ProvidedChain(cfg: Config, req: Request)
    requires req.chain.Some?
    ensures ChainOf(cfg, req).2 == None
    ensures !cfg.appendSystemOnProvidedChain ==> ChainOf(cfg, req).0 == req.chain.value
    ensures cfg.appendSystemOnProvidedChain ==> HasSystem(ChainOf(cfg, req).0)
  {
  }

  /**
   * A claims or permission failure: fail-closed reports the error with an
   * empty chain; otherwise the fallback chain is used, with system when
   * appendSystemOnFailure is set.
   */
  lemma ClaimsFailure(cfg: Config, req: Request)
    requires req.chain.None?
    requires req.claims.Failure? || (cfg.hasPermissionProvider && req.perms.Failure?)
    ensures var (chain, mode, err) := ChainOf(cfg, req);
            mode == cfg.failureMode
            && (cfg.failureMode == FailClosed ==>
                  chain == [] && err.Some? && err.value == (if req.claims.Failure? then req.claims.error else req.perms.error))
            && (cfg.failureMode != FailClosed ==>
                  err.None? && (cfg.appendSystemOnFailure ==> HasSystem(chain)) && (!cfg.appendSystemOnFailure ==> chain == cfg.fallbackChain))
  {
  }

  /** A chain derived from claims always holds the system ref, and the call succeeds. */
  lemma DerivedChainHasSystem(cfg: Config, req: Request)
    requires req.chain.None? && req.claims.Success? && (cfg.hasPermissionProvider ==> req.perms.Success?)
    ensures ChainOf(cfg, req).2 == None && HasSystem(ChainOf(cfg, req).0)
  {
  }

  // ---------------------------------------------------------------- resolveOverrides

  /** What GetAll returns for `key`: the stored overrides of the chain refs, in chain order. */
  function Stored(table: map<(string, ScopeRef), Override>, key: string, chain: ScopeChain): seq<OverrideMatch> {
    if chain == [] then []
    else
      var prev := Stored(table, key, chain[..|chain| - 1]);
      var ref := chain[|chain| - 1];
      if (key, ref) in table then prev + [OverrideMatch(ref, table[(key, ref)])] else prev
  }

  function GetAll(b: Backend, key: string, chain: ScopeChain): Result<seq<OverrideMatch>, Error> {
    if key in b.readFaults then Failure(b.readFaults[key]) else Success(Stored(b.table, key, chain))
  }

  /** One GetAll followed by normalizeMatches and applyStrategy; a read or strategy error is a failure. */
  function Consult(cfg: Config, b: Backend, key: string, chain: ScopeChain): Result<(Decision, ResolveTrace), Error> {
    match GetAll(b, key, chain)
    case Failure(e) => Failure(e)
    case Success(ms) =>
      var (d, t, err) := ApplyStrategy(cfg.strategy, key, chain, NormalizedMatches(ms), cfg.scopeOrder);
      if err.Some? then Failure(err.value) else Success((d, t))
  }

  /** The alias loop: the first alias that errs or decides ends it; the keys read are returned alongside. */
  function AliasLookup(cfg: Config, b: Backend, aliases: seq<string>, chain: ScopeChain)
    : (Result<(Decision, ResolveTrace), Error>, seq<string>)
  {
    if aliases == [] then (Success((ZeroDecision, StrategyTrace)), [])
    else if Undecided(cfg, b, aliases[0], chain) then
      var rest := AliasLookup(cfg, b, aliases[1..], chain);
      (rest.0, [aliases[0]] + rest.1)
    else (Consult(cfg, b, aliases[0], chain), [aliases[0]])
  }

  /** The key's overrides are read without error and decide nothing. */
  predicate Undecided(cfg: Config, b: Backend, key: string, chain: ScopeChain) {
    Consult(cfg, b, key, chain).Success? && !Consult(cfg, b, key, chain).value.0.matched
  }

  /**
   * resolveOverrides: the canonical key first, then each alias in order.
   * With no decision the outer trace is returned, as the source's shadowed
   * `trace` variable makes it: strategy "default" and a zero override trace.
   */
  function ResolveOverrides(cfg: Config, b: Backend, key: string, chain: ScopeChain)
    : (Result<(Decision, ResolveTrace), Error>, seq<string>)
  {
    if Undecided(cfg, b, key, chain) then
      var rest := AliasLookup(cfg, b, AliasesFor(key), chain);
      (rest.0, [key] + rest.1)
    else (Consult(cfg, b, key, chain), [key])
  }

  /** A canonical decision is final: the aliases are not read. */
  lemma CanonicalFirst(cfg: Config, b: Backend, key: string, chain: ScopeChain)
    requires Consult(cfg, b, key, chain).Success? && Consult(cfg, b, key, chain).value.0.matched
    ensures ResolveOverrides(cfg, b, key, chain) == (Consult(cfg, b, key, chain), [key])
  {
  }

  /**
   * The alias loop stops at the first alias (in alias order) whose read
   * fails or whose overrides decide: its result is returned, and exactly
   * the aliases up to it are read.
   */
  lemma {:induction false} AliasStops(cfg: Config, b: Backend, aliases: seq<string>, chain: ScopeChain, k: nat)
    requires k < |aliases|
    requires forall j :: 0 <= j < k ==> Undecided(cfg, b, aliases[j], chain)
    requires !Undecided(cfg, b, aliases[k], chain)
    ensures AliasLookup(cfg, b, aliases, chain) == (Consult(cfg, b, aliases[k], chain), aliases[..k + 1])
  {
    if k > 0 {
      assert Undecided(cfg, b, aliases[0], chain);
      var tail := aliases[1..];
      assert forall j :: 0 <= j < k - 1 ==> tail[j] == aliases[j + 1];
      assert tail[k - 1] == aliases[k];
      AliasStops(cfg, b, tail, chain, k - 1);
      assert aliases[..k + 1] == [aliases[0]] + tail[..k];
    } else {
      assert aliases[..1] == [aliases[0]];
    }
  }

  /** When no alias decides and nothing fails, every alias is read and the result is the undecided outer trace. */
  lemma {:induction false} AliasNoneDecides(cfg: Config, b: Backend, aliases: seq<string>, chain: ScopeChain)
    requires forall j :: 0 <= j < |aliases| ==> Undecided(cfg, b, aliases[j], chain)
    ensures AliasLookup(cfg, b, aliases, chain) == (Success((ZeroDecision, StrategyTrace)), aliases)
  {
    if aliases != [] {
      assert Undecided(cfg, b, aliases[0], chain);
      var tail := aliases[1..];
      assert forall j :: 0 <= j < |tail| ==> tail[j] == aliases[j + 1];
      AliasNoneDecides(cfg, b, tail, chain);
      assert aliases == [aliases[0]] + tail;
    }
  }

  /** An alias override decides the sign-up key once the canonical key does not: both keys are read, in that order. */
  lemma SignupAliasOverride(cfg: Config, b: Backend, chain: ScopeChain)
    requires Consult(cfg, b, SignupKey, chain).Success? && !Consult(cfg, b, SignupKey, chain).value.0.matched
    requires Consult(cfg, b, SelfRegistrationKey, chain).Success? && Consult(cfg, b, SelfRegistrationKey, chain).value.0.matched
    ensures ResolveOverrides(cfg, b, SignupKey, chain) == (Consult(cfg, b, SelfRegistrationKey, chain), [SignupKey, SelfRegistrationKey])
  {
    SignupAliases();
    assert Undecided(cfg, b, SignupKey, chain);
    AliasStops(cfg, b, [SelfRegistrationKey], chain, 0);
    assert [SelfRegistrationKey][..1] == [SelfRegistrationKey];
    var rest := AliasLookup(cfg, b, AliasesFor(SignupKey), chain);
    assert rest == (Consult(cfg, b, SelfRegistrationKey, chain), [SelfRegistrationKey]);
    assert ResolveOverrides(cfg, b, SignupKey, chain) == (rest.0, [SignupKey] + rest.1);
    assert [SignupKey] + [SelfRegistrationKey] == [SignupKey, SelfRegistrationKey];
  }

  // ---------------------------------------------------------------- resolve

  /** What one resolve call returns, whether it writes the cache, and the keys it reads from the store. */
  datatype Outcome = Outcome(value: bool, trace: ResolveTrace, err: Option<Error>, cacheWrite: bool, calls: seq<string>)

  function DefaultOf(b: Backend, key: string): DefaultResult {
    if key in b.defaults then b.defaults[key] else NoDefault
  }

  /** The defaults layer; `storeFailed` suppresses the cache write. */
  function DefaultLayer(b: Backend, nk: string, t: ResolveTrace, storeFailed: bool, calls: seq<string>): (o: Outcome)
    ensures o.trace.normalizedKey == t.normalizedKey && o.trace.chain == t.chain && o.trace.cacheHit == t.cacheHit
    ensures o.cacheWrite ==> o.err.None?
  {
    if nk in b.defaultFaults then
      var e := Errors.WrapExternal(b.defaultFaults[nk], Errors.DefaultLookupFailed, "default lookup failed");
      Outcome(false, t.(defaultTrace := t.defaultTrace.(error := Some(e)), source := FromFallback), Some(e), false, calls)
    else
      var d := DefaultOf(b, nk);
      var t' := t.(defaultTrace := t.defaultTrace.(isSet := d.isSet, value := d.value));
      if d.isSet then Outcome(d.value, t'.(value := d.value, source := FromDefault), None, !storeFailed, calls)
      else Outcome(false, t'.(value := false, source := FromFallback), None, !storeFailed, calls)
  }

  /**
   * The override and default layers of resolve, after the chain is known
   * and the cache missed. They never touch the trace's key or failure
   * mode, which resolve fills in around them (see Stamp).
   */
  function Lower(cfg: Config, b: Backend, nk: string, chain: ScopeChain): (o: Outcome)
    ensures o.trace.normalizedKey == nk && o.trace.chain == chain && !o.trace.cacheHit
    ensures o.cacheWrite ==> o.err.None?
  {
    var base := ZeroTrace.(normalizedKey := nk, chain := chain);
    if !cfg.hasReader then DefaultLayer(b, nk, base.(overrideTrace := base.overrideTrace.(state := Missing)), false, [])
    else OverrideLayer(cfg, b, nk, ResolveOverrides(cfg, b, nk, chain), base)
  }

  /** What resolve does with the result of resolveOverrides. */
  function OverrideLayer(cfg: Config, b: Backend, nk: string,
                         lookup: (Result<(Decision, ResolveTrace), Error>, seq<string>), base: ResolveTrace): (o: Outcome)
    ensures o.trace.normalizedKey == base.normalizedKey && o.trace.chain == base.chain && o.trace.cacheHit == base.cacheHit
    ensures o.cacheWrite ==> o.err.None?
  {
    var calls := lookup.1;
    if lookup.0.Failure? then
      var se := Errors.WrapExternal(lookup.0.error, Errors.StoreReadFailed, "override store read failed");
      var t := base.(overrideTrace := base.overrideTrace.(error := Some(se)));
      if cfg.strictStore then
        Outcome(false, t.(overrideTrace := t.overrideTrace.(state := Missing), source := FromFallback), Some(se), false, calls)
      else DefaultLayer(b, nk, t, true, calls)
    else
      var d := lookup.0.value.0;
      var t := base.(overrideTrace := lookup.0.value.1.overrideTrace, strategy := lookup.0.value.1.strategy);
      if d.matched then Outcome(d.value, t.(value := d.value, source := FromOverride), None, true, calls)
      else DefaultLayer(b, nk, t, false, calls)
  }

  /** The trace's key and the claims failure mode, which resolve set before the lower layers ran. */
  function Stamp(o: Outcome, trimmed: string, mode: string): Outcome {
    o.(trace := o.trace.(key := trimmed, claimsFailureMode := mode))
  }

  /** The trace a cache hit reports. */
  function HitTrace(entry: CacheEntry, trimmed: string, nk: string, chain: ScopeChain): ResolveTrace {
    var t := entry.trace;
    t.(key := if t.key == "" then trimmed else t.key,
       normalizedKey := if t.normalizedKey == "" then nk else t.normalizedKey,
       chain := chain, value := entry.value, cacheHit := true)
  }

  /** resolve. */
  function ResolveOf(cfg: Config, b: Backend, cache: map<(string, ScopeChain), CacheEntry>, key: string, req: Request): Outcome {
    var trimmed := TrimSpace(key);
    var nk := NormalizeKey(trimmed);
    if nk == "" then
      Outcome(false, ZeroTrace.(key := trimmed, normalizedKey := nk, source := FromFallback),
              Some(Errors.WrapSentinel(Errors.InvalidKey, "")), false, [])
    else
      var chainOf := ChainOf(cfg, req);
      if chainOf.2.Some? then
        Outcome(false, ZeroTrace.(key := trimmed, normalizedKey := nk, chain := chainOf.0, source := FromFallback,
                                  claimsFailureMode := chainOf.1),
                Some(Errors.WrapExternal(chainOf.2.value, Errors.ScopeResolveFailed, "claims resolution failed")), false, [])
      else ResolveAlong(cfg, b, cache, trimmed, nk, chainOf.0, chainOf.1)
  }

  /** resolve once the chain is known: the cache, then the override and default layers. */
  function ResolveAlong(cfg: Config, b: Backend, cache: map<(string, ScopeChain), CacheEntry>,
                        trimmed: string, nk: string, chain: ScopeChain, mode: string): Outcome {
    if (nk, chain) in cache then
      Outcome(cache[(nk, chain)].value, HitTrace(cache[(nk, chain)], trimmed, nk, chain), None, false, [])
    else Stamp(Lower(cfg, b, nk, chain), trimmed, mode)
  }

  /** With a usable key and chain, resolve is the cache-or-lower step on that chain. */
  lemma ResolveOfAlong(cfg: Config, b: Backend, cache: map<(string, ScopeChain), CacheEntry>, key: string, req: Request)
    requires NormalizeKey(TrimSpace(key)) != "" && ChainOf(cfg, req).2.None?
    ensures var o := ResolveAlong(cfg, b, cache, TrimSpace(key), NormalizeKey(TrimSpace(key)), ChainOf(cfg, req).0, ChainOf(cfg, req).1);
            ResolveOf(cfg, b, cache, key, req) == o
            && CacheAfter(cfg, b, cache, key, req)
               == if cfg.caching && o.cacheWrite then cache[(o.trace.normalizedKey, o.trace.chain) := CacheEntry(o.value, o.trace)] else cache
  {
  }

  /**
   * An empty or white-space key fails with the invalid-key error and
   * source fallback before any chain, store or default lookup.
   */
  lemma InvalidKeyFirst(cfg: Config, b: Backend, cache: map<(string, ScopeChain), CacheEntry>, key: string, req: Request)
    requires IsBlank(key)
    ensures var o := ResolveOf(cfg, b, cache, key, req);
            !o.value && o.trace.source == FromFallback && o.calls == [] && !o.cacheWrite && o.trace.chain == []
            && o.err == Some(Errors.WrapSentinel(Errors.InvalidKey, ""))
            && Errors.Is(o.err.value, Errors.SentinelError(Errors.InvalidKey))
  {
    TrimSpaceEmptyIffBlank(key);
    TrimSpaceIdempotent(key);
  }

  /**
   * Layer precedence with a reader that does not fail: an override
   * decision gives source override; else a set default gives source
   * default; else the value is false with source fallback; a failing
   * default lookup returns false and the error.
   */
  lemma LayerPrecedence(cfg: Config, b: Backend, nk: string, chain: ScopeChain)
    requires cfg.hasReader && ResolveOverrides(cfg, b, nk, chain).0.Success?
    ensures var o := Lower(cfg, b, nk, chain);
            var d := ResolveOverrides(cfg, b, nk, chain).0.value.0;
            (d.matched ==> o.value == d.value && o.trace.source == FromOverride && o.err.None? && o.cacheWrite)
            && (!d.matched && nk in b.defaultFaults ==> !o.value && o.err.Some? && !o.cacheWrite && o.trace.source == FromFallback)
            && (!d.matched && nk !in b.defaultFaults && DefaultOf(b, nk).isSet ==>
                  o.value == DefaultOf(b, nk).value && o.trace.source == FromDefault && o.err.None? && o.cacheWrite)
            && (!d.matched && nk !in b.defaultFaults && !DefaultOf(b, nk).isSet ==>
                  !o.value && o.trace.source == FromFallback && o.err.None? && o.cacheWrite)
  {
  }

  /**
   * A failing store under strictStore: false with the wrapped read error,
   * override state missing, defaults never consulted, no cache write.
   */
  lemma StrictStoreError(cfg: Config, b: Backend, nk: string, chain: ScopeChain)
    requires cfg.hasReader && cfg.strictStore && ResolveOverrides(cfg, b, nk, chain).0.Failure?
    ensures var o := Lower(cfg, b, nk, chain);
            var se := Errors.WrapExternal(ResolveOverrides(cfg, b, nk, chain).0.error, Errors.StoreReadFailed, "override store read failed");
            !o.value && o.err == Some(se) && o.trace.overrideTrace.state == Missing && o.trace.overrideTrace.error == Some(se)
            && o.trace.source == FromFallback && o.trace.defaultTrace == ZeroDefaultTrace && !o.cacheWrite
  {
  }

  /**
   * A failing store otherwise: the error is kept in the override trace,
   * defaults decide as if no override matched, and nothing is cached.
   */
  lemma PermissiveStoreError(cfg: Config, b: Backend, nk: string, chain: ScopeChain)
    requires cfg.hasReader && !cfg.strictStore && ResolveOverrides(cfg, b, nk, chain).0.Failure?
    ensures var o := Lower(cfg, b, nk, chain);
            var se := Errors.WrapExternal(ResolveOverrides(cfg, b, nk, chain).0.error, Errors.StoreReadFailed, "override store read failed");
            o.trace.overrideTrace.error == Some(se) && !o.cacheWrite
            && (nk !in b.defaultFaults ==> o.err.None? && o.value == (DefaultOf(b, nk).isSet && DefaultOf(b, nk).value))
  {
  }

  /** A cache hit returns the cached value with CacheHit set and the current chain, reading nothing. */
  lemma CacheHit(cfg: Config, b: Backend, cache: map<(string, ScopeChain), CacheEntry>, key: string, req: Request)
    requires NormalizeKey(TrimSpace(key)) != "" && ChainOf(cfg, req).2.None?
    requires (NormalizeKey(TrimSpace(key)), ChainOf(cfg, req).0) in cache
    ensures var o := ResolveOf(cfg, b, cache, key, req);
            o.value == cache[(NormalizeKey(TrimSpace(key)), ChainOf(cfg, req).0)].value
            && o.trace.cacheHit && o.trace.chain == ChainOf(cfg, req).0 && o.err.None? && o.calls == [] && !o.cacheWrite
  {
  }

  /** Under fail-closed a claims failure returns false and the wrapped error with source fallback. */
  lemma FailClosedClaims(cfg: Config, b: Backend, cache: map<(string, ScopeChain), CacheEntry>, key: string, req: Request)
    requires NormalizeKey(TrimSpace(key)) != "" && cfg.failureMode == FailClosed && req.chain.None? && req.claims.Failure?
    ensures var o := ResolveOf(cfg, b, cache, key, req);
            !o.value && o.trace.source == FromFallback && o.trace.claimsFailureMode == FailClosed && o.calls == []
            && o.err == Some(Errors.WrapExternal(req.claims.error, Errors.ScopeResolveFailed, "claims resolution failed"))
  {
  }

  /**
   * A value written with Set is what the next uncached resolve along a
   * chain holding just that scope returns, as an override, after one
   * store read (default strategy, scope kind in the scope order, reads
   * not failing, no system appended to the provided chain).
   */
  lemma SetThenResolve(cfg: Config, b: Backend, key: string, scopeRef: ScopeRef, enabled: bool, req: Request)
    requires cfg.hasReader && cfg.strategy.None? && !cfg.appendSystemOnProvidedChain
    requires NormalizeKey(TrimSpace(key)) != "" && NormalizeKey(TrimSpace(key)) !in b.readFaults
    requires req.chain == Some([NormalizeScopeRef(cfg.normalizer, scopeRef)])
    requires var ref := NormalizeScopeRef(cfg.normalizer, scopeRef);
             GroupOf(ref.kind).Some? && GroupOf(ref.kind).value in GroupOrder(cfg.scopeOrder)
    ensures var nk := NormalizeKey(TrimSpace(key));
            var ref := NormalizeScopeRef(cfg.normalizer, scopeRef);
            var o := ResolveOf(cfg, b.(table := b.table[(nk, ref) := FromBool(enabled)]), map[], key, req);
            o.value == enabled && o.trace.source == FromOverride && o.err.None? && o.calls == [nk] && o.cacheWrite
  {
    var nk := NormalizeKey(TrimSpace(key));
    var ref := NormalizeScopeRef(cfg.normalizer, scopeRef);
    var b' := b.(table := b.table[(nk, ref) := FromBool(enabled)]);
    var m := OverrideMatch(ref, FromBool(enabled));
    assert [ref][..0] == [];
    assert Stored(b'.table, nk, [ref]) == [m];
    assert NormalizedMatches([m]) == [m];
    SingleMatchDecides(ref, FromBool(enabled), cfg.scopeOrder);
    assert Consult(cfg, b', nk, [ref]).Success?;
    assert Consult(cfg, b', nk, [ref]).value.0 == DefaultStrategy([ref], [m], cfg.scopeOrder).0;
    assert ResolveOverrides(cfg, b', nk, [ref]) == (Consult(cfg, b', nk, [ref]), [nk]);
  }

  /** A key whose only override along a one-ref chain is the unset tombstone decides nothing. */
  lemma TombstoneUndecided(cfg: Config, b: Backend, k: string, ref: ScopeRef)
    requires cfg.strategy.None? && k !in b.readFaults
    requires (k, ref) in b.table && b.table[(k, ref)] == UnsetOverride()
    ensures Undecided(cfg, b, k, [ref])
  {
    var m := OverrideMatch(ref, UnsetOverride());
    assert [ref][..0] == [];
    assert Stored(b.table, k, [ref]) == [m];
    assert NormalizedMatches([m]) == [m];
    DefaultStrategyMatchInChain([ref], [m], cfg.scopeOrder);
  }

  /**
   * After an Unset at a scope (with every alias unset too), the next
   * uncached resolve along a chain holding just that scope is no longer
   * decided by an override: it reads the key and each alias, then falls
   * to the default, or to false when there is none (default strategy,
   * reads not failing, no system appended to the provided chain).
   */
  lemma UnsetThenResolve(cfg: Config, b: Backend, key: string, scopeRef: ScopeRef, req: Request)
    requires cfg.hasReader && cfg.strategy.None? && !cfg.appendSystemOnProvidedChain
    requires var nk := NormalizeKey(TrimSpace(key));
             nk != "" && nk !in b.readFaults && nk !in b.defaultFaults
             && forall j :: 0 <= j < |AliasesFor(nk)| ==> AliasesFor(nk)[j] !in b.readFaults
    requires req.chain == Some([NormalizeScopeRef(cfg.normalizer, scopeRef)])
    ensures var nk := NormalizeKey(TrimSpace(key));
            var ref := NormalizeScopeRef(cfg.normalizer, scopeRef);
            var o := ResolveOf(cfg, b.(table := Tombstones(b.table[(nk, ref) := UnsetOverride()], AliasesFor(nk), ref)),
                               map[], key, req);
            o.err.None? && o.calls == [nk] + AliasesFor(nk) && o.cacheWrite
            && (DefaultOf(b, nk).isSet ==> o.value == DefaultOf(b, nk).value && o.trace.source == FromDefault)
            && (!DefaultOf(b, nk).isSet ==> !o.value && o.trace.source == FromFallback)
  {
    var nk := NormalizeKey(TrimSpace(key));
    var ref := NormalizeScopeRef(cfg.normalizer, scopeRef);
    var aliases := AliasesFor(nk);
    var t0 := b.table[(nk, ref) := UnsetOverride()];
    var b' := b.(table := Tombstones(t0, aliases, ref));
    TombstonesEffect(t0, aliases, ref);
    TombstoneUndecided(cfg, b', nk, ref);
    forall j | 0 <= j < |aliases|
      ensures Undecided(cfg, b', aliases[j], [ref])
    {
      assert aliases[j] in aliases;
      TombstoneUndecided(cfg, b', aliases[j], ref);
    }
    AliasNoneDecides(cfg, b', aliases, [ref]);
    assert ResolveOverrides(cfg, b', nk, [ref]) == (Success((ZeroDecision, StrategyTrace)), [nk] + aliases);
    LayerPrecedence(cfg, b', nk, [ref]);
    assert DefaultOf(b', nk) == DefaultOf(b, nk);
  }

  // ---------------------------------------------------------------- Set / Unset

  /** The aliases unset one by one until the first failure: those unset, those attempted, and that failure. */
  function AliasUnsets(faults: map<string, Error>, aliases: seq<string>): (seq<string>, seq<string>, Option<Error>)
  {
    if aliases == [] then ([], [], None)
    else if aliases[0] in faults then ([], [aliases[0]], Some(faults[aliases[0]]))
    else
      var rest := AliasUnsets(faults, aliases[1..]);
      ([aliases[0]] + rest.0, [aliases[0]] + rest.1, rest.2)
  }

  /** With no failing alias, every alias is unset and no error is returned. */
  lemma {:induction false} AliasUnsetsAll(faults: map<string, Error>, aliases: seq<string>)
    requires forall j :: 0 <= j < |aliases| ==> aliases[j] !in faults
    ensures AliasUnsets(faults, aliases) == (aliases, aliases, None)
  {
    if aliases != [] {
      var tail := aliases[1..];
      assert forall j :: 0 <= j < |tail| ==> tail[j] == aliases[j + 1];
      AliasUnsetsAll(faults, tail);
      assert aliases == [aliases[0]] + tail;
    }
  }

  /**
   * The first failing alias ends the loop: the aliases before it are unset,
   * it is attempted, and its error is returned unwrapped.
   */
  lemma {:induction false} AliasUnsetsStop(faults: map<string, Error>, aliases: seq<string>, k: nat)
    requires k < |aliases| && aliases[k] in faults
    requires forall j :: 0 <= j < k ==> aliases[j] !in faults
    ensures AliasUnsets(faults, aliases) == (aliases[..k], aliases[..k + 1], Some(faults[aliases[k]]))
  {
    if k > 0 {
      var tail := aliases[1..];
      assert forall j :: 0 <= j < k - 1 ==> tail[j] == aliases[j + 1];
      assert tail[k - 1] == aliases[k];
      AliasUnsetsStop(faults, tail, k - 1);
      assert aliases[..k] == [aliases[0]] + tail[..k - 1];
      assert aliases[..k + 1] == [aliases[0]] + tail[..k];
    } else {
      assert aliases[..0] == [] && aliases[..1] == [aliases[0]];
    }
  }

  /** The table with the unset tombstone written for each of `keys` at `ref`. */
  function Tombstones(table: map<(string, ScopeRef), Override>, keys: seq<string>, ref: ScopeRef): map<(string, ScopeRef), Override>
    decreases |keys|
  {
    if keys == [] then table else Tombstones(table[(keys[0], ref) := UnsetOverride()], keys[1..], ref)
  }

  /** Each key gets the unset tombstone at `ref`; every other entry is kept and nothing is removed. */
  lemma {:induction false} TombstonesEffect(table: map<(string, ScopeRef), Override>, keys: seq<string>, ref: ScopeRef)
    ensures var r := Tombstones(table, keys, ref);
            (forall k :: k in keys ==> (k, ref) in r && r[(k, ref)] == UnsetOverride())
            && (forall kr :: kr in r && (kr.1 != ref || kr.0 !in keys) ==> kr in table && r[kr] == table[kr])
            && (forall kr :: kr in table ==> kr in r)
    decreases |keys|
  {
    if keys != [] {
      TombstonesEffect(table[(keys[0], ref) := UnsetOverride()], keys[1..], ref);
      assert forall k :: k in keys ==> k == keys[0] || k in keys[1..];
    }
  }

  /** Unsetting the sign-up key also unsets its alias, canonical key first. */
  lemma SignupUnsetOrder(faults: map<string, Error>)
    requires SelfRegistrationKey !in faults
    ensures AliasUnsets(faults, AliasesFor(SignupKey)) == ([SelfRegistrationKey], [SelfRegistrationKey], None)
  {
    SignupAliases();
    AliasUnsetsAll(faults, [SelfRegistrationKey]);
  }

  // ---------------------------------------------------------------- the gate

  /** The gate is coherent when every cached value is what an uncached resolve along that chain gives, and such a resolve writes the cache. */
  ghost predicate Coherent(cfg: Config, b: Backend, cache: map<(string, ScopeChain), CacheEntry>) {
    forall kc :: kc in cache ==> Lower(cfg, b, kc.0, kc.1).cacheWrite && cache[kc].value == Lower(cfg, b, kc.0, kc.1).value
  }

  /**
   * With a coherent cache a resolve returns the same value and error as it
   * would with no cache at all.
   */
  lemma CacheTransparent(cfg: Config, b: Backend, cache: map<(string, ScopeChain), CacheEntry>, key: string, req: Request)
    requires Coherent(cfg, b, cache)
    ensures ResolveOf(cfg, b, cache, key, req).value == ResolveOf(cfg, b, map[], key, req).value
    ensures ResolveOf(cfg, b, cache, key, req).err == ResolveOf(cfg, b, map[], key, req).err
  {
    var nk := NormalizeKey(TrimSpace(key));
    var chain := ChainOf(cfg, req).0;
    if nk != "" && ChainOf(cfg, req).2.None? && (nk, chain) in cache {
      assert (nk, chain).0 == nk && (nk, chain).1 == chain;
    }
  }

  /** The cache after one resolve: the outcome's entry is written when caching is on and the outcome allows it. */
  function CacheAfter(cfg: Config, b: Backend, cache: map<(string, ScopeChain), CacheEntry>, key: string, req: Request)
    : map<(string, ScopeChain), CacheEntry>
  {
    var o := ResolveOf(cfg, b, cache, key, req);
    if cfg.caching && o.cacheWrite then cache[(o.trace.normalizedKey, o.trace.chain) := CacheEntry(o.value, o.trace)] else cache
  }

  /** Every resolve keeps a coherent cache coherent. */
  lemma ResolveKeepsCoherent(cfg: Config, b: Backend, cache: map<(string, ScopeChain), CacheEntry>, key: string, req: Request)
    requires Coherent(cfg, b, cache)
    ensures Coherent(cfg, b, CacheAfter(cfg, b, cache, key, req))
  {
    var o := ResolveOf(cfg, b, cache, key, req);
    if cfg.caching && o.cacheWrite {
      var nk := NormalizeKey(TrimSpace(key));
      var chain := ChainOf(cfg, req).0;
      assert o == Stamp(Lower(cfg, b, nk, chain), TrimSpace(key), ChainOf(cfg, req).1);
      CoherentAfterWrite(cfg, b, nk, chain, cache, o.trace);
    }
  }

  /** Writing the entry an uncached resolve computed keeps the cache coherent. */
  lemma CoherentAfterWrite(cfg: Config, b: Backend, nk: string, chain: ScopeChain, cache: map<(string, ScopeChain), CacheEntry>, t: ResolveTrace)
    requires Coherent(cfg, b, cache) && Lower(cfg, b, nk, chain).cacheWrite
    ensures Coherent(cfg, b, cache[(nk, chain) := CacheEntry(Lower(cfg, b, nk, chain).value, t)])
  {
  }

  class Gate {
    const cfg: Config
    var table: map<(string, ScopeRef), Override>
    const readFaults: map<string, Error>
    const writeFaults: map<string, Error>
    const defaults: map<string, DefaultResult>
    const defaultFaults: map<string, Error>
    var cache: map<(string, ScopeChain), CacheEntry>
    /** The keys GetAll was called with, in order. */
    var getCalls: seq<string>
    /** The writer calls, in order. */
    var writeCalls: seq<(Action, string)>
    /** What every resolve hook received, in order. */
    var resolveEvents: seq<ResolveEvent>
    /** What every activity hook received, in order. */
    var updateEvents: seq<UpdateEvent>

    function Stores(): Backend
      reads this`table
    {
      Backend(table, readFaults, writeFaults, defaults, defaultFaults)
    }

    ghost predicate Valid()
      reads this`table, this`cache
    {
      (!cfg.caching ==> cache == map[]) && Coherent(cfg, Stores(), cache)
    }

    /** New, with its collaborators given as the configuration and the initial stores. */
    constructor(cfg: Config, b: Backend)
      ensures Valid() && this.cfg == cfg && Stores() == b && cache == map[]
      ensures getCalls == [] && writeCalls == [] && resolveEvents == [] && updateEvents == []
    {
      this.cfg := cfg;
      table := b.table;
      readFaults := b.readFaults;
      writeFaults := b.writeFaults;
      defaults := b.defaults;
      defaultFaults := b.defaultFaults;
      cache := map[];
      getCalls := [];
      writeCalls := [];
      resolveEvents := [];
      updateEvents := [];
    }

    /** emitResolve: every resolve hook receives the event. */
    method EmitResolve(trace: ResolveTrace, err: Option<Error>)
      modifies this`resolveEvents
      ensures resolveEvents == old(resolveEvents) + [EventOf(trace, err)]
    {
      resolveEvents := resolveEvents + [ResolveEvent(trace.key, trace.normalizedKey, trace.chain, trace.value, trace.source, err, trace)];
    }

    /** emitUpdate: every activity hook receives the event. */
    method EmitUpdate(event: UpdateEvent)
      modifies this`updateEvents
      ensures updateEvents == old(updateEvents) + [event]
    {
      updateEvents := updateEvents + [event];
    }

    /** writeCache: a no-op for the NoopCache and after a store error. */
    method WriteCache(key: string, chain: ScopeChain, trace: ResolveTrace, storeFailed: bool)
      modifies this`cache
      ensures cache == if cfg.caching && !storeFailed then old(cache)[(key, chain) := CacheEntry(trace.value, trace)] else old(cache)
    {
      if !cfg.caching || storeFailed {
        return;
      }
      cache := cache[(key, chain) := CacheEntry(trace.value, trace)];
    }

    /** invalidateCache: the whole cache is cleared, whatever the scope. */
    method InvalidateCache(key: string, scopeRef: ScopeRef)
      modifies this`cache
      ensures cache == map[]
    {
      if scopeRef.kind == Role || scopeRef.kind == Perm {
        cache := map[];
        return;
      }
      cache := map[];
    }

    /** resolveChain. */
    method ResolveChain(req: Request) returns (chain: ScopeChain, mode: string, err: Option<Error>)
      ensures (chain, mode, err) == ChainOf(cfg, req)
    {
      mode := cfg.failureMode;
      if req.chain.Some? {
        chain := req.chain.value;
        if cfg.appendSystemOnProvidedChain {
          chain := AppendSystemIfMissing(chain);
        }
        return chain, mode, None;
      }
      if req.claims.Failure? {
        chain, mode, err := Fallback(req.claims.error);
        return;
      }
      var claims := req.claims.value;
      if cfg.hasPermissionProvider {
        if req.perms.Failure? {
          chain, mode, err := Fallback(req.perms.error);
          return;
        }
        claims := claims.(perms := MergePerms(claims.perms, req.perms.value));
      }
      chain := BuildChain(ChainConfigOf(cfg), claims);
      chain := AppendSystemIfMissing(chain);
      err := None;
    }

    method Fallback(e: Error) returns (chain: ScopeChain, mode: string, err: Option<Error>)
      ensures (chain, mode, err) == FailureChain(cfg, e)
    {
      if cfg.failureMode == FailClosed {
        return [], cfg.failureMode, Some(e);
      }
      chain := cfg.fallbackChain;
      if cfg.appendSystemOnFailure {
        chain := AppendSystemIfMissing(chain);
      }
      return chain, cfg.failureMode, None;
    }

    /** One GetAll call on the reader. */
    method ReadAll(b: Backend, key: string, chain: ScopeChain) returns (r: Result<seq<OverrideMatch>, Error>)
      requires b == Stores()
      modifies this`getCalls
      ensures getCalls == old(getCalls) + [key] && r == GetAll(b, key, chain)
    {
      getCalls := getCalls + [key];
      if key in readFaults {
        return Failure(readFaults[key]);
      }
      var ms := StoredAlong(b, key, chain);
      r := Success(ms);
    }

    /** The reader's matching loop over the chain. */
    method StoredAlong(b: Backend, key: string, chain: ScopeChain) returns (ms: seq<OverrideMatch>)
      requires b == Stores()
      ensures ms == Stored(b.table, key, chain)
    {
      ms := [];
      var i := 0;
      while i < |chain|
        invariant 0 <= i <= |chain|
        invariant ms == Stored(table, key, chain[..i])
      {
        assert chain[..i + 1][..i] == chain[..i];
        if (key, chain[i]) in table {
          ms := ms + [OverrideMatch(chain[i], table[(key, chain[i])])];
        }
        i := i + 1;
      }
      assert chain[..i] == chain;
    }

    /** GetAll, normalizeMatches and applyStrategy for one key. */
    method ConsultKey(b: Backend, key: string, chain: ScopeChain) returns (r: Result<(Decision, ResolveTrace), Error>)
      requires b == Stores()
      modifies this`getCalls
      ensures getCalls == old(getCalls) + [key] && r == Consult(cfg, b, key, chain)
    {
      var read := ReadAll(b, key, chain);
      if read.Failure? {
        return Failure(read.error);
      }
      var ms := read.value;
      var a := new OverrideMatch[|ms|](i requires 0 <= i < |ms| => ms[i]);
      assert a[..] == ms;
      NormalizeMatches(a);
      var normalized := a[..];
      var d, t, err;
      match cfg.strategy {
        case None =>
          d, t, err := DefaultResolveStrategy(chain, normalized, cfg.scopeOrder);
        case Some(f) =>
          var out := f(key, chain, normalized, cfg.scopeOrder);
          d, t, err := out.0, out.1, out.2;
      }
      if err.Some? {
        return Failure(err.value);
      }
      return Success((d, t));
    }

    /** resolveOverrides. */
    method ResolveOverridesCall(b: Backend, key: string, chain: ScopeChain) returns (r: Result<(Decision, ResolveTrace), Error>)
      requires b == Stores()
      modifies this`getCalls
      ensures r == ResolveOverrides(cfg, b, key, chain).0
      ensures getCalls == old(getCalls) + ResolveOverrides(cfg, b, key, chain).1
    {
      r := ConsultKey(b, key, chain);
      if r.Failure? || r.value.0.matched {
        return;
      }
      assert Undecided(cfg, b, key, chain);
      r := AliasLoop(b, AliasesFor(key), chain);
    }

    /** The loop of resolveOverrides over the aliases of the canonical key. */
    method AliasLoop(b: Backend, aliases: seq<string>, chain: ScopeChain) returns (r: Result<(Decision, ResolveTrace), Error>)
      requires b == Stores()
      modifies this`getCalls
      ensures r == AliasLookup(cfg, b, aliases, chain).0
      ensures getCalls == old(getCalls) + AliasLookup(cfg, b, aliases, chain).1
    {
      var i := 0;
      while i < |aliases|
        invariant 0 <= i <= |aliases|
        invariant getCalls == old(getCalls) + aliases[..i]
        invariant forall j :: 0 <= j < i ==> Undecided(cfg, b, aliases[j], chain)
      {
        var ar := ConsultKey(b, aliases[i], chain);
        assert aliases[..i + 1] == aliases[..i] + [aliases[i]];
        if ar.Failure? || ar.value.0.matched {
          AliasStops(cfg, b, aliases, chain, i);
          return ar;
        }
        i := i + 1;
      }
      assert aliases[..i] == aliases;
      AliasNoneDecides(cfg, b, aliases, chain);
      return Success((ZeroDecision, StrategyTrace));
    }

    /** The defaults layer of resolve. */
    method DefaultsCall(b: Backend, nk: string, t: ResolveTrace, storeFailed: bool, calls: seq<string>) returns (o: Outcome)
      requires b == Stores()
      ensures o == DefaultLayer(b, nk, t, storeFailed, calls)
    {
      var trace := t;
      if nk in defaultFaults {
        var e := Errors.WrapExternal(defaultFaults[nk], Errors.DefaultLookupFailed, "default lookup failed");
        trace := trace.(defaultTrace := trace.defaultTrace.(error := Some(e)), source := FromFallback);
        return Outcome(false, trace, Some(e), false, calls);
      }
      var def := if nk in defaults then defaults[nk] else NoDefault;
      trace := trace.(defaultTrace := trace.defaultTrace.(isSet := def.isSet, value := def.value));
      if def.isSet {
        trace := trace.(value := def.value, source := FromDefault);
      } else {
        trace := trace.(value := false, source := FromFallback);
      }
      return Outcome(trace.value, trace, None, !storeFailed, calls);
    }

    /** The override and default layers of resolve, after a cache miss. */
    method LowerCall(b: Backend, nk: string, chain: ScopeChain) returns (o: Outcome)
      requires b == Stores()
      modifies this`getCalls
      ensures o == Lower(cfg, b, nk, chain) && getCalls == old(getCalls) + o.calls
    {
      var trace := ZeroTrace.(normalizedKey := nk, chain := chain);
      if !cfg.hasReader {
        trace := trace.(overrideTrace := trace.overrideTrace.(state := Missing));
        o := DefaultsCall(b, nk, trace, false, []);
        return;
      }
      var before := getCalls;
      var r := ResolveOverridesCall(b, nk, chain);
      var calls := getCalls[|before|..];
      assert calls == ResolveOverrides(cfg, b, nk, chain).1;
      if r.Failure? {
        var se := Errors.WrapExternal(r.error, Errors.StoreReadFailed, "override store read failed");
        trace := trace.(overrideTrace := trace.overrideTrace.(error := Some(se)));
        if cfg.strictStore {
          trace := trace.(overrideTrace := trace.overrideTrace.(state := Missing), source := FromFallback);
          return Outcome(false, trace, Some(se), false, calls);
        }
        o := DefaultsCall(b, nk, trace, true, calls);
        return;
      }
      var decision := r.value.0;
      var overrideTrace := r.value.1;
      trace := trace.(overrideTrace := overrideTrace.overrideTrace, strategy := overrideTrace.strategy);
      if decision.matched {
        trace := trace.(value := decision.value, source := FromOverride);
        return Outcome(decision.value, trace, None, true, calls);
      }
      o := DefaultsCall(b, nk, trace, false, calls);
    }

    /** resolve: the value, its trace and the error; one resolve event is emitted on every path. */
    method Resolve(key: string, req: Request) returns (value: bool, trace: ResolveTrace, err: Option<Error>)
      requires Valid()
      modifies this`getCalls, this`cache, this`resolveEvents
      ensures Valid()
      ensures var o := ResolveOf(cfg, Stores(), old(cache), key, req);
              value == o.value && trace == o.trace && err == o.err && getCalls == old(getCalls) + o.calls
      ensures cache == CacheAfter(cfg, Stores(), old(cache), key, req)
      ensures resolveEvents == old(resolveEvents) + [EventOf(trace, err)]
    {
      ghost var b := Stores();
      ResolveKeepsCoherent(cfg, b, cache, key, req);
      var trimmed := TrimSpace(key);
      var normalized := NormalizeKey(trimmed);
      trace := ZeroTrace.(key := trimmed, normalizedKey := normalized);
      if normalized == "" {
        err := Some(Errors.WrapSentinel(Errors.InvalidKey, ""));
        trace := trace.(source := FromFallback);
        EmitResolve(trace, err);
        return false, trace, err;
      }
      var chain, mode, chainErr := ResolveChain(req);
      if chainErr.Some? {
        err := Some(Errors.WrapExternal(chainErr.value, Errors.ScopeResolveFailed, "claims resolution failed"));
        trace := trace.(chain := chain, source := FromFallback, claimsFailureMode := mode);
        EmitResolve(trace, err);
        return false, trace, err;
      }
      ResolveOfAlong(cfg, b, old(cache), key, req);
      var o := ResolveAlongCall(Stores(), trimmed, normalized, chain, mode);
      return o.value, o.trace, o.err;
    }

    /** resolve after the chain is known: a cache hit, or the lower layers and the cache write. */
    method ResolveAlongCall(b: Backend, trimmed: string, nk: string, chain: ScopeChain, mode: string) returns (o: Outcome)
      requires b == Stores()
      modifies this`getCalls, this`cache, this`resolveEvents
      ensures o == ResolveAlong(cfg, b, old(cache), trimmed, nk, chain, mode)
      ensures getCalls == old(getCalls) + o.calls
      ensures cache == if cfg.caching && o.cacheWrite then old(cache)[(nk, chain) := CacheEntry(o.value, o.trace)] else old(cache)
      ensures o.cacheWrite ==> o.trace.normalizedKey == nk && o.trace.chain == chain
      ensures resolveEvents == old(resolveEvents) + [EventOf(o.trace, o.err)]
    {
      if (nk, chain) in cache {
        var entry := cache[(nk, chain)];
        o := Outcome(entry.value, HitTrace(entry, trimmed, nk, chain), None, false, []);
        EmitResolve(o.trace, None);
        return;
      }
      o := CacheMiss(b, trimmed, nk, chain, mode);
    }

    /** A cache miss: the lower layers, the key and failure mode filled in, the cache write when allowed, and the event. */
    method CacheMiss(b: Backend, trimmed: string, nk: string, chain: ScopeChain, mode: string) returns (o: Outcome)
      requires b == Stores()
      modifies this`getCalls, this`cache, this`resolveEvents
      ensures o == Stamp(Lower(cfg, b, nk, chain), trimmed, mode)
      ensures getCalls == old(getCalls) + o.calls
      ensures cache == if cfg.caching && o.cacheWrite then old(cache)[(nk, chain) := CacheEntry(o.value, o.trace)] else old(cache)
      ensures resolveEvents == old(resolveEvents) + [EventOf(o.trace, o.err)]
    {
      var lower := LowerCall(b, nk, chain);
      o := lower.(trace := lower.trace.(key := trimmed, claimsFailureMode := mode));
      if o.cacheWrite {
        WriteCache(nk, chain, o.trace, false);
      }
      EmitResolve(o.trace, o.err);
    }

    /** Set: writes the concrete override at the normalised scope, clears the cache and emits one update event. */
    method Set(key: string, scopeRef: ScopeRef, enabled: bool, actor: ActorRef) returns (err: Option<Error>)
      requires Valid()
      modifies this`table, this`cache, this`writeCalls, this`updateEvents
      ensures Valid()
      ensures err == WriteGuard(cfg, writeFaults, key, ActionSet) || (err.None? && WriteGuard(cfg, writeFaults, key, ActionSet).None?)
      ensures WriteGuard(cfg, writeFaults, key, ActionSet).Some? ==>
                table == old(table) && cache == old(cache) && updateEvents == old(updateEvents)
                && writeCalls == old(writeCalls) + WriterCalled(cfg, key, ActionSet)
      ensures WriteGuard(cfg, writeFaults, key, ActionSet).None? ==>
                err.None? && table == old(table)[(NormalizeKey(TrimSpace(key)), NormalizeScopeRef(cfg.normalizer, scopeRef)) := FromBool(enabled)]
                && cache == map[] && writeCalls == old(writeCalls) + [(ActionSet, NormalizeKey(TrimSpace(key)))]
                && updateEvents == old(updateEvents) + [UpdateEvent(TrimSpace(key), NormalizeKey(TrimSpace(key)), NormalizeScopeRef(cfg.normalizer, scopeRef), actor, ActionSet, Some(enabled))]
    {
      var trimmed := TrimSpace(key);
      var normalized := NormalizeKey(trimmed);
      var ref := NormalizeScopeRef(cfg.normalizer, scopeRef);
      if !cfg.hasWriter {
        return Some(Errors.WrapSentinel(Errors.StoreUnavailable, ""));
      }
      if normalized == "" {
        return Some(Errors.WrapSentinel(Errors.InvalidKey, ""));
      }
      writeCalls := writeCalls + [(ActionSet, normalized)];
      if normalized in writeFaults {
        return Some(Errors.WrapExternal(writeFaults[normalized], Errors.StoreWriteFailed, "override store set failed"));
      }
      table := table[(normalized, ref) := FromBool(enabled)];
      InvalidateCache(normalized, ref);
      EmitUpdate(UpdateEvent(trimmed, normalized, ref, actor, ActionSet, Some(enabled)));
      return None;
    }

    /** unsetAliases: each alias in order, stopping at the first writer error, which is returned as is. */
    method UnsetAliases(normalized: string, ref: ScopeRef) returns (err: Option<Error>)
      modifies this`table, this`writeCalls
      ensures err == AliasUnsets(writeFaults, AliasesFor(normalized)).2
      ensures table == Tombstones(old(table), AliasUnsets(writeFaults, AliasesFor(normalized)).0, ref)
      ensures writeCalls == old(writeCalls) + UnsetCalls(AliasUnsets(writeFaults, AliasesFor(normalized)).1)
    {
      var aliases := AliasesFor(normalized);
      if |aliases| == 0 {
        return None;
      }
      var i := 0;
      while i < |aliases|
        invariant 0 <= i <= |aliases|
        invariant forall j :: 0 <= j < i ==> aliases[j] !in writeFaults
        invariant table == Tombstones(old(table), aliases[..i], ref)
        invariant writeCalls == old(writeCalls) + UnsetCalls(aliases[..i])
      {
        writeCalls := writeCalls + [(ActionUnset, aliases[i])];
        assert aliases[..i + 1] == aliases[..i] + [aliases[i]];
        UnsetCallsSnoc(aliases[..i], aliases[i]);
        if aliases[i] in writeFaults {
          AliasUnsetsStop(writeFaults, aliases, i);
          return Some(writeFaults[aliases[i]]);
        }
        TombstonesSnocAt(old(table), aliases[..i], aliases[i], ref);
        table := table[(aliases[i], ref) := UnsetOverride()];
        i := i + 1;
      }
      assert aliases[..i] == aliases;
      AliasUnsetsAll(writeFaults, aliases);
      return None;
    }

    /** Unset: as Set with the unset tombstone, then the aliases; the cache is cleared and the event emitted before an alias error is returned. */
    method Unset(key: string, scopeRef: ScopeRef, actor: ActorRef) returns (err: Option<Error>)
      requires Valid()
      modifies this`table, this`cache, this`writeCalls, this`updateEvents
      ensures Valid()
      ensures WriteGuard(cfg, writeFaults, key, ActionUnset).Some? ==>
                err == WriteGuard(cfg, writeFaults, key, ActionUnset)
                && table == old(table) && cache == old(cache) && updateEvents == old(updateEvents)
                && writeCalls == old(writeCalls) + WriterCalled(cfg, key, ActionUnset)
      ensures WriteGuard(cfg, writeFaults, key, ActionUnset).None? ==>
                var nk := NormalizeKey(TrimSpace(key));
                var ref := NormalizeScopeRef(cfg.normalizer, scopeRef);
                var aliasUnsets := AliasUnsets(writeFaults, AliasesFor(nk));
                err == aliasUnsets.2 && table == Tombstones(old(table)[(nk, ref) := UnsetOverride()], aliasUnsets.0, ref)
                && cache == map[] && writeCalls == old(writeCalls) + [(ActionUnset, nk)] + UnsetCalls(aliasUnsets.1)
                && updateEvents == old(updateEvents) + [UpdateEvent(TrimSpace(key), nk, ref, actor, ActionUnset, None)]
    {
      var trimmed := TrimSpace(key);
      var normalized := NormalizeKey(trimmed);
      var ref := NormalizeScopeRef(cfg.normalizer, scopeRef);
      if !cfg.hasWriter {
        return Some(Errors.WrapSentinel(Errors.StoreUnavailable, ""));
      }
      if normalized == "" {
        return Some(Errors.WrapSentinel(Errors.InvalidKey, ""));
      }
      writeCalls := writeCalls + [(ActionUnset, normalized)];
      if normalized in writeFaults {
        return Some(Errors.WrapExternal(writeFaults[normalized], Errors.StoreWriteFailed, "override store unset failed"));
      }
      table := table[(normalized, ref) := UnsetOverride()];
      var aliasErr := UnsetAliases(normalized, ref);
      InvalidateCache(normalized, ref);
      EmitUpdate(UpdateEvent(trimmed, normalized, ref, actor, ActionUnset, None));
      return aliasErr;
    }
  }

  /** The error Set or Unset returns before or at the writer call on the canonical key, if any. */
  function WriteGuard(cfg: Config, writeFaults: map<string, Error>, key: string, action: Action): (r: Option<Error>)
    ensures !cfg.hasWriter ==> r == Some(Errors.WrapSentinel(Errors.StoreUnavailable, ""))
    ensures cfg.hasWriter && IsBlank(key) ==> r == Some(Errors.WrapSentinel(Errors.InvalidKey, ""))
    ensures cfg.hasWriter && !IsBlank(key) ==> (r.Some? <==> NormalizeKey(TrimSpace(key)) in writeFaults)
    ensures r.Some? ==> r.value.Rich?
  {
    TrimSpaceIdempotent(key);
    TrimSpaceEmptyIffBlank(key);
    var nk := NormalizeKey(TrimSpace(key));
    if !cfg.hasWriter then Some(Errors.WrapSentinel(Errors.StoreUnavailable, ""))
    else if nk == "" then Some(Errors.WrapSentinel(Errors.InvalidKey, ""))
    else if nk in writeFaults then
      Some(Errors.WrapExternal(writeFaults[nk], Errors.StoreWriteFailed,
                               if action == ActionSet then "override store set failed" else "override store unset failed"))
    else None
  }

  /** The writer calls made for the canonical key: none when Set or Unset stops before the writer. */
  function WriterCalled(cfg: Config, key: string, action: Action): seq<(Action, string)> {
    var nk := NormalizeKey(TrimSpace(key));
    if cfg.hasWriter && nk != "" then [(action, nk)] else []
  }

  function UnsetCalls(keys: seq<string>): (r: seq<(Action, string)>)
    ensures |r| == |keys| && forall i :: 0 <= i < |keys| ==> r[i] == (ActionUnset, keys[i])
  {
    seq(|keys|, i requires 0 <= i < |keys| => (ActionUnset, keys[i]))
  }

  lemma UnsetCallsSnoc(keys: seq<string>, k: string)
    ensures UnsetCalls(keys + [k]) == UnsetCalls(keys) + [(ActionUnset, k)]
  {
  }

  lemma {:induction false} TombstonesSnocAt(t: map<(string, ScopeRef), Override>, keys: seq<string>, k: string, ref: ScopeRef)
    ensures Tombstones(t, keys + [k], ref) == Tombstones(t, keys, ref)[(k, ref) := UnsetOverride()]
    decreases |keys|
  {
    if keys != [] {
      assert (keys + [k])[1..] == keys[1..] + [k];
      TombstonesSnocAt(t[(keys[0], ref) := UnsetOverride()], keys[1..], k, ref);
    }
  }
}
