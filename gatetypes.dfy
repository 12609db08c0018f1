/**
 * The declaration-only types of the gate: scopes, claims, actors, override
 * states, resolution traces, resolve/update events and cache entries.
 */
module GateTypes {
  import opened Wrappers
  import opened Errors

  /** ScopeKind is a uint8 enumeration; codes beyond the six named kinds are `Unknown`. */
  datatype ScopeKind = System | Tenant | Org | User | Role | Perm | Unknown(code: nat)

  datatype ScopeRef = ScopeRef(kind: ScopeKind, id: string, tenantId: string, orgId: string)

  /** The system ref, which is also the zero ScopeRef (ScopeSystem is kind 0). */
  const SystemRef := ScopeRef(System, "", "", "")

  type ScopeChain = seq<ScopeRef>

  /** The older scope triple still used by the stores and the template helpers. */
  datatype ScopeSet = ScopeSet(tenantId: string, orgId: string, userId: string, system: bool)

  datatype ActorClaims = ActorClaims(subjectId: string, tenantId: string, orgId: string,
                                     roles: seq<string>, perms: seq<string>)

  datatype ActorRef = ActorRef(id: string, actorType: string, name: string)

  /** The override states; `Blank` is the zero OverrideState "". */
  datatype OverrideState = Blank | Missing | Enabled | Disabled | Unset

  /** The layer that produced a value; `NoSource` is the zero ResolveSource "". */
  datatype ResolveSource = NoSource | FromOverride | FromDefault | FromFallback

  datatype OverrideMatchTrace = OverrideMatchTrace(scope: ScopeRef, state: OverrideState, value: Option<bool>)

  datatype OverrideTrace = OverrideTrace(state: OverrideState, value: Option<bool>, error: Option<Error>,
                                         matched: ScopeRef, matches: seq<OverrideMatchTrace>)

  const ZeroOverrideTrace := OverrideTrace(Blank, None, None, SystemRef, [])

  datatype DefaultTrace = DefaultTrace(isSet: bool, value: bool, error: Option<Error>)

  const ZeroDefaultTrace := DefaultTrace(false, false, None)

  datatype ResolveTrace = ResolveTrace(
    key: string,
    normalizedKey: string,
    chain: ScopeChain,
    value: bool,
    source: ResolveSource,
    overrideTrace: OverrideTrace,
    defaultTrace: DefaultTrace,
    cacheHit: bool,
    strategy: string,
    claimsFailureMode: string)

  const ZeroTrace := ResolveTrace("", "", [], false, NoSource, ZeroOverrideTrace, ZeroDefaultTrace, false, "", "")

  datatype ResolveEvent = ResolveEvent(key: string, normalizedKey: string, chain: ScopeChain, value: bool,
                                       source: ResolveSource, error: Option<Error>, trace: ResolveTrace)

  /** The event emitResolve hands to every resolve hook. */
  function EventOf(trace: ResolveTrace, err: Option<Error>): ResolveEvent {
    ResolveEvent(trace.key, trace.normalizedKey, trace.chain, trace.value, trace.source, err, trace)
  }

  datatype Action = ActionSet | ActionUnset

  datatype UpdateEvent = UpdateEvent(key: string, normalizedKey: string, scope: ScopeRef, actor: ActorRef,
                                     action: Action, value: Option<bool>)

  /** A cache entry: the resolved value and its trace. */
  datatype CacheEntry = CacheEntry(value: bool, trace: ResolveTrace)

  /** A config default: whether one is set, and its value. */
  datatype DefaultResult = DefaultResult(isSet: bool, value: bool)

  const NoDefault := DefaultResult(false, false)
}
