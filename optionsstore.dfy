/**
 * The override store over a go-options state store: one snapshot per
 * (domain, scope), scopes consulted most specific first, the feature key a
 * dotted path inside each snapshot, Set writing the boolean at that path in
 * the write scope and Unset deleting it.
 */
module OptionsStore {
  import opened Wrappers
  import opened Text
  import opened Values
  import opened Errors
  import opened GateTypes
  import opened Overrides
  import opened Paths
  import Keys

  const PrioritySystem := 10
  const PriorityTenant := 20
  const PriorityOrg := 30
  const PriorityUser := 40

  const DefaultDomain := "feature_flags"

  const MetadataTenantId := "tenant_id"
  const MetadataOrgId := "org_id"
  const MetadataUserId := "user_id"

  const StoreRequiredError := Plain("optionsadapter: state store is required")
  const InvalidKeyError := Plain("optionsadapter: feature key required")
  /** The unsupported-type error; the dynamic type name in its text is not modelled. */
  const UnsupportedTypeError := Plain("optionsadapter: unsupported override type")

  /** A go-options scope: name, label, priority and optional metadata. */
  datatype OptScope = OptScope(name: string, scopeLabel: string, priority: int, metadata: Option<map<string, Val>>)

  /** The storage metadata built from an actor; `None` extra is the zero Meta. */
  datatype Meta = Meta(extra: Option<map<string, string>>)

  /** A state reference: the options domain and the scope. */
  datatype StateRef = StateRef(domain: string, scope: OptScope)

  /** scoped: metadata is attached only when both its key and its value are non-empty. */
  function Scoped(name: string, scopeLabel: string, priority: int, metadataKey: string, metadataValue: string): (r: OptScope)
    ensures r.name == name && r.scopeLabel == scopeLabel && r.priority == priority
    ensures r.metadata.Some? <==> metadataKey != "" && metadataValue != ""
    ensures r.metadata.Some? ==> r.metadata.value == map[metadataKey := Str(metadataValue)]
  {
    OptScope(name, scopeLabel, priority,
             if metadataKey != "" && metadataValue != "" then Some(map[metadataKey := Str(metadataValue)]) else None)
  }

  function UserScope(id: string): OptScope { Scoped("user", "User", PriorityUser, MetadataUserId, id) }
  function OrgScope(id: string): OptScope { Scoped("org", "Org", PriorityOrg, MetadataOrgId, id) }
  function TenantScope(id: string): OptScope { Scoped("tenant", "Tenant", PriorityTenant, MetadataTenantId, id) }
  const SystemScope := Scoped("system", "System", PrioritySystem, "", "")

  /** defaultScopes: user, org and tenant when set, then always system. */
  function DefaultScopes(s: ScopeSet): (r: seq<OptScope>)
    ensures |r| >= 1 && r[|r| - 1] == SystemScope
    ensures UserScope(s.userId) in r <==> s.userId != ""
    ensures OrgScope(s.orgId) in r <==> s.orgId != ""
    ensures TenantScope(s.tenantId) in r <==> s.tenantId != ""
    ensures forall i, j :: 0 <= i < j < |r| ==> r[i].priority > r[j].priority
  {
    (if s.userId != "" then [UserScope(s.userId)] else [])
    + (if s.orgId != "" then [OrgScope(s.orgId)] else [])
    + (if s.tenantId != "" then [TenantScope(s.tenantId)] else [])
    + [SystemScope]
  }

  /** writeScope: the most specific scope set: user, else org, else tenant, else system. */
  function WriteScope(s: ScopeSet): (r: OptScope)
    ensures s.userId != "" ==> r == UserScope(s.userId)
    ensures s.userId == "" && s.orgId != "" ==> r == OrgScope(s.orgId)
    ensures s.userId == "" && s.orgId == "" && s.tenantId != "" ==> r == TenantScope(s.tenantId)
    ensures s.userId == "" && s.orgId == "" && s.tenantId == "" ==> r == SystemScope
    ensures r.name != ""
  {
    if s.userId != "" then UserScope(s.userId)
    else if s.orgId != "" then OrgScope(s.orgId)
    else if s.tenantId != "" then TenantScope(s.tenantId)
    else SystemScope
  }

  /** A write lands on the scope a read with the default scopes consults first. */
  lemma WriteScopeIsFirstRead(s: ScopeSet)
    ensures WriteScope(s) == DefaultScopes(s)[0]
  {
  }

  /** defaultMeta: actor_id, actor_type and actor_name for the non-empty fields; none gives the zero Meta. */
  function DefaultMeta(actor: ActorRef): (r: Meta)
    ensures r.extra.None? <==> actor.id == "" && actor.actorType == "" && actor.name == ""
    ensures r.extra.Some? ==> ("actor_id" in r.extra.value <==> actor.id != "")
                              && ("actor_type" in r.extra.value <==> actor.actorType != "")
                              && ("actor_name" in r.extra.value <==> actor.name != "")
    ensures r.extra.Some? ==> (actor.id != "" ==> r.extra.value["actor_id"] == actor.id)
                              && (actor.actorType != "" ==> r.extra.value["actor_type"] == actor.actorType)
                              && (actor.name != "" ==> r.extra.value["actor_name"] == actor.name)
    ensures r.extra.Some? ==> r.extra.value.Keys <= {"actor_id", "actor_type", "actor_name"}
  {
    var extra := (if actor.id != "" then map["actor_id" := actor.id] else map[])
                 + (if actor.actorType != "" then map["actor_type" := actor.actorType] else map[])
                 + (if actor.name != "" then map["actor_name" := actor.name] else map[]);
    assert actor.id != "" ==> "actor_id" in extra;
    assert actor.actorType != "" ==> "actor_type" in extra;
    assert actor.name != "" ==> "actor_name" in extra;
    if extra == map[] then Meta(None) else Meta(Some(extra))
  }

  /**
   * overrideFromValue: nil and the nil *bool are unset, a boolean (or one
   * behind a pointer) is enabled or disabled, any other value is missing
   * with an error.
   */
  function OverrideFromValue(v: Val): (r: (Override, Option<Error>))
    ensures v == Nil || v == BoolPtr(None) ==> r == (UnsetOverride(), None)
    ensures v.Bool? ==> r == (FromBool(v.b), None)
    ensures v.BoolPtr? && v.ptr.Some? ==> r == (FromBool(v.ptr.value), None)
    ensures !(v.Nil? || v.Bool? || v.BoolPtr?) ==> r == (MissingOverride(), Some(UnsupportedTypeError))
  {
    match v
    case Nil => (UnsetOverride(), None)
    case Bool(b) => (if b then EnabledOverride() else DisabledOverride(), None)
    case BoolPtr(p) =>
      if p.None? then (UnsetOverride(), None)
      else (if p.value then EnabledOverride() else DisabledOverride(), None)
    case _ => (MissingOverride(), Some(UnsupportedTypeError))
  }

  /** A stored boolean reads back as the override it was written for. */
  lemma OverrideFromBool(enabled: bool)
    ensures OverrideFromValue(Bool(enabled)) == (FromBool(enabled), None)
    ensures OverrideFromValue(Bool(enabled)).0.HasValue()
  {
  }

  // ---------------------------------------------------------------- options

  datatype StoreOption =
    | WithDomain(domain: string)
    | WithScopeBuilder(scopes: Option<ScopeSet -> seq<OptScope>>)
    | WithMetaBuilder(meta: Option<ActorRef -> Meta>)

  datatype Settings = Settings(domain: string, scopes: Option<ScopeSet -> seq<OptScope>>, meta: Option<ActorRef -> Meta>)

  /** The options applied in order to the defaults; WithDomain trims, later options win. */
  function Configure(opts: seq<StoreOption>): Settings
  {
    if opts == [] then Settings(DefaultDomain, Some(DefaultScopes), Some(DefaultMeta))
    else
      var st := Configure(opts[..|opts| - 1]);
      match opts[|opts| - 1]
      case WithDomain(d) => st.(domain := TrimSpace(d))
      case WithScopeBuilder(b) => st.(scopes := b)
      case WithMetaBuilder(b) => st.(meta := b)
  }

  /** NewStore's final settings: a blank domain and missing builders fall back to the defaults. */
  function Finalize(st: Settings): (r: Settings)
    ensures r.domain == (if st.domain == "" then DefaultDomain else st.domain)
    ensures r.scopes.Some? && r.meta.Some?
    ensures st.scopes.Some? ==> r.scopes == st.scopes
    ensures st.meta.Some? ==> r.meta == st.meta
  {
    Settings(if st.domain == "" then DefaultDomain else st.domain,
             if st.scopes.None? then Some(DefaultScopes) else st.scopes,
             if st.meta.None? then Some(DefaultMeta) else st.meta)
  }

  /** With no options the store uses the default domain, scopes and metadata. */
  lemma NoOptionsDefaults()
    ensures Finalize(Configure([])) == Settings(DefaultDomain, Some(DefaultScopes), Some(DefaultMeta))
  {
  }

  /** A WithDomain of only white space leaves the default domain in place. */
  lemma BlankDomainDefaults(opts: seq<StoreOption>, d: string)
    requires IsBlank(d)
    ensures Finalize(Configure(opts + [WithDomain(d)])).domain == DefaultDomain
  {
    assert (opts + [WithDomain(d)])[..|opts|] == opts;
    TrimSpaceEmptyIffBlank(d);
  }

  // ---------------------------------------------------------------- reads and writes

  /** The snapshot stored at `ref`, or none. */
  function Current(states: map<StateRef, Snapshot>, ref: StateRef): Snapshot {
    if ref in states then states[ref] else map[]
  }

  /**
   * The Get loop: the first scope whose snapshot is present and non-empty
   * and contains the key path decides; a Load error aborts with missing;
   * missing when no scope decides.
   */
  function ReadAlong(states: map<StateRef, Snapshot>, loadFaults: map<StateRef, Error>, domain: string,
                     scopes: seq<OptScope>, nk: string): (r: (Override, Option<Error>))
    decreases |scopes|
  {
    if scopes == [] then (MissingOverride(), None)
    else
      var ref := StateRef(domain, scopes[0]);
      if ref in loadFaults then (MissingOverride(), Some(loadFaults[ref]))
      else if ref !in states || states[ref] == map[] then ReadAlong(states, loadFaults, domain, scopes[1..], nk)
      else
        match LookupPathOf(states[ref], nk)
        case Some(v) => OverrideFromValue(v)
        case None => ReadAlong(states, loadFaults, domain, scopes[1..], nk)
  }

  /** The Get loop at scope `i`: it decides there, or it goes on with the scopes after it. */
  lemma ReadAlongStep(states: map<StateRef, Snapshot>, loadFaults: map<StateRef, Error>, domain: string,
                      scopes: seq<OptScope>, i: nat, nk: string)
    requires i < |scopes|
    ensures var ref := StateRef(domain, scopes[i]);
            var rest := ReadAlong(states, loadFaults, domain, scopes[i + 1..], nk);
            ReadAlong(states, loadFaults, domain, scopes[i..], nk)
              == if ref in loadFaults then (MissingOverride(), Some(loadFaults[ref]))
                 else if ref !in states || states[ref] == map[] then rest
                 else if LookupPathOf(states[ref], nk).Some? then OverrideFromValue(LookupPathOf(states[ref], nk).value)
                 else rest
  {
    assert scopes[i..][1..] == scopes[i + 1..];
  }

  /** The outcome of Set or Unset: the new state-store contents and the error. */
  function WriteOf(states: map<StateRef, Snapshot>, mutateFaults: map<StateRef, Error>, ref: StateRef,
                   nk: string, value: Option<bool>): (r: (map<StateRef, Snapshot>, Option<Error>))
    ensures ref in mutateFaults ==> r == (states, Some(mutateFaults[ref]))
    ensures ref !in mutateFaults && value.None? ==> r == (states[ref := DeletePath(Current(states, ref), nk).0], None)
    ensures r.1.Some? ==> r.0 == states
    ensures forall other :: other != ref && other in states ==> other in r.0 && r.0[other] == states[other]
  {
    if ref in mutateFaults then (states, Some(mutateFaults[ref]))
    else
      var snapshot := Current(states, ref);
      match value
      case None => (states[ref := DeletePath(snapshot, nk).0], None)
      case Some(b) =>
        match SetPath(snapshot, nk, Bool(b))
        case Success(s') => (states[ref := s'], None)
        case Failure(e) => (states, Some(e))
  }

  /**
   * Set followed by Get at the same scope set reads the written value back,
   * given the default scopes, no read or write failure at the write scope, a
   * path write that succeeds (see Paths.SetPathErrors), and no flat key
   * already spelled like a dotted key.
   */
  lemma SetThenGet(states: map<StateRef, Snapshot>, loadFaults: map<StateRef, Error>, mutateFaults: map<StateRef, Error>,
                   domain: string, key: string, s: ScopeSet, enabled: bool)
    requires Keys.NormalizeKey(key) != ""
    requires StateRef(domain, WriteScope(s)) !in mutateFaults && StateRef(domain, WriteScope(s)) !in loadFaults
    requires var nk := Keys.NormalizeKey(key);
             var snapshot := Current(states, StateRef(domain, WriteScope(s)));
             SetPath(snapshot, nk, Bool(enabled)).Success? && (nk in snapshot ==> SplitPathOf(nk) == [nk])
    ensures var nk := Keys.NormalizeKey(key);
            var states' := WriteOf(states, mutateFaults, StateRef(domain, WriteScope(s)), nk, Some(enabled)).0;
            ReadAlong(states', loadFaults, domain, DefaultScopes(s), nk) == (FromBool(enabled), None)
  {
    var nk := Keys.NormalizeKey(key);
    var ref := StateRef(domain, WriteScope(s));
    var snapshot := Current(states, ref);
    SetThenLookup(snapshot, nk, Bool(enabled));
    var states' := WriteOf(states, mutateFaults, ref, nk, Some(enabled)).0;
    assert states'[ref] == SetPath(snapshot, nk, Bool(enabled)).value;
    WriteScopeIsFirstRead(s);
    assert states'[ref] != map[];
  }

  /**
   * Unset deletes the key path, so a later Get at the same scope set no
   * longer finds it at the write scope and reads on from the next scope.
   */
  lemma UnsetThenGet(states: map<StateRef, Snapshot>, loadFaults: map<StateRef, Error>, mutateFaults: map<StateRef, Error>,
                     domain: string, key: string, s: ScopeSet)
    requires Keys.NormalizeKey(key) != ""
    requires StateRef(domain, WriteScope(s)) !in mutateFaults && StateRef(domain, WriteScope(s)) !in loadFaults
    requires var nk := Keys.NormalizeKey(key);
             var snapshot := Current(states, StateRef(domain, WriteScope(s)));
             nk in snapshot ==> SplitPathOf(nk) == [nk]
    ensures var nk := Keys.NormalizeKey(key);
            var states' := WriteOf(states, mutateFaults, StateRef(domain, WriteScope(s)), nk, None).0;
            ReadAlong(states', loadFaults, domain, DefaultScopes(s), nk)
              == ReadAlong(states', loadFaults, domain, DefaultScopes(s)[1..], nk)
  {
    var nk := Keys.NormalizeKey(key);
    var ref := StateRef(domain, WriteScope(s));
    DeleteThenLookup(Current(states, ref), nk);
    WriteScopeIsFirstRead(s);
  }

  /** With only the system scope, an unset key reads as missing, not unset. */
  lemma UnsetSystemReadsMissing(states: map<StateRef, Snapshot>, loadFaults: map<StateRef, Error>,
                                mutateFaults: map<StateRef, Error>, domain: string, key: string)
    requires Keys.NormalizeKey(key) != ""
    requires StateRef(domain, SystemScope) !in mutateFaults && StateRef(domain, SystemScope) !in loadFaults
    requires var nk := Keys.NormalizeKey(key);
             nk in Current(states, StateRef(domain, SystemScope)) ==> SplitPathOf(nk) == [nk]
    ensures var nk := Keys.NormalizeKey(key);
            var states' := WriteOf(states, mutateFaults, StateRef(domain, SystemScope), nk, None).0;
            ReadAlong(states', loadFaults, domain, DefaultScopes(ScopeSet("", "", "", false)), nk) == (MissingOverride(), None)
  {
    var s := ScopeSet("", "", "", false);
    UnsetThenGet(states, loadFaults, mutateFaults, domain, key, s);
    assert DefaultScopes(s)[1..] == [];
  }

  class OptionsStore {
    const hasStateStore: bool
    const domain: string
    const scopes: ScopeSet -> seq<OptScope>
    const meta: ActorRef -> Meta
    /** The state store's snapshots, per state reference. */
    var states: map<StateRef, Snapshot>
    /** State references whose Load fails, with the error. */
    const loadFaults: map<StateRef, Error>
    /** State references whose Mutate fails, with the error. */
    const mutateFaults: map<StateRef, Error>
    /** The metadata handed to each Mutate. */
    var metaLog: seq<Meta>

    /** NewStore: applies the options in order, then restores the defaults for what they left blank. */
    constructor (hasStateStore: bool, opts: seq<StoreOption>, states: map<StateRef, Snapshot>,
                 loadFaults: map<StateRef, Error>, mutateFaults: map<StateRef, Error>)
      ensures var st := Finalize(Configure(opts));
              this.domain == st.domain && Some(this.scopes) == st.scopes && Some(this.meta) == st.meta
      ensures this.hasStateStore == hasStateStore && this.states == states && metaLog == []
      ensures this.loadFaults == loadFaults && this.mutateFaults == mutateFaults
    {
      var st := Settings(DefaultDomain, Some(DefaultScopes), Some(DefaultMeta));
      var i := 0;
      while i < |opts|
        invariant 0 <= i <= |opts|
        invariant st == Configure(opts[..i])
      {
        assert opts[..i + 1][..i] == opts[..i];
        match opts[i] {
          case WithDomain(d) => st := st.(domain := TrimSpace(d));
          case WithScopeBuilder(b) => st := st.(scopes := b);
          case WithMetaBuilder(b) => st := st.(meta := b);
        }
        i := i + 1;
      }
      assert opts[..i] == opts;
      var final := Finalize(st);
      this.hasStateStore := hasStateStore;
      this.domain := final.domain;
      this.scopes := final.scopes.value;
      this.meta := final.meta.value;
      this.states := states;
      this.loadFaults := loadFaults;
      this.mutateFaults := mutateFaults;
      metaLog := [];
    }

    /** Get: the store and key checks, then the first deciding scope of the scope builder's list. */
    method Get(key: string, s: ScopeSet) returns (o: Override, err: Option<Error>)
      ensures !hasStateStore ==> (o, err) == (MissingOverride(), Some(StoreRequiredError))
      ensures hasStateStore && Keys.NormalizeKey(key) == "" ==> (o, err) == (MissingOverride(), Some(InvalidKeyError))
      ensures hasStateStore && Keys.NormalizeKey(key) != "" ==>
                (o, err) == ReadAlong(states, loadFaults, domain, scopes(s), Keys.NormalizeKey(key))
    {
      if !hasStateStore {
        return MissingOverride(), Some(StoreRequiredError);
      }
      var normalized := Keys.NormalizeKey(TrimSpace(key));
      Keys.NormalizeTrimmed(key);
      if normalized == "" {
        return MissingOverride(), Some(InvalidKeyError);
      }
      var list := scopes(s);
      if |list| == 0 {
        return MissingOverride(), None;
      }
      ghost var target := ReadAlong(states, loadFaults, domain, list, normalized);
      var i := 0;
      while i < |list|
        invariant 0 <= i <= |list|
        invariant target == ReadAlong(states, loadFaults, domain, list[i..], normalized)
      {
        ReadAlongStep(states, loadFaults, domain, list, i, normalized);
        var ref := StateRef(domain, list[i]);
        if ref in loadFaults {
          return MissingOverride(), Some(loadFaults[ref]);
        }
        if ref in states && states[ref] != map[] {
          var value, found := LookupPath(states[ref], normalized);
          if found {
            o, err := OverrideFromValue(value).0, OverrideFromValue(value).1;
            return;
          }
        }
        i := i + 1;
      }
      assert list[i..] == [];
      return MissingOverride(), None;
    }

    /** Set: writes the boolean at the key path of the write scope's snapshot. */
    method Set(key: string, s: ScopeSet, enabled: bool, actor: ActorRef) returns (err: Option<Error>)
      modifies this
      ensures !hasStateStore ==> err == Some(StoreRequiredError) && states == old(states) && metaLog == old(metaLog)
      ensures hasStateStore && Keys.NormalizeKey(key) == "" ==>
                err == Some(InvalidKeyError) && states == old(states) && metaLog == old(metaLog)
      ensures hasStateStore && Keys.NormalizeKey(key) != "" ==>
                (states, err) == WriteOf(old(states), mutateFaults, StateRef(domain, WriteScope(s)), Keys.NormalizeKey(key), Some(enabled))
                && metaLog == old(metaLog) + [meta(actor)]
    {
      if !hasStateStore {
        return Some(StoreRequiredError);
      }
      var normalized := Keys.NormalizeKey(TrimSpace(key));
      Keys.NormalizeTrimmed(key);
      if normalized == "" {
        return Some(InvalidKeyError);
      }
      var ref := StateRef(domain, WriteScope(s));
      metaLog := metaLog + [meta(actor)];
      if ref in mutateFaults {
        return Some(mutateFaults[ref]);
      }
      var snapshot := Current(states, ref);
      var r := SetPath(snapshot, normalized, Bool(enabled));
      if r.Failure? {
        return Some(r.error);
      }
      states := states[ref := r.value];
      return None;
    }

    /** Unset: deletes the key path from the write scope's snapshot; deletePath's result is ignored. */
    method Unset(key: string, s: ScopeSet, actor: ActorRef) returns (err: Option<Error>)
      modifies this
      ensures !hasStateStore ==> err == Some(StoreRequiredError) && states == old(states) && metaLog == old(metaLog)
      ensures hasStateStore && Keys.NormalizeKey(key) == "" ==>
                err == Some(InvalidKeyError) && states == old(states) && metaLog == old(metaLog)
      ensures hasStateStore && Keys.NormalizeKey(key) != "" ==>
                (states, err) == WriteOf(old(states), mutateFaults, StateRef(domain, WriteScope(s)), Keys.NormalizeKey(key), None)
                && metaLog == old(metaLog) + [meta(actor)]
    {
      if !hasStateStore {
        return Some(StoreRequiredError);
      }
      var normalized := Keys.NormalizeKey(TrimSpace(key));
      Keys.NormalizeTrimmed(key);
      if normalized == "" {
        return Some(InvalidKeyError);
      }
      var ref := StateRef(domain, WriteScope(s));
      metaLog := metaLog + [meta(actor)];
      if ref in mutateFaults {
        return Some(mutateFaults[ref]);
      }
      var snapshot := Current(states, ref);
      states := states[ref := DeletePath(snapshot, normalized).0];
      return None;
    }
  }
}
