/**
 * The chain builder of the resolver: it turns actor claims into the ordered
 * list of scope refs that overrides are looked up along.
 */
module Chain {
  import opened Text
  import opened StrOrder
  import opened GateTypes

  /** An IdentifierNormalizer for role and perm ids. */
  type Normalizer = string -> string

  /** defaultRolePermNormalizer: lower-casing of the trimmed id (`lower` stands for strings.ToLower). */
  function DefaultNormalizer(lower: string -> string): Normalizer {
    s => lower(TrimSpace(s))
  }

  /** defaultScopeOrder. */
  const DefaultScopeOrder: seq<ScopeKind> := [User, Role, Perm, Org, Tenant, System]

  // ---------------------------------------------------------------- normalizeList

  /** Whether normalizeList keeps `v`: neither its trimmed form nor its normalisation is blank. */
  predicate Kept(v: string, norm: Normalizer) {
    TrimSpace(v) != "" && norm(TrimSpace(v)) != ""
  }

  /** The trimmed, normalised, non-blank entries of `values`, in order. */
  function NormalizedList(values: seq<string>, norm: Normalizer): seq<string> {
    if values == [] then []
    else
      var rest := NormalizedList(values[..|values| - 1], norm);
      var v := values[|values| - 1];
      if Kept(v, norm) then rest + [norm(TrimSpace(v))] else rest
  }

  /** The normalised list holds no blank id, and holds exactly the normalisations of the kept values. */
  lemma {:induction false} NormalizedListMembers(values: seq<string>, norm: Normalizer)
    ensures forall i :: 0 <= i < |NormalizedList(values, norm)| ==> NormalizedList(values, norm)[i] != ""
    ensures forall x :: x in NormalizedList(values, norm) <==>
              exists i :: 0 <= i < |values| && Kept(values[i], norm) && norm(TrimSpace(values[i])) == x
  {
    if values != [] {
      var p := values[..|values| - 1];
      NormalizedListMembers(p, norm);
      assert forall i :: 0 <= i < |p| ==> p[i] == values[i];
    }
  }

  /** normalizeList. */
  method NormalizeList(values: seq<string>, norm: Normalizer) returns (out: seq<string>)
    ensures out == NormalizedList(values, norm)
  {
    out := [];
    var i := 0;
    while i < |values|
      invariant 0 <= i <= |values|
      invariant out == NormalizedList(values[..i], norm)
    {
      assert values[..i + 1][..i] == values[..i];
      var trimmed := TrimSpace(values[i]);
      if trimmed != "" {
        trimmed := norm(trimmed);
        if trimmed != "" {
          out := out + [trimmed];
        }
      }
      i := i + 1;
    }
    assert values[..i] == values;
  }

  // ---------------------------------------------------------------- sortAndDedupe

  /**
   * sortAndDedupe: the keys of a set built from `values`, listed in map
   * order (any order) and then sorted; the strictly ascending listing of
   * the distinct values.
   */
  method SortAndDedupe(values: seq<string>) returns (out: seq<string>)
    ensures out == SortedSet(values)
    ensures StrictlySorted(out) && Elems(out) == Elems(values)
  {
    var uniq: set<string> := {};
    var i := 0;
    while i < |values|
      invariant 0 <= i <= |values|
      invariant uniq == Elems(values[..i])
    {
      assert values[..i + 1] == values[..i] + [values[i]];
      uniq := uniq + {values[i]};
      i := i + 1;
    }
    assert values[..i] == values;
    var keys: seq<string> := [];
    var rest := uniq;
    while rest != {}
      invariant rest <= uniq
      invariant Elems(keys) + rest == uniq && Elems(keys) !! rest
      invariant NoDups(keys)
      decreases |rest|
    {
      var x :| x in rest;
      keys := keys + [x];
      rest := rest - {x};
    }
    out := SortKeys(keys);
    StrictlySortedUnique(out, SortedSet(values));
  }

  // ---------------------------------------------------------------- dedupeStable

  /** The values with every repeated occurrence dropped. */
  function FirstOccurrences(values: seq<string>): seq<string> {
    if values == [] then []
    else
      var rest := FirstOccurrences(values[..|values| - 1]);
      if values[|values| - 1] in rest then rest else rest + [values[|values| - 1]]
  }

  /**
   * dedupeStable keeps each distinct value once, in order of first
   * occurrence: whenever value r[j] occurs in the input, every earlier
   * r[i] has already occurred.
   */
  lemma {:induction false} FirstOccurrencesProps(values: seq<string>)
    ensures NoDups(FirstOccurrences(values))
    ensures Elems(FirstOccurrences(values)) == Elems(values)
    ensures forall i, j, q ::
              (0 <= i < j < |FirstOccurrences(values)| && 0 <= q < |values| && values[q] == FirstOccurrences(values)[j])
              ==> FirstOccurrences(values)[i] in values[..q]
  {
    if values != [] {
      var p := values[..|values| - 1];
      var x := values[|values| - 1];
      FirstOccurrencesProps(p);
      assert values == p + [x];
      var r' := FirstOccurrences(p);
      var r := FirstOccurrences(values);
      assert Elems(values) == Elems(p) + {x};
      forall i, j, q | 0 <= i < j < |r| && 0 <= q < |values| && values[q] == r[j]
        ensures r[i] in values[..q]
      {
        if q < |p| {
          assert values[q] == p[q] && values[..q] == p[..q];
          assert p[q] in Elems(p);
          assert j < |r'|;
          assert r[i] == r'[i] && r[j] == r'[j];
        } else {
          assert values[..q] == p;
          assert r[i] in Elems(r') by { assert r[i] == r'[i]; }
        }
      }
    }
  }

  /** dedupeStable. */
  method DedupeStable(values: seq<string>) returns (out: seq<string>)
    ensures out == FirstOccurrences(values)
  {
    var seen: set<string> := {};
    out := [];
    var i := 0;
    while i < |values|
      invariant 0 <= i <= |values|
      invariant out == FirstOccurrences(values[..i]) && seen == Elems(out)
    {
      assert values[..i + 1][..i] == values[..i];
      if values[i] !in seen {
        seen := seen + {values[i]};
        out := out + [values[i]];
      }
      i := i + 1;
    }
    assert values[..i] == values;
  }

  // ---------------------------------------------------------------- buildRolePermRefs

  /** Whether role/perm refs also get a tenant/org-qualified copy. */
  predicate Qualified(claims: ActorClaims) {
    claims.tenantId != "" || claims.orgId != ""
  }

  /** The refs one role or perm id contributes. */
  function IdRefs(kind: ScopeKind, id: string, claims: ActorClaims): seq<ScopeRef> {
    if id == "" then []
    else if Qualified(claims) then [ScopeRef(kind, id, "", ""), ScopeRef(kind, id, claims.tenantId, claims.orgId)]
    else [ScopeRef(kind, id, "", "")]
  }

  function RolePermRefs(kind: ScopeKind, items: seq<string>, claims: ActorClaims): seq<ScopeRef> {
    if items == [] then []
    else RolePermRefs(kind, items[..|items| - 1], claims) + IdRefs(kind, items[|items| - 1], claims)
  }

  /**
   * Every non-empty id emits a global ref, plus a tenant/org-qualified ref
   * when either id is present; nothing else is emitted.
   */
  lemma {:induction false} RolePermRefsMembers(kind: ScopeKind, items: seq<string>, claims: ActorClaims)
    ensures forall ref :: ref in RolePermRefs(kind, items, claims) <==>
              ref.kind == kind && ref.id in items && ref.id != ""
              && ((ref.tenantId == "" && ref.orgId == "")
                  || (Qualified(claims) && ref.tenantId == claims.tenantId && ref.orgId == claims.orgId))
  {
    if items != [] {
      var p := items[..|items| - 1];
      RolePermRefsMembers(kind, p, claims);
      assert items == p + [items[|items| - 1]];
    }
  }

  /** buildRolePermRefs. */
  method BuildRolePermRefs(kind: ScopeKind, items: seq<string>, claims: ActorClaims) returns (refs: seq<ScopeRef>)
    ensures refs == RolePermRefs(kind, items, claims)
  {
    refs := [];
    var i := 0;
    while i < |items|
      invariant 0 <= i <= |items|
      invariant refs == RolePermRefs(kind, items[..i], claims)
    {
      assert items[..i + 1][..i] == items[..i];
      var id := items[i];
      if id != "" {
        refs := refs + [ScopeRef(kind, id, "", "")];
        if claims.tenantId != "" || claims.orgId != "" {
          refs := refs + [ScopeRef(kind, id, claims.tenantId, claims.orgId)];
        }
      }
      i := i + 1;
    }
    assert items[..i] == items;
  }

  // ---------------------------------------------------------------- appendSystemIfMissing

  predicate HasSystem(chain: seq<ScopeRef>) {
    exists i :: 0 <= i < |chain| && chain[i].kind == System
  }

  /** The chain with the system ref appended when it has no system-kind ref. */
  function WithSystem(chain: seq<ScopeRef>): (r: seq<ScopeRef>)
    ensures HasSystem(r)
    ensures HasSystem(chain) ==> r == chain
    ensures !HasSystem(chain) ==> r == chain + [SystemRef]
  {
    if HasSystem(chain) then chain
    else
      assert (chain + [SystemRef])[|chain|].kind == System;
      chain + [SystemRef]
  }

  /** appendSystemIfMissing. */
  method AppendSystemIfMissing(chain: seq<ScopeRef>) returns (r: seq<ScopeRef>)
    ensures r == WithSystem(chain)
  {
    var i := 0;
    while i < |chain|
      invariant 0 <= i <= |chain|
      invariant forall k :: 0 <= k < i ==> chain[k].kind != System
    {
      if chain[i].kind == System {
        return chain;
      }
      i := i + 1;
    }
    return chain + [SystemRef];
  }

  lemma WithSystemIdempotent(chain: seq<ScopeRef>)
    ensures WithSystem(WithSystem(chain)) == WithSystem(chain)
  {
  }

  // ---------------------------------------------------------------- mergePerms

  /** mergePerms: the claimed perms followed by the provider's. */
  function MergePerms(existing: seq<string>, extra: seq<string>): (r: seq<string>)
    ensures r == existing + extra
    ensures Elems(r) == Elems(existing) + Elems(extra)
  {
    if extra == [] then
      assert existing + extra == existing;
      existing
    else existing + extra
  }

  // ---------------------------------------------------------------- buildChain

  /** How the chain builder is configured. */
  datatype ChainConfig = ChainConfig(scopeOrder: seq<ScopeKind>, preserveRolePermOrder: bool, normalizer: Normalizer)

  /** The role or perm ids as buildChain lists them. */
  function Ids(cfg: ChainConfig, raw: seq<string>): seq<string> {
    var normalized := NormalizedList(raw, cfg.normalizer);
    if cfg.preserveRolePermOrder then FirstOccurrences(normalized) else SortedSet(normalized)
  }

  /** The refs one entry of the scope order contributes. */
  function KindRefs(kind: ScopeKind, claims: ActorClaims, roles: seq<string>, perms: seq<string>): seq<ScopeRef> {
    match kind
    case User => if claims.subjectId != "" then [ScopeRef(User, claims.subjectId, claims.tenantId, claims.orgId)] else []
    case Role => RolePermRefs(Role, roles, claims)
    case Perm => RolePermRefs(Perm, perms, claims)
    case Org => if claims.orgId != "" then [ScopeRef(Org, claims.orgId, claims.tenantId, claims.orgId)] else []
    case Tenant => if claims.tenantId != "" then [ScopeRef(Tenant, claims.tenantId, claims.tenantId, "")] else []
    case System => [SystemRef]
    case Unknown(_) => []
  }

  function ChainFrom(order: seq<ScopeKind>, claims: ActorClaims, roles: seq<string>, perms: seq<string>): seq<ScopeRef> {
    if order == [] then []
    else ChainFrom(order[..|order| - 1], claims, roles, perms) + KindRefs(order[|order| - 1], claims, roles, perms)
  }

  /** The chain buildChain derives from `claims`. */
  function BuiltChain(cfg: ChainConfig, claims: ActorClaims): seq<ScopeRef> {
    ChainFrom(cfg.scopeOrder, claims, Ids(cfg, claims.roles), Ids(cfg, claims.perms))
  }

  /** buildChain. */
  method BuildChain(cfg: ChainConfig, claims: ActorClaims) returns (chain: seq<ScopeRef>)
    ensures chain == BuiltChain(cfg, claims)
  {
    var roles := NormalizeList(claims.roles, cfg.normalizer);
    var perms := NormalizeList(claims.perms, cfg.normalizer);
    if !cfg.preserveRolePermOrder {
      roles := SortAndDedupe(roles);
      perms := SortAndDedupe(perms);
    } else {
      roles := DedupeStable(roles);
      perms := DedupeStable(perms);
    }
    chain := [];
    var order := cfg.scopeOrder;
    var i := 0;
    while i < |order|
      invariant 0 <= i <= |order|
      invariant chain == ChainFrom(order[..i], claims, roles, perms)
    {
      assert order[..i + 1][..i] == order[..i];
      match order[i] {
        case User =>
          if claims.subjectId != "" {
            chain := chain + [ScopeRef(User, claims.subjectId, claims.tenantId, claims.orgId)];
          }
        case Role =>
          var refs := BuildRolePermRefs(Role, roles, claims);
          chain := chain + refs;
        case Perm =>
          var refs := BuildRolePermRefs(Perm, perms, claims);
          chain := chain + refs;
        case Org =>
          if claims.orgId != "" {
            chain := chain + [ScopeRef(Org, claims.orgId, claims.tenantId, claims.orgId)];
          }
        case Tenant =>
          if claims.tenantId != "" {
            chain := chain + [ScopeRef(Tenant, claims.tenantId, claims.tenantId, "")];
          }
        case System =>
          chain := chain + [SystemRef];
        case Unknown(_) =>
      }
      i := i + 1;
    }
    assert order[..i] == order;
  }

  /** Every ref of the chain comes from an entry of the scope order of the same kind. */
  lemma {:induction false} ChainFromKinds(order: seq<ScopeKind>, claims: ActorClaims, roles: seq<string>, perms: seq<string>)
    ensures forall ref :: ref in ChainFrom(order, claims, roles, perms) ==> ref.kind in order
  {
    if order != [] {
      var p := order[..|order| - 1];
      var k := order[|order| - 1];
      ChainFromKinds(p, claims, roles, perms);
      RolePermRefsMembers(Role, roles, claims);
      RolePermRefsMembers(Perm, perms, claims);
      forall ref | ref in KindRefs(k, claims, roles, perms) ensures ref.kind == k { }
    }
  }

  /** A ref of one kind in the chain comes from that kind's contribution. */
  lemma {:induction false} ChainFromMembers(order: seq<ScopeKind>, claims: ActorClaims, roles: seq<string>, perms: seq<string>, ref: ScopeRef)
    ensures ref in ChainFrom(order, claims, roles, perms) <==> ref.kind in order && ref in KindRefs(ref.kind, claims, roles, perms)
  {
    if order != [] {
      var p := order[..|order| - 1];
      var k := order[|order| - 1];
      ChainFromMembers(p, claims, roles, perms, ref);
      RolePermRefsMembers(Role, roles, claims);
      RolePermRefsMembers(Perm, perms, claims);
      assert order == p + [k];
      if ref in KindRefs(k, claims, roles, perms) {
        assert ref.kind == k;
      }
    }
  }

  /**
   * The user, org and tenant refs are there exactly when their id is
   * non-empty (and their kind is in the scope order); the system ref is
   * there exactly when System is in the scope order.
   */
  lemma BuiltChainFixedRefs(cfg: ChainConfig, claims: ActorClaims)
    ensures ScopeRef(User, claims.subjectId, claims.tenantId, claims.orgId) in BuiltChain(cfg, claims) <==>
              User in cfg.scopeOrder && claims.subjectId != ""
    ensures ScopeRef(Org, claims.orgId, claims.tenantId, claims.orgId) in BuiltChain(cfg, claims) <==>
              Org in cfg.scopeOrder && claims.orgId != ""
    ensures ScopeRef(Tenant, claims.tenantId, claims.tenantId, "") in BuiltChain(cfg, claims) <==>
              Tenant in cfg.scopeOrder && claims.tenantId != ""
    ensures SystemRef in BuiltChain(cfg, claims) <==> System in cfg.scopeOrder
  {
    var roles := Ids(cfg, claims.roles);
    var perms := Ids(cfg, claims.perms);
    ChainFromMembers(cfg.scopeOrder, claims, roles, perms, ScopeRef(User, claims.subjectId, claims.tenantId, claims.orgId));
    ChainFromMembers(cfg.scopeOrder, claims, roles, perms, ScopeRef(Org, claims.orgId, claims.tenantId, claims.orgId));
    ChainFromMembers(cfg.scopeOrder, claims, roles, perms, ScopeRef(Tenant, claims.tenantId, claims.tenantId, ""));
    ChainFromMembers(cfg.scopeOrder, claims, roles, perms, SystemRef);
  }

  /**
   * Role refs: a global ref for each distinct normalised, non-blank role,
   * plus the qualified copy when a tenant or org id is present; the same
   * holds for perms.
   */
  lemma BuiltChainRoleRefs(cfg: ChainConfig, claims: ActorClaims, ref: ScopeRef)
    requires ref.kind == Role || ref.kind == Perm
    ensures ref in BuiltChain(cfg, claims) <==>
              ref.kind in cfg.scopeOrder && ref.id in NormalizedList(RawIds(ref.kind, claims), cfg.normalizer)
              && ((ref.tenantId == "" && ref.orgId == "")
                  || (Qualified(claims) && ref.tenantId == claims.tenantId && ref.orgId == claims.orgId))
  {
    var roles := Ids(cfg, claims.roles);
    var perms := Ids(cfg, claims.perms);
    var ids := Ids(cfg, RawIds(ref.kind, claims));
    assert ids == (if ref.kind == Role then roles else perms);
    ChainFromMembers(cfg.scopeOrder, claims, roles, perms, ref);
    assert ref in KindRefs(ref.kind, claims, roles, perms) <==> ref in RolePermRefs(ref.kind, ids, claims);
    RolePermRefsMembers(ref.kind, ids, claims);
    IdsElems(cfg, RawIds(ref.kind, claims));
    assert ref.id in ids <==> ref.id in NormalizedList(RawIds(ref.kind, claims), cfg.normalizer) by {
      assert ref.id in ids <==> ref.id in Elems(ids);
    }
    NormalizedListMembers(RawIds(ref.kind, claims), cfg.normalizer);
  }

  function RawIds(kind: ScopeKind, claims: ActorClaims): seq<string> {
    if kind == Role then claims.roles else claims.perms
  }

  lemma IdsElems(cfg: ChainConfig, raw: seq<string>)
    ensures Elems(Ids(cfg, raw)) == Elems(NormalizedList(raw, cfg.normalizer))
    ensures NoDups(Ids(cfg, raw))
  {
    FirstOccurrencesProps(NormalizedList(raw, cfg.normalizer));
    StrictlySortedNoDups(SortedSet(NormalizedList(raw, cfg.normalizer)));
  }

  /**
   * With the default sorted mode the chain does not depend on the order in
   * which roles or perms were granted, nor on repeats.
   */
  lemma BuiltChainGrantOrderIndependent(cfg: ChainConfig, c1: ActorClaims, c2: ActorClaims)
    requires !cfg.preserveRolePermOrder
    requires c1.subjectId == c2.subjectId && c1.tenantId == c2.tenantId && c1.orgId == c2.orgId
    requires Elems(c1.roles) == Elems(c2.roles) && Elems(c1.perms) == Elems(c2.perms)
    ensures BuiltChain(cfg, c1) == BuiltChain(cfg, c2)
  {
    NormalizedSameElems(c1.roles, c2.roles, cfg.normalizer);
    NormalizedSameElems(c1.perms, c2.perms, cfg.normalizer);
    SortedSetOrderIndependent(NormalizedList(c1.roles, cfg.normalizer), NormalizedList(c2.roles, cfg.normalizer));
    SortedSetOrderIndependent(NormalizedList(c1.perms, cfg.normalizer), NormalizedList(c2.perms, cfg.normalizer));
    assert c1.(roles := c2.roles, perms := c2.perms) == c2;
    ChainFromClaimIds(cfg.scopeOrder, c1, c2, Ids(cfg, c1.roles), Ids(cfg, c1.perms));
  }

  lemma {:induction false} ChainFromClaimIds(order: seq<ScopeKind>, c1: ActorClaims, c2: ActorClaims, roles: seq<string>, perms: seq<string>)
    requires c1.subjectId == c2.subjectId && c1.tenantId == c2.tenantId && c1.orgId == c2.orgId
    ensures ChainFrom(order, c1, roles, perms) == ChainFrom(order, c2, roles, perms)
  {
    if order != [] {
      ChainFromClaimIds(order[..|order| - 1], c1, c2, roles, perms);
      KindRefsClaims(order[|order| - 1], c1, c2, roles, perms);
    }
  }

  lemma KindRefsClaims(kind: ScopeKind, c1: ActorClaims, c2: ActorClaims, roles: seq<string>, perms: seq<string>)
    requires c1.subjectId == c2.subjectId && c1.tenantId == c2.tenantId && c1.orgId == c2.orgId
    ensures KindRefs(kind, c1, roles, perms) == KindRefs(kind, c2, roles, perms)
  {
    if kind == Role {
      RolePermRefsClaims(Role, roles, c1, c2);
    } else if kind == Perm {
      RolePermRefsClaims(Perm, perms, c1, c2);
    }
  }

  lemma {:induction false} RolePermRefsClaims(kind: ScopeKind, items: seq<string>, c1: ActorClaims, c2: ActorClaims)
    requires c1.tenantId == c2.tenantId && c1.orgId == c2.orgId
    ensures RolePermRefs(kind, items, c1) == RolePermRefs(kind, items, c2)
  {
    if items != [] { RolePermRefsClaims(kind, items[..|items| - 1], c1, c2); }
  }

  lemma NormalizedSameElems(a: seq<string>, b: seq<string>, norm: Normalizer)
    requires Elems(a) == Elems(b)
    ensures Elems(NormalizedList(a, norm)) == Elems(NormalizedList(b, norm))
  {
    NormalizedListMembers(a, norm);
    NormalizedListMembers(b, norm);
    forall x | x in Elems(NormalizedList(a, norm)) ensures x in Elems(NormalizedList(b, norm)) {
      var i :| 0 <= i < |a| && Kept(a[i], norm) && norm(TrimSpace(a[i])) == x;
      assert a[i] in Elems(b);
      var j :| 0 <= j < |b| && b[j] == a[i];
    }
    forall x | x in Elems(NormalizedList(b, norm)) ensures x in Elems(NormalizedList(a, norm)) {
      var i :| 0 <= i < |b| && Kept(b[i], norm) && norm(TrimSpace(b[i])) == x;
      assert b[i] in Elems(a);
      var j :| 0 <= j < |a| && a[j] == b[i];
    }
  }

  // ---------------------------------------------------------------- normalizeScopeRef

  /** normalizeScopeRef: ids trimmed; role and perm ids also normalised. */
  function NormalizeScopeRef(norm: Normalizer, ref: ScopeRef): (r: ScopeRef)
    ensures r.kind == ref.kind && r.tenantId == TrimSpace(ref.tenantId) && r.orgId == TrimSpace(ref.orgId)
    ensures r.id == (if ref.kind == Role || ref.kind == Perm then norm(TrimSpace(ref.id)) else TrimSpace(ref.id))
  {
    var trimmed := ref.(id := TrimSpace(ref.id), tenantId := TrimSpace(ref.tenantId), orgId := TrimSpace(ref.orgId));
    if trimmed.kind == Role || trimmed.kind == Perm then trimmed.(id := norm(trimmed.id)) else trimmed
  }

  /** Normalising a scope ref twice changes nothing more, when the normaliser yields trimmed, stable ids. */
  lemma NormalizeScopeRefIdempotent(norm: Normalizer, ref: ScopeRef)
    requires forall x :: TrimSpace(norm(x)) == norm(x) && norm(norm(x)) == norm(x)
    ensures NormalizeScopeRef(norm, NormalizeScopeRef(norm, ref)) == NormalizeScopeRef(norm, ref)
  {
    TrimSpaceIdempotent(ref.id);
    TrimSpaceIdempotent(ref.tenantId);
    TrimSpaceIdempotent(ref.orgId);
  }
}
