/**
 * The default resolution strategy: overrides found along a chain are
 * grouped (user, role_perm, org, tenant, system) in scope-order; the first
 * group whose matches decide wins. Within role_perm a deny wins; within
 * every other group the first concrete match in chain order wins.
 */
module Strategy {
  import opened Wrappers
  import opened Text
  import opened GateTypes
  import opened Overrides
  import Errors

  datatype Group = UserGroup | RolePermGroup | OrgGroup | TenantGroup | SystemGroup

  /** The group order used when the scope order names no known kind. */
  const DefaultGroups: seq<Group> := [UserGroup, RolePermGroup, OrgGroup, TenantGroup, SystemGroup]

  const DefaultName := "default"

  /** OverrideDecision. */
  datatype Decision = Decision(matched: bool, value: bool, matchRef: ScopeRef, matches: seq<OverrideMatch>, strategy: string)

  /** The zero OverrideDecision. */
  const ZeroDecision := Decision(false, false, SystemRef, [], "")

  /** The decision a strategy reports when nothing matched. */
  const NoMatch := Decision(false, false, SystemRef, [], DefaultName)

  /** ResolveStrategy: a pluggable strategy, given the key, chain, matches and scope order. */
  type StrategyFn = (string, ScopeChain, seq<OverrideMatch>, seq<ScopeKind>) -> (Decision, ResolveTrace, Option<Errors.Error>)

  // ---------------------------------------------------------------- normalizeMatches

  function NormalizedMatch(m: OverrideMatch): OverrideMatch {
    if m.override.state == Blank then m.(override := m.override.(state := Missing)) else m
  }

  function NormalizedMatches(ms: seq<OverrideMatch>): seq<OverrideMatch> {
    seq(|ms|, i requires 0 <= i < |ms| => NormalizedMatch(ms[i]))
  }

  /**
   * After normalisation no match has the empty state; an empty state
   * becomes missing, every other match is unchanged, and normalising again
   * changes nothing.
   */
  lemma NormalizedMatchesProps(ms: seq<OverrideMatch>)
    ensures |NormalizedMatches(ms)| == |ms|
    ensures forall i :: 0 <= i < |ms| ==> NormalizedMatches(ms)[i].override.state != Blank
    ensures forall i :: 0 <= i < |ms| ==>
              NormalizedMatches(ms)[i].scope == ms[i].scope && NormalizedMatches(ms)[i].override.value == ms[i].override.value
    ensures forall i :: 0 <= i < |ms| && ms[i].override.state != Blank ==> NormalizedMatches(ms)[i] == ms[i]
    ensures forall i :: 0 <= i < |ms| && ms[i].override.state == Blank ==>
              NormalizedMatches(ms)[i].override.state == Missing
    ensures NormalizedMatches(NormalizedMatches(ms)) == NormalizedMatches(ms)
  {
  }

  /** normalizeMatches: rewrites the empty state to missing, in place. */
  method NormalizeMatches(a: array<OverrideMatch>)
    modifies a
    ensures a[..] == NormalizedMatches(old(a[..]))
  {
    var i := 0;
    while i < a.Length
      invariant 0 <= i <= a.Length
      invariant forall k :: 0 <= k < i ==> a[k] == NormalizedMatch(old(a[k]))
      invariant forall k :: i <= k < a.Length ==> a[k] == old(a[k])
    {
      if a[i].override.state == Blank {
        a[i] := a[i].(override := a[i].override.(state := Missing));
      }
      i := i + 1;
    }
  }

  // ---------------------------------------------------------------- toMatchTraces

  function MatchTrace(m: OverrideMatch): OverrideMatchTrace {
    OverrideMatchTrace(m.scope, m.override.state, ValueOf(m.override))
  }

  function MatchTraces(ms: seq<OverrideMatch>): seq<OverrideMatchTrace> {
    seq(|ms|, i requires 0 <= i < |ms| => MatchTrace(ms[i]))
  }

  /** toMatchTraces. */
  method ToMatchTraces(ms: seq<OverrideMatch>) returns (out: seq<OverrideMatchTrace>)
    ensures out == MatchTraces(ms)
  {
    out := [];
    var i := 0;
    while i < |ms|
      invariant 0 <= i <= |ms|
      invariant out == MatchTraces(ms[..i])
    {
      out := out + [MatchTrace(ms[i])];
      i := i + 1;
    }
    assert ms[..i] == ms;
  }

  // ---------------------------------------------------------------- scopeKey

  /** scopeKindString. */
  function ScopeKindString(kind: ScopeKind): string {
    match kind
    case System => "system"
    case Tenant => "tenant"
    case Org => "org"
    case User => "user"
    case Role => "role"
    case Perm => "perm"
    case Unknown(_) => "unknown"
  }

  /** The kind strings tell the known kinds apart, and none contains '|'. */
  lemma ScopeKindStringInjective(a: ScopeKind, b: ScopeKind)
    requires !a.Unknown?
    ensures ScopeKindString(a) == ScopeKindString(b) <==> a == b
    ensures '|' !in ScopeKindString(a) && '|' !in ScopeKindString(b)
  {
  }

  /** scopeKey: kind, tenant, org and id joined with '|'. */
  function ScopeKey(ref: ScopeRef): string {
    Join([ScopeKindString(ref.kind), ref.tenantId, ref.orgId, ref.id], '|')
  }

  lemma ScopeKeyShape(r: ScopeRef)
    ensures ScopeKey(r) == ScopeKindString(r.kind) + ['|'] + (r.tenantId + ['|'] + (r.orgId + ['|'] + r.id))
  {
    var parts := [ScopeKindString(r.kind), r.tenantId, r.orgId, r.id];
    assert parts[1..] == [r.tenantId, r.orgId, r.id];
    assert parts[1..][1..] == [r.orgId, r.id];
    assert parts[1..][1..][1..] == [r.id];
    assert Join([r.orgId, r.id], '|') == r.orgId + ['|'] + r.id;
    assert Join([r.tenantId, r.orgId, r.id], '|') == r.tenantId + ['|'] + (r.orgId + ['|'] + r.id);
  }

  /** The key of a ref whose kind is known and whose tenant and org ids have no '|' identifies it. */
  lemma ScopeKeyInjective(a: ScopeRef, b: ScopeRef)
    requires !a.kind.Unknown?
    requires '|' !in a.tenantId && '|' !in a.orgId && '|' !in b.tenantId && '|' !in b.orgId
    ensures ScopeKey(a) == ScopeKey(b) <==> a == b
  {
    ScopeKindStringInjective(a.kind, b.kind);
    var ka := ScopeKindString(a.kind);
    var kb := ScopeKindString(b.kind);
    ScopeKeyShape(a);
    ScopeKeyShape(b);
    if ScopeKey(a) == ScopeKey(b) {
      SepJoinInjective(ka, a.tenantId + ['|'] + (a.orgId + ['|'] + a.id), kb, b.tenantId + ['|'] + (b.orgId + ['|'] + b.id), '|');
      SepJoinInjective(a.tenantId, a.orgId + ['|'] + a.id, b.tenantId, b.orgId + ['|'] + b.id, '|');
      SepJoinInjective(a.orgId, a.id, b.orgId, b.id, '|');
    }
  }

  /** Without that restriction two different refs can share a key. */
  lemma ScopeKeyCollision()
    ensures ScopeRef(User, "u", "a|b", "") != ScopeRef(User, "u", "a", "b|")
    ensures ScopeKey(ScopeRef(User, "u", "a|b", "")) == ScopeKey(ScopeRef(User, "u", "a", "b|"))
  {
    ScopeKeyShape(ScopeRef(User, "u", "a|b", ""));
    ScopeKeyShape(ScopeRef(User, "u", "a", "b|"));
    assert ScopeKindString(User) == "user";
    assert "user" + ['|'] + ("a|b" + ['|'] + ("" + ['|'] + "u")) == "user|a|b||u";
    assert "user" + ['|'] + ("a" + ['|'] + ("b|" + ['|'] + "u")) == "user|a|b||u";
  }

  /** The key the corrected strategy indexes matches by: the scope ref itself. */
  function RefKey(ref: ScopeRef): ScopeRef { ref }

  // ---------------------------------------------------------------- match index

  /** The match map built from `ms` under `key`; a later match overwrites an earlier one with the same key. */
  function IndexBy<K(==)>(ms: seq<OverrideMatch>, key: ScopeRef -> K): map<K, OverrideMatch> {
    if ms == [] then map[]
    else IndexBy(ms[..|ms| - 1], key)[key(ms[|ms| - 1].scope) := ms[|ms| - 1]]
  }

  /** A key is indexed iff some match has it, and it maps to the last such match. */
  lemma {:induction false} IndexByLast<K>(ms: seq<OverrideMatch>, key: ScopeRef -> K, k: K)
    ensures k in IndexBy(ms, key) <==> exists i :: 0 <= i < |ms| && key(ms[i].scope) == k
    ensures k in IndexBy(ms, key) ==>
              exists i :: 0 <= i < |ms| && key(ms[i].scope) == k && IndexBy(ms, key)[k] == ms[i]
                       && forall j :: i < j < |ms| ==> key(ms[j].scope) != k
  {
    if ms != [] {
      var p := ms[..|ms| - 1];
      IndexByLast(p, key, k);
      assert forall i :: 0 <= i < |p| ==> p[i] == ms[i];
      if key(ms[|ms| - 1].scope) != k && k in IndexBy(ms, key) {
        var i :| 0 <= i < |p| && key(p[i].scope) == k && IndexBy(p, key)[k] == p[i]
                 && forall j :: i < j < |p| ==> key(p[j].scope) != k;
        assert forall j :: i < j < |ms| ==> key(ms[j].scope) != k;
      }
    }
  }

  /** Under a key that tells `ref` apart from every other match scope, both indexes agree at `ref`. */
  lemma {:induction false} IndexByAgrees(ms: seq<OverrideMatch>, ref: ScopeRef)
    requires forall i :: 0 <= i < |ms| ==> (ScopeKey(ms[i].scope) == ScopeKey(ref) <==> ms[i].scope == ref)
    ensures (ScopeKey(ref) in IndexBy(ms, ScopeKey)) == (ref in IndexBy(ms, RefKey))
    ensures ref in IndexBy(ms, RefKey) ==> IndexBy(ms, ScopeKey)[ScopeKey(ref)] == IndexBy(ms, RefKey)[ref]
  {
    if ms != [] {
      IndexByAgrees(ms[..|ms| - 1], ref);
    }
  }

  /** matchMap construction: the loop over the matches. */
  method BuildIndex(ms: seq<OverrideMatch>) returns (index: map<ScopeRef, OverrideMatch>)
    ensures index == IndexBy(ms, RefKey)
  {
    index := map[];
    var i := 0;
    while i < |ms|
      invariant 0 <= i <= |ms|
      invariant index == IndexBy(ms[..i], RefKey)
    {
      assert ms[..i + 1][..i] == ms[..i];
      index := index[RefKey(ms[i].scope) := ms[i]];
      i := i + 1;
    }
    assert ms[..i] == ms;
  }

  // ---------------------------------------------------------------- groups

  /** scopeKindInGroup. */
  predicate KindInGroup(kind: ScopeKind, group: Group) {
    match group
    case UserGroup => kind == User
    case RolePermGroup => kind == Role || kind == Perm
    case OrgGroup => kind == Org
    case TenantGroup => kind == Tenant
    case SystemGroup => kind == System
  }

  /** The group a scope kind belongs to, if any. */
  function GroupOf(kind: ScopeKind): (r: Option<Group>)
    ensures r.Some? <==> !kind.Unknown?
    ensures forall g :: KindInGroup(kind, g) <==> r == Some(g)
  {
    match kind
    case User => Some(UserGroup)
    case Role => Some(RolePermGroup)
    case Perm => Some(RolePermGroup)
    case Org => Some(OrgGroup)
    case Tenant => Some(TenantGroup)
    case System => Some(SystemGroup)
    case Unknown(_) => None
  }

  /** The groups the scope order lists, role_perm kept only at its first occurrence. */
  function GroupsFrom(order: seq<ScopeKind>): seq<Group> {
    if order == [] then []
    else
      var prev := GroupsFrom(order[..|order| - 1]);
      match GroupOf(order[|order| - 1])
      case None => prev
      case Some(g) => if g == RolePermGroup && RolePermGroup in prev then prev else prev + [g]
  }

  /** The groups of the kinds other than role and perm, in order. */
  function PlainGroups(order: seq<ScopeKind>): seq<Group> {
    if order == [] then []
    else
      var prev := PlainGroups(order[..|order| - 1]);
      match GroupOf(order[|order| - 1])
      case None => prev
      case Some(g) => if g == RolePermGroup then prev else prev + [g]
  }

  /** groupOrderFor. */
  function GroupOrder(order: seq<ScopeKind>): seq<Group> {
    if GroupsFrom(order) == [] then DefaultGroups else GroupsFrom(order)
  }

  /** A group is listed iff some kind of the scope order belongs to it. */
  lemma {:induction false} GroupsFromMembers(order: seq<ScopeKind>, g: Group)
    ensures g in GroupsFrom(order) <==> exists i :: 0 <= i < |order| && GroupOf(order[i]) == Some(g)
  {
    if order != [] {
      var p := order[..|order| - 1];
      GroupsFromMembers(p, g);
      assert forall i :: 0 <= i < |p| ==> p[i] == order[i];
      if g in GroupsFrom(order) && !(g in GroupsFrom(p)) {
        assert GroupOf(order[|order| - 1]) == Some(g);
      }
    }
  }

  /** role_perm is listed at most once. */
  lemma {:induction false} RolePermOnce(order: seq<ScopeKind>)
    ensures forall i, j :: 0 <= i < j < |GroupOrder(order)| && GroupOrder(order)[i] == RolePermGroup
              ==> GroupOrder(order)[j] != RolePermGroup
  {
    GroupsFromRolePermOnce(order);
  }

  lemma {:induction false} GroupsFromRolePermOnce(order: seq<ScopeKind>)
    ensures forall i, j :: 0 <= i < j < |GroupsFrom(order)| && GroupsFrom(order)[i] == RolePermGroup
              ==> GroupsFrom(order)[j] != RolePermGroup
  {
    if order != [] {
      var p := order[..|order| - 1];
      GroupsFromRolePermOnce(p);
      var prev := GroupsFrom(p);
      forall i, j | 0 <= i < j < |GroupsFrom(order)| && GroupsFrom(order)[i] == RolePermGroup
        ensures GroupsFrom(order)[j] != RolePermGroup
      {
        if j >= |prev| {
          assert prev[i] == RolePermGroup;
        }
      }
    }
  }

  /** With no role or perm kind in the order, the listed groups are the plain ones. */
  lemma {:induction false} GroupsFromPlain(order: seq<ScopeKind>)
    requires forall i :: 0 <= i < |order| ==> order[i] != Role && order[i] != Perm
    ensures GroupsFrom(order) == PlainGroups(order)
  {
    if order != [] {
      GroupsFromPlain(order[..|order| - 1]);
    }
  }

  /**
   * role_perm takes the place of the first role or perm kind; after it
   * every other kind contributes its own group, in order.
   */
  lemma {:induction false} RolePermPlacement(order: seq<ScopeKind>, k: nat)
    requires k < |order| && (order[k] == Role || order[k] == Perm)
    requires forall i :: 0 <= i < k ==> order[i] != Role && order[i] != Perm
    ensures GroupsFrom(order) == GroupsFrom(order[..k]) + [RolePermGroup] + PlainGroups(order[k + 1..])
    ensures RolePermGroup !in GroupsFrom(order[..k])
  {
    var pre := order[..k];
    assert forall i :: 0 <= i < |pre| ==> pre[i] == order[i];
    GroupsFromMembers(pre, RolePermGroup);
    if |order| == k + 1 {
      assert order[..|order| - 1] == pre;
      assert order[k + 1..] == [];
    } else {
      var p := order[..|order| - 1];
      assert p[..k] == pre && p[k] == order[k];
      assert forall i :: 0 <= i < k ==> p[i] == order[i];
      RolePermPlacement(p, k);
      assert order[k + 1..][..|order[k + 1..]| - 1] == p[k + 1..];
      assert order[k + 1..][|order[k + 1..]| - 1] == order[|order| - 1];
    }
  }

  /** With no known kind in the order, the five default groups are used. */
  lemma GroupOrderDefault(order: seq<ScopeKind>)
    requires forall i :: 0 <= i < |order| ==> order[i].Unknown?
    ensures GroupOrder(order) == DefaultGroups
  {
    if GroupsFrom(order) != [] {
      GroupsFromMembers(order, GroupsFrom(order)[0]);
    }
  }

  /** The default scope order gives the default groups. */
  lemma DefaultOrderGroups()
    ensures GroupOrder([User, Role, Perm, Org, Tenant, System]) == DefaultGroups
  {
    var o := [User, Role, Perm, Org, Tenant, System];
    assert o[..0] == [];
    assert o[..1] == [User];
    assert o[..2] == [User, Role];
    assert o[..3] == [User, Role, Perm];
    assert o[..4] == [User, Role, Perm, Org];
    assert o[..5] == [User, Role, Perm, Org, Tenant];
    assert o[..1][..0] == o[..0] && o[..2][..1] == o[..1] && o[..3][..2] == o[..2];
    assert o[..4][..3] == o[..3] && o[..5][..4] == o[..4] && o[..5] == o[..|o| - 1];
    assert GroupsFrom(o[..1]) == [UserGroup];
    assert GroupsFrom(o[..2]) == [UserGroup, RolePermGroup];
    assert RolePermGroup in GroupsFrom(o[..2]);
    assert GroupsFrom(o[..3]) == [UserGroup, RolePermGroup];
    assert GroupsFrom(o[..4]) == [UserGroup, RolePermGroup, OrgGroup];
    assert GroupsFrom(o[..5]) == [UserGroup, RolePermGroup, OrgGroup, TenantGroup];
    assert o[..6] == o;
  }

  /** groupOrderFor, with its containsGroup check. */
  method GroupOrderFor(order: seq<ScopeKind>) returns (groups: seq<Group>)
    ensures groups == GroupOrder(order)
  {
    groups := [];
    var i := 0;
    while i < |order|
      invariant 0 <= i <= |order|
      invariant groups == GroupsFrom(order[..i])
    {
      assert order[..i + 1][..i] == order[..i];
      match order[i] {
        case User => groups := groups + [UserGroup];
        case Role =>
          if RolePermGroup !in groups { groups := groups + [RolePermGroup]; }
        case Perm =>
          if RolePermGroup !in groups { groups := groups + [RolePermGroup]; }
        case Org => groups := groups + [OrgGroup];
        case Tenant => groups := groups + [TenantGroup];
        case System => groups := groups + [SystemGroup];
        case Unknown(_) =>
      }
      i := i + 1;
    }
    assert order[..i] == order;
    if groups == [] {
      groups := DefaultGroups;
    }
  }

  // ---------------------------------------------------------------- collectGroupMatches

  /** The matches of the chain refs that belong to `group`, in chain order. */
  function GroupMembers<K(==)>(group: Group, chain: ScopeChain, index: map<K, OverrideMatch>, key: ScopeRef -> K): seq<OverrideMatch> {
    if chain == [] then []
    else
      var prev := GroupMembers(group, chain[..|chain| - 1], index, key);
      var ref := chain[|chain| - 1];
      if KindInGroup(ref.kind, group) && key(ref) in index then prev + [index[key(ref)]] else prev
  }

  /**
   * With matches indexed by their scope, the members of a group are matches
   * whose scope is a ref of the chain in that group; every such scope with a
   * match contributes.
   */
  lemma {:induction false} GroupMembersFromChain(group: Group, chain: ScopeChain, ms: seq<OverrideMatch>)
    ensures forall m :: m in GroupMembers(group, chain, IndexBy(ms, RefKey), RefKey) ==>
              m in ms && m.scope in chain && KindInGroup(m.scope.kind, group)
    ensures forall i :: 0 <= i < |ms| && ms[i].scope in chain && KindInGroup(ms[i].scope.kind, group) ==>
              exists m :: m in GroupMembers(group, chain, IndexBy(ms, RefKey), RefKey) && m.scope == ms[i].scope
  {
    if chain != [] {
      var p := chain[..|chain| - 1];
      var ref := chain[|chain| - 1];
      GroupMembersFromChain(group, p, ms);
      assert chain == p + [ref];
      var index := IndexBy(ms, RefKey);
      IndexByLast(ms, RefKey, ref);
      forall i | 0 <= i < |ms| && ms[i].scope in chain && KindInGroup(ms[i].scope.kind, group)
        ensures exists m :: m in GroupMembers(group, chain, index, RefKey) && m.scope == ms[i].scope
      {
        if ms[i].scope == ref {
          var j :| 0 <= j < |ms| && RefKey(ms[j].scope) == ref && index[ref] == ms[j];
          assert index[ref] in GroupMembers(group, chain, index, RefKey);
        } else {
          assert ms[i].scope in p;
        }
      }
      if KindInGroup(ref.kind, group) && ref in index {
        var j :| 0 <= j < |ms| && RefKey(ms[j].scope) == ref && index[ref] == ms[j];
        assert index[ref].scope == ref && index[ref] in ms;
      }
    }
  }

  /**
   * The '|'-joined key of the source and the ref key agree on chains and
   * matches whose tenant and org ids contain no '|'.
   */
  lemma {:induction false} GroupMembersKeysAgree(group: Group, chain: ScopeChain, ms: seq<OverrideMatch>)
    requires forall i :: 0 <= i < |chain| ==> '|' !in chain[i].tenantId && '|' !in chain[i].orgId
    requires forall i :: 0 <= i < |ms| ==> '|' !in ms[i].scope.tenantId && '|' !in ms[i].scope.orgId
    ensures GroupMembers(group, chain, IndexBy(ms, ScopeKey), ScopeKey) == GroupMembers(group, chain, IndexBy(ms, RefKey), RefKey)
  {
    if chain != [] {
      var p := chain[..|chain| - 1];
      var ref := chain[|chain| - 1];
      GroupMembersKeysAgree(group, p, ms);
      if KindInGroup(ref.kind, group) {
        forall i | 0 <= i < |ms| ensures ScopeKey(ms[i].scope) == ScopeKey(ref) <==> ms[i].scope == ref {
          ScopeKeyInjective(ref, ms[i].scope);
        }
        IndexByAgrees(ms, ref);
      }
    }
  }

  /** As written, a match stored for another tenant's user is picked up through a key collision. */
  lemma KeyCollisionLeaks()
    ensures var asked := ScopeRef(User, "u", "a|b", "");
            var stored := OverrideMatch(ScopeRef(User, "u", "a", "b|"), DisabledOverride());
            GroupMembers(UserGroup, [asked], IndexBy([stored], ScopeKey), ScopeKey) == [stored]
            && GroupMembers(UserGroup, [asked], IndexBy([stored], RefKey), RefKey) == []
  {
    ScopeKeyCollision();
    var asked := ScopeRef(User, "u", "a|b", "");
    var stored := OverrideMatch(ScopeRef(User, "u", "a", "b|"), DisabledOverride());
    assert [asked][..0] == [] && [stored][..0] == [];
    assert IndexBy([stored], ScopeKey) == map[ScopeKey(stored.scope) := stored];
    assert IndexBy([stored], RefKey) == map[stored.scope := stored];
  }

  /** collectGroupMatches. */
  method CollectGroupMatches(group: Group, chain: ScopeChain, index: map<ScopeRef, OverrideMatch>) returns (out: seq<OverrideMatch>)
    ensures out == GroupMembers(group, chain, index, RefKey)
  {
    out := [];
    var i := 0;
    while i < |chain|
      invariant 0 <= i <= |chain|
      invariant out == GroupMembers(group, chain[..i], index, RefKey)
    {
      assert chain[..i + 1][..i] == chain[..i];
      var ref := chain[i];
      if KindInGroup(ref.kind, group) && RefKey(ref) in index {
        out := out + [index[RefKey(ref)]];
      }
      i := i + 1;
    }
    assert chain[..i] == chain;
  }

  // ---------------------------------------------------------------- evaluateGroup

  /** The first index whose state is in `states`. */
  function FirstIn(ms: seq<OverrideMatch>, states: set<OverrideState>): (r: Option<nat>)
    ensures r.Some? ==> r.value < |ms| && ms[r.value].override.state in states
    ensures r.Some? ==> forall j :: 0 <= j < r.value ==> ms[j].override.state !in states
    ensures r.None? <==> forall j :: 0 <= j < |ms| ==> ms[j].override.state !in states
  {
    if ms == [] then None
    else if ms[0].override.state in states then Some(0)
    else
      match FirstIn(ms[1..], states)
      case None => None
      case Some(i) => Some(i + 1)
  }

  /** The index of the deciding match of a group, if any. */
  function Pick(group: Group, ms: seq<OverrideMatch>): Option<nat> {
    if group == RolePermGroup then
      (if FirstIn(ms, {Disabled}).Some? then FirstIn(ms, {Disabled}) else FirstIn(ms, {Enabled}))
    else FirstIn(ms, {Enabled, Disabled})
  }

  /** evaluateGroup: the decision and the override trace of one group. */
  function Evaluate(group: Group, ms: seq<OverrideMatch>): (Decision, OverrideTrace) {
    var trace := OverrideTrace(Missing, None, None, SystemRef, MatchTraces(ms));
    match Pick(group, ms)
    case None => (NoMatch, trace)
    case Some(i) =>
      var v := ms[i].override.state == Enabled;
      (Decision(true, v, ms[i].scope, ms, DefaultName),
       trace.(state := ms[i].override.state, value := Some(v), matched := ms[i].scope))
  }

  /** A group decides iff one of its matches is enabled or disabled; missing and unset never decide. */
  lemma EvaluateDecidesIffConcrete(group: Group, ms: seq<OverrideMatch>)
    ensures Evaluate(group, ms).0.matched <==> exists i :: 0 <= i < |ms| && ms[i].override.HasValue()
    ensures Evaluate(group, ms).1.matches == MatchTraces(ms)
    ensures !Evaluate(group, ms).0.matched ==> Evaluate(group, ms) == (NoMatch, OverrideTrace(Missing, None, None, SystemRef, MatchTraces(ms)))
  {
    if exists i :: 0 <= i < |ms| && ms[i].override.HasValue() {
      var i :| 0 <= i < |ms| && ms[i].override.HasValue();
      assert ms[i].override.state in {Enabled, Disabled};
      if group == RolePermGroup && ms[i].override.state == Enabled {
        assert ms[i].override.state in {Enabled};
      } else if group == RolePermGroup {
        assert ms[i].override.state in {Disabled};
      }
    }
  }

  /** In role_perm any disabled match wins, even after an enabled one: the first disabled scope decides false. */
  lemma RolePermDenyWins(ms: seq<OverrideMatch>, k: nat)
    requires k < |ms| && ms[k].override.state == Disabled
    ensures var (d, t) := Evaluate(RolePermGroup, ms);
            d.matched && !d.value && t.state == Disabled && t.value == Some(false)
            && exists i :: (0 <= i <= k && ms[i].override.state == Disabled && d.matchRef == ms[i].scope
                            && forall j :: 0 <= j < i ==> ms[j].override.state != Disabled)
  {
    assert ms[k].override.state in {Disabled};
  }

  /** In role_perm, with no disabled match, the first enabled match decides true. */
  lemma RolePermAllow(ms: seq<OverrideMatch>)
    requires forall j :: 0 <= j < |ms| ==> ms[j].override.state != Disabled
    ensures var (d, t) := Evaluate(RolePermGroup, ms);
            d.matched ==> d.value && t.state == Enabled
                          && exists i :: (0 <= i < |ms| && ms[i].override.state == Enabled && d.matchRef == ms[i].scope
                                          && forall j :: 0 <= j < i ==> ms[j].override.state != Enabled)
  {
    assert FirstIn(ms, {Disabled}).None?;
  }

  /** In every other group the first enabled or disabled match in chain order decides, with its own value. */
  lemma FirstConcreteWins(group: Group, ms: seq<OverrideMatch>)
    requires group != RolePermGroup
    ensures var (d, t) := Evaluate(group, ms);
            d.matched ==>
              exists i :: 0 <= i < |ms| && ms[i].override.HasValue()
                       && (forall j :: 0 <= j < i ==> !ms[j].override.HasValue())
                       && d.matchRef == ms[i].scope && d.value == (ms[i].override.state == Enabled)
                       && t.state == ms[i].override.state && t.matched == ms[i].scope
  {
  }

  /** evaluateGroup. */
  method EvaluateGroup(group: Group, ms: seq<OverrideMatch>) returns (d: Decision, t: OverrideTrace)
    ensures (d, t) == Evaluate(group, ms)
  {
    var traces := ToMatchTraces(ms);
    t := OverrideTrace(Missing, None, None, SystemRef, traces);
    if group == RolePermGroup {
      var i := 0;
      while i < |ms|
        invariant 0 <= i <= |ms|
        invariant forall j :: 0 <= j < i ==> ms[j].override.state != Disabled
      {
        if ms[i].override.state == Disabled {
          assert FirstIn(ms, {Disabled}) == Some(i);
          t := t.(state := Disabled, value := Some(false), matched := ms[i].scope);
          return Decision(true, false, ms[i].scope, ms, DefaultName), t;
        }
        i := i + 1;
      }
      assert FirstIn(ms, {Disabled}) == None;
      i := 0;
      while i < |ms|
        invariant 0 <= i <= |ms|
        invariant forall j :: 0 <= j < i ==> ms[j].override.state != Enabled
      {
        if ms[i].override.state == Enabled {
          assert FirstIn(ms, {Enabled}) == Some(i);
          t := t.(state := Enabled, value := Some(true), matched := ms[i].scope);
          return Decision(true, true, ms[i].scope, ms, DefaultName), t;
        }
        i := i + 1;
      }
      assert FirstIn(ms, {Enabled}) == None;
    } else {
      var i := 0;
      while i < |ms|
        invariant 0 <= i <= |ms|
        invariant forall j :: 0 <= j < i ==> ms[j].override.state !in {Enabled, Disabled}
      {
        if ms[i].override.state == Enabled {
          assert FirstIn(ms, {Enabled, Disabled}) == Some(i);
          t := t.(state := Enabled, value := Some(true), matched := ms[i].scope);
          return Decision(true, true, ms[i].scope, ms, DefaultName), t;
        }
        if ms[i].override.state == Disabled {
          assert FirstIn(ms, {Enabled, Disabled}) == Some(i);
          t := t.(state := Disabled, value := Some(false), matched := ms[i].scope);
          return Decision(true, false, ms[i].scope, ms, DefaultName), t;
        }
        i := i + 1;
      }
      assert FirstIn(ms, {Enabled, Disabled}) == None;
    }
    d := NoMatch;
  }

  // ---------------------------------------------------------------- defaultResolveStrategy

  /** The first of `groups` whose members decide, with that group's decision and trace. */
  function DecideGroups(groups: seq<Group>, chain: ScopeChain, index: map<ScopeRef, OverrideMatch>): Option<(Decision, OverrideTrace)> {
    if groups == [] then None
    else
      var members := GroupMembers(groups[0], chain, index, RefKey);
      if members != [] && Evaluate(groups[0], members).0.matched then Some(Evaluate(groups[0], members))
      else DecideGroups(groups[1..], chain, index)
  }

  /** The trace the default strategy starts from. */
  const StrategyTrace := ZeroTrace.(strategy := DefaultName)

  /** defaultResolveStrategy; it never fails. */
  function DefaultStrategy(chain: ScopeChain, ms: seq<OverrideMatch>, order: seq<ScopeKind>): (Decision, ResolveTrace) {
    var missing := StrategyTrace.(overrideTrace := ZeroOverrideTrace.(state := Missing));
    if ms == [] then (NoMatch, missing)
    else
      match DecideGroups(GroupOrder(order), chain, IndexBy(ms, RefKey))
      case None => (NoMatch, missing)
      case Some((d, t)) => (d, StrategyTrace.(overrideTrace := t))
  }

  /**
   * The first group, in group order, that has members and decides is the
   * one whose decision is returned; earlier groups had no members or no
   * concrete match.
   */
  lemma {:induction false} DecideGroupsFirst(groups: seq<Group>, chain: ScopeChain, index: map<ScopeRef, OverrideMatch>)
    ensures DecideGroups(groups, chain, index).Some? <==>
              exists g :: g in groups && Evaluate(g, GroupMembers(g, chain, index, RefKey)).0.matched
    ensures DecideGroups(groups, chain, index).Some? ==>
              exists k :: 0 <= k < |groups|
                && DecideGroups(groups, chain, index).value == Evaluate(groups[k], GroupMembers(groups[k], chain, index, RefKey))
                && DecideGroups(groups, chain, index).value.0.matched
                && forall j :: 0 <= j < k ==> !Evaluate(groups[j], GroupMembers(groups[j], chain, index, RefKey)).0.matched
  {
    if groups != [] {
      var tail := groups[1..];
      DecideGroupsFirst(tail, chain, index);
      var members := GroupMembers(groups[0], chain, index, RefKey);
      EvaluateDecidesIffConcrete(groups[0], members);
      assert forall g :: g in groups <==> g == groups[0] || g in tail;
      if members != [] && Evaluate(groups[0], members).0.matched {
        assert DecideGroups(groups, chain, index) == Some(Evaluate(groups[0], members));
        assert groups[0] in groups;
      } else {
        assert DecideGroups(groups, chain, index) == DecideGroups(tail, chain, index);
        assert !Evaluate(groups[0], members).0.matched;
        if DecideGroups(tail, chain, index).Some? {
          var k :| 0 <= k < |tail|
                   && DecideGroups(tail, chain, index).value == Evaluate(tail[k], GroupMembers(tail[k], chain, index, RefKey))
                   && DecideGroups(tail, chain, index).value.0.matched
                   && forall j :: 0 <= j < k ==> !Evaluate(tail[j], GroupMembers(tail[j], chain, index, RefKey)).0.matched;
          assert groups[k + 1] == tail[k];
          forall j | 0 <= j < k + 1 ensures !Evaluate(groups[j], GroupMembers(groups[j], chain, index, RefKey)).0.matched {
            if j > 0 { assert groups[j] == tail[j - 1]; }
          }
        }
      }
    }
  }

  /** A deciding group's decision names the scope of one of its concrete matches. */
  lemma EvaluateMatchFrom(group: Group, ms: seq<OverrideMatch>)
    requires Evaluate(group, ms).0.matched
    ensures exists m :: m in ms && m.scope == Evaluate(group, ms).0.matchRef && m.override.HasValue()
  {
    var i :| Pick(group, ms) == Some(i);
    assert ms[i] in ms;
  }

  /** A decision always comes from a match whose scope is a ref of the chain. */
  lemma DefaultStrategyMatchInChain(chain: ScopeChain, ms: seq<OverrideMatch>, order: seq<ScopeKind>)
    ensures var (d, _) := DefaultStrategy(chain, ms, order);
            d.matched ==> d.matchRef in chain && (exists m :: m in ms && m.scope == d.matchRef && m.override.HasValue())
  {
    var index := IndexBy(ms, RefKey);
    var groups := GroupOrder(order);
    DecideGroupsFirst(groups, chain, index);
    if ms != [] && DecideGroups(groups, chain, index).Some? {
      var k :| 0 <= k < |groups|
               && DecideGroups(groups, chain, index).value == Evaluate(groups[k], GroupMembers(groups[k], chain, index, RefKey))
               && DecideGroups(groups, chain, index).value.0.matched;
      var members := GroupMembers(groups[k], chain, index, RefKey);
      GroupMembersFromChain(groups[k], chain, ms);
      EvaluateMatchFrom(groups[k], members);
      var d := Evaluate(groups[k], members).0;
      assert DefaultStrategy(chain, ms, order).0 == d;
      var m :| m in members && m.scope == d.matchRef && m.override.HasValue();
      assert m in ms && m.scope in chain;
    }
  }

  /** A single concrete match decides any group it belongs to, with its own value. */
  lemma EvaluateSingle(group: Group, m: OverrideMatch)
    requires m.override.HasValue()
    ensures Evaluate(group, [m]).0.matched && Evaluate(group, [m]).0.value == (m.override.state == Enabled)
    ensures Evaluate(group, [m]).0.matchRef == m.scope
  {
    assert [m][0] == m;
    assert m.override.state in {Enabled, Disabled};
    if m.override.state == Disabled {
      assert m.override.state in {Disabled};
    } else {
      assert FirstIn([m], {Disabled}).None?;
    }
  }

  /**
   * When a group's members are just `m` for the groups holding m's kind and
   * nothing otherwise, the first such group in `groups` decides with m.
   */
  lemma {:induction false} DecideGroupsSingle(groups: seq<Group>, chain: ScopeChain, index: map<ScopeRef, OverrideMatch>, m: OverrideMatch)
    requires m.override.HasValue()
    requires forall g :: GroupMembers(g, chain, index, RefKey) == (if KindInGroup(m.scope.kind, g) then [m] else [])
    requires exists g :: g in groups && KindInGroup(m.scope.kind, g)
    ensures DecideGroups(groups, chain, index).Some?
    ensures var d := DecideGroups(groups, chain, index).value.0;
            d.matched && d.value == (m.override.state == Enabled) && d.matchRef == m.scope
  {
    var g0 := groups[0];
    if KindInGroup(m.scope.kind, g0) {
      EvaluateSingle(g0, m);
      assert GroupMembers(g0, chain, index, RefKey) == [m];
    } else {
      assert GroupMembers(g0, chain, index, RefKey) == [];
      var g :| g in groups && KindInGroup(m.scope.kind, g);
      assert g in groups[1..];
      DecideGroupsSingle(groups[1..], chain, index, m);
    }
  }

  /** Indexing one match by its ref gives the one-entry map. */
  lemma IndexSingle(m: OverrideMatch)
    ensures IndexBy([m], RefKey) == map[m.scope := m]
  {
    assert [m][..0] == [];
    assert IndexBy([m][..0], RefKey) == map[];
  }

  /** Over a one-ref chain, a group's members are that ref's match exactly when the group holds its kind. */
  lemma SingleMembers(g: Group, m: OverrideMatch)
    ensures GroupMembers(g, [m.scope], map[m.scope := m], RefKey) == (if KindInGroup(m.scope.kind, g) then [m] else [])
  {
    assert [m.scope][..0] == [];
    assert GroupMembers(g, [], map[m.scope := m], RefKey) == [];
  }

  /**
   * A chain of one ref with one concrete override at it: when the ref's
   * group is in the group order, the default strategy decides with that
   * override's value.
   */
  lemma SingleMatchDecides(ref: ScopeRef, o: Override, order: seq<ScopeKind>)
    requires o.HasValue() && GroupOf(ref.kind).Some? && GroupOf(ref.kind).value in GroupOrder(order)
    ensures var d := DefaultStrategy([ref], [OverrideMatch(ref, o)], order).0;
            d.matched && d.value == (o.state == Enabled) && d.matchRef == ref
  {
    var m := OverrideMatch(ref, o);
    IndexSingle(m);
    var index := map[ref := m];
    forall g ensures GroupMembers(g, [ref], index, RefKey) == (if KindInGroup(ref.kind, g) then [m] else []) {
      SingleMembers(g, m);
    }
    var g0 := GroupOf(ref.kind).value;
    assert KindInGroup(ref.kind, g0);
    DecideGroupsSingle(GroupOrder(order), [ref], index, m);
  }

  /** No matches at all: nothing decides and the override state is missing. */
  lemma DefaultStrategyEmpty(chain: ScopeChain, order: seq<ScopeKind>)
    ensures DefaultStrategy(chain, [], order).0 == NoMatch
    ensures DefaultStrategy(chain, [], order).1.overrideTrace.state == Missing
  {
  }

  /** defaultResolveStrategy. */
  method DefaultResolveStrategy(chain: ScopeChain, ms: seq<OverrideMatch>, order: seq<ScopeKind>)
    returns (d: Decision, trace: ResolveTrace, err: Option<Errors.Error>)
    ensures (d, trace) == DefaultStrategy(chain, ms, order) && err == None
  {
    err := None;
    trace := StrategyTrace;
    if |ms| == 0 {
      trace := trace.(overrideTrace := trace.overrideTrace.(state := Missing));
      return NoMatch, trace, err;
    }
    var index := BuildIndex(ms);
    var groups := GroupOrderFor(order);
    var i := 0;
    while i < |groups|
      invariant 0 <= i <= |groups|
      invariant DecideGroups(groups, chain, index) == DecideGroups(groups[i..], chain, index)
    {
      var members := CollectGroupMatches(groups[i], chain, index);
      assert groups[i..][0] == groups[i] && groups[i..][1..] == groups[i + 1..];
      if |members| != 0 {
        var decision, groupTrace := EvaluateGroup(groups[i], members);
        if decision.matched {
          trace := trace.(overrideTrace := groupTrace);
          return decision, trace, err;
        }
      }
      i := i + 1;
    }
    trace := trace.(overrideTrace := trace.overrideTrace.(state := Missing));
    d := NoMatch;
  }

  // ---------------------------------------------------------------- applyStrategy

  /** applyStrategy: the configured strategy, or the default one; an error is recorded in the override trace. */
  function ApplyStrategy(custom: Option<StrategyFn>, key: string, chain: ScopeChain, ms: seq<OverrideMatch>, order: seq<ScopeKind>)
    : (r: (Decision, ResolveTrace, Option<Errors.Error>))
    ensures custom.None? ==> r == (DefaultStrategy(chain, ms, order).0, DefaultStrategy(chain, ms, order).1, None)
    ensures r.2.Some? ==> r.1.overrideTrace.error == r.2
    ensures custom.Some? ==> r.0 == custom.value(key, chain, ms, order).0 && r.2 == custom.value(key, chain, ms, order).2
  {
    match custom
    case None => var (d, t) := DefaultStrategy(chain, ms, order); (d, t, None)
    case Some(f) =>
      var (d, t, err) := f(key, chain, ms, order);
      if err.Some? then (d, t.(overrideTrace := t.overrideTrace.(error := err)), err) else (d, t, err)
  }
}
