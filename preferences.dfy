/**
 * The go-options state store over a go-admin preferences store: a state
 * reference's scope picks a preference level and scope, the domain (or a
 * configured key prefix) prefixes every preference key, Load rebuilds a
 * nested snapshot from the flat preferences and Save writes a snapshot back
 * flattened, deleting the keys it no longer holds.
 */
module Preferences {
  import opened Wrappers
  import opened Text
  import opened Values
  import opened Errors
  import opened Paths
  import opened Flat
  import OptionsStore
  import GateTypes

  datatype Level = SystemLevel | TenantLevel | OrgLevel | UserLevel

  datatype PrefScope = PrefScope(tenantId: string, orgId: string, userId: string)

  const NoScope := PrefScope("", "", "")

  /** Where a preference lives in the preferences store. */
  type Slot = (Level, PrefScope)

  const PrefStoreRequiredError := WrapSentinel(PreferencesStoreRequired, "optionsadapter: preferences store is required")

  predicate Distinct(xs: seq<string>) {
    forall i, j :: 0 <= i < j < |xs| ==> xs[i] != xs[j]
  }

  // ---------------------------------------------------------------- prefixes and keys

  /** normalizePrefix: blank gives ""; otherwise the trimmed prefix, ending in one added '.' unless it has one. */
  function NormalizePrefix(prefix: string): (r: string)
    ensures r == "" <==> IsBlank(prefix)
    ensures r != "" ==> HasSuffix(r, ".") && HasPrefix(r, TrimSpace(prefix)) && |r| <= |TrimSpace(prefix)| + 1
    ensures r != "" && HasSuffix(TrimSpace(prefix), ".") ==> r == TrimSpace(prefix)
  {
    var t := TrimSpace(prefix);
    TrimSpaceEmptyIffBlank(prefix);
    if t == "" then ""
    else if HasSuffix(t, ".") then t
    else t + "."
  }

  lemma NormalizePrefixIdempotent(prefix: string)
    ensures NormalizePrefix(NormalizePrefix(prefix)) == NormalizePrefix(prefix)
  {
    var t := TrimSpace(prefix);
    var r := NormalizePrefix(prefix);
    if r != "" {
      TrimSpaceTrimmed(prefix);
      assert IsTrimmed(r) by {
        assert r[0] == t[0];
      }
      TrimSpaceOfTrimmed(r);
      TrimSpaceEmptyIffBlank(r);
    }
  }

  /** domainPrefix: the configured key prefix wins over the domain. */
  function DomainPrefix(keyPrefix: string, domain: string): (r: string)
    ensures keyPrefix != "" && !IsBlank(keyPrefix) ==> r == NormalizePrefix(keyPrefix) && r != ""
    ensures keyPrefix == "" ==> r == NormalizePrefix(domain)
    ensures r == "" || HasSuffix(r, ".")
  {
    if keyPrefix != "" then NormalizePrefix(keyPrefix) else NormalizePrefix(domain)
  }

  /** The keys WithKeys keeps: the trimmed keys, blanks dropped, in order. */
  function CleanedKeys(keys: seq<string>): (r: seq<string>)
    ensures |r| <= |keys|
    ensures forall i :: 0 <= i < |r| ==> r[i] != "" && IsTrimmed(r[i])
    ensures forall k :: k in keys && !IsBlank(k) ==> TrimSpace(k) in r
    ensures forall x :: x in r ==> exists k :: k in keys && TrimSpace(k) == x
  {
    if keys == [] then []
    else
      var init := CleanedKeys(keys[..|keys| - 1]);
      var last := keys[|keys| - 1];
      TrimSpaceEmptyIffBlank(last);
      TrimSpaceTrimmed(last);
      assert forall k :: k in keys ==> k in keys[..|keys| - 1] || k == last;
      if TrimSpace(last) == "" then init else init + [TrimSpace(last)]
  }

  /** WithKeys' cleaning loop. */
  method CleanKeys(keys: seq<string>) returns (cleaned: seq<string>)
    ensures cleaned == CleanedKeys(keys)
  {
    cleaned := [];
    var i := 0;
    while i < |keys|
      invariant 0 <= i <= |keys|
      invariant cleaned == CleanedKeys(keys[..i])
    {
      assert keys[..i + 1][..i] == keys[..i];
      var key := TrimSpace(keys[i]);
      if key != "" {
        cleaned := cleaned + [key];
      }
      i := i + 1;
    }
    assert keys[..i] == keys;
  }

  /** prefixedKeys: nil without keys, otherwise prefix+key for each key in order. */
  method PrefixedKeys(keys: seq<string>, prefix: string) returns (r: Option<seq<string>>)
    ensures r.None? <==> keys == []
    ensures r.Some? ==> |r.value| == |keys| && forall i :: 0 <= i < |keys| ==> r.value[i] == prefix + keys[i]
  {
    if |keys| == 0 {
      return None;
    }
    var out := [];
    var i := 0;
    while i < |keys|
      invariant 0 <= i <= |keys|
      invariant |out| == i && forall j :: 0 <= j < i ==> out[j] == prefix + keys[j]
    {
      if prefix == "" {
        out := out + [keys[i]];
      } else {
        out := out + [prefix + keys[i]];
      }
      i := i + 1;
    }
    return Some(out);
  }

  /** The set of preference keys a Load asks for; `None` asks for all. */
  function KeyFilter(keys: seq<string>, prefix: string): (r: Option<set<string>>)
    ensures r.None? <==> keys == []
    ensures r.Some? ==> forall k :: k in r.value <==> exists i :: 0 <= i < |keys| && k == prefix + keys[i]
  {
    if keys == [] then None else Some(set i | 0 <= i < |keys| :: prefix + keys[i])
  }

  lemma PrefixInjective(prefix: string, x: string, y: string)
    requires prefix + x == prefix + y
    ensures x == y
  {
    assert x == (prefix + x)[|prefix|..];
    assert y == (prefix + y)[|prefix|..];
  }

  /** withPrefix: the identity for an empty prefix, otherwise every key prefixed. */
  function PrefixedMap(values: map<string, Val>, prefix: string): (r: map<string, Val>)
    ensures prefix == "" ==> r == values
    ensures forall x :: x in values ==> prefix + x in r && r[prefix + x] == values[x]
    ensures forall k :: k in r ==> HasPrefix(k, prefix) && k[|prefix|..] in values
    ensures |r| == |values|
  {
    if prefix == "" then
      assert forall x :: prefix + x == x;
      values
    else
      var ks := set x | x in values :: prefix + x;
      var r := map k | k in ks :: values[k[|prefix|..]];
      assert forall x :: x in values ==> (prefix + x)[|prefix|..] == x;
      assert |r| == |values| by {
        assert ks == r.Keys;
        SizeOfPrefixed(values.Keys, prefix);
      }
      r
  }

  lemma {:induction false} SizeOfPrefixed(ks: set<string>, prefix: string)
    ensures |set x | x in ks :: prefix + x| == |ks|
    decreases |ks|
  {
    if ks != {} {
      var x :| x in ks;
      var rest := ks - {x};
      SizeOfPrefixed(rest, prefix);
      var big := set y | y in ks :: prefix + y;
      var small := set y | y in rest :: prefix + y;
      assert big == small + {prefix + x};
      if prefix + x in small {
        var y :| y in rest && prefix + y == prefix + x;
        PrefixInjective(prefix, y, x);
      }
    }
  }

  /** withPrefix's copy loop. */
  method WithPrefix(values: map<string, Val>, prefix: string) returns (out: map<string, Val>)
    ensures out == PrefixedMap(values, prefix)
  {
    if prefix == "" || |values| == 0 {
      assert |values| == 0 ==> PrefixedMap(values, prefix) == map[];
      return values;
    }
    out := map[];
    var todo := values.Keys;
    while todo != {}
      invariant todo <= values.Keys
      invariant forall k :: k in out <==> HasPrefix(k, prefix) && k[|prefix|..] in values && k[|prefix|..] !in todo
      invariant forall k :: k in out ==> out[k] == values[k[|prefix|..]]
      decreases |todo|
    {
      var key :| key in todo;
      todo := todo - {key};
      assert (prefix + key)[|prefix|..] == key;
      forall k | HasPrefix(k, prefix) && k[|prefix|..] == key
        ensures k == prefix + key
      {
        assert k == k[..|prefix|] + k[|prefix|..];
      }
      out := out[prefix + key := values[key]];
    }
    forall k | k in PrefixedMap(values, prefix)
      ensures k in out
    {
      assert k == k[..|prefix|] + k[|prefix|..];
    }
    forall k | k in out
      ensures k in PrefixedMap(values, prefix) && out[k] == PrefixedMap(values, prefix)[k]
    {
      assert k == prefix + k[|prefix|..];
    }
  }

  // ---------------------------------------------------------------- scopes

  /** extractScopeID: the scope's metadata must hold a non-blank string under `key`; the result is trimmed. */
  function ExtractScopeId(scope: OptionsStore.OptScope, key: string): (r: Result<string, Error>)
    ensures scope.metadata.None? ==> r == Failure(NewBadInput(ScopeMetadataMissing, "optionsadapter: missing metadata for scope"))
    ensures scope.metadata.Some? && key !in scope.metadata.value ==>
              r == Failure(NewBadInput(ScopeMetadataMissing, "optionsadapter: missing metadata key for scope"))
    ensures scope.metadata.Some? && key in scope.metadata.value
            && !(scope.metadata.value[key].Str? && !IsBlank(scope.metadata.value[key].s)) ==>
              r == Failure(NewBadInput(ScopeMetadataInvalid, "optionsadapter: invalid metadata key for scope"))
    ensures r.Success? <==> scope.metadata.Some? && key in scope.metadata.value
                            && scope.metadata.value[key].Str? && !IsBlank(scope.metadata.value[key].s)
    ensures r.Success? ==> r.value == TrimSpace(scope.metadata.value[key].s) && r.value != "" && IsTrimmed(r.value)
  {
    if scope.metadata.None? then Failure(NewBadInput(ScopeMetadataMissing, "optionsadapter: missing metadata for scope"))
    else if key !in scope.metadata.value then
      Failure(NewBadInput(ScopeMetadataMissing, "optionsadapter: missing metadata key for scope"))
    else
      var raw := scope.metadata.value[key];
      TrimSpaceEmptyIffBlank(if raw.Str? then raw.s else "");
      TrimSpaceTrimmed(if raw.Str? then raw.s else "");
      if !raw.Str? || TrimSpace(raw.s) == "" then
        Failure(NewBadInput(ScopeMetadataInvalid, "optionsadapter: invalid metadata key for scope"))
      else Success(TrimSpace(raw.s))
  }

  const UnsupportedScopeError := NewBadInput(ScopeInvalid, "optionsadapter: unsupported scope")

  /** preferenceScope: system, tenant, org and user map to their levels; any other name is rejected. */
  function PreferenceScope(scope: OptionsStore.OptScope): (r: Result<Slot, Error>)
    ensures scope.name == "system" ==> r == Success((SystemLevel, NoScope))
    ensures scope.name == "tenant" ==>
              match ExtractScopeId(scope, OptionsStore.MetadataTenantId)
              case Success(id) => r == Success((TenantLevel, PrefScope(id, "", "")))
              case Failure(e) => r == Failure(e)
    ensures scope.name == "org" ==>
              match ExtractScopeId(scope, OptionsStore.MetadataOrgId)
              case Success(id) => r == Success((OrgLevel, PrefScope("", id, "")))
              case Failure(e) => r == Failure(e)
    ensures scope.name == "user" ==>
              match ExtractScopeId(scope, OptionsStore.MetadataUserId)
              case Success(id) => r == Success((UserLevel, PrefScope("", "", id)))
              case Failure(e) => r == Failure(e)
    ensures scope.name !in {"system", "tenant", "org", "user"} ==> r == Failure(UnsupportedScopeError)
  {
    if scope.name == "system" then Success((SystemLevel, NoScope))
    else if scope.name == "tenant" then
      match ExtractScopeId(scope, OptionsStore.MetadataTenantId)
      case Success(id) => Success((TenantLevel, PrefScope(id, "", "")))
      case Failure(e) => Failure(e)
    else if scope.name == "org" then
      match ExtractScopeId(scope, OptionsStore.MetadataOrgId)
      case Success(id) => Success((OrgLevel, PrefScope("", id, "")))
      case Failure(e) => Failure(e)
    else if scope.name == "user" then
      match ExtractScopeId(scope, OptionsStore.MetadataUserId)
      case Success(id) => Success((UserLevel, PrefScope("", "", id)))
      case Failure(e) => Failure(e)
    else Failure(UnsupportedScopeError)
  }

  /**
   * Every scope the options store's default builder emits maps to a
   * preference slot, provided the scope set's ids carry no surrounding white
   * space: a write never fails for want of a level.
   */
  lemma DefaultScopesHaveSlots(s: GateTypes.ScopeSet)
    requires IsTrimmed(s.tenantId) && IsTrimmed(s.orgId) && IsTrimmed(s.userId)
    ensures forall sc :: sc in OptionsStore.DefaultScopes(s) ==> PreferenceScope(sc).Success?
    ensures PreferenceScope(OptionsStore.WriteScope(s)).Success?
    ensures s.userId != "" ==> PreferenceScope(OptionsStore.WriteScope(s)) == Success((UserLevel, PrefScope("", "", s.userId)))
  {
    var ids := [s.tenantId, s.orgId, s.userId];
    forall i | 0 <= i < 3 && ids[i] != ""
      ensures !IsBlank(ids[i]) && TrimSpace(ids[i]) == ids[i]
    {
      TrimSpaceOfTrimmed(ids[i]);
      TrimSpaceEmptyIffBlank(ids[i]);
    }
    OptionsStore.WriteScopeIsFirstRead(s);
  }

  // ---------------------------------------------------------------- Load's rebuild

  /** The key with the domain prefix stripped, or none when it is not under the prefix. */
  function StripKey(prefix: string, key: string): (r: Option<string>)
    ensures r.Some? <==> prefix == "" || HasPrefix(key, prefix)
    ensures r.Some? ==> prefix + r.value == key
  {
    if prefix == "" then Some(key)
    else if HasPrefix(key, prefix) then Some(TrimPrefix(key, prefix))
    else None
  }

  /** One visited key of Load's loop: a key under the prefix has its value written at the stripped path. */
  function LoadStep(acc: Snapshot, prefix: string, key: string, value: Val): Result<Snapshot, Error>
  {
    match StripKey(prefix, key)
    case None => Success(acc)
    case Some(path) =>
      match SetPath(acc, path, value)
      case Success(acc') => Success(acc')
      case Failure(e) => Failure(WrapBadInput(e, PathInvalidCode, "optionsadapter: invalid path"))
  }

  /** Load's loop over the keys in the order visited; the first path error stops it. */
  function Unflatten(effective: map<string, Val>, prefix: string, order: seq<string>): Result<Snapshot, Error>
    requires forall i :: 0 <= i < |order| ==> order[i] in effective
  {
    if order == [] then Success(map[])
    else
      match Unflatten(effective, prefix, order[..|order| - 1])
      case Failure(e) => Failure(e)
      case Success(acc) => LoadStep(acc, prefix, order[|order| - 1], effective[order[|order| - 1]])
  }

  lemma LoadStepErrors(acc: Snapshot, prefix: string, key: string, value: Val)
    ensures LoadStep(acc, prefix, key, value).Failure? ==>
              var e := LoadStep(acc, prefix, key, value).error;
              Is(e, SentinelError(PathRequired)) || Is(e, SentinelError(PathInvalid))
  {
    var stripped := StripKey(prefix, key);
    if stripped.Some? {
      SetPathErrors(acc, stripped.value, value);
    }
  }

  /** A Load path error still is the path sentinel it came from: required for a blank path, invalid for a non-map on the way. */
  lemma {:induction false} UnflattenErrors(effective: map<string, Val>, prefix: string, order: seq<string>)
    requires forall i :: 0 <= i < |order| ==> order[i] in effective
    ensures Unflatten(effective, prefix, order).Failure? ==>
              var e := Unflatten(effective, prefix, order).error;
              Is(e, SentinelError(PathRequired)) || Is(e, SentinelError(PathInvalid))
  {
    if order != [] {
      var init := order[..|order| - 1];
      UnflattenErrors(effective, prefix, init);
      var u := Unflatten(effective, prefix, init);
      if u.Success? {
        LoadStepErrors(u.value, prefix, order[|order| - 1], effective[order[|order| - 1]]);
      }
    }
  }

  lemma LoadStepKeys(acc: Snapshot, prefix: string, key: string, value: Val)
    requires LoadStep(acc, prefix, key, value).Success?
    ensures var r := LoadStep(acc, prefix, key, value).value;
            StripKey(prefix, key).None? ==> r == acc
    ensures var r := LoadStep(acc, prefix, key, value).value;
            StripKey(prefix, key).Some? ==> SplitPathOf(StripKey(prefix, key).value) != []
                                             && r.Keys == acc.Keys + {SplitPathOf(StripKey(prefix, key).value)[0]}
  {
  }

  /** Every top-level key of the rebuilt snapshot is the first segment of a key under the prefix. */
  lemma {:induction false} UnflattenKeys(effective: map<string, Val>, prefix: string, order: seq<string>, t: string)
    requires forall i :: 0 <= i < |order| ==> order[i] in effective
    requires Unflatten(effective, prefix, order).Success? && t in Unflatten(effective, prefix, order).value
    ensures exists i :: 0 <= i < |order| && StripKey(prefix, order[i]).Some?
                        && SplitPathOf(StripKey(prefix, order[i]).value) != []
                        && SplitPathOf(StripKey(prefix, order[i]).value)[0] == t
  {
    var n := |order|;
    var init := order[..n - 1];
    var acc := Unflatten(effective, prefix, init).value;
    var key := order[n - 1];
    LoadStepKeys(acc, prefix, key, effective[key]);
    if t in acc {
      UnflattenKeys(effective, prefix, init, t);
      var i :| 0 <= i < |init| && StripKey(prefix, init[i]).Some?
               && SplitPathOf(StripKey(prefix, init[i]).value) != []
               && SplitPathOf(StripKey(prefix, init[i]).value)[0] == t;
      assert order[i] == init[i];
    }
  }

  /** When no visited key is under the prefix the rebuilt snapshot is empty, so Load reports not found. */
  lemma {:induction false} UnflattenNothingKept(effective: map<string, Val>, prefix: string, order: seq<string>)
    requires forall i :: 0 <= i < |order| ==> order[i] in effective
    requires forall i :: 0 <= i < |order| ==> StripKey(prefix, order[i]).None?
    ensures Unflatten(effective, prefix, order) == Success(map[])
  {
    if order != [] {
      UnflattenNothingKept(effective, prefix, order[..|order| - 1]);
    }
  }

  /** A kept key with a one-segment path sets one top-level key. */
  lemma LoadStepFlat(acc: Snapshot, prefix: string, key: string, value: Val)
    requires StripKey(prefix, key).Some?
    requires SplitPathOf(StripKey(prefix, key).value) == [StripKey(prefix, key).value]
    ensures LoadStep(acc, prefix, key, value) == Success(acc[StripKey(prefix, key).value := value])
  {
    var path := StripKey(prefix, key).value;
    var r := SetIn(acc, [path], value);
    assert r.value == acc[path := value];
  }

  /** The kept keys of `order` with the prefix stripped. */
  ghost predicate StripsTo(prefix: string, order: seq<string>, p: string) {
    exists i :: 0 <= i < |order| && StripKey(prefix, order[i]) == Some(p)
  }

  /** Every kept key of `order` strips to a flat path. */
  predicate AllFlat(prefix: string, order: seq<string>) {
    forall i :: 0 <= i < |order| && StripKey(prefix, order[i]).Some? ==>
      SplitPathOf(StripKey(prefix, order[i]).value) == [StripKey(prefix, order[i]).value]
  }

  /** `res` holds exactly the stripped kept keys of `order`, each with its value. */
  ghost predicate FlatAgrees(res: Snapshot, effective: map<string, Val>, prefix: string, order: seq<string>)
    requires forall i :: 0 <= i < |order| ==> order[i] in effective
  {
    (forall p :: p in res <==> StripsTo(prefix, order, p))
    && (forall i :: 0 <= i < |order| && StripKey(prefix, order[i]).Some? ==>
          StripKey(prefix, order[i]).value in res && res[StripKey(prefix, order[i]).value] == effective[order[i]])
  }

  /**
   * When every kept key strips to a flat path (non-empty, trimmed, no '.'),
   * the rebuilt snapshot is the stripped keys with their values, whatever
   * the visiting order.
   */
  lemma {:induction false} UnflattenFlat(effective: map<string, Val>, prefix: string, order: seq<string>)
    requires forall i :: 0 <= i < |order| ==> order[i] in effective
    requires Distinct(order) && AllFlat(prefix, order)
    ensures Unflatten(effective, prefix, order).Success?
    ensures forall p :: p in Unflatten(effective, prefix, order).value <==> StripsTo(prefix, order, p)
    ensures forall i :: 0 <= i < |order| && StripKey(prefix, order[i]).Some? ==>
              var p := StripKey(prefix, order[i]).value;
              p in Unflatten(effective, prefix, order).value && Unflatten(effective, prefix, order).value[p] == effective[order[i]]
  {
    var n := |order|;
    if n > 0 {
      var init := order[..n - 1];
      assert forall i :: 0 <= i < n - 1 ==> order[i] == init[i];
      UnflattenFlat(effective, prefix, init);
      var acc := Unflatten(effective, prefix, init).value;
      UnflattenFlatStep(effective, prefix, order, acc);
    }
    assert FlatAgrees(Unflatten(effective, prefix, order).value, effective, prefix, order);
  }

  lemma StripsToSnoc(prefix: string, order: seq<string>, p: string)
    requires |order| > 0
    ensures StripsTo(prefix, order, p) <==> StripsTo(prefix, order[..|order| - 1], p) || StripKey(prefix, order[|order| - 1]) == Some(p)
  {
    var init := order[..|order| - 1];
    if StripsTo(prefix, init, p) {
      var i :| 0 <= i < |init| && StripKey(prefix, init[i]) == Some(p);
      assert order[i] == init[i];
    }
    if StripsTo(prefix, order, p) {
      var i :| 0 <= i < |order| && StripKey(prefix, order[i]) == Some(p);
      if i < |order| - 1 {
        assert order[i] == init[i];
      }
    }
  }

  /** The last visited key extends the rebuilt snapshot by its stripped key, or not at all. */
  lemma UnflattenSnocFlat(effective: map<string, Val>, prefix: string, order: seq<string>, acc: Snapshot)
    requires |order| > 0 && forall i :: 0 <= i < |order| ==> order[i] in effective
    requires AllFlat(prefix, order)
    requires Unflatten(effective, prefix, order[..|order| - 1]) == Success(acc)
    ensures var key := order[|order| - 1];
            Unflatten(effective, prefix, order)
              == Success(if StripKey(prefix, key).Some? then acc[StripKey(prefix, key).value := effective[key]] else acc)
  {
    var key := order[|order| - 1];
    if StripKey(prefix, key).Some? {
      LoadStepFlat(acc, prefix, key, effective[key]);
    }
  }

  lemma UnflattenFlatStep(effective: map<string, Val>, prefix: string, order: seq<string>, acc: Snapshot)
    requires |order| > 0 && forall i :: 0 <= i < |order| ==> order[i] in effective
    requires Distinct(order) && AllFlat(prefix, order)
    requires Unflatten(effective, prefix, order[..|order| - 1]) == Success(acc)
    requires FlatAgrees(acc, effective, prefix, order[..|order| - 1])
    ensures Unflatten(effective, prefix, order).Success?
    ensures FlatAgrees(Unflatten(effective, prefix, order).value, effective, prefix, order)
  {
    var n := |order|;
    var init := order[..n - 1];
    var key := order[n - 1];
    var stripped := StripKey(prefix, key);
    var res := if stripped.Some? then acc[stripped.value := effective[key]] else acc;
    UnflattenSnocFlat(effective, prefix, order, acc);
    forall i | 0 <= i < n && StripKey(prefix, order[i]).Some?
      ensures StripKey(prefix, order[i]).value in res && res[StripKey(prefix, order[i]).value] == effective[order[i]]
    {
      if i < n - 1 {
        assert order[i] == init[i] && order[i] != key;
      }
    }
    forall p ensures p in res <==> StripsTo(prefix, order, p) {
      StripsToSnoc(prefix, order, p);
    }
  }

  // ---------------------------------------------------------------- the adapter

  datatype PrefOption = WithKeyPrefix(prefix: string) | WithKeys(keys: seq<string>)

  /** The key prefix and keys the options leave, applied in order. */
  function Configure(opts: seq<PrefOption>): (string, seq<string>)
  {
    if opts == [] then ("", [])
    else
      var st := Configure(opts[..|opts| - 1]);
      match opts[|opts| - 1]
      case WithKeyPrefix(p) => (TrimSpace(p), st.1)
      case WithKeys(ks) => (st.0, CleanedKeys(ks))
  }

  /** The preferences the store resolves for one slot, restricted to the requested keys. */
  function Effective(stored: map<string, Val>, filter: Option<set<string>>): (r: map<string, Val>)
    ensures filter.None? ==> r == stored
    ensures filter.Some? ==> forall k :: k in r <==> k in stored && k in filter.value
    ensures forall k :: k in r ==> r[k] == stored[k]
  {
    if filter.None? then stored else map k | k in stored && k in filter.value :: stored[k]
  }

  lemma FilterOfPrefixed(keys: seq<string>, prefix: string, requested: seq<string>)
    requires keys != [] && |requested| == |keys|
    requires forall i :: 0 <= i < |keys| ==> requested[i] == prefix + keys[i]
    ensures KeyFilter(keys, prefix) == Some(set k | k in requested)
  {
    var f := KeyFilter(keys, prefix).value;
    forall k ensures k in f <==> k in requested {
      if k in requested {
        var i :| 0 <= i < |requested| && requested[i] == k;
      }
      if k in f {
        var i :| 0 <= i < |keys| && k == prefix + keys[i];
        assert requested[i] == k;
      }
    }
    assert f == (set k | k in requested);
  }

  /** Load's loop: visit the resolved keys in some order and write each kept one at its stripped path. */
  method Rebuild(effective: map<string, Val>, prefix: string) returns (result: Snapshot, err: Option<Error>, order: seq<string>)
    ensures Distinct(order) && forall i :: 0 <= i < |order| ==> order[i] in effective
    ensures match Unflatten(effective, prefix, order)
            case Failure(e) => err == Some(e)
            case Success(res) => err.None? && result == res && forall k :: k in effective ==> k in order
  {
    result := map[];
    order := [];
    var todo := effective.Keys;
    while todo != {}
      invariant todo <= effective.Keys
      invariant forall i :: 0 <= i < |order| ==> order[i] in effective
      invariant forall k :: k in effective ==> (k in order <==> k !in todo)
      invariant Distinct(order)
      invariant Unflatten(effective, prefix, order) == Success(result)
      decreases |todo|
    {
      var key :| key in todo;
      todo := todo - {key};
      UnflattenSnoc(effective, prefix, order, key, result);
      order := order + [key];
      var r := RebuildStep(result, prefix, key, effective[key]);
      if r.Failure? {
        return result, Some(r.error), order;
      }
      result := r.value;
    }
    return result, None, order;
  }

  /** One key of Load's loop: skipped unless under the prefix, else written at its stripped path. */
  method RebuildStep(acc: Snapshot, prefix: string, key: string, value: Val) returns (r: Result<Snapshot, Error>)
    ensures r == LoadStep(acc, prefix, key, value)
  {
    var path := StripKey(prefix, key);
    if path.None? {
      return Success(acc);
    }
    var written := SetPath(acc, path.value, value);
    if written.Failure? {
      return Failure(WrapBadInput(written.error, PathInvalidCode, "optionsadapter: invalid path"));
    }
    return Success(written.value);
  }

  /** Load's loop visiting one more key, not visited before. */
  lemma UnflattenSnoc(effective: map<string, Val>, prefix: string, order: seq<string>, key: string, acc: Snapshot)
    requires forall i :: 0 <= i < |order| ==> order[i] in effective
    requires key in effective && key !in order && Distinct(order)
    requires Unflatten(effective, prefix, order) == Success(acc)
    ensures forall i :: 0 <= i < |order + [key]| ==> (order + [key])[i] in effective
    ensures Distinct(order + [key])
    ensures Unflatten(effective, prefix, order + [key]) == LoadStep(acc, prefix, key, effective[key])
  {
    assert (order + [key])[..|order|] == order;
  }

  /** Save's delete list: the previously stored keys, flattened and prefixed, that the new values lack. */
  method DeleteList(found: bool, existing: Snapshot, prefix: string, written: map<string, Val>)
    returns (existingFlat: map<string, Val>, deleteKeys: seq<string>)
    ensures DeleteListSpec(found, existing, prefix, written, existingFlat, deleteKeys)
  {
    existingFlat := map[];
    deleteKeys := [];
    if found {
      var raw := FlattenMap("", existing, map[]);
      existingFlat := WithPrefix(raw, prefix);
      deleteKeys := KeysToDelete(existingFlat, written);
    }
  }

  ghost predicate DeleteListSpec(found: bool, existing: Snapshot, prefix: string, written: map<string, Val>,
                                 existingFlat: map<string, Val>, deleteKeys: seq<string>)
  {
    (found ==> exists raw :: Covers(raw, map[], FlatLeaves("", existing)) && existingFlat == PrefixedMap(raw, prefix))
    && (!found ==> existingFlat == map[])
    && Distinct(deleteKeys) && (forall k :: k in deleteKeys <==> k in existingFlat && k !in written)
  }

  /** The calls the adapter makes to the preferences store's write side. */
  datatype AdminCall =
    | Upsert(slot: Slot, values: map<string, Val>)
    | Delete(slot: Slot, keys: seq<string>)

  class PreferencesAdapter {
    const hasStore: bool
    const keyPrefix: string
    const keys: seq<string>
    /** The preferences store: each slot's flat preference map. */
    var prefs: map<Slot, map<string, Val>>
    const resolveFaults: map<Slot, Error>
    const upsertFaults: map<Slot, Error>
    const deleteFaults: map<Slot, Error>
    /** The upserts and deletes issued, in order. */
    var calls: seq<AdminCall>

    constructor (hasStore: bool, opts: seq<PrefOption>, prefs: map<Slot, map<string, Val>>,
                 resolveFaults: map<Slot, Error>, upsertFaults: map<Slot, Error>, deleteFaults: map<Slot, Error>)
      ensures (keyPrefix, keys) == Configure(opts)
      ensures this.hasStore == hasStore && this.prefs == prefs && calls == []
      ensures this.resolveFaults == resolveFaults && this.upsertFaults == upsertFaults && this.deleteFaults == deleteFaults
    {
      var kp := "";
      var ks := [];
      var i := 0;
      while i < |opts|
        invariant 0 <= i <= |opts|
        invariant (kp, ks) == Configure(opts[..i])
      {
        assert opts[..i + 1][..i] == opts[..i];
        match opts[i] {
          case WithKeyPrefix(p) => kp := TrimSpace(p);
          case WithKeys(k) => ks := CleanKeys(k);
        }
        i := i + 1;
      }
      assert opts[..i] == opts;
      this.hasStore := hasStore;
      this.keyPrefix := kp;
      this.keys := ks;
      this.prefs := prefs;
      this.resolveFaults := resolveFaults;
      this.upsertFaults := upsertFaults;
      this.deleteFaults := deleteFaults;
      calls := [];
    }

    function Stored(slot: Slot): map<string, Val>
      reads this
    {
      if slot in prefs then prefs[slot] else map[]
    }

    /** What a Load of `ref` may return, `order` being the visiting order of the resolved keys. */
    ghost predicate LoadSpec(ref: OptionsStore.StateRef, snapshot: Snapshot, found: bool, err: Option<Error>, order: seq<string>)
      reads this
    {
      if !hasStore then err == Some(PrefStoreRequiredError) && !found
      else
        match PreferenceScope(ref.scope)
        case Failure(e) => err == Some(e) && !found
        case Success(slot) =>
          if slot in resolveFaults then
            err == Some(WrapExternal(resolveFaults[slot], StoreReadFailed, "optionsadapter: preferences resolve failed")) && !found
          else
            var prefix := DomainPrefix(keyPrefix, ref.domain);
            var eff := Effective(Stored(slot), KeyFilter(keys, prefix));
            Distinct(order) && (forall i :: 0 <= i < |order| ==> order[i] in eff)
            && match Unflatten(eff, prefix, order)
               case Failure(e) => err == Some(e) && !found
               case Success(res) =>
                 (forall k :: k in eff ==> k in order) && err.None? && found == (res != map[])
                 && (found ==> snapshot == res)
    }

    /** Load: resolve the slot's preferences and rebuild the nested snapshot from the keys under the prefix. */
    method Load(ref: OptionsStore.StateRef) returns (snapshot: Snapshot, found: bool, err: Option<Error>, order: seq<string>)
      ensures LoadSpec(ref, snapshot, found, err, order)
    {
      order := [];
      if !hasStore {
        return map[], false, Some(PrefStoreRequiredError), order;
      }
      var scoped := PreferenceScope(ref.scope);
      if scoped.Failure? {
        return map[], false, Some(scoped.error), order;
      }
      var slot := scoped.value;
      var prefix := DomainPrefix(keyPrefix, ref.domain);
      var requested := PrefixedKeys(keys, prefix);
      if slot in resolveFaults {
        return map[], false, Some(WrapExternal(resolveFaults[slot], StoreReadFailed, "optionsadapter: preferences resolve failed")), order;
      }
      var filter := if requested.None? then None else Some(set k | k in requested.value);
      if requested.Some? {
        FilterOfPrefixed(keys, prefix, requested.value);
      }
      var effective := Effective(Stored(slot), filter);
      if |effective| == 0 {
        return map[], false, None, order;
      }
      var result, rebuildErr;
      result, rebuildErr, order := Rebuild(effective, prefix);
      if rebuildErr.Some? {
        return map[], false, rebuildErr, order;
      }
      if |result| == 0 {
        return map[], false, None, order;
      }
      return result, true, None, order;
    }

    /** The preferences store's upsert: the values merge into the slot. */
    method UpsertValues(slot: Slot, values: map<string, Val>) returns (err: Option<Error>)
      modifies this
      ensures calls == old(calls) + [Upsert(slot, values)]
      ensures slot in upsertFaults ==> err == Some(upsertFaults[slot]) && prefs == old(prefs)
      ensures slot !in upsertFaults ==> err.None? && prefs == old(prefs)[slot := old(Stored(slot)) + values]
    {
      calls := calls + [Upsert(slot, values)];
      if slot in upsertFaults {
        return Some(upsertFaults[slot]);
      }
      prefs := prefs[slot := Stored(slot) + values];
      return None;
    }

    /** The preferences store's delete: the keys leave the slot. */
    method DeleteValues(slot: Slot, ks: seq<string>) returns (err: Option<Error>)
      modifies this
      ensures calls == old(calls) + [Delete(slot, ks)]
      ensures slot in deleteFaults ==> err == Some(deleteFaults[slot]) && prefs == old(prefs)
      ensures slot !in deleteFaults ==> err.None? && prefs == old(prefs)[slot := old(Stored(slot)) - (set k | k in ks)]
    {
      calls := calls + [Delete(slot, ks)];
      if slot in deleteFaults {
        return Some(deleteFaults[slot]);
      }
      prefs := prefs[slot := Stored(slot) - (set k | k in ks)];
      return None;
    }

    /**
     * Save: flatten and prefix the snapshot, load what is stored, upsert the
     * new values when there are any and delete the stored keys the new
     * snapshot no longer has when there are any.
     */
    method Save(ref: OptionsStore.StateRef, snapshot: Snapshot) returns (err: Option<Error>, ghost w: SaveWitness)
      modifies this
      ensures !hasStore ==> err == Some(PrefStoreRequiredError) && prefs == old(prefs) && calls == old(calls)
      ensures hasStore && PreferenceScope(ref.scope).Failure? ==>
                err == Some(PreferenceScope(ref.scope).error) && prefs == old(prefs) && calls == old(calls)
      ensures hasStore && PreferenceScope(ref.scope).Success? ==>
                var prefix := DomainPrefix(keyPrefix, ref.domain);
                Covers(w.flat, map[], FlatLeaves("", snapshot)) && w.written == PrefixedMap(w.flat, prefix)
                && old(LoadSpec(ref, w.existing, w.found, w.loadErr, w.order))
      ensures hasStore && PreferenceScope(ref.scope).Success? && w.loadErr.Some? ==>
                err == Some(WrapExternal(w.loadErr.value, StoreReadFailed, "optionsadapter: preferences load failed"))
                && prefs == old(prefs) && calls == old(calls)
      ensures hasStore && PreferenceScope(ref.scope).Success? && w.loadErr.None? ==>
                DeleteListSpec(w.found, w.existing, DomainPrefix(keyPrefix, ref.domain), w.written, w.existingFlat, w.deleteKeys)
                && Applied(PreferenceScope(ref.scope).value, old(prefs), old(calls), w.written, w.deleteKeys, prefs, calls, err)
    {
      w := SaveWitness(map[], map[], map[], false, None, [], map[], []);
      if !hasStore {
        return Some(PrefStoreRequiredError), w;
      }
      var scoped := PreferenceScope(ref.scope);
      if scoped.Failure? {
        return Some(scoped.error), w;
      }
      var slot := scoped.value;
      var prefix := DomainPrefix(keyPrefix, ref.domain);
      var flat := FlattenMap("", snapshot, map[]);
      var written := WithPrefix(flat, prefix);
      var existing, found, loadErr, order := Load(ref);
      w := w.(flat := flat, written := written, existing := existing, found := found, loadErr := loadErr, order := order);
      if loadErr.Some? {
        return Some(WrapExternal(loadErr.value, StoreReadFailed, "optionsadapter: preferences load failed")), w;
      }
      var existingFlat, deleteKeys := DeleteList(found, existing, prefix, written);
      w := w.(existingFlat := existingFlat, deleteKeys := deleteKeys);
      err := Apply(slot, written, deleteKeys);
    }

    /** Save after the load: the upsert when there are values, then the delete when there are keys. */
    method Apply(slot: Slot, written: map<string, Val>, deleteKeys: seq<string>) returns (err: Option<Error>)
      modifies this
      ensures Applied(slot, old(prefs), old(calls), written, deleteKeys, prefs, calls, err)
    {
      if |written| > 0 {
        var e := UpsertValues(slot, written);
        if e.Some? {
          return Some(WrapExternal(e.value, StoreWriteFailed, "optionsadapter: preferences upsert failed"));
        }
      }
      if |deleteKeys| > 0 {
        var e := DeleteValues(slot, deleteKeys);
        if e.Some? {
          return Some(WrapExternal(e.value, StoreWriteFailed, "optionsadapter: preferences delete failed"));
        }
      }
      return None;
    }

    /**
     * The state after Save's writes: the upsert is issued only for non-empty
     * values, the delete only for a non-empty key list; a failed call stops there.
     */
    ghost predicate Applied(slot: Slot, prefs0: map<Slot, map<string, Val>>, calls0: seq<AdminCall>,
                            written: map<string, Val>, deleteKeys: seq<string>,
                            prefs': map<Slot, map<string, Val>>, calls': seq<AdminCall>, err: Option<Error>)
    {
      var stored0 := if slot in prefs0 then prefs0[slot] else map[];
      var upserted := if written != map[] then prefs0[slot := stored0 + written] else prefs0;
      var callsUp := calls0 + (if written != map[] then [Upsert(slot, written)] else []);
      var stored1 := if slot in upserted then upserted[slot] else map[];
      if written != map[] && slot in upsertFaults then
        err == Some(WrapExternal(upsertFaults[slot], StoreWriteFailed, "optionsadapter: preferences upsert failed"))
        && prefs' == prefs0 && calls' == callsUp
      else if deleteKeys != [] && slot in deleteFaults then
        err == Some(WrapExternal(deleteFaults[slot], StoreWriteFailed, "optionsadapter: preferences delete failed"))
        && prefs' == upserted && calls' == callsUp + [Delete(slot, deleteKeys)]
      else
        err.None?
        && prefs' == (if deleteKeys != [] then upserted[slot := stored1 - (set k | k in deleteKeys)] else upserted)
        && calls' == callsUp + (if deleteKeys != [] then [Delete(slot, deleteKeys)] else [])
    }
  }

  /** Save's ghost account of what it computed: the flattened and prefixed values, the load, the delete list. */
  datatype SaveWitness = SaveWitness(flat: map<string, Val>, written: map<string, Val>, existing: Snapshot, found: bool,
                                     loadErr: Option<Error>, order: seq<string>, existingFlat: map<string, Val>,
                                     deleteKeys: seq<string>)

  /** The stored keys Save deletes: exactly those of `existing` the new values lack, each once. */
  method KeysToDelete(existing: map<string, Val>, current: map<string, Val>) returns (ks: seq<string>)
    ensures Distinct(ks)
    ensures forall k :: k in ks <==> k in existing && k !in current
  {
    ks := [];
    var todo := existing.Keys;
    while todo != {}
      invariant todo <= existing.Keys
      invariant Distinct(ks)
      invariant forall k :: k in ks <==> k in existing && k !in todo && k !in current
      decreases |todo|
    {
      var key :| key in todo;
      todo := todo - {key};
      if key !in current {
        ks := ks + [key];
      }
    }
  }

}
