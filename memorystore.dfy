/**
 * The in-memory override store: a nested key -> scope -> Override table
 * with a fixed read precedence (user, org, tenant, system) and one write
 * scope per ScopeSet (the most specific one set).
 */
module MemoryStore {
  import opened Wrappers
  import opened Text
  import opened Errors
  import opened GateTypes
  import opened Overrides
  import Keys

  datatype StoreKind = SystemScope | TenantScope | OrgScope | UserScope

  /** The store's own scope key: a kind and an id. */
  datatype StoreScope = StoreScope(kind: StoreKind, id: string)

  const StoreRequired := Plain("store: memory store is required")
  const InvalidStoreKey := Plain("store: feature key required")

  /** readScopes: user, org and tenant when set, most specific first, then always system. */
  function ReadScopes(s: ScopeSet): (r: seq<StoreScope>)
    ensures |r| >= 1 && r[|r| - 1] == StoreScope(SystemScope, "")
    ensures StoreScope(UserScope, s.userId) in r <==> s.userId != ""
    ensures StoreScope(OrgScope, s.orgId) in r <==> s.orgId != ""
    ensures StoreScope(TenantScope, s.tenantId) in r <==> s.tenantId != ""
    ensures forall i :: 0 <= i < |r| - 1 ==> r[i].kind != SystemScope && r[i].id != ""
  {
    (if s.userId != "" then [StoreScope(UserScope, s.userId)] else [])
    + (if s.orgId != "" then [StoreScope(OrgScope, s.orgId)] else [])
    + (if s.tenantId != "" then [StoreScope(TenantScope, s.tenantId)] else [])
    + [StoreScope(SystemScope, "")]
  }

  /** writeScope: the most specific scope set: user, else org, else tenant, else system. */
  function WriteScope(s: ScopeSet): (r: StoreScope)
    ensures s.userId != "" ==> r == StoreScope(UserScope, s.userId)
    ensures s.userId == "" && s.orgId != "" ==> r == StoreScope(OrgScope, s.orgId)
    ensures s.userId == "" && s.orgId == "" && s.tenantId != "" ==> r == StoreScope(TenantScope, s.tenantId)
    ensures s.userId == "" && s.orgId == "" && s.tenantId == "" ==> r == StoreScope(SystemScope, "")
  {
    if s.userId != "" then StoreScope(UserScope, s.userId)
    else if s.orgId != "" then StoreScope(OrgScope, s.orgId)
    else if s.tenantId != "" then StoreScope(TenantScope, s.tenantId)
    else StoreScope(SystemScope, "")
  }

  /** A write lands on the scope a read consults first. */
  lemma WriteScopeIsFirstRead(s: ScopeSet)
    ensures WriteScope(s) == ReadScopes(s)[0]
  {
  }

  /** normalizeKey: the gate's normalised key, or the store's invalid-key error. */
  function NormalizeStoreKey(key: string): (r: Result<string, Error>)
    ensures r == if Keys.NormalizeKey(key) == "" then Failure(InvalidStoreKey) else Success(Keys.NormalizeKey(key))
  {
    var normalized := Keys.NormalizeKey(TrimSpace(key));
    assert normalized == Keys.NormalizeKey(key) by { Keys.NormalizeTrimmed(key); }
    if normalized == "" then Failure(InvalidStoreKey) else Success(normalized)
  }

  /** The override stored at the first scope of `scopes` that holds one. */
  function FirstStored(bucket: map<StoreScope, Override>, scopes: seq<StoreScope>): Option<Override>
  {
    if scopes == [] then None
    else if scopes[0] in bucket then Some(bucket[scopes[0]])
    else FirstStored(bucket, scopes[1..])
  }

  /** None exactly when no scope holds an override; otherwise the override of the first scope that does. */
  lemma {:induction false} FirstStoredFirst(bucket: map<StoreScope, Override>, scopes: seq<StoreScope>)
    ensures var r := FirstStored(bucket, scopes);
            (r.None? <==> forall j :: 0 <= j < |scopes| ==> scopes[j] !in bucket)
            && (r.Some? ==> exists j :: 0 <= j < |scopes| && scopes[j] in bucket && r.value == bucket[scopes[j]]
                                        && forall k :: 0 <= k < j ==> scopes[k] !in bucket)
  {
    if scopes != [] && scopes[0] !in bucket {
      FirstStoredFirst(bucket, scopes[1..]);
      FirstStoredShift(bucket, scopes, FirstStored(bucket, scopes[1..]));
    }
  }

  lemma FirstStoredShift(bucket: map<StoreScope, Override>, scopes: seq<StoreScope>, r: Option<Override>)
    requires scopes != [] && scopes[0] !in bucket
    requires r.None? <==> forall j :: 0 <= j < |scopes[1..]| ==> scopes[1..][j] !in bucket
    requires r.Some? ==> exists j :: 0 <= j < |scopes[1..]| && scopes[1..][j] in bucket && r.value == bucket[scopes[1..][j]]
                                     && forall k :: 0 <= k < j ==> scopes[1..][k] !in bucket
    ensures r.None? <==> forall j :: 0 <= j < |scopes| ==> scopes[j] !in bucket
    ensures r.Some? ==> exists j :: 0 <= j < |scopes| && scopes[j] in bucket && r.value == bucket[scopes[j]]
                                    && forall k :: 0 <= k < j ==> scopes[k] !in bucket
  {
    assert forall j :: 0 < j < |scopes| ==> scopes[j] == scopes[1..][j - 1];
    if r.Some? {
      var j :| 0 <= j < |scopes[1..]| && scopes[1..][j] in bucket && r.value == bucket[scopes[1..][j]]
               && forall k :: 0 <= k < j ==> scopes[1..][k] !in bucket;
      assert scopes[j + 1] in bucket && forall k :: 0 <= k < j + 1 ==> scopes[k] !in bucket;
    }
  }

  /** Get's loop at scope `i`: the scope holds an override, or the search goes on after it. */
  lemma FirstStoredStep(bucket: map<StoreScope, Override>, scopes: seq<StoreScope>, i: nat)
    requires i < |scopes|
    ensures FirstStored(bucket, scopes[i..])
              == if scopes[i] in bucket then Some(bucket[scopes[i]]) else FirstStored(bucket, scopes[i + 1..])
  {
    assert scopes[i..][1..] == scopes[i + 1..];
  }

  /** An empty stored state reads as missing. */
  function ReadState(o: Override): (r: Override)
    ensures r.state != Blank
    ensures o.state != Blank ==> r == o
  {
    if o.state == Blank then o.(state := Missing) else o
  }

  /** What Get returns for `key` and `s` against `entries`. */
  function Lookup(entries: map<string, map<StoreScope, Override>>, key: string, s: ScopeSet): (r: (Override, Option<Error>))
    ensures Keys.NormalizeKey(key) == "" ==> r == (MissingOverride(), Some(InvalidStoreKey))
    ensures Keys.NormalizeKey(key) != "" ==> r.1.None? && r.0.state != Blank
  {
    match NormalizeStoreKey(key)
    case Failure(e) => (MissingOverride(), Some(e))
    case Success(normalized) =>
      var bucket := if normalized in entries then entries[normalized] else map[];
      if bucket == map[] then (MissingOverride(), None)
      else
        match FirstStored(bucket, ReadScopes(s))
        case Some(o) => (ReadState(o), None)
        case None => (MissingOverride(), None)
  }

  /** The table after writing `o` at `scope` under `normalized`. */
  function Put(entries: map<string, map<StoreScope, Override>>, normalized: string, scope: StoreScope, o: Override)
    : (r: map<string, map<StoreScope, Override>>)
    ensures normalized in r && scope in r[normalized] && r[normalized][scope] == o
    ensures forall k :: k in r <==> k in entries || k == normalized
    ensures forall k :: k in entries && k != normalized ==> r[k] == entries[k]
    ensures normalized in entries ==> forall sc :: sc != scope ==> (sc in r[normalized] <==> sc in entries[normalized])
    ensures normalized in entries ==> forall sc :: sc != scope && sc in entries[normalized] ==> r[normalized][sc] == entries[normalized][sc]
    ensures normalized !in entries ==> r[normalized] == map[scope := o]
  {
    var bucket := if normalized in entries then entries[normalized] else map[];
    entries[normalized := bucket[scope := o]]
  }

  /** The table without the entry at `scope` under `normalized`; a bucket left empty is dropped. */
  function Dropped(entries: map<string, map<StoreScope, Override>>, normalized: string, scope: StoreScope)
    : (r: map<string, map<StoreScope, Override>>)
    requires normalized in entries
    ensures forall k :: k in r ==> k in entries
    ensures forall k :: k in entries && k != normalized ==> k in r && r[k] == entries[k]
    ensures normalized in r <==> entries[normalized] - {scope} != map[]
    ensures normalized in r ==> r[normalized] == entries[normalized] - {scope}
  {
    var bucket := entries[normalized] - {scope};
    if bucket == map[] then entries - {normalized} else entries[normalized := bucket]
  }

  /** A Set is read back at the same scope set as the concrete override it wrote. */
  lemma SetThenGet(entries: map<string, map<StoreScope, Override>>, key: string, s: ScopeSet, enabled: bool)
    requires Keys.NormalizeKey(key) != ""
    ensures var nk := Keys.NormalizeKey(key);
            Lookup(Put(entries, nk, WriteScope(s), FromBool(enabled)), key, s)
              == (if enabled then EnabledOverride() else DisabledOverride(), None)
  {
    var nk := Keys.NormalizeKey(key);
    var e := Put(entries, nk, WriteScope(s), FromBool(enabled));
    WriteScopeIsFirstRead(s);
    assert e[nk] != map[] by { assert WriteScope(s) in e[nk]; }
  }

  /** An Unset leaves a tombstone: a later Get at that scope reports unset, not missing. */
  lemma UnsetThenGet(entries: map<string, map<StoreScope, Override>>, key: string, s: ScopeSet)
    requires Keys.NormalizeKey(key) != ""
    ensures var nk := Keys.NormalizeKey(key);
            Lookup(Put(entries, nk, WriteScope(s), UnsetOverride()), key, s) == (UnsetOverride(), None)
  {
    var nk := Keys.NormalizeKey(key);
    var e := Put(entries, nk, WriteScope(s), UnsetOverride());
    WriteScopeIsFirstRead(s);
    assert e[nk] != map[] by { assert WriteScope(s) in e[nk]; }
  }

  /** Writing one key leaves every read of any other normalised key as it was. */
  lemma PutFrame(entries: map<string, map<StoreScope, Override>>, nk: string, scope: StoreScope, o: Override,
                 key: string, s: ScopeSet)
    requires Keys.NormalizeKey(key) != "" && Keys.NormalizeKey(key) != nk
    ensures Lookup(Put(entries, nk, scope, o), key, s) == Lookup(entries, key, s)
  {
  }

  /** Get's loop over the read scopes: the override of the first scope the bucket holds. */
  method FirstAlong(bucket: map<StoreScope, Override>, scopes: seq<StoreScope>) returns (found: Option<Override>)
    ensures found == FirstStored(bucket, scopes)
  {
    ghost var target := FirstStored(bucket, scopes);
    var i := 0;
    assert scopes[i..] == scopes;
    while i < |scopes|
      invariant 0 <= i <= |scopes|
      invariant target == FirstStored(bucket, scopes[i..])
    {
      FirstStoredStep(bucket, scopes, i);
      if scopes[i] in bucket {
        return Some(bucket[scopes[i]]);
      }
      i := i + 1;
    }
    assert scopes[i..] == [];
    return None;
  }

  class MemoryStore {
    var entries: map<string, map<StoreScope, Override>>

    /** Keys are normalised, buckets are never empty and no stored state is blank. */
    predicate Valid()
      reads this
    {
      forall k :: k in entries ==>
        k != "" && Keys.NormalizeKey(k) == k && entries[k] != map[]
        && forall sc :: sc in entries[k] ==> entries[k][sc].state != Blank
    }

    /** NewMemoryStore. */
    constructor()
      ensures Valid() && entries == map[]
    {
      entries := map[];
    }

    /** Get: the first override stored along readScopes, blank read as missing; missing when none. */
    method Get(key: string, s: ScopeSet) returns (o: Override, err: Option<Error>)
      ensures (o, err) == Lookup(entries, key, s)
    {
      var r := NormalizeStoreKey(key);
      if r.Failure? {
        return MissingOverride(), Some(r.error);
      }
      var normalized := r.value;
      var bucket := if normalized in entries then entries[normalized] else map[];
      if bucket == map[] {
        return MissingOverride(), None;
      }
      var found := FirstAlong(bucket, ReadScopes(s));
      if found.None? {
        return MissingOverride(), None;
      }
      o := found.value;
      if o.state == Blank {
        o := o.(state := Missing);
      }
      return o, None;
    }

    /** Set: stores the concrete override at the write scope; nothing else changes. */
    method Set(key: string, s: ScopeSet, enabled: bool, actor: ActorRef) returns (err: Option<Error>)
      requires Valid()
      modifies this
      ensures Valid()
      ensures Keys.NormalizeKey(key) == "" ==> err == Some(InvalidStoreKey) && entries == old(entries)
      ensures Keys.NormalizeKey(key) != "" ==>
                err.None? && entries == Put(old(entries), Keys.NormalizeKey(key), WriteScope(s), FromBool(enabled))
    {
      var r := NormalizeStoreKey(key);
      if r.Failure? {
        return Some(r.error);
      }
      Keys.NormalizeKeyIdempotent(key);
      entries := Put(entries, r.value, WriteScope(s), FromBool(enabled));
      return None;
    }

    /** Unset: stores the unset tombstone at the write scope; nothing else changes. */
    method Unset(key: string, s: ScopeSet, actor: ActorRef) returns (err: Option<Error>)
      requires Valid()
      modifies this
      ensures Valid()
      ensures Keys.NormalizeKey(key) == "" ==> err == Some(InvalidStoreKey) && entries == old(entries)
      ensures Keys.NormalizeKey(key) != "" ==>
                err.None? && entries == Put(old(entries), Keys.NormalizeKey(key), WriteScope(s), UnsetOverride())
    {
      var r := NormalizeStoreKey(key);
      if r.Failure? {
        return Some(r.error);
      }
      Keys.NormalizeKeyIdempotent(key);
      entries := Put(entries, r.value, WriteScope(s), UnsetOverride());
      return None;
    }

    /**
     * Delete: true iff an entry existed at the write scope; it is removed and
     * a bucket left empty is dropped.
     */
    method Delete(key: string, s: ScopeSet) returns (removed: bool)
      requires Valid()
      modifies this
      ensures Valid()
      ensures Keys.NormalizeKey(key) == "" ==> !removed
      ensures removed <==> Keys.NormalizeKey(key) != "" && Keys.NormalizeKey(key) in old(entries)
                           && WriteScope(s) in old(entries)[Keys.NormalizeKey(key)]
      ensures !removed ==> entries == old(entries)
      ensures removed ==> entries == Dropped(old(entries), Keys.NormalizeKey(key), WriteScope(s))
    {
      var r := NormalizeStoreKey(key);
      if r.Failure? {
        return false;
      }
      var normalized := r.value;
      var scope := WriteScope(s);
      var bucket := if normalized in entries then entries[normalized] else map[];
      if bucket == map[] {
        return false;
      }
      if scope !in bucket {
        return false;
      }
      entries := Dropped(entries, normalized, scope);
      return true;
    }

    /** Clear: empties the table. */
    method Clear()
      modifies this
      ensures Valid() && entries == map[]
    {
      entries := map[];
    }
  }
}
