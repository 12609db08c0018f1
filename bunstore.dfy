/**
 * The override store over a SQL table of feature flag records keyed by
 * (key, scope_type, scope_id): reads try the scopes most specific first,
 * writes upsert the record of the write scope, Unset upserts a record with
 * no value (a tombstone) and Delete removes the record.
 */
module BunStore {
  import opened Wrappers
  import opened Text
  import opened Errors
  import opened GateTypes
  import opened Overrides
  import Keys

  const DefaultTable := "feature_flags"

  const DBRequiredError := Plain("bunadapter: db is required")
  const InvalidKeyError := Plain("bunadapter: feature key required")

  datatype BunKind = SystemKind | TenantKind | OrgKind | UserKind

  function KindName(k: BunKind): (r: string)
    ensures r in {"system", "tenant", "org", "user"}
  {
    match k
    case SystemKind => "system"
    case TenantKind => "tenant"
    case OrgKind => "org"
    case UserKind => "user"
  }

  lemma KindNameInjective(a: BunKind, b: BunKind)
    requires KindName(a) == KindName(b)
    ensures a == b
  {
  }

  datatype BunScope = BunScope(kind: BunKind, id: string)

  /** A row of the feature flag table; `enabled` is the nullable boolean column. */
  datatype Record = Record(key: string, scopeType: string, scopeId: string, enabled: Option<bool>,
                           updatedBy: string, updatedAt: int)

  /** The table's primary key: key, scope type, scope id. */
  type RowKey = (string, string, string)

  function RowOf(nk: string, scope: BunScope): RowKey {
    (nk, KindName(scope.kind), scope.id)
  }

  /** readScopes: user, org and tenant when set, then always system (with an empty id). */
  function ReadScopes(s: ScopeSet): (r: seq<BunScope>)
    ensures |r| >= 1 && r[|r| - 1] == BunScope(SystemKind, "")
    ensures BunScope(UserKind, s.userId) in r <==> s.userId != ""
    ensures BunScope(OrgKind, s.orgId) in r <==> s.orgId != ""
    ensures BunScope(TenantKind, s.tenantId) in r <==> s.tenantId != ""
    ensures forall i, j :: 0 <= i < j < |r| ==> r[i].kind != r[j].kind
  {
    (if s.userId != "" then [BunScope(UserKind, s.userId)] else [])
    + (if s.orgId != "" then [BunScope(OrgKind, s.orgId)] else [])
    + (if s.tenantId != "" then [BunScope(TenantKind, s.tenantId)] else [])
    + [BunScope(SystemKind, "")]
  }

  /** writeScope: the most specific scope set: user, else org, else tenant, else system. */
  function WriteScope(s: ScopeSet): (r: BunScope)
    ensures s.userId != "" ==> r == BunScope(UserKind, s.userId)
    ensures s.userId == "" && s.orgId != "" ==> r == BunScope(OrgKind, s.orgId)
    ensures s.userId == "" && s.orgId == "" && s.tenantId != "" ==> r == BunScope(TenantKind, s.tenantId)
    ensures s.userId == "" && s.orgId == "" && s.tenantId == "" ==> r == BunScope(SystemKind, "")
  {
    if s.userId != "" then BunScope(UserKind, s.userId)
    else if s.orgId != "" then BunScope(OrgKind, s.orgId)
    else if s.tenantId != "" then BunScope(TenantKind, s.tenantId)
    else BunScope(SystemKind, "")
  }

  lemma WriteScopeIsFirstRead(s: ScopeSet)
    ensures WriteScope(s) == ReadScopes(s)[0]
  {
  }

  /** overrideFromRecord: a null value is unset, true enabled, false disabled. */
  function OverrideFromRecord(rec: Record): (r: Override)
    ensures rec.enabled.None? ==> r == UnsetOverride()
    ensures rec.enabled.Some? ==> r == FromBool(rec.enabled.value) && r.HasValue()
  {
    if rec.enabled.None? then UnsetOverride()
    else if rec.enabled.value then EnabledOverride()
    else DisabledOverride()
  }

  /** defaultUpdatedBy: the actor's id, else its name, else its type, else "". */
  function DefaultUpdatedBy(actor: ActorRef): (r: string)
    ensures actor.id != "" ==> r == actor.id
    ensures actor.id == "" && actor.name != "" ==> r == actor.name
    ensures actor.id == "" && actor.name == "" ==> r == actor.actorType
    ensures r == "" <==> actor.id == "" && actor.name == "" && actor.actorType == ""
  {
    if actor.id != "" then actor.id
    else if actor.name != "" then actor.name
    else if actor.actorType != "" then actor.actorType
    else ""
  }

  /** normalizeKey: the gate's normalised key of the trimmed key, or the adapter's invalid-key error. */
  function NormalizeBunKey(key: string): (r: Result<string, Error>)
    ensures r.Failure? <==> IsBlank(key)
    ensures r.Failure? ==> r.error == InvalidKeyError
    ensures r.Success? ==> r.value == Keys.NormalizeKey(key)
  {
    var normalized := Keys.NormalizeKey(TrimSpace(key));
    Keys.NormalizeTrimmed(key);
    Keys.NormalizeKeyBlank(key);
    if normalized == "" then Failure(InvalidKeyError) else Success(normalized)
  }

  /**
   * The Get loop: the first scope with a row decides; a missing row moves on;
   * any other query error aborts with missing; missing when no row is found.
   */
  function ReadAlong(rows: map<RowKey, Record>, faults: map<RowKey, Error>, nk: string, scopes: seq<BunScope>)
    : (r: (Override, Option<Error>))
    decreases |scopes|
  {
    if scopes == [] then (MissingOverride(), None)
    else
      var row := RowOf(nk, scopes[0]);
      if row in faults then (MissingOverride(), Some(faults[row]))
      else if row in rows then (OverrideFromRecord(rows[row]), None)
      else ReadAlong(rows, faults, nk, scopes[1..])
  }

  lemma ReadAlongStep(rows: map<RowKey, Record>, faults: map<RowKey, Error>, nk: string, scopes: seq<BunScope>, i: nat)
    requires i < |scopes|
    ensures var row := RowOf(nk, scopes[i]);
            ReadAlong(rows, faults, nk, scopes[i..])
              == if row in faults then (MissingOverride(), Some(faults[row]))
                 else if row in rows then (OverrideFromRecord(rows[row]), None)
                 else ReadAlong(rows, faults, nk, scopes[i + 1..])
  {
    assert scopes[i..][1..] == scopes[i + 1..];
  }

  /** The upserted row: inserted, or on conflict its value, updater and time replaced. */
  function Upserted(rows: map<RowKey, Record>, nk: string, scope: BunScope, enabled: Option<bool>, updater: string, at: int)
    : (r: map<RowKey, Record>)
    ensures RowOf(nk, scope) in r && r[RowOf(nk, scope)].enabled == enabled
    ensures r[RowOf(nk, scope)].updatedBy == updater && r[RowOf(nk, scope)].updatedAt == at
    ensures r.Keys == rows.Keys + {RowOf(nk, scope)}
    ensures forall k :: k in rows && k != RowOf(nk, scope) ==> r[k] == rows[k]
  {
    rows[RowOf(nk, scope) := Record(nk, KindName(scope.kind), scope.id, enabled, updater, at)]
  }

  /** Set then Get at the same scope set reads the written value, given no failing query at the write scope. */
  lemma SetThenGet(rows: map<RowKey, Record>, faults: map<RowKey, Error>, key: string, s: ScopeSet,
                   enabled: bool, updater: string, at: int)
    requires !IsBlank(key)
    requires RowOf(Keys.NormalizeKey(key), WriteScope(s)) !in faults
    ensures var nk := Keys.NormalizeKey(key);
            ReadAlong(Upserted(rows, nk, WriteScope(s), Some(enabled), updater, at), faults, nk, ReadScopes(s))
              == (FromBool(enabled), None)
  {
    WriteScopeIsFirstRead(s);
  }

  /** Unset's tombstone: a later Get at the same scope set reads unset, not missing. */
  lemma UnsetThenGet(rows: map<RowKey, Record>, faults: map<RowKey, Error>, key: string, s: ScopeSet, updater: string, at: int)
    requires !IsBlank(key)
    requires RowOf(Keys.NormalizeKey(key), WriteScope(s)) !in faults
    ensures var nk := Keys.NormalizeKey(key);
            ReadAlong(Upserted(rows, nk, WriteScope(s), None, updater, at), faults, nk, ReadScopes(s)) == (UnsetOverride(), None)
  {
    WriteScopeIsFirstRead(s);
  }

  /** Delete removes the row, so a later Get reads on from the next scope. */
  lemma DeleteThenGet(rows: map<RowKey, Record>, faults: map<RowKey, Error>, key: string, s: ScopeSet)
    requires !IsBlank(key)
    requires RowOf(Keys.NormalizeKey(key), WriteScope(s)) !in faults
    ensures var nk := Keys.NormalizeKey(key);
            var rows' := rows - {RowOf(nk, WriteScope(s))};
            ReadAlong(rows', faults, nk, ReadScopes(s)) == ReadAlong(rows', faults, nk, ReadScopes(s)[1..])
  {
    WriteScopeIsFirstRead(s);
  }

  datatype BunOption = WithTable(table: string) | WithUpdatedByBuilder(builder: Option<ActorRef -> string>)

  /** The table name and updated_by builder the options leave, applied in order. */
  function Configure(opts: seq<BunOption>): (string, Option<ActorRef -> string>)
  {
    if opts == [] then (DefaultTable, Some(DefaultUpdatedBy))
    else
      var st := Configure(opts[..|opts| - 1]);
      match opts[|opts| - 1]
      case WithTable(t) => (TrimSpace(t), st.1)
      case WithUpdatedByBuilder(b) => (st.0, b)
  }

  class BunStore {
    const hasDB: bool
    const table: string
    const updatedBy: ActorRef -> string
    /** The table's rows, by primary key. */
    var rows: map<RowKey, Record>
    /** Rows whose query fails with an error other than no rows. */
    const readFaults: map<RowKey, Error>
    /** Rows whose insert or delete fails. */
    const writeFaults: map<RowKey, Error>

    /** NewStore: a blank table name becomes the default table, a nil builder the default one. */
    constructor (hasDB: bool, opts: seq<BunOption>, rows: map<RowKey, Record>,
                 readFaults: map<RowKey, Error>, writeFaults: map<RowKey, Error>)
      ensures table == (if Configure(opts).0 == "" then DefaultTable else Configure(opts).0)
      ensures Configure(opts).1.Some? ==> updatedBy == Configure(opts).1.value
      ensures Configure(opts).1.None? ==> updatedBy == DefaultUpdatedBy
      ensures table != ""
      ensures this.hasDB == hasDB && this.rows == rows && this.readFaults == readFaults && this.writeFaults == writeFaults
    {
      var t := DefaultTable;
      var b: Option<ActorRef -> string> := Some(DefaultUpdatedBy);
      var i := 0;
      while i < |opts|
        invariant 0 <= i <= |opts|
        invariant (t, b) == Configure(opts[..i])
      {
        assert opts[..i + 1][..i] == opts[..i];
        match opts[i] {
          case WithTable(x) => t := TrimSpace(x);
          case WithUpdatedByBuilder(x) => b := x;
        }
        i := i + 1;
      }
      assert opts[..i] == opts;
      this.hasDB := hasDB;
      this.table := if t == "" then DefaultTable else t;
      var builder: ActorRef -> string := DefaultUpdatedBy;
      if b.Some? {
        builder := b.value;
      }
      this.updatedBy := builder;
      this.rows := rows;
      this.readFaults := readFaults;
      this.writeFaults := writeFaults;
    }

    method Get(key: string, s: ScopeSet) returns (o: Override, err: Option<Error>)
      ensures !hasDB ==> (o, err) == (MissingOverride(), Some(DBRequiredError))
      ensures hasDB && IsBlank(key) ==> (o, err) == (MissingOverride(), Some(InvalidKeyError))
      ensures hasDB && !IsBlank(key) ==> (o, err) == ReadAlong(rows, readFaults, Keys.NormalizeKey(key), ReadScopes(s))
    {
      if !hasDB {
        return MissingOverride(), Some(DBRequiredError);
      }
      var normalized := NormalizeBunKey(key);
      if normalized.Failure? {
        return MissingOverride(), Some(normalized.error);
      }
      var nk := normalized.value;
      var scopes := ReadScopes(s);
      var i := 0;
      while i < |scopes|
        invariant 0 <= i <= |scopes|
        invariant ReadAlong(rows, readFaults, nk, scopes) == ReadAlong(rows, readFaults, nk, scopes[i..])
      {
        ReadAlongStep(rows, readFaults, nk, scopes, i);
        var row := RowOf(nk, scopes[i]);
        if row in readFaults {
          return MissingOverride(), Some(readFaults[row]);
        }
        if row in rows {
          return OverrideFromRecord(rows[row]), None;
        }
        i := i + 1;
      }
      return MissingOverride(), None;
    }

    /** upsert: writes the record of the write scope, stamped with the updater and the time `at` the clock gives. */
    method Upsert(nk: string, scope: BunScope, enabled: Option<bool>, actor: ActorRef, at: int) returns (err: Option<Error>)
      modifies this
      ensures RowOf(nk, scope) in writeFaults ==> err == Some(writeFaults[RowOf(nk, scope)]) && rows == old(rows)
      ensures RowOf(nk, scope) !in writeFaults ==> err.None? && rows == Upserted(old(rows), nk, scope, enabled, updatedBy(actor), at)
    {
      var row := RowOf(nk, scope);
      if row in writeFaults {
        return Some(writeFaults[row]);
      }
      rows := rows[row := Record(nk, KindName(scope.kind), scope.id, enabled, updatedBy(actor), at)];
      return None;
    }

    method Set(key: string, s: ScopeSet, enabled: bool, actor: ActorRef, at: int) returns (err: Option<Error>)
      modifies this
      ensures !hasDB ==> err == Some(DBRequiredError) && rows == old(rows)
      ensures hasDB && IsBlank(key) ==> err == Some(InvalidKeyError) && rows == old(rows)
      ensures hasDB && !IsBlank(key) ==>
                var row := RowOf(Keys.NormalizeKey(key), WriteScope(s));
                if row in writeFaults then err == Some(writeFaults[row]) && rows == old(rows)
                else err.None? && rows == Upserted(old(rows), Keys.NormalizeKey(key), WriteScope(s), Some(enabled), updatedBy(actor), at)
    {
      if !hasDB {
        return Some(DBRequiredError);
      }
      var normalized := NormalizeBunKey(key);
      if normalized.Failure? {
        return Some(normalized.error);
      }
      err := Upsert(normalized.value, WriteScope(s), Some(enabled), actor, at);
    }

    method Unset(key: string, s: ScopeSet, actor: ActorRef, at: int) returns (err: Option<Error>)
      modifies this
      ensures !hasDB ==> err == Some(DBRequiredError) && rows == old(rows)
      ensures hasDB && IsBlank(key) ==> err == Some(InvalidKeyError) && rows == old(rows)
      ensures hasDB && !IsBlank(key) ==>
                var row := RowOf(Keys.NormalizeKey(key), WriteScope(s));
                if row in writeFaults then err == Some(writeFaults[row]) && rows == old(rows)
                else err.None? && rows == Upserted(old(rows), Keys.NormalizeKey(key), WriteScope(s), None, updatedBy(actor), at)
    {
      if !hasDB {
        return Some(DBRequiredError);
      }
      var normalized := NormalizeBunKey(key);
      if normalized.Failure? {
        return Some(normalized.error);
      }
      err := Upsert(normalized.value, WriteScope(s), None, actor, at);
    }

    /** Delete: removes the write scope's row; a missing row is no error. */
    method Delete(key: string, s: ScopeSet) returns (err: Option<Error>)
      modifies this
      ensures !hasDB ==> err == Some(DBRequiredError) && rows == old(rows)
      ensures hasDB && IsBlank(key) ==> err == Some(InvalidKeyError) && rows == old(rows)
      ensures hasDB && !IsBlank(key) ==>
                var row := RowOf(Keys.NormalizeKey(key), WriteScope(s));
                if row in writeFaults then err == Some(writeFaults[row]) && rows == old(rows)
                else err.None? && rows == old(rows) - {row}
    {
      if !hasDB {
        return Some(DBRequiredError);
      }
      var normalized := NormalizeBunKey(key);
      if normalized.Failure? {
        return Some(normalized.error);
      }
      var row := RowOf(normalized.value, WriteScope(s));
      if row in writeFaults {
        return Some(writeFaults[row]);
      }
      rows := rows - {row};
      return None;
    }
  }
}
