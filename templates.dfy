/**
 * The template helpers: feature, feature_any, feature_all, feature_none,
 * feature_if, feature_class and feature_trace. Each parses its key
 * arguments, reads a snapshot of precomputed values from the template data
 * first, and only then asks the gate, passing the scope set found in the
 * template data.
 */
module Templates {
  import opened Wrappers
  import opened Text
  import opened Values
  import opened Errors
  import opened GateTypes
  import Keys
  import Paths
  import Scope

  const TemplateContextKey := "feature_ctx"
  const TemplateScopeKey := "feature_scope"
  const TemplateSnapshotKey := "feature_snapshot"

  // ---------------------------------------------------------------- configuration

  datatype HelperConfig = HelperConfig(contextKey: string, scopeKey: string, snapshotKey: string,
                                       structuredErrors: bool, errorLogging: bool)

  const DefaultHelperConfig := HelperConfig(TemplateContextKey, TemplateScopeKey, TemplateSnapshotKey, false, false)

  /** The helper options; `NilOption` is a nil option, which is skipped. */
  datatype HelperOption =
    | WithContextKey(contextKey: string)
    | WithScopeKey(scopeKey: string)
    | WithSnapshotKey(snapshotKey: string)
    | WithStructuredErrors(structured: bool)
    | WithErrorLogging(logging: bool)
    | NilOption

  /** One option applied to a configuration; key names are stored trimmed. */
  function ApplyOption(cfg: HelperConfig, opt: HelperOption): HelperConfig {
    match opt
    case WithContextKey(k) => cfg.(contextKey := TrimSpace(k))
    case WithScopeKey(k) => cfg.(scopeKey := TrimSpace(k))
    case WithSnapshotKey(k) => cfg.(snapshotKey := TrimSpace(k))
    case WithStructuredErrors(b) => cfg.(structuredErrors := b)
    case WithErrorLogging(b) => cfg.(errorLogging := b)
    case NilOption => cfg
  }

  /** The configuration the options build, applied in order over the defaults. */
  function ConfigOf(opts: seq<HelperOption>): (cfg: HelperConfig)
    ensures IsTrimmed(cfg.contextKey) && IsTrimmed(cfg.scopeKey) && IsTrimmed(cfg.snapshotKey)
    ensures (forall i :: 0 <= i < |opts| ==> !opts[i].WithStructuredErrors?) ==> !cfg.structuredErrors
  {
    if opts == [] then DefaultHelperConfig
    else
      var last := opts[|opts| - 1];
      match last
      case WithContextKey(k) => TrimSpaceTrimmed(k); ApplyOption(ConfigOf(opts[..|opts| - 1]), last)
      case WithScopeKey(k) => TrimSpaceTrimmed(k); ApplyOption(ConfigOf(opts[..|opts| - 1]), last)
      case WithSnapshotKey(k) => TrimSpaceTrimmed(k); ApplyOption(ConfigOf(opts[..|opts| - 1]), last)
      case _ => ApplyOption(ConfigOf(opts[..|opts| - 1]), last)
  }

  /** The gate's Enabled for a key and the scope set passed as resolve option. */
  type EnabledFn = (string, Option<ScopeSet>) -> (bool, Option<Error>)

  /** A traceable gate's ResolveWithTrace. */
  type TraceFn = (string, Option<ScopeSet>) -> (bool, ResolveTrace, Option<Error>)

  /** The helper set; `None` stands for a nil gate or a gate that cannot trace. */
  datatype Helpers = Helpers(gate: Option<EnabledFn>, trace: Option<TraceFn>, cfg: HelperConfig)

  /** The helper names registered; feature_trace only for a traceable gate. */
  function HelperNames(traceable: bool): (r: set<string>)
    ensures "feature_trace" in r <==> traceable
    ensures {"feature", "feature_any", "feature_all", "feature_none", "feature_if", "feature_class"} <= r
  {
    var base := {"feature", "feature_any", "feature_all", "feature_none", "feature_if", "feature_class"};
    if traceable then base + {"feature_trace"} else base
  }

  /** TemplateHelpers: the options applied in order, then the helper set and its names. */
  method TemplateHelpers(gate: Option<EnabledFn>, trace: Option<TraceFn>, opts: seq<HelperOption>)
    returns (h: Helpers, names: set<string>)
    ensures h.cfg == ConfigOf(opts) && h.gate == gate && h.trace == trace
    ensures names == HelperNames(trace.Some?)
  {
    var cfg := DefaultHelperConfig;
    var i := 0;
    while i < |opts|
      invariant 0 <= i <= |opts|
      invariant cfg == ConfigOf(opts[..i])
    {
      assert opts[..i + 1][..i] == opts[..i];
      cfg := ApplyOption(cfg, opts[i]);
      i := i + 1;
    }
    assert opts[..i] == opts;
    h := Helpers(gate, trace, cfg);
    names := HelperNames(trace.Some?);
  }

  // ---------------------------------------------------------------- template data

  /**
   * A value in the template's public data: any plain value, or one of the
   * typed values the helpers recognise (a Snapshot, a trace table, a table
   * of trace pointers, a ScopeSet, a *ScopeSet with `None` for nil).
   */
  datatype TemplateValue =
    | Any(v: Val)
    | SnapshotStruct(values: map<string, bool>, traces: map<string, ResolveTrace>)
    | TraceTable(traces: map<string, ResolveTrace>)
    | TracePtrTable(tracePtrs: map<string, Option<ResolveTrace>>)
    | ScopeSetValue(scope: ScopeSet)
    | ScopeSetPtr(scopePtr: Option<ScopeSet>)

  /** The template data; `None` is a nil execution context or nil public data. */
  type TemplateData = Option<map<string, TemplateValue>>

  /** The entry under a configured key name, with an empty name meaning the default name. */
  function Entry(data: TemplateData, name: string, defaultName: string): Option<TemplateValue> {
    var key := if name == "" then defaultName else name;
    if data.Some? && key in data.value then Some(data.value[key]) else None
  }

  /** The non-nil snapshot value of the template data, if any. */
  function SnapshotOf(cfg: HelperConfig, data: TemplateData): (r: Option<TemplateValue>)
    ensures r.Some? ==> r.value != Any(Nil) && Entry(data, cfg.snapshotKey, TemplateSnapshotKey) == r
  {
    var raw := Entry(data, cfg.snapshotKey, TemplateSnapshotKey);
    if raw == Some(Any(Nil)) then None else raw
  }

  // ---------------------------------------------------------------- scope sets

  /** A string field of a map; "" when absent or not a string. */
  function StrField(data: map<string, Val>, name: string): string {
    if name in data && data[name].Str? then data[name].s else ""
  }

  /** A bool field of a map; false when absent or not a bool. */
  function BoolField(data: map<string, Val>, name: string): bool {
    if name in data && data[name].Bool? then data[name].b else false
  }

  const ZeroScopeSet := ScopeSet("", "", "", false)

  /**
   * scopeFromMap: the tenant, org and user ids and the system flag read from
   * the map; not ok for an empty map or when everything read is empty or false.
   */
  function ScopeFromMap(data: map<string, Val>): (r: Option<ScopeSet>)
    ensures data == map[] ==> r.None?
    ensures data != map[] ==>
              (r.Some? <==> StrField(data, Scope.MetadataTenantID) != "" || StrField(data, Scope.MetadataOrgID) != ""
                            || StrField(data, Scope.MetadataUserID) != "" || BoolField(data, "system"))
    ensures r.Some? ==> r.value == ScopeSet(StrField(data, Scope.MetadataTenantID), StrField(data, Scope.MetadataOrgID),
                                            StrField(data, Scope.MetadataUserID), BoolField(data, "system"))
  {
    if |data| == 0 then None
    else
      var s := ScopeSet(StrField(data, Scope.MetadataTenantID), StrField(data, Scope.MetadataOrgID),
                        StrField(data, Scope.MetadataUserID), BoolField(data, "system"));
      if s == ZeroScopeSet then None else Some(s)
  }

  /** The map holding a scope set's fields under their metadata names. */
  function ScopeMap(s: ScopeSet): map<string, Val> {
    map[Scope.MetadataTenantID := Str(s.tenantId), Scope.MetadataOrgID := Str(s.orgId),
        Scope.MetadataUserID := Str(s.userId), "system" := Bool(s.system)]
  }

  /** A non-zero scope set written out as a map is read back unchanged; the zero one is not ok. */
  lemma ScopeFromMapRoundTrip(s: ScopeSet)
    ensures ScopeFromMap(ScopeMap(s)) == (if s == ZeroScopeSet then None else Some(s))
  {
    var m := ScopeMap(s);
    assert Scope.MetadataTenantID in m;
    assert StrField(m, Scope.MetadataTenantID) == s.tenantId;
    assert StrField(m, Scope.MetadataOrgID) == s.orgId;
    assert StrField(m, Scope.MetadataUserID) == s.userId;
    assert BoolField(m, "system") == s.system;
  }

  /** scopeFromValue: a ScopeSet, a non-nil *ScopeSet, or a map read by scopeFromMap. */
  function ScopeFromValue(v: TemplateValue): (r: Option<ScopeSet>)
    ensures v.ScopeSetValue? ==> r == Some(v.scope)
    ensures v.ScopeSetPtr? ==> r == v.scopePtr
    ensures v.Any? && v.v.Map? ==> r == ScopeFromMap(v.v.m)
    ensures v.Any? && v.v.StrMap? ==> r == ScopeFromMap(StrMapToAny(v.v.sm))
    ensures r.Some? ==> v.ScopeSetValue? || v.ScopeSetPtr? || (v.Any? && (v.v.Map? || v.v.StrMap?))
  {
    match v
    case ScopeSetValue(s) => Some(s)
    case ScopeSetPtr(p) => p
    case Any(Map(m)) => ScopeFromMap(m)
    case Any(StrMap(sm)) => ScopeFromMap(StrMapToAny(sm))
    case _ => None
  }

  /** The scope set the helpers pass to the gate: none when absent, nil or unreadable. */
  function ScopeOf(cfg: HelperConfig, data: TemplateData): Option<ScopeSet> {
    var raw := Entry(data, cfg.scopeKey, TemplateScopeKey);
    if raw.None? || raw == Some(Any(Nil)) then None else ScopeFromValue(raw.value)
  }

  // ---------------------------------------------------------------- snapshots

  /** boolFromValue: a bool or a non-nil *bool. */
  function BoolFromValue(v: Val): (r: Option<bool>)
    ensures r.Some? <==> v.Bool? || (v.BoolPtr? && v.ptr.Some?)
    ensures v.Bool? ==> r == Some(v.b)
    ensures v.BoolPtr? ==> r == v.ptr
  {
    match v
    case Bool(b) => Some(b)
    case BoolPtr(p) => p
    case _ => None
  }

  /**
   * Snapshot.Enabled and Snapshot.Trace: the entry stored under the
   * normalised key, not found for a blank key.
   */
  function SnapshotGet<T>(table: map<string, T>, key: string): (r: Option<T>)
    ensures IsBlank(key) ==> r.None?
    ensures !IsBlank(key) ==> r == (if Keys.NormalizeKey(key) in table then Some(table[Keys.NormalizeKey(key)]) else None)
  {
    var normalized := Keys.NormalizeKey(TrimSpace(key));
    Keys.NormalizeTrimmed(key);
    Keys.NormalizeKeyBlank(key);
    if normalized == "" then None
    else if normalized in table then Some(table[normalized])
    else None
  }

  /** A stored value is found under an alias of its key, padded or not. */
  lemma SnapshotEnabledAlias(values: map<string, bool>, pad1: string, pad2: string)
    requires IsBlank(pad1) && IsBlank(pad2)
    ensures SnapshotGet(values, pad1 + Keys.SelfRegistrationKey + pad2)
         == (if Keys.SignupKey in values then Some(values[Keys.SignupKey]) else None)
  {
    Keys.AliasResolves(pad1, pad2);
    Keys.NormalizeKeyBlank(pad1 + Keys.SelfRegistrationKey + pad2);
  }

  /** The value lookupNestedValue reaches: the walk along the key's segments from the top map. */
  function LookupNestedOf(snapshot: map<string, Val>, key: string): (r: Option<Val>)
    ensures snapshot == map[] || Paths.SplitPathOf(key) == [] ==> r.None?
  {
    if snapshot == map[] then None
    else
      var parts := Paths.SplitPathOf(key);
      if parts == [] then None else Paths.Walk(Map(snapshot), parts)
  }

  /** The nested lookup is the options adapter's path lookup minus its flat top-level key. */
  lemma LookupNestedIsPathLookup(snapshot: map<string, Val>, key: string)
    requires key !in snapshot
    ensures LookupNestedOf(snapshot, key) == Paths.LookupPathOf(snapshot, key)
  {
  }

  /** lookupNestedValue: fails on a missing segment or a non-map on the way. */
  method LookupNestedValue(snapshot: map<string, Val>, key: string) returns (value: Val, found: bool)
    ensures found <==> LookupNestedOf(snapshot, key).Some?
    ensures found ==> value == LookupNestedOf(snapshot, key).value
  {
    if |snapshot| == 0 {
      return Nil, false;
    }
    var parts := Paths.SplitPath(key);
    if |parts| == 0 {
      return Nil, false;
    }
    var current := Map(snapshot);
    var i := 0;
    while i < |parts|
      invariant 0 <= i <= |parts|
      invariant Paths.Walk(Map(snapshot), parts) == Paths.Walk(current, parts[i..])
    {
      assert parts[i..][1..] == parts[i + 1..];
      if !current.Map? || parts[i] !in current.m {
        return Nil, false;
      }
      current := current.m[parts[i]];
      i := i + 1;
    }
    return current, true;
  }

  /** The path of two well-formed segments joined by "." splits back into them. */
  lemma TwoSegments(outer: string, inner: string)
    requires outer != "" && IsTrimmed(outer) && '.' !in outer
    requires inner != "" && IsTrimmed(inner) && '.' !in inner
    ensures Paths.SplitPathOf(outer + "." + inner) == [outer, inner]
  {
    var segs := [outer, inner];
    assert segs[1..] == [inner];
    assert Join(segs, '.') == outer + "." + inner;
    Paths.SplitPathJoin(segs);
  }

  /** A two-segment key reaches a value nested one map down. */
  lemma NestedLookupFinds(outer: string, inner: string, v: Val)
    requires outer != "" && IsTrimmed(outer) && '.' !in outer
    requires inner != "" && IsTrimmed(inner) && '.' !in inner
    ensures LookupNestedOf(map[outer := Map(map[inner := v])], outer + "." + inner) == Some(v)
  {
    TwoSegments(outer, inner);
    var m := map[outer := Map(map[inner := v])];
    assert outer in m;
    var segs := [outer, inner];
    assert segs[1..] == [inner] && [inner][1..] == [];
    assert Paths.Walk(Map(m), segs) == Paths.Walk(Map(map[inner := v]), [inner]);
    assert Paths.Walk(Map(map[inner := v]), [inner]) == Paths.Walk(v, []);
  }

  /** A segment under a value that is not a map is not found. */
  lemma NestedLookupBlocked(outer: string, inner: string, v: Val)
    requires outer != "" && IsTrimmed(outer) && '.' !in outer
    requires inner != "" && IsTrimmed(inner) && '.' !in inner
    requires !v.Map?
    ensures LookupNestedOf(map[outer := v], outer + "." + inner) == None
  {
    TwoSegments(outer, inner);
    var m := map[outer := v];
    assert outer in m;
    var segs := [outer, inner];
    assert segs[1..] == [inner];
    assert Paths.Walk(Map(m), segs) == Paths.Walk(v, [inner]);
  }

  /**
   * snapshotValue: a Snapshot answers by its own normalised lookup; a bool
   * table and a trace table by the exact key; a plain map by the exact key
   * first and then by the nested walk. Anything else has no values.
   */
  function SnapshotValue(snapshot: TemplateValue, key: string): Option<bool>
  {
    match snapshot
    case SnapshotStruct(values, _) => SnapshotGet(values, key)
    case Any(BoolMap(bm)) => if key in bm then Some(bm[key]) else None
    case TraceTable(traces) => if key in traces then Some(traces[key].value) else None
    case Any(Map(m)) =>
      if key in m then BoolFromValue(m[key])
      else (match LookupNestedOf(m, key) case Some(v) => BoolFromValue(v) case None => None)
    case _ => None
  }

  /** A plain-map snapshot is read the way the options adapter looks a path up. */
  lemma PlainSnapshotReadsPath(m: map<string, Val>, key: string)
    ensures SnapshotValue(Any(Map(m)), key)
         == (match Paths.LookupPathOf(m, key) case Some(v) => BoolFromValue(v) case None => None)
  {
    if key !in m {
      LookupNestedIsPathLookup(m, key);
    }
  }

  /** snapshotTrace: a Snapshot's own lookup, a trace table, or a non-nil trace pointer. */
  function SnapshotTrace(snapshot: TemplateValue, key: string): Option<ResolveTrace>
  {
    match snapshot
    case SnapshotStruct(_, traces) => SnapshotGet(traces, key)
    case TraceTable(traces) => if key in traces then Some(traces[key]) else None
    case TracePtrTable(ptrs) => if key in ptrs then ptrs[key] else None
    case _ => None
  }

  /** The snapshot's answer for a key, if the template data holds a snapshot that has one. */
  function SnapshotHit(cfg: HelperConfig, data: TemplateData, key: string): Option<bool> {
    match SnapshotOf(cfg, data)
    case None => None
    case Some(s) => SnapshotValue(s, key)
  }

  // ---------------------------------------------------------------- resolveValue

  const KeyRequired := WrapSentinel(InvalidKey, "feature key is required")
  const GateMissing := WrapSentinel(GateRequired, "feature gate is required")

  /** The outcome of resolveValue, and whether the gate was asked. */
  datatype Resolution = Resolution(value: bool, err: Option<Error>, gateCalled: bool)

  /**
   * resolveValue: an empty key is an invalid-key error; a snapshot answer is
   * used without asking the gate; without a gate the result is a
   * gate-required error; otherwise the gate answers, given the template's
   * scope set.
   */
  function ResolveValue(h: Helpers, data: TemplateData, key: string): (r: Resolution)
    ensures key == "" ==> r == Resolution(false, Some(KeyRequired), false)
    ensures key != "" && SnapshotHit(h.cfg, data, key).Some? ==>
              r == Resolution(SnapshotHit(h.cfg, data, key).value, None, false)
    ensures key != "" && SnapshotHit(h.cfg, data, key).None? && h.gate.None? ==>
              r == Resolution(false, Some(GateMissing), false)
    ensures r.gateCalled <==> key != "" && SnapshotHit(h.cfg, data, key).None? && h.gate.Some?
    ensures r.gateCalled ==> (r.value, r.err) == h.gate.value(key, ScopeOf(h.cfg, data))
    ensures r.err.Some? && !r.gateCalled ==> Is(r.err.value, SentinelError(InvalidKey)) || Is(r.err.value, SentinelError(GateRequired))
  {
    if key == "" then Resolution(false, Some(KeyRequired), false)
    else
      var hit := SnapshotHit(h.cfg, data, key);
      if hit.Some? then Resolution(hit.value, None, false)
      else if h.gate.None? then Resolution(false, Some(GateMissing), false)
      else
        var (value, err) := h.gate.value(key, ScopeOf(h.cfg, data));
        Resolution(value, err, true)
  }

  /** A key counts as enabled when it resolves to true without an error. */
  predicate Enabled(h: Helpers, data: TemplateData, key: string) {
    var res := ResolveValue(h, data, key);
    res.err.None? && res.value
  }

  // ---------------------------------------------------------------- key arguments

  /** parseKey: a string or Stringer whose normalised, trimmed form is not empty. */
  function ParseKey(v: Val): (r: Option<string>)
    ensures r.Some? ==> r.value != "" && Keys.NormalizeKey(r.value) == r.value
    ensures v.Str? ==> r == (if IsBlank(v.s) then None else Some(Keys.NormalizeKey(v.s)))
    ensures v.Stringer? ==> r == (if IsBlank(v.text) then None else Some(Keys.NormalizeKey(v.text)))
    ensures !v.Str? && !v.Stringer? ==> r.None?
  {
    if v.Str? || v.Stringer? then
      var text := if v.Str? then v.s else v.text;
      var normalized := Keys.NormalizeKey(TrimSpace(text));
      Keys.NormalizeTrimmed(text);
      Keys.NormalizeKeyBlank(text);
      Keys.NormalizeKeyIdempotent(text);
      if normalized != "" then Some(normalized) else None
    else None
  }

  /** A []string as the []any of its strings. */
  function StrsOf(strs: seq<string>): (r: seq<Val>)
    ensures |r| == |strs|
  {
    if strs == [] then [] else StrsOf(strs[..|strs| - 1]) + [Str(strs[|strs| - 1])]
  }

  /** flattenKeys: a []string as its strings, a []any as its items, anything else alone. */
  function FlattenKeys(v: Val): seq<Val>
  {
    match v
    case StrList(strs) => StrsOf(strs)
    case List(items) => items
    case _ => [v]
  }

  /** The keys parsed from `items`, in order, with the unparsable ones dropped. */
  function ParsedOf(items: seq<Val>): (r: seq<string>)
    ensures |r| <= |items|
  {
    if items == [] then []
    else
      var last := items[|items| - 1];
      ParsedOf(items[..|items| - 1]) + (match ParseKey(last) case Some(k) => [k] case None => [])
  }

  /** The keys one argument contributes. */
  function KeysOf(v: Val): seq<string> {
    ParsedOf(FlattenKeys(v))
  }

  /** parseKeys: the keys of every argument, flattened, in argument order. */
  function ParseKeysOf(values: seq<Val>): seq<string>
  {
    if values == [] then []
    else ParseKeysOf(values[..|values| - 1]) + KeysOf(values[|values| - 1])
  }

  /** Every key parsed from a list is non-empty and already normalised. */
  lemma {:induction false} ParsedOfNormalized(items: seq<Val>)
    ensures forall i :: 0 <= i < |ParsedOf(items)| ==> ParsedOf(items)[i] != "" && Keys.NormalizeKey(ParsedOf(items)[i]) == ParsedOf(items)[i]
  {
    if items != [] {
      ParsedOfNormalized(items[..|items| - 1]);
    }
  }

  /** Every key parseKeys returns is non-empty and already normalised. */
  lemma {:induction false} ParseKeysNormalized(values: seq<Val>)
    ensures forall i :: 0 <= i < |ParseKeysOf(values)| ==> ParseKeysOf(values)[i] != "" && Keys.NormalizeKey(ParseKeysOf(values)[i]) == ParseKeysOf(values)[i]
  {
    if values != [] {
      ParseKeysNormalized(values[..|values| - 1]);
      ParsedOfNormalized(FlattenKeys(values[|values| - 1]));
    }
  }

  /** A key is parsed from a list exactly when some item parses to it. */
  lemma {:induction false} ParsedOfMembers(items: seq<Val>, k: string)
    ensures k in ParsedOf(items) <==> exists i :: 0 <= i < |items| && ParseKey(items[i]) == Some(k)
  {
    ParsedOfIsCollect(items);
    CollectMembers(ParseKey, items, k);
  }

  /** The values `f` gives along `items`, in order, with the `None`s dropped. */
  function Collect(f: Val -> Option<string>, items: seq<Val>): seq<string> {
    if items == [] then []
    else Collect(f, items[..|items| - 1]) + (match f(items[|items| - 1]) case Some(k) => [k] case None => [])
  }

  lemma {:induction false} ParsedOfIsCollect(items: seq<Val>)
    ensures ParsedOf(items) == Collect(ParseKey, items)
  {
    if items != [] {
      ParsedOfIsCollect(items[..|items| - 1]);
    }
  }

  lemma {:induction false} CollectMembers(f: Val -> Option<string>, items: seq<Val>, k: string)
    ensures k in Collect(f, items) <==> exists i :: 0 <= i < |items| && f(items[i]) == Some(k)
  {
    if items != [] {
      var n := |items| - 1;
      var front := items[..n];
      CollectMembers(f, front, k);
      assert forall i :: 0 <= i < n ==> items[i] == front[i];
    }
  }

  /** The arguments flattened into one list of candidate keys. */
  function AllItems(values: seq<Val>): seq<Val> {
    if values == [] then [] else AllItems(values[..|values| - 1]) + FlattenKeys(values[|values| - 1])
  }

  lemma {:induction false} ParsedOfAppend(a: seq<Val>, b: seq<Val>)
    ensures ParsedOf(a + b) == ParsedOf(a) + ParsedOf(b)
    decreases |b|
  {
    if b != [] {
      var n := |b| - 1;
      assert (a + b)[..|a + b| - 1] == a + b[..n];
      assert (a + b)[|a + b| - 1] == b[n];
      ParsedOfAppend(a, b[..n]);
    } else {
      assert a + b == a;
    }
  }

  /** parseKeys is parseKey over the flattened arguments, keeping the keys that parse. */
  lemma {:induction false} ParseKeysOfFlat(values: seq<Val>)
    ensures ParseKeysOf(values) == ParsedOf(AllItems(values))
  {
    if values != [] {
      var n := |values| - 1;
      ParseKeysOfFlat(values[..n]);
      ParsedOfAppend(AllItems(values[..n]), FlattenKeys(values[n]));
    }
  }

  /** A key is among parseKeys' result exactly when some flattened argument parses to it. */
  lemma ParseKeysOfMembers(values: seq<Val>, k: string)
    ensures k in ParseKeysOf(values) <==> exists i :: 0 <= i < |AllItems(values)| && ParseKey(AllItems(values)[i]) == Some(k)
  {
    ParseKeysOfFlat(values);
    ParsedOfMembers(AllItems(values), k);
  }

  lemma ParsedOfStep(items: seq<Val>, j: nat)
    requires j < |items|
    ensures ParsedOf(items[..j + 1]) == ParsedOf(items[..j]) + (match ParseKey(items[j]) case Some(k) => [k] case None => [])
  {
    assert items[..j + 1][..j] == items[..j];
  }

  lemma ParseKeysOfStep(values: seq<Val>, i: nat)
    requires i < |values|
    ensures ParseKeysOf(values[..i + 1]) == ParseKeysOf(values[..i]) + ParsedOf(FlattenKeys(values[i]))
  {
    assert values[..i + 1][..i] == values[..i];
  }

  /** The inner loop of parseKeys: the keys of one argument's items appended to `keys`. */
  method AppendParsed(keys: seq<string>, items: seq<Val>) returns (out: seq<string>)
    ensures out == keys + ParsedOf(items)
  {
    out := keys;
    var j := 0;
    while j < |items|
      invariant 0 <= j <= |items|
      invariant out == keys + ParsedOf(items[..j])
    {
      ParsedOfStep(items, j);
      var parsed := ParseKey(items[j]);
      if parsed.Some? {
        out := out + [parsed.value];
      }
      j := j + 1;
    }
    assert items[..j] == items;
  }

  method ParseKeys(values: seq<Val>) returns (keys: seq<string>)
    ensures keys == ParseKeysOf(values)
  {
    keys := [];
    var i := 0;
    while i < |values|
      invariant 0 <= i <= |values|
      invariant keys == ParseKeysOf(values[..i])
    {
      ParseKeysOfStep(values, i);
      keys := AppendParsed(keys, FlattenKeys(values[i]));
      i := i + 1;
    }
    assert values[..i] == values;
  }

  // ---------------------------------------------------------------- the helpers

  /** feature: a key that parses and resolves to true without an error. */
  function Feature(h: Helpers, data: TemplateData, key: Val): (r: bool)
    ensures r <==> ParseKey(key).Some? && Enabled(h, data, ParseKey(key).value)
    ensures r && key.Str? ==> !IsBlank(key.s) && Enabled(h, data, Keys.NormalizeKey(key.s))
  {
    match ParseKey(key)
    case None => false
    case Some(k) =>
      var res := ResolveValue(h, data, k);
      if res.err.Some? then false else res.value
  }

  /** One resolveValue call, judged as the quantifier helpers judge it. */
  method KeyEnabled(h: Helpers, data: TemplateData, key: string) returns (b: bool)
    ensures b == Enabled(h, data, key)
  {
    var res := ResolveValue(h, data, key);
    b := res.err.None? && res.value;
  }

  predicate AnyEnabled(h: Helpers, data: TemplateData, keys: seq<string>) {
    exists k :: k in keys && Enabled(h, data, k)
  }

  predicate AllEnabled(h: Helpers, data: TemplateData, keys: seq<string>) {
    forall k :: k in keys ==> Enabled(h, data, k)
  }

  /** feature_any's loop: true at the first enabled key. */
  method AnyLoop(h: Helpers, data: TemplateData, parsed: seq<string>) returns (r: bool)
    ensures r <==> AnyEnabled(h, data, parsed)
  {
    var i := 0;
    while i < |parsed|
      invariant 0 <= i <= |parsed|
      invariant forall j :: 0 <= j < i ==> !Enabled(h, data, parsed[j])
    {
      var b := KeyEnabled(h, data, parsed[i]);
      if b {
        return true;
      }
      i := i + 1;
    }
    return false;
  }

  /** feature_all's loop: false at the first key that is not enabled. */
  method AllLoop(h: Helpers, data: TemplateData, parsed: seq<string>) returns (r: bool)
    ensures r <==> AllEnabled(h, data, parsed)
  {
    var i := 0;
    while i < |parsed|
      invariant 0 <= i <= |parsed|
      invariant forall j :: 0 <= j < i ==> Enabled(h, data, parsed[j])
    {
      var b := KeyEnabled(h, data, parsed[i]);
      if !b {
        assert parsed[i] in parsed;
        return false;
      }
      i := i + 1;
    }
    return true;
  }

  /** feature_any: some parsed key is enabled; false when no key parses. */
  method FeatureAny(h: Helpers, data: TemplateData, values: seq<Val>) returns (r: bool)
    ensures r <==> ParseKeysOf(values) != [] && AnyEnabled(h, data, ParseKeysOf(values))
  {
    var parsed := ParseKeys(values);
    if |parsed| == 0 {
      return false;
    }
    r := AnyLoop(h, data, parsed);
  }

  /** feature_all: every parsed key is enabled; false when no key parses. */
  method FeatureAll(h: Helpers, data: TemplateData, values: seq<Val>) returns (r: bool)
    ensures r <==> ParseKeysOf(values) != [] && AllEnabled(h, data, ParseKeysOf(values))
  {
    var parsed := ParseKeys(values);
    if |parsed| == 0 {
      return false;
    }
    r := AllLoop(h, data, parsed);
  }

  /**
   * feature_none: no parsed key is enabled (an error counts as not enabled);
   * false when no key parses. Its loop is feature_any's with the answer negated.
   */
  method FeatureNone(h: Helpers, data: TemplateData, values: seq<Val>) returns (r: bool)
    ensures r <==> ParseKeysOf(values) != [] && !AnyEnabled(h, data, ParseKeysOf(values))
  {
    var parsed := ParseKeys(values);
    if |parsed| == 0 {
      return false;
    }
    var any := AnyLoop(h, data, parsed);
    r := !any;
  }

  /** With one key, feature_any and feature_all both agree with feature. */
  lemma SingleKeyQuantifiers(h: Helpers, data: TemplateData, key: string)
    ensures var parsed := ParseKeysOf([Str(key)]);
            && (parsed != [] && AnyEnabled(h, data, parsed) <==> Feature(h, data, Str(key)))
            && (parsed != [] && AllEnabled(h, data, parsed) <==> Feature(h, data, Str(key)))
  {
    var one := [Str(key)];
    assert one[..0] == [] && one[0] == Str(key);
    assert ParseKeysOf(one[..0]) == [];
    assert FlattenKeys(Str(key)) == one;
    assert ParsedOf(one[..0]) == [];
    assert ParseKeysOf(one) == (match ParseKey(Str(key)) case Some(k) => [k] case None => []);
  }

  /** When some key parses, every key enabled means some key enabled: feature_all implies feature_any. */
  lemma QuantifierRelations(h: Helpers, data: TemplateData, values: seq<Val>)
    requires ParseKeysOf(values) != []
    ensures AllEnabled(h, data, ParseKeysOf(values)) ==> AnyEnabled(h, data, ParseKeysOf(values))
  {
    var parsed := ParseKeysOf(values);
    assert parsed[0] in parsed;
  }

  // ---------------------------------------------------------------- errors and fallbacks

  /** The type a structured error reports: its text code, else its category, else "error". */
  datatype ErrorType = ByTextCode(code: string) | ByCategory(category: Category) | GenericError

  datatype TemplateError = TemplateError(helper: string, errorType: ErrorType, message: string,
                                         category: Option<Category>, textCode: string)

  /** A helper's result: a template value, a trace, or a structured error. */
  datatype Output = OutValue(v: Val) | OutTrace(trace: ResolveTrace) | OutError(error: TemplateError)

  /**
   * templateError: the message, category and text code of the rich error
   * ferrors.As finds (a sentinel or a Rich error), typed by its text code,
   * else by its category; any other error's text with the generic type.
   */
  function TemplateErrorOf(helper: string, err: Error): (r: TemplateError)
    ensures r.helper == helper
    ensures AsRich(err).Some? ==>
              var v := AsRich(err).value;
              r.message == v.message && r.category == Some(v.category) && r.textCode == v.textCode
              && r.errorType == (if v.textCode != "" then ByTextCode(v.textCode) else ByCategory(v.category))
    ensures err.SentinelError? ==> r.errorType == ByTextCode(TextCodeOf(err.sentinel))
                                    && r.message == MessageOf(err.sentinel)
    ensures AsRich(err).None? ==> r == TemplateError(helper, GenericError, ErrorText(err), None, "")
  {
    match AsRich(err)
    case Some(v) =>
      TemplateError(helper, if v.textCode != "" then ByTextCode(v.textCode) else ByCategory(v.category),
                    v.message, Some(v.category), v.textCode)
    case None => TemplateError(helper, GenericError, ErrorText(err), None, "")
  }

  /** A bare sentinel and the sentinel wrapped without a message render the same template error. */
  lemma SentinelTemplateError(helper: string, s: Sentinel)
    ensures TemplateErrorOf(helper, SentinelError(s)) == TemplateErrorOf(helper, WrapSentinel(s, ""))
    ensures TemplateErrorOf(helper, SentinelError(s)).category == Some(CategoryOf(s))
  {
    WrapSentinelSameView(s);
  }

  /** errorOrFallback: the structured error when enabled, otherwise the fallback. */
  function ErrorOrFallback(cfg: HelperConfig, helper: string, err: Error, fallback: Output): (r: Output)
    ensures cfg.structuredErrors ==> r.OutError? && r.error.helper == helper
    ensures cfg.structuredErrors ==> r.error == TemplateErrorOf(helper, err)
    ensures !cfg.structuredErrors ==> r == fallback
  {
    if cfg.structuredErrors then OutError(TemplateErrorOf(helper, err)) else fallback
  }

  /** The fallback of feature_if and feature_class: the first optional argument, else "". */
  function FallbackOf(whenFalse: seq<Val>): Output {
    OutValue(if |whenFalse| > 0 then whenFalse[0] else Str(""))
  }

  /**
   * The shared body of feature_if and feature_class: `whenTrue` when the key
   * is enabled, the fallback when it resolves to false, and the fallback or
   * a structured error when the key does not parse or does not resolve.
   */
  function Select(h: Helpers, data: TemplateData, helper: string, key: Val, whenTrue: Val, whenFalse: seq<Val>)
    : (r: Output)
    ensures Feature(h, data, key) ==> r == OutValue(whenTrue)
    ensures !h.cfg.structuredErrors && !Feature(h, data, key) ==> r == FallbackOf(whenFalse)
    ensures ParseKey(key).None? ==> r == ErrorOrFallback(h.cfg, helper, KeyRequired, FallbackOf(whenFalse))
    ensures ParseKey(key).Some? && ResolveValue(h, data, ParseKey(key).value).err.Some? ==>
              r == ErrorOrFallback(h.cfg, helper, ResolveValue(h, data, ParseKey(key).value).err.value, FallbackOf(whenFalse))
    ensures ParseKey(key).Some? && ResolveValue(h, data, ParseKey(key).value).err.None? ==>
              r == (if ResolveValue(h, data, ParseKey(key).value).value then OutValue(whenTrue) else FallbackOf(whenFalse))
  {
    var fallback := FallbackOf(whenFalse);
    match ParseKey(key)
    case None => ErrorOrFallback(h.cfg, helper, KeyRequired, fallback)
    case Some(k) =>
      var res := ResolveValue(h, data, k);
      if res.err.Some? then ErrorOrFallback(h.cfg, helper, res.err.value, fallback)
      else if res.value then OutValue(whenTrue)
      else fallback
  }

  function FeatureIf(h: Helpers, data: TemplateData, key: Val, whenTrue: Val, whenFalse: seq<Val>): Output {
    Select(h, data, "feature_if", key, whenTrue, whenFalse)
  }

  function FeatureClass(h: Helpers, data: TemplateData, key: Val, on: Val, off: seq<Val>): Output {
    Select(h, data, "feature_class", key, on, off)
  }

  /**
   * feature_if and feature_class give the same output on the same arguments,
   * except that a structured error names the helper it came from.
   */
  lemma FeatureIfClassAgree(h: Helpers, data: TemplateData, key: Val, whenTrue: Val, whenFalse: seq<Val>)
    ensures var i := FeatureIf(h, data, key, whenTrue, whenFalse);
            var c := FeatureClass(h, data, key, whenTrue, whenFalse);
            (i.OutError? <==> c.OutError?)
            && (!i.OutError? ==> i == c)
            && (i.OutError? ==> i.error.helper == "feature_if" && c.error.helper == "feature_class"
                                && i.error.(helper := "feature_class") == c.error)
  {
  }

  /**
   * feature_trace: a snapshot trace first; nil without a traceable gate;
   * otherwise the gate's trace, with its error or an invalid key going
   * through errorOrFallback with a nil fallback.
   */
  function FeatureTrace(h: Helpers, data: TemplateData, key: Val): (r: Output)
    ensures ParseKey(key).None? ==> r == ErrorOrFallback(h.cfg, "feature_trace", KeyRequired, OutValue(Nil))
    ensures ParseKey(key).Some? && SnapshotOf(h.cfg, data).Some?
            && SnapshotTrace(SnapshotOf(h.cfg, data).value, ParseKey(key).value).Some? ==>
              r == OutTrace(SnapshotTrace(SnapshotOf(h.cfg, data).value, ParseKey(key).value).value)
    ensures ParseKey(key).Some? && h.trace.None? && r != OutValue(Nil) ==> r.OutTrace?
    ensures r.OutError? ==> h.cfg.structuredErrors && r.error.helper == "feature_trace"
  {
    match ParseKey(key)
    case None => ErrorOrFallback(h.cfg, "feature_trace", KeyRequired, OutValue(Nil))
    case Some(k) =>
      var snap := SnapshotOf(h.cfg, data);
      var hit := if snap.Some? then SnapshotTrace(snap.value, k) else None;
      if hit.Some? then OutTrace(hit.value)
      else if h.trace.None? then OutValue(Nil)
      else
        var (_, trace, err) := h.trace.value(k, ScopeOf(h.cfg, data));
        if err.Some? then ErrorOrFallback(h.cfg, "feature_trace", err.value, OutValue(Nil))
        else OutTrace(trace)
  }

  // ---------------------------------------------------------------- the package's test cases

  /** A gate that always answers `value` with `err`, whatever the key and scope. */
  function StubGate(value: bool, err: Option<Error>): EnabledFn {
    (key: string, scope: Option<ScopeSet>) => (value, err)
  }

  lemma SignupParses()
    ensures ParseKey(Str(Keys.SignupKey)) == Some(Keys.SignupKey)
  {
    Keys.SignupKeyTrimmed();
    Keys.AliasResolves("", "");
    assert "" + Keys.SignupKey + "" == Keys.SignupKey;
    Keys.NormalizeKeyBlank(Keys.SignupKey);
  }

  const ScopeIds := map[Scope.MetadataTenantID := Str("tenant-1"), Scope.MetadataOrgID := Str("org-1"),
                        Scope.MetadataUserID := Str("user-1")]

  const ScopeData: TemplateData := Some(map[TemplateScopeKey := Any(Map(ScopeIds))])

  lemma ScopeDataRead()
    ensures ScopeOf(DefaultHelperConfig, ScopeData) == Some(ScopeSet("tenant-1", "org-1", "user-1", false))
  {
    assert StrField(ScopeIds, Scope.MetadataUserID) == "user-1";
    assert StrField(ScopeIds, Scope.MetadataOrgID) == "org-1";
    assert StrField(ScopeIds, Scope.MetadataTenantID) == "tenant-1";
    assert !BoolField(ScopeIds, "system");
  }

  /** A scope map in the template data reaches the gate as its scope set. */
  lemma ScopeOverrideApplied()
    ensures var h := Helpers(Some(StubGate(true, None)), None, ConfigOf([]));
            && ScopeOf(h.cfg, ScopeData) == Some(ScopeSet("tenant-1", "org-1", "user-1", false))
            && Feature(h, ScopeData, Str(Keys.SignupKey))
  {
    SignupParses();
    ScopeDataRead();
    assert ConfigOf([]) == DefaultHelperConfig;
    assert SnapshotOf(DefaultHelperConfig, ScopeData) == None;
  }

  const SnapshotData: TemplateData := Some(map[TemplateSnapshotKey := Any(BoolMap(map[Keys.SignupKey := true]))])

  lemma SnapshotDataHit()
    ensures SnapshotHit(DefaultHelperConfig, SnapshotData, Keys.SignupKey) == Some(true)
  {
    assert SnapshotOf(DefaultHelperConfig, SnapshotData) == Some(Any(BoolMap(map[Keys.SignupKey := true])));
  }

  /** A snapshot value wins over the gate, which is not asked. */
  lemma SnapshotPrecedence()
    ensures var h := Helpers(Some(StubGate(false, None)), None, ConfigOf([]));
            && Feature(h, SnapshotData, Str(Keys.SignupKey))
            && !ResolveValue(h, SnapshotData, Keys.SignupKey).gateCalled
  {
    SignupParses();
    SnapshotDataHit();
    assert ConfigOf([]) == DefaultHelperConfig;
  }

  /** A gate error makes feature_if return its fallback. */
  lemma ErrorFallback()
    ensures var data: TemplateData := Some(map[]);
            var h := Helpers(Some(StubGate(false, Some(Plain("boom")))), None, ConfigOf([]));
            FeatureIf(h, data, Str(Keys.SignupKey), Str("on"), [Str("off")]) == OutValue(Str("off"))
  {
    SignupParses();
  }
}
