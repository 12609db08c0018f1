/**
 * Dotted paths over a snapshot, a `map[string]any` tree: splitting a path
 * into segments, looking a path up (a flat top-level key first, then the
 * nested walk), setting a value with missing intermediate maps created,
 * deleting a leaf with emptied ancestor maps pruned, and flattening a tree
 * into dot-joined leaf paths.
 */
module Paths {
  import opened Wrappers
  import opened Text
  import opened Values
  import opened Flat
  import opened Errors

  type Snapshot = map<string, Val>

  const PathEmpty := WrapSentinel(PathRequired, "optionsadapter: path is empty")
  const PathNotMap := WrapSentinel(PathInvalid, "optionsadapter: path segment is not a map")

  // ---------------------------------------------------------------- splitPath

  /** The trimmed, non-blank pieces of `parts`, in order. */
  function Kept(parts: seq<string>): (r: seq<string>)
    ensures |r| <= |parts|
    ensures forall i :: 0 <= i < |r| ==> r[i] != "" && IsTrimmed(r[i])
  {
    if parts == [] then []
    else
      var last := TrimSpace(parts[|parts| - 1]);
      TrimSpaceTrimmed(parts[|parts| - 1]);
      Kept(parts[..|parts| - 1]) + (if last == "" then [] else [last])
  }

  /** The characters of a trimmed string all occur in it. */
  lemma TrimSpaceChars(s: string)
    ensures forall c :: c in TrimSpace(s) ==> c in s
  {
    var lo := TrimSpaceSlice(s);
    forall c | c in TrimSpace(s) ensures c in s {
      var i :| 0 <= i < |TrimSpace(s)| && TrimSpace(s)[i] == c;
      assert s[lo + i] == c;
    }
  }

  lemma {:induction false} KeptNoSep(parts: seq<string>, sep: char)
    requires forall i :: 0 <= i < |parts| ==> sep !in parts[i]
    ensures forall i :: 0 <= i < |Kept(parts)| ==> sep !in Kept(parts)[i]
  {
    if parts != [] {
      KeptNoSep(parts[..|parts| - 1], sep);
      TrimSpaceChars(parts[|parts| - 1]);
    }
  }

  /** splitPath: the path trimmed, split on ".", each piece trimmed, blank pieces dropped. */
  function SplitPathOf(path: string): (r: seq<string>)
    ensures IsBlank(path) ==> r == []
    ensures forall i :: 0 <= i < |r| ==> r[i] != "" && IsTrimmed(r[i]) && '.' !in r[i]
  {
    var trimmed := TrimSpace(path);
    TrimSpaceEmptyIffBlank(path);
    if trimmed == "" then []
    else
      KeptNoSep(Split(trimmed, '.'), '.');
      Kept(Split(trimmed, '.'))
  }

  method SplitPath(path: string) returns (out: seq<string>)
    ensures out == SplitPathOf(path)
  {
    var trimmed := TrimSpace(path);
    if trimmed == "" {
      return [];
    }
    var parts := Split(trimmed, '.');
    out := [];
    var i := 0;
    while i < |parts|
      invariant 0 <= i <= |parts|
      invariant out == Kept(parts[..i])
    {
      var part := TrimSpace(parts[i]);
      assert parts[..i + 1][..i] == parts[..i];
      if part != "" {
        out := out + [part];
      }
      i := i + 1;
    }
    assert parts[..i] == parts;
  }

  /** Splitting a string without the separator gives the string itself. */
  lemma {:induction false} SplitNoSep(x: string, sep: char)
    requires sep !in x
    ensures Split(x, sep) == [x]
  {
    if x != [] {
      SplitNoSep(x[1..], sep);
      assert [x[0]] + x[1..] == x;
    }
  }

  /** A separator that is not in `x` splits x + [sep] + y right after x. */
  lemma {:induction false} SplitAfter(x: string, y: string, sep: char)
    requires sep !in x
    ensures Split(x + [sep] + y, sep) == [x] + Split(y, sep)
  {
    if x == [] {
      assert x + [sep] + y == [sep] + y;
      assert ([sep] + y)[1..] == y;
    } else {
      var s := x + [sep] + y;
      assert s[1..] == x[1..] + [sep] + y;
      SplitAfter(x[1..], y, sep);
      var rest := Split(s[1..], sep);
      assert rest == [x[1..]] + Split(y, sep);
      assert [x[0]] + x[1..] == x;
    }
  }

  /** Splitting a join of separator-free pieces gives the pieces back. */
  lemma {:induction false} SplitJoin(parts: seq<string>, sep: char)
    requires parts != []
    requires forall i :: 0 <= i < |parts| ==> sep !in parts[i]
    ensures Split(Join(parts, sep), sep) == parts
  {
    if |parts| == 1 {
      SplitNoSep(parts[0], sep);
    } else {
      SplitJoin(parts[1..], sep);
      SplitAfter(parts[0], Join(parts[1..], sep), sep);
    }
  }

  /** A join of non-empty trimmed pieces starts and ends with a non-space. */
  lemma {:induction false} JoinTrimmed(parts: seq<string>, sep: char)
    requires parts != [] && !IsSpace(sep)
    requires forall i :: 0 <= i < |parts| ==> parts[i] != "" && IsTrimmed(parts[i])
    ensures Join(parts, sep) != [] && IsTrimmed(Join(parts, sep))
    ensures Join(parts, sep)[0] == parts[0][0]
    ensures Join(parts, sep)[|Join(parts, sep)| - 1] == parts[|parts| - 1][|parts[|parts| - 1]| - 1]
  {
    if |parts| > 1 {
      JoinTrimmed(parts[1..], sep);
      var j := Join(parts, sep);
      assert j == parts[0] + [sep] + Join(parts[1..], sep);
      assert j[0] == parts[0][0];
      assert j[|j| - 1] == Join(parts[1..], sep)[|Join(parts[1..], sep)| - 1];
    }
  }

  lemma {:induction false} KeptOfTrimmed(parts: seq<string>)
    requires forall i :: 0 <= i < |parts| ==> parts[i] != "" && IsTrimmed(parts[i])
    ensures Kept(parts) == parts
  {
    if parts != [] {
      KeptOfTrimmed(parts[..|parts| - 1]);
      TrimSpaceOfTrimmed(parts[|parts| - 1]);
    }
  }

  /** Joining well-formed segments with "." and splitting the result gives them back. */
  lemma SplitPathJoin(segs: seq<string>)
    requires segs != []
    requires forall i :: 0 <= i < |segs| ==> segs[i] != "" && IsTrimmed(segs[i]) && '.' !in segs[i]
    ensures SplitPathOf(Join(segs, '.')) == segs
  {
    var p := Join(segs, '.');
    JoinTrimmed(segs, '.');
    TrimSpaceOfTrimmed(p);
    SplitJoin(segs, '.');
    KeptOfTrimmed(segs);
  }

  /** A single well-formed segment is its own path. */
  lemma SplitPathSingle(seg: string)
    requires seg != "" && IsTrimmed(seg) && '.' !in seg
    ensures SplitPathOf(seg) == [seg]
  {
    SplitPathJoin([seg]);
  }

  // ---------------------------------------------------------------- lookupPath

  /** The value reached from `v` by following `segs` through nested maps. */
  function Walk(v: Val, segs: seq<string>): Option<Val>
    decreases |segs|
  {
    if segs == [] then Some(v)
    else if v.Map? && segs[0] in v.m then Walk(v.m[segs[0]], segs[1..])
    else None
  }

  /**
   * lookupPath: nothing in an empty snapshot; a top-level key spelled
   * exactly like the path; otherwise the nested walk along its segments.
   */
  function LookupPathOf(snapshot: Snapshot, path: string): (r: Option<Val>)
    ensures snapshot == map[] ==> r.None?
    ensures snapshot != map[] && path in snapshot ==> r == Some(snapshot[path])
    ensures snapshot != map[] && path !in snapshot ==>
              r == (if SplitPathOf(path) == [] then None else Walk(Map(snapshot), SplitPathOf(path)))
  {
    if snapshot == map[] then None
    else if path in snapshot then Some(snapshot[path])
    else
      var segments := SplitPathOf(path);
      if segments == [] then None else Walk(Map(snapshot), segments)
  }

  method LookupPath(snapshot: Snapshot, path: string) returns (value: Val, found: bool)
    ensures found <==> LookupPathOf(snapshot, path).Some?
    ensures found ==> value == LookupPathOf(snapshot, path).value
  {
    if |snapshot| == 0 {
      return Nil, false;
    }
    if path in snapshot {
      return snapshot[path], true;
    }
    var segments := SplitPath(path);
    if |segments| == 0 {
      return Nil, false;
    }
    var current := Map(snapshot);
    var i := 0;
    while i < |segments|
      invariant 0 <= i <= |segments|
      invariant Walk(Map(snapshot), segments) == Walk(current, segments[i..])
    {
      assert segments[i..][1..] == segments[i + 1..];
      if !current.Map? || segments[i] !in current.m {
        return Nil, false;
      }
      current := current.m[segments[i]];
      i := i + 1;
    }
    return current, true;
  }

  // ---------------------------------------------------------------- setPath

  /** The walk to the parent of the last segment meets an existing value that is not a map. */
  predicate Blocked(m: Snapshot, segs: seq<string>)
    decreases |segs|
  {
    |segs| > 1 && segs[0] in m && (!m[segs[0]].Map? || Blocked(m[segs[0]].m, segs[1..]))
  }

  /**
   * Setting along `segs`: intermediate maps are created where missing, the
   * leaf is overwritten, and an existing non-map intermediate is an error.
   */
  function SetIn(m: Snapshot, segs: seq<string>, value: Val): (r: Result<Snapshot, Error>)
    requires segs != []
    decreases |segs|
    ensures r.Failure? <==> Blocked(m, segs)
    ensures r.Failure? ==> r.error == PathNotMap
    ensures r.Success? ==> Walk(Map(r.value), segs) == Some(value)
    ensures r.Success? ==> r.value.Keys == m.Keys + {segs[0]}
    ensures r.Success? ==> forall k :: k in m && k != segs[0] ==> r.value[k] == m[k]
  {
    if |segs| == 1 then
      Success(m[segs[0] := value])
    else
      var child := if segs[0] in m then m[segs[0]] else Map(map[]);
      if !child.Map? then Failure(PathNotMap)
      else
        match SetIn(child.m, segs[1..], value)
        case Success(c) => Success(m[segs[0] := Map(c)])
        case Failure(e) => Failure(e)
  }

  /** setPath: a blank path is an error; otherwise the value is set along the path's segments. */
  function SetPath(snapshot: Snapshot, path: string, value: Val): (r: Result<Snapshot, Error>)
    ensures SplitPathOf(path) == [] ==> r == Failure(PathEmpty)
    ensures SplitPathOf(path) != [] ==> r == SetIn(snapshot, SplitPathOf(path), value)
  {
    var segments := SplitPathOf(path);
    if segments == [] then Failure(PathEmpty) else SetIn(snapshot, segments, value)
  }

  /** The error cases of setPath, with both sentinels. */
  lemma SetPathErrors(snapshot: Snapshot, path: string, value: Val)
    ensures IsBlank(path) ==> SetPath(snapshot, path, value) == Failure(PathEmpty)
                              && Is(PathEmpty, SentinelError(PathRequired))
    ensures SetPath(snapshot, path, value).Failure? && SplitPathOf(path) != [] ==>
              Blocked(snapshot, SplitPathOf(path)) && Is(PathNotMap, SentinelError(PathInvalid))
  {
  }

  /**
   * After a successful setPath, looking the path up gives the value back,
   * unless a top-level key was already spelled like a path of more than a
   * single clean segment.
   */
  lemma SetThenLookup(snapshot: Snapshot, path: string, value: Val)
    requires SetPath(snapshot, path, value).Success?
    requires path in snapshot ==> SplitPathOf(path) == [path]
    ensures LookupPathOf(SetPath(snapshot, path, value).value, path) == Some(value)
  {
    var segs := SplitPathOf(path);
    var s' := SetPath(snapshot, path, value).value;
    assert segs[0] in s';
    if path in s' && path == segs[0] {
      SplitPathSingle(path);
    }
  }

  // ---------------------------------------------------------------- deletePath

  /**
   * Deleting along `segs`: None when an intermediate is missing or not a
   * map or the leaf is missing; otherwise the map with the leaf removed and
   * every non-root map the removal left empty removed from its parent.
   */
  function DeleteIn(m: Snapshot, segs: seq<string>): (r: Option<Snapshot>)
    requires segs != []
    decreases |segs|
    ensures r.Some? <==> Walk(Map(m), segs).Some?
    ensures r.Some? ==> Walk(Map(r.value), segs).None?
    ensures r.Some? ==> r.value.Keys <= m.Keys && forall k :: k in m && k != segs[0] ==> k in r.value && r.value[k] == m[k]
  {
    if |segs| == 1 then
      if segs[0] in m then Some(m - {segs[0]}) else None
    else if segs[0] in m && m[segs[0]].Map? then
      match DeleteIn(m[segs[0]].m, segs[1..])
      case None => None
      case Some(c) => Some(if c == map[] then m - {segs[0]} else m[segs[0] := Map(c)])
    else None
  }

  /** No map along `segs` below the root is left empty. */
  predicate PrunedAlong(m: Snapshot, segs: seq<string>)
    decreases |segs|
  {
    |segs| <= 1 || segs[0] !in m || (m[segs[0]].Map? ==> m[segs[0]].m != map[] && PrunedAlong(m[segs[0]].m, segs[1..]))
  }

  /** After a delete, the maps along the path either are gone or are non-empty. */
  lemma {:induction false} DeleteInPrunes(m: Snapshot, segs: seq<string>)
    requires segs != [] && DeleteIn(m, segs).Some?
    decreases |segs|
    ensures PrunedAlong(DeleteIn(m, segs).value, segs)
  {
    if |segs| > 1 {
      var c := DeleteIn(m[segs[0]].m, segs[1..]).value;
      DeleteInPrunes(m[segs[0]].m, segs[1..]);
    }
  }

  /** deletePath: whether a leaf was removed, and the snapshot afterwards. */
  function DeletePath(snapshot: Snapshot, path: string): (r: (Snapshot, bool))
    ensures SplitPathOf(path) == [] || snapshot == map[] ==> r == (snapshot, false)
    ensures !r.1 ==> r.0 == snapshot
    ensures SplitPathOf(path) != [] && snapshot != map[] ==>
              (r.1 <==> Walk(Map(snapshot), SplitPathOf(path)).Some?)
    ensures r.1 ==> r.0 == DeleteIn(snapshot, SplitPathOf(path)).value
  {
    var segments := SplitPathOf(path);
    if segments == [] || snapshot == map[] then (snapshot, false)
    else
      match DeleteIn(snapshot, segments)
      case None => (snapshot, false)
      case Some(s') => (s', true)
  }

  /**
   * After deletePath the path is not found, unless a top-level key is spelled
   * like a path of more than a single clean segment.
   */
  lemma DeleteThenLookup(snapshot: Snapshot, path: string)
    requires path in snapshot ==> SplitPathOf(path) == [path]
    ensures LookupPathOf(DeletePath(snapshot, path).0, path).None?
  {
    var segs := SplitPathOf(path);
    var (s', removed) := DeletePath(snapshot, path);
    if segs != [] && snapshot != map[] && !removed {
      assert s' == snapshot;
      assert path !in snapshot;
    }
  }

  // ---------------------------------------------------------------- flattenMap

  function JoinPath(prefix: string, key: string): string {
    if prefix != "" then prefix + "." + key else key
  }

  /** The (dot-joined path, value) leaves of `data`, under `prefix`. */
  ghost function FlatLeaves(prefix: string, data: Snapshot): set<(string, Val)>
    decreases Map(data), 2
  {
    LeavesOver(prefix, data, data.Keys)
  }

  /** The leaves contributed by the keys `ks` of `data`; the empty key contributes none. */
  ghost function LeavesOver(prefix: string, data: Snapshot, ks: set<string>): set<(string, Val)>
    decreases Map(data), 1
  {
    set k, e | k in ks && k in data && k != "" && e in EntryLeaves(JoinPath(prefix, k), data[k]) :: e
  }

  /** A map value contributes its own leaves below its path; any other value is one leaf. */
  ghost function EntryLeaves(path: string, v: Val): set<(string, Val)>
    decreases v, 3
  {
    if v.Map? then FlatLeaves(path, v.m) else {(path, v)}
  }

  lemma LeavesOverAdd(prefix: string, data: Snapshot, done: set<string>, key: string)
    requires key in data
    ensures LeavesOver(prefix, data, done + {key})
            == LeavesOver(prefix, data, done) + (if key != "" then EntryLeaves(JoinPath(prefix, key), data[key]) else {})
  {
  }

  /** flattenMap's loop invariant steps past one more key. */
  lemma FlattenStep(prefix: string, data: Snapshot, done: set<string>, key: string,
                    out: Snapshot, before: Snapshot, after: Snapshot)
    requires key in data
    requires Covers(before, out, LeavesOver(prefix, data, done))
    requires key != "" ==> Covers(after, before, EntryLeaves(JoinPath(prefix, key), data[key]))
    requires key == "" ==> after == before
    ensures Covers(after, out, LeavesOver(prefix, data, done + {key}))
  {
    LeavesOverAdd(prefix, data, done, key);
    if key != "" {
      CoversTrans(out, before, after, LeavesOver(prefix, data, done), EntryLeaves(JoinPath(prefix, key), data[key]));
    }
  }

  lemma LeavesOverNone(prefix: string, data: Snapshot)
    ensures LeavesOver(prefix, data, {}) == {}
  {
  }

  /**
   * flattenMap: writes every leaf of `data` under its dot-joined path into
   * `out`; keys are visited in no particular order.
   */
  method FlattenMap(prefix: string, data: Snapshot, out: Snapshot) returns (r: Snapshot)
    decreases Map(data), 1
    ensures Covers(r, out, FlatLeaves(prefix, data))
  {
    r := out;
    LeavesOverNone(prefix, data);
    CoversNothing(r);
    if |data| == 0 {
      assert data.Keys == {};
      return;
    }
    var todo := data.Keys;
    ghost var done: set<string> := {};
    while todo != {}
      invariant todo + done == data.Keys && todo !! done
      invariant Covers(r, out, LeavesOver(prefix, data, done))
      decreases |todo|
    {
      var key :| key in todo;
      var before := r;
      if key != "" {
        r := FlattenEntry(JoinPath(prefix, key), data[key], r);
      }
      FlattenStep(prefix, data, done, key, out, before, r);
      todo := todo - {key};
      done := done + {key};
    }
    assert done == data.Keys;
  }

  /** One entry of flattenMap's loop: recurse into a map value, write any other value. */
  method FlattenEntry(path: string, value: Val, out: Snapshot) returns (r: Snapshot)
    decreases value, 2
    ensures Covers(r, out, EntryLeaves(path, value))
  {
    if value.Map? {
      r := FlattenMap(path, value.m, out);
    } else {
      r := out[path := value];
      CoversOne(out, path, value);
    }
  }

  /** Every flattened leaf is a non-map value under a non-empty path below the prefix. */
  lemma {:induction false} FlatLeavesShape(prefix: string, data: Snapshot, e: (string, Val))
    requires e in FlatLeaves(prefix, data)
    decreases Map(data)
    ensures !e.1.Map? && e.0 != ""
    ensures prefix != "" ==> HasPrefix(e.0, prefix + ".")
  {
    var k :| k in data && k != "" && e in EntryLeaves(JoinPath(prefix, k), data[k]);
    var path := JoinPath(prefix, k);
    if data[k].Map? {
      FlatLeavesShape(path, data[k].m, e);
      if prefix != "" {
        assert path == prefix + "." + k;
        assert HasPrefix(e.0, path + ".");
        assert e.0[..|prefix + "."|] == path[..|prefix + "."|];
      }
    } else {
      assert e == (path, data[k]);
      if prefix != "" {
        assert path[..|prefix + "."|] == prefix + ".";
      }
    }
  }

  /** A top-level non-map value under a non-empty key is flattened under that key. */
  lemma FlatLeafOfTop(data: Snapshot, k: string)
    requires k in data && k != "" && !data[k].Map?
    ensures (k, data[k]) in FlatLeaves("", data)
  {
    assert (k, data[k]) in EntryLeaves(JoinPath("", k), data[k]);
  }
}
