/**
 * Config-backed defaults: a nested configuration map of optional booleans
 * and booleans flattened into a table from normalised feature key to default,
 * then looked up by key.
 */
module ConfigDefaults {
  import opened Wrappers
  import opened Text
  import opened Values
  import opened GateTypes
  import opened Flat
  import Keys

  const DefaultDelimiter := "."

  /**
   * defaultFromValue: booleans and non-nil *bool are set; optional booleans
   * keep their own IsSet/Value; nil pointers give the zero result but still
   * count; any other value is no default.
   */
  function DefaultFromValue(v: Val): (r: Option<DefaultResult>)
    ensures v.Bool? ==> r == Some(DefaultResult(true, v.b))
    ensures v.BoolPtr? && v.ptr.Some? ==> r == Some(DefaultResult(true, v.ptr.value))
    ensures v.OptBool? ==> r == Some(DefaultResult(v.isSet, v.value))
    ensures v.OptBoolPtr? && v.opt.Some? ==> r == Some(DefaultResult(v.opt.value.0, v.opt.value.1))
    ensures v == BoolPtr(None) || v == OptBoolPtr(None) ==> r == Some(NoDefault)
    ensures r.Some? <==> v.Bool? || v.BoolPtr? || v.OptBool? || v.OptBoolPtr?
  {
    match v
    case OptBool(isSet, value) => Some(DefaultResult(isSet, value))
    case OptBoolPtr(opt) => if opt.None? then Some(NoDefault) else Some(DefaultResult(opt.value.0, opt.value.1))
    case Bool(b) => Some(DefaultResult(true, b))
    case BoolPtr(p) => if p.None? then Some(NoDefault) else Some(DefaultResult(true, p.value))
    case _ => None
  }

  /** A key below `prefix`, joined by the delimiter; a key at the top level stands alone. */
  function JoinDelim(prefix: string, delim: string, key: string): (r: string)
    ensures prefix == "" ==> r == key
    ensures prefix != "" ==> r == prefix + delim + key
  {
    if prefix != "" then prefix + delim + key else key
  }

  /** A leaf value: its default under the normalised path, when it has one and the path is not blank. */
  ghost function LeafOf(path: string, v: Val): set<(string, DefaultResult)> {
    match DefaultFromValue(v)
    case None => {}
    case Some(d) => if Keys.NormalizeKey(path) == "" then {} else {(Keys.NormalizeKey(path), d)}
  }

  /** The (normalised key, default) leaves of `data` under `prefix`. */
  ghost function DefLeaves(prefix: string, data: map<string, Val>, delim: string): set<(string, DefaultResult)>
    decreases Map(data), 2
  {
    DefLeavesOver(prefix, data, delim, data.Keys)
  }

  /** The leaves contributed by the keys `ks` of `data`; keys blank after trimming contribute none. */
  ghost function DefLeavesOver(prefix: string, data: map<string, Val>, delim: string, ks: set<string>): set<(string, DefaultResult)>
    decreases Map(data), 1
  {
    set k, e | k in ks && k in data && TrimSpace(k) != ""
                 && e in EntryDefLeaves(JoinDelim(prefix, delim, TrimSpace(k)), data[k], delim) :: e
  }

  /** A map[string]any or map[string]bool value is flattened below its path; any other value is a leaf. */
  ghost function EntryDefLeaves(path: string, v: Val, delim: string): set<(string, DefaultResult)>
    decreases v, 3
  {
    if v.Map? then DefLeaves(path, v.m, delim)
    else if v.BoolMap? then BoolLeaves(path, v.bm, delim)
    else LeafOf(path, v)
  }

  /** The leaves of a map[string]bool: every value is a boolean leaf. */
  ghost function BoolLeaves(path: string, bm: map<string, bool>, delim: string): set<(string, DefaultResult)> {
    BoolLeavesOver(path, bm, delim, bm.Keys)
  }

  ghost function BoolLeavesOver(path: string, bm: map<string, bool>, delim: string, ks: set<string>): set<(string, DefaultResult)> {
    set k, e | k in ks && k in bm && TrimSpace(k) != "" && e in LeafOf(JoinDelim(path, delim, TrimSpace(k)), Bool(bm[k])) :: e
  }

  /** Flattening a map[string]bool is flattening its map[string]any conversion, as the source does. */
  lemma BoolLeavesAgree(path: string, bm: map<string, bool>, delim: string)
    ensures BoolLeaves(path, bm, delim) == DefLeaves(path, BoolMapToAny(bm), delim)
  {
    var any := BoolMapToAny(bm);
    assert DefLeaves(path, any, delim) == DefLeavesOver(path, any, delim, any.Keys);
    forall e ensures e in BoolLeaves(path, bm, delim) <==> e in DefLeaves(path, any, delim) {
      if e in DefLeaves(path, any, delim) {
        var k :| k in any && TrimSpace(k) != "" && e in EntryDefLeaves(JoinDelim(path, delim, TrimSpace(k)), any[k], delim);
        assert any[k] == Bool(bm[k]);
      }
      if e in BoolLeaves(path, bm, delim) {
        var k :| k in bm && TrimSpace(k) != "" && e in LeafOf(JoinDelim(path, delim, TrimSpace(k)), Bool(bm[k]));
        assert any[k] == Bool(bm[k]);
        assert e in EntryDefLeaves(JoinDelim(path, delim, TrimSpace(k)), any[k], delim);
      }
    }
  }

  /** Every stored key is non-empty and already normalised, so a lookup by it finds it. */
  lemma LeafKeysNormalized(path: string, v: Val, e: (string, DefaultResult))
    requires e in LeafOf(path, v)
    ensures e.0 != "" && Keys.NormalizeKey(e.0) == e.0
    ensures Some(e.1) == DefaultFromValue(v)
  {
    Keys.NormalizeKeyIdempotent(path);
  }

  lemma {:induction false} DefLeavesNormalized(prefix: string, data: map<string, Val>, delim: string, e: (string, DefaultResult))
    requires e in DefLeaves(prefix, data, delim)
    decreases Map(data)
    ensures e.0 != "" && Keys.NormalizeKey(e.0) == e.0
  {
    var k :| k in data && TrimSpace(k) != "" && e in EntryDefLeaves(JoinDelim(prefix, delim, TrimSpace(k)), data[k], delim);
    var path := JoinDelim(prefix, delim, TrimSpace(k));
    var v := data[k];
    if v.Map? {
      DefLeavesNormalized(path, v.m, delim, e);
    } else if v.BoolMap? {
      var k' :| k' in v.bm && TrimSpace(k') != "" && e in LeafOf(JoinDelim(path, delim, TrimSpace(k')), Bool(v.bm[k']));
      LeafKeysNormalized(JoinDelim(path, delim, TrimSpace(k')), Bool(v.bm[k']), e);
    } else {
      LeafKeysNormalized(path, v, e);
    }
  }

  lemma DefLeavesOverAdd(prefix: string, data: map<string, Val>, delim: string, done: set<string>, key: string)
    requires key in data
    ensures DefLeavesOver(prefix, data, delim, done + {key})
            == DefLeavesOver(prefix, data, delim, done)
               + (if TrimSpace(key) != "" then EntryDefLeaves(JoinDelim(prefix, delim, TrimSpace(key)), data[key], delim) else {})
  {
  }

  lemma BoolLeavesOverAdd(path: string, bm: map<string, bool>, delim: string, done: set<string>, key: string)
    requires key in bm
    ensures BoolLeavesOver(path, bm, delim, done + {key})
            == BoolLeavesOver(path, bm, delim, done)
               + (if TrimSpace(key) != "" then LeafOf(JoinDelim(path, delim, TrimSpace(key)), Bool(bm[key])) else {})
  {
  }

  lemma DefLeavesEmpty(prefix: string, data: map<string, Val>, delim: string)
    requires data == map[]
    ensures DefLeaves(prefix, data, delim) == {}
  {
    assert data.Keys == {};
  }

  /** flattenDefaults' loop invariant steps past one more key. */
  lemma FlattenDefaultsStep(prefix: string, data: map<string, Val>, delim: string, done: set<string>, key: string,
                            out: map<string, DefaultResult>, before: map<string, DefaultResult>, after: map<string, DefaultResult>)
    requires key in data
    requires Covers(before, out, DefLeavesOver(prefix, data, delim, done))
    requires TrimSpace(key) != "" ==> Covers(after, before, EntryDefLeaves(JoinDelim(prefix, delim, TrimSpace(key)), data[key], delim))
    requires TrimSpace(key) == "" ==> after == before
    ensures Covers(after, out, DefLeavesOver(prefix, data, delim, done + {key}))
  {
    DefLeavesOverAdd(prefix, data, delim, done, key);
    if TrimSpace(key) != "" {
      CoversTrans(out, before, after, DefLeavesOver(prefix, data, delim, done),
                  EntryDefLeaves(JoinDelim(prefix, delim, TrimSpace(key)), data[key], delim));
    }
  }

  /** The boolean loop's invariant steps past one more key. */
  lemma FlattenBoolsStep(path: string, bm: map<string, bool>, delim: string, done: set<string>, key: string,
                         out: map<string, DefaultResult>, before: map<string, DefaultResult>, after: map<string, DefaultResult>)
    requires key in bm
    requires Covers(before, out, BoolLeavesOver(path, bm, delim, done))
    requires TrimSpace(key) != "" ==> Covers(after, before, LeafOf(JoinDelim(path, delim, TrimSpace(key)), Bool(bm[key])))
    requires TrimSpace(key) == "" ==> after == before
    ensures Covers(after, out, BoolLeavesOver(path, bm, delim, done + {key}))
  {
    BoolLeavesOverAdd(path, bm, delim, done, key);
    if TrimSpace(key) != "" {
      CoversTrans(out, before, after, BoolLeavesOver(path, bm, delim, done),
                  LeafOf(JoinDelim(path, delim, TrimSpace(key)), Bool(bm[key])));
    }
  }

  /** Writes one leaf: its default under the normalised path, unless it has none or the path is blank. */
  method WriteLeaf(path: string, value: Val, out: map<string, DefaultResult>) returns (r: map<string, DefaultResult>)
    ensures Covers(r, out, LeafOf(path, value))
  {
    r := out;
    var def := DefaultFromValue(value);
    if def.Some? {
      var normalized := Keys.NormalizeKey(path);
      if normalized != "" {
        r := out[normalized := def.value];
        CoversOne(out, normalized, def.value);
        return;
      }
    }
    CoversNothing(out);
  }

  /** flattenDefaults: every key trimmed, blank keys skipped, paths joined by `delim`, keys visited in no particular order. */
  method FlattenDefaults(prefix: string, data: map<string, Val>, delim: string, out: map<string, DefaultResult>)
    returns (r: map<string, DefaultResult>)
    decreases Map(data), 1
    ensures Covers(r, out, DefLeaves(prefix, data, delim))
  {
    r := out;
    assert DefLeavesOver(prefix, data, delim, {}) == {};
    CoversNothing(r);
    if data == map[] {
      DefLeavesEmpty(prefix, data, delim);
      return;
    }
    var todo := data.Keys;
    ghost var done: set<string> := {};
    while todo != {}
      invariant todo <= data.Keys && done == data.Keys - todo
      invariant Covers(r, out, DefLeavesOver(prefix, data, delim, done))
      decreases |todo|
    {
      var key :| key in todo;
      var before := r;
      var trimmedKey := TrimSpace(key);
      if trimmedKey != "" {
        r := FlattenDefaultEntry(JoinDelim(prefix, delim, trimmedKey), data[key], delim, r);
      }
      FlattenDefaultsStep(prefix, data, delim, done, key, out, before, r);
      todo := todo - {key};
      done := done + {key};
    }
    assert done == data.Keys;
    assert DefLeaves(prefix, data, delim) == DefLeavesOver(prefix, data, delim, done);
  }

  /** One entry of flattenDefaults' loop: recurse into the two map types, write any other value. */
  method FlattenDefaultEntry(path: string, value: Val, delim: string, out: map<string, DefaultResult>)
    returns (r: map<string, DefaultResult>)
    decreases value, 2
    ensures Covers(r, out, EntryDefLeaves(path, value, delim))
  {
    if value.Map? {
      r := FlattenDefaults(path, value.m, delim, out);
    } else if value.BoolMap? {
      r := FlattenBools(path, value.bm, delim, out);
    } else {
      r := WriteLeaf(path, value, out);
    }
  }

  /** flattenDefaults over the map[string]any conversion of a map[string]bool: every value is a boolean leaf. */
  method FlattenBools(path: string, bm: map<string, bool>, delim: string, out: map<string, DefaultResult>)
    returns (r: map<string, DefaultResult>)
    ensures Covers(r, out, BoolLeaves(path, bm, delim))
  {
    r := out;
    assert BoolLeavesOver(path, bm, delim, {}) == {};
    CoversNothing(r);
    var todo := bm.Keys;
    ghost var done: set<string> := {};
    while todo != {}
      invariant todo <= bm.Keys && done == bm.Keys - todo
      invariant Covers(r, out, BoolLeavesOver(path, bm, delim, done))
      decreases |todo|
    {
      var key :| key in todo;
      var before := r;
      var trimmedKey := TrimSpace(key);
      if trimmedKey != "" {
        r := WriteLeaf(JoinDelim(path, delim, trimmedKey), Bool(bm[key]), r);
      }
      FlattenBoolsStep(path, bm, delim, done, key, out, before, r);
      todo := todo - {key};
      done := done + {key};
    }
    assert done == bm.Keys;
  }

  /** The defaults table. */
  datatype Defaults = Defaults(values: map<string, DefaultResult>)

  /** The delimiter the options leave: the last WithDelimiter, "." when none or when it is empty. */
  function DelimiterOf(delimiters: seq<string>): (r: string)
    ensures r != ""
    ensures delimiters == [] ==> r == DefaultDelimiter
    ensures delimiters != [] && delimiters[|delimiters| - 1] != "" ==> r == delimiters[|delimiters| - 1]
  {
    if delimiters == [] || delimiters[|delimiters| - 1] == "" then DefaultDelimiter else delimiters[|delimiters| - 1]
  }

  /** NewDefaults: the options' delimiter (empty meaning "."), then the flattened table. */
  method NewDefaults(data: map<string, Val>, delimiters: seq<string>) returns (d: Defaults)
    ensures Covers(d.values, map[], DefLeaves("", data, DelimiterOf(delimiters)))
  {
    var delimiter := DefaultDelimiter;
    var i := 0;
    while i < |delimiters|
      invariant 0 <= i <= |delimiters|
      invariant delimiter == if i == 0 then DefaultDelimiter else delimiters[i - 1]
    {
      delimiter := delimiters[i];
      i := i + 1;
    }
    if delimiter == "" {
      delimiter := DefaultDelimiter;
    }
    var values := FlattenDefaults("", data, delimiter, map[]);
    return Defaults(values);
  }

  /** NewDefaultsFromBools: the boolean map as a map[string]any, or nothing when it is empty. */
  method NewDefaultsFromBools(data: map<string, bool>, delimiters: seq<string>) returns (d: Defaults)
    ensures Covers(d.values, map[], DefLeaves("", BoolMapToAny(data), DelimiterOf(delimiters)))
  {
    if |data| == 0 {
      assert BoolMapToAny(data) == map[];
      d := NewDefaults(map[], delimiters);
      return;
    }
    d := NewDefaults(BoolMapToAny(data), delimiters);
  }

  /** Default: the stored result for the normalised key; the zero result for an empty table, a blank or an unknown key. */
  function Default(d: Defaults, key: string): (r: DefaultResult)
    ensures d.values == map[] || IsBlank(key) ==> r == NoDefault
    ensures !IsBlank(key) && Keys.NormalizeKey(key) in d.values ==> r == d.values[Keys.NormalizeKey(key)]
    ensures !IsBlank(key) && Keys.NormalizeKey(key) !in d.values ==> r == NoDefault
  {
    Keys.NormalizeTrimmed(key);
    Keys.NormalizeKeyBlank(key);
    if |d.values| == 0 then NoDefault
    else
      var normalized := Keys.NormalizeKey(TrimSpace(key));
      if normalized == "" then NoDefault
      else if normalized in d.values then d.values[normalized] else NoDefault
  }

  /** A leaf that is the only one with its key is what Default returns for that key, whatever the visiting order. */
  lemma DefaultOfUniqueLeaf(data: map<string, Val>, delim: string, values: map<string, DefaultResult>, k: string, v: DefaultResult)
    requires Covers(values, map[], DefLeaves("", data, delim))
    requires (k, v) in DefLeaves("", data, delim)
    requires forall w :: (k, w) in DefLeaves("", data, delim) ==> w == v
    ensures Default(Defaults(values), k) == v
  {
    CoversUnique(values, map[], DefLeaves("", data, delim), k, v);
    DefLeavesNormalized("", data, delim, (k, v));
    Keys.NormalizeKeyBlank(k);
  }

  /** A one-key map flattens to the leaves of its one entry, unless the key is blank. */
  lemma DefLeavesSingle(prefix: string, k: string, v: Val, delim: string)
    ensures DefLeaves(prefix, map[k := v], delim)
            == if TrimSpace(k) != "" then EntryDefLeaves(JoinDelim(prefix, delim, TrimSpace(k)), v, delim) else {}
  {
    var data := map[k := v];
    assert data.Keys == {k};
    assert DefLeaves(prefix, data, delim) == DefLeavesOver(prefix, data, delim, {k});
  }

  const SignupPath := "users.signup"

  lemma SignupPathNormal()
    ensures Keys.NormalizeKey(SignupPath) == SignupPath && SignupPath != ""
  {
    Keys.SignupKeyTrimmed();
  }

  /** The leaves of {"users": {"signup": v}} under ".": the one leaf users.signup, when v has a default. */
  lemma NestedSignupLeaves(v: Val)
    requires DefaultFromValue(v).Some?
    ensures DefLeaves("", map["users" := Map(map["signup" := v])], ".") == {(SignupPath, DefaultFromValue(v).value)}
  {
    var inner := map["signup" := v];
    var data := map["users" := Map(inner)];
    assert TrimSpace("users") == "users" by { TrimSpaceOfTrimmed("users"); }
    assert TrimSpace("signup") == "signup" by { TrimSpaceOfTrimmed("signup"); }
    assert JoinDelim("users", ".", "signup") == SignupPath;
    SignupPathNormal();
    DefLeavesSingle("users", "signup", v, ".");
    DefLeavesSingle("", "users", Map(inner), ".");
  }

  /** A nested set-true optional boolean gives a set, true default for users.signup. */
  lemma NestedOptionalTrue(values: map<string, DefaultResult>)
    requires Covers(values, map[], DefLeaves("", map["users" := Map(map["signup" := OptBool(true, true)])], "."))
    ensures Default(Defaults(values), SignupPath) == DefaultResult(true, true)
  {
    NestedSignupLeaves(OptBool(true, true));
    DefaultOfUniqueLeaf(map["users" := Map(map["signup" := OptBool(true, true)])], ".", values, SignupPath, DefaultResult(true, true));
  }

  /** A nested unset optional boolean gives an unset default for users.signup. */
  lemma NestedOptionalUnset(values: map<string, DefaultResult>)
    requires Covers(values, map[], DefLeaves("", map["users" := Map(map["signup" := OptBool(false, false)])], "."))
    ensures !Default(Defaults(values), SignupPath).isSet
  {
    NestedSignupLeaves(OptBool(false, false));
    DefaultOfUniqueLeaf(map["users" := Map(map["signup" := OptBool(false, false)])], ".", values, SignupPath, DefaultResult(false, false));
  }

  /** A flat boolean map {"users.signup": true} gives a set, true default for users.signup. */
  lemma FromBoolsSignup(values: map<string, DefaultResult>)
    requires Covers(values, map[], DefLeaves("", BoolMapToAny(map[SignupPath := true]), "."))
    ensures Default(Defaults(values), SignupPath) == DefaultResult(true, true)
  {
    var data := BoolMapToAny(map[SignupPath := true]);
    assert data == map[SignupPath := Bool(true)];
    SignupPathNormal();
    Keys.SignupKeyTrimmed();
    DefLeavesSingle("", SignupPath, Bool(true), ".");
    DefaultOfUniqueLeaf(data, ".", values, SignupPath, DefaultResult(true, true));
  }
}
