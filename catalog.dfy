/**
 * The static feature catalog: definitions stored under their normalised
 * keys, looked up by key and listed in key order, plus the plain message
 * resolver.
 */
module Catalog {
  import opened Wrappers
  import opened Text
  import opened Values
  import opened Flat
  import opened StrOrder
  import Keys

  /** A human-friendly string; None args stands for a nil map. */
  datatype Message = Message(key: string, text: string, args: Option<map<string, Val>>)

  const EmptyMessage := Message("", "", None)

  datatype FeatureDefinition = FeatureDefinition(key: string, description: Message)

  /** PlainResolver.Resolve: the text when there is one, else the key. */
  function PlainResolve(msg: Message): (r: string)
    ensures msg.text != "" ==> r == msg.text
    ensures msg.text == "" ==> r == msg.key
    ensures r == "" <==> msg.text == "" && msg.key == ""
  {
    if msg.text != "" then msg.text else msg.key
  }

  /** A message as normalizeMessage leaves it: trimmed key and text, args nil or non-empty. */
  predicate IsNormalMessage(msg: Message) {
    IsTrimmed(msg.key) && IsTrimmed(msg.text) && (msg.args.Some? ==> |msg.args.value| > 0)
  }

  /** normalizeMessage: trims the key and the text and turns empty args into nil. */
  function NormalizeMessage(msg: Message): (r: Message)
    ensures r.key == TrimSpace(msg.key) && r.text == TrimSpace(msg.text)
    ensures r.args.Some? <==> msg.args.Some? && |msg.args.value| > 0
    ensures r.args.Some? ==> r.args == msg.args
  {
    Message(TrimSpace(msg.key), TrimSpace(msg.text), if msg.args.Some? && |msg.args.value| == 0 then None else msg.args)
  }

  /** NormalizeMessage produces normal messages and leaves normal messages alone. */
  lemma NormalizeMessageNormal(msg: Message)
    ensures IsNormalMessage(NormalizeMessage(msg))
    ensures IsNormalMessage(msg) ==> NormalizeMessage(msg) == msg
  {
    TrimSpaceTrimmed(msg.key);
    TrimSpaceTrimmed(msg.text);
    if IsNormalMessage(msg) {
      TrimSpaceOfTrimmed(msg.key);
      TrimSpaceOfTrimmed(msg.text);
    }
  }

  lemma NormalizeMessageIdempotent(msg: Message)
    ensures NormalizeMessage(NormalizeMessage(msg)) == NormalizeMessage(msg)
  {
    NormalizeMessageNormal(msg);
    NormalizeMessageNormal(NormalizeMessage(msg));
  }

  datatype StaticCatalog = StaticCatalog(defs: map<string, FeatureDefinition>)

  /** What NewStatic guarantees of its table: every entry under its own non-blank, normalised key with a normal message. */
  predicate WellFormed(c: StaticCatalog) {
    forall k :: k in c.defs ==>
      k != "" && Keys.NormalizeKey(k) == k && c.defs[k].key == k && IsNormalMessage(c.defs[k].description)
  }

  /** The definition NewStatic stores for `def` given under `key`. */
  function StaticEntry(key: string, def: FeatureDefinition): FeatureDefinition {
    FeatureDefinition(Keys.NormalizeKey(key), NormalizeMessage(def.description))
  }

  /** The (normalised key, definition) entries NewStatic writes for the keys `ks` of `defs`; blank keys write none. */
  ghost function StaticEntriesOver(defs: map<string, FeatureDefinition>, ks: set<string>): set<(string, FeatureDefinition)> {
    set k | k in ks && k in defs && Keys.NormalizeKey(k) != "" :: (Keys.NormalizeKey(k), StaticEntry(k, defs[k]))
  }

  ghost function StaticEntries(defs: map<string, FeatureDefinition>): set<(string, FeatureDefinition)> {
    StaticEntriesOver(defs, defs.Keys)
  }

  lemma StaticEntriesOverAdd(defs: map<string, FeatureDefinition>, done: set<string>, key: string)
    requires key in defs
    ensures StaticEntriesOver(defs, done + {key})
            == StaticEntriesOver(defs, done)
               + (if Keys.NormalizeKey(key) != "" then {(Keys.NormalizeKey(key), StaticEntry(key, defs[key]))} else {})
  {
  }

  lemma StaticEntriesOverNone(defs: map<string, FeatureDefinition>)
    ensures StaticEntriesOver(defs, {}) == {}
  {
  }

  lemma NewStaticStep(defs: map<string, FeatureDefinition>, done: set<string>, key: string, nk: string,
                      before: map<string, FeatureDefinition>, after: map<string, FeatureDefinition>)
    requires key in defs && nk == Keys.NormalizeKey(key)
    requires Covers(before, map[], StaticEntriesOver(defs, done))
    requires nk != "" ==> after == before[nk := StaticEntry(key, defs[key])]
    requires nk == "" ==> after == before
    ensures Covers(after, map[], StaticEntriesOver(defs, done + {key}))
  {
    StaticEntriesOverAdd(defs, done, key);
    if nk != "" {
      CoversOne(before, nk, StaticEntry(key, defs[key]));
      CoversTrans(map[], before, after, StaticEntriesOver(defs, done), {(nk, StaticEntry(key, defs[key]))});
    }
  }

  /**
   * NewStatic: every definition under its normalised key, with that key as
   * its Key and its message normalised; blank keys are dropped. When two
   * keys normalise alike, the one visited last wins.
   */
  method NewStatic(defs: map<string, FeatureDefinition>) returns (c: StaticCatalog)
    ensures Covers(c.defs, map[], StaticEntries(defs))
  {
    var out: map<string, FeatureDefinition> := map[];
    StaticEntriesOverNone(defs);
    CoversNothing(out);
    var todo := defs.Keys;
    ghost var done: set<string> := {};
    while todo != {}
      invariant todo <= defs.Keys && done == defs.Keys - todo
      invariant Covers(out, map[], StaticEntriesOver(defs, done))
      decreases |todo|
    {
      var key :| key in todo;
      var before := out;
      var normalized := Keys.NormalizeKey(key);
      if normalized != "" {
        out := out[normalized := StaticEntry(key, defs[key])];
      }
      NewStaticStep(defs, done, key, normalized, before, out);
      todo := todo - {key};
      done := done + {key};
    }
    assert done == defs.Keys;
    c := StaticCatalog(out);
  }

  /** NewStatic's table is well formed, and every non-blank key given finds a definition stored from a key that normalises alike. */
  lemma NewStaticWellFormed(defs: map<string, FeatureDefinition>, c: StaticCatalog)
    requires Covers(c.defs, map[], StaticEntries(defs))
    ensures WellFormed(c)
    ensures forall k :: k in defs && !IsBlank(k) ==> Keys.NormalizeKey(k) in c.defs
  {
    forall k | k in c.defs
      ensures k != "" && Keys.NormalizeKey(k) == k && c.defs[k].key == k && IsNormalMessage(c.defs[k].description)
    {
      assert k in PathsOf(StaticEntries(defs));
      assert (k, c.defs[k]) in StaticEntries(defs);
      var k0 :| k0 in defs && Keys.NormalizeKey(k0) != "" && (k, c.defs[k]) == (Keys.NormalizeKey(k0), StaticEntry(k0, defs[k0]));
      Keys.NormalizeKeyIdempotent(k0);
      NormalizeMessageNormal(defs[k0].description);
    }
    forall k | k in defs && !IsBlank(k) ensures Keys.NormalizeKey(k) in c.defs {
      Keys.NormalizeKeyBlank(k);
      assert (Keys.NormalizeKey(k), StaticEntry(k, defs[k])) in StaticEntries(defs);
      assert Keys.NormalizeKey(k) in PathsOf(StaticEntries(defs));
    }
  }

  /** A table that is already well formed passes through NewStatic unchanged, whatever the visiting order. */
  lemma NewStaticOfWellFormed(defs: map<string, FeatureDefinition>, stored: map<string, FeatureDefinition>)
    requires WellFormed(StaticCatalog(defs))
    requires Covers(stored, map[], StaticEntries(defs))
    ensures stored == defs
  {
    forall k | k in defs ensures StaticEntry(k, defs[k]) == defs[k] && Keys.NormalizeKey(k) == k {
      NormalizeMessageNormal(defs[k].description);
    }
    forall k | k in defs ensures k in stored && stored[k] == defs[k] {
      assert (k, defs[k]) in StaticEntries(defs);
      forall w | (k, w) in StaticEntries(defs) ensures w == defs[k] {
        var k0 :| k0 in defs && Keys.NormalizeKey(k0) != "" && (k, w) == (Keys.NormalizeKey(k0), StaticEntry(k0, defs[k0]));
      }
      CoversUnique(stored, map[], StaticEntries(defs), k, defs[k]);
    }
    forall k | k in stored ensures k in defs {
      assert k in PathsOf(StaticEntries(defs));
      var e :| e in StaticEntries(defs) && e.0 == k;
    }
  }

  /** Get: the definition stored under the normalised key; not found for an empty catalog or a blank key. */
  function Get(c: StaticCatalog, key: string): (r: Option<FeatureDefinition>)
    ensures r.Some? <==> !IsBlank(key) && Keys.NormalizeKey(key) in c.defs
    ensures r.Some? ==> r.value == c.defs[Keys.NormalizeKey(key)]
    ensures WellFormed(c) && r.Some? ==> r.value.key == Keys.NormalizeKey(key)
  {
    Keys.NormalizeTrimmed(key);
    Keys.NormalizeKeyBlank(key);
    if |c.defs| == 0 then None
    else
      var normalized := Keys.NormalizeKey(TrimSpace(key));
      if normalized == "" then None
      else if normalized in c.defs then Some(c.defs[normalized]) else None
  }

  /** A one-key map gives the one entry of its key, unless the key is blank. */
  lemma StaticEntriesSingle(k: string, d: FeatureDefinition)
    ensures StaticEntries(map[k := d]) == if Keys.NormalizeKey(k) != "" then {(Keys.NormalizeKey(k), StaticEntry(k, d))} else {}
  {
    assert map[k := d].Keys == {k};
  }

  /** " users.signup " normalises to the sign-up key. */
  lemma PaddedSignup()
    ensures Keys.NormalizeKey(" " + Keys.SignupKey + " ") == Keys.SignupKey
    ensures !IsBlank(" " + Keys.SignupKey + " ")
  {
    assert IsBlank(" ") by { assert IsSpace(" "[0]); }
    Keys.AliasResolves(" ", " ");
    Keys.NormalizeKeyBlank(" " + Keys.SignupKey + " ");
  }

  const SignupDefinition := FeatureDefinition(Keys.SignupKey, Message("", "Allow signups", None))

  lemma SignupEntryUnchanged()
    ensures Keys.NormalizeKey(Keys.SignupKey) == Keys.SignupKey
    ensures StaticEntry(Keys.SignupKey, SignupDefinition) == SignupDefinition
  {
    Keys.SignupKeyTrimmed();
    assert Keys.SignupKey !in Keys.KeyAliases;
    NormalizeMessageNormal(SignupDefinition.description);
    assert IsTrimmed("Allow signups");
  }

  /** NewStatic of the one sign-up definition stores it unchanged under its key. */
  lemma SignupStored(c: StaticCatalog)
    requires Covers(c.defs, map[], StaticEntries(map[Keys.SignupKey := SignupDefinition]))
    ensures Keys.SignupKey in c.defs && c.defs[Keys.SignupKey] == SignupDefinition
  {
    SignupEntryUnchanged();
    StaticEntriesSingle(Keys.SignupKey, SignupDefinition);
    CoversUnique(c.defs, map[], StaticEntries(map[Keys.SignupKey := SignupDefinition]), Keys.SignupKey, SignupDefinition);
  }

  /** The catalog test: a definition given under "users.signup" is found from " users.signup " with its key normalised. */
  lemma GetNormalizesKey(c: StaticCatalog)
    requires Covers(c.defs, map[], StaticEntries(map[Keys.SignupKey := SignupDefinition]))
    ensures Get(c, " " + Keys.SignupKey + " ") == Some(SignupDefinition)
  {
    SignupStored(c);
    PaddedSignup();
  }

  /** The strictly ascending listing of a set of keys. */
  ghost function SortedKeysOf(keys: set<string>): (r: seq<string>)
    ensures StrictlySorted(r) && Elems(r) == keys
    decreases keys
  {
    if keys == {} then []
    else
      var k :| k in keys;
      Insert(SortedKeysOf(keys - {k}), k)
  }

  /** The definitions in ascending key order. */
  ghost function ListOf(c: StaticCatalog): seq<FeatureDefinition> {
    var ks := SortedKeysOf(c.defs.Keys);
    seq(|ks|, i requires 0 <= i < |ks| => c.defs[ks[i]])
  }

  lemma {:induction false} SortedLength(s: seq<string>)
    requires StrictlySorted(s)
    ensures |Elems(s)| == |s|
  {
    if s != [] {
      StrictlySortedNoDups(s);
      assert s == [s[0]] + s[1..];
      assert Elems(s) == {s[0]} + Elems(s[1..]);
      assert s[0] !in Elems(s[1..]);
      SortedLength(s[1..]);
    }
  }

  /** List has one entry per definition, and none for an empty catalog. */
  lemma ListOfLength(c: StaticCatalog)
    ensures |ListOf(c)| == |c.defs|
    ensures c.defs == map[] ==> ListOf(c) == []
  {
    SortedLength(SortedKeysOf(c.defs.Keys));
    assert |c.defs.Keys| == |c.defs|;
  }

  /** List lists exactly the stored definitions. */
  lemma ListOfMembers(c: StaticCatalog)
    ensures forall d :: d in ListOf(c) <==> d in c.defs.Values
  {
    var ks := SortedKeysOf(c.defs.Keys);
    var l := ListOf(c);
    forall d ensures d in l <==> d in c.defs.Values {
      if d in c.defs.Values {
        var k :| k in c.defs && c.defs[k] == d;
        assert k in Elems(ks);
        var i :| 0 <= i < |ks| && ks[i] == k;
        assert l[i] == d;
      }
    }
  }

  /** In a well-formed catalog List is in strictly ascending key order, so no definition appears twice. */
  lemma ListOfSorted(c: StaticCatalog)
    requires WellFormed(c)
    ensures forall i, j :: 0 <= i < j < |ListOf(c)| ==> Less(ListOf(c)[i].key, ListOf(c)[j].key)
  {
    var ks := SortedKeysOf(c.defs.Keys);
    assert forall i :: 0 <= i < |ks| ==> ListOf(c)[i].key == ks[i];
  }

  /** The keys of a Go map as its range loop visits them, in no particular order. */
  method MapKeys(m: map<string, FeatureDefinition>) returns (keys: seq<string>)
    ensures NoDups(keys) && Elems(keys) == m.Keys
  {
    keys := [];
    var todo := m.Keys;
    while todo != {}
      invariant todo <= m.Keys && Elems(keys) == m.Keys - todo
      invariant NoDups(keys)
      decreases |todo|
    {
      var key :| key in todo;
      assert Elems(keys + [key]) == Elems(keys) + {key};
      keys := keys + [key];
      todo := todo - {key};
    }
  }

  /** The definitions stored under `keys`, in the order of `keys`. */
  method DefsInOrder(defs: map<string, FeatureDefinition>, keys: seq<string>) returns (r: seq<FeatureDefinition>)
    requires Elems(keys) <= defs.Keys
    ensures |r| == |keys| && forall j :: 0 <= j < |keys| ==> keys[j] in defs && r[j] == defs[keys[j]]
  {
    r := [];
    var i := 0;
    while i < |keys|
      invariant 0 <= i <= |keys|
      invariant |r| == i && forall j :: 0 <= j < i ==> keys[j] in defs && r[j] == defs[keys[j]]
    {
      assert keys[i] in Elems(keys);
      r := r + [defs[keys[i]]];
      i := i + 1;
    }
  }

  /** List: the keys collected from the map, sorted, then their definitions in that order. */
  method List(c: StaticCatalog) returns (r: seq<FeatureDefinition>)
    ensures r == ListOf(c)
  {
    if |c.defs| == 0 {
      assert c.defs.Keys == {};
      return [];
    }
    var keys := MapKeys(c.defs);
    var sorted := SortKeys(keys);
    StrictlySortedUnique(sorted, SortedKeysOf(c.defs.Keys));
    r := DefsInOrder(c.defs, sorted);
  }
}
