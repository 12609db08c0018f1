/**
 * A feature catalog built from a nested configuration map: descriptions
 * given as strings, as message maps or as description_key/description_text
 * fields, flattened under delimiter-joined paths and handed to NewStatic.
 */
module ConfigCatalog {
  import opened Wrappers
  import opened Text
  import opened Values
  import opened Flat
  import opened Catalog
  import Keys
  import ConfigDefaults

  /** The string stored under `name`, or "" when there is none or it is not a string, trimmed. */
  function TrimmedField(data: map<string, Val>, name: string): (r: string)
    ensures IsTrimmed(r)
    ensures name in data && data[name].Str? ==> r == TrimSpace(data[name].s)
    ensures !(name in data && data[name].Str?) ==> r == ""
  {
    TrimSpaceTrimmed(if name in data && data[name].Str? then data[name].s else "");
    if name in data && data[name].Str? then TrimSpace(data[name].s) else ""
  }

  /** The args of a message map: a non-empty map[string]any, else a non-empty map[string]string converted, else nil. */
  function ArgsOf(data: map<string, Val>): (r: Option<map<string, Val>>)
    ensures r.Some? ==> |r.value| > 0
    ensures r.Some? <==> "args" in data && ((data["args"].Map? && |data["args"].m| > 0) || (data["args"].StrMap? && |data["args"].sm| > 0))
    ensures "args" in data && data["args"].Map? && |data["args"].m| > 0 ==> r == Some(data["args"].m)
    ensures "args" in data && data["args"].StrMap? && |data["args"].sm| > 0 ==> r == Some(StrMapToAny(data["args"].sm))
  {
    if "args" in data && data["args"].Map? && |data["args"].m| > 0 then Some(data["args"].m)
    else if "args" in data && data["args"].StrMap? && |data["args"].sm| > 0 then
      assert StrMapToAny(data["args"].sm).Keys == data["args"].sm.Keys;
      Some(StrMapToAny(data["args"].sm))
    else None
  }

  /**
   * messageFromMap: key and text are the trimmed string fields, args only
   * when non-empty; an empty map, or one with neither key nor text, is no
   * message.
   */
  function MessageFromMap(data: map<string, Val>): (r: Option<Message>)
    ensures r.Some? <==> |data| > 0 && (TrimmedField(data, "key") != "" || TrimmedField(data, "text") != "")
    ensures r.Some? ==> r.value == Message(TrimmedField(data, "key"), TrimmedField(data, "text"), ArgsOf(data))
    ensures r.Some? ==> IsNormalMessage(r.value)
  {
    if |data| == 0 then None
    else
      var key := TrimmedField(data, "key");
      var text := TrimmedField(data, "text");
      if key == "" && text == "" then None
      else Some(Message(key, text, ArgsOf(data)))
  }

  /** A message worth storing: normalised and with a key or a text. */
  predicate IsDescription(msg: Message) {
    IsNormalMessage(msg) && (msg.key != "" || msg.text != "")
  }

  /** messageFromValue: a non-blank string as the text of a message, or a message map of either map type. */
  function MessageFromValue(v: Val): (r: Option<Message>)
    ensures r.Some? ==> IsDescription(r.value)
    ensures v.Str? ==> (r.Some? <==> TrimSpace(v.s) != "")
    ensures v.Str? && r.Some? ==> r.value == Message("", TrimSpace(v.s), None)
    ensures v.Map? ==> r == MessageFromMap(v.m)
    ensures v.StrMap? ==> r == MessageFromMap(StrMapToAny(v.sm))
    ensures !(v.Str? || v.Map? || v.StrMap?) ==> r.None?
  {
    match v
    case Str(s) =>
      var trimmed := TrimSpace(s);
      TrimSpaceTrimmed(s);
      if trimmed == "" then None else Some(Message("", trimmed, None))
    case Map(m) => MessageFromMap(m)
    case StrMap(sm) => MessageFromMap(StrMapToAny(sm))
    case _ => None
  }

  /**
   * definitionFromMap: the message under "description" when there is one;
   * otherwise the trimmed description_key/description_text fields, when at
   * least one is non-blank; otherwise the map is no definition. The key is
   * left for the caller.
   */
  function DefinitionFromMap(data: map<string, Val>): (r: Option<FeatureDefinition>)
    ensures r.Some? ==> r.value.key == "" && IsDescription(r.value.description)
    ensures "description" in data && MessageFromValue(data["description"]).Some? ==>
              r == Some(FeatureDefinition("", MessageFromValue(data["description"]).value))
    ensures !("description" in data && MessageFromValue(data["description"]).Some?) ==>
              (r.Some? <==> TrimmedField(data, "description_key") != "" || TrimmedField(data, "description_text") != "")
    ensures !("description" in data && MessageFromValue(data["description"]).Some?) && r.Some? ==>
              r.value.description == Message(TrimmedField(data, "description_key"), TrimmedField(data, "description_text"), None)
  {
    var described := if "description" in data then MessageFromValue(data["description"]) else None;
    if described.Some? then Some(FeatureDefinition("", described.value))
    else
      var key := TrimmedField(data, "description_key");
      var text := TrimmedField(data, "description_text");
      if key != "" || text != "" then Some(FeatureDefinition("", Message(key, text, None))) else None
  }

  /** What defsAdd writes for `def`: the definition under its normalised key, nothing for a blank key. */
  ghost function AddedEntry(def: FeatureDefinition): set<(string, FeatureDefinition)> {
    var nk := Keys.NormalizeKey(def.key);
    if nk == "" then {} else {(nk, FeatureDefinition(nk, def.description))}
  }

  /** defsAdd: stores `def` under its normalised key, with that key as its Key; blank keys are dropped. */
  method DefsAdd(out: map<string, FeatureDefinition>, def: FeatureDefinition) returns (r: map<string, FeatureDefinition>)
    ensures Covers(r, out, AddedEntry(def))
  {
    Keys.NormalizeTrimmed(def.key);
    var normalized := Keys.NormalizeKey(TrimSpace(def.key));
    if normalized == "" {
      CoversNothing(out);
      return out;
    }
    r := out[normalized := FeatureDefinition(normalized, def.description)];
    CoversOne(out, normalized, FeatureDefinition(normalized, def.description));
  }

  /** The catalog entries of `data` under `prefix`. */
  ghost function CatLeaves(prefix: string, data: map<string, Val>, delim: string): set<(string, FeatureDefinition)>
    decreases Map(data), 2
  {
    CatLeavesOver(prefix, data, delim, data.Keys)
  }

  /** The entries contributed by the keys `ks` of `data`; keys blank after trimming contribute none. */
  ghost function CatLeavesOver(prefix: string, data: map<string, Val>, delim: string, ks: set<string>): set<(string, FeatureDefinition)>
    decreases Map(data), 1
  {
    set k, e | k in ks && k in data && TrimSpace(k) != ""
                 && e in EntryCatLeaves(ConfigDefaults.JoinDelim(prefix, delim, TrimSpace(k)), data[k], delim) :: e
  }

  /**
   * One value under `path`: a map[string]any that is a definition is stored
   * and not recursed into, any other map[string]any is recursed into; a
   * map[string]string is only tried as a definition; any other value is
   * tried as a message.
   */
  ghost function EntryCatLeaves(path: string, v: Val, delim: string): set<(string, FeatureDefinition)>
    decreases v, 3
  {
    if v.Map? then
      match DefinitionFromMap(v.m)
      case Some(def) => AddedEntry(FeatureDefinition(path, def.description))
      case None => CatLeaves(path, v.m, delim)
    else if v.StrMap? then
      match DefinitionFromMap(StrMapToAny(v.sm))
      case Some(def) => AddedEntry(FeatureDefinition(path, def.description))
      case None => {}
    else
      match MessageFromValue(v)
      case Some(msg) => AddedEntry(FeatureDefinition(path, msg))
      case None => {}
  }

  lemma CatLeavesEmpty(prefix: string, data: map<string, Val>, delim: string)
    requires data == map[]
    ensures CatLeaves(prefix, data, delim) == {}
  {
    assert data.Keys == {};
  }

  lemma CatLeavesOverAdd(prefix: string, data: map<string, Val>, delim: string, done: set<string>, key: string)
    requires key in data
    ensures CatLeavesOver(prefix, data, delim, done + {key})
            == CatLeavesOver(prefix, data, delim, done)
               + (if TrimSpace(key) != "" then EntryCatLeaves(ConfigDefaults.JoinDelim(prefix, delim, TrimSpace(key)), data[key], delim) else {})
  {
  }

  /** flattenCatalog's loop invariant steps past one more key. */
  lemma FlattenCatalogStep(prefix: string, data: map<string, Val>, delim: string, done: set<string>, key: string,
                           out: map<string, FeatureDefinition>, before: map<string, FeatureDefinition>, after: map<string, FeatureDefinition>)
    requires key in data
    requires Covers(before, out, CatLeavesOver(prefix, data, delim, done))
    requires TrimSpace(key) != "" ==> Covers(after, before, EntryCatLeaves(ConfigDefaults.JoinDelim(prefix, delim, TrimSpace(key)), data[key], delim))
    requires TrimSpace(key) == "" ==> after == before
    ensures Covers(after, out, CatLeavesOver(prefix, data, delim, done + {key}))
  {
    CatLeavesOverAdd(prefix, data, delim, done, key);
    if TrimSpace(key) != "" {
      CoversTrans(out, before, after, CatLeavesOver(prefix, data, delim, done),
                  EntryCatLeaves(ConfigDefaults.JoinDelim(prefix, delim, TrimSpace(key)), data[key], delim));
    }
  }

  /** flattenCatalog: every entry of `data` written under its delimiter-joined path, keys visited in no particular order. */
  method FlattenCatalog(prefix: string, data: map<string, Val>, delim: string, out: map<string, FeatureDefinition>)
    returns (r: map<string, FeatureDefinition>)
    decreases Map(data), 1
    ensures Covers(r, out, CatLeaves(prefix, data, delim))
  {
    r := out;
    if data == map[] {
      CatLeavesEmpty(prefix, data, delim);
      CoversNothing(r);
      return;
    }
    assert CatLeavesOver(prefix, data, delim, {}) == {};
    CoversNothing(r);
    var todo := data.Keys;
    ghost var done: set<string> := {};
    while todo != {}
      invariant todo <= data.Keys && done == data.Keys - todo
      invariant Covers(r, out, CatLeavesOver(prefix, data, delim, done))
      decreases |todo|
    {
      var key :| key in todo;
      var before := r;
      var trimmedKey := TrimSpace(key);
      if trimmedKey != "" {
        r := FlattenCatalogEntry(ConfigDefaults.JoinDelim(prefix, delim, trimmedKey), data[key], delim, r);
      }
      FlattenCatalogStep(prefix, data, delim, done, key, out, before, r);
      todo := todo - {key};
      done := done + {key};
    }
    assert done == data.Keys;
  }

  /** The type switch of flattenCatalog's loop. */
  method FlattenCatalogEntry(path: string, value: Val, delim: string, out: map<string, FeatureDefinition>)
    returns (r: map<string, FeatureDefinition>)
    decreases value, 2
    ensures Covers(r, out, EntryCatLeaves(path, value, delim))
  {
    if value.Map? {
      var def := DefinitionFromMap(value.m);
      if def.Some? {
        r := DefsAdd(out, FeatureDefinition(path, def.value.description));
      } else {
        r := FlattenCatalog(path, value.m, delim, out);
      }
    } else if value.StrMap? {
      var raw := StrMapToAny(value.sm);
      var def := DefinitionFromMap(raw);
      if def.Some? {
        r := DefsAdd(out, FeatureDefinition(path, def.value.description));
      } else {
        r := out;
        CoversNothing(out);
      }
    } else {
      var msg := MessageFromValue(value);
      if msg.Some? {
        r := DefsAdd(out, FeatureDefinition(path, msg.value));
      } else {
        r := out;
        CoversNothing(out);
      }
    }
  }

  /** A map[string]string is never recursed into: it gives at most one entry, under its own normalised path. */
  lemma StringMapNotRecursed(path: string, sm: map<string, string>, delim: string)
    ensures forall e :: e in EntryCatLeaves(path, StrMap(sm), delim) ==> e.0 == Keys.NormalizeKey(path)
    ensures forall e1, e2 :: e1 in EntryCatLeaves(path, StrMap(sm), delim) && e2 in EntryCatLeaves(path, StrMap(sm), delim) ==> e1 == e2
  {
  }

  /** A map[string]any that is a definition gives exactly its own entry: nothing below it is looked at. */
  lemma DefinitionMapNotRecursed(path: string, m: map<string, Val>, delim: string)
    requires DefinitionFromMap(m).Some?
    ensures EntryCatLeaves(path, Map(m), delim) == AddedEntry(FeatureDefinition(path, DefinitionFromMap(m).value.description))
  {
  }

  /** Every entry is stored under its own non-blank normalised key and carries a normalised description. */
  predicate GoodEntry(e: (string, FeatureDefinition)) {
    e.0 != "" && Keys.NormalizeKey(e.0) == e.0 && e.1.key == e.0 && IsNormalMessage(e.1.description)
  }

  lemma AddedEntryGood(def: FeatureDefinition, e: (string, FeatureDefinition))
    requires IsNormalMessage(def.description) && e in AddedEntry(def)
    ensures GoodEntry(e)
  {
    Keys.NormalizeKeyIdempotent(def.key);
  }

  lemma {:induction false} CatLeavesGood(prefix: string, data: map<string, Val>, delim: string, e: (string, FeatureDefinition))
    requires e in CatLeaves(prefix, data, delim)
    decreases Map(data)
    ensures GoodEntry(e)
  {
    var k :| k in data && TrimSpace(k) != "" && e in EntryCatLeaves(ConfigDefaults.JoinDelim(prefix, delim, TrimSpace(k)), data[k], delim);
    var path := ConfigDefaults.JoinDelim(prefix, delim, TrimSpace(k));
    var v := data[k];
    if v.Map? {
      var def := DefinitionFromMap(v.m);
      if def.Some? {
        AddedEntryGood(FeatureDefinition(path, def.value.description), e);
      } else {
        CatLeavesGood(path, v.m, delim, e);
      }
    } else if v.StrMap? {
      AddedEntryGood(FeatureDefinition(path, DefinitionFromMap(StrMapToAny(v.sm)).value.description), e);
    } else {
      AddedEntryGood(FeatureDefinition(path, MessageFromValue(v).value), e);
    }
  }

  /** The flattened table is one NewStatic leaves unchanged. */
  lemma FlattenedWellFormed(data: map<string, Val>, delim: string, defs: map<string, FeatureDefinition>)
    requires Covers(defs, map[], CatLeaves("", data, delim))
    ensures WellFormed(StaticCatalog(defs))
  {
    forall k | k in defs ensures GoodEntry((k, defs[k])) {
      assert k in PathsOf(CatLeaves("", data, delim));
      CatLeavesGood("", data, delim, (k, defs[k]));
    }
  }

  /** NewCatalog: the options' delimiter, the flattened definitions, then NewStatic. */
  method NewCatalog(data: map<string, Val>, delimiters: seq<string>) returns (c: StaticCatalog)
    ensures Covers(c.defs, map[], CatLeaves("", data, ConfigDefaults.DelimiterOf(delimiters)))
    ensures WellFormed(c)
  {
    var delimiter := ConfigDefaults.DefaultDelimiter;
    var i := 0;
    while i < |delimiters|
      invariant 0 <= i <= |delimiters|
      invariant delimiter == if i == 0 then ConfigDefaults.DefaultDelimiter else delimiters[i - 1]
    {
      delimiter := delimiters[i];
      i := i + 1;
    }
    if delimiter == "" {
      delimiter := ConfigDefaults.DefaultDelimiter;
    }
    var defs := FlattenCatalog("", data, delimiter, map[]);
    FlattenedWellFormed(data, delimiter, defs);
    c := NewStatic(defs);
    NewStaticOfWellFormed(defs, c.defs);
  }

  /** Get on a catalog built from `data` finds the only entry a key has. */
  lemma GetOfUniqueEntry(data: map<string, Val>, delim: string, c: StaticCatalog, k: string, d: FeatureDefinition)
    requires Covers(c.defs, map[], CatLeaves("", data, delim))
    requires (k, d) in CatLeaves("", data, delim)
    requires forall w :: (k, w) in CatLeaves("", data, delim) ==> w == d
    ensures Get(c, k) == Some(d)
  {
    CoversUnique(c.defs, map[], CatLeaves("", data, delim), k, d);
    CatLeavesGood("", data, delim, (k, d));
    Keys.NormalizeKeyBlank(k);
  }

  lemma CatLeavesSingle(prefix: string, k: string, v: Val, delim: string)
    ensures CatLeaves(prefix, map[k := v], delim)
            == if TrimSpace(k) != "" then EntryCatLeaves(ConfigDefaults.JoinDelim(prefix, delim, TrimSpace(k)), v, delim) else {}
  {
    var data := map[k := v];
    assert data.Keys == {k};
    assert CatLeaves(prefix, data, delim) == CatLeavesOver(prefix, data, delim, {k});
  }

  const SignupText := "Allow signups"
  const SignupDescriptionKey := "feature.users.signup.description"

  /** {"description_key": ..., "description_text": ...} */
  const DescriptionFields: map<string, Val> :=
    map["description_key" := Str(SignupDescriptionKey), "description_text" := Str(SignupText)]

  lemma DescriptionFieldsDefinition()
    ensures DefinitionFromMap(DescriptionFields) == Some(FeatureDefinition("", Message(SignupDescriptionKey, SignupText, None)))
  {
    assert "description" !in DescriptionFields;
    assert IsTrimmed(SignupDescriptionKey) && IsTrimmed(SignupText);
    TrimSpaceOfTrimmed(SignupDescriptionKey);
    TrimSpaceOfTrimmed(SignupText);
  }

  /** The catalog test: description_key/description_text under "users.signup" give that key and text. */
  lemma DescriptionKeyFields(c: StaticCatalog)
    requires Covers(c.defs, map[], CatLeaves("", map[Keys.SignupKey := Map(DescriptionFields)], "."))
    ensures Get(c, Keys.SignupKey) == Some(FeatureDefinition(Keys.SignupKey, Message(SignupDescriptionKey, SignupText, None)))
  {
    var data := map[Keys.SignupKey := Map(DescriptionFields)];
    Keys.SignupKeyTrimmed();
    assert Keys.SignupKey !in Keys.KeyAliases;
    DescriptionFieldsDefinition();
    CatLeavesSingle("", Keys.SignupKey, Map(DescriptionFields), ".");
    var d := FeatureDefinition(Keys.SignupKey, Message(SignupDescriptionKey, SignupText, None));
    assert CatLeaves("", data, ".") == {(Keys.SignupKey, d)};
    GetOfUniqueEntry(data, ".", c, Keys.SignupKey, d);
  }

  const InviteKey := "users.invite"
  const InviteText := "Allow invites"
  const InviteDefinition := FeatureDefinition(InviteKey, Message("", InviteText, None))

  lemma InviteStrings()
    ensures TrimSpace("users") == "users" && TrimSpace("invite") == "invite" && TrimSpace(InviteText) == InviteText
    ensures Keys.NormalizeKey(InviteKey) == InviteKey
  {
    assert IsTrimmed("users") && IsTrimmed("invite") && IsTrimmed(InviteText) && IsTrimmed(InviteKey);
    TrimSpaceOfTrimmed("users");
    TrimSpaceOfTrimmed("invite");
    TrimSpaceOfTrimmed(InviteText);
    TrimSpaceOfTrimmed(InviteKey);
    assert InviteKey !in Keys.KeyAliases;
  }

  /** The leaves of {"users": {"invite": "Allow invites"}}: the one definition under users.invite. */
  lemma NestedStringLeaves()
    ensures CatLeaves("", map["users" := Map(map["invite" := Str(InviteText)])], ".") == {(InviteKey, InviteDefinition)}
  {
    var inner := map["invite" := Str(InviteText)];
    InviteStrings();
    assert ConfigDefaults.JoinDelim("users", ".", "invite") == InviteKey;
    CatLeavesSingle("users", "invite", Str(InviteText), ".");
    assert CatLeaves("users", inner, ".") == {(InviteKey, InviteDefinition)};
    assert "description" !in inner && "description_key" !in inner && "description_text" !in inner;
    assert DefinitionFromMap(inner).None?;
    CatLeavesSingle("", "users", Map(inner), ".");
  }

  /** The catalog test: the nested string "users" -> "invite" gives the trimmed text under users.invite. */
  lemma NestedStringDescription(c: StaticCatalog)
    requires Covers(c.defs, map[], CatLeaves("", map["users" := Map(map["invite" := Str(InviteText)])], "."))
    ensures Get(c, InviteKey) == Some(InviteDefinition)
  {
    NestedStringLeaves();
    GetOfUniqueEntry(map["users" := Map(map["invite" := Str(InviteText)])], ".", c, InviteKey, InviteDefinition);
  }
}
