/** Feature key normalisation and the alias table of the gate package. */
module Keys {
  import opened Text

  const SignupKey := "users.signup"
  const SelfRegistrationKey := "users.self_registration"

  /** The alias table, alias key first and canonical key second, in declaration order. */
  const AliasPairs: seq<(string, string)> := [(SelfRegistrationKey, SignupKey)]

  /** keyAliases, the alias table as a map. */
  const KeyAliases: map<string, string> := map[SelfRegistrationKey := SignupKey]

  lemma AliasTableAgrees()
    ensures forall i :: 0 <= i < |AliasPairs| ==> AliasPairs[i].0 in KeyAliases && KeyAliases[AliasPairs[i].0] == AliasPairs[i].1
    ensures forall a :: a in KeyAliases ==> exists i :: 0 <= i < |AliasPairs| && AliasPairs[i].0 == a
  {
    assert AliasPairs[0].0 == SelfRegistrationKey;
  }

  /**
   * NormalizeKey: "" for a blank key; the canonical key for an alias; the
   * trimmed key otherwise.
   */
  function NormalizeKey(key: string): (r: string)
    ensures r == "" <==> TrimSpace(key) == ""
    ensures TrimSpace(key) != "" && TrimSpace(key) in KeyAliases ==> r == KeyAliases[TrimSpace(key)]
    ensures TrimSpace(key) != "" && TrimSpace(key) !in KeyAliases ==> r == TrimSpace(key)
  {
    var k := TrimSpace(key);
    if k == "" then ""
    else if k in KeyAliases then KeyAliases[k]
    else k
  }

  lemma SignupKeyTrimmed()
    ensures IsTrimmed(SignupKey) && IsTrimmed(SelfRegistrationKey)
    ensures TrimSpace(SignupKey) == SignupKey && TrimSpace(SelfRegistrationKey) == SelfRegistrationKey
  {
    TrimSpaceOfTrimmed(SignupKey);
    TrimSpaceOfTrimmed(SelfRegistrationKey);
  }

  /** Normalised keys are trimmed, non-blank results are not alias keys. */
  lemma NormalizedShape(key: string)
    ensures IsTrimmed(NormalizeKey(key))
    ensures NormalizeKey(key) !in KeyAliases
  {
    SignupKeyTrimmed();
    TrimSpaceTrimmed(key);
  }

  /** NormalizeKey is idempotent, because no alias target is itself an alias. */
  lemma NormalizeKeyIdempotent(key: string)
    ensures NormalizeKey(NormalizeKey(key)) == NormalizeKey(key)
  {
    var r := NormalizeKey(key);
    NormalizedShape(key);
    TrimSpaceOfTrimmed(r);
  }

  /** A key normalises to "" exactly when it is blank. */
  lemma NormalizeKeyBlank(key: string)
    ensures NormalizeKey(key) == "" <==> IsBlank(key)
  {
    TrimSpaceEmptyIffBlank(key);
  }

  /** Trimming first does not change the normalisation. */
  lemma NormalizeTrimmed(key: string)
    ensures NormalizeKey(TrimSpace(key)) == NormalizeKey(key)
  {
    TrimSpaceIdempotent(key);
  }

  /** White space around a key does not change its normalisation. */
  lemma NormalizePadded(pad1: string, core: string, pad2: string)
    requires IsBlank(pad1) && IsBlank(pad2) && IsTrimmed(core)
    ensures NormalizeKey(pad1 + core + pad2) == NormalizeKey(core)
  {
    TrimSpacePadded(pad1, core, pad2);
    TrimSpaceOfTrimmed(core);
  }

  /** The documented alias resolves to the canonical sign-up key, from any padding. */
  lemma AliasResolves(pad1: string, pad2: string)
    requires IsBlank(pad1) && IsBlank(pad2)
    ensures NormalizeKey(pad1 + SelfRegistrationKey + pad2) == SignupKey
    ensures NormalizeKey(pad1 + SignupKey + pad2) == SignupKey
  {
    SignupKeyTrimmed();
    NormalizePadded(pad1, SelfRegistrationKey, pad2);
    NormalizePadded(pad1, SignupKey, pad2);
    assert SignupKey !in KeyAliases;
  }

  /** ResolveAlias: the normalised key, and whether it differs from the trimmed key. */
  function ResolveAlias(key: string): (r: (string, bool))
    ensures TrimSpace(key) == "" ==> r == ("", false)
    ensures TrimSpace(key) != "" ==> r.0 == NormalizeKey(key) && (r.1 <==> TrimSpace(key) in KeyAliases)
  {
    var normalized := NormalizeKey(key);
    if normalized == "" then ("", false)
    else
      NormalizedShape(key);
      (normalized, normalized != TrimSpace(key))
  }

  /** IsAlias: the trimmed key is a key of the alias table. */
  function IsAlias(key: string): (r: bool)
    ensures r <==> TrimSpace(key) in KeyAliases
    ensures r ==> NormalizeKey(key) != TrimSpace(key)
  {
    NormalizedShape(key);
    TrimSpace(key) in KeyAliases
  }

  /** The alias keys of `pairs` whose canonical key is `key`, in table order. */
  function AliasesIn(pairs: seq<(string, string)>, key: string): (r: seq<string>)
    ensures forall a :: a in r <==> exists i :: 0 <= i < |pairs| && pairs[i].0 == a && pairs[i].1 == key
  {
    if pairs == [] then []
    else
      var rest := AliasesIn(pairs[1..], key);
      assert forall i :: 0 < i < |pairs| ==> pairs[i] == pairs[1..][i - 1];
      if pairs[0].1 == key then [pairs[0].0] + rest else rest
  }

  /** AliasesFor: the alias keys that normalise to the canonical `key`. */
  function AliasesFor(key: string): (r: seq<string>)
    ensures forall a :: a in r <==> a in KeyAliases && KeyAliases[a] == key
  {
    AliasTableAgrees();
    AliasesIn(AliasPairs, key)
  }

  /** Every alias of a canonical key normalises back to that key. */
  lemma AliasesNormalizeBack(key: string, a: string)
    requires a in AliasesFor(key)
    ensures NormalizeKey(a) == key
  {
    SignupKeyTrimmed();
    assert a == SelfRegistrationKey;
  }

  /** The sign-up key has exactly the self-registration alias. */
  lemma SignupAliases()
    ensures AliasesFor(SignupKey) == [SelfRegistrationKey]
    ensures AliasesFor(SelfRegistrationKey) == []
  {
    assert AliasPairs[1..] == [];
    assert AliasesIn(AliasPairs, SignupKey) == [SelfRegistrationKey] + AliasesIn([], SignupKey);
    assert SignupKey != SelfRegistrationKey;
    assert AliasesIn(AliasPairs, SelfRegistrationKey) == AliasesIn([], SelfRegistrationKey);
  }
}
