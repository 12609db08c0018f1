# go-featuregate, modelled in Dafny

go-featuregate is a Go library that answers one question: is feature `key`
enabled for this caller? It resolves the answer in layers:

- **Runtime overrides.** These are stored per scope: user, role, permission, org, tenant and system.
- **Configured defaults.**
- **A hard `false`.**

Around these layers the library adds:

- key normalisation with an alias table;
- a scope chain derived from the caller's claims;
- a group-based strategy that picks the deciding override (deny wins among roles and permissions);
- an optional result cache, with a trace and hooks for every decision;
- guards for handlers;
- pongo2 template helpers.

Stores come as adapters:

- an in-memory store;
- a go-options state store that keeps nested snapshots;
- a preferences store;
- a Bun SQL table.

The config adapter turns nested maps into defaults and catalog entries.

This project models that core:

- **Values.** Keys, scope references, overrides and traces are datatypes. Go's `any` becomes the sum type `Values.Val`, and Go errors become `Errors.Error`.
- **Objects that change state.** The resolver, each store and the preferences adapter are classes. Their fields are what the Go structs update, and their methods carry `modifies` clauses.
- **Loops.** Every loop with a contract of its own is a method with invariants. It is proved against a specification function, and lemmas prove the properties of that function. The plain copy loops listed under "Left out" are functions.
- **Map iteration.** Go's random map order is modelled by choosing the next key without determinism (`:|`). So every contract holds for every visiting order.

Modules follow the source packages:

| module | package |
|---|---|
| `Keys` | the gate's key normalisation |
| `Overrides` | the stores' override constructors |
| `Chain` | the resolver's scope-chain construction |
| `Strategy` | the default resolve strategy |
| `Resolver` | the `Gate` itself |
| `MemoryStore` | the in-memory store |
| `Paths`, `OptionsStore`, `Preferences` | the options adapter |
| `BunStore` | the Bun adapter |
| `ConfigDefaults`, `ConfigCatalog` | the config adapter |
| `Catalog` | the static catalog |
| `Guard` | the guard package |
| `Scope` | the scope package |
| `Templates` | the template helpers |
| `Errors` | the ferrors package |

`Text`, `StrOrder`, `Flat`, `Values`, `GateTypes` and `Wrappers` hold shared definitions:

- the `strings` functions the source uses;
- lexicographic order;
- map flattening;
- the shared types.

## Model

| member | source | states |
|---|---|---|
| Keys.NormalizeKey | gate/keys.go:15-24 | "" exactly for a blank key; an alias key gives its canonical key; any other key comes back trimmed |
| Keys.NormalizedShape | gate/keys.go:15-24 | a normalised key is trimmed, and a non-blank result is never itself an alias key |
| Keys.NormalizeKeyIdempotent | gate/keys.go:10-24 | normalising twice gives the same key as normalising once |
| Keys.NormalizeKeyBlank | gate/keys.go:15-19 | a key normalises to "" if and only if it is blank |
| Keys.NormalizeTrimmed | gate/keys.go:15-24 | trimming before normalising changes nothing |
| Keys.NormalizePadded | gate/keys.go:15-24 | white space around a key does not change its normalisation |
| Keys.AliasResolves | gate/keys.go:10-22 | "users.self_registration", with any padding, resolves to "users.signup" |
| Keys.ResolveAlias | gate/keys.go:27-33 | the normalised key, with the flag true exactly when it differs from the trimmed key |
| Keys.IsAlias | gate/keys.go:36-39 | true exactly when the trimmed key is a key of the alias table |
| Keys.AliasesFor | resolver/resolver.go:812-813 | the aliases of a key are exactly the table keys that map to it |
| Keys.AliasesNormalizeBack | gate/keys.go:10-24 | every alias of a canonical key normalises back to that key |
| Keys.SignupAliases | resolver/resolver_test.go:143-157 | the sign-up key has exactly the one self-registration alias |
| Overrides.FromBool | store/store.go:26-33 | true gives the enabled state with value true, false the disabled state with value false |
| Overrides.ConstructorsDistinct | store/store.go:16-38 | the four constructors give pairwise different states; HasValue holds only for enabled and disabled |
| Overrides.ValueOf | resolver/resolver.go:1036-1044 | true or false for a concrete state, none for missing and unset |
| Errors.WrapSentinel | ferrors/errors.go:77-93 | a rich error carrying the sentinel's category and text code, which unwraps to the sentinel |
| Errors.AsRich | ferrors/errors.go:168-174 | ferrors.As finds a rich error exactly for sentinels and rich errors, with their category, text code and message; a plain error and a DisabledError are not rich |
| Errors.WrapSentinelSameView | ferrors/errors.go:44-93 | a sentinel, built rich by newSentinel, and its message-less wrap look the same to ferrors.As, with a non-empty text code |
| Errors.Wrap | ferrors/errors.go:95-126 | always a rich error: a sentinel is wrapped with its own category and code; a rich error keeps its category and source, taking the new code only when its own is empty; any other error gets the given category and code and still matches itself; every sentinel the error matched is still matched |
| Values.BoolMapToAny | adapters/configadapter/defaults.go:137-146 | same keys, each bool value boxed as a bool |
| Values.StrMapToAny | adapters/configadapter/catalog.go:121-147 | same keys, each string value boxed as a string |
| MemoryStore.ReadScopes | store/memory.go:161-174 | user, org and tenant when their ids are set, most specific first, then system always last |
| MemoryStore.WriteScope | store/memory.go:176-187 | user if set, else org, else tenant, else system |
| MemoryStore.WriteScopeIsFirstRead | store/memory.go:161-187 | the scope a write lands on is the first scope a read consults |
| MemoryStore.NormalizeStoreKey | store/memory.go:153-159 | the gate-normalised key, or the invalid-key error exactly for a blank key |
| MemoryStore.FirstStoredFirst | store/memory.go:44-67 | the override at the first scope of the list that holds one, none exactly when no scope does |
| MemoryStore.FirstAlong | store/memory.go:58-66 | the read loop stops at the first read scope the bucket holds and returns its override |
| MemoryStore.Lookup | store/memory.go:44-67 | the key error for a blank key; otherwise the first stored override, an empty state read as missing |
| MemoryStore.Put | store/memory.go:70-93 | after a write, the written scope holds the override and every other key and scope is unchanged |
| MemoryStore.Dropped | store/memory.go:118-141 | the entry at the scope is gone, a bucket left empty is removed, nothing else changes |
| MemoryStore.SetThenGet | store/memory.go:44-93 | a Set is read back, at the same scope set, as the concrete override it wrote |
| MemoryStore.UnsetThenGet | store/memory.go:44-115 | after an Unset a Get reports unset, not missing |
| MemoryStore.PutFrame | store/memory.go:70-93 | writing one key leaves every read of every other normalised key as it was |
| MemoryStore.MemoryStore.constructor | store/memory.go:39-41 | the new store's table is empty |
| MemoryStore.MemoryStore.Get | store/memory.go:44-67 | returns the Lookup result for the key and scope set; the table is unchanged |
| MemoryStore.MemoryStore.Set | store/memory.go:70-93 | the table becomes Put with the concrete override, or stays unchanged with the key error |
| MemoryStore.MemoryStore.Unset | store/memory.go:96-115 | the table becomes Put with the unset tombstone, or stays unchanged with the key error |
| MemoryStore.MemoryStore.Delete | store/memory.go:118-141 | true exactly when an entry existed at the write scope; the table becomes Dropped |
| MemoryStore.MemoryStore.Clear | store/memory.go:144-151 | the table is empty |
| Chain.NormalizedListMembers | resolver/resolver.go:746-765 | no blank id remains, and the list holds exactly the normalised forms of the non-blank inputs |
| Chain.NormalizeList | resolver/resolver.go:746-765 | the result is the trimmed, normalised, non-blank ids of the specification list, in order |
| Chain.SortAndDedupe | resolver/resolver.go:767-781 | the strictly ascending listing of the distinct values |
| Chain.FirstOccurrencesProps | resolver/resolver.go:783-797 | each distinct value is kept once, at its first occurrence and in input order, and no other value appears |
| Chain.DedupeStable | resolver/resolver.go:783-797 | the result is the first occurrences of the input |
| Chain.RolePermRefsMembers | resolver/resolver.go:702-725 | each id gives a global ref, plus a qualified ref when a tenant or org id is present; nothing else is emitted |
| Chain.BuildRolePermRefs | resolver/resolver.go:702-725 | the refs built are those of the specification function for the ids, in order |
| Chain.WithSystem | resolver/resolver.go:727-734 | the system ref is appended exactly when the chain holds no system-kind ref |
| Chain.AppendSystemIfMissing | resolver/resolver.go:727-734 | the result is the chain with the system ref ensured |
| Chain.WithSystemIdempotent | resolver/resolver.go:727-734 | ensuring the system ref twice equals ensuring it once |
| Chain.MergePerms | resolver/resolver.go:736-744 | the claimed permissions followed by the provider's |
| Chain.BuildChain | resolver/resolver.go:652-700 | the chain is the specification chain for the claims, the permissions and the scope order |
| Chain.ChainFromKinds | resolver/resolver.go:652-700 | every ref of the chain comes from an entry of the scope order with the same kind |
| Chain.ChainFromMembers | resolver/resolver.go:652-700 | a ref of a given kind comes from that kind's contribution |
| Chain.BuiltChainFixedRefs | resolver/resolver.go:652-700 | user, org and tenant refs are present exactly when their id is non-empty and their kind is in the scope order; the system ref exactly when system is in the scope order |
| Chain.BuiltChainRoleRefs | resolver/resolver.go:652-725 | one global role ref per distinct normalised role, plus the qualified copy when a tenant or org id exists |
| Chain.BuiltChainGrantOrderIndependent | resolver/resolver.go:746-781 | in sorted mode the chain does not depend on the order or repetition of the granted roles and permissions |
| Chain.NormalizeScopeRef | resolver/resolver.go:642-650 | ids are trimmed; the ids of role and permission refs are also passed through the normaliser |
| Chain.NormalizeScopeRefIdempotent | resolver/resolver.go:642-650 | normalising a ref twice equals normalising it once, for a normaliser that yields stable trimmed ids |
| Strategy.NormalizedMatchesProps | resolver/resolver.go:1027-1034 | an empty state becomes missing, every other match is unchanged, and normalising again changes nothing |
| Strategy.NormalizeMatches | resolver/resolver.go:1027-1034 | the array in place becomes the normalised matches of its old contents |
| Strategy.ToMatchTraces | resolver/resolver.go:1012-1025 | one trace per match, in order, with its scope, state and value |
| Strategy.ScopeKindStringInjective | resolver/resolver.go:1055-1072 | two known kinds have equal strings exactly when they are equal, and no kind string contains '\|' |
| Strategy.ScopeKeyShape | resolver/resolver.go:1046-1053 | the key is the kind string, the tenant id, the org id and the id, joined by '\|' |
| Strategy.ScopeKeyInjective | resolver/resolver.go:1046-1053 | for refs whose tenant and org ids have no '\|', equal keys mean equal refs |
| Strategy.ScopeKeyCollision | resolver/resolver.go:1046-1053 | two different user refs share a key once a tenant or org id contains '\|' |
| Strategy.IndexByLast | resolver/resolver.go:852-855 | a key is indexed exactly when some match has it, and it maps to the last such match |
| Strategy.IndexByAgrees | resolver/resolver.go:852-855 | under a key that tells the ref apart from every other match scope, both indexes agree at that ref |
| Strategy.BuildIndex | resolver/resolver.go:852-855 | the map built is the matches indexed by their scope ref |
| Strategy.GroupOf | resolver/resolver.go:929-944 | a known kind is in exactly one group, and an unknown kind is in none |
| Strategy.GroupsFromMembers | resolver/resolver.go:873-895 | a group is listed exactly when some kind of the scope order belongs to it |
| Strategy.RolePermOnce | resolver/resolver.go:873-914 | role_perm is listed at most once |
| Strategy.GroupsFromPlain | resolver/resolver.go:873-895 | with no role or permission kind in the order, each kind contributes its own group, in order |
| Strategy.RolePermPlacement | resolver/resolver.go:873-914 | role_perm takes the place of the first role or permission kind; every later kind contributes its own group |
| Strategy.GroupOrderDefault | resolver/resolver.go:873-895 | with no known kind in the order the five default groups are used |
| Strategy.DefaultOrderGroups | resolver/resolver.go:627-636 | the default scope order gives the default group order |
| Strategy.GroupOrderFor | resolver/resolver.go:873-914 | the groups listed are the specification group order of the scope order |
| Strategy.GroupMembersFromChain | resolver/resolver.go:916-927 | a group's members are matches at refs of the chain in that group, and every such ref with a match contributes |
| Strategy.GroupMembersKeysAgree | resolver/resolver.go:916-927 | the '\|'-joined key and the ref key collect the same members when no tenant or org id contains '\|' |
| Strategy.KeyCollisionLeaks | resolver/resolver.go:1046-1053 | as written, a match stored for another tenant's user is collected through a key collision |
| Strategy.CollectGroupMatches | resolver/resolver.go:916-927 | the members collected are the group's members in chain order (ref-keyed; the same as the source's when no tenant or org id contains '\|', by GroupMembersKeysAgree) |
| Strategy.EvaluateDecidesIffConcrete | resolver/resolver.go:946-1010 | a group decides exactly when one of its matches is enabled or disabled; otherwise it reports missing with all match traces |
| Strategy.RolePermDenyWins | resolver/resolver.go:946-1010 | in role_perm a disabled match wins even after an enabled one; the first disabled scope decides false |
| Strategy.RolePermAllow | resolver/resolver.go:946-1010 | in role_perm, with no disabled match, the first enabled match decides true |
| Strategy.FirstConcreteWins | resolver/resolver.go:946-1010 | in any other group the first concrete match in chain order decides, with its own value and state |
| Strategy.EvaluateGroup | resolver/resolver.go:946-1010 | the decision and trace are those of the group evaluation function |
| Strategy.EvaluateMatchFrom | resolver/resolver.go:946-1010 | a deciding group names the scope of one of its own concrete matches |
| Strategy.EvaluateSingle | resolver/resolver.go:946-1010 | a single concrete match decides its group with its own value |
| Strategy.DecideGroupsFirst | resolver/resolver.go:842-871 | a decision is returned exactly when some group decides, and it is the first deciding group in group order |
| Strategy.DefaultStrategyMatchInChain | resolver/resolver.go:842-871 | a decision always comes from a concrete match at a ref of the chain |
| Strategy.DecideGroupsSingle | resolver/resolver.go:842-871 | a lone match decides through the first group that holds its kind |
| Strategy.SingleMatchDecides | resolver/resolver.go:842-871 | a one-ref chain with one concrete override decides with that override's value when its group is ordered |
| Strategy.DefaultStrategyEmpty | resolver/resolver.go:842-871 | with no matches nothing decides and the override state is missing |
| Strategy.DefaultResolveStrategy | resolver/resolver.go:842-871 | the decision and trace are the specification strategy's, and no error is returned (ref-keyed; the same as the source's when no tenant or org id contains '\|', by GroupMembersKeysAgree) |
| Strategy.ApplyStrategy | resolver/resolver.go:828-840 | the default strategy when none is configured, the custom one otherwise; an error is recorded in the override trace |
| Resolver.NewConfig | resolver/resolver.go:267-302 | the defaults New starts from: fail-open, system appended on claims failure but not to a provided chain, the default scope order and groups, the default strategy, no strict store, no cache, no stores |
| Resolver.ProvidedChain | resolver/resolver.go:528-569 | an explicit chain is used as given, plus the system ref only when configured |
| Resolver.ClaimsFailure | resolver/resolver.go:528-569 | on a claims or permission failure, fail-closed reports the error with an empty chain; otherwise the fallback chain is used |
| Resolver.DerivedChainHasSystem | resolver/resolver.go:528-569 | a chain derived from claims always holds the system ref, and the call succeeds |
| Resolver.CanonicalFirst | resolver/resolver.go:799-811 | a decision on the canonical key is final, and no alias is read |
| Resolver.AliasStops | resolver/resolver.go:812-825 | the alias loop stops at the first alias whose read fails or whose overrides decide, after reading exactly the aliases up to it |
| Resolver.AliasNoneDecides | resolver/resolver.go:812-826 | when no alias decides and none fails, every alias is read and the undecided trace is returned |
| Resolver.SignupAliasOverride | resolver/resolver_test.go:119-141 | an override on the alias decides the sign-up key after the canonical key, then the alias, are read |
| Resolver.DefaultLayer | resolver/resolver.go:496-525 | a default lookup error fails with source fallback; a set default gives source default; otherwise false with source fallback |
| Resolver.Lower | resolver/resolver.go:461-525 | the override layer, then the default layer; the trace's key and failure mode are left alone |
| Resolver.OverrideLayer | resolver/resolver.go:461-494 | a store error is wrapped and fails under strictStore; otherwise a decision gives source override; else the defaults decide |
| Resolver.InvalidKeyFirst | resolver/resolver.go:410-426 | a blank key fails with the invalid-key error and source fallback, before any chain, store or default lookup |
| Resolver.LayerPrecedence | resolver/resolver.go:461-525 | an override decision gives source override, else a set default gives source default, else false with source fallback |
| Resolver.StrictStoreError | resolver/resolver.go:464-480 | under strictStore a failing store gives false with the wrapped error, state missing, no defaults and no cache write |
| Resolver.PermissiveStoreError | resolver/resolver_test.go:82-100 | otherwise the store error stays in the override trace, the defaults decide and nothing is cached |
| Resolver.CacheHit | resolver/resolver.go:444-459 | a cache hit returns the cached value with CacheHit set and the current chain, reading nothing |
| Resolver.FailClosedClaims | resolver/resolver.go:428-440 | under fail-closed a claims failure returns false with the wrapped error and source fallback |
| Resolver.SetThenResolve | resolver/resolver.go:317-359 | a value written with Set is what the next uncached resolve along that scope returns, as an override |
| Resolver.AliasUnsetsAll | resolver/resolver.go:1085-1099 | with no failing alias every alias is unset and no error is returned |
| Resolver.AliasUnsetsStop | resolver/resolver.go:1085-1099 | the first failing alias ends the loop; earlier aliases are unset and its error is returned unwrapped |
| Resolver.TombstoneUndecided | resolver/resolver.go:362-408 | a key whose only override along a one-ref chain is the unset tombstone decides nothing |
| Resolver.UnsetThenResolve | resolver/resolver.go:362-408 | after Unset at a scope, the next uncached resolve along that scope reads the key and its aliases, then falls to the default or to false |
| Resolver.TombstonesEffect | resolver/resolver.go:362-408 | each key gets the unset tombstone at the scope; every other entry is kept and nothing is removed |
| Resolver.SignupUnsetOrder | resolver/resolver_test.go:143-157 | unsetting the sign-up key unsets the canonical key first, then its alias |
| Resolver.CacheTransparent | resolver/resolver.go:571-582 | with a coherent cache, a resolve returns the same value and error as with no cache at all |
| Resolver.ResolveKeepsCoherent | resolver/resolver.go:571-582 | every resolve keeps a coherent cache coherent |
| Resolver.CoherentAfterWrite | resolver/resolver.go:571-582 | writing the entry an uncached resolve computed keeps the cache coherent |
| Resolver.WriteGuard | resolver/resolver.go:317-346 | no writer gives the store-unavailable error; a blank key the invalid-key error; otherwise an error exactly when the writer fails |
| Resolver.Gate.constructor | resolver/resolver.go:267-302 | the gate holds the configuration and stores, with an empty cache and no calls or events |
| Resolver.Gate.EmitResolve | resolver/resolver.go:584-603 | exactly one resolve event is appended |
| Resolver.Gate.EmitUpdate | resolver/resolver.go:605-615 | exactly one update event is appended |
| Resolver.Gate.WriteCache | resolver/resolver.go:571-582 | the entry is stored only when caching is on and no store error occurred |
| Resolver.Gate.InvalidateCache | resolver/resolver.go:1074-1083 | the cache is empty |
| Resolver.Gate.ResolveChain | resolver/resolver.go:528-569 | the chain, failure mode and error are those of the chain specification |
| Resolver.Gate.Fallback | resolver/resolver.go:542-566 | the result is the failure-mode chain of the specification |
| Resolver.Gate.ReadAll | resolver/resolver.go:802 | one GetAll call for the key is recorded, and its result is returned |
| Resolver.Gate.StoredAlong | resolver/resolver.go:802 | the matches are the stored overrides along the chain |
| Resolver.Gate.ConsultKey | resolver/resolver.go:802-811 | one GetAll, then normalisation and the strategy, as the specification says |
| Resolver.Gate.ResolveOverridesCall | resolver/resolver.go:799-826 | the result and the GetAll calls are those of the override specification |
| Resolver.Gate.AliasLoop | resolver/resolver.go:812-825 | the result and the GetAll calls are those of the alias lookup specification |
| Resolver.Gate.DefaultsCall | resolver/resolver.go:496-525 | the outcome is the defaults layer of the specification |
| Resolver.Gate.LowerCall | resolver/resolver.go:461-525 | the outcome and the calls are those of the lower layers |
| Resolver.Gate.Resolve | resolver/resolver.go:410-526 | value, trace, error, calls and cache are those of the resolve specification; one event is emitted |
| Resolver.Gate.ResolveAlongCall | resolver/resolver.go:441-526 | a cache hit, or the lower layers with a cache write when allowed; one event |
| Resolver.Gate.CacheMiss | resolver/resolver.go:461-526 | the lower layers with key and failure mode stamped, a cache write when allowed, one event |
| Resolver.Gate.Set | resolver/resolver.go:317-359 | a guard error leaves the state alone; otherwise the concrete override is written at the normalised scope, the cache is cleared and one event is emitted |
| Resolver.Gate.UnsetAliases | resolver/resolver.go:1085-1099 | the aliases are unset in order up to the first failing one, whose error is returned |
| Resolver.Gate.Unset | resolver/resolver.go:362-408 | as Set with the tombstone, then the aliases; the cache is cleared and the event emitted before an alias error is returned |
| Paths.Kept | adapters/optionsadapter/paths.go:9-24 | the trimmed, non-blank pieces, in order |
| Paths.SplitPathOf | adapters/optionsadapter/paths.go:9-24 | every segment is non-empty, trimmed, and free of '.' |
| Paths.SplitPath | adapters/optionsadapter/paths.go:9-24 | the segments are those of the split specification |
| Paths.SplitPathJoin | adapters/optionsadapter/paths.go:9-24 | joining well-formed segments with "." and splitting gives them back |
| Paths.SplitPathSingle | adapters/optionsadapter/paths.go:9-24 | one well-formed segment is its own path |
| Paths.LookupPathOf | adapters/optionsadapter/paths.go:26-50 | nothing in an empty snapshot; a top-level key spelled like the path; otherwise the walk along the segments |
| Paths.LookupPath | adapters/optionsadapter/paths.go:26-50 | the result is that of the lookup specification |
| Paths.SetPath | adapters/optionsadapter/paths.go:52-78 | a blank path is an error; otherwise the value is set along the segments, creating maps where missing |
| Paths.SetPathErrors | adapters/optionsadapter/paths.go:52-78 | the two error cases, with their sentinels |
| Paths.SetThenLookup | adapters/optionsadapter/paths.go:26-78 | after a successful set, looking the path up gives the value back |
| Paths.DeleteInPrunes | adapters/optionsadapter/paths.go:80-116 | after a delete, every map along the path is gone or non-empty |
| Paths.DeletePath | adapters/optionsadapter/paths.go:80-116 | whether a leaf was removed, and the pruned snapshot |
| Paths.DeleteThenLookup | adapters/optionsadapter/paths.go:26-116 | after a delete the path is not found |
| Paths.FlattenMap | adapters/optionsadapter/paths.go:118-137 | every leaf of the data is written under its dot-joined path, whatever the visiting order |
| Paths.FlattenEntry | adapters/optionsadapter/paths.go:123-135 | a map value is recursed into, any other value is written |
| Paths.FlatLeavesShape | adapters/optionsadapter/paths.go:118-137 | every flattened leaf is a non-map value under a non-empty path below the prefix |
| Paths.FlatLeafOfTop | adapters/optionsadapter/paths.go:118-137 | a top-level non-map value under a non-empty key is flattened under that key |
| OptionsStore.Scoped | adapters/optionsadapter/store.go:229-240 | metadata is attached only when both its key and its value are non-empty |
| OptionsStore.DefaultScopes | adapters/optionsadapter/store.go:201-214 | user, org and tenant when set, then always system |
| OptionsStore.WriteScope | adapters/optionsadapter/store.go:216-227 | the most specific scope that is set |
| OptionsStore.WriteScopeIsFirstRead | adapters/optionsadapter/store.go:201-227 | a write lands on the scope a read with the default scopes consults first |
| OptionsStore.DefaultMeta | adapters/optionsadapter/store.go:242-257 | actor_id, actor_type and actor_name for the non-empty fields only |
| OptionsStore.OverrideFromValue | adapters/optionsadapter/store.go:259-279 | nil is unset, a boolean is enabled or disabled, any other value is an error |
| OptionsStore.OverrideFromBool | adapters/optionsadapter/store.go:259-279 | a stored boolean reads back as the override it was written for |
| OptionsStore.Finalize | adapters/optionsadapter/store.go:51-73 | a blank domain and missing builders fall back to the defaults |
| OptionsStore.NoOptionsDefaults | adapters/optionsadapter/store.go:51-73 | with no options the store uses the default domain, scopes and metadata |
| OptionsStore.BlankDomainDefaults | adapters/optionsadapter/store.go:76-83 | a white-space domain leaves the default domain in place |
| OptionsStore.WriteOf | adapters/optionsadapter/store.go:137-191 | the new snapshots and the error of Set or Unset |
| OptionsStore.SetThenGet | adapters/optionsadapter/store.go:106-162 | Set then Get at the same scope set reads the written value back |
| OptionsStore.UnsetThenGet | adapters/optionsadapter/store.go:106-191 | after Unset the write scope no longer has the key, and reading goes on to the next scope |
| OptionsStore.UnsetSystemReadsMissing | adapters/optionsadapter/store.go:165-191 | with only the system scope, an unset key reads as missing |
| OptionsStore.OptionsStore.constructor | adapters/optionsadapter/store.go:51-73 | the options are applied in order, then the defaults are restored for what was left blank |
| OptionsStore.OptionsStore.Get | adapters/optionsadapter/store.go:106-134 | the store and key checks, then the first deciding scope of the scope list |
| OptionsStore.OptionsStore.Set | adapters/optionsadapter/store.go:137-162 | the snapshots become those of the write specification |
| OptionsStore.OptionsStore.Unset | adapters/optionsadapter/store.go:165-191 | the key path is deleted from the write scope's snapshot |
| Preferences.NormalizePrefix | adapters/optionsadapter/preferences_store.go:292-301 | "" for blank; otherwise the trimmed prefix, ending in exactly one '.' |
| Preferences.NormalizePrefixIdempotent | adapters/optionsadapter/preferences_store.go:292-301 | normalising a prefix again changes nothing |
| Preferences.DomainPrefix | adapters/optionsadapter/preferences_store.go:258-263 | the configured key prefix wins over the domain |
| Preferences.CleanedKeys | adapters/optionsadapter/preferences_store.go:50-65 | the trimmed keys, blanks dropped, in order |
| Preferences.CleanKeys | adapters/optionsadapter/preferences_store.go:50-65 | the result is the cleaned keys |
| Preferences.PrefixedKeys | adapters/optionsadapter/preferences_store.go:265-279 | nil without keys; otherwise prefix plus key for each key, in order |
| Preferences.KeyFilter | adapters/optionsadapter/preferences_store.go:68-121 | the set of keys a Load asks for, or none for all |
| Preferences.PrefixedMap | adapters/optionsadapter/preferences_store.go:281-290 | identity for an empty prefix; otherwise every key prefixed, values kept |
| Preferences.WithPrefix | adapters/optionsadapter/preferences_store.go:281-290 | the map built is the prefixed map |
| Preferences.ExtractScopeId | adapters/optionsadapter/preferences_store.go:228-256 | the id must be a non-blank string in the metadata; it comes back trimmed |
| Preferences.PreferenceScope | adapters/optionsadapter/preferences_store.go:196-226 | system, tenant, org and user map to their levels; any other name is rejected |
| Preferences.DefaultScopesHaveSlots | adapters/optionsadapter/preferences_store.go:196-226 | every scope of the default scope builder maps to a preference slot |
| Preferences.StripKey | adapters/optionsadapter/preferences_store.go:68-121 | the key without the prefix, or none when it does not start with it |
| Preferences.UnflattenErrors | adapters/optionsadapter/preferences_store.go:68-121 | a Load path error is still the path sentinel it came from |
| Preferences.UnflattenKeys | adapters/optionsadapter/preferences_store.go:68-121 | every top-level key rebuilt is the first segment of a key under the prefix |
| Preferences.UnflattenNothingKept | adapters/optionsadapter/preferences_store.go:68-121 | with no key under the prefix the rebuilt snapshot is empty, so Load reports not found |
| Preferences.UnflattenFlat | adapters/optionsadapter/preferences_store.go:68-121 | flat stripped keys rebuild exactly to those keys with their values |
| Preferences.UnflattenSnocFlat | adapters/optionsadapter/preferences_store.go:68-121 | the last visited key extends the snapshot by its stripped key, or not at all |
| Preferences.Effective | adapters/optionsadapter/preferences_store.go:68-121 | the preferences resolved for one slot, restricted to the requested keys |
| Preferences.Rebuild | adapters/optionsadapter/preferences_store.go:68-121 | the snapshot rebuilt is that of the unflatten specification for the visiting order |
| Preferences.RebuildStep | adapters/optionsadapter/preferences_store.go:99-115 | one key: skipped outside the prefix, else written at its stripped path, a path error wrapped as invalid input |
| Preferences.DeleteList | adapters/optionsadapter/preferences_store.go:124-194 | the prefixed stored keys that the new values lack |
| Preferences.PreferencesAdapter.constructor | adapters/optionsadapter/preferences_store.go:29-65 | the options are applied in order over the defaults |
| Preferences.PreferencesAdapter.Load | adapters/optionsadapter/preferences_store.go:68-121 | the slot's preferences, rebuilt into the nested snapshot from the keys under the prefix |
| Preferences.PreferencesAdapter.UpsertValues | adapters/optionsadapter/preferences_store.go:124-194 | the values merge into the slot |
| Preferences.PreferencesAdapter.DeleteValues | adapters/optionsadapter/preferences_store.go:124-194 | the keys leave the slot |
| Preferences.PreferencesAdapter.Save | adapters/optionsadapter/preferences_store.go:124-194 | flatten and prefix, upsert the new values, delete the stored keys the new snapshot lacks |
| Preferences.PreferencesAdapter.Apply | adapters/optionsadapter/preferences_store.go:124-194 | the upsert when there are values, then the delete when there are keys |
| Preferences.PreferencesAdapter.KeysToDelete | adapters/optionsadapter/preferences_store.go:124-194 | exactly the stored keys the new values lack, each once |
| BunStore.ReadScopes | adapters/bunadapter/store.go:239-252 | user, org and tenant when set, then always system with an empty id |
| BunStore.WriteScope | adapters/bunadapter/store.go:254-265 | the most specific scope that is set |
| BunStore.WriteScopeIsFirstRead | adapters/bunadapter/store.go:239-265 | a write lands on the scope a read consults first |
| BunStore.OverrideFromRecord | adapters/bunadapter/store.go:267-275 | a null value is unset, true enabled, false disabled |
| BunStore.DefaultUpdatedBy | adapters/bunadapter/store.go:200-211 | the actor's id, else its name, else its type, else "" |
| BunStore.NormalizeBunKey | adapters/bunadapter/store.go:213-219 | the normalised trimmed key, or the invalid-key error exactly for a blank key |
| BunStore.Upserted | adapters/bunadapter/store.go:179-198 | the row is inserted, or on conflict its value, updater and time are replaced |
| BunStore.SetThenGet | adapters/bunadapter/store.go:103-143 | Set then Get at the same scope set reads the written value |
| BunStore.UnsetThenGet | adapters/bunadapter/store.go:103-156 | after Unset a Get reads unset, not missing |
| BunStore.DeleteThenGet | adapters/bunadapter/store.go:103-177 | after Delete the row is gone and reading goes on to the next scope |
| BunStore.BunStore.constructor | adapters/bunadapter/store.go:37-59 | a blank table name becomes the default table, and a missing builder the default one |
| BunStore.BunStore.Get | adapters/bunadapter/store.go:103-130 | the first row along the read scopes, as an override; missing when none |
| BunStore.BunStore.Upsert | adapters/bunadapter/store.go:179-198 | the write scope's row is upserted with the updater and time |
| BunStore.BunStore.Set | adapters/bunadapter/store.go:133-143 | the concrete value is upserted at the write scope |
| BunStore.BunStore.Unset | adapters/bunadapter/store.go:146-156 | a null value is upserted at the write scope |
| BunStore.BunStore.Delete | adapters/bunadapter/store.go:159-177 | the write scope's row is removed; a missing row is no error |
| ConfigDefaults.DefaultFromValue | adapters/configadapter/defaults.go:114-135 | booleans and non-nil pointers are set; optional booleans keep their own state; anything else has no default |
| ConfigDefaults.JoinDelim | adapters/configadapter/defaults.go:83-112 | a key below a prefix is joined by the delimiter; a top-level key stands alone |
| ConfigDefaults.BoolLeavesAgree | adapters/configadapter/defaults.go:52-61 | flattening a bool map equals flattening its any-map conversion |
| ConfigDefaults.LeafKeysNormalized | adapters/configadapter/defaults.go:64-112 | every stored key is non-empty and already normalised |
| ConfigDefaults.WriteLeaf | adapters/configadapter/defaults.go:83-112 | a leaf's default is written under the normalised path, unless it has none or the path is blank |
| ConfigDefaults.FlattenDefaults | adapters/configadapter/defaults.go:83-112 | every leaf is written whatever the visiting order; keys trimmed, blanks skipped |
| ConfigDefaults.FlattenDefaultEntry | adapters/configadapter/defaults.go:88-110 | a map of either type is recursed into; any other value is written |
| ConfigDefaults.FlattenBools | adapters/configadapter/defaults.go:52-61 | every value of a bool map is written as a boolean leaf |
| ConfigDefaults.DelimiterOf | adapters/configadapter/defaults.go:20-27 | the last WithDelimiter, or "." when there is none or it is empty |
| ConfigDefaults.NewDefaults | adapters/configadapter/defaults.go:35-49 | the options' delimiter, then the flattened table |
| ConfigDefaults.NewDefaultsFromBools | adapters/configadapter/defaults.go:52-61 | the bool map as an any-map, or nothing when it is empty |
| ConfigDefaults.Default | adapters/configadapter/defaults.go:64-76 | the stored result for the normalised key; the zero result for an empty table, a blank or an unknown key |
| ConfigDefaults.DefaultOfUniqueLeaf | adapters/configadapter/defaults.go:64-112 | a leaf that is the only one with its key is what Default returns for that key |
| ConfigDefaults.NestedSignupLeaves | adapters/configadapter/defaults.go:83-112 | the nested map users → signup gives the one leaf users.signup |
| ConfigDefaults.NestedOptionalTrue | adapters/configadapter/defaults_test.go:10-24 | a nested set-true optional boolean gives a set, true default for users.signup |
| ConfigDefaults.NestedOptionalUnset | adapters/configadapter/defaults_test.go:26-40 | a nested unset optional boolean gives an unset default |
| ConfigDefaults.FromBoolsSignup | adapters/configadapter/defaults_test.go:42-54 | a flat map with users.signup true gives a set, true default |
| Catalog.PlainResolve | catalog/catalog.go:39-44 | the text when there is one, else the key |
| Catalog.NormalizeMessage | catalog/catalog.go:96-103 | the key and text are trimmed, and empty args become nil |
| Catalog.NormalizeMessageNormal | catalog/catalog.go:96-103 | the result is normal, and a normal message is left alone |
| Catalog.NormalizeMessageIdempotent | catalog/catalog.go:96-103 | normalising twice equals normalising once |
| Catalog.NewStatic | catalog/catalog.go:52-64 | each definition is stored under its normalised key, with that key and a normalised message; blank keys are dropped |
| Catalog.NewStaticWellFormed | catalog/catalog.go:52-64 | the table is well formed, and every non-blank key given finds a definition |
| Catalog.NewStaticOfWellFormed | catalog/catalog.go:52-64 | a well-formed table passes through unchanged, whatever the visiting order |
| Catalog.Get | catalog/catalog.go:67-77 | the definition under the normalised key; not found for an empty catalog or a blank key |
| Catalog.PaddedSignup | catalog/catalog_test.go:8-28 | " users.signup " normalises to the sign-up key |
| Catalog.SignupStored | catalog/catalog_test.go:8-28 | NewStatic stores the one sign-up definition unchanged under its key |
| Catalog.GetNormalizesKey | catalog/catalog_test.go:8-28 | a definition stored under users.signup is found from the padded key |
| Catalog.SortedKeysOf | catalog/catalog.go:80-94 | the strictly ascending listing of the keys |
| Catalog.ListOfLength | catalog/catalog.go:80-94 | one entry per definition, and none for an empty catalog |
| Catalog.ListOfMembers | catalog/catalog.go:80-94 | exactly the stored definitions are listed |
| Catalog.ListOfSorted | catalog/catalog.go:80-94 | in a well-formed catalog, List is in strictly ascending key order |
| Catalog.MapKeys | catalog/catalog.go:84-87 | each key of the map once, in some order |
| Catalog.DefsInOrder | catalog/catalog.go:89-93 | the definitions stored under the keys, in order |
| Catalog.List | catalog/catalog.go:80-94 | the sorted listing of the definitions |
| ConfigCatalog.TrimmedField | adapters/configadapter/catalog.go:121-147 | the trimmed string under the name, or "" when it is missing or not a string |
| ConfigCatalog.ArgsOf | adapters/configadapter/catalog.go:121-147 | a non-empty any-map, else a non-empty string map converted, else nil |
| ConfigCatalog.MessageFromMap | adapters/configadapter/catalog.go:121-147 | trimmed key and text, args only when non-empty; nothing for a map with neither key nor text |
| ConfigCatalog.MessageFromValue | adapters/configadapter/catalog.go:100-119 | a non-blank string becomes the text; a message map of either type is read |
| ConfigCatalog.DefinitionFromMap | adapters/configadapter/catalog.go:78-98 | the message under "description"; otherwise the description_key and description_text fields |
| ConfigCatalog.DefsAdd | adapters/configadapter/catalog.go:69-76 | the definition is stored under its normalised key; blank keys are dropped |
| ConfigCatalog.FlattenCatalog | adapters/configadapter/catalog.go:27-67 | every entry is written under its joined path, whatever the visiting order |
| ConfigCatalog.FlattenCatalogEntry | adapters/configadapter/catalog.go:32-65 | the type switch: strings, string maps and definition maps are entries; other maps are recursed into |
| ConfigCatalog.StringMapNotRecursed | adapters/configadapter/catalog.go:27-67 | a string map gives at most one entry, under its own path |
| ConfigCatalog.DefinitionMapNotRecursed | adapters/configadapter/catalog.go:27-67 | a definition map gives exactly its own entry |
| ConfigCatalog.FlattenedWellFormed | adapters/configadapter/catalog.go:11-25 | the flattened table is one NewStatic leaves unchanged |
| ConfigCatalog.NewCatalog | adapters/configadapter/catalog.go:11-25 | the delimiter, then the flattened definitions, then NewStatic |
| ConfigCatalog.GetOfUniqueEntry | adapters/configadapter/catalog.go:11-67 | Get finds the only entry a key has |
| ConfigCatalog.DescriptionKeyFields | adapters/configadapter/catalog_test.go:53-71 | description_key and description_text under users.signup give that key and text |
| ConfigCatalog.NestedStringLeaves | adapters/configadapter/catalog.go:27-67 | the nested string users → invite gives the one definition users.invite |
| ConfigCatalog.NestedStringDescription | adapters/configadapter/catalog_test.go:5-51 | the nested string gives the trimmed text under users.invite |
| Guard.OverridesAccumulate | gate/guard/guard.go:60-67 | the overrides are all the options' keys, in order |
| Guard.LastDisabledErrorWins | gate/guard/guard.go:40-47 | the last WithDisabledError decides the disabled error |
| Guard.MapErr | gate/guard/guard.go:108-116 | the mapper's result when one is configured, else the error itself |
| Guard.DisabledOutcome | gate/guard/guard.go:101-105 | the configured disabled error, else a DisabledError for the key |
| Guard.DisabledErrorText | gate/guard/guard.go:19-24 | "feature disabled", followed by ": key" when there is a key |
| Guard.OverridesOutcomeShape | gate/guard/guard.go:91-105 | the keys queried are a prefix of the overrides; no override decides exactly when every one is disabled without error |
| Guard.Configure | gate/guard/guard.go:76-81 | the options applied in order to an empty configuration |
| Guard.TryOverrides | gate/guard/guard.go:91-99 | the outcome and queries are those of the override specification |
| Guard.Require | gate/guard/guard.go:71-106 | nil for a nil gate; the primary key, then the overrides in order; the mapped error at the first error |
| Guard.NilGateAllows | gate/guard/guard.go:71-74 | a nil gate allows everything and is never asked |
| Guard.PrimaryEnabledAllows | gate/guard/guard.go:83-89 | an enabled primary key allows access, and no override is queried |
| Guard.PrimaryErrorMapped | gate/guard/guard.go:83-86 | a primary-key error comes back through the mapper, with no override queried |
| Guard.FirstOverrideDecides | gate/guard/guard.go:91-99 | with the primary disabled, the first override that answers decides; every one before it was disabled |
| Guard.AllDisabledDenies | gate/guard/guard.go:91-105 | with everything disabled, the disabled error, after every key was queried |
| Guard.RequireReturnsDisabledError | gate/guard/guard_test.go:38-53 | a configured disabled error is returned after asking about the key alone |
| Guard.RequireHonorsOverride | gate/guard/guard_test.go:55-70 | an enabled override allows a disabled primary key, after two queries |
| Guard.RequireMapsErrors | gate/guard/guard_test.go:72-86 | a gate error is returned through the mapper |
| Guard.RequireDefaultDisabledError | gate/guard/guard_test.go:88-102 | with no options, a disabled key gives an error that is the disabled sentinel |
| Scope.ToString | scope/scope.go:104-112 | a stored string, trimmed; "" for nil or any other type |
| Scope.ToBool | scope/scope.go:114-122 | true exactly when the stored value is the boolean true |
| Scope.TenantID | scope/scope.go:78-80 | trimmed, and "" when nothing is stored |
| Scope.OrgID | scope/scope.go:83-85 | trimmed, and "" when nothing is stored |
| Scope.UserID | scope/scope.go:88-90 | trimmed, and "" when nothing is stored |
| Scope.System | scope/scope.go:73-75 | true exactly when the boolean true is stored under the system key |
| Scope.WithID | scope/scope.go:31-55 | a blank id leaves the context as it is; otherwise the id reads back trimmed; no other key changes |
| Scope.WithTenantID | scope/scope.go:31-37 | the tenant id reads back trimmed, or unchanged for a blank id; the other accessors are unchanged |
| Scope.WithOrgID | scope/scope.go:40-46 | the org id reads back trimmed, or unchanged for a blank id; the other accessors are unchanged |
| Scope.WithUserID | scope/scope.go:49-55 | the user id reads back trimmed, or unchanged for a blank id; the other accessors are unchanged |
| Scope.WithSystem | scope/scope.go:26-28 | the system flag reads back as given; the ids are unchanged |
| Scope.ClearTenantID | scope/scope.go:58-60 | the tenant id reads "" and shadows any outer id; the rest are unchanged |
| Scope.ClearOrgID | scope/scope.go:63-65 | the org id reads "" and shadows any outer id; the rest are unchanged |
| Scope.ClearUserID | scope/scope.go:68-70 | the user id reads "" and shadows any outer id; the rest are unchanged |
| Scope.ClaimsFromContext | scope/scope.go:93-102 | empty claims for a nil context; otherwise subject, tenant and org from the accessors, with no roles or perms |
| Scope.PaddedIds | scope/scope_test.go:10-52 | the padded ids of the test trim to their values, and the blank ones are blank |
| Scope.NoopAndClear | scope/scope_test.go:10-52 | padded ids are stored trimmed, blank ones are no-ops, and clearing empties each id |
| Templates.ConfigOf | templates/helpers.go:47-104 | the three keys are trimmed; structured errors stay off without a WithStructuredErrors option |
| Templates.HelperNames | templates/helpers.go:107-135 | feature_trace is registered exactly for a traceable gate |
| Templates.TemplateHelpers | templates/helpers.go:107-135 | the options applied in order, then the helper set and its names |
| Templates.SnapshotOf | templates/helpers.go:326-340 | the snapshot value of the template data, none for a nil one |
| Templates.ScopeFromMap | templates/helpers.go:592-615 | not ok for an empty map; ok exactly when some id is non-empty or system is true |
| Templates.ScopeFromMapRoundTrip | templates/helpers.go:592-615 | a non-zero scope set written out as a map is read back unchanged; the zero one is not ok |
| Templates.ScopeFromValue | templates/helpers.go:570-590 | a scope set, a non-nil pointer to one, or a map read by scopeFromMap |
| Templates.BoolFromValue | templates/helpers.go:470-482 | a bool or a non-nil pointer to one; nothing else |
| Templates.SnapshotGet | templates/helpers.go:409-428 | Snapshot.Enabled and Snapshot.Trace: not found for a blank key; otherwise the entry under the normalised key |
| Templates.SnapshotEnabledAlias | templates/helpers.go:409-418 | a stored value is found under an alias of its key, padded or not |
| Templates.LookupNestedIsPathLookup | templates/helpers.go:484-505 | the nested lookup is the options adapter's path lookup without its flat top-level key |
| Templates.LookupNestedValue | templates/helpers.go:484-505 | the value reached by the walk, failing on a missing segment or a non-map on the way |
| Templates.NestedLookupFinds | templates/helpers.go:484-505 | a two-segment key reaches a value nested one map down |
| Templates.NestedLookupBlocked | templates/helpers.go:484-505 | a segment under a value that is not a map is not found |
| Templates.PlainSnapshotReadsPath | templates/helpers.go:430-450 | a plain-map snapshot is read like the options adapter's path lookup |
| Templates.ResolveValue | templates/helpers.go:264-281 | an empty key is an invalid-key error; a snapshot answer wins without a gate call; no gate is a gate-required error; otherwise the gate's answer |
| Templates.ParseKey | templates/helpers.go:507-519 | a string or Stringer gives its normalised key unless blank; any other type or blank gives nothing |
| Templates.ParsedOf | templates/helpers.go:521-531 | the parsed keys, in order, never more than the items |
| Templates.ParsedOfNormalized | templates/helpers.go:507-531 | every key parsed is non-empty and already normalised |
| Templates.ParseKeysNormalized | templates/helpers.go:507-547 | every key parseKeys returns is non-empty and normalised |
| Templates.ParsedOfMembers | templates/helpers.go:521-531 | a key is parsed exactly when some item parses to it |
| Templates.ParsedOfIsCollect | templates/helpers.go:521-531 | the parse is the in-order collection of each item's parsed key |
| Templates.ParseKeysOfFlat | templates/helpers.go:521-547 | parseKeys is parseKey over the flattened arguments |
| Templates.ParseKeysOfMembers | templates/helpers.go:521-547 | a key is returned exactly when some flattened argument parses to it |
| Templates.AppendParsed | templates/helpers.go:524-529 | the keys of one argument's items are appended in order |
| Templates.ParseKeys | templates/helpers.go:521-531 | the keys are those of the parse specification |
| Templates.Feature | templates/helpers.go:143-153 | true exactly when the key parses and resolves to true without an error |
| Templates.KeyEnabled | templates/helpers.go:155-167 | one resolve, judged enabled exactly when it is true without an error |
| Templates.AnyLoop | templates/helpers.go:155-167 | the loop over the parsed keys answers true exactly when one of them is enabled |
| Templates.AllLoop | templates/helpers.go:169-181 | the loop over the parsed keys answers true exactly when every one is enabled |
| Templates.FeatureAny | templates/helpers.go:155-167 | true exactly when some key parses and some parsed key is enabled |
| Templates.FeatureAll | templates/helpers.go:169-181 | true exactly when some key parses and every parsed key is enabled |
| Templates.FeatureNone | templates/helpers.go:183-195 | true exactly when some key parses and no parsed key is enabled |
| Templates.SingleKeyQuantifiers | templates/helpers.go:143-181 | with one key, feature_any and feature_all both agree with feature |
| Templates.QuantifierRelations | templates/helpers.go:155-181 | when some key parses, feature_all implies feature_any |
| Templates.TemplateErrorOf | templates/helpers.go:366-389 | the message, category and text code of the rich error ferrors.As finds, a bare sentinel included, typed by text code, else category; any other error's text with the generic type |
| Templates.SentinelTemplateError | templates/helpers.go:366-389 | a bare sentinel and the sentinel wrapped without a message render the same template error, with the sentinel's category |
| Templates.ErrorOrFallback | templates/helpers.go:342-353 | the structured error when enabled, otherwise the fallback |
| Templates.Select | templates/helpers.go:197-237 | the true value when enabled; the fallback when not, without structured errors; errors go through errorOrFallback |
| Templates.FeatureIfClassAgree | templates/helpers.go:197-237 | feature_if and feature_class give the same output, except that a structured error names its own helper |
| Templates.FeatureTrace | templates/helpers.go:239-262 | a snapshot trace first; nothing without a traceable gate; otherwise the gate's trace, errors through errorOrFallback |
| Templates.ScopeOverrideApplied | templates/helpers_test.go:41-64 | a scope map in the template data reaches the gate as its scope set |
| Templates.SnapshotPrecedence | templates/helpers_test.go:66-89 | a snapshot value wins over the gate, which is not asked |
| Templates.ErrorFallback | templates/helpers_test.go:91-106 | a gate error makes feature_if return its fallback |

## Left out

- I/O and context plumbing are not modelled:
  - Go's `context.Context` is not modelled except where the scope package stores values in it.
  - The stores' database and state-store backends are maps given to the constructors.
  - Their per-key failures are fault maps given as parameters.
  - Clocks are a parameter: Bun's `WithNowFunc` time is an argument `at`.
- Concurrency is not modelled, because every call runs alone. The model has no mutexes, and the memory store's locking has no counterpart.
- Logging is not modelled: the logger, the logger option of the helpers, and `logHelperError`.
- The pongo2 plumbing is not modelled: `pongo2.Value` unwrapping (`unwrapValue`), `context` and `contextFromValue`, and `resolveOptions`. The gate is a function of key and scope set; the execution context is dropped.
- Error detail is reduced:
  - errors carry no metadata map, so a template error's context and metadata fields are dropped;
  - `%q`/`%T` message detail is not reproduced;
  - `Category.String()` text is represented by the `ByCategory` error type.
- Only the `Snapshot` implementation of the snapshot reader is modelled. Other snapshot readers are not.
- The options adapter's path helpers are copied in the templates package, so `Templates.LookupNestedValue` reuses `Paths.SplitPathOf` rather than a second identical definition.
- Paths.SetPath: the Go code updates nested maps in place, partly even on failure. The model works on values, so it does not capture aliasing or a half-done update.
- Paths.DeletePath: models the pruning result on values, with the same limitation on in-place updates.
- OptionsStore: the go-options state store's Load/Save are a map from state refs to snapshots. `writeRef`'s error path cannot happen, so it is not modelled. Nil options are skipped.
- Preferences.PreferencesAdapter: the preferences store behind the adapter is a map per slot; its own resolution across levels is not modelled.
- BunStore.BunStore.Upsert: SQL `ON CONFLICT` is modelled as a replace of the row.
- ConfigDefaults.DefaultFromValue: the package's `optionalBool` interface and `config.OptionalBool` are one variant of `Values.Val`; other types that satisfy the interface are not modelled.
- Catalog.Get: a nil static catalog is modelled as an empty one.
- Catalog.PlainResolve: the source's error result is always nil, so it is dropped.
- Templates.ParseKeys: the copy loops of `flattenKeys` and `scopeFromValue` are modelled as functions.
- Values.BoolMapToAny: the copy loop of `boolMapToAny` (`adapters/configadapter/defaults.go:137-146`) is a map comprehension, not a loop.
- Values.StrMapToAny: the three `map[string]string` copy loops of `adapters/configadapter/catalog.go` (lines 50-53, 111-114 and 135-138) are one map comprehension, not loops.
- `templateData` (`templates/helpers.go:617-626`), which copies the execution context's public map, is not modelled: the template data is a parameter, with `None` for a nil context.
- Templates.Helpers: the enabled gate and the trace gate are independent functions. In the source the trace gate is the same feature gate reached through a type assertion (`templates/helpers.go:663-672`), so a trace without a gate cannot happen there and both report on the same resolution. The model does not tie the two together.
- Resolver.Gate.Set: no write is made to aliases. The code does not replicate a write to aliases (`resolver/resolver.go:317-359`); the model follows the code.
- Resolver.Lower: the trace that `resolveOverrides` returns with a store error is shadowed in `resolve` and never used, so the model keeps the base trace.
- Scope: a context value stored by other packages under other keys is not modelled. The accessors on a nil context (a Go panic) are not modelled. `FromContext` is not part of this model.
- `gate.AliasesFor` (used at `resolver/resolver.go:812` and `:1089`) is not part of this model's sources. Keys.AliasesFor defines it as the inverse of the alias table, in table order.
- Hooks and activity sinks are not called. Each emit appends one event to a log of what every hook observes.

## Findings

| source | as written | input that shows it | evidently intended | confidence | as-written member | corrected member |
|---|---|---|---|---|---|---|
| resolver/resolver.go:1046-1053 | matches are indexed by the kind, tenant id, org id and id of their scope joined with '\|', so two different scope refs can share a key | user "u" with tenant "a\|b" and org "" against user "u" with tenant "a" and org "b\|": both keys are "user\|a\|b\|\|u" | a match should only ever be found at its own scope ref | not executed | Strategy.KeyCollisionLeaks | Strategy.BuildIndex |
