/**
 * Error values of the feature gate: the package-level sentinels of the
 * error package, rich errors carrying a category, a text code and the error
 * they wrap, plain Go errors, and the guard's DisabledError.
 */
module Errors {
  import opened Wrappers

  datatype Category = BadInput | Operation | External | Internal

  /** The package-level sentinel errors; each is a distinct identity. */
  datatype Sentinel =
    | InvalidKey
    | StoreUnavailable
    | StoreRequired
    | ResolverRequired
    | GateRequired
    | ScopeRequired
    | SnapshotRequired
    | PathRequired
    | PathInvalid
    | PreferencesStoreRequired

  function CategoryOf(s: Sentinel): Category {
    match s
    case InvalidKey | ScopeRequired | PathRequired | PathInvalid => BadInput
    case SnapshotRequired => Internal
    case _ => Operation
  }

  function TextCodeOf(s: Sentinel): string {
    match s
    case InvalidKey => "FEATURE_KEY_REQUIRED"
    case StoreUnavailable => "OVERRIDE_STORE_REQUIRED"
    case StoreRequired => "STORE_REQUIRED"
    case ResolverRequired => "RESOLVER_REQUIRED"
    case GateRequired => "FEATURE_GATE_REQUIRED"
    case ScopeRequired => "SCOPE_REQUIRED"
    case SnapshotRequired => "SNAPSHOT_REQUIRED"
    case PathRequired => "PATH_REQUIRED"
    case PathInvalid => "PATH_INVALID"
    case PreferencesStoreRequired => "PREFERENCES_STORE_REQUIRED"
  }

  function MessageOf(s: Sentinel): string {
    match s
    case InvalidKey => "feature key required"
    case StoreUnavailable => "override store not configured"
    case StoreRequired => "store is required"
    case ResolverRequired => "resolver is required"
    case GateRequired => "feature gate is required"
    case ScopeRequired => "scope is required"
    case SnapshotRequired => "snapshot is required"
    case PathRequired => "path is required"
    case PathInvalid => "path segment is not a map"
    case PreferencesStoreRequired => "preferences store is required"
  }

  // Text codes used when wrapping a collaborator's error.
  const StoreReadFailed := "STORE_READ_FAILED"
  const StoreWriteFailed := "STORE_WRITE_FAILED"
  const DefaultLookupFailed := "DEFAULT_LOOKUP_FAILED"
  const ScopeResolveFailed := "SCOPE_RESOLVE_FAILED"
  const PathInvalidCode := "PATH_INVALID"
  const ScopeInvalid := "SCOPE_INVALID"
  const ScopeMetadataMissing := "SCOPE_METADATA_MISSING"
  const ScopeMetadataInvalid := "SCOPE_METADATA_INVALID"

  datatype Error =
    | SentinelError(sentinel: Sentinel)
      /** A rich error; `source` is the error it wraps (its Unwrap). */
    | Rich(category: Category, textCode: string, message: string, source: Option<Error>)
      /** An error built with errors.New or returned by a collaborator. */
    | Plain(text: string)
      /** The guard's DisabledError{Key}. */
    | Disabled(key: string)

  /** The guard's ErrFeatureDisabled, which DisabledError unwraps to. */
  const FeatureDisabled := Plain("feature disabled")

  function Unwrap(err: Error): Option<Error> {
    match err
    case Rich(_, _, _, source) => source
    case Disabled(_) => Some(FeatureDisabled)
    case _ => None
  }

  /** errors.Is: `target` is `err` or occurs along its Unwrap chain. */
  predicate Is(err: Error, target: Error) {
    err == target
    || (err.Rich? && err.source.Some? && Is(err.source.value, target))
    || (err.Disabled? && target == FeatureDisabled)
  }

  /** The Error() text. */
  function ErrorText(err: Error): string {
    match err
    case SentinelError(s) => MessageOf(s)
    case Rich(_, _, message, _) => message
    case Plain(text) => text
    case Disabled(key) => if key == "" then "feature disabled" else "feature disabled: " + key
  }

  /** The fields of the rich error ferrors.As finds. */
  datatype RichView = RichView(category: Category, textCode: string, message: string)

  /**
   * ferrors.As: every sentinel is itself a rich error, carrying its own
   * category, text code and message, and so is every Rich error; a plain
   * error and a DisabledError, which only unwraps to a plain error, are not.
   */
  function AsRich(err: Error): (r: Option<RichView>)
    ensures r.Some? <==> err.SentinelError? || err.Rich?
    ensures err.SentinelError? ==> r == Some(RichView(CategoryOf(err.sentinel), TextCodeOf(err.sentinel), MessageOf(err.sentinel)))
    ensures err.Rich? ==> r == Some(RichView(err.category, err.textCode, err.message))
    ensures r.Some? ==> r.value.message == ErrorText(err)
  {
    match err
    case SentinelError(s) => Some(RichView(CategoryOf(s), TextCodeOf(s), MessageOf(s)))
    case Rich(c, tc, m, _) => Some(RichView(c, tc, m))
    case _ => None
  }

  /** A sentinel and the sentinel wrapped without a message look the same to ferrors.As. */
  lemma WrapSentinelSameView(s: Sentinel)
    ensures AsRich(WrapSentinel(s, "")) == AsRich(SentinelError(s))
    ensures AsRich(SentinelError(s)).value.textCode != ""
  {
  }

  /** WrapSentinel: a fresh rich error with the sentinel's category and code that unwraps to it. */
  function WrapSentinel(s: Sentinel, message: string): (r: Error)
    ensures r.Rich? && r.category == CategoryOf(s) && r.textCode == TextCodeOf(s)
    ensures Is(r, SentinelError(s))
  {
    Rich(CategoryOf(s), TextCodeOf(s), if message == "" then MessageOf(s) else message,
         Some(SentinelError(s)))
  }

  /**
   * Wrap: a sentinel is wrapped with its own category and code; a rich error
   * is cloned, keeping its category, with an empty code or message filled in;
   * any other error becomes a rich error of `category`/`textCode` around it.
   */
  function Wrap(err: Error, category: Category, textCode: string, message: string): (r: Error)
    ensures r.Rich?
    ensures err.SentinelError? ==> r.category == CategoryOf(err.sentinel) && r.textCode == TextCodeOf(err.sentinel)
    ensures err.Rich? ==> r.category == err.category && r.source == err.source
                          && r.textCode == (if err.textCode == "" then textCode else err.textCode)
    ensures (err.Plain? || err.Disabled?) ==> r.category == category && r.textCode == textCode
                                                && Is(r, err)
    ensures forall s :: Is(err, SentinelError(s)) ==> Is(r, SentinelError(s))
  {
    match err
    case SentinelError(s) => WrapSentinel(s, "")
    case Rich(c, tc, m, source) =>
      Rich(c, if tc == "" then textCode else tc, if m == "" then message else m, source)
    case _ =>
      Rich(category, textCode, if message == "" then ErrorText(err) else message, Some(err))
  }

  function WrapExternal(err: Error, textCode: string, message: string): Error {
    Wrap(err, External, textCode, message)
  }

  function WrapBadInput(err: Error, textCode: string, message: string): Error {
    Wrap(err, BadInput, textCode, message)
  }

  function NewBadInput(textCode: string, message: string): Error {
    Rich(BadInput, textCode, message, None)
  }
}
