/**
 * Go's `any`, restricted to the dynamic types the feature gate inspects with
 * type switches: nil, booleans and boolean pointers, optional booleans,
 * strings and Stringers, the three map types, the two slice types, and one
 * case for every other type.
 */
module Values {
  import opened Wrappers

  datatype Val =
    | Nil
    | Bool(b: bool)
      /** A `*bool`; `None` is the nil pointer. */
    | BoolPtr(ptr: Option<bool>)
      /** A value with IsSet()/Value(), such as config.OptionalBool. */
    | OptBool(isSet: bool, value: bool)
      /** A `*config.OptionalBool`; `None` is the nil pointer. */
    | OptBoolPtr(opt: Option<(bool, bool)>)
    | Str(s: string)
      /** A fmt.Stringer other than a string, with the text its String() returns. */
    | Stringer(text: string)
      /** A `map[string]any`. */
    | Map(m: map<string, Val>)
      /** A `map[string]bool`. */
    | BoolMap(bm: map<string, bool>)
      /** A `map[string]string`. */
    | StrMap(sm: map<string, string>)
      /** A `[]any`. */
    | List(items: seq<Val>)
      /** A `[]string`. */
    | StrList(strs: seq<string>)
      /** A value of any other dynamic type, told apart by a tag. */
    | Other(tag: nat)

  /** The `map[string]any` a `map[string]string` converts to, key by key. */
  function StrMapToAny(sm: map<string, string>): (r: map<string, Val>)
    ensures r.Keys == sm.Keys
    ensures forall k :: k in sm ==> r[k] == Str(sm[k])
  {
    map k | k in sm :: Str(sm[k])
  }

  /** The `map[string]any` a `map[string]bool` converts to, key by key. */
  function BoolMapToAny(bm: map<string, bool>): (r: map<string, Val>)
    ensures r.Keys == bm.Keys
    ensures forall k :: k in bm ==> r[k] == Bool(bm[k])
  {
    map k | k in bm :: Bool(bm[k])
  }
}
