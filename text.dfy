/**
 * The handful of Go `strings` functions the feature gate relies on, over
 * `seq<char>`: TrimSpace, Split on one separator, Join, HasPrefix,
 * TrimPrefix and HasSuffix.
 */
module Text {

  /** Go's unicode.IsSpace: ASCII white space, U+0085, U+00A0 and the Zs/Zl/Zp code points. */
  predicate IsSpace(c: char) {
    var n := c as int;
    n == 0x20 || (0x09 <= n <= 0x0D) || n == 0x85 || n == 0xA0 || n == 0x1680
    || (0x2000 <= n <= 0x200A) || n == 0x2028 || n == 0x2029 || n == 0x202F
    || n == 0x205F || n == 0x3000
  }

  /** True when `s` is empty or consists only of white space. */
  predicate IsBlank(s: string) {
    forall i :: 0 <= i < |s| ==> IsSpace(s[i])
  }

  /** True when `s` neither starts nor ends with white space. */
  predicate IsTrimmed(s: string) {
    s == [] || (!IsSpace(s[0]) && !IsSpace(s[|s| - 1]))
  }

  function TrimLeft(s: string): string {
    if s != [] && IsSpace(s[0]) then TrimLeft(s[1..]) else s
  }

  function TrimRight(s: string): string {
    if s != [] && IsSpace(s[|s| - 1]) then TrimRight(s[..|s| - 1]) else s
  }

  lemma {:induction false} TrimLeftShape(s: string)
    ensures |TrimLeft(s)| <= |s| && TrimLeft(s) == s[|s| - |TrimLeft(s)|..]
    ensures TrimLeft(s) == [] || !IsSpace(TrimLeft(s)[0])
    ensures forall i :: 0 <= i < |s| - |TrimLeft(s)| ==> IsSpace(s[i])
  {
    if s != [] && IsSpace(s[0]) {
      var t := s[1..];
      TrimLeftShape(t);
      var r := TrimLeft(t);
      assert TrimLeft(s) == r;
      assert t[|t| - |r|..] == s[|s| - |r|..];
      forall i | 0 <= i < |s| - |r| ensures IsSpace(s[i]) {
        if i > 0 { assert s[i] == t[i - 1]; }
      }
    }
  }

  lemma {:induction false} TrimRightShape(s: string)
    ensures |TrimRight(s)| <= |s| && TrimRight(s) == s[..|TrimRight(s)|]
    ensures TrimRight(s) == [] || !IsSpace(TrimRight(s)[|TrimRight(s)| - 1])
    ensures forall i :: |TrimRight(s)| <= i < |s| ==> IsSpace(s[i])
  {
    if s != [] && IsSpace(s[|s| - 1]) {
      var t := s[..|s| - 1];
      TrimRightShape(t);
      var r := TrimRight(t);
      assert TrimRight(s) == r;
      assert t[..|r|] == s[..|r|];
      forall i | |r| <= i < |s| ensures IsSpace(s[i]) {
        if i < |s| - 1 { assert s[i] == t[i]; }
      }
    }
  }

  /** strings.TrimSpace: `s` without its leading and trailing white space. */
  function TrimSpace(s: string): string {
    TrimRight(TrimLeft(s))
  }

  /**
   * The trimmed string is trimmed, and it is a slice s[lo..lo+|r|] outside
   * of which every character is white space.
   */
  lemma TrimSpaceSlice(s: string) returns (lo: nat)
    ensures IsTrimmed(TrimSpace(s))
    ensures lo + |TrimSpace(s)| <= |s| && TrimSpace(s) == s[lo..lo + |TrimSpace(s)|]
    ensures IsBlank(s[..lo]) && IsBlank(s[lo + |TrimSpace(s)|..])
  {
    var l := TrimLeft(s);
    var r := TrimRight(l);
    TrimLeftShape(s);
    TrimRightShape(l);
    lo := |s| - |l|;
    assert r == s[lo..lo + |r|];
    assert IsBlank(s[..lo]);
    var tail := s[lo + |r|..];
    assert IsBlank(tail) by {
      forall i | 0 <= i < |tail| ensures IsSpace(tail[i]) {
        assert tail[i] == l[|r| + i];
      }
    }
    if r != [] {
      assert r[0] == l[0];
    }
  }

  /** TrimSpace always returns a trimmed string. */
  lemma TrimSpaceTrimmed(s: string)
    ensures IsTrimmed(TrimSpace(s)) && |TrimSpace(s)| <= |s|
  {
    var _ := TrimSpaceSlice(s);
  }

  /** TrimSpace is the identity exactly on trimmed strings. */
  lemma {:induction false} TrimSpaceOfTrimmed(s: string)
    requires IsTrimmed(s)
    ensures TrimSpace(s) == s
  {
    assert TrimLeft(s) == s;
    assert TrimRight(s) == s;
  }

  lemma TrimSpaceIdempotent(s: string)
    ensures TrimSpace(TrimSpace(s)) == TrimSpace(s)
  {
    TrimSpaceTrimmed(s);
    TrimSpaceOfTrimmed(TrimSpace(s));
  }

  /** A string trims to "" exactly when it is blank. */
  lemma {:induction false} TrimSpaceEmptyIffBlank(s: string)
    ensures TrimSpace(s) == "" <==> IsBlank(s)
  {
    var r := TrimSpace(s);
    var lo := TrimSpaceSlice(s);
    if r == "" {
      forall i | 0 <= i < |s| ensures IsSpace(s[i]) {
        if i < lo { assert s[..lo][i] == s[i]; } else { assert s[lo..][i - lo] == s[i]; }
      }
    } else {
      assert s[lo] == r[0] && !IsSpace(s[lo]);
    }
  }

  lemma {:induction false} TrimLeftPadded(pad: string, x: string)
    requires IsBlank(pad) && (x == [] || !IsSpace(x[0]))
    ensures TrimLeft(pad + x) == x
  {
    if pad != [] {
      assert (pad + x)[1..] == pad[1..] + x;
      TrimLeftPadded(pad[1..], x);
    }
  }

  lemma {:induction false} TrimRightPadded(x: string, pad: string)
    requires IsBlank(pad) && (x == [] || !IsSpace(x[|x| - 1]))
    ensures TrimRight(x + pad) == x
  {
    if pad != [] {
      assert (x + pad)[..|x + pad| - 1] == x + pad[..|pad| - 1];
      TrimRightPadded(x, pad[..|pad| - 1]);
    }
  }

  /** Surrounding a trimmed string with white space does not change what TrimSpace returns. */
  lemma TrimSpacePadded(pad1: string, core: string, pad2: string)
    requires IsBlank(pad1) && IsBlank(pad2) && IsTrimmed(core)
    ensures TrimSpace(pad1 + core + pad2) == core
  {
    if core == [] {
      assert pad1 + core + pad2 == pad1 + pad2;
      assert IsBlank(pad1 + pad2) by {
        forall i | 0 <= i < |pad1 + pad2| ensures IsSpace((pad1 + pad2)[i]) {
          if i >= |pad1| { assert (pad1 + pad2)[i] == pad2[i - |pad1|]; }
        }
      }
      TrimSpaceEmptyIffBlank(pad1 + pad2);
    } else {
      assert pad1 + core + pad2 == pad1 + (core + pad2);
      TrimLeftPadded(pad1, core + pad2);
      TrimRightPadded(core, pad2);
    }
  }

  /** strings.Split(s, string([sep])): the pieces between occurrences of `sep`. */
  function Split(s: string, sep: char): (parts: seq<string>)
    ensures |parts| >= 1
    ensures forall i :: 0 <= i < |parts| ==> sep !in parts[i]
  {
    if s == [] then [""]
    else
      var rest := Split(s[1..], sep);
      if s[0] == sep then [""] + rest else [[s[0]] + rest[0]] + rest[1..]
  }

  /** strings.Join(parts, string([sep])). */
  function Join(parts: seq<string>, sep: char): string
  {
    if parts == [] then ""
    else if |parts| == 1 then parts[0]
    else parts[0] + [sep] + Join(parts[1..], sep)
  }

  /** Joining the pieces of a split gives back the input. */
  lemma {:induction false} JoinSplit(s: string, sep: char)
    ensures Join(Split(s, sep), sep) == s
  {
    if s != [] {
      JoinSplit(s[1..], sep);
      var rest := Split(s[1..], sep);
      if s[0] == sep {
        assert Split(s, sep) == [""] + rest;
        assert s == [sep] + s[1..];
      } else {
        var parts := [[s[0]] + rest[0]] + rest[1..];
        assert Split(s, sep) == parts;
        if |rest| == 1 {
          assert Join(parts, sep) == [s[0]] + rest[0];
        } else {
          assert parts[1..] == rest[1..];
          assert Join(rest, sep) == rest[0] + [sep] + Join(rest[1..], sep);
        }
      }
    }
  }

  /** In x + [sep] + y with sep not in x, the first sep is at index |x|. */
  lemma FirstSepAt(x: string, y: string, sep: char)
    requires sep !in x
    ensures (x + [sep] + y)[|x|] == sep
    ensures forall i :: 0 <= i < |x| ==> (x + [sep] + y)[i] != sep
  {
    forall i | 0 <= i < |x| ensures (x + [sep] + y)[i] != sep {
      assert (x + [sep] + y)[i] == x[i];
    }
  }

  /**
   * A separator that occurs in neither left-hand piece splits a string in
   * one place only: x + [sep] + y determines x and y.
   */
  lemma SepJoinInjective(x: string, y: string, x': string, y': string, sep: char)
    requires sep !in x && sep !in x'
    requires x + [sep] + y == x' + [sep] + y'
    ensures x == x' && y == y'
  {
    var s := x + [sep] + y;
    FirstSepAt(x, y, sep);
    FirstSepAt(x', y', sep);
    assert |x| == |x'|;
    assert x == s[..|x|] && x' == s[..|x'|];
    assert y == s[|x| + 1..] && y' == s[|x'| + 1..];
  }

  predicate HasPrefix(s: string, prefix: string) {
    |prefix| <= |s| && s[..|prefix|] == prefix
  }

  predicate HasSuffix(s: string, suffix: string) {
    |suffix| <= |s| && s[|s| - |suffix|..] == suffix
  }

  /** strings.TrimPrefix: `s` without `prefix` when it starts with it, else `s`. */
  function TrimPrefix(s: string, prefix: string): (r: string)
    ensures HasPrefix(s, prefix) ==> prefix + r == s
    ensures !HasPrefix(s, prefix) ==> r == s
  {
    if HasPrefix(s, prefix) then s[|prefix|..] else s
  }
}
