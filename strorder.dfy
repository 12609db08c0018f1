/**
 * The byte order Go's sort.Strings uses, on strings of code points (for
 * well-formed UTF-8 the two orders agree), and the sorted, duplicate-free
 * sequences built with it.
 */
module StrOrder {

  /** Lexicographic "strictly before"; a proper prefix comes first. */
  predicate Less(a: string, b: string) {
    if a == [] then b != []
    else if b == [] then false
    else if a[0] != b[0] then a[0] < b[0]
    else Less(a[1..], b[1..])
  }

  lemma {:induction false} LessIrreflexive(a: string)
    ensures !Less(a, a)
  {
    if a != [] { LessIrreflexive(a[1..]); }
  }

  lemma {:induction false} LessAsymmetric(a: string, b: string)
    requires Less(a, b)
    ensures !Less(b, a)
  {
    if a != [] && b != [] && a[0] == b[0] { LessAsymmetric(a[1..], b[1..]); }
  }

  lemma {:induction false} LessTransitive(a: string, b: string, c: string)
    requires Less(a, b) && Less(b, c)
    ensures Less(a, c)
  {
    if a != [] && a[0] == b[0] && b[0] == c[0] { LessTransitive(a[1..], b[1..], c[1..]); }
  }

  lemma {:induction false} LessTotal(a: string, b: string)
    ensures a == b || Less(a, b) || Less(b, a)
  {
    if a != [] && b != [] && a[0] == b[0] {
      LessTotal(a[1..], b[1..]);
      assert a == [a[0]] + a[1..] && b == [b[0]] + b[1..];
    }
  }

  function Elems(s: seq<string>): set<string> {
    set x | x in s
  }

  lemma ElemsEmpty(s: seq<string>)
    ensures Elems(s) == {} <==> s == []
  {
    if s != [] { assert s[0] in Elems(s); }
  }

  predicate NoDups(s: seq<string>) {
    forall i, j :: 0 <= i < j < |s| ==> s[i] != s[j]
  }

  predicate StrictlySorted(s: seq<string>) {
    forall i, j :: 0 <= i < j < |s| ==> Less(s[i], s[j])
  }

  lemma StrictlySortedNoDups(s: seq<string>)
    requires StrictlySorted(s)
    ensures NoDups(s)
  {
    forall i, j | 0 <= i < j < |s| ensures s[i] != s[j] {
      LessIrreflexive(s[i]);
    }
  }

  /** `x` placed into the strictly sorted `s`, unless it is already there. */
  function Insert(s: seq<string>, x: string): (r: seq<string>)
    requires StrictlySorted(s)
    ensures StrictlySorted(r) && Elems(r) == Elems(s) + {x}
  {
    if s == [] then [x]
    else if x == s[0] then s
    else if Less(x, s[0]) then
      assert forall k :: 0 < k < |s| ==> Less(x, s[k]) by {
        forall k | 0 < k < |s| ensures Less(x, s[k]) { LessTransitive(x, s[0], s[k]); }
      }
      [x] + s
    else
      LessTotal(x, s[0]);
      var t := Insert(s[1..], x);
      assert Elems(s) == {s[0]} + Elems(s[1..]);
      assert forall k :: 0 <= k < |t| ==> Less(s[0], t[k]) by {
        forall k | 0 <= k < |t| ensures Less(s[0], t[k]) {
          assert t[k] in Elems(s[1..]) + {x};
        }
      }
      assert Elems([s[0]] + t) == {s[0]} + Elems(t);
      [s[0]] + t
  }

  /** The distinct elements of `xs` in ascending order. */
  function SortedSet(xs: seq<string>): (r: seq<string>)
    ensures StrictlySorted(r) && Elems(r) == Elems(xs)
  {
    if xs == [] then []
    else
      var r := Insert(SortedSet(xs[..|xs| - 1]), xs[|xs| - 1]);
      assert Elems(xs) == Elems(xs[..|xs| - 1]) + {xs[|xs| - 1]} by {
        assert xs == xs[..|xs| - 1] + [xs[|xs| - 1]];
      }
      r
  }

  /** A set has exactly one strictly sorted listing. */
  lemma {:induction false} StrictlySortedUnique(a: seq<string>, b: seq<string>)
    requires StrictlySorted(a) && StrictlySorted(b) && Elems(a) == Elems(b)
    ensures a == b
  {
    ElemsEmpty(a);
    ElemsEmpty(b);
    if a != [] && b != [] {
      if a[0] != b[0] {
        assert a[0] in Elems(b) && b[0] in Elems(a);
        var k :| 0 <= k < |b| && b[k] == a[0];
        var m :| 0 <= m < |a| && a[m] == b[0];
        LessAsymmetric(b[0], a[0]);
        assert false;
      }
      StrictlySortedNoDups(a);
      StrictlySortedNoDups(b);
      assert Elems(a[1..]) == Elems(a) - {a[0]} by {
        assert a == [a[0]] + a[1..];
        assert a[0] !in a[1..];
      }
      assert Elems(b[1..]) == Elems(b) - {b[0]} by {
        assert b == [b[0]] + b[1..];
        assert b[0] !in b[1..];
      }
      StrictlySortedUnique(a[1..], b[1..]);
      assert a == [a[0]] + a[1..] && b == [b[0]] + b[1..];
    }
  }

  /** SortedSet depends only on which strings occur, not on their order or repetition. */
  lemma SortedSetOrderIndependent(xs: seq<string>, ys: seq<string>)
    requires Elems(xs) == Elems(ys)
    ensures SortedSet(xs) == SortedSet(ys)
  {
    StrictlySortedUnique(SortedSet(xs), SortedSet(ys));
  }

  /** Placing `x` just after the elements below it keeps a strictly sorted sequence strictly sorted. */
  lemma InsertAt(r: seq<string>, j: nat, x: string)
    requires StrictlySorted(r) && j <= |r| && x !in Elems(r)
    requires forall k :: 0 <= k < j ==> Less(r[k], x)
    requires j < |r| ==> !Less(r[j], x)
    ensures StrictlySorted(r[..j] + [x] + r[j..]) && Elems(r[..j] + [x] + r[j..]) == Elems(r) + {x}
  {
    if j < |r| {
      assert r[j] in Elems(r);
      LessTotal(r[j], x);
      forall k | j < k < |r| ensures Less(x, r[k]) { LessTransitive(x, r[j], r[k]); }
    }
    var r' := r[..j] + [x] + r[j..];
    assert forall k :: 0 <= k < |r'| ==> r'[k] == (if k < j then r[k] else if k == j then x else r[k - 1]);
    assert r == r[..j] + r[j..];
  }

  /**
   * sort.Strings applied to the keys of a Go map (which never repeat):
   * insertion sort producing the strictly ascending listing of the keys.
   */
  method SortKeys(keys: seq<string>) returns (r: seq<string>)
    requires NoDups(keys)
    ensures StrictlySorted(r) && Elems(r) == Elems(keys) && |r| == |keys|
  {
    r := [];
    var i := 0;
    while i < |keys|
      invariant 0 <= i <= |keys|
      invariant StrictlySorted(r) && Elems(r) == Elems(keys[..i]) && |r| == i
    {
      var x := keys[i];
      assert x !in Elems(keys[..i]);
      var j := 0;
      while j < |r| && Less(r[j], x)
        invariant 0 <= j <= |r|
        invariant forall k :: 0 <= k < j ==> Less(r[k], x)
      {
        j := j + 1;
      }
      InsertAt(r, j, x);
      var r' := r[..j] + [x] + r[j..];
      assert keys[..i + 1] == keys[..i] + [x];
      r := r';
      i := i + 1;
    }
    assert keys[..i] == keys;
  }
}
