/**
 * The order-independent contract shared by the loops that flatten a nested
 * map into an output map while iterating a Go map in unspecified order.
 */
module Flat {

  /** The paths that have at least one leaf in `leaves`. */
  ghost function PathsOf<V>(leaves: set<(string, V)>): set<string> {
    set e | e in leaves :: e.0
  }

  /**
   * `after` is `before` with every leaf path written: its keys are those of
   * `before` plus the leaf paths, a path with a leaf holds one of that path's
   * leaves (which one depends on the iteration order when several share a
   * path) and every other entry is as it was.
   */
  ghost predicate Covers<V>(after: map<string, V>, before: map<string, V>, leaves: set<(string, V)>) {
    (forall p :: p in after <==> p in before || p in PathsOf(leaves))
    && (forall p :: p in after && p in PathsOf(leaves) ==> (p, after[p]) in leaves)
    && (forall p :: p in after && p !in PathsOf(leaves) ==> after[p] == before[p])
  }

  lemma CoversNothing<V>(m: map<string, V>)
    ensures Covers(m, m, {})
  {
  }

  lemma CoversOne<V>(m: map<string, V>, p: string, v: V)
    ensures Covers(m[p := v], m, {(p, v)})
  {
    assert PathsOf({(p, v)}) == {p};
  }

  /** Writing two batches of leaves one after the other writes their union. */
  lemma CoversTrans<V>(a: map<string, V>, b: map<string, V>, c: map<string, V>, l1: set<(string, V)>, l2: set<(string, V)>)
    requires Covers(b, a, l1) && Covers(c, b, l2)
    ensures Covers(c, a, l1 + l2)
  {
    assert PathsOf(l1 + l2) == PathsOf(l1) + PathsOf(l2);
  }

  /** When every path has at most one leaf, the flattened map is determined by the leaves. */
  lemma CoversUnique<V>(after: map<string, V>, before: map<string, V>, leaves: set<(string, V)>, p: string, v: V)
    requires Covers(after, before, leaves) && (p, v) in leaves
    requires forall w :: (p, w) in leaves ==> w == v
    ensures p in after && after[p] == v
  {
    assert p in PathsOf(leaves);
  }
}
