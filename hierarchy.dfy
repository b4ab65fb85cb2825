/** The mapped class hierarchy: `parent` maps a class to the class it
    extends. The PHP language guarantees that `extends` has no cycles; here a
    rank that strictly decreases from child to parent witnesses that. */
module Hierarchy {

  ghost predicate RankedBy(parent: map<string, string>, rank: map<string, nat>)
  {
    forall c :: c in parent ==> c in rank && parent[c] in rank && rank[parent[c]] < rank[c]
  }

  function Measure(rank: map<string, nat>, c: string): nat
  {
    if c in rank then rank[c] else 0
  }

  /** The chain from the top-most ancestor down to `c`, inclusive. */
  ghost function Lineage(parent: map<string, string>, rank: map<string, nat>, c: string): seq<string>
    requires RankedBy(parent, rank)
    decreases Measure(rank, c)
  {
    if c in parent then Lineage(parent, rank, parent[c]) + [c] else [c]
  }

  /** The ancestors of `c`, nearest parent first, excluding `c`. */
  ghost function Ancestors(parent: map<string, string>, rank: map<string, nat>, c: string): seq<string>
    requires RankedBy(parent, rank)
    decreases Measure(rank, c)
  {
    if c in parent then [parent[c]] + Ancestors(parent, rank, parent[c]) else []
  }

  /** The top-most ancestor of `c`, or `c` itself when it extends nothing. */
  ghost function Root(parent: map<string, string>, rank: map<string, nat>, c: string): string
    requires RankedBy(parent, rank)
    decreases Measure(rank, c)
  {
    if c in parent then Root(parent, rank, parent[c]) else c
  }

  /** The lineage starts at the root, ends at the class itself, and read
      backwards (without the class) is its ancestor list. */
  lemma {:induction false} LineageShape(parent: map<string, string>, rank: map<string, nat>, c: string)
    requires RankedBy(parent, rank)
    ensures var l, a := Lineage(parent, rank, c), Ancestors(parent, rank, c);
      && |l| == |a| + 1
      && l[0] == Root(parent, rank, c)
      && l[|l| - 1] == c
      && forall k :: 0 <= k < |a| ==> a[k] == l[|a| - 1 - k]
    decreases Measure(rank, c)
  {
    if c in parent {
      LineageShape(parent, rank, parent[c]);
    }
  }

  /** Every class of a lineage has as its own lineage the prefix ending at it. */
  lemma {:induction false} LineagePrefix(parent: map<string, string>, rank: map<string, nat>, c: string, i: nat)
    requires RankedBy(parent, rank)
    requires i < |Lineage(parent, rank, c)|
    ensures Lineage(parent, rank, Lineage(parent, rank, c)[i]) == Lineage(parent, rank, c)[..i + 1]
    decreases Measure(rank, c)
  {
    var l := Lineage(parent, rank, c);
    if c in parent {
      var lp := Lineage(parent, rank, parent[c]);
      if i < |lp| {
        LineagePrefix(parent, rank, parent[c], i);
        assert l[..i + 1] == lp[..i + 1];
      } else {
        assert l[..i + 1] == l;
      }
    }
  }

  /** Ranks strictly increase down a lineage. */
  lemma {:induction false} LineageRanksIncrease(parent: map<string, string>, rank: map<string, nat>, c: string)
    requires RankedBy(parent, rank)
    ensures forall i, j :: 0 <= i < j < |Lineage(parent, rank, c)| ==>
      Measure(rank, Lineage(parent, rank, c)[i]) < Measure(rank, Lineage(parent, rank, c)[j])
    ensures forall i :: 0 <= i < |Lineage(parent, rank, c)| ==>
      Measure(rank, Lineage(parent, rank, c)[i]) <= Measure(rank, c)
    decreases Measure(rank, c)
  {
    if c in parent {
      var p := parent[c];
      LineageRanksIncrease(parent, rank, p);
      var l, lp := Lineage(parent, rank, c), Lineage(parent, rank, p);
      assert l == lp + [c];
      assert Measure(rank, p) < Measure(rank, c);
      forall i | 0 <= i < |l|
        ensures Measure(rank, l[i]) <= Measure(rank, c)
        ensures i < |lp| ==> Measure(rank, l[i]) < Measure(rank, c)
      {
        if i < |lp| {
          assert l[i] == lp[i];
        }
      }
    }
  }

  /** No class occurs twice in a lineage. */
  lemma LineageDistinct(parent: map<string, string>, rank: map<string, nat>, c: string)
    requires RankedBy(parent, rank)
    ensures var l := Lineage(parent, rank, c);
      forall i, j :: 0 <= i < j < |l| ==> l[i] != l[j]
  {
    LineageRanksIncrease(parent, rank, c);
  }
}
