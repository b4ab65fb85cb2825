/** What one resolution pass computes, as functions on metadata values:
    walking a chain root-first, each class takes over its parent's root,
    inheritance type, field and association mappings, and prepends its
    parent to its parent list; finally the root's id generator, resolved
    against the platform, is set on every class of the chain. */
module Resolution {
  import opened Mapping
  import opened Hierarchy

  /** `auto` becomes `identity` on a platform that prefers identity columns
      and `table` elsewhere; any other strategy is kept. */
  function ResolveIdGenerator(declared: IdGeneratorType, prefersIdentityColumns: bool): (r: IdGeneratorType)
    ensures r != Auto
    ensures declared != Auto ==> r == declared
    ensures declared == Auto ==> (r == Identity <==> prefersIdentityColumns)
    ensures declared == Auto ==> (r == Table <==> !prefersIdentityColumns)
  {
    if declared != Auto then declared
    else if prefersIdentityColumns then Identity
    else Table
  }

  /** Layer `i` of a stack of maps seen through the layers above the root:
      later (deeper) layers override earlier ones. */
  function Layered<T>(layers: seq<map<string, T>>, i: nat): map<string, T>
    requires i < |layers|
  {
    if i == 0 then layers[0] else Layered(layers, i - 1) + layers[i]
  }

  /** A key is visible at layer `i` exactly when some layer up to `i`
      declares it, and its value is the one of the deepest such layer. */
  lemma {:induction false} LayeredLookup<T>(layers: seq<map<string, T>>, i: nat)
    requires i < |layers|
    ensures forall k :: k in Layered(layers, i) <==> exists j :: 0 <= j <= i && k in layers[j]
    ensures forall k :: k in Layered(layers, i) ==>
      exists j :: 0 <= j <= i && k in layers[j] && Layered(layers, i)[k] == layers[j][k] &&
        forall m :: j < m <= i ==> k !in layers[m]
  {
    LayeredKeys(layers, i);
    LayeredDeepest(layers, i);
  }

  lemma {:induction false} LayeredKeys<T>(layers: seq<map<string, T>>, i: nat)
    requires i < |layers|
    ensures forall k :: k in Layered(layers, i) <==> exists j :: 0 <= j <= i && k in layers[j]
  {
    if i > 0 {
      LayeredKeys(layers, i - 1);
      forall k | exists j :: 0 <= j <= i && k in layers[j]
        ensures k in Layered(layers, i)
      {
        var j :| 0 <= j <= i && k in layers[j];
        if j < i {
          assert k in Layered(layers, i - 1);
        }
      }
    }
  }

  lemma {:induction false} LayeredDeepest<T>(layers: seq<map<string, T>>, i: nat)
    requires i < |layers|
    ensures forall k :: k in Layered(layers, i) ==>
      exists j :: 0 <= j <= i && k in layers[j] && Layered(layers, i)[k] == layers[j][k] &&
        forall m :: j < m <= i ==> k !in layers[m]
  {
    if i > 0 {
      LayeredDeepest(layers, i - 1);
      var below, here := Layered(layers, i - 1), Layered(layers, i);
      forall k | k in here
        ensures exists j :: 0 <= j <= i && k in layers[j] && here[k] == layers[j][k] &&
                            forall m :: j < m <= i ==> k !in layers[m]
      {
        if k in layers[i] {
          assert here[k] == layers[i][k];
        } else {
          var j :| 0 <= j <= i - 1 && k in layers[j] && below[k] == layers[j][k] &&
            forall m :: j < m <= i - 1 ==> k !in layers[m];
          assert here[k] == layers[j][k];
        }
      }
    }
  }

  function FieldLayers(raws: seq<Metadata>): (layers: seq<map<string, FieldMapping>>)
    ensures |layers| == |raws|
  {
    seq(|raws|, j requires 0 <= j < |raws| => raws[j].fieldMappings)
  }

  function AssociationLayers(raws: seq<Metadata>): (layers: seq<map<string, AssociationMapping>>)
    ensures |layers| == |raws|
  {
    seq(|raws|, j requires 0 <= j < |raws| => raws[j].associationMappings)
  }

  /** The root of a pass keeps its own declarations; it is its own root and
      has no parents. */
  function AsRoot(name: string, raw: Metadata): Metadata
  {
    raw.(parentClasses := [], rootClassName := name)
  }

  /** One step down the chain: `raw` takes over what its resolved parent
      `parent` (named `parentName`) holds for the whole hierarchy. */
  function Inherit(parentName: string, parent: Metadata, raw: Metadata): Metadata
  {
    raw.(parentClasses := [parentName] + parent.parentClasses,
         rootClassName := parent.rootClassName,
         inheritanceType := parent.inheritanceType,
         fieldMappings := parent.fieldMappings + raw.fieldMappings,
         associationMappings := parent.associationMappings + raw.associationMappings)
  }

  /** The merged metadata of the `i`-th class of the root-first chain `names`,
      whose own declarations are `raws`, before the id generator is resolved. */
  function MergedAt(names: seq<string>, raws: seq<Metadata>, i: nat): Metadata
    requires |names| == |raws| && i < |raws|
  {
    if i == 0 then AsRoot(names[0], raws[0])
    else Inherit(names[i - 1], MergedAt(names, raws, i - 1), raws[i])
  }

  /** The fully resolved metadata of the `i`-th class of the chain: its
      merged metadata with the root's id generator resolved. */
  function ResolvedAt(names: seq<string>, raws: seq<Metadata>, prefersIdentityColumns: bool, i: nat): Metadata
    requires |names| == |raws| && i < |raws|
  {
    MergedAt(names, raws, i).(idGeneratorType := ResolveIdGenerator(raws[0].idGeneratorType, prefersIdentityColumns))
  }

  /** Each resolved class is its parent's resolved metadata inherited onto
      its own declarations, with the resolved id generator. */
  lemma ResolveStep(names: seq<string>, raws: seq<Metadata>, prefersIdentityColumns: bool, i: nat)
    requires |names| == |raws| && 0 < i < |raws|
    ensures ResolvedAt(names, raws, prefersIdentityColumns, i) ==
      Inherit(names[i - 1], ResolvedAt(names, raws, prefersIdentityColumns, i - 1), raws[i])
        .(idGeneratorType := ResolvedAt(names, raws, prefersIdentityColumns, 0).idGeneratorType)
  {
  }

  /** The parent list of the `i`-th class is the chain above it, read
      upwards: nearest parent first, the root last. */
  lemma {:induction false} MergedParentClasses(names: seq<string>, raws: seq<Metadata>, i: nat)
    requires |names| == |raws| && i < |raws|
    ensures |MergedAt(names, raws, i).parentClasses| == i
    ensures forall k :: 0 <= k < i ==> MergedAt(names, raws, i).parentClasses[k] == names[i - 1 - k]
  {
    if i > 0 {
      MergedParentClasses(names, raws, i - 1);
    }
  }

  /** Root name and inheritance type are the root's for every class of the
      chain; each class keeps its own name. */
  lemma {:induction false} MergedHierarchyWide(names: seq<string>, raws: seq<Metadata>, i: nat)
    requires |names| == |raws| && i < |raws|
    ensures MergedAt(names, raws, i).rootClassName == names[0]
    ensures MergedAt(names, raws, i).inheritanceType == raws[0].inheritanceType
    ensures MergedAt(names, raws, i).className == raws[i].className
  {
    if i > 0 {
      MergedHierarchyWide(names, raws, i - 1);
    }
  }

  /** The mappings of the `i`-th class are the declarations of the chain down
      to it, deeper declarations overriding shallower ones. */
  lemma {:induction false} MergedMappings(names: seq<string>, raws: seq<Metadata>, i: nat)
    requires |names| == |raws| && i < |raws|
    ensures MergedAt(names, raws, i).fieldMappings == Layered(FieldLayers(raws), i)
    ensures MergedAt(names, raws, i).associationMappings == Layered(AssociationLayers(raws), i)
  {
    if i > 0 {
      MergedMappings(names, raws, i - 1);
    }
  }

  /** After a pass every class of the chain carries the root's resolved id
      generator, which is never the `auto` placeholder. */
  lemma ResolvedIdGeneratorUniform(names: seq<string>, raws: seq<Metadata>, prefersIdentityColumns: bool)
    requires |names| == |raws|
    ensures forall i :: 0 <= i < |raws| ==>
      ResolvedAt(names, raws, prefersIdentityColumns, i).idGeneratorType ==
        ResolveIdGenerator(raws[0].idGeneratorType, prefersIdentityColumns)
    ensures forall i :: 0 <= i < |raws| ==> ResolvedAt(names, raws, prefersIdentityColumns, i).idGeneratorType != Auto
  {
  }

  /** A field or association declared anywhere in the chain is present on
      the declaring class and all classes below it, and absent above it. */
  lemma MappingsVisibleBelowDeclaration(names: seq<string>, raws: seq<Metadata>, prefersIdentityColumns: bool, i: nat, f: string)
    requires |names| == |raws| && i < |raws|
    ensures f in ResolvedAt(names, raws, prefersIdentityColumns, i).fieldMappings <==>
      exists j :: 0 <= j <= i && f in raws[j].fieldMappings
    ensures f in ResolvedAt(names, raws, prefersIdentityColumns, i).associationMappings <==>
      exists j :: 0 <= j <= i && f in raws[j].associationMappings
  {
    MergedMappings(names, raws, i);
    LayeredLookup(FieldLayers(raws), i);
    LayeredLookup(AssociationLayers(raws), i);
    assert forall j :: 0 <= j <= i ==> FieldLayers(raws)[j] == raws[j].fieldMappings;
    assert forall j :: 0 <= j <= i ==> AssociationLayers(raws)[j] == raws[j].associationMappings;
  }

  /** When only the root declares associations, every class of the chain ends
      up with exactly the root's associations: nothing is added twice. */
  lemma {:induction false} InheritedAssociationsNotDuplicated(names: seq<string>, raws: seq<Metadata>, i: nat)
    requires |names| == |raws| && i < |raws|
    requires forall j :: 0 < j <= i ==> raws[j].associationMappings.Keys == {}
    ensures MergedAt(names, raws, i).associationMappings == raws[0].associationMappings
  {
    if i > 0 {
      InheritedAssociationsNotDuplicated(names, raws, i - 1);
      var above, own := MergedAt(names, raws, i - 1).associationMappings, raws[i].associationMappings;
      assert own.Keys == {};
      assert above + own == above;
    }
  }

  /** Resolving the lineage of a class: each class's parent list is its
      ancestor list, nearest parent first, and each class's root is the
      top-most ancestor of the requested class. */
  lemma ResolvedLineage(parent: map<string, string>, rank: map<string, nat>, c: string,
                        raws: seq<Metadata>, prefersIdentityColumns: bool, i: nat)
    requires RankedBy(parent, rank)
    requires |raws| == |Lineage(parent, rank, c)| && i < |raws|
    ensures ResolvedAt(Lineage(parent, rank, c), raws, prefersIdentityColumns, i).parentClasses ==
      Ancestors(parent, rank, Lineage(parent, rank, c)[i])
    ensures ResolvedAt(Lineage(parent, rank, c), raws, prefersIdentityColumns, i).rootClassName ==
      Root(parent, rank, c)
    ensures ResolvedAt(Lineage(parent, rank, c), raws, prefersIdentityColumns, i).inheritanceType ==
      raws[0].inheritanceType
  {
    var l := Lineage(parent, rank, c);
    var ci := l[i];
    var pc := MergedAt(l, raws, i).parentClasses;
    var a := Ancestors(parent, rank, ci);
    LineageShape(parent, rank, c);
    LineagePrefix(parent, rank, c, i);
    LineageShape(parent, rank, ci);
    MergedParentClasses(l, raws, i);
    MergedHierarchyWide(l, raws, i);
    assert |a| == i;
    forall k | 0 <= k < i
      ensures pc[k] == a[k]
    {
      assert Lineage(parent, rank, ci)[i - 1 - k] == l[i - 1 - k];
    }
  }

  /** Re-resolving a resolved chain changes nothing: each class already holds
      its parents, the root's hierarchy-wide data, its inherited mappings and
      a resolved id generator, so a second pass over the same objects leaves
      every one of them as it is. */
  lemma {:induction false} ResolveIdempotent(names: seq<string>, raws: seq<Metadata>, prefersIdentityColumns: bool,
                                             resolved: seq<Metadata>)
    requires |names| == |raws| == |resolved|
    requires forall k :: 0 <= k < |raws| ==> resolved[k] == ResolvedAt(names, raws, prefersIdentityColumns, k)
    ensures forall i :: 0 <= i < |raws| ==> ResolvedAt(names, resolved, prefersIdentityColumns, i) == resolved[i]
  {
    forall i | 0 <= i < |raws|
      ensures ResolvedAt(names, resolved, prefersIdentityColumns, i) == resolved[i]
    {
      MergedResolvedFixed(names, raws, prefersIdentityColumns, resolved, i);
    }
  }

  lemma {:induction false} MergedResolvedFixed(names: seq<string>, raws: seq<Metadata>, prefersIdentityColumns: bool,
                                               resolved: seq<Metadata>, i: nat)
    requires |names| == |raws| == |resolved| && i < |raws|
    requires forall k :: 0 <= k < |raws| ==> resolved[k] == ResolvedAt(names, raws, prefersIdentityColumns, k)
    ensures MergedAt(names, resolved, i) == resolved[i]
  {
    if i == 0 {
      assert MergedAt(names, raws, 0).parentClasses == [];
    } else {
      MergedResolvedFixed(names, raws, prefersIdentityColumns, resolved, i - 1);
      ResolveStep(names, raws, prefersIdentityColumns, i);
      var above, own := resolved[i - 1], raws[i];
      assert above.fieldMappings + (above.fieldMappings + own.fieldMappings) ==
             above.fieldMappings + own.fieldMappings;
      assert above.associationMappings + (above.associationMappings + own.associationMappings) ==
             above.associationMappings + own.associationMappings;
    }
  }
}
