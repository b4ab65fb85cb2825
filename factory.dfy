/** The metadata factory with its raw-metadata hook replaced by a table of
    pre-built ClassMetadata objects, as the test subject does it: a lookup
    logs the requested name and fails on a name that has no entry. Resolving
    a class walks up its `extends` chain, asks the hook for every class of it
    root-first, then completes the objects in place, root-first. */
module Factory {
  import opened Mapping
  import opened Hierarchy
  import opened Resolution

  datatype Error = MappingNotFound(className: string)

  datatype Result<T> = Success(value: T) | Failure(error: Error)

  /** The position of the first name of `names` outside `known`, or |names|. */
  ghost function FirstMissing(names: seq<string>, known: set<string>): (j: nat)
    ensures j <= |names|
    ensures forall k :: 0 <= k < j ==> names[k] in known
    ensures j < |names| ==> names[j] !in known
  {
    if names == [] || names[0] !in known then 0
    else 1 + FirstMissing(names[1..], known)
  }

  class ClassMetadataFactoryTestSubject {
    /** The hook's table: class name to the metadata object it hands out.
        An entry holding `null` counts as no entry, as PHP's `isset` does. */
    var mockMetadata: map<string, ClassMetadata?>
    /** Every name the hook was asked for, in order, failed lookups included. */
    var requestedClasses: seq<string>
    /** Class to the class it extends. */
    const parent: map<string, string>
    ghost const rank: map<string, nat>
    /** The database platform's preference for identity columns. */
    const prefersIdentityColumns: bool

    ghost predicate Valid()
    {
      RankedBy(parent, rank)
    }

    constructor (parent: map<string, string>, ghost rank: map<string, nat>, prefersIdentityColumns: bool)
      requires RankedBy(parent, rank)
      ensures Valid()
      ensures this.parent == parent && this.rank == rank && this.prefersIdentityColumns == prefersIdentityColumns
      ensures mockMetadata == map[] && requestedClasses == []
    {
      this.parent := parent;
      this.rank := rank;
      this.prefersIdentityColumns := prefersIdentityColumns;
      mockMetadata := map[];
      requestedClasses := [];
    }

    /** The names the hook has a (non-null) entry for. */
    ghost function Registered(): set<string>
      reads this
    {
      set n | n in mockMetadata && mockMetadata[n] != null
    }

    /** The chain of classes to resolve for `className`, root first. */
    ghost function Chain(className: string): seq<string>
      requires Valid()
    {
      Lineage(parent, rank, className)
    }

    /** The metadata objects registered for the classes of the chain. */
    ghost function ChainObjects(className: string): set<ClassMetadata>
      reads this
      requires Valid()
    {
      set n | n in Chain(className) && n in mockMetadata && mockMetadata[n] != null :: mockMetadata[n]
    }

    /** Distinct classes of the chain are registered with distinct objects. */
    ghost predicate DistinctObjects(className: string)
      reads this
      requires Valid()
    {
      var chain := Chain(className);
      forall i, j :: 0 <= i < j < |chain| && chain[i] in Registered() && chain[j] in Registered() ==>
        mockMetadata[chain[i]] != mockMetadata[chain[j]]
    }

    /** The current values of the objects registered for `names`. */
    ghost function Snapshots(names: seq<string>): (s: seq<Metadata>)
      reads this, mockMetadata.Values
      requires forall n :: n in names ==> n in mockMetadata && mockMetadata[n] != null
      ensures |s| == |names|
      ensures forall i :: 0 <= i < |names| ==> s[i] == mockMetadata[names[i]].Snapshot()
    {
      if names == [] then []
      else [mockMetadata[names[0]].Snapshot()] + Snapshots(names[1..])
    }

    /** The overridden hook: log the name, then hand out its table entry. */
    method NewClassMetadataInstance(className: string) returns (r: Result<ClassMetadata>)
      modifies this`requestedClasses
      ensures requestedClasses == old(requestedClasses) + [className]
      ensures className in Registered() ==> r.Success? && r.value == mockMetadata[className]
      ensures className !in Registered() ==> r == Failure(MappingNotFound(className))
    {
      requestedClasses := requestedClasses + [className];
      if className !in mockMetadata || mockMetadata[className] == null {
        return Failure(MappingNotFound(className));
      }
      var metadata: ClassMetadata := mockMetadata[className];
      r := Success(metadata);
    }

    /** Register `metadata` for `className`; registering `null` removes the
        entry as far as the hook is concerned. */
    method SetMetadataForClass(className: string, metadata: ClassMetadata?)
      modifies this`mockMetadata
      ensures mockMetadata == old(mockMetadata)[className := metadata]
    {
      mockMetadata := mockMetadata[className := metadata];
    }

    method GetRequestedClasses() returns (r: seq<string>)
      ensures r == requestedClasses
    {
      r := requestedClasses;
    }

    /** Walk up from `className` to the top-most class it extends. */
    method ParentChain(className: string) returns (chain: seq<string>)
      requires Valid()
      ensures chain == Lineage(parent, rank, className)
      ensures chain[|chain| - 1] == className
    {
      var current := className;
      chain := [className];
      while current in parent
        invariant chain != [] && chain[0] == current
        invariant Lineage(parent, rank, current) + chain[1..] == Lineage(parent, rank, className)
        decreases Measure(rank, current)
      {
        current := parent[current];
        chain := [current] + chain;
      }
    }

    /** Ask the hook for every class of `chain`, root first, stopping at the
        first one it has no entry for. */
    method RequestChain(chain: seq<string>) returns (r: Result<seq<ClassMetadata>>)
      modifies this`requestedClasses
      ensures var j := FirstMissing(chain, Registered());
              && (r.Success? <==> j == |chain|)
              && (r.Success? ==>
                    && requestedClasses == old(requestedClasses) + chain
                    && |r.value| == |chain|
                    && forall k :: 0 <= k < |chain| ==> r.value[k] == mockMetadata[chain[k]])
              && (r.Failure? ==>
                    && r.error == MappingNotFound(chain[j])
                    && requestedClasses == old(requestedClasses) + chain[..j + 1])
    {
      var objs: seq<ClassMetadata> := [];
      var i := 0;
      while i < |chain|
        invariant 0 <= i <= |chain|
        invariant |objs| == i
        invariant forall k :: 0 <= k < i ==> chain[k] in Registered() && objs[k] == mockMetadata[chain[k]]
        invariant requestedClasses == old(requestedClasses) + chain[..i]
      {
        var res := NewClassMetadataInstance(chain[i]);
        if res.Failure? {
          assert FirstMissing(chain, Registered()) == i;
          assert chain[..i] + [chain[i]] == chain[..i + 1];
          return Failure(res.error);
        }
        objs := objs + [res.value];
        i := i + 1;
      }
      assert chain[..i] == chain;
      r := Success(objs);
    }

    /** One step of the pass: `o` takes over from its resolved parent `p`. */
    method InheritInto(o: ClassMetadata, parentName: string, p: ClassMetadata)
      requires o != p
      modifies o
      ensures o.Snapshot() == Inherit(parentName, p.Snapshot(), old(o.Snapshot()))
    {
      o.parentClasses := [parentName] + p.parentClasses;
      o.rootClassName := p.rootClassName;
      o.inheritanceType := p.inheritanceType;
      o.fieldMappings := p.fieldMappings + o.fieldMappings;
      o.associationMappings := p.associationMappings + o.associationMappings;
    }

    /** Complete the objects of a chain in place, root first, so that each
        ends up holding its resolved metadata. */
    method CompleteChain(chain: seq<string>, objs: seq<ClassMetadata>, ghost raws: seq<Metadata>)
      requires |chain| == |objs| == |raws| > 0
      requires forall i, j :: 0 <= i < j < |objs| ==> objs[i] != objs[j]
      requires forall k :: 0 <= k < |objs| ==> objs[k].Snapshot() == raws[k]
      modifies set o | o in objs
      ensures forall k :: 0 <= k < |objs| ==> objs[k].Snapshot() == ResolvedAt(chain, raws, prefersIdentityColumns, k)
    {
      var gen := ResolveIdGenerator(objs[0].idGeneratorType, prefersIdentityColumns);
      var i := 0;
      while i < |chain|
        invariant 0 <= i <= |chain|
        invariant forall k :: 0 <= k < i ==> objs[k].Snapshot() == ResolvedAt(chain, raws, prefersIdentityColumns, k)
        invariant forall k :: i <= k < |chain| ==> objs[k].Snapshot() == raws[k]
      {
        var o := objs[i];
        if i == 0 {
          o.parentClasses := [];
          o.rootClassName := chain[0];
        } else {
          InheritInto(o, chain[i - 1], objs[i - 1]);
          ResolveStep(chain, raws, prefersIdentityColumns, i);
        }
        o.idGeneratorType := gen;
        i := i + 1;
      }
    }

    /** Complete the registered objects of the chain of `className` in
        place, given the objects the hook handed out for it. */
    method CompleteRegistered(className: string, chain: seq<string>, objs: seq<ClassMetadata>, ghost raws: seq<Metadata>)
      requires Valid() && DistinctObjects(className)
      requires chain == Chain(className) && |objs| == |chain| > 0
      requires forall n :: n in chain ==> n in mockMetadata && mockMetadata[n] != null
      requires forall k :: 0 <= k < |chain| ==> objs[k] == mockMetadata[chain[k]]
      requires raws == Snapshots(chain)
      modifies ChainObjects(className)
      ensures forall i :: 0 <= i < |chain| ==>
        mockMetadata[chain[i]].Snapshot() == ResolvedAt(chain, raws, prefersIdentityColumns, i)
    {
      forall k | 0 <= k < |objs|
        ensures objs[k] in ChainObjects(className)
      {
        assert chain[k] in Chain(className);
      }
      forall i, j | 0 <= i < j < |objs|
        ensures objs[i] != objs[j]
      {
        assert chain[i] in Registered() && chain[j] in Registered();
      }
      CompleteChain(chain, objs, raws);
    }

    /** Resolve `className`: on success every class of its chain holds its
        resolved metadata and the hook was asked for the whole chain, root
        first; when some class of the chain has no entry, the hook was asked
        for the chain up to and including that class, and no metadata
        object was changed. */
    method GetMetadataFor(className: string) returns (r: Result<ClassMetadata>)
      requires Valid()
      requires DistinctObjects(className)
      modifies this`requestedClasses, ChainObjects(className)
      ensures mockMetadata == old(mockMetadata)
      ensures var chain := Chain(className);
              var j := FirstMissing(chain, Registered());
              && (r.Success? <==> j == |chain|)
              && (r.Success? ==>
                    && requestedClasses == old(requestedClasses) + chain
                    && className in Registered()
                    && r.value == mockMetadata[className]
                    && forall i :: 0 <= i < |chain| ==>
                         mockMetadata[chain[i]].Snapshot() ==
                           ResolvedAt(chain, old(Snapshots(chain)), prefersIdentityColumns, i))
              && (r.Failure? ==>
                    && j < |chain|
                    && r.error == MappingNotFound(chain[j])
                    && requestedClasses == old(requestedClasses) + chain[..j + 1]
                    && forall n :: n in chain && n in Registered() ==>
                         mockMetadata[n].Snapshot() == old(mockMetadata[n].Snapshot()))
    {
      var chain := ParentChain(className);
      ghost var known := Registered();
      var requested := RequestChain(chain);
      assert Registered() == known;
      if requested.Failure? {
        return Failure(requested.error);
      }
      var objs := requested.value;
      ghost var raws := Snapshots(chain);
      assert raws == old(Snapshots(chain));
      CompleteRegistered(className, chain, objs, raws);
      r := Success(objs[|objs| - 1]);
    }
  }
}
