/** The two resolution scenarios of the factory's test, with the test's
    expectations as postconditions, derived from the factory's contract
    alone, and two failure-path scenarios the test does not contain: a root
    class with no entry, and an entry taken away by registering `null`.
    TestEntity2 extends TestEntity1 and TestEntity3 extends TestEntity2. */
module Scenarios {
  import opened Mapping
  import opened Hierarchy
  import opened Resolution
  import opened Factory

  const TestEntity1: string := "Doctrine\\Tests\\ORM\\Mapping\\TestEntity1"
  const TestEntity2: string := "Doctrine\\Tests\\ORM\\Mapping\\TestEntity2"
  const TestEntity3: string := "Doctrine\\Tests\\ORM\\Mapping\\TestEntity3"

  function TestParents(): map<string, string>
  {
    map[TestEntity2 := TestEntity1, TestEntity3 := TestEntity2]
  }

  function TestRanks(): map<string, nat>
  {
    map[TestEntity1 := 0, TestEntity2 := 1, TestEntity3 := 2]
  }

  lemma TestHierarchy()
    ensures TestEntity1 != TestEntity2 && TestEntity2 != TestEntity3 && TestEntity1 != TestEntity3
    ensures RankedBy(TestParents(), TestRanks())
    ensures Lineage(TestParents(), TestRanks(), TestEntity1) == [TestEntity1]
    ensures Lineage(TestParents(), TestRanks(), TestEntity3) == [TestEntity1, TestEntity2, TestEntity3]
  {
  }

  /** A root-only class keeps an empty parent list and its field, and on a
      platform without a preference for identity columns its `auto` id
      generator falls back to `table`. */
  method GetMetadataForSingleClass() returns (cm1: ClassMetadata, result: Result<ClassMetadata>)
    ensures result == Success(cm1)
    ensures cm1.parentClasses == []
    ensures cm1.HasField("name")
    ensures cm1.idGeneratorType == Table
  {
    cm1 := new ClassMetadata(TestEntity1);
    cm1.MapField("name", "varchar");
    cm1.MapOneToOne("other", "Other", "this");
    cm1.SetIdGeneratorType(Auto);

    TestHierarchy();
    var cmf := new ClassMetadataFactoryTestSubject(TestParents(), TestRanks(), false);
    cmf.SetMetadataForClass(TestEntity1, cm1);
    assert cmf.Chain(TestEntity1) == [TestEntity1];

    ghost var raw := cm1.Snapshot();
    assert raw.parentClasses == [] && raw.inheritanceType == NoInheritance;
    assert raw.fieldMappings.Keys == {"name"} && |raw.associationMappings| == 1;
    assert raw.idGeneratorType == Auto;
    assert cmf.Snapshots([TestEntity1]) == [raw];

    result := cmf.GetMetadataFor(TestEntity1);
    assert FirstMissing([TestEntity1], cmf.Registered()) == 1;
    MergedMappings([TestEntity1], [raw], 0);
  }

  /** The resolution of the three-class chain, on values: the root declares
      `singleTable`, the field `name`, the single association `other` and an
      `auto` id generator; the two subclasses declare no associations. */
  lemma {:induction false} ClassInHierarchyResolution(raws: seq<Metadata>)
    requires |raws| == 3
    requires raws[0].inheritanceType == SingleTable && raws[0].idGeneratorType == Auto
    requires "name" in raws[0].fieldMappings
    requires raws[0].associationMappings.Keys == {"other"}
    requires raws[1].associationMappings.Keys == {} && raws[2].associationMappings.Keys == {}
    ensures var chain := [TestEntity1, TestEntity2, TestEntity3];
      && ResolvedAt(chain, raws, true, 2).parentClasses == [TestEntity2, TestEntity1]
      && (forall i :: 0 <= i < 3 ==> ResolvedAt(chain, raws, true, i).rootClassName == TestEntity1)
      && (forall i :: 0 <= i < 3 ==> ResolvedAt(chain, raws, true, i).inheritanceType == SingleTable)
      && (forall i :: 0 <= i < 3 ==> "name" in ResolvedAt(chain, raws, true, i).fieldMappings)
      && (forall i :: 0 <= i < 3 ==>
            ResolvedAt(chain, raws, true, i).associationMappings == raws[0].associationMappings)
      && (forall i :: 0 <= i < 3 ==> ResolvedAt(chain, raws, true, i).idGeneratorType == Identity)
  {
    var chain := [TestEntity1, TestEntity2, TestEntity3];
    MergedParentClasses(chain, raws, 2);
    forall i | 0 <= i < 3
      ensures ResolvedAt(chain, raws, true, i).rootClassName == TestEntity1
      ensures ResolvedAt(chain, raws, true, i).inheritanceType == SingleTable
      ensures "name" in ResolvedAt(chain, raws, true, i).fieldMappings
      ensures ResolvedAt(chain, raws, true, i).associationMappings == raws[0].associationMappings
    {
      MergedHierarchyWide(chain, raws, i);
      InheritedAssociationsNotDuplicated(chain, raws, i);
      MappingsVisibleBelowDeclaration(chain, raws, true, i, "name");
    }
  }

  /** The test's set-up: a factory on a platform that prefers identity
      columns, holding three fresh metadata objects of which only the root's
      declares anything. */
  method SetUpClassInHierarchy()
    returns (cmf: ClassMetadataFactoryTestSubject, cm1: ClassMetadata, cm2: ClassMetadata, cm3: ClassMetadata)
    ensures fresh(cmf) && fresh(cm1) && fresh(cm2) && fresh(cm3)
    ensures cmf.Valid() && cmf.prefersIdentityColumns
    ensures cmf.Chain(TestEntity3) == [TestEntity1, TestEntity2, TestEntity3]
    ensures cmf.mockMetadata == map[TestEntity1 := cm1, TestEntity2 := cm2, TestEntity3 := cm3]
    ensures cmf.requestedClasses == []
    ensures cm1.Snapshot() == Metadata(TestEntity1, [], TestEntity1, SingleTable,
      map["name" := FieldMapping("name", "varchar")], map["other" := OneToOne("other", "Other", "this")], Auto)
    ensures cm2.Snapshot() == Metadata(TestEntity2, [], TestEntity2, NoInheritance, map[], map[], NoGenerator)
    ensures cm3.Snapshot() == Metadata(TestEntity3, [], TestEntity3, NoInheritance, map[], map[], NoGenerator)
  {
    cm1 := new ClassMetadata(TestEntity1);
    cm1.SetInheritanceType(SingleTable);
    cm1.MapField("name", "varchar");
    cm1.MapOneToOne("other", "Other", "this");
    cm1.SetIdGeneratorType(Auto);
    cm2 := new ClassMetadata(TestEntity2);
    cm3 := new ClassMetadata(TestEntity3);

    TestHierarchy();
    cmf := new ClassMetadataFactoryTestSubject(TestParents(), TestRanks(), true);
    cmf.SetMetadataForClass(TestEntity1, cm1);
    cmf.SetMetadataForClass(TestEntity2, cm2);
    cmf.SetMetadataForClass(TestEntity3, cm3);
  }

  /** Resolving the deepest of three classes asks for all three root first,
      gives each its ancestors nearest first and the root as root class,
      and copies the root's inheritance type, field, association and
      resolved id generator to every class without duplicating anything. */
  method GetMetadataForClassInHierarchy()
    returns (requested: seq<string>, cm1: ClassMetadata, cm2: ClassMetadata, cm3: ClassMetadata,
             result: Result<ClassMetadata>)
    ensures result == Success(cm3)
    ensures requested == [TestEntity1, TestEntity2, TestEntity3]
    ensures cm3.parentClasses == [TestEntity2, TestEntity1]
    ensures cm1.rootClassName == TestEntity1 && cm2.rootClassName == TestEntity1 && cm3.rootClassName == TestEntity1
    ensures cm2.inheritanceType == SingleTable && cm3.inheritanceType == SingleTable
    ensures cm2.HasField("name") && cm3.HasField("name")
    ensures |cm2.associationMappings| == 1 && |cm3.associationMappings| == 1
    ensures cm2.HasAssociation("other") && cm3.HasAssociation("other")
    ensures cm1.idGeneratorType == Identity && cm2.idGeneratorType == Identity && cm3.idGeneratorType == Identity
  {
    var cmf;
    cmf, cm1, cm2, cm3 := SetUpClassInHierarchy();
    var chain := [TestEntity1, TestEntity2, TestEntity3];
    ghost var raws := [cm1.Snapshot(), cm2.Snapshot(), cm3.Snapshot()];
    assert cmf.Snapshots(chain) == raws;
    ClassInHierarchyResolution(raws);

    result := cmf.GetMetadataFor(TestEntity3);
    requested := cmf.GetRequestedClasses();
    assert FirstMissing(chain, cmf.Registered()) == 3;
    assert cm1.Snapshot() == ResolvedAt(chain, raws, true, 0);
    assert cm2.Snapshot() == ResolvedAt(chain, raws, true, 1);
    assert cm3.Snapshot() == ResolvedAt(chain, raws, true, 2);
  }

  /** Resolving a class whose root has no entry fails on the root, after
      asking for it and for nothing else, and leaves the registered metadata
      as it was. */
  method GetMetadataForUnmappedRoot()
    returns (requested: seq<string>, cm3: ClassMetadata, result: Result<ClassMetadata>)
    ensures result == Failure(MappingNotFound(TestEntity1))
    ensures requested == [TestEntity1]
    ensures cm3.Snapshot() == Metadata(TestEntity3, [], TestEntity3, NoInheritance, map[], map[], NoGenerator)
  {
    cm3 := new ClassMetadata(TestEntity3);
    TestHierarchy();
    var cmf := new ClassMetadataFactoryTestSubject(TestParents(), TestRanks(), false);
    cmf.SetMetadataForClass(TestEntity3, cm3);
    var chain := [TestEntity1, TestEntity2, TestEntity3];
    assert cmf.Chain(TestEntity3) == chain;
    assert FirstMissing(chain, cmf.Registered()) == 0;

    result := cmf.GetMetadataFor(TestEntity3);
    requested := cmf.GetRequestedClasses();
    assert chain[..1] == [TestEntity1];
  }

  /** Registering `null` for a class takes its entry away: the hook then
      logs the name and fails on it, as for a class never registered. */
  method LookupAfterNullRegistration() returns (requested: seq<string>, result: Result<ClassMetadata>)
    ensures result == Failure(MappingNotFound(TestEntity1))
    ensures requested == [TestEntity1]
  {
    var cm1 := new ClassMetadata(TestEntity1);
    TestHierarchy();
    var cmf := new ClassMetadataFactoryTestSubject(TestParents(), TestRanks(), false);
    cmf.SetMetadataForClass(TestEntity1, cm1);
    cmf.SetMetadataForClass(TestEntity1, null);
    result := cmf.NewClassMetadataInstance(TestEntity1);
    requested := cmf.GetRequestedClasses();
  }
}
