# Doctrine ORM class-metadata resolution, modelled in Dafny

This project models how the ORM's metadata factory resolves the mapping
metadata of a class that sits in an inheritance hierarchy. The factory is
modelled as the test's `ClassMetadataFactoryTestSubject`: its hook for
obtaining a class's raw metadata is replaced by a table of pre-built
`ClassMetadata` objects. Every lookup appends the requested name to a log, and
a name with no entry fails.

Resolving a class proceeds as follows:

1. It walks up the class's `extends` chain to the top-most ancestor.
2. It asks the hook for every class of the chain, root first.
3. It completes the metadata objects in place, root first. Each class gets:
   - its parent list, nearest parent first;
   - the root's name as `rootClassName`;
   - the root's inheritance type;
   - its parent's field and association mappings, merged under its own;
   - the root's id generator, with `auto` resolved against the platform
     (`identity` when the platform prefers identity columns, `table`
     otherwise).

Files and modules:

- `mapping.dfy` (`Mapping`): the enumerations, the mapping records, the
  `Metadata` value of a record, and the `ClassMetadata` class whose fields the
  factory updates in place.
- `hierarchy.dfy` (`Hierarchy`): the `extends` relation as a map `parent`,
  kept acyclic by a rank that strictly decreases from child to parent.
  Reference definitions of a class's lineage (root first), its ancestors
  (nearest parent first) and its root, with lemmas relating them.
- `resolution.dfy` (`Resolution`): what one pass computes, as functions on
  `Metadata` values (`MergedAt`, `ResolvedAt`, `ResolveIdGenerator`), and the
  properties of those functions.
- `factory.dfy` (`Factory`): the test-subject factory as a class with the
  mock table, the request log, the parent map and the platform flag.
  `GetMetadataFor` is proved against `ResolvedAt` on the chain given by
  `Lineage`.
- `scenarios.dfy` (`Scenarios`): the two scenarios of the test, with the
  test's assertions as postconditions derived from the factory's contract.
  Two more scenarios cover the failure path: a root with no entry, and an
  entry taken away by registering `null`.

Two choices follow the test's assertions:

- The test asserts `[TestEntity2, TestEntity1]` as the parent classes of
  `TestEntity3`, which is nearest parent first; the model uses that order.
- The test expects the subclasses' `none` to be replaced by the root's
  `singleTable`, so the model always copies the root's inheritance type down
  and has no inheritance-type conflict error.

## Model

| member | source | states |
|---|---|---|
| `Mapping.ClassMetadata.constructor` | tests/Doctrine/Tests/ORM/Mapping/ClassMetadataFactoryTest.php:79-91 | a fresh record has no parent classes, inheritance type `none`, no fields, no associations and id generator `none` |
| `Mapping.ClassMetadata.MapField` | tests/Doctrine/Tests/ORM/Mapping/ClassMetadataFactoryTest.php:28-29 | adds exactly the named field mapping; nothing else in the record changes |
| `Mapping.ClassMetadata.MapOneToOne` | tests/Doctrine/Tests/ORM/Mapping/ClassMetadataFactoryTest.php:30-31 | adds exactly the named one-to-one association; nothing else changes |
| `Mapping.ClassMetadata.SetInheritanceType` | tests/Doctrine/Tests/ORM/Mapping/ClassMetadataFactoryTest.php:62 | sets the inheritance type only |
| `Mapping.ClassMetadata.SetIdGeneratorType` | tests/Doctrine/Tests/ORM/Mapping/ClassMetadataFactoryTest.php:32-33 | sets the id generator only |
| `Mapping.ClassMetadata.HasField` | tests/Doctrine/Tests/ORM/Mapping/ClassMetadataFactoryTest.php:42 | true exactly when the record's field mappings hold the name |
| `Mapping.ClassMetadata.HasAssociation` | tests/Doctrine/Tests/ORM/Mapping/ClassMetadataFactoryTest.php:112-113 | true exactly when the record's association mappings hold the name |
| `Hierarchy.LineageShape` | tests/Doctrine/Tests/ORM/Mapping/ClassMetadataFactoryTest.php:142-147 | the lineage of a class starts at its root and ends at the class; without the class and read backwards, it is the ancestor list |
| `Hierarchy.LineagePrefix` | tests/Doctrine/Tests/ORM/Mapping/ClassMetadataFactoryTest.php:99-102 | every class on a lineage has, as its own lineage, the prefix of that lineage ending at it |
| `Hierarchy.LineageDistinct` | tests/Doctrine/Tests/ORM/Mapping/ClassMetadataFactoryTest.php:96-97 | no class occurs twice on a lineage, so the request log asks for each class of the chain exactly once |
| `Resolution.ResolveIdGenerator` | tests/Doctrine/Tests/ORM/Mapping/ClassMetadataFactoryTest.php:51-52 | the result is never `auto`; a non-`auto` strategy is kept; `auto` becomes `identity` exactly when the platform prefers identity columns, and `table` exactly when it does not |
| `Resolution.LayeredLookup` | tests/Doctrine/Tests/ORM/Mapping/ClassMetadataFactoryTest.php:106-113 | a name is visible at a level iff some level up to it declares it; its entry is the one from the deepest declaring level |
| `Resolution.ResolveStep` | tests/Doctrine/Tests/ORM/Mapping/ClassMetadataFactoryTest.php:96-105 | each resolved class is its resolved parent inherited onto its own declarations, with the root's resolved id generator |
| `Resolution.MergedParentClasses` | tests/Doctrine/Tests/ORM/Mapping/ClassMetadataFactoryTest.php:98-99 | the i-th class of a chain has exactly i parent classes: the chain above it, nearest parent first |
| `Resolution.MergedHierarchyWide` | tests/Doctrine/Tests/ORM/Mapping/ClassMetadataFactoryTest.php:100-105 | every class of the chain has the root as root class and the root's inheritance type, and keeps its own class name |
| `Resolution.MergedMappings` | tests/Doctrine/Tests/ORM/Mapping/ClassMetadataFactoryTest.php:106-113 | the field and association mappings of a class are the chain's declarations down to it, deeper ones overriding shallower ones |
| `Resolution.ResolvedIdGeneratorUniform` | tests/Doctrine/Tests/ORM/Mapping/ClassMetadataFactoryTest.php:114-118 | every class of the chain gets the root's resolved id generator, which is never `auto` |
| `Resolution.MappingsVisibleBelowDeclaration` | tests/Doctrine/Tests/ORM/Mapping/ClassMetadataFactoryTest.php:106-113 | a field or association is present on a class iff the class or one of its ancestors in the chain declares it |
| `Resolution.InheritedAssociationsNotDuplicated` | tests/Doctrine/Tests/ORM/Mapping/ClassMetadataFactoryTest.php:109-111 | when only the root declares associations, every class ends with exactly the root's associations, so counts do not grow |
| `Resolution.ResolveIdempotent` | tests/Doctrine/Tests/ORM/Mapping/ClassMetadataFactoryTest.php:93-118 | with no cache, running the pass again over a resolved chain leaves every class's metadata exactly as it is |
| `Resolution.ResolvedLineage` | tests/Doctrine/Tests/ORM/Mapping/ClassMetadataFactoryTest.php:98-105 | resolving a class's lineage gives each class its own ancestor list (nearest parent first) as parent classes, the top-most ancestor as root, and the root's inheritance type |
| `Factory.ClassMetadataFactoryTestSubject.constructor` | tests/Doctrine/Tests/ORM/Mapping/ClassMetadataFactoryTest.php:73 | a new factory has an empty mock table and an empty request log, and keeps the hierarchy and the platform flag it is given |
| `Factory.ClassMetadataFactoryTestSubject.NewClassMetadataInstance` | tests/Doctrine/Tests/ORM/Mapping/ClassMetadataFactoryTest.php:127-133 | appends the name to the request log on every call, a failed one included; returns the table entry, or a not-found error for a name without one or with a `null` entry |
| `Factory.ClassMetadataFactoryTestSubject.SetMetadataForClass` | tests/Doctrine/Tests/ORM/Mapping/ClassMetadataFactoryTest.php:134-136 | inserts or overwrites exactly one table entry; registering `null` leaves the name without an entry for the hook |
| `Factory.ClassMetadataFactoryTestSubject.GetRequestedClasses` | tests/Doctrine/Tests/ORM/Mapping/ClassMetadataFactoryTest.php:137 | returns the request log |
| `Factory.ClassMetadataFactoryTestSubject.ParentChain` | tests/Doctrine/Tests/ORM/Mapping/ClassMetadataFactoryTest.php:142-147 | walking up the `extends` relation yields the class's lineage, root first |
| `Factory.ClassMetadataFactoryTestSubject.RequestChain` | tests/Doctrine/Tests/ORM/Mapping/ClassMetadataFactoryTest.php:94-97 | asks for every class of the chain root first and logs exactly the chain; on a missing entry, stops at the first one, logs the chain up to it, and fails naming it |
| `Factory.ClassMetadataFactoryTestSubject.InheritInto` | tests/Doctrine/Tests/ORM/Mapping/ClassMetadataFactoryTest.php:103-113 | one class takes over its resolved parent's hierarchy-wide data and mappings, in place |
| `Factory.ClassMetadataFactoryTestSubject.CompleteChain` | tests/Doctrine/Tests/ORM/Mapping/ClassMetadataFactoryTest.php:98-118 | after the in-place pass, every object of the chain holds exactly its resolved metadata |
| `Factory.ClassMetadataFactoryTestSubject.CompleteRegistered` | tests/Doctrine/Tests/ORM/Mapping/ClassMetadataFactoryTest.php:98-118 | given the objects the hook handed out for a chain, every registered object of the chain ends up holding its resolved metadata |
| `Factory.ClassMetadataFactoryTestSubject.GetMetadataFor` | tests/Doctrine/Tests/ORM/Mapping/ClassMetadataFactoryTest.php:93-118 | succeeds iff every class of the lineage has an entry. On success: the log grows by the lineage, root first; the requested class's own object is returned; every object of the chain holds its resolved metadata. On failure: the log grows by the lineage up to the first missing class, the error names that class, and no metadata changes |
| `Scenarios.TestHierarchy` | tests/Doctrine/Tests/ORM/Mapping/ClassMetadataFactoryTest.php:140-147 | the three test classes are distinct, TestEntity1 is a root, and TestEntity3's lineage is TestEntity1, TestEntity2, TestEntity3 |
| `Scenarios.GetMetadataForSingleClass` | tests/Doctrine/Tests/ORM/Mapping/ClassMetadataFactoryTest.php:22-53 | a root-only class resolves to itself with empty parent classes, keeps its field, and its `auto` id generator becomes `table` |
| `Scenarios.ClassInHierarchyResolution` | tests/Doctrine/Tests/ORM/Mapping/ClassMetadataFactoryTest.php:93-118 | on values: TestEntity3's parents are `[TestEntity2, TestEntity1]`; all three classes have root TestEntity1, `singleTable`, the field `name`, exactly the root's association and id generator `identity` |
| `Scenarios.SetUpClassInHierarchy` | tests/Doctrine/Tests/ORM/Mapping/ClassMetadataFactoryTest.php:55-91 | the test's set-up and pre-checks: only the root declares anything; both subclasses are still at `none` with no fields or associations |
| `Scenarios.GetMetadataForClassInHierarchy` | tests/Doctrine/Tests/ORM/Mapping/ClassMetadataFactoryTest.php:93-119 | the test's assertions on the objects after resolving TestEntity3: request log, parent classes, root class names, inheritance types, inherited field and association, counts of 1, and `identity` on all three |
| `Scenarios.GetMetadataForUnmappedRoot` | tests/Doctrine/Tests/ORM/Mapping/ClassMetadataFactoryTest.php:127-131 | resolving a class whose root has no entry fails naming the root; the log holds the root's name alone, and the registered object is untouched |
| `Scenarios.LookupAfterNullRegistration` | tests/Doctrine/Tests/ORM/Mapping/ClassMetadataFactoryTest.php:128-135 | after `null` is registered over an entry, the hook logs the name and fails on it |

## Left out

- The factory's own implementation file and `ClassMetadata`'s source are not part of this model. Resolution is modelled from what the test asserts. `ClassMetadata`'s defaults are those the test's pre-checks observe.
- `MetadataDriverMock` is not part of this model. The test subject is built with a driver (lines 36, 73), but its hook (lines 127-133) does not use it. The model assumes the driver adds nothing to a class's metadata, which the test's expected counts at lines 110-111 require. `DatabasePlatformMock` is not part of this model either; the platform is reduced to the `prefersIdentityColumns` flag.
- PHP reflection over class declarations is replaced by an explicit `parent` map. A ghost rank witnesses that it has no cycles, which PHP guarantees for `extends`.
- Caching of resolved metadata, repeated-request behaviour, `hasMetadataFor` and `reset`: the test never exercises them.
- An inheritance-type-conflict error and a field/association name-collision error: the test never triggers either. A subclass always takes the root's inheritance type.
- The exception thrown by the hook is modelled as the error `MappingNotFound` carrying the class name. As written, `new InvalidArgumentException(...)` at line 130 is unqualified inside namespace `Doctrine\Tests\ORM\Mapping`, with no `use` for it. It therefore names `Doctrine\Tests\ORM\Mapping\InvalidArgumentException`, which does not exist, so PHP would raise a class-not-found error instead. The model follows the evident intent: an error naming the requested class.
- Per-field override semantics: a name declared at two levels keeps the deeper level's whole entry. The test never declares a name twice.
- GetMetadataFor: requires that the classes of one chain are registered with pairwise distinct objects. The test registers a fresh object per class; one object shared by two classes of a chain is not modelled.
- GetMetadataFor: a failed lookup leaves every metadata object unchanged, because in the model all lookups come before any object is changed. That ordering is the model's choice; the test asserts nothing about objects after a failure.
- ClassMetadata.constructor: sets `rootClassName` to the class's own name. The test never reads it before resolution, and resolution always overwrites it.
- Table names, inheritance options and every other `ClassMetadata` attribute the test does not read.
