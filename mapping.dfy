/** The per-class mapping record of the ORM: one ClassMetadata object per
    mapped class, filled in by the test (or a driver) with the class's own
    declarations and later completed in place by the metadata factory. */
module Mapping {

  /** The inheritance strategy of a hierarchy ('none', 'singleTable', ...). */
  datatype InheritanceType = NoInheritance | SingleTable | Joined | TablePerClass

  /** The identifier generation strategy; `Auto` is the placeholder that the
      factory resolves against the database platform. */
  datatype IdGeneratorType = NoGenerator | Auto | Identity | Sequence | Table

  datatype FieldMapping = FieldMapping(fieldName: string, typeName: string)

  datatype AssociationMapping =
    OneToOne(fieldName: string, targetEntity: string, mappedBy: string)

  /** The value of a ClassMetadata object at one moment. */
  datatype Metadata = Metadata(
    className: string,
    parentClasses: seq<string>,
    rootClassName: string,
    inheritanceType: InheritanceType,
    fieldMappings: map<string, FieldMapping>,
    associationMappings: map<string, AssociationMapping>,
    idGeneratorType: IdGeneratorType)

  class ClassMetadata {
    const className: string
    var parentClasses: seq<string>
    var rootClassName: string
    var inheritanceType: InheritanceType
    var fieldMappings: map<string, FieldMapping>
    var associationMappings: map<string, AssociationMapping>
    var idGeneratorType: IdGeneratorType

    function Snapshot(): Metadata
      reads this
    {
      Metadata(className, parentClasses, rootClassName, inheritanceType,
               fieldMappings, associationMappings, idGeneratorType)
    }

    predicate HasField(fieldName: string): (b: bool)
      reads this
      ensures b <==> fieldName in Snapshot().fieldMappings
    {
      fieldName in fieldMappings
    }

    predicate HasAssociation(fieldName: string): (b: bool)
      reads this
      ensures b <==> fieldName in Snapshot().associationMappings
    {
      fieldName in associationMappings
    }

    /** A fresh record knows only its own name: no parents, no inheritance,
        no mappings and no id generator. */
    constructor (className: string)
      ensures Snapshot() == Metadata(className, [], className, NoInheritance, map[], map[], NoGenerator)
    {
      this.className := className;
      parentClasses := [];
      rootClassName := className;
      inheritanceType := NoInheritance;
      fieldMappings := map[];
      associationMappings := map[];
      idGeneratorType := NoGenerator;
    }

    method MapField(fieldName: string, typeName: string)
      modifies this
      ensures Snapshot() == old(Snapshot()).(fieldMappings := old(fieldMappings)[fieldName := FieldMapping(fieldName, typeName)])
    {
      fieldMappings := fieldMappings[fieldName := FieldMapping(fieldName, typeName)];
    }

    method MapOneToOne(fieldName: string, targetEntity: string, mappedBy: string)
      modifies this
      ensures Snapshot() == old(Snapshot()).(associationMappings :=
        old(associationMappings)[fieldName := OneToOne(fieldName, targetEntity, mappedBy)])
    {
      associationMappings := associationMappings[fieldName := OneToOne(fieldName, targetEntity, mappedBy)];
    }

    method SetInheritanceType(t: InheritanceType)
      modifies this
      ensures Snapshot() == old(Snapshot()).(inheritanceType := t)
    {
      inheritanceType := t;
    }

    method SetIdGeneratorType(g: IdGeneratorType)
      modifies this
      ensures Snapshot() == old(Snapshot()).(idGeneratorType := g)
    {
      idGeneratorType := g;
    }
  }
}
