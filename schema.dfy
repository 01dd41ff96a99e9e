/**
 * Schema descriptors and schema rules shared by the schema cache
 * (org.neo4j.internal.recordstorage) and the legacy 3.5 schema storage
 * used by store migration.
 */
module Schema {

  /** The kinds of entity a schema can be defined on. */
  datatype EntityType = Node | Relationship

  /** Which entity tokens (labels or relationship types) and property keys a schema covers. */
  datatype SchemaDescriptor = SchemaDescriptor(
    entityType: EntityType,
    entityTokenIds: seq<int>,
    propertyKeyIds: seq<int>)

  /** An index rule: its id in the schema store, its name, its schema and its index configuration. */
  datatype IndexDescriptor = IndexDescriptor(
    id: int,
    name: string,
    schema: SchemaDescriptor,
    indexConfig: map<string, string>)

  /** The constraint kinds: UNIQUE, EXISTS and UNIQUE_EXISTS (node key). */
  datatype ConstraintType = Unique | Exists | UniqueExists

  datatype ConstraintDescriptor = ConstraintDescriptor(
    id: int,
    name: string,
    schema: SchemaDescriptor,
    constraintType: ConstraintType)
  {
    /** UNIQUE and UNIQUE_EXISTS constraints are backed by an index and enforce uniqueness. */
    predicate EnforcesUniqueness() {
      constraintType != Exists
    }
  }

  /** A schema rule is either an index or a constraint. */
  datatype SchemaRule = IndexRule(index: IndexDescriptor) | ConstraintRule(constraint: ConstraintDescriptor)
  {
    function Id(): int {
      match this
      case IndexRule(i) => i.id
      case ConstraintRule(c) => c.id
    }

    function Name(): string {
      match this
      case IndexRule(i) => i.name
      case ConstraintRule(c) => c.name
    }
  }
}
