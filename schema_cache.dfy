/**
 * The schema cache of the record storage engine.
 *
 * A SchemaCacheState keeps every index rule in four places (by id, by schema,
 * by name and in the lookup set of its schema's entity type) and every
 * constraint rule by id, by name and, when it enforces uniqueness, in the
 * uniqueness set of its entity type. The SchemaCache publishes one state at
 * a time: every update builds a fresh copy, updates the copy and swaps it in,
 * so a snapshot keeps the contents it was taken with.
 *
 * `CacheContents` is the value of a state's nine collections; `AddRule`,
 * `RemoveRule`, `CopyOf` and `LoadRules` specify what the imperative methods
 * do to it, and the lemmas below state what those updates mean.
 */
module RecordStorage {
  import opened Wrappers
  import opened Schema

  /** The nine collections of a SchemaCacheState; the lookup sets are sets of their descriptors. */
  datatype CacheContents = CacheContents(
    indexesById: map<int, IndexDescriptor>,
    constraintsById: map<int, ConstraintDescriptor>,
    indexesBySchema: map<SchemaDescriptor, IndexDescriptor>,
    indexesByNode: set<IndexDescriptor>,
    indexesByRelationship: set<IndexDescriptor>,
    uniquenessConstraintsByNode: set<ConstraintDescriptor>,
    uniquenessConstraintsByRelationship: set<ConstraintDescriptor>,
    indexesByName: map<string, IndexDescriptor>,
    constrainsByName: map<string, ConstraintDescriptor>)

  function Empty(): (r: CacheContents)
    ensures r.indexesById == map[] && r.constraintsById == map[]
  {
    CacheContents(map[], map[], map[], {}, {}, {}, {}, map[], map[])
  }

  // ---------------------------------------------------------------------------
  // The entity-type lookup sets (selectIndexSetByEntityType and
  // selectUniquenessConstraintSetByEntityType)
  // ---------------------------------------------------------------------------

  function IndexSet(t: CacheContents, entityType: EntityType): set<IndexDescriptor> {
    match entityType
    case Node => t.indexesByNode
    case Relationship => t.indexesByRelationship
  }

  function WithIndexSet(t: CacheContents, entityType: EntityType, s: set<IndexDescriptor>): (r: CacheContents)
    ensures IndexSet(r, entityType) == s
    ensures forall e :: e != entityType ==> IndexSet(r, e) == IndexSet(t, e)
    ensures r.indexesById == t.indexesById && r.constraintsById == t.constraintsById
    ensures r.indexesBySchema == t.indexesBySchema && r.indexesByName == t.indexesByName
    ensures r.constrainsByName == t.constrainsByName
    ensures r.uniquenessConstraintsByNode == t.uniquenessConstraintsByNode
    ensures r.uniquenessConstraintsByRelationship == t.uniquenessConstraintsByRelationship
  {
    match entityType
    case Node => t.(indexesByNode := s)
    case Relationship => t.(indexesByRelationship := s)
  }

  function UniquenessSet(t: CacheContents, entityType: EntityType): set<ConstraintDescriptor> {
    match entityType
    case Node => t.uniquenessConstraintsByNode
    case Relationship => t.uniquenessConstraintsByRelationship
  }

  function WithUniquenessSet(t: CacheContents, entityType: EntityType, s: set<ConstraintDescriptor>): (r: CacheContents)
    ensures UniquenessSet(r, entityType) == s
    ensures forall e :: e != entityType ==> UniquenessSet(r, e) == UniquenessSet(t, e)
    ensures r.indexesById == t.indexesById && r.constraintsById == t.constraintsById
    ensures r.indexesBySchema == t.indexesBySchema && r.indexesByName == t.indexesByName
    ensures r.constrainsByName == t.constrainsByName
    ensures r.indexesByNode == t.indexesByNode && r.indexesByRelationship == t.indexesByRelationship
  {
    match entityType
    case Node => t.(uniquenessConstraintsByNode := s)
    case Relationship => t.(uniquenessConstraintsByRelationship := s)
  }

  /** The values of `m` that `keep` selects (forEachValue with a filter). */
  function ValuesWhere<V>(m: map<int, V>, keep: V -> bool): set<V> {
    set id | id in m && keep(m[id]) :: m[id]
  }

  /** Every value of `m` (what forEachValue visits). */
  function ValuesOf<V>(m: map<int, V>): set<V> {
    set id | id in m :: m[id]
  }

  /** The indexes of one entity type. */
  function OfEntityType(entityType: EntityType): IndexDescriptor -> bool {
    (i: IndexDescriptor) => i.schema.entityType == entityType
  }

  /** The constraints of one entity type that enforce uniqueness. */
  function UniqueOfEntityType(entityType: EntityType): ConstraintDescriptor -> bool {
    (c: ConstraintDescriptor) => c.EnforcesUniqueness() && c.schema.entityType == entityType
  }

  /** The lookup set the copy constructor rebuilds for one entity type from the indexes by id. */
  function IndexSetOf(indexesById: map<int, IndexDescriptor>, entityType: EntityType): set<IndexDescriptor> {
    ValuesWhere(indexesById, OfEntityType(entityType))
  }

  /** The uniqueness set the copy constructor rebuilds for one entity type from the constraints by id. */
  function UniquenessSetOf(constraintsById: map<int, ConstraintDescriptor>, entityType: EntityType)
    : set<ConstraintDescriptor>
  {
    ValuesWhere(constraintsById, UniqueOfEntityType(entityType))
  }

  // ---------------------------------------------------------------------------
  // Updates
  // ---------------------------------------------------------------------------

  /** cacheUniquenessConstraint: only a constraint that enforces uniqueness joins its entity type's set. */
  function CachedUniqueness(t: CacheContents, constraint: ConstraintDescriptor): CacheContents {
    if constraint.EnforcesUniqueness() then
      var e := constraint.schema.entityType;
      WithUniquenessSet(t, e, UniquenessSet(t, e) + {constraint})
    else t
  }

  /** The constraint branch of addSchemaRule, given the constraint as the constraint semantics read it. */
  function AddConstraint(t: CacheContents, c: ConstraintDescriptor): CacheContents {
    CachedUniqueness(t.(constraintsById := t.constraintsById[c.id := c],
                        constrainsByName := t.constrainsByName[c.name := c]), c)
  }

  /** The index branch of addSchemaRule, given the completed index and the name of the rule as given. */
  function AddIndex(t: CacheContents, i: IndexDescriptor, ruleName: string): CacheContents {
    var e := i.schema.entityType;
    var t1 := t.(indexesById := t.indexesById[i.id := i],
                 indexesBySchema := t.indexesBySchema[i.schema := i],
                 indexesByName := t.indexesByName[ruleName := i]);
    WithIndexSet(t1, e, IndexSet(t1, e) + {i})
  }

  /**
   * addSchemaRule. `readConstraint` is the constraint semantics' view of a stored
   * constraint and `completeConfiguration` the index configuration completer. The
   * completed index is filed under the name of the rule as given.
   */
  function AddRule(t: CacheContents, rule: SchemaRule,
                   readConstraint: ConstraintDescriptor -> ConstraintDescriptor,
                   completeConfiguration: IndexDescriptor -> IndexDescriptor): CacheContents
  {
    match rule
    case ConstraintRule(stored) => AddConstraint(t, readConstraint(stored))
    case IndexRule(given) => AddIndex(t, completeConfiguration(given), rule.Name())
  }

  /** Map.remove(key, value): the entry goes only if the key still maps to that value. */
  function RemoveIfMapsTo<K, V(==)>(m: map<K, V>, key: K, value: V): (r: map<K, V>)
    ensures key in m && m[key] == value ==> r == m - {key}
    ensures !(key in m && m[key] == value) ==> r == m
  {
    if key in m && m[key] == value then m - {key} else m
  }

  /** The constraint branch of removeSchemaRule: `c` is the constraint cached under `id`. */
  function RemoveConstraint(t: CacheContents, id: int, c: ConstraintDescriptor): CacheContents {
    var t1 := t.(constraintsById := t.constraintsById - {id}, constrainsByName := t.constrainsByName - {c.name});
    if c.EnforcesUniqueness() then
      var e := c.schema.entityType;
      WithUniquenessSet(t1, e, UniquenessSet(t1, e) - {c})
    else t1
  }

  /** The index branch of removeSchemaRule: `i` is the index cached under `id`. */
  function RemoveIndex(t: CacheContents, id: int, i: IndexDescriptor): CacheContents {
    var e := i.schema.entityType;
    var t1 := t.(indexesById := t.indexesById - {id},
                 indexesBySchema := t.indexesBySchema - {i.schema},
                 indexesByName := RemoveIfMapsTo(t.indexesByName, i.name, i));
    WithIndexSet(t1, e, IndexSet(t1, e) - {i})
  }

  /**
   * removeSchemaRule. Constraint ids are looked up first; an id in neither id map
   * changes nothing.
   */
  function RemoveRule(t: CacheContents, id: int): CacheContents {
    if id in t.constraintsById then RemoveConstraint(t, id, t.constraintsById[id])
    else if id in t.indexesById then RemoveIndex(t, id, t.indexesById[id])
    else t
  }

  /** The copy constructor: id, schema and name maps copied, lookup sets rebuilt from the id maps. */
  function CopyOf(t: CacheContents): CacheContents {
    t.(indexesByNode := IndexSetOf(t.indexesById, Node),
       indexesByRelationship := IndexSetOf(t.indexesById, Relationship),
       uniquenessConstraintsByNode := UniquenessSetOf(t.constraintsById, Node),
       uniquenessConstraintsByRelationship := UniquenessSetOf(t.constraintsById, Relationship))
  }

  /** load: every rule added in iteration order. */
  function LoadRules(t: CacheContents, rules: seq<SchemaRule>,
                     readConstraint: ConstraintDescriptor -> ConstraintDescriptor,
                     completeConfiguration: IndexDescriptor -> IndexDescriptor): CacheContents
    decreases |rules|
  {
    if rules == [] then t
    else AddRule(LoadRules(t, rules[..|rules| - 1], readConstraint, completeConfiguration),
                 rules[|rules| - 1], readConstraint, completeConfiguration)
  }

  // ---------------------------------------------------------------------------
  // Invariants
  // ---------------------------------------------------------------------------

  /**
   * What every update keeps, whatever rules are added: the id maps are keyed by
   * id and the schema map by schema; every cached index is in the lookup set of
   * its entity type and every uniqueness constraint in its uniqueness set; and
   * the lookup sets hold nothing of another entity type (the uniqueness sets
   * nothing that does not enforce uniqueness).
   */
  ghost predicate Wellformed(t: CacheContents) {
    Keyed(t) && Covered(t) && Typed(t)
  }

  ghost predicate Keyed(t: CacheContents) {
    (forall id :: id in t.indexesById ==> t.indexesById[id].id == id) &&
    (forall id :: id in t.constraintsById ==> t.constraintsById[id].id == id) &&
    (forall s :: s in t.indexesBySchema ==> t.indexesBySchema[s].schema == s)
  }

  ghost predicate Covered(t: CacheContents) {
    (forall id :: id in t.indexesById ==>
       t.indexesById[id] in IndexSet(t, t.indexesById[id].schema.entityType)) &&
    (forall id :: id in t.constraintsById && t.constraintsById[id].EnforcesUniqueness() ==>
       t.constraintsById[id] in UniquenessSet(t, t.constraintsById[id].schema.entityType))
  }

  ghost predicate Typed(t: CacheContents) {
    (forall i :: i in t.indexesByNode ==> i.schema.entityType == Node) &&
    (forall i :: i in t.indexesByRelationship ==> i.schema.entityType == Relationship) &&
    (forall c :: c in t.uniquenessConstraintsByNode ==> c.schema.entityType == Node && c.EnforcesUniqueness()) &&
    (forall c :: c in t.uniquenessConstraintsByRelationship ==>
       c.schema.entityType == Relationship && c.EnforcesUniqueness())
  }

  /**
   * The four places of an index (and the three of a constraint) agree: the lookup
   * sets hold exactly the cached rules of their entity type, every schema and
   * name entry is a cached rule filed under its own schema or name, every cached
   * rule is filed under its schema and name, and no id is both an index and a
   * constraint.
   */
  ghost predicate Consistent(t: CacheContents) {
    Wellformed(t) && SetsMatchIds(t) && EntriesCached(t) && Filed(t) && IdsDisjoint(t)
  }

  /** Every cached index is filed under its schema and its name, and every cached constraint under its name. */
  ghost predicate Filed(t: CacheContents) {
    (forall id :: id in t.indexesById ==>
       var i := t.indexesById[id];
       i.schema in t.indexesBySchema && t.indexesBySchema[i.schema] == i &&
       i.name in t.indexesByName && t.indexesByName[i.name] == i) &&
    (forall id :: id in t.constraintsById ==>
       var c := t.constraintsById[id]; c.name in t.constrainsByName && t.constrainsByName[c.name] == c)
  }

  /** The lookup and uniqueness sets hold exactly the cached rules of their entity type. */
  ghost predicate SetsMatchIds(t: CacheContents) {
    (forall e :: IndexSet(t, e) == IndexSetOf(t.indexesById, e)) &&
    (forall e :: UniquenessSet(t, e) == UniquenessSetOf(t.constraintsById, e))
  }

  /** Every schema and name entry is a cached rule, filed under its own name. */
  ghost predicate EntriesCached(t: CacheContents) {
    (forall s :: s in t.indexesBySchema ==>
       var i := t.indexesBySchema[s]; i.id in t.indexesById && t.indexesById[i.id] == i) &&
    (forall n :: n in t.indexesByName ==>
       var i := t.indexesByName[n]; i.name == n && i.id in t.indexesById && t.indexesById[i.id] == i) &&
    (forall n :: n in t.constrainsByName ==>
       var c := t.constrainsByName[n]; c.name == n && c.id in t.constraintsById && t.constraintsById[c.id] == c)
  }

  /** No id is both an index and a constraint. */
  ghost predicate IdsDisjoint(t: CacheContents) {
    forall id :: id in t.indexesById ==> id !in t.constraintsById
  }

  lemma EmptyIsConsistent()
    ensures Consistent(Empty())
  {
    forall e ensures IndexSet(Empty(), e) == IndexSetOf(map[], e) && UniquenessSet(Empty(), e) == UniquenessSetOf(map[], e) {
    }
  }

  lemma AddConstraintPreservesWellformed(t: CacheContents, c: ConstraintDescriptor)
    requires Wellformed(t)
    ensures Wellformed(AddConstraint(t, c))
  {
    var r := AddConstraint(t, c);
    AddConstraintFilesIt(t, c);
    assert Keyed(r);
    assert Typed(r);
    forall id | id in r.constraintsById && r.constraintsById[id].EnforcesUniqueness()
      ensures r.constraintsById[id] in UniquenessSet(r, r.constraintsById[id].schema.entityType)
    {
    }
    assert Covered(r);
  }

  lemma AddIndexPreservesWellformed(t: CacheContents, i: IndexDescriptor, ruleName: string)
    requires Wellformed(t)
    ensures Wellformed(AddIndex(t, i, ruleName))
  {
    var r := AddIndex(t, i, ruleName);
    var e := i.schema.entityType;
    assert r.constraintsById == t.constraintsById;
    assert r.uniquenessConstraintsByNode == t.uniquenessConstraintsByNode;
    assert r.uniquenessConstraintsByRelationship == t.uniquenessConstraintsByRelationship;
    assert IndexSet(r, e) == IndexSet(t, e) + {i};
    assert Keyed(r);
    assert Typed(r);
    forall id | id in r.indexesById
      ensures r.indexesById[id] in IndexSet(r, r.indexesById[id].schema.entityType)
    {
      if id != i.id {
        var x := t.indexesById[id];
        assert x in IndexSet(t, x.schema.entityType);
        if x.schema.entityType != e {
          assert IndexSet(r, x.schema.entityType) == IndexSet(t, x.schema.entityType);
        }
      }
    }
    assert Covered(r);
  }

  lemma AddPreservesWellformed(t: CacheContents, rule: SchemaRule,
                               readConstraint: ConstraintDescriptor -> ConstraintDescriptor,
                               completeConfiguration: IndexDescriptor -> IndexDescriptor)
    requires Wellformed(t)
    ensures Wellformed(AddRule(t, rule, readConstraint, completeConfiguration))
  {
    match rule {
      case ConstraintRule(stored) => AddConstraintPreservesWellformed(t, readConstraint(stored));
      case IndexRule(given) => AddIndexPreservesWellformed(t, completeConfiguration(given), rule.Name());
    }
  }

  lemma RemoveConstraintPreservesWellformed(t: CacheContents, id: int)
    requires Wellformed(t) && id in t.constraintsById
    ensures Wellformed(RemoveConstraint(t, id, t.constraintsById[id]))
  {
    var c := t.constraintsById[id];
    var r := RemoveConstraint(t, id, c);
    assert r.constraintsById == t.constraintsById - {id};
    assert r.indexesById == t.indexesById && r.indexesBySchema == t.indexesBySchema;
    assert r.indexesByNode == t.indexesByNode && r.indexesByRelationship == t.indexesByRelationship;
    forall e ensures UniquenessSet(r, e) >= UniquenessSet(t, e) - {c} && UniquenessSet(r, e) <= UniquenessSet(t, e) {
    }
    assert Keyed(r);
    assert Covered(r);
  }

  lemma RemoveIndexPreservesWellformed(t: CacheContents, id: int)
    requires Wellformed(t) && id in t.indexesById
    ensures Wellformed(RemoveIndex(t, id, t.indexesById[id]))
  {
    var i := t.indexesById[id];
    var r := RemoveIndex(t, id, i);
    assert Keyed(r);
    assert Covered(r);
  }

  lemma RemovePreservesWellformed(t: CacheContents, id: int)
    requires Wellformed(t)
    ensures Wellformed(RemoveRule(t, id))
  {
    if id in t.constraintsById {
      RemoveConstraintPreservesWellformed(t, id);
    } else if id in t.indexesById {
      RemoveIndexPreservesWellformed(t, id);
    }
  }

  lemma {:induction false} LoadPreservesWellformed(t: CacheContents, rules: seq<SchemaRule>,
                                                   readConstraint: ConstraintDescriptor -> ConstraintDescriptor,
                                                   completeConfiguration: IndexDescriptor -> IndexDescriptor)
    requires Wellformed(t)
    ensures Wellformed(LoadRules(t, rules, readConstraint, completeConfiguration))
    decreases |rules|
  {
    if rules != [] {
      LoadPreservesWellformed(t, rules[..|rules| - 1], readConstraint, completeConfiguration);
      AddPreservesWellformed(LoadRules(t, rules[..|rules| - 1], readConstraint, completeConfiguration),
                             rules[|rules| - 1], readConstraint, completeConfiguration);
    }
  }

  /** The copy constructor's rebuilt lookup sets hold exactly the cached rules of their entity type. */
  lemma CopyOfIsWellformed(t: CacheContents)
    requires Wellformed(t)
    ensures Wellformed(CopyOf(t))
    ensures forall e :: IndexSet(CopyOf(t), e) == IndexSetOf(t.indexesById, e)
    ensures forall e :: UniquenessSet(CopyOf(t), e) == UniquenessSetOf(t.constraintsById, e)
  {
  }

  /** Copying a consistent state changes nothing. */
  lemma CopyOfConsistentIsIdentity(t: CacheContents)
    requires Consistent(t)
    ensures CopyOf(t) == t
  {
    assert IndexSet(t, Node) == IndexSetOf(t.indexesById, Node);
    assert IndexSet(t, Relationship) == IndexSetOf(t.indexesById, Relationship);
    assert UniquenessSet(t, Node) == UniquenessSetOf(t.constraintsById, Node);
    assert UniquenessSet(t, Relationship) == UniquenessSetOf(t.constraintsById, Relationship);
  }

  // ---------------------------------------------------------------------------
  // What one update does to each collection
  // ---------------------------------------------------------------------------

  /**
   * Adding a constraint rule files the constraint, as the constraint semantics
   * read it, by id and by name, and in the uniqueness set of its entity type
   * only when it enforces uniqueness; the index collections are untouched.
   */
  lemma AddConstraintFilesIt(t: CacheContents, c: ConstraintDescriptor)
    ensures var r := AddConstraint(t, c);
            && r.constraintsById == t.constraintsById[c.id := c]
            && r.constrainsByName == t.constrainsByName[c.name := c]
            && (forall e :: UniquenessSet(r, e) ==
                  if c.EnforcesUniqueness() && e == c.schema.entityType then UniquenessSet(t, e) + {c}
                  else UniquenessSet(t, e))
            && r.indexesById == t.indexesById && r.indexesBySchema == t.indexesBySchema
            && r.indexesByName == t.indexesByName
            && (forall e :: IndexSet(r, e) == IndexSet(t, e))
  {
  }

  /**
   * Adding an index rule files the completed index in all four places: by id,
   * by schema, by the rule's name and in the lookup set of its entity type; the
   * constraint collections are untouched.
   */
  lemma AddIndexFilesIt(t: CacheContents, given: IndexDescriptor,
                        readConstraint: ConstraintDescriptor -> ConstraintDescriptor,
                        completeConfiguration: IndexDescriptor -> IndexDescriptor)
    ensures var r := AddRule(t, IndexRule(given), readConstraint, completeConfiguration);
            var i := completeConfiguration(given);
            && r.indexesById == t.indexesById[i.id := i]
            && r.indexesBySchema == t.indexesBySchema[i.schema := i]
            && r.indexesByName == t.indexesByName[given.name := i]
            && (forall e :: IndexSet(r, e) ==
                  if e == i.schema.entityType then IndexSet(t, e) + {i} else IndexSet(t, e))
            && r.constraintsById == t.constraintsById && r.constrainsByName == t.constrainsByName
            && (forall e :: UniquenessSet(r, e) == UniquenessSet(t, e))
  {
  }

  /**
   * Removing a constraint id drops the constraint from the id and name maps and,
   * when it enforces uniqueness, from its uniqueness set. Constraint ids are
   * looked up first, so the index collections are untouched.
   */
  lemma RemoveConstraintDropsIt(t: CacheContents, id: int)
    requires id in t.constraintsById
    ensures var r := RemoveRule(t, id);
            var c := t.constraintsById[id];
            && r.constraintsById == t.constraintsById - {id}
            && r.constrainsByName == t.constrainsByName - {c.name}
            && (forall e :: UniquenessSet(r, e) ==
                  if c.EnforcesUniqueness() && e == c.schema.entityType then UniquenessSet(t, e) - {c}
                  else UniquenessSet(t, e))
            && r.indexesById == t.indexesById && r.indexesBySchema == t.indexesBySchema
            && r.indexesByName == t.indexesByName
            && (forall e :: IndexSet(r, e) == IndexSet(t, e))
  {
  }

  /**
   * Removing an index id drops the index by id, by schema and from its lookup
   * set; its name goes only while the name still maps to that same index.
   */
  lemma RemoveIndexDropsIt(t: CacheContents, id: int)
    requires id in t.indexesById && id !in t.constraintsById
    ensures var r := RemoveRule(t, id);
            var i := t.indexesById[id];
            && r.indexesById == t.indexesById - {id}
            && r.indexesBySchema == t.indexesBySchema - {i.schema}
            && (i.name in t.indexesByName && t.indexesByName[i.name] == i ==>
                  r.indexesByName == t.indexesByName - {i.name})
            && (!(i.name in t.indexesByName && t.indexesByName[i.name] == i) ==>
                  r.indexesByName == t.indexesByName)
            && (forall e :: IndexSet(r, e) ==
                  if e == i.schema.entityType then IndexSet(t, e) - {i} else IndexSet(t, e))
            && r.constraintsById == t.constraintsById && r.constrainsByName == t.constrainsByName
            && (forall e :: UniquenessSet(r, e) == UniquenessSet(t, e))
  {
  }

  /** Removing an id that is neither a constraint nor an index changes nothing. */
  lemma RemoveAbsentChangesNothing(t: CacheContents, id: int)
    requires id !in t.constraintsById && id !in t.indexesById
    ensures RemoveRule(t, id) == t
  {
  }


  // ---------------------------------------------------------------------------
  // Consistency of the four places
  // ---------------------------------------------------------------------------

  /** A value put under an absent key joins the selected values when it is selected. */
  lemma {:induction false} ValuesWhereFreshUpdate<V>(m: map<int, V>, keep: V -> bool, key: int, value: V)
    requires key !in m
    ensures ValuesWhere(m[key := value], keep) == ValuesWhere(m, keep) + (if keep(value) then {value} else {})
  {
    var r := m[key := value];
    forall x | x in ValuesWhere(m, keep) ensures x in ValuesWhere(r, keep) {
      var k :| k in m && keep(m[k]) && m[k] == x;
      assert k in r && r[k] == x;
    }
    assert key in r && r[key] == value;
  }

  /** Of the values of `m`, exactly those `keep` accepts are selected. */
  lemma ValuesWhereWithin<V>(m: map<int, V>, keep: V -> bool)
    ensures ValuesWhere(m, keep) <= ValuesOf(m)
    ensures forall x :: x in ValuesOf(m) ==> (x in ValuesWhere(m, keep) <==> keep(x))
  {
    forall x | x in ValuesOf(m) && keep(x) ensures x in ValuesWhere(m, keep) {
      var k :| k in m && m[k] == x;
      assert keep(m[k]);
    }
  }

  /** Only values `keep` accepts are selected. */
  lemma ValuesWhereSelects<V>(m: map<int, V>, keep: V -> bool, x: V)
    ensures x in ValuesWhere(m, keep) ==> keep(x)
  {
  }

  /** In a map keyed by each value's own id, removing a key removes exactly its value. */
  lemma ValuesWhereKeyedRemoval<V>(m: map<int, V>, keep: V -> bool, idOf: V -> int, key: int)
    requires key in m
    requires forall k :: k in m ==> idOf(m[k]) == k
    ensures ValuesWhere(m - {key}, keep) == ValuesWhere(m, keep) - {m[key]}
  {
    var r := m - {key};
    forall x | x in ValuesWhere(m, keep) && x != m[key] ensures x in ValuesWhere(r, keep) {
      var k :| k in m && keep(m[k]) && m[k] == x;
      assert k != key && k in r && r[k] == x;
    }
    forall x | x in ValuesWhere(r, keep) ensures x != m[key] {
      var k :| k in r && keep(r[k]) && r[k] == x;
      assert idOf(x) == k;
    }
  }

  lemma RemoveConstraintPreservesConsistent(t: CacheContents, id: int)
    requires Consistent(t) && id in t.constraintsById
    ensures Consistent(RemoveRule(t, id))
  {
    var c := t.constraintsById[id];
    var r := RemoveRule(t, id);
    RemoveConstraintPreservesWellformed(t, id);
    RemoveConstraintDropsIt(t, id);
    forall e ensures UniquenessSet(r, e) == UniquenessSetOf(r.constraintsById, e) {
      ValuesWhereKeyedRemoval(t.constraintsById, UniqueOfEntityType(e), (x: ConstraintDescriptor) => x.id, id);
      assert UniquenessSet(t, e) == UniquenessSetOf(t.constraintsById, e);
      if !UniqueOfEntityType(e)(c) {
        ValuesWhereSelects(t.constraintsById, UniqueOfEntityType(e), c);
      }
    }
    forall e ensures IndexSet(r, e) == IndexSetOf(r.indexesById, e) {
      assert IndexSet(t, e) == IndexSetOf(t.indexesById, e);
    }
    assert EntriesCached(r);
    RemoveConstraintKeepsFiled(t, id);
  }

  /** A filed constraint owns its name, so dropping that name unfiles no other constraint. */
  lemma RemoveConstraintKeepsFiled(t: CacheContents, id: int)
    requires Keyed(t) && Filed(t) && id in t.constraintsById
    ensures Filed(RemoveRule(t, id))
  {
    var c := t.constraintsById[id];
    var r := RemoveRule(t, id);
    RemoveConstraintDropsIt(t, id);
    forall k | k in r.constraintsById
      ensures var d := r.constraintsById[k]; d.name in r.constrainsByName && r.constrainsByName[d.name] == d
    {
      var d := t.constraintsById[k];
      assert d.id == k && c.id == id && k != id;
      assert d.name != c.name;
    }
  }

  /** A filed index owns its schema and name, so dropping them unfiles no other index. */
  lemma RemoveIndexKeepsFiled(t: CacheContents, id: int)
    requires Keyed(t) && Filed(t) && id in t.indexesById && id !in t.constraintsById
    ensures Filed(RemoveRule(t, id))
  {
    var i := t.indexesById[id];
    var r := RemoveRule(t, id);
    RemoveIndexDropsIt(t, id);
    assert r.indexesByName == t.indexesByName - {i.name};
    forall k | k in r.indexesById
      ensures var j := r.indexesById[k];
              j.schema in r.indexesBySchema && r.indexesBySchema[j.schema] == j &&
              j.name in r.indexesByName && r.indexesByName[j.name] == j
    {
      var j := t.indexesById[k];
      assert j.id == k && i.id == id && k != id;
      assert j.schema != i.schema && j.name != i.name;
    }
  }

  lemma RemoveIndexKeepsSetsMatchingIds(t: CacheContents, id: int)
    requires Keyed(t) && SetsMatchIds(t) && id in t.indexesById && id !in t.constraintsById
    ensures SetsMatchIds(RemoveRule(t, id))
  {
    var i := t.indexesById[id];
    var r := RemoveRule(t, id);
    assert r == RemoveIndex(t, id, i);
    assert r.indexesById == t.indexesById - {id} && r.constraintsById == t.constraintsById;
    forall e ensures IndexSet(r, e) == IndexSetOf(r.indexesById, e) {
      ValuesWhereKeyedRemoval(t.indexesById, OfEntityType(e), (x: IndexDescriptor) => x.id, id);
      assert IndexSet(t, e) == IndexSetOf(t.indexesById, e);
      if OfEntityType(e)(i) {
        assert IndexSet(r, e) == IndexSet(t, e) - {i};
      } else {
        ValuesWhereSelects(t.indexesById, OfEntityType(e), i);
        assert IndexSet(r, e) == IndexSet(t, e);
      }
    }
    forall e ensures UniquenessSet(r, e) == UniquenessSetOf(r.constraintsById, e) {
      assert UniquenessSet(r, e) == UniquenessSet(t, e);
    }
  }

  lemma RemoveIndexKeepsEntriesCached(t: CacheContents, id: int)
    requires Keyed(t) && EntriesCached(t) && id in t.indexesById && id !in t.constraintsById
    ensures EntriesCached(RemoveRule(t, id))
  {
    var i := t.indexesById[id];
    var r := RemoveRule(t, id);
    assert r == RemoveIndex(t, id, i);
    assert r.indexesById == t.indexesById - {id};
    assert r.indexesBySchema == t.indexesBySchema - {i.schema};
    assert r.indexesByName == RemoveIfMapsTo(t.indexesByName, i.name, i);
    assert r.constraintsById == t.constraintsById && r.constrainsByName == t.constrainsByName;
    forall s | s in r.indexesBySchema
      ensures var x := r.indexesBySchema[s]; x.id in r.indexesById && r.indexesById[x.id] == x
    {
      var x := t.indexesBySchema[s];
      assert x.schema == s && s != i.schema;
    }
    forall n | n in r.indexesByName
      ensures var x := r.indexesByName[n]; x.name == n && x.id in r.indexesById && r.indexesById[x.id] == x
    {
      var x := t.indexesByName[n];
      assert x.id == id ==> x == i;
    }
  }

  lemma RemoveIndexPreservesConsistent(t: CacheContents, id: int)
    requires Consistent(t) && id in t.indexesById && id !in t.constraintsById
    ensures Consistent(RemoveRule(t, id))
  {
    RemoveIndexPreservesWellformed(t, id);
    RemoveIndexKeepsSetsMatchingIds(t, id);
    RemoveIndexKeepsEntriesCached(t, id);
    RemoveIndexKeepsFiled(t, id);
    assert RemoveRule(t, id).indexesById == t.indexesById - {id};
    assert RemoveRule(t, id).constraintsById == t.constraintsById;
  }

  /** Removing any id keeps the four places in agreement. */
  lemma RemovePreservesConsistent(t: CacheContents, id: int)
    requires Consistent(t)
    ensures Consistent(RemoveRule(t, id))
  {
    if id in t.constraintsById {
      RemoveConstraintPreservesConsistent(t, id);
    } else if id in t.indexesById {
      RemoveIndexPreservesConsistent(t, id);
    }
  }

  lemma AddConstraintKeepsSetsMatchingIds(t: CacheContents, c: ConstraintDescriptor)
    requires Wellformed(t) && SetsMatchIds(t)
    requires c.id !in t.constraintsById
    ensures SetsMatchIds(AddConstraint(t, c))
  {
    var r := AddConstraint(t, c);
    assert r.constraintsById == t.constraintsById[c.id := c];
    forall e ensures UniquenessSet(r, e) == UniquenessSetOf(r.constraintsById, e) {
      ValuesWhereFreshUpdate(t.constraintsById, UniqueOfEntityType(e), c.id, c);
      assert UniquenessSetOf(r.constraintsById, e) ==
             UniquenessSetOf(t.constraintsById, e) + (if UniqueOfEntityType(e)(c) then {c} else {});
      assert UniquenessSet(t, e) == UniquenessSetOf(t.constraintsById, e);
      if UniqueOfEntityType(e)(c) {
        assert UniquenessSet(r, e) == UniquenessSet(t, e) + {c};
      } else {
        assert UniquenessSet(r, e) == UniquenessSet(t, e);
      }
    }
    assert r.indexesById == t.indexesById;
    forall e ensures IndexSet(r, e) == IndexSetOf(r.indexesById, e) {
      assert IndexSet(r, e) == IndexSet(t, e);
    }
  }

  lemma AddConstraintKeepsEntriesCached(t: CacheContents, c: ConstraintDescriptor)
    requires Keyed(t) && EntriesCached(t) && c.id !in t.constraintsById
    ensures EntriesCached(AddConstraint(t, c))
  {
    var r := AddConstraint(t, c);
    AddConstraintFilesIt(t, c);
    forall n | n in r.constrainsByName
      ensures var x := r.constrainsByName[n]; x.name == n && x.id in r.constraintsById && r.constraintsById[x.id] == x
    {
      if n != c.name {
        assert t.constrainsByName[n].id in t.constraintsById;
      }
    }
  }

  /** A constraint under a fresh id and a fresh name is filed, and unfiles no other. */
  lemma AddConstraintKeepsFiled(t: CacheContents, c: ConstraintDescriptor)
    requires Filed(t) && c.id !in t.constraintsById && c.name !in t.constrainsByName
    ensures Filed(AddConstraint(t, c))
  {
    var r := AddConstraint(t, c);
    AddConstraintFilesIt(t, c);
    forall k | k in r.constraintsById
      ensures var d := r.constraintsById[k]; d.name in r.constrainsByName && r.constrainsByName[d.name] == d
    {
      if k != c.id {
        assert t.constraintsById[k].name in t.constrainsByName;
      }
    }
  }

  /**
   * Adding a constraint under an id and a name not yet cached keeps the four
   * places in agreement.
   */
  lemma AddConstraintPreservesConsistent(t: CacheContents, c: ConstraintDescriptor)
    requires Consistent(t)
    requires c.id !in t.constraintsById && c.id !in t.indexesById && c.name !in t.constrainsByName
    ensures Consistent(AddConstraint(t, c))
  {
    AddConstraintPreservesWellformed(t, c);
    AddConstraintKeepsSetsMatchingIds(t, c);
    AddConstraintKeepsEntriesCached(t, c);
    AddConstraintKeepsFiled(t, c);
    AddConstraintFilesIt(t, c);
  }

  lemma AddIndexKeepsSetsMatchingIds(t: CacheContents, i: IndexDescriptor)
    requires Wellformed(t) && SetsMatchIds(t)
    requires i.id !in t.indexesById
    ensures SetsMatchIds(AddIndex(t, i, i.name))
  {
    var r := AddIndex(t, i, i.name);
    assert r.indexesById == t.indexesById[i.id := i];
    forall e ensures IndexSet(r, e) == IndexSetOf(r.indexesById, e) {
      ValuesWhereFreshUpdate(t.indexesById, OfEntityType(e), i.id, i);
      assert IndexSet(t, e) == IndexSetOf(t.indexesById, e);
      if OfEntityType(e)(i) {
        assert IndexSet(r, e) == IndexSet(t, e) + {i};
      } else {
        assert IndexSet(r, e) == IndexSet(t, e);
      }
    }
    assert r.constraintsById == t.constraintsById;
    forall e ensures UniquenessSet(r, e) == UniquenessSetOf(r.constraintsById, e) {
      assert UniquenessSet(r, e) == UniquenessSet(t, e);
    }
  }

  lemma AddIndexKeepsEntriesCached(t: CacheContents, i: IndexDescriptor)
    requires Keyed(t) && EntriesCached(t) && i.id !in t.indexesById
    ensures EntriesCached(AddIndex(t, i, i.name))
  {
    var r := AddIndex(t, i, i.name);
    assert r.indexesById == t.indexesById[i.id := i];
    assert r.indexesBySchema == t.indexesBySchema[i.schema := i];
    assert r.indexesByName == t.indexesByName[i.name := i];
    assert r.constraintsById == t.constraintsById && r.constrainsByName == t.constrainsByName;
    forall s | s in r.indexesBySchema
      ensures var x := r.indexesBySchema[s]; x.id in r.indexesById && r.indexesById[x.id] == x
    {
      if s != i.schema {
        assert t.indexesBySchema[s].id in t.indexesById;
      }
    }
    forall n | n in r.indexesByName
      ensures var x := r.indexesByName[n]; x.name == n && x.id in r.indexesById && r.indexesById[x.id] == x
    {
      if n != i.name {
        assert t.indexesByName[n].id in t.indexesById;
      }
    }
  }

  /** An index under a fresh id, schema and name is filed, and unfiles no other. */
  lemma AddIndexKeepsFiled(t: CacheContents, i: IndexDescriptor)
    requires Filed(t) && i.id !in t.indexesById
    requires i.schema !in t.indexesBySchema && i.name !in t.indexesByName
    ensures Filed(AddIndex(t, i, i.name))
  {
    var r := AddIndex(t, i, i.name);
    assert r.indexesById == t.indexesById[i.id := i];
    assert r.indexesBySchema == t.indexesBySchema[i.schema := i];
    assert r.indexesByName == t.indexesByName[i.name := i];
    assert r.constraintsById == t.constraintsById && r.constrainsByName == t.constrainsByName;
    forall k | k in r.indexesById
      ensures var j := r.indexesById[k];
              j.schema in r.indexesBySchema && r.indexesBySchema[j.schema] == j &&
              j.name in r.indexesByName && r.indexesByName[j.name] == j
    {
      if k != i.id {
        var j := t.indexesById[k];
        assert j.schema in t.indexesBySchema && j.name in t.indexesByName;
      }
    }
  }

  /**
   * Adding an index under an id, schema and name not yet cached, filed under its
   * own name, keeps the four places in agreement.
   */
  lemma AddIndexPreservesConsistent(t: CacheContents, i: IndexDescriptor)
    requires Consistent(t)
    requires i.id !in t.indexesById && i.id !in t.constraintsById
    requires i.schema !in t.indexesBySchema && i.name !in t.indexesByName
    ensures Consistent(AddIndex(t, i, i.name))
  {
    AddIndexPreservesWellformed(t, i, i.name);
    AddIndexKeepsSetsMatchingIds(t, i);
    AddIndexKeepsEntriesCached(t, i);
    AddIndexKeepsFiled(t, i);
    assert AddIndex(t, i, i.name).indexesById == t.indexesById[i.id := i];
    assert AddIndex(t, i, i.name).constraintsById == t.constraintsById;
  }

  /** The completer changes only an index's configuration: its id, name and schema stay. */
  ghost predicate KeepsIdentity(completeConfiguration: IndexDescriptor -> IndexDescriptor) {
    forall i :: completeConfiguration(i).id == i.id && completeConfiguration(i).name == i.name &&
                completeConfiguration(i).schema == i.schema
  }

  /**
   * Adding a rule under a fresh id, and a schema and name not yet filed, keeps the
   * four places in agreement, provided the constraint semantics keep the
   * constraint's id and name and the completer keeps the index's identity.
   */
  lemma AddPreservesConsistent(t: CacheContents, rule: SchemaRule,
                               readConstraint: ConstraintDescriptor -> ConstraintDescriptor,
                               completeConfiguration: IndexDescriptor -> IndexDescriptor)
    requires Consistent(t)
    requires rule.Id() !in t.constraintsById && rule.Id() !in t.indexesById
    requires rule.ConstraintRule? ==> readConstraint(rule.constraint).id == rule.Id()
    requires rule.ConstraintRule? ==> readConstraint(rule.constraint).name !in t.constrainsByName
    requires rule.IndexRule? ==> rule.index.schema !in t.indexesBySchema && rule.index.name !in t.indexesByName
    requires KeepsIdentity(completeConfiguration)
    ensures Consistent(AddRule(t, rule, readConstraint, completeConfiguration))
  {
    match rule {
      case ConstraintRule(stored) => AddConstraintPreservesConsistent(t, readConstraint(stored));
      case IndexRule(given) => AddIndexPreservesConsistent(t, completeConfiguration(given));
    }
  }

  /**
   * Adding an index under a new id but a schema or name already filed overwrites
   * that entry, so the index filed there before is no longer filed.
   */
  lemma ReusedSchemaOrNameUnfiles(t: CacheContents, i: IndexDescriptor)
    requires Keyed(t) && EntriesCached(t) && i.id !in t.indexesById
    requires i.schema in t.indexesBySchema || i.name in t.indexesByName
    ensures !Filed(AddIndex(t, i, i.name))
  {
    var r := AddIndex(t, i, i.name);
    assert r.indexesById == t.indexesById[i.id := i];
    assert r.indexesBySchema == t.indexesBySchema[i.schema := i];
    assert r.indexesByName == t.indexesByName[i.name := i];
    if i.schema in t.indexesBySchema {
      var j := t.indexesBySchema[i.schema];
      assert j.schema == i.schema && j.id in t.indexesById && t.indexesById[j.id] == j;
      assert r.indexesById[j.id] == j && r.indexesBySchema[j.schema] != j;
    } else {
      var j := t.indexesByName[i.name];
      assert j.name == i.name && j.id in t.indexesById && t.indexesById[j.id] == j;
      assert r.indexesById[j.id] == j && r.indexesByName[j.name] != j;
    }
  }

  /**
   * Adding a constraint under a new id but a name already filed overwrites that
   * entry, so the constraint filed there before is no longer filed.
   */
  lemma ReusedConstraintNameUnfiles(t: CacheContents, c: ConstraintDescriptor)
    requires EntriesCached(t) && c.id !in t.constraintsById && c.name in t.constrainsByName
    ensures !Filed(AddConstraint(t, c))
  {
    var r := AddConstraint(t, c);
    AddConstraintFilesIt(t, c);
    var d := t.constrainsByName[c.name];
    assert d.id in t.constraintsById && d.id != c.id;
    assert r.constraintsById[d.id] == d;
  }

  /** A rule whose id is not cached is in none of the lookup sets of a consistent state. */
  lemma FreshRuleInNoSet(t: CacheContents, i: IndexDescriptor, c: ConstraintDescriptor)
    requires Wellformed(t) && SetsMatchIds(t)
    ensures i.id !in t.indexesById ==> forall e :: i !in IndexSet(t, e)
    ensures c.id !in t.constraintsById ==> forall e :: c !in UniquenessSet(t, e)
  {
    forall e ensures i.id !in t.indexesById ==> i !in IndexSet(t, e) {
      assert IndexSet(t, e) == IndexSetOf(t.indexesById, e);
    }
    forall e ensures c.id !in t.constraintsById ==> c !in UniquenessSet(t, e) {
      assert UniquenessSet(t, e) == UniquenessSetOf(t.constraintsById, e);
    }
  }

  lemma AddThenRemoveUniqueConstraintRestores(t: CacheContents, c: ConstraintDescriptor)
    requires c.id !in t.constraintsById && c.name !in t.constrainsByName
    requires c.EnforcesUniqueness() && c !in UniquenessSet(t, c.schema.entityType)
    ensures RemoveConstraint(AddConstraint(t, c), c.id, c) == t
  {
    var e := c.schema.entityType;
    var a := AddConstraint(t, c);
    var r := RemoveConstraint(a, c.id, c);
    assert r.constraintsById == t.constraintsById;
    assert r.constrainsByName == t.constrainsByName;
    assert UniquenessSet(r, e) == UniquenessSet(t, e);
    assert UniquenessSet(r, Node) == UniquenessSet(t, Node);
    assert UniquenessSet(r, Relationship) == UniquenessSet(t, Relationship);
  }

  lemma AddThenRemovePlainConstraintRestores(t: CacheContents, c: ConstraintDescriptor)
    requires c.id !in t.constraintsById && c.name !in t.constrainsByName
    requires !c.EnforcesUniqueness()
    ensures RemoveConstraint(AddConstraint(t, c), c.id, c) == t
  {
    var r := RemoveConstraint(AddConstraint(t, c), c.id, c);
    assert r.constraintsById == t.constraintsById;
    assert r.constrainsByName == t.constrainsByName;
  }

  lemma AddThenRemoveConstraintRestores(t: CacheContents, c: ConstraintDescriptor)
    requires c.id !in t.constraintsById && c.name !in t.constrainsByName
    requires c !in UniquenessSet(t, c.schema.entityType)
    ensures RemoveRule(AddConstraint(t, c), c.id) == t
  {
    var a := AddConstraint(t, c);
    assert a.constraintsById == t.constraintsById[c.id := c];
    assert RemoveRule(a, c.id) == RemoveConstraint(a, c.id, c);
    if c.EnforcesUniqueness() {
      AddThenRemoveUniqueConstraintRestores(t, c);
    } else {
      AddThenRemovePlainConstraintRestores(t, c);
    }
  }

  /**
   * Adding a constraint under a fresh id and a fresh name and then removing that
   * id gives back the state it started from.
   */
  lemma AddThenRemoveConstraint(t: CacheContents, c: ConstraintDescriptor)
    requires Consistent(t)
    requires c.id !in t.constraintsById && c.id !in t.indexesById && c.name !in t.constrainsByName
    ensures RemoveRule(AddConstraint(t, c), c.id) == t
  {
    FreshRuleInNoSet(t, IndexDescriptor(0, [], c.schema, map[]), c);
    AddThenRemoveConstraintRestores(t, c);
  }

  lemma AddThenRemoveIndexRestores(t: CacheContents, i: IndexDescriptor)
    requires i.id !in t.indexesById && i.id !in t.constraintsById
    requires i.schema !in t.indexesBySchema && i.name !in t.indexesByName
    requires i !in IndexSet(t, i.schema.entityType)
    ensures RemoveRule(AddIndex(t, i, i.name), i.id) == t
  {
    var a := AddIndex(t, i, i.name);
    assert a.indexesById == t.indexesById[i.id := i];
    assert a.indexesBySchema == t.indexesBySchema[i.schema := i];
    assert a.indexesByName == t.indexesByName[i.name := i];
    assert a.constraintsById == t.constraintsById;
    var r := RemoveIndex(a, i.id, i);
    assert RemoveRule(a, i.id) == r;
    assert r.indexesById == t.indexesById;
    assert r.indexesBySchema == t.indexesBySchema;
    assert r.indexesByName == t.indexesByName;
  }

  /**
   * Adding an index under a fresh id, schema and name and then removing that id
   * gives back the state it started from.
   */
  lemma AddThenRemoveIndex(t: CacheContents, i: IndexDescriptor)
    requires Consistent(t)
    requires i.id !in t.indexesById && i.id !in t.constraintsById
    requires i.schema !in t.indexesBySchema && i.name !in t.indexesByName
    ensures RemoveRule(AddIndex(t, i, i.name), i.id) == t
  {
    FreshRuleInNoSet(t, i, ConstraintDescriptor(0, [], i.schema, Exists));
    AddThenRemoveIndexRestores(t, i);
  }

  // ---------------------------------------------------------------------------
  // Lookup-set matching (SchemaDescriptorLookupSet) and getSchemaRelatedTo
  // ---------------------------------------------------------------------------

  /** The schema covers at least one of `tokens`. */
  predicate HasAnyToken(schema: SchemaDescriptor, tokens: seq<int>) {
    exists t :: t in tokens && t in schema.entityTokenIds
  }

  /** The schema has at least one of `properties`. */
  predicate HasAnyProperty(schema: SchemaDescriptor, properties: seq<int>) {
    exists p :: p in properties && p in schema.propertyKeyIds
  }

  /** Every property of the schema is among `properties`. */
  predicate HasAllProperties(schema: SchemaDescriptor, properties: seq<int>) {
    forall p :: p in schema.propertyKeyIds ==> p in properties
  }

  /** matchingDescriptors: the descriptors for any of the given entity tokens. */
  function MatchingDescriptors<T>(s: set<T>, schemaOf: T -> SchemaDescriptor, tokens: seq<int>): set<T> {
    set d | d in s && HasAnyToken(schemaOf(d), tokens)
  }

  /** matchingDescriptorsForCompleteListOfProperties: for the tokens, and all of whose properties are listed. */
  function MatchingForCompleteListOfProperties<T>(s: set<T>, schemaOf: T -> SchemaDescriptor,
                                                  tokens: seq<int>, properties: seq<int>): set<T> {
    set d | d in s && HasAnyToken(schemaOf(d), tokens) && HasAllProperties(schemaOf(d), properties)
  }

  /** matchingDescriptorsForPartialListOfProperties: for the tokens, and with any listed property. */
  function MatchingForPartialListOfProperties<T>(s: set<T>, schemaOf: T -> SchemaDescriptor,
                                                 tokens: seq<int>, properties: seq<int>): set<T> {
    set d | d in s && HasAnyToken(schemaOf(d), tokens) && HasAnyProperty(schemaOf(d), properties)
  }

  /**
   * Whether a change to an entity may affect a schema: with the complete property
   * list, the schema is for a changed token and has no property outside the list;
   * otherwise it is for a changed token, or, when properties changed, for an
   * unchanged token and one of the changed properties.
   */
  predicate Related(schema: SchemaDescriptor, changedEntityTokens: seq<int>, unchangedEntityTokens: seq<int>,
                    properties: seq<int>, propertyListIsComplete: bool) {
    if propertyListIsComplete then
      HasAnyToken(schema, changedEntityTokens) && HasAllProperties(schema, properties)
    else
      HasAnyToken(schema, changedEntityTokens) ||
      (|properties| > 0 && HasAnyToken(schema, unchangedEntityTokens) && HasAnyProperty(schema, properties))
  }

  /**
   * getSchemaRelatedTo: the descriptors of a lookup set that a change to an
   * entity may affect. With the complete property list the match is exact;
   * otherwise every descriptor of a changed token is included, and when only
   * properties changed, those of an unchanged token with a changed property.
   */
  function GetSchemaRelatedTo<T>(s: set<T>, schemaOf: T -> SchemaDescriptor,
                                 changedEntityTokens: seq<int>, unchangedEntityTokens: seq<int>,
                                 properties: seq<int>, propertyListIsComplete: bool): (r: set<T>)
    ensures r <= s
    ensures s == {} ==> r == {}
    ensures forall d :: d in s ==>
      (d in r <==> Related(schemaOf(d), changedEntityTokens, unchangedEntityTokens, properties, propertyListIsComplete))
    // Complete list: exactly what has a changed token and no property outside the list.
    ensures propertyListIsComplete ==> forall d :: d in s ==>
      (d in r <==> HasAnyToken(schemaOf(d), changedEntityTokens) && HasAllProperties(schemaOf(d), properties))
    // Partial list: everything for a changed token is related.
    ensures !propertyListIsComplete ==> forall d :: d in s && HasAnyToken(schemaOf(d), changedEntityTokens) ==> d in r
    // Only tokens changed: nothing else is related.
    ensures !propertyListIsComplete && |properties| == 0 ==> forall d :: d in r ==>
      HasAnyToken(schemaOf(d), changedEntityTokens)
    // Properties changed: what is related besides has an unchanged token and a changed property.
    ensures !propertyListIsComplete && |properties| > 0 ==> forall d :: d in s ==>
      (d in r <==> HasAnyToken(schemaOf(d), changedEntityTokens) ||
                   (HasAnyToken(schemaOf(d), unchangedEntityTokens) && HasAnyProperty(schemaOf(d), properties)))
  {
    if s == {} then {}
    else if propertyListIsComplete then
      MatchingForCompleteListOfProperties(s, schemaOf, changedEntityTokens, properties)
    else if |properties| == 0 then
      MatchingDescriptors(s, schemaOf, changedEntityTokens)
    else if |changedEntityTokens| == 0 then
      MatchingForPartialListOfProperties(s, schemaOf, unchangedEntityTokens, properties)
    else
      MatchingDescriptors(s, schemaOf, changedEntityTokens) +
      MatchingForPartialListOfProperties(s, schemaOf, unchangedEntityTokens, properties)
  }

  /** has(tokens, propertyKey): some descriptor for one of the tokens has the property. */
  predicate HasTokensAndProperty<T>(s: set<T>, schemaOf: T -> SchemaDescriptor, tokens: seq<int>, propertyKey: int) {
    exists d :: d in s && HasAnyToken(schemaOf(d), tokens) && propertyKey in schemaOf(d).propertyKeyIds
  }

  /** has(token): some descriptor is for the token. */
  predicate HasToken<T>(s: set<T>, schemaOf: T -> SchemaDescriptor, token: int) {
    exists d :: d in s && token in schemaOf(d).entityTokenIds
  }

  function IndexSchema(i: IndexDescriptor): SchemaDescriptor {
    i.schema
  }

  function ConstraintSchema(c: ConstraintDescriptor): SchemaDescriptor {
    c.schema
  }

  // ---------------------------------------------------------------------------
  // SchemaCacheState
  // ---------------------------------------------------------------------------

  /**
   * One published state of the cache. Every collection is a field that the
   * update methods reassign; `Contents` is their value. The dependant state
   * maps a type's name to the object its factory produced.
   */
  class SchemaCacheState {
    const readConstraint: ConstraintDescriptor -> ConstraintDescriptor
    const completeConfiguration: IndexDescriptor -> IndexDescriptor
    var indexesById: map<int, IndexDescriptor>
    var constraintsById: map<int, ConstraintDescriptor>
    var indexesBySchema: map<SchemaDescriptor, IndexDescriptor>
    var indexesByNode: set<IndexDescriptor>
    var indexesByRelationship: set<IndexDescriptor>
    var uniquenessConstraintsByNode: set<ConstraintDescriptor>
    var uniquenessConstraintsByRelationship: set<ConstraintDescriptor>
    var indexesByName: map<string, IndexDescriptor>
    var constrainsByName: map<string, ConstraintDescriptor>
    var dependantState: map<string, int>

    function Contents(): CacheContents
      reads this
    {
      CacheContents(indexesById, constraintsById, indexesBySchema, indexesByNode, indexesByRelationship,
                    uniquenessConstraintsByNode, uniquenessConstraintsByRelationship, indexesByName, constrainsByName)
    }

    /** A state loaded from `rules`, added in iteration order to an empty state. */
    constructor (readConstraint: ConstraintDescriptor -> ConstraintDescriptor,
                 completeConfiguration: IndexDescriptor -> IndexDescriptor,
                 rules: seq<SchemaRule>)
      ensures this.readConstraint == readConstraint && this.completeConfiguration == completeConfiguration
      ensures Contents() == LoadRules(Empty(), rules, readConstraint, completeConfiguration)
      ensures Wellformed(Contents())
      ensures dependantState == map[]
    {
      this.readConstraint := readConstraint;
      this.completeConfiguration := completeConfiguration;
      indexesById, constraintsById, indexesBySchema := map[], map[], map[];
      indexesByNode, indexesByRelationship := {}, {};
      uniquenessConstraintsByNode, uniquenessConstraintsByRelationship := {}, {};
      indexesByName, constrainsByName := map[], map[];
      dependantState := map[];
      new;
      Load(rules);
      LoadPreservesWellformed(Empty(), rules, readConstraint, completeConfiguration);
    }

    /**
     * The copy taken before every update: the id, schema and name maps are
     * copied, the lookup and uniqueness sets refilled from the id maps, and the
     * dependant state starts empty.
     */
    constructor Copy(other: SchemaCacheState)
      ensures readConstraint == other.readConstraint && completeConfiguration == other.completeConfiguration
      ensures Contents() == CopyOf(other.Contents())
      ensures dependantState == map[]
    {
      readConstraint := other.readConstraint;
      completeConfiguration := other.completeConfiguration;
      indexesById := other.indexesById;
      constraintsById := other.constraintsById;
      indexesBySchema := other.indexesBySchema;
      indexesByNode, indexesByRelationship := {}, {};
      uniquenessConstraintsByNode, uniquenessConstraintsByRelationship := {}, {};
      indexesByName := other.indexesByName;
      constrainsByName := other.constrainsByName;
      dependantState := map[];
      new;
      RefillIndexSets();
      RefillUniquenessSets();
    }

    /** indexesById.forEachValue: every index joins the lookup set of its entity type. */
    method RefillIndexSets()
      requires indexesByNode == {} && indexesByRelationship == {}
      modifies this`indexesByNode, this`indexesByRelationship
      ensures indexesByNode == IndexSetOf(indexesById, Node)
      ensures indexesByRelationship == IndexSetOf(indexesById, Relationship)
    {
      ValuesWhereWithin(indexesById, OfEntityType(Node));
      ValuesWhereWithin(indexesById, OfEntityType(Relationship));
      var pending := ValuesOf(indexesById);
      while pending != {}
        invariant pending <= ValuesOf(indexesById)
        invariant indexesByNode == IndexSetOf(indexesById, Node) - pending
        invariant indexesByRelationship == IndexSetOf(indexesById, Relationship) - pending
        decreases pending
      {
        var index :| index in pending;
        AddToIndexSet(index.schema.entityType, index);
        pending := pending - {index};
      }
    }

    /** constraintsById.forEachValue(cacheUniquenessConstraint). */
    method RefillUniquenessSets()
      requires uniquenessConstraintsByNode == {} && uniquenessConstraintsByRelationship == {}
      modifies this`uniquenessConstraintsByNode, this`uniquenessConstraintsByRelationship
      ensures uniquenessConstraintsByNode == UniquenessSetOf(constraintsById, Node)
      ensures uniquenessConstraintsByRelationship == UniquenessSetOf(constraintsById, Relationship)
    {
      ValuesWhereWithin(constraintsById, UniqueOfEntityType(Node));
      ValuesWhereWithin(constraintsById, UniqueOfEntityType(Relationship));
      var pending := ValuesOf(constraintsById);
      while pending != {}
        invariant pending <= ValuesOf(constraintsById)
        invariant uniquenessConstraintsByNode == UniquenessSetOf(constraintsById, Node) - pending
        invariant uniquenessConstraintsByRelationship == UniquenessSetOf(constraintsById, Relationship) - pending
        decreases pending
      {
        var constraint :| constraint in pending;
        CacheUniquenessConstraint(constraint);
        pending := pending - {constraint};
      }
    }

    /** load: addSchemaRule for every rule, in order. */
    method Load(rules: seq<SchemaRule>)
      modifies this
      ensures Contents() == LoadRules(old(Contents()), rules, readConstraint, completeConfiguration)
      ensures dependantState == old(dependantState)
    {
      for k := 0 to |rules|
        invariant Contents() == LoadRules(old(Contents()), rules[..k], readConstraint, completeConfiguration)
        invariant dependantState == old(dependantState)
      {
        assert rules[..k + 1][..k] == rules[..k];
        AddSchemaRule(rules[k]);
      }
      assert rules[..|rules|] == rules;
    }

    /** selectIndexSetByEntityType(entityType).add(index) */
    method AddToIndexSet(entityType: EntityType, index: IndexDescriptor)
      modifies this`indexesByNode, this`indexesByRelationship
      ensures Contents() == WithIndexSet(old(Contents()), entityType, IndexSet(old(Contents()), entityType) + {index})
    {
      match entityType {
        case Node => indexesByNode := indexesByNode + {index};
        case Relationship => indexesByRelationship := indexesByRelationship + {index};
      }
    }

    /** selectIndexSetByEntityType(entityType).remove(index) */
    method RemoveFromIndexSet(entityType: EntityType, index: IndexDescriptor)
      modifies this`indexesByNode, this`indexesByRelationship
      ensures Contents() == WithIndexSet(old(Contents()), entityType, IndexSet(old(Contents()), entityType) - {index})
    {
      match entityType {
        case Node => indexesByNode := indexesByNode - {index};
        case Relationship => indexesByRelationship := indexesByRelationship - {index};
      }
    }

    /** selectUniquenessConstraintSetByEntityType(entityType).remove(constraint) */
    method RemoveFromUniquenessSet(entityType: EntityType, constraint: ConstraintDescriptor)
      modifies this`uniquenessConstraintsByNode, this`uniquenessConstraintsByRelationship
      ensures Contents() ==
        WithUniquenessSet(old(Contents()), entityType, UniquenessSet(old(Contents()), entityType) - {constraint})
    {
      match entityType {
        case Node => uniquenessConstraintsByNode := uniquenessConstraintsByNode - {constraint};
        case Relationship =>
          uniquenessConstraintsByRelationship := uniquenessConstraintsByRelationship - {constraint};
      }
    }

    /** cacheUniquenessConstraint */
    method CacheUniquenessConstraint(constraint: ConstraintDescriptor)
      modifies this`uniquenessConstraintsByNode, this`uniquenessConstraintsByRelationship
      ensures Contents() == CachedUniqueness(old(Contents()), constraint)
    {
      if constraint.EnforcesUniqueness() {
        match constraint.schema.entityType {
          case Node => uniquenessConstraintsByNode := uniquenessConstraintsByNode + {constraint};
          case Relationship =>
            uniquenessConstraintsByRelationship := uniquenessConstraintsByRelationship + {constraint};
        }
      }
    }

    method AddSchemaRule(rule: SchemaRule)
      modifies this
      ensures Contents() == AddRule(old(Contents()), rule, readConstraint, completeConfiguration)
      ensures dependantState == old(dependantState)
    {
      match rule {
        case ConstraintRule(stored) =>
          var constraint := readConstraint(stored);
          constraintsById := constraintsById[constraint.id := constraint];
          constrainsByName := constrainsByName[constraint.name := constraint];
          CacheUniquenessConstraint(constraint);
        case IndexRule(given) =>
          var index := completeConfiguration(given);
          indexesById := indexesById[index.id := index];
          var schemaDescriptor := index.schema;
          indexesBySchema := indexesBySchema[schemaDescriptor := index];
          indexesByName := indexesByName[rule.Name() := index];
          AddToIndexSet(schemaDescriptor.entityType, index);
      }
    }

    method RemoveSchemaRule(id: int)
      modifies this
      ensures Contents() == RemoveRule(old(Contents()), id)
      ensures dependantState == old(dependantState)
    {
      if id in constraintsById {
        var constraint := constraintsById[id];
        constraintsById := constraintsById - {id};
        constrainsByName := constrainsByName - {constraint.name};
        if constraint.EnforcesUniqueness() {
          RemoveFromUniquenessSet(constraint.schema.entityType, constraint);
        }
      } else if id in indexesById {
        var index := indexesById[id];
        var schema := index.schema;
        indexesById := indexesById - {id};
        indexesBySchema := indexesBySchema - {schema};
        indexesByName := RemoveIfMapsTo(indexesByName, index.name, index);
        RemoveFromIndexSet(schema.entityType, index);
      }
    }

    /** getOrCreateDependantState: the object cached for the type, created by the factory on first request. */
    method GetOrCreateDependantState(typeName: string, factory: int -> int, parameter: int) returns (r: int)
      modifies this`dependantState
      ensures typeName in old(dependantState) ==> r == old(dependantState)[typeName] && dependantState == old(dependantState)
      ensures typeName !in old(dependantState) ==>
                r == factory(parameter) && dependantState == old(dependantState)[typeName := r]
    {
      if typeName !in dependantState {
        dependantState := dependantState[typeName := factory(parameter)];
      }
      r := dependantState[typeName];
    }

    // Lookups

    /** hasConstraintRule(Long): a null id is never a constraint rule. */
    function HasConstraintRuleId(constraintRuleId: Option<int>): (r: bool)
      reads this
      ensures constraintRuleId.None? ==> !r
      ensures constraintRuleId.Some? ==> (r <==> constraintRuleId.value in constraintsById)
    {
      constraintRuleId.Some? && constraintRuleId.value in constraintsById
    }

    /** hasConstraintRule(ConstraintDescriptor): agrees with the lookup by the descriptor's id. */
    function HasConstraintRule(descriptor: ConstraintDescriptor): (r: bool)
      reads this
      ensures r == HasConstraintRuleId(Some(descriptor.id))
    {
      descriptor.id in constraintsById
    }

    /** hasIndex(IndexDescriptor): an index with that id is cached. */
    function HasIndex(index: IndexDescriptor): (r: bool)
      reads this
      ensures r <==> GetIndex(index.id).Some?
    {
      index.id in indexesById
    }

    /** hasIndex(SchemaDescriptor): an index is cached for that schema. */
    function HasIndexForSchema(descriptor: SchemaDescriptor): (r: bool)
      reads this
      ensures r <==> IndexesForSchema(descriptor) != []
    {
      descriptor in indexesBySchema
    }

    function GetIndex(id: int): (r: Option<IndexDescriptor>)
      reads this
      ensures r.Some? <==> id in indexesById
      ensures r.Some? ==> r.value in ValuesOf(indexesById)
      ensures Keyed(Contents()) && r.Some? ==> r.value.id == id
    {
      if id in indexesById then Some(indexesById[id]) else None
    }

    /** indexesForSchema: at most one index, and only one for that schema. */
    function IndexesForSchema(descriptor: SchemaDescriptor): (r: seq<IndexDescriptor>)
      reads this
      ensures |r| <= 1
      ensures |r| == 1 <==> descriptor in indexesBySchema
      ensures Keyed(Contents()) ==> forall i :: i in r ==> i.schema == descriptor
    {
      if descriptor in indexesBySchema then [indexesBySchema[descriptor]] else []
    }

    /** indexForName: the cached index filed under the name. */
    function IndexForName(name: string): (r: Option<IndexDescriptor>)
      reads this
      ensures r.Some? <==> name in indexesByName
      ensures EntriesCached(Contents()) && r.Some? ==> r.value.name == name && GetIndex(r.value.id) == r
      // In a consistent state, every cached index is found by its own name.
      ensures Consistent(Contents()) ==> forall i :: i in ValuesOf(indexesById) && i.name == name ==> r == Some(i)
    {
      if name in indexesByName then Some(indexesByName[name]) else None
    }

    /** constraintForName: the cached constraint filed under the name. */
    function ConstraintForName(name: string): (r: Option<ConstraintDescriptor>)
      reads this
      ensures r.Some? <==> name in constrainsByName
      ensures EntriesCached(Contents()) && r.Some? ==>
                r.value.name == name && r.value.id in constraintsById && constraintsById[r.value.id] == r.value
      // In a consistent state, every cached constraint is found by its own name.
      ensures Consistent(Contents()) ==>
                forall c :: c in ValuesOf(constraintsById) && c.name == name ==> r == Some(c)
    {
      if name in constrainsByName then Some(constrainsByName[name]) else None
    }

    function SelectIndexSetByEntityType(entityType: EntityType): (r: set<IndexDescriptor>)
      reads this
      ensures Typed(Contents()) ==> forall i :: i in r ==> i.schema.entityType == entityType
    {
      match entityType
      case Node => indexesByNode
      case Relationship => indexesByRelationship
    }

    function SelectUniquenessConstraintSetByEntityType(entityType: EntityType): (r: set<ConstraintDescriptor>)
      reads this
      ensures Typed(Contents()) ==> forall c :: c in r ==> c.schema.entityType == entityType && c.EnforcesUniqueness()
    {
      match entityType
      case Node => uniquenessConstraintsByNode
      case Relationship => uniquenessConstraintsByRelationship
    }

    /** indexesForLabel: every node index for the label. */
    function IndexesForLabel(labelId: int): (r: set<IndexDescriptor>)
      reads this
      ensures forall i :: i in r <==> i in indexesByNode && labelId in i.schema.entityTokenIds
    {
      GetSchemaRelatedTo(indexesByNode, IndexSchema, [labelId], [], [], false)
    }

    /** indexesForRelationshipType: every relationship index for the type. */
    function IndexesForRelationshipType(relationshipType: int): (r: set<IndexDescriptor>)
      reads this
      ensures forall i :: i in r <==> i in indexesByRelationship && relationshipType in i.schema.entityTokenIds
    {
      GetSchemaRelatedTo(indexesByRelationship, IndexSchema, [relationshipType], [], [], false)
    }

    function GetIndexesRelatedTo(entityType: EntityType, changedEntityTokens: seq<int>,
                                 unchangedEntityTokens: seq<int>, properties: seq<int>,
                                 propertyListIsComplete: bool): (r: set<IndexDescriptor>)
      reads this
      ensures r <= SelectIndexSetByEntityType(entityType)
      ensures forall i :: i in r <==> (i in SelectIndexSetByEntityType(entityType) &&
                Related(i.schema, changedEntityTokens, unchangedEntityTokens, properties, propertyListIsComplete))
    {
      GetSchemaRelatedTo(SelectIndexSetByEntityType(entityType), IndexSchema, changedEntityTokens,
                         unchangedEntityTokens, properties, propertyListIsComplete)
    }

    function GetUniquenessConstraintsRelatedTo(entityType: EntityType, changedEntityTokens: seq<int>,
                                               unchangedEntityTokens: seq<int>, properties: seq<int>,
                                               propertyListIsComplete: bool): (r: set<ConstraintDescriptor>)
      reads this
      ensures r <= SelectUniquenessConstraintSetByEntityType(entityType)
      ensures forall c :: c in r <==> (c in SelectUniquenessConstraintSetByEntityType(entityType) &&
                Related(c.schema, changedEntityTokens, unchangedEntityTokens, properties, propertyListIsComplete))
    {
      GetSchemaRelatedTo(SelectUniquenessConstraintSetByEntityType(entityType), ConstraintSchema, changedEntityTokens,
                         unchangedEntityTokens, properties, propertyListIsComplete)
    }

    /** hasRelatedSchema(labels, propertyKey, entityType): false only when no index or uniqueness
        constraint of the entity type is for one of the labels and has the property. */
    function HasRelatedSchema(labels: seq<int>, propertyKey: int, entityType: EntityType): (r: bool)
      reads this
      ensures !r ==> forall i :: i in SelectIndexSetByEntityType(entityType) && HasAnyToken(i.schema, labels) ==>
                       propertyKey !in i.schema.propertyKeyIds
      ensures !r ==> forall c :: (c in SelectUniquenessConstraintSetByEntityType(entityType) &&
                                  HasAnyToken(c.schema, labels)) ==> propertyKey !in c.schema.propertyKeyIds
      ensures r ==> (exists i :: i in SelectIndexSetByEntityType(entityType) && HasAnyToken(i.schema, labels)
                                 && propertyKey in i.schema.propertyKeyIds)
                    || (exists c :: c in SelectUniquenessConstraintSetByEntityType(entityType)
                                    && HasAnyToken(c.schema, labels) && propertyKey in c.schema.propertyKeyIds)
    {
      HasTokensAndProperty(SelectIndexSetByEntityType(entityType), IndexSchema, labels, propertyKey) ||
      HasTokensAndProperty(SelectUniquenessConstraintSetByEntityType(entityType), ConstraintSchema, labels, propertyKey)
    }

    /** hasRelatedSchema(label, entityType): some index or uniqueness constraint of the entity type is for the label. */
    function HasRelatedSchemaForLabel(labelId: int, entityType: EntityType): (r: bool)
      reads this
      ensures !r ==> forall i :: i in SelectIndexSetByEntityType(entityType) ==> labelId !in i.schema.entityTokenIds
      ensures !r ==> forall c :: c in SelectUniquenessConstraintSetByEntityType(entityType) ==>
                       labelId !in c.schema.entityTokenIds
      ensures r ==> (exists i :: i in SelectIndexSetByEntityType(entityType) && labelId in i.schema.entityTokenIds)
                    || (exists c :: c in SelectUniquenessConstraintSetByEntityType(entityType) &&
                                    labelId in c.schema.entityTokenIds)
    {
      HasToken(SelectIndexSetByEntityType(entityType), IndexSchema, labelId) ||
      HasToken(SelectUniquenessConstraintSetByEntityType(entityType), ConstraintSchema, labelId)
    }
  }

  // ---------------------------------------------------------------------------
  // SchemaCache
  // ---------------------------------------------------------------------------

  /**
   * The cache publishes one state at a time. Every update copies the current
   * state, updates the copy and swaps it in, so a state, once published, is
   * never changed again and a snapshot keeps its contents. A snapshot shares
   * the state it was taken from and its lock refuses every update.
   */
  class SchemaCache {
    var schemaCacheState: SchemaCacheState
    /** False for a snapshot. */
    const updatable: bool

    ghost predicate Valid()
      reads this, schemaCacheState
    {
      Wellformed(schemaCacheState.Contents())
    }

    function Contents(): CacheContents
      reads this, schemaCacheState
    {
      schemaCacheState.Contents()
    }

    constructor (readConstraint: ConstraintDescriptor -> ConstraintDescriptor,
                 completeConfiguration: IndexDescriptor -> IndexDescriptor)
      ensures Valid() && updatable && fresh(schemaCacheState)
      ensures schemaCacheState.readConstraint == readConstraint
      ensures schemaCacheState.completeConfiguration == completeConfiguration
      ensures Contents() == Empty()
    {
      schemaCacheState := new SchemaCacheState(readConstraint, completeConfiguration, []);
      updatable := true;
    }

    /** The snapshot constructor. */
    constructor SnapshotOf(state: SchemaCacheState)
      requires Wellformed(state.Contents())
      ensures Valid() && !updatable && schemaCacheState == state
    {
      schemaCacheState := state;
      updatable := false;
    }

    /** Replaces the state by one loaded from `rules`, with the same constraint semantics and completer. */
    method Load(rules: seq<SchemaRule>) returns (refused: bool)
      requires Valid()
      modifies this
      ensures Valid()
      ensures refused <==> !updatable
      ensures refused ==> schemaCacheState == old(schemaCacheState)
      ensures schemaCacheState.readConstraint == old(schemaCacheState.readConstraint)
      ensures schemaCacheState.completeConfiguration == old(schemaCacheState.completeConfiguration)
      ensures !refused ==> fresh(schemaCacheState)
      ensures !refused ==>
                Contents() == LoadRules(Empty(), rules, schemaCacheState.readConstraint,
                                        schemaCacheState.completeConfiguration)
    {
      if !updatable {
        return true;
      }
      refused := false;
      schemaCacheState := new SchemaCacheState(schemaCacheState.readConstraint,
                                               schemaCacheState.completeConfiguration, rules);
    }

    /** Adds a rule to a fresh copy of the state and publishes the copy. */
    method AddSchemaRule(rule: SchemaRule) returns (refused: bool)
      requires Valid()
      modifies this
      ensures Valid()
      ensures refused <==> !updatable
      ensures refused ==> schemaCacheState == old(schemaCacheState)
      ensures schemaCacheState.readConstraint == old(schemaCacheState.readConstraint)
      ensures schemaCacheState.completeConfiguration == old(schemaCacheState.completeConfiguration)
      ensures !refused ==> fresh(schemaCacheState)
      ensures !refused ==>
                Contents() == AddRule(CopyOf(old(Contents())), rule, schemaCacheState.readConstraint,
                                      schemaCacheState.completeConfiguration)
      // Copying a state whose four places agree loses nothing.
      ensures !refused && Consistent(old(Contents())) ==>
                Contents() == AddRule(old(Contents()), rule, schemaCacheState.readConstraint,
                                      schemaCacheState.completeConfiguration)
    {
      if !updatable {
        return true;
      }
      refused := false;
      ghost var before := Contents();
      var updatedSchemaState := new SchemaCacheState.Copy(schemaCacheState);
      updatedSchemaState.AddSchemaRule(rule);
      schemaCacheState := updatedSchemaState;
      CopyOfIsWellformed(before);
      AddPreservesWellformed(CopyOf(before), rule, schemaCacheState.readConstraint,
                             schemaCacheState.completeConfiguration);
      if Consistent(before) {
        CopyOfConsistentIsIdentity(before);
      }
    }

    /** Removes the rule with `id` from a fresh copy of the state and publishes the copy. */
    method RemoveSchemaRule(id: int) returns (refused: bool)
      requires Valid()
      modifies this
      ensures Valid()
      ensures refused <==> !updatable
      ensures refused ==> schemaCacheState == old(schemaCacheState)
      ensures schemaCacheState.readConstraint == old(schemaCacheState.readConstraint)
      ensures schemaCacheState.completeConfiguration == old(schemaCacheState.completeConfiguration)
      ensures !refused ==> fresh(schemaCacheState) && Contents() == RemoveRule(CopyOf(old(Contents())), id)
      ensures !refused && Consistent(old(Contents())) ==>
        Contents() == RemoveRule(old(Contents()), id) && Consistent(Contents())
    {
      if !updatable {
        return true;
      }
      refused := false;
      ghost var before := Contents();
      var updatedSchemaState := new SchemaCacheState.Copy(schemaCacheState);
      updatedSchemaState.RemoveSchemaRule(id);
      schemaCacheState := updatedSchemaState;
      CopyOfIsWellformed(before);
      RemovePreservesWellformed(CopyOf(before), id);
      if Consistent(before) {
        CopyOfConsistentIsIdentity(before);
        RemovePreservesConsistent(before, id);
      }
    }

    /** A read-only cache over the current state. */
    method Snapshot() returns (snapshot: SchemaCache)
      requires Valid()
      ensures fresh(snapshot) && snapshot.Valid() && !snapshot.updatable
      ensures snapshot.schemaCacheState == schemaCacheState
      ensures snapshot.Contents() == Contents()
    {
      snapshot := new SchemaCache.SnapshotOf(schemaCacheState);
    }

    /** constraintsForLabel: the node constraints whose schema names the label. */
    function ConstraintsForLabel(labelId: int): (r: set<ConstraintDescriptor>)
      reads this, schemaCacheState
      ensures forall c :: c in r ==> c in ValuesOf(schemaCacheState.constraintsById) && c.schema.entityType == Node && labelId in c.schema.entityTokenIds
      ensures forall id :: id in schemaCacheState.constraintsById &&
                           schemaCacheState.constraintsById[id].schema.entityType == Node &&
                           labelId in schemaCacheState.constraintsById[id].schema.entityTokenIds ==>
                schemaCacheState.constraintsById[id] in r
    {
      set c | c in ValuesOf(schemaCacheState.constraintsById) &&
              c.schema.entityType == Node && labelId in c.schema.entityTokenIds
    }

    /** constraintsForRelationshipType: the relationship constraints whose schema names the type. */
    function ConstraintsForRelationshipType(relTypeId: int): (r: set<ConstraintDescriptor>)
      reads this, schemaCacheState
      ensures forall c :: c in r ==> c in ValuesOf(schemaCacheState.constraintsById) && c.schema.entityType == Relationship && relTypeId in c.schema.entityTokenIds
      ensures forall id :: id in schemaCacheState.constraintsById &&
                           schemaCacheState.constraintsById[id].schema.entityType == Relationship &&
                           relTypeId in schemaCacheState.constraintsById[id].schema.entityTokenIds ==>
                schemaCacheState.constraintsById[id] in r
    {
      set c | c in ValuesOf(schemaCacheState.constraintsById) &&
              c.schema.entityType == Relationship && relTypeId in c.schema.entityTokenIds
    }

    /** constraintsForSchema: the constraints on exactly that schema. */
    function ConstraintsForSchema(descriptor: SchemaDescriptor): (r: set<ConstraintDescriptor>)
      reads this, schemaCacheState
      ensures forall c :: c in r ==> c in ValuesOf(schemaCacheState.constraintsById) && c.schema == descriptor
      ensures forall id :: id in schemaCacheState.constraintsById &&
                           schemaCacheState.constraintsById[id].schema == descriptor ==>
                schemaCacheState.constraintsById[id] in r
    {
      set c | c in ValuesOf(schemaCacheState.constraintsById) && c.schema == descriptor
    }
  }

  /**
   * Copy-on-write: a snapshot keeps the contents it was taken with, whatever
   * updates the cache publishes afterwards.
   */
  method SnapshotKeepsItsContents(cache: SchemaCache, rule: SchemaRule, id: int, rules: seq<SchemaRule>)
    returns (snapshot: SchemaCache)
    requires cache.Valid()
    modifies cache
    ensures snapshot.Contents() == old(cache.Contents())
    ensures !snapshot.updatable
  {
    snapshot := cache.Snapshot();
    ghost var taken := snapshot.Contents();
    var _ := cache.AddSchemaRule(rule);
    assert snapshot.Contents() == taken;
    var _ := cache.RemoveSchemaRule(id);
    assert snapshot.Contents() == taken;
    var _ := cache.Load(rules);
    assert snapshot.Contents() == taken;
    var refused := snapshot.AddSchemaRule(rule);
    assert refused;
  }
}
