/**
 * The schema-rule scan of the 3.5 schema store, used during store migration.
 *
 * The store is an abstract function from record id to what reading that
 * record yields: whether it is in use, whether it starts a record chain,
 * and what reading its chain gives (an InvalidRecordException, or the bytes
 * that decode to a schema rule or fail as a malformed rule). Record 0 holds
 * the block size; rule records are 1..highestId.
 */
module LegacySchemaStorage {
  import opened Wrappers
  import opened Schema

  /** What decoding a chain of dynamic records gives. */
  datatype DecodedRule = MalformedSchemaRule | Decoded(rule: SchemaRule)

  /** What reading the record chain that starts at a record gives. */
  datatype ChainRead = InvalidRecord | Records(decoded: DecodedRule)

  datatype DynamicRecord = DynamicRecord(inUse: bool, startRecord: bool, chain: ChainRead)

  type SchemaStore = nat -> DynamicRecord

  /** The rule class a scan is asked for. */
  datatype ReturnType = AnySchemaRule | IndexDescriptorType | ConstraintDescriptorType

  predicate IsInstance(returnType: ReturnType, rule: SchemaRule) {
    match returnType
    case AnySchemaRule => true
    case IndexDescriptorType => rule.IndexRule?
    case ConstraintDescriptorType => rule.ConstraintRule?
  }

  /** What the scan does with one record. */
  datatype Verdict = Skip | Yield(rule: SchemaRule) | Abort

  function Examine(record: DynamicRecord, returnType: ReturnType, filter: SchemaRule -> bool): Verdict {
    if !record.inUse || !record.startRecord then Skip
    else match record.chain
      case InvalidRecord => Skip
      case Records(MalformedSchemaRule) => Abort
      case Records(Decoded(rule)) => if IsInstance(returnType, rule) && filter(rule) then Yield(rule) else Skip
  }

  /** The result of one fetchNextOrNull: a rule, null, or the RuntimeException of a malformed rule at `id`. */
  datatype Fetched = Fetched(rule: SchemaRule) | Exhausted | Malformed(id: nat)

  /** A fetch result and the currentId it leaves behind. */
  datatype FetchStep = FetchStep(result: Fetched, nextId: nat)

  /**
   * One fetchNextOrNull from `from`: skip every record that yields nothing;
   * stop after highestId with Exhausted.
   */
  function FetchFrom(store: SchemaStore, highestId: int, from: nat, returnType: ReturnType, filter: SchemaRule -> bool)
    : (r: FetchStep)
    decreases highestId - from
    // Ids are visited in increasing order; a found or malformed rule is at r.nextId - 1.
    ensures from <= r.nextId
    ensures r.result.Exhausted? ==> r.nextId == if from <= highestId then highestId + 1 else from
    ensures !r.result.Exhausted? ==> from < r.nextId <= highestId + 1
    ensures r.result.Fetched? ==> Examine(store(r.nextId - 1), returnType, filter) == Yield(r.result.rule)
    ensures r.result.Malformed? ==> r.result.id == r.nextId - 1 && Examine(store(r.result.id), returnType, filter) == Abort
    // Every record passed over yields nothing.
    ensures forall id :: from <= id < r.nextId - (if r.result.Exhausted? then 0 else 1) ==>
      Examine(store(id), returnType, filter) == Skip
  {
    if from > highestId then FetchStep(Exhausted, from)
    else match Examine(store(from), returnType, filter)
      case Skip => FetchFrom(store, highestId, from + 1, returnType, filter)
      case Abort => FetchStep(Malformed(from), from + 1)
      case Yield(rule) => FetchStep(Fetched(rule), from + 1)
  }

  /** Everything an iterator yields from `from` on: the rules, then null or the exception of a malformed rule. */
  datatype ScanResult = ScanResult(rules: seq<SchemaRule>, malformedAt: Option<nat>)

  /** The rules successive fetches return, until one is Exhausted or Malformed. */
  function ScanAll(store: SchemaStore, highestId: int, from: nat, returnType: ReturnType, filter: SchemaRule -> bool)
    : ScanResult
    decreases highestId - from
  {
    var step := FetchFrom(store, highestId, from, returnType, filter);
    match step.result
    case Exhausted => ScanResult([], None)
    case Malformed(id) => ScanResult([], Some(id))
    case Fetched(rule) =>
      var rest := ScanAll(store, highestId, step.nextId, returnType, filter);
      ScanResult([rule] + rest.rules, rest.malformedAt)
  }

  /** The reference scan: every id from `lo` to highestId in turn, each examined once. */
  function ScanIds(store: SchemaStore, highestId: int, lo: nat, returnType: ReturnType, filter: SchemaRule -> bool)
    : ScanResult
    decreases highestId - lo
  {
    if lo > highestId then ScanResult([], None)
    else match Examine(store(lo), returnType, filter)
      case Skip => ScanIds(store, highestId, lo + 1, returnType, filter)
      case Abort => ScanResult([], Some(lo))
      case Yield(rule) =>
        var rest := ScanIds(store, highestId, lo + 1, returnType, filter);
        ScanResult([rule] + rest.rules, rest.malformedAt)
  }

  /** Skipping ahead over records that yield nothing does not change the reference scan. */
  lemma {:induction false} ScanIdsSkips(store: SchemaStore, highestId: int, lo: nat, hi: nat,
                                        returnType: ReturnType, filter: SchemaRule -> bool)
    requires lo <= hi
    requires forall id :: lo <= id < hi ==> Examine(store(id), returnType, filter) == Skip
    ensures hi <= highestId + 1 ==>
      ScanIds(store, highestId, lo, returnType, filter) == ScanIds(store, highestId, hi, returnType, filter)
    decreases hi - lo
  {
    if lo < hi && hi <= highestId + 1 {
      ScanIdsSkips(store, highestId, lo + 1, hi, returnType, filter);
    }
  }

  /** One fetch from `from` is the first step of the reference scan from `from`. */
  lemma ScanIdsAtFetch(store: SchemaStore, highestId: int, from: nat,
                       returnType: ReturnType, filter: SchemaRule -> bool)
    ensures var step := FetchFrom(store, highestId, from, returnType, filter);
            var scan := ScanIds(store, highestId, from, returnType, filter);
            match step.result
            case Exhausted => scan == ScanResult([], None)
            case Malformed(id) => scan == ScanResult([], Some(id))
            case Fetched(rule) =>
              var rest := ScanIds(store, highestId, step.nextId, returnType, filter);
              scan == ScanResult([rule] + rest.rules, rest.malformedAt)
  {
    var step := FetchFrom(store, highestId, from, returnType, filter);
    if from <= highestId {
      match step.result
      case Exhausted =>
        ScanIdsSkips(store, highestId, from, highestId + 1, returnType, filter);
      case Malformed(id) =>
        ScanIdsSkips(store, highestId, from, id, returnType, filter);
      case Fetched(rule) =>
        ScanIdsSkips(store, highestId, from, step.nextId - 1, returnType, filter);
    }
  }

  /** The iterator yields exactly what the reference scan yields. */
  lemma {:induction false} ScanAllIsScanIds(store: SchemaStore, highestId: int, from: nat,
                                            returnType: ReturnType, filter: SchemaRule -> bool)
    ensures ScanAll(store, highestId, from, returnType, filter) == ScanIds(store, highestId, from, returnType, filter)
    decreases highestId - from
  {
    ScanIdsAtFetch(store, highestId, from, returnType, filter);
    var step := FetchFrom(store, highestId, from, returnType, filter);
    if step.result.Fetched? {
      ScanAllIsScanIds(store, highestId, step.nextId, returnType, filter);
    }
  }

  /** The scan reads only records lo..highestId: stores that agree there scan alike. */
  lemma {:induction false} ScanIdsReadsOnlyRange(s1: SchemaStore, s2: SchemaStore, highestId: int, lo: nat,
                                                 returnType: ReturnType, filter: SchemaRule -> bool)
    requires forall id :: lo <= id <= highestId ==> s1(id) == s2(id)
    ensures ScanIds(s1, highestId, lo, returnType, filter) == ScanIds(s2, highestId, lo, returnType, filter)
    decreases highestId - lo
  {
    if lo <= highestId {
      ScanIdsReadsOnlyRange(s1, s2, highestId, lo + 1, returnType, filter);
    }
  }

  /** Record 0 holds the block size and is never read by a scan. */
  lemma BlockSizeRecordNeverRead(s1: SchemaStore, s2: SchemaStore, highestId: int,
                                 returnType: ReturnType, filter: SchemaRule -> bool)
    requires forall id :: 1 <= id ==> s1(id) == s2(id)
    ensures ScanAll(s1, highestId, 1, returnType, filter) == ScanAll(s2, highestId, 1, returnType, filter)
  {
    ScanAllIsScanIds(s1, highestId, 1, returnType, filter);
    ScanAllIsScanIds(s2, highestId, 1, returnType, filter);
    ScanIdsReadsOnlyRange(s1, s2, highestId, 1, returnType, filter);
  }

  /**
   * Every rule a scan yields is an instance of the requested type that passes
   * the filter, and comes from an in-use start record with a readable chain.
   */
  lemma {:induction false} ScanYieldsOnlyMatching(store: SchemaStore, highestId: int, lo: nat,
                                                  returnType: ReturnType, filter: SchemaRule -> bool, k: nat)
    requires k < |ScanIds(store, highestId, lo, returnType, filter).rules|
    ensures var rule := ScanIds(store, highestId, lo, returnType, filter).rules[k];
      IsInstance(returnType, rule) && filter(rule) &&
      exists id :: lo <= id <= highestId && store(id).inUse && store(id).startRecord &&
                   store(id).chain == Records(Decoded(rule))
    decreases highestId - lo
  {
    var verdict := Examine(store(lo), returnType, filter);
    if verdict.Skip? {
      ScanYieldsOnlyMatching(store, highestId, lo + 1, returnType, filter, k);
    } else if verdict.Yield? && k > 0 {
      ScanYieldsOnlyMatching(store, highestId, lo + 1, returnType, filter, k - 1);
    }
  }

  /**
   * A scan with no malformed rule in range yields the rule of every matching
   * record: the rule of a record that Examine yields is among the results.
   */
  lemma {:induction false} ScanYieldsEveryMatching(store: SchemaStore, highestId: int, lo: nat,
                                                   returnType: ReturnType, filter: SchemaRule -> bool, id: nat)
    requires lo <= id <= highestId
    requires Examine(store(id), returnType, filter).Yield?
    requires ScanIds(store, highestId, lo, returnType, filter).malformedAt.None?
    ensures Examine(store(id), returnType, filter).rule in ScanIds(store, highestId, lo, returnType, filter).rules
    decreases highestId - lo
  {
    if lo < id {
      ScanYieldsEveryMatching(store, highestId, lo + 1, returnType, filter, id);
    }
  }

  /** The filter of the unfiltered scans. */
  predicate AcceptAll(rule: SchemaRule) {
    true
  }

  /** The iterator over one scan; `currentId` is the next record id to read. */
  class SchemaRuleIterator {
    const store: SchemaStore
    const highestId: int
    const returnType: ReturnType
    const filter: SchemaRule -> bool
    var currentId: nat

    /** A scan starts at record 1: record 0 holds the block size. */
    constructor(store: SchemaStore, highestId: int, returnType: ReturnType, filter: SchemaRule -> bool)
      ensures this.store == store && this.highestId == highestId
      ensures this.returnType == returnType && this.filter == filter
      ensures currentId == 1
    {
      this.store := store;
      this.highestId := highestId;
      this.returnType := returnType;
      this.filter := filter;
      currentId := 1;
    }

    /** What is left of this scan. */
    ghost function Remaining(): ScanResult
      reads this
    {
      ScanAll(store, highestId, currentId, returnType, filter)
    }

    method FetchNextOrNull() returns (r: Fetched)
      modifies this
      ensures FetchStep(r, currentId) == FetchFrom(store, highestId, old(currentId), returnType, filter)
    {
      while currentId <= highestId
        invariant FetchFrom(store, highestId, currentId, returnType, filter) ==
                  FetchFrom(store, highestId, old(currentId), returnType, filter)
        decreases highestId - currentId
      {
        var id := currentId;
        currentId := currentId + 1;
        // The lenient read decides whether the record is in use; the normal read
        // of an in-use record gives the same record here.
        var record := store(id);
        if !record.inUse {
          continue;
        }
        if record.startRecord {
          match record.chain {
            case InvalidRecord =>
              // The chain may have been dropped concurrently: skip it.
              continue;
            case Records(MalformedSchemaRule) =>
              return Malformed(id);
            case Records(Decoded(rule)) =>
              if IsInstance(returnType, rule) && filter(rule) {
                return Fetched(rule);
              }
          }
        }
      }
      return Exhausted;
    }
  }

  /** getAll: a lazy scan of every schema rule. */
  method GetAll(store: SchemaStore, highestId: int) returns (itr: SchemaRuleIterator)
    ensures fresh(itr)
    ensures itr.Remaining() == ScanIds(store, highestId, 1, AnySchemaRule, AcceptAll)
  {
    itr := new SchemaRuleIterator(store, highestId, AnySchemaRule, AcceptAll);
    ScanAllIsScanIds(store, highestId, 1, AnySchemaRule, itr.filter);
  }

  /** indexesGetAll: a lazy scan of every index rule. */
  method IndexesGetAll(store: SchemaStore, highestId: int) returns (itr: SchemaRuleIterator)
    ensures fresh(itr)
    ensures itr.store == store && itr.highestId == highestId && itr.currentId == 1
    ensures itr.returnType == IndexDescriptorType && itr.filter == AcceptAll
  {
    itr := new SchemaRuleIterator(store, highestId, IndexDescriptorType, AcceptAll);
  }

  /** What indexGetForName returns: the index, null, or the RuntimeException of a malformed rule. */
  datatype IndexLookup = FoundIndex(index: IndexDescriptor) | NoIndex | ScanFailed(id: nat)

  /** The first index named `name` in a scan's rules; else null, or the scan's failure. */
  function FirstNamed(scan: ScanResult, name: string): (r: IndexLookup)
    ensures r.FoundIndex? ==> r.index.name == name && IndexRule(r.index) in scan.rules
    // ...and it is the first such index in scan order.
    ensures r.FoundIndex? ==>
              exists k :: (0 <= k < |scan.rules| && scan.rules[k] == IndexRule(r.index) &&
                           forall j :: 0 <= j < k ==> !(scan.rules[j].IndexRule? && scan.rules[j].index.name == name))
    ensures r.NoIndex? ==> scan.malformedAt.None?
    ensures r.ScanFailed? ==> scan.malformedAt == Some(r.id)
    ensures !r.FoundIndex? ==> forall rule :: rule in scan.rules && rule.IndexRule? ==> rule.index.name != name
    decreases |scan.rules|
  {
    if scan.rules == [] then
      (if scan.malformedAt.Some? then ScanFailed(scan.malformedAt.value) else NoIndex)
    else if scan.rules[0].IndexRule? && scan.rules[0].index.name == name then
      FoundIndex(scan.rules[0].index)
    else
      FirstNamed(ScanResult(scan.rules[1..], scan.malformedAt), name)
  }

  /** The first index rule in scan order whose name is `indexName`. */
  method IndexGetForName(store: SchemaStore, highestId: int, indexName: string) returns (r: IndexLookup)
    ensures r == FirstNamed(ScanIds(store, highestId, 1, IndexDescriptorType, AcceptAll), indexName)
  {
    var itr := IndexesGetAll(store, highestId);
    ScanAllIsScanIds(store, highestId, 1, IndexDescriptorType, itr.filter);
    while true
      invariant fresh(itr)
      invariant itr.store == store && itr.highestId == highestId
      invariant itr.returnType == IndexDescriptorType && itr.filter == AcceptAll
      invariant FirstNamed(itr.Remaining(), indexName) ==
                FirstNamed(ScanIds(store, highestId, 1, IndexDescriptorType, AcceptAll), indexName)
      decreases highestId + 1 - itr.currentId
    {
      var next := itr.FetchNextOrNull();
      match next {
        case Exhausted =>
          return NoIndex;
        case Malformed(id) =>
          return ScanFailed(id);
        case Fetched(rule) =>
          if rule.IndexRule? && rule.index.name == indexName {
            return FoundIndex(rule.index);
          }
      }
    }
  }
}
