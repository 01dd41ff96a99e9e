/**
 * The bookkeeping of the Bolt connection scheduler, as a sequential
 * event-driven state machine.
 *
 * The scheduler keeps two registries keyed by connection id: the registered
 * connections, and the work items (in-flight batch handles) of the connections
 * that have a batch scheduled or running. Thread pools, futures and timers
 * become events: a submission records a SubmitBatch call and installs a work
 * item; the completion of that batch is a later HandleCompletion event whose
 * outcome (a result, a rejection, another error) is a parameter. What the
 * scheduler asks of a connection (idle(), hasPendingJobs()) is a parameter too,
 * and every call it makes on a connection or a pool is appended to `calls`.
 */
module BoltScheduling {

  type ConnectionId = string

  /** A connection as the scheduler sees it: its id and, for diagnostics, its remote address. */
  datatype BoltConnection = BoltConnection(id: ConnectionId, remoteAddress: string)

  /** The keep-alive request policy; every value other than Streaming disables keep-alive. */
  datatype KeepAliveRequestType = Off | Streaming

  /** The in-flight handle one submission installs; every submission draws a new ticket. */
  datatype WorkItem = WorkItem(ticket: nat)

  /** The classes that can appear in the cause chain of a failed batch. */
  datatype ThrowableClass = RejectedExecutionException | OtherThrowable

  /** How a batch future completed: with processNextBatch()'s answer, or with an error. */
  datatype BatchCompletion =
    | Completed(shouldContinueScheduling: bool)
    | CompletedExceptionally(causeChain: seq<ThrowableClass>)

  /** The calls the scheduler makes on connections, work items and its thread pool. */
  datatype Call =
    | InitKeepAliveTimer(id: ConnectionId)
    | SubmitBatch(id: ConnectionId, item: WorkItem)
    | CancelWorkItem(id: ConnectionId, item: WorkItem)
    | HandleSchedulingError(id: ConnectionId)
    | StopConnection(id: ConnectionId)
    | KeepAlive(id: ConnectionId)
    | ShutdownThreadPool
    | ThreadPoolShutdownTimedOut

  /** The error is, or was caused by, a rejected submission. */
  predicate HasRejectionCause(causeChain: seq<ThrowableClass>) {
    RejectedExecutionException in causeChain
  }

  /** The keep-alive service is started only for the STREAMING policy and a strictly positive interval. */
  predicate KeepAliveEnabled(requestType: KeepAliveRequestType, intervalNanos: int) {
    requestType == Streaming && intervalNanos > 0
  }

  /** Duration.toMillis of a non-negative duration given in nanoseconds: it truncates. */
  function ToMillis(nanos: nat): nat {
    nanos / 1_000_000
  }

  /** `ids` lists every element of `s` exactly once. */
  predicate IsEnumeration(ids: seq<ConnectionId>, s: set<ConnectionId>) {
    && (forall j, k :: 0 <= j < k < |ids| ==> ids[j] != ids[k])
    && (forall id :: id in ids ==> id in s)
    && (forall id :: id in s ==> id in ids)
  }

  function Stops(ids: seq<ConnectionId>): (r: seq<Call>)
    ensures |r| == |ids|
  {
    if ids == [] then [] else Stops(ids[..|ids| - 1]) + [StopConnection(ids[|ids| - 1])]
  }

  function KeepAlives(ids: seq<ConnectionId>): (r: seq<Call>)
    ensures |r| == |ids|
  {
    if ids == [] then [] else KeepAlives(ids[..|ids| - 1]) + [KeepAlive(ids[|ids| - 1])]
  }

  /** The ids of the registered connections that report themselves idle. */
  function IdleIds(connections: map<ConnectionId, BoltConnection>, idle: BoltConnection -> bool): set<ConnectionId> {
    set id | id in connections && idle(connections[id])
  }

  /** An enumeration extended by a new element enumerates the larger set. */
  lemma EnumerationGrows(ids: seq<ConnectionId>, s: set<ConnectionId>, x: ConnectionId)
    requires IsEnumeration(ids, s) && x !in s
    ensures IsEnumeration(ids + [x], s + {x})
  {
  }

  lemma StopsAppend(ids: seq<ConnectionId>, x: ConnectionId)
    ensures Stops(ids + [x]) == Stops(ids) + [StopConnection(x)]
  {
    assert (ids + [x])[..|ids|] == ids;
  }

  lemma KeepAlivesAppend(ids: seq<ConnectionId>, x: ConnectionId)
    ensures KeepAlives(ids + [x]) == KeepAlives(ids) + [KeepAlive(x)]
  {
    assert (ids + [x])[..|ids|] == ids;
  }

  /**
   * stopConnection on every connection of `ids`, one at a time, in some order:
   * the calls recorded are one stop per id.
   */
  method StopEach(ids: set<ConnectionId>, before: seq<Call>) returns (stopped: seq<ConnectionId>, trace: seq<Call>)
    ensures IsEnumeration(stopped, ids)
    ensures trace == before + Stops(stopped)
  {
    var pending := ids;
    stopped, trace := [], before;
    while pending != {}
      invariant pending <= ids
      invariant IsEnumeration(stopped, ids - pending)
      invariant trace == before + Stops(stopped)
      decreases pending
    {
      var id :| id in pending;
      EnumerationGrows(stopped, ids - pending, id);
      StopsAppend(stopped, id);
      // stopConnection: an exception from stop() is logged and swallowed.
      trace := trace + [StopConnection(id)];
      stopped := stopped + [id];
      assert ids - (pending - {id}) == (ids - pending) + {id};
      pending := pending - {id};
    }
    assert ids - pending == ids;
  }

  /**
   * keepAlive() on the connection of every id in `items`, one at a time, in some
   * order; an id without a registered connection ends the run (the
   * NullPointerException of a missing connection) with `completed` false.
   */
  method KeepAliveEach(items: set<ConnectionId>, connections: map<ConnectionId, BoltConnection>, before: seq<Call>)
    returns (visited: seq<ConnectionId>, completed: bool, trace: seq<Call>)
    ensures completed <==> items <= connections.Keys
    ensures completed ==> IsEnumeration(visited, items)
    ensures forall j, k :: 0 <= j < k < |visited| ==> visited[j] != visited[k]
    ensures forall id :: id in visited ==> id in items && id in connections
    ensures trace == before + KeepAlives(visited)
  {
    var pending := items;
    visited, completed, trace := [], true, before;
    while pending != {}
      invariant pending <= items
      invariant IsEnumeration(visited, items - pending)
      invariant forall id :: id in visited ==> id in connections
      invariant trace == before + KeepAlives(visited)
      decreases pending
    {
      var id :| id in pending;
      if id !in connections {
        completed := false;
        return;
      }
      EnumerationGrows(visited, items - pending, id);
      KeepAlivesAppend(visited, id);
      trace := trace + [KeepAlive(id)];
      visited := visited + [id];
      assert items - (pending - {id}) == (items - pending) + {id};
      pending := pending - {id};
    }
    assert items - pending == items;
  }

  /** How many batches were submitted for `id` in `cs`. */
  function SubmissionCount(cs: seq<Call>, id: ConnectionId): nat {
    if cs == [] then 0
    else (if cs[0].SubmitBatch? && cs[0].id == id then 1 else 0) + SubmissionCount(cs[1..], id)
  }

  lemma {:induction false} SubmissionCountAppend(a: seq<Call>, b: seq<Call>, id: ConnectionId)
    ensures SubmissionCount(a + b, id) == SubmissionCount(a, id) + SubmissionCount(b, id)
  {
    if a != [] {
      assert (a + b)[1..] == a[1..] + b;
      SubmissionCountAppend(a[1..], b, id);
    } else {
      assert a + b == b;
    }
  }

  /** One handleSubmission adds at most its own submission to the count. */
  lemma SubmissionCountStep(added: seq<Call>, timer: seq<Call>, submit: seq<Call>, id: ConnectionId)
    requires timer == [] || timer == [InitKeepAliveTimer(id)]
    requires submit == [] || (|submit| == 1 && submit[0].SubmitBatch? && submit[0].id == id)
    ensures SubmissionCount(added + timer + submit, id) == SubmissionCount(added, id) + |submit|
  {
    SubmissionCountAppend(added, timer, id);
    SubmissionCountAppend(added + timer, submit, id);
    if submit != [] {
      assert submit[1..] == [];
    }
  }

  class ExecutorBoltScheduler {
    const keepAliveRequestType: KeepAliveRequestType
    const keepAliveSchedulingIntervalNanos: int

    var activeConnections: map<ConnectionId, BoltConnection>
    var activeWorkItems: map<ConnectionId, WorkItem>
    /** threadPool != null, and whether it has been shut down. */
    var threadPoolCreated: bool
    var threadPoolShutDown: bool
    /** keepAliveService != null (the field is never reset), and whether its periodic broadcast still runs. */
    var keepAliveServiceCreated: bool
    var keepAliveBroadcasting: bool
    var nextTicket: nat
    var calls: seq<Call>

    /**
     * Every in-flight work item carries a ticket already issued, no two connections
     * share a work item, and broadcasts run only on a created keep-alive service.
     */
    ghost predicate Valid()
      reads this
    {
      && (forall id :: id in activeWorkItems ==> activeWorkItems[id].ticket < nextTicket)
      && (forall a, b :: a in activeWorkItems && b in activeWorkItems && a != b ==> activeWorkItems[a] != activeWorkItems[b])
      && (keepAliveBroadcasting ==> keepAliveServiceCreated)
    }

    /**
     * What handleSubmission does for `id`, relative to the work items, ticket
     * counter and calls it started from: arm the keep-alive timer when the
     * service exists; then install a new work item and submit a batch only when
     * `id` has none (and the pool exists, else the submission throws).
     */
    ghost predicate SubmittedFrom(items: map<ConnectionId, WorkItem>, ticket: nat, before: seq<Call>, id: ConnectionId)
      reads this
    {
      var timer := if keepAliveServiceCreated then [InitKeepAliveTimer(id)] else [];
      if id in items || !threadPoolCreated then
        activeWorkItems == items && nextTicket == ticket && calls == before + timer
      else
        && activeWorkItems == items[id := WorkItem(ticket)]
        && nextTicket == ticket + 1
        && calls == before + timer + [SubmitBatch(id, WorkItem(ticket))]
    }

    constructor(requestType: KeepAliveRequestType, intervalNanos: int)
      ensures Valid()
      ensures keepAliveRequestType == requestType && keepAliveSchedulingIntervalNanos == intervalNanos
      ensures activeConnections == map[] && activeWorkItems == map[] && calls == []
      ensures !threadPoolCreated && !threadPoolShutDown && !keepAliveServiceCreated && !keepAliveBroadcasting
    {
      keepAliveRequestType := requestType;
      keepAliveSchedulingIntervalNanos := intervalNanos;
      activeConnections := map[];
      activeWorkItems := map[];
      threadPoolCreated, threadPoolShutDown := false, false;
      keepAliveServiceCreated, keepAliveBroadcasting := false, false;
      nextTicket := 0;
      calls := [];
    }

    /** Creates the bounded worker pool. */
    method Init()
      requires Valid()
      modifies this`threadPoolCreated, this`threadPoolShutDown
      ensures Valid()
      ensures threadPoolCreated && !threadPoolShutDown
    {
      threadPoolCreated, threadPoolShutDown := true, false;
    }

    /**
     * Starts the periodic keep-alive broadcast when it is enabled. A positive
     * interval below one millisecond passes the enablement test but truncates
     * to a zero period, which scheduleAtFixedRate rejects (ok == false); the
     * service has been created by then.
     */
    method Start() returns (ok: bool)
      requires Valid()
      modifies this`keepAliveServiceCreated, this`keepAliveBroadcasting
      ensures Valid()
      ensures ok <==> !KeepAliveEnabled(keepAliveRequestType, keepAliveSchedulingIntervalNanos)
                      || ToMillis(keepAliveSchedulingIntervalNanos) > 0
      ensures KeepAliveEnabled(keepAliveRequestType, keepAliveSchedulingIntervalNanos) ==>
                keepAliveServiceCreated && keepAliveBroadcasting == ok
      ensures !KeepAliveEnabled(keepAliveRequestType, keepAliveSchedulingIntervalNanos) ==>
                keepAliveServiceCreated == old(keepAliveServiceCreated) && keepAliveBroadcasting == old(keepAliveBroadcasting)
    {
      if !KeepAliveEnabled(keepAliveRequestType, keepAliveSchedulingIntervalNanos) {
        ok := true;
      } else {
        keepAliveServiceCreated := true;
        ok := ToMillis(keepAliveSchedulingIntervalNanos) > 0;
        keepAliveBroadcasting := ok;
      }
    }

    /**
     * One run of the keep-alive task: keepAlive() on the connection of every id
     * that has a work item. An id with a work item but no registered connection
     * makes the task throw a NullPointerException, which ends this run and
     * suppresses every later one.
     */
    method KeepAliveBroadcast() returns (visited: seq<ConnectionId>, completed: bool)
      requires Valid() && keepAliveBroadcasting
      modifies this`calls, this`keepAliveBroadcasting
      ensures Valid()
      ensures completed <==> activeWorkItems.Keys <= activeConnections.Keys
      ensures completed ==> IsEnumeration(visited, activeWorkItems.Keys)
      ensures forall j, k :: 0 <= j < k < |visited| ==> visited[j] != visited[k]
      ensures forall id :: id in visited ==> id in activeWorkItems && id in activeConnections
      ensures calls == old(calls) + KeepAlives(visited)
      ensures keepAliveBroadcasting == completed
    {
      visited, completed, calls := KeepAliveEach(activeWorkItems.Keys, activeConnections, calls);
      keepAliveBroadcasting := completed;
    }

    /** Shuts the keep-alive service down and stops every idle registered connection. */
    method Stop(idle: BoltConnection -> bool) returns (stopped: seq<ConnectionId>)
      requires Valid()
      modifies this`calls, this`keepAliveBroadcasting
      ensures Valid()
      ensures !keepAliveBroadcasting
      ensures IsEnumeration(stopped, IdleIds(activeConnections, idle))
      ensures calls == old(calls) + Stops(stopped)
    {
      if keepAliveServiceCreated {
        keepAliveBroadcasting := false;
      }
      stopped, calls := StopEach(IdleIds(activeConnections, idle), calls);
    }

    /**
     * Stops every registered connection, then shuts the pool down; a pool that
     * does not drain within the wait is reported as a warning, not an error.
     */
    method Shutdown(terminatedCleanly: bool) returns (stopped: seq<ConnectionId>)
      requires Valid()
      modifies this`calls, this`threadPoolShutDown
      ensures Valid()
      ensures IsEnumeration(stopped, activeConnections.Keys)
      ensures threadPoolShutDown == (old(threadPoolShutDown) || threadPoolCreated)
      ensures calls == old(calls) + Stops(stopped) +
                (if !threadPoolCreated then []
                 else [ShutdownThreadPool] + (if terminatedCleanly then [] else [ThreadPoolShutdownTimedOut]))
    {
      stopped, calls := StopEach(activeConnections.Keys, calls);
      if threadPoolCreated {
        threadPoolShutDown := true;
        calls := calls + [ShutdownThreadPool];
        if !terminatedCleanly {
          calls := calls + [ThreadPoolShutdownTimedOut];
        }
      }
    }

    /**
     * Registers a connection under its id. `wasAbsent` is the asserted
     * condition: a second registration of an id replaces the first.
     */
    method Created(connection: BoltConnection) returns (wasAbsent: bool)
      requires Valid()
      modifies this`activeConnections
      ensures Valid()
      ensures wasAbsent <==> connection.id !in old(activeConnections)
      ensures activeConnections == old(activeConnections)[connection.id := connection]
    {
      wasAbsent := connection.id !in activeConnections;
      activeConnections := activeConnections[connection.id := connection];
    }

    /** Cancels and drops the connection's work item, if any, and always deregisters it. */
    method Closed(connection: BoltConnection)
      requires Valid()
      modifies this`activeConnections, this`activeWorkItems, this`calls
      ensures Valid()
      ensures activeWorkItems == old(activeWorkItems) - {connection.id}
      ensures activeConnections == old(activeConnections) - {connection.id}
      ensures calls == old(calls) +
                (if connection.id in old(activeWorkItems)
                 then [CancelWorkItem(connection.id, old(activeWorkItems)[connection.id])] else [])
    {
      var id := connection.id;
      if id in activeWorkItems {
        calls := calls + [CancelWorkItem(id, activeWorkItems[id])];
      }
      activeWorkItems := activeWorkItems - {id};
      activeConnections := activeConnections - {id};
    }

    /** A job was queued on `connection`: submit a batch unless one is in flight. */
    method Enqueued(connection: BoltConnection) returns (threw: bool)
      requires Valid()
      modifies this`activeWorkItems, this`nextTicket, this`calls
      ensures Valid()
      ensures threw <==> connection.id !in old(activeWorkItems) && !threadPoolCreated
      ensures SubmittedFrom(old(activeWorkItems), old(nextTicket), old(calls), connection.id)
    {
      threw := HandleSubmission(connection);
    }

    /**
     * Arms the keep-alive timer when the service exists; then, only if `id` has
     * no work item, installs a new one and submits a batch. `threw` is the
     * NullPointerException of a submission to a pool that was never created.
     */
    method HandleSubmission(connection: BoltConnection) returns (threw: bool)
      requires Valid()
      modifies this`activeWorkItems, this`nextTicket, this`calls
      ensures Valid()
      ensures threw <==> connection.id !in old(activeWorkItems) && !threadPoolCreated
      ensures SubmittedFrom(old(activeWorkItems), old(nextTicket), old(calls), connection.id)
    {
      var id := connection.id;
      if keepAliveServiceCreated {
        calls := calls + [InitKeepAliveTimer(id)];
      }
      threw := false;
      if id !in activeWorkItems {
        if !threadPoolCreated {
          threw := true;
          return;
        }
        var item := WorkItem(nextTicket);
        nextTicket := nextTicket + 1;
        activeWorkItems := activeWorkItems[id := item];
        calls := calls + [SubmitBatch(id, item)];
      }
    }

    /**
     * The completion handler of a batch. A rejection goes to the connection's
     * handleSchedulingError and only then is the work item removed; nothing
     * else follows. Any other error removes the work item and stops the
     * connection. A result removes the work item and resubmits only when the
     * batch asks to continue and the connection still has pending jobs.
     */
    method HandleCompletion(connection: BoltConnection, completion: BatchCompletion, hasPendingJobs: bool)
      returns (threw: bool)
      requires Valid()
      modifies this`activeWorkItems, this`nextTicket, this`calls
      ensures Valid()
      ensures completion.CompletedExceptionally? && HasRejectionCause(completion.causeChain) ==>
                && activeWorkItems == old(activeWorkItems) - {connection.id}
                && nextTicket == old(nextTicket)
                && calls == old(calls) + [HandleSchedulingError(connection.id)]
                && !threw
      ensures completion.CompletedExceptionally? && !HasRejectionCause(completion.causeChain) ==>
                && activeWorkItems == old(activeWorkItems) - {connection.id}
                && nextTicket == old(nextTicket)
                && calls == old(calls) + [StopConnection(connection.id)]
                && !threw
      ensures completion.Completed? && !(completion.shouldContinueScheduling && hasPendingJobs) ==>
                && activeWorkItems == old(activeWorkItems) - {connection.id}
                && nextTicket == old(nextTicket)
                && calls == old(calls)
                && !threw
      ensures completion.Completed? && completion.shouldContinueScheduling && hasPendingJobs ==>
                && SubmittedFrom(old(activeWorkItems) - {connection.id}, old(nextTicket), old(calls), connection.id)
                && (threw <==> !threadPoolCreated)
    {
      var id := connection.id;
      threw := false;
      if completion.CompletedExceptionally? && HasRejectionCause(completion.causeChain) {
        calls := calls + [HandleSchedulingError(id)];
        activeWorkItems := activeWorkItems - {id};
        return;
      }
      activeWorkItems := activeWorkItems - {id};
      if completion.CompletedExceptionally? {
        // The error is logged and the connection stopped; stop() errors are swallowed.
        calls := calls + [StopConnection(id)];
      } else if completion.shouldContinueScheduling && hasPendingJobs {
        threw := HandleSubmission(connection);
      }
    }

    /**
     * A burst of enqueued jobs on a connection, none of whose batches has
     * completed yet, submits at most one batch: exactly one if the connection
     * had no work item and the pool exists, none otherwise.
     */
    method EnqueueBurst(connection: BoltConnection, jobs: nat)
      requires Valid()
      modifies this`activeWorkItems, this`nextTicket, this`calls
      ensures Valid()
      ensures |old(calls)| <= |calls|
      ensures SubmissionCount(calls[|old(calls)|..], connection.id) ==
                if jobs > 0 && connection.id !in old(activeWorkItems) && threadPoolCreated then 1 else 0
      ensures jobs > 0 && threadPoolCreated ==> connection.id in activeWorkItems
    {
      var n := 0;
      ghost var added: seq<Call> := [];
      while n < jobs
        invariant 0 <= n <= jobs
        invariant Valid()
        invariant calls == old(calls) + added
        invariant SubmissionCount(added, connection.id) ==
                    if n > 0 && connection.id !in old(activeWorkItems) && threadPoolCreated then 1 else 0
        invariant n > 0 && threadPoolCreated ==> connection.id in activeWorkItems
        invariant n == 0 ==> activeWorkItems == old(activeWorkItems)
      {
        ghost var items, ticket, before := activeWorkItems, nextTicket, calls;
        var _ := Enqueued(connection);
        ghost var timer := if keepAliveServiceCreated then [InitKeepAliveTimer(connection.id)] else [];
        ghost var submit := if connection.id in items || !threadPoolCreated then []
                            else [SubmitBatch(connection.id, WorkItem(ticket))];
        assert calls == before + timer + submit;
        SubmissionCountStep(added, timer, submit, connection.id);
        added := added + timer + submit;
        n := n + 1;
      }
      assert calls[|old(calls)|..] == added;
    }
  }
}
