/**
 * The FAILED state of the Bolt v4 protocol state machine.
 *
 * A connection enters FAILED after a recoverable error. While FAILED, the
 * messages that start or continue a query are IGNORED; an interrupt moves the
 * connection to the state recorded with SetInterruptedState; any other message
 * has no next state, which the state machine treats as fatal.
 */
module BoltV4Runtime {
  import opened Wrappers

  /** The request messages (and the interrupt signal) a Bolt v4 state can be given. */
  datatype RequestMessage =
    | Hello
    | Begin
    | Run
    | Pull
    | Discard
    | Commit
    | Rollback
    | Reset
    | Goodbye
    | InterruptSignal

  /** The states of the Bolt state machine; FAILED is the one modelled here. */
  datatype BoltStateMachineState = Ready | Streaming | InTransaction | Failed | Interrupted | Closed

  /** What `process` produces: a next state, no state (the Java null: fatal), or the
      IllegalStateException of a failed precondition check. */
  datatype Outcome = NextState(state: BoltStateMachineState) | NoNextState | IllegalState(message: string)

  /** The outcome of one `process` call together with whether it marked the connection ignored. */
  datatype Transition = Transition(outcome: Outcome, marksIgnored: bool)

  const NotInitializedMessage: string := "Interrupted state not set"

  /** The messages FAILED ignores. */
  predicate ShouldIgnore(message: RequestMessage)
    ensures ShouldIgnore(message) <==>
      !(message.Hello? || message.Begin? || message.Reset? || message.Goodbye? || message.InterruptSignal?)
  {
    message.Run? || message.Pull? || message.Discard? || message.Commit? || message.Rollback?
  }

  /**
   * The decision `process` takes, given the recorded interrupted state (None
   * when it was never set, or set to null) and the message.
   */
  function ProcessTransition(interruptedState: Option<BoltStateMachineState>, message: RequestMessage): (r: Transition)
    // Without a recorded interrupted state every message fails the precondition check.
    ensures interruptedState.None? <==> r.outcome.IllegalState?
    ensures r.outcome.IllegalState? ==> r.outcome.message == NotInitializedMessage && !r.marksIgnored
    // The connection is marked ignored exactly for the five ignorable messages.
    ensures r.marksIgnored <==> interruptedState.Some? && ShouldIgnore(message)
    ensures r.marksIgnored ==> r.outcome == NextState(Failed)
    // An interrupt returns the recorded state, without marking anything ignored.
    ensures interruptedState.Some? && message.InterruptSignal? ==>
      r == Transition(NextState(interruptedState.value), false)
    // Everything else has no next state.
    ensures interruptedState.Some? && !ShouldIgnore(message) && !message.InterruptSignal? ==>
      r == Transition(NoNextState, false)
    // Only an interrupt can take the connection out of FAILED.
    ensures r.outcome.NextState? && r.outcome.state != Failed ==> message.InterruptSignal?
  {
    if interruptedState.None? then
      Transition(IllegalState(NotInitializedMessage), false)
    else if ShouldIgnore(message) then
      Transition(NextState(Failed), true)
    else if message.InterruptSignal? then
      Transition(NextState(interruptedState.value), false)
    else
      Transition(NoNextState, false)
  }

  /** The part of the connection state that FAILED touches. */
  class MutableConnectionState {
    var ignored: bool

    constructor()
      ensures !ignored
    {
      ignored := false;
    }

    method MarkIgnored()
      modifies this
      ensures ignored
    {
      ignored := true;
    }
  }

  class FailedState {
    /** None models the null the field holds until it is set. */
    var interruptedState: Option<BoltStateMachineState>

    constructor()
      ensures interruptedState == None
    {
      interruptedState := None;
    }

    method SetInterruptedState(state: Option<BoltStateMachineState>)
      modifies this
      ensures interruptedState == state
    {
      interruptedState := state;
    }

    /** The precondition check: returns the IllegalStateException's message when it fails. */
    method AssertInitialized() returns (failure: Option<string>)
      ensures failure.Some? <==> interruptedState.None?
      ensures failure.Some? ==> failure.value == NotInitializedMessage
    {
      if interruptedState.None? {
        return Some(NotInitializedMessage);
      }
      return None;
    }

    method Process(message: RequestMessage, connectionState: MutableConnectionState) returns (next: Outcome)
      modifies connectionState
      ensures next == ProcessTransition(interruptedState, message).outcome
      ensures connectionState.ignored == (old(connectionState.ignored) || ProcessTransition(interruptedState, message).marksIgnored)
    {
      var failure := AssertInitialized();
      if failure.Some? {
        return IllegalState(failure.value);
      }
      if ShouldIgnore(message) {
        connectionState.MarkIgnored();
        return NextState(Failed);
      }
      if message.InterruptSignal? {
        return NextState(interruptedState.value);
      }
      return NoNextState;
    }
  }

  /**
   * Setting the interrupted state twice and then interrupting returns the state
   * set last, and leaves the connection's ignored flag as it was.
   */
  method InterruptReturnsLatestState(
    failed: FailedState, connectionState: MutableConnectionState,
    first: BoltStateMachineState, latest: BoltStateMachineState)
    returns (next: Outcome)
    modifies failed, connectionState
    ensures next == NextState(latest)
    ensures connectionState.ignored == old(connectionState.ignored)
  {
    failed.SetInterruptedState(Some(first));
    failed.SetInterruptedState(Some(latest));
    next := failed.Process(InterruptSignal, connectionState);
  }

  /** A fresh FAILED state refuses every message until the interrupted state is set. */
  method UninitializedFailedStateFaults(message: RequestMessage) returns (next: Outcome, ignored: bool)
    ensures next == IllegalState(NotInitializedMessage)
    ensures !ignored
  {
    var failed := new FailedState();
    var connectionState := new MutableConnectionState();
    next := failed.Process(message, connectionState);
    ignored := connectionState.ignored;
  }
}
