/** The connectivity state shared by all wrappers and calls of one transport. */
module Connectivity {
  import opened Base
  import opened Deadline
  import opened StreamProtocol
  import opened Unary

  const CHANNEL_IDLE := 0
  const CHANNEL_CONNECTING := 1
  const CHANNEL_READY := 2
  const CHANNEL_TRANSIENT_FAILURE := 3

  /** The state, the connect probes started, and those still running. */
  datatype Conn = Conn(state: int, spawned: nat, running: nat)

  const NEW_CONN := Conn(CHANNEL_IDLE, 0, 0)

  /** What changes the shared state: queries, finished probes, and outcomes of calls. */
  datatype Change =
    | Query(tryToConnect: bool)
    | ProbeDone(connected: bool)
    | UnaryDone(result: Result<CallResult, CallError>)
    | StreamResponded(response: Response)

  predicate Possible(c: Conn, e: Change) {
    e.ProbeDone? ==> c.running > 0
  }

  function AfterUnary(result: Result<CallResult, CallError>): int {
    match result
    case Ok(r) => if r.code == UNAVAILABLE then CHANNEL_TRANSIENT_FAILURE else CHANNEL_READY
    case Err(_) => CHANNEL_TRANSIENT_FAILURE
  }

  function AfterResponse(response: Response): int {
    match response
    case Refused(status) => if status.code == UNAVAILABLE then CHANNEL_TRANSIENT_FAILURE else CHANNEL_READY
    case Accepted(_, _, _) => CHANNEL_READY
  }

  function Changed(c: Conn, e: Change): Conn {
    match e
    case Query(tryToConnect) =>
      if tryToConnect && c.state == CHANNEL_IDLE then
        Conn(CHANNEL_CONNECTING, c.spawned + 1, c.running + 1)
      else c
    case ProbeDone(connected) =>
      Conn(if connected then CHANNEL_READY else CHANNEL_TRANSIENT_FAILURE, c.spawned,
           if c.running > 0 then c.running - 1 else 0)
    case UnaryDone(result) => c.(state := AfterUnary(result))
    case StreamResponded(response) => c.(state := AfterResponse(response))
  }

  /** The shared transport object. */
  class SharedChannel {
    var state: int
    ghost var spawned: nat
    ghost var running: nat

    ghost function View(): Conn
      reads this
    {
      Conn(state, spawned, running)
    }

    constructor ()
      ensures View() == NEW_CONN
    {
      state, spawned, running := CHANNEL_IDLE, 0, 0;
    }

    /** `getConnectivityState`: report the state as it was; an idle channel asked to connect starts a probe. */
    method GetConnectivityState(tryToConnect: bool) returns (current: int)
      modifies this
      ensures current == old(state) && View() == Changed(old(View()), Query(tryToConnect))
    {
      current := state;
      if tryToConnect && current == CHANNEL_IDLE {
        state := CHANNEL_CONNECTING;
        spawned, running := spawned + 1, running + 1;
      }
    }

    method FinishProbe(connected: bool)
      requires running > 0
      modifies this
      ensures View() == Changed(old(View()), ProbeDone(connected))
    {
      state := if connected then CHANNEL_READY else CHANNEL_TRANSIENT_FAILURE;
      running := running - 1;
    }

    method RecordUnary(result: Result<CallResult, CallError>)
      modifies this`state
      ensures View() == Changed(old(View()), UnaryDone(result))
    {
      match result
      case Ok(r) => state := if r.code == UNAVAILABLE then CHANNEL_TRANSIENT_FAILURE else CHANNEL_READY;
      case Err(_) => state := CHANNEL_TRANSIENT_FAILURE;
    }

    method RecordResponse(response: Response)
      modifies this`state
      ensures View() == Changed(old(View()), StreamResponded(response))
    {
      state := CHANNEL_READY;
      if response.Refused? && response.status.code == UNAVAILABLE {
        state := CHANNEL_TRANSIENT_FAILURE;
      }
    }
  }

  /** The pause between two polls: at most ten milliseconds, and never past the deadline. */
  function WaitFor(deadline: I64, now: int): (wait: int)
    requires 0 <= now < deadline
    ensures 1 <= wait <= 10_000 && now + wait <= deadline
  {
    var left := SaturatingSub(deadline, now);
    if left < 1 then 1 else if left > 10_000 then 10_000 else left
  }

  /** `watchConnectivityState`: poll until the state differs or the deadline is reached. */
  method WatchConnectivityState(last: int, deadline: I64, start: Clock, observed: nat -> int, late: nat -> nat)
    returns (changed: bool, polls: nat, now: int)
    ensures changed ==> observed(polls) != last
    ensures !changed ==> now >= deadline && observed(polls) == last
    ensures forall k :: 0 <= k < polls ==> observed(k) == last
    ensures now >= start + polls
    ensures (forall k :: late(k) == 0) ==> now <= Max(start, deadline)
  {
    polls, now := 0, start;
    while true
      invariant forall k :: 0 <= k < polls ==> observed(k) == last
      invariant now >= start + polls
      invariant (forall k :: late(k) == 0) ==> now <= Max(start, deadline)
      decreases deadline - now
    {
      if observed(polls) != last {
        return true, polls, now;
      }
      if now >= deadline {
        return false, polls, now;
      }
      var wait := WaitFor(deadline, now);
      now := now + wait + late(polls);
      polls := polls + 1;
    }
  }

  predicate PossibleAll(c: Conn, es: seq<Change>)
    decreases |es|
  {
    es == [] || (Possible(c, es[0]) && PossibleAll(Changed(c, es[0]), es[1..]))
  }

  function ChangedAll(c: Conn, es: seq<Change>): Conn
    decreases |es|
  {
    if es == [] then c else ChangedAll(Changed(c, es[0]), es[1..])
  }

  predicate ConnOk(c: Conn) {
    && CHANNEL_IDLE <= c.state <= CHANNEL_TRANSIENT_FAILURE
    && c.running <= c.spawned <= 1
    && (c.state == CHANNEL_IDLE ==> c.spawned == 0)
  }

  /** Over every interleaving: a legal state, at most one probe ever, and IDLE never comes back. */
  lemma {:induction false} ConnectivityRuns(c: Conn, es: seq<Change>)
    requires ConnOk(c) && PossibleAll(c, es)
    ensures ConnOk(ChangedAll(c, es))
    ensures c.state != CHANNEL_IDLE ==> ChangedAll(c, es).state != CHANNEL_IDLE
    decreases |es|
  {
    if es != [] {
      ConnectivityRuns(Changed(c, es[0]), es[1..]);
    }
  }

  /** News that a connection works: a finished probe, or any call that was not told UNAVAILABLE. */
  predicate GoodNews(e: Change) {
    match e
    case Query(_) => false
    case ProbeDone(connected) => connected
    case UnaryDone(result) => result.Ok? && result.value.code != 14
    case StreamResponded(response) => !(response.Refused? && response.status.code == 14)
  }

  lemma {:induction false} QueriesOnly(c: Conn, es: seq<Change>)
    requires forall i :: 0 <= i < |es| ==> es[i].Query?
    ensures ChangedAll(c, es).state == if c.state == 0 && Query(true) in es then 1 else c.state
    decreases |es|
  {
    if es != [] {
      QueriesOnly(Changed(c, es[0]), es[1..]);
      assert es == [es[0]] + es[1..];
    }
  }

  /**
   * The state after every run: READY or TRANSIENT_FAILURE by the last news, good or bad, whatever was
   * asked since; without any news CONNECTING once an idle channel was asked to connect, and else as before.
   */
  lemma {:induction false} LastNewsDecides(c: Conn, es: seq<Change>, k: nat)
    requires k < |es| && !es[k].Query? && forall i :: k < i < |es| ==> es[i].Query?
    ensures ChangedAll(c, es).state == if GoodNews(es[k]) then 2 else 3
    decreases k
  {
    if k > 0 {
      LastNewsDecides(Changed(c, es[0]), es[1..], k - 1);
    } else {
      assert forall i :: 0 <= i < |es[1..]| ==> es[1..][i].Query?;
      QueriesOnly(Changed(c, es[0]), es[1..]);
    }
  }
}
