/**
 * A PHP process: channel objects, the calls made on them, and everything that happens
 * to either, interleaved. A call keeps the closed flag of the one channel object it
 * was made from.
 */
module Session {
  import opened Base
  import opened Deadline
  import opened CallMachine
  import opened CallInvariant
  import opened Registry

  datatype Bound = Bound(wrapper: nat, call: Call)

  datatype Session = Session(world: World, calls: seq<Bound>)

  datatype Move =
    | Channel(step: Step)
    | MakeCall(wrapper: nat, deadline: I64, pathValid: bool, now: Clock)
    | OnCall(k: nat, act: Act)

  predicate SessionOk(s: Session) {
    forall k :: 0 <= k < |s.calls| ==> s.calls[k].wrapper < |s.world.wrappers|
  }

  predicate IsOpen(s: Session, i: nat) {
    i < |s.world.wrappers| && s.world.wrappers[i].open
  }

  predicate MoveOk(s: Session, m: Move) {
    match m
    case Channel(step) => StepOk(s.world, step)
    case MakeCall(_, _, _, _) => true
    case OnCall(k, act) =>
      && k < |s.calls|
      && ActOk(s.calls[k].call, act)
      && (act.Submit? ==> act.env.channelClosed == !IsOpen(s, s.calls[k].wrapper))
  }

  /** A call is refused by a closed channel. */
  function Moved(s: Session, m: Move): Session
    requires MoveOk(s, m)
  {
    match m
    case Channel(step) => s.(world := Stepped(s.world, step))
    case MakeCall(i, deadline, pathValid, now) =>
      if IsOpen(s, i) then s.(calls := s.calls + [Bound(i, NewCall(deadline, pathValid, now))]) else s
    case OnCall(k, act) => s.(calls := s.calls[k := s.calls[k].(call := Perform(s.calls[k].call, act))])
  }

  predicate ValidMoves(s: Session, moves: seq<Move>)
    decreases |moves|
  {
    moves == [] || (MoveOk(s, moves[0]) && ValidMoves(Moved(s, moves[0]), moves[1..]))
  }

  function MovedAll(s: Session, moves: seq<Move>): Session
    requires ValidMoves(s, moves)
    decreases |moves|
  {
    if moves == [] then s else MovedAll(Moved(s, moves[0]), moves[1..])
  }

  // ---- channel objects ----

  /** A step opens no existing wrapper and closes only the one it names. */
  lemma StepKeepsOpen(w: World, step: Step, i: nat)
    requires i < |w.wrappers|
    ensures |w.wrappers| <= |Stepped(w, step).wrappers|
    ensures Stepped(w, step).wrappers[i].open <==> w.wrappers[i].open && step != CloseChannel(i)
    ensures Stepped(w, step).wrappers[i] == w.wrappers[i].(open := Stepped(w, step).wrappers[i].open)
  {
  }

  lemma {:induction false} OpenUntilClosed(s: Session, moves: seq<Move>, i: nat)
    requires ValidMoves(s, moves) && i < |s.world.wrappers|
    ensures i < |MovedAll(s, moves).world.wrappers|
    ensures IsOpen(MovedAll(s, moves), i) <==> IsOpen(s, i) && Channel(CloseChannel(i)) !in moves
    ensures MovedAll(s, moves).world.wrappers[i].transport == s.world.wrappers[i].transport
    decreases |moves|
  {
    if moves != [] {
      var s' := Moved(s, moves[0]);
      if moves[0].Channel? {
        StepKeepsOpen(s.world, moves[0].step, i);
      }
      OpenUntilClosed(s', moves[1..], i);
      assert moves == [moves[0]] + moves[1..];
    }
  }

  // ---- calls ----

  lemma MoveKeepsCalls(s: Session, m: Move, k: nat)
    requires SessionOk(s) && MoveOk(s, m) && k < |s.calls|
    ensures SessionOk(Moved(s, m))
    ensures k < |Moved(s, m).calls| && Moved(s, m).calls[k].wrapper == s.calls[k].wrapper
    ensures Moved(s, m).calls[k].call ==
            if m.OnCall? && m.k == k then Perform(s.calls[k].call, m.act) else s.calls[k].call
  {
    var s' := Moved(s, m);
    forall j | 0 <= j < |s'.calls| ensures s'.calls[j].wrapper < |s'.world.wrappers| {
      if m.Channel? {
        StepKeepsOpen(s.world, m.step, s.calls[j].wrapper);
      }
    }
  }

  /** The acts of one call in a run of the session. */
  function ActsOf(k: nat, moves: seq<Move>): seq<Act> {
    if moves == [] then []
    else (if moves[0].OnCall? && moves[0].k == k then [moves[0].act] else []) + ActsOf(k, moves[1..])
  }

  /** Calls do not disturb each other: each one makes exactly the run of its own acts. */
  lemma {:induction false} CallsAreIndependent(s: Session, moves: seq<Move>, k: nat)
    requires SessionOk(s) && ValidMoves(s, moves) && k < |s.calls|
    ensures var end := MovedAll(s, moves);
            && SessionOk(end) && k < |end.calls| && end.calls[k].wrapper == s.calls[k].wrapper
            && ValidActs(s.calls[k].call, ActsOf(k, moves))
            && end.calls[k].call == PerformAll(s.calls[k].call, ActsOf(k, moves))
    decreases |moves|
  {
    if moves != [] {
      MoveKeepsCalls(s, moves[0], k);
      CallsAreIndependent(Moved(s, moves[0]), moves[1..], k);
      if moves[0].OnCall? && moves[0].k == k {
        assert ActsOf(k, moves)[1..] == ActsOf(k, moves[1..]);
      } else {
        assert ActsOf(k, moves) == ActsOf(k, moves[1..]);
      }
    }
  }

  /** No dispatched batch says its channel is closed. */
  lemma DispatchIsNotRefused(call: Call, b: Batch, env: Env)
    requires EnvOk(call, b, env)
    ensures Dispatch(call, b, env).result != Err(ChannelClosed)
  {
    if RouteOf(call, b).Lazy? {
      LazyForm(call, b, env);
    }
  }

  lemma RefusedIffFlag(call: Call, b: Batch, env: Env)
    requires ActOk(call, Submit(b, env))
    ensures StartBatch(call, b, env).result == Err(ChannelClosed) <==> env.channelClosed
    ensures env.channelClosed ==> StartBatch(call, b, env).call == call
  {
    if Dispatches(call, b, env) {
      DispatchIsNotRefused(Mark(call, b), b, env);
    }
  }

  /**
   * A batch on a call is refused because of its channel exactly when the channel object the
   * call was made from has been closed, whatever happened meanwhile to other channel objects
   * on the same transport and to their calls.
   */
  lemma RefusedExactlyWhenClosed(s: Session, moves: seq<Move>, k: nat, b: Batch, env: Env)
    requires SessionOk(s) && ValidMoves(s, moves) && k < |s.calls| && IsOpen(s, s.calls[k].wrapper)
    requires MoveOk(MovedAll(s, moves), OnCall(k, Submit(b, env)))
    ensures k < |MovedAll(s, moves).calls|
    ensures StartBatch(MovedAll(s, moves).calls[k].call, b, env).result == Err(ChannelClosed) <==>
            Channel(CloseChannel(s.calls[k].wrapper)) in moves
  {
    CallsAreIndependent(s, moves, k);
    OpenUntilClosed(s, moves, s.calls[k].wrapper);
    RefusedIffFlag(MovedAll(s, moves).calls[k].call, b, env);
  }

  /** Once its channel object is closed no batch of any later run changes what a call has sent or reported. */
  lemma {:induction false} ClosedForGood(s: Session, moves: seq<Move>, k: nat)
    requires SessionOk(s) && ValidMoves(s, moves) && k < |s.calls| && !IsOpen(s, s.calls[k].wrapper)
    ensures var end := MovedAll(s, moves);
            && k < |end.calls| && end.calls[k].wrapper == s.calls[k].wrapper && !IsOpen(end, s.calls[k].wrapper)
            && end.calls[k].call.history == s.calls[k].call.history
    decreases |moves|
  {
    if moves != [] {
      var m := moves[0];
      MoveKeepsCalls(s, m, k);
      if m.Channel? {
        StepKeepsOpen(s.world, m.step, s.calls[k].wrapper);
      } else if m.OnCall? && m.k == k && m.act.Submit? {
        RefusedIffFlag(s.calls[k].call, m.act.batch, m.act.env);
      }
      ClosedForGood(Moved(s, m), moves[1..], k);
    }
  }

  /** A call can be made on a channel object exactly as long as it was not closed, and is then new and bound to it. */
  lemma CallsNeedTheirChannel(s: Session, moves: seq<Move>, i: nat, deadline: I64, pathValid: bool, now: Clock)
    requires ValidMoves(s, moves) && IsOpen(s, i)
    ensures var end := MovedAll(s, moves);
            var calls := Moved(end, MakeCall(i, deadline, pathValid, now)).calls;
            calls == if Channel(CloseChannel(i)) in moves then end.calls
                     else end.calls + [Bound(i, NewCall(deadline, pathValid, now))]
  {
    OpenUntilClosed(s, moves, i);
  }

  /** A new call takes any batch, has nothing buffered, and is not half-closed. */
  lemma NewCallIsReady(deadline: I64, pathValid: bool, now: Clock, b: Batch, env: Env)
    ensures var call := NewCall(deadline, pathValid, now);
            && (!env.channelClosed ==> Refusal(call, b, env).None?)
            && Buffers(call) == ([], None) && call.stream.None? && !call.sendClosed
            && call.deadline == deadline && call.pathValid == pathValid && call.clock == now
  {
  }

  /** Closing one channel object leaves every other one on its transport usable. */
  lemma SharersStayOpen(s: Session, moves: seq<Move>, i: nat, j: nat)
    requires ValidMoves(s, moves) && i < |s.world.wrappers| && j < |s.world.wrappers|
    requires s.world.wrappers[i].transport == s.world.wrappers[j].transport
    requires IsOpen(s, j) && Channel(CloseChannel(i)) in moves && Channel(CloseChannel(j)) !in moves
    ensures var end := MovedAll(s, moves);
            && !IsOpen(end, i) && IsOpen(end, j) && i < |end.world.wrappers|
            && end.world.wrappers[i].transport == end.world.wrappers[j].transport
  {
    OpenUntilClosed(s, moves, i);
    OpenUntilClosed(s, moves, j);
  }
}
