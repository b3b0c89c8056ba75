/** What holds of a call over every run of batches, background progress and cancels. */
module CallTheorems {
  import opened Base
  import opened Deadline
  import opened RequestStream
  import opened StreamProtocol
  import opened StreamInvariant
  import opened StreamTheorems
  import opened Unary
  import opened CallMachine
  import opened CallInvariant

  predicate IsNew(call: Call) {
    call == NewCall(call.deadline, call.pathValid, call.clock)
  }

  lemma {:induction false} ActsThenActs(call: Call, acts: seq<Act>, more: seq<Act>)
    requires ValidActs(call, acts) && ValidActs(PerformAll(call, acts), more)
    ensures ValidActs(call, acts + more)
    ensures PerformAll(call, acts + more) == PerformAll(PerformAll(call, acts), more)
    decreases |acts|
  {
    if acts == [] {
      assert acts + more == more;
    } else {
      assert (acts + more)[1..] == acts[1..] + more;
      ActsThenActs(Perform(call, acts[0]), acts[1..], more);
    }
  }

  // ---- requests on the wire ----

  function StreamRequests(call: Call): nat {
    if call.stream.Some? && call.stream.value.state.link.requested then 1 else 0
  }

  /** Requests of this call that reached the wire. */
  function Requests(call: Call): nat {
    Reached(call.history.attempts, true) + Reached(call.history.attempts, false) + StreamRequests(call)
  }

  /** A receive without a stream asks for the status, or the sending side is already closed. */
  predicate Disciplined(call: Call, a: Act) {
    a.Submit? && Dispatches(call, a.batch, a.env) && a.batch.Receives() && call.stream.None? ==>
      a.batch.recv.status || call.sendClosed || a.batch.close
  }

  predicate AllDisciplined(call: Call, acts: seq<Act>)
    requires ValidActs(call, acts)
    decreases |acts|
  {
    acts == [] || (Disciplined(call, acts[0]) && AllDisciplined(Perform(call, acts[0]), acts[1..]))
  }

  lemma LooseFramed(call: Call, b: Batch, env: Env, o: BatchOutcome)
    requires Framed(call, b, env, o)
    ensures Reached(call.history.attempts, true) <= Reached(Settle(b, o).call.history.attempts, true)
    ensures b.recv.status || call.sendClosed || !RouteOf(call, b).OneShot? ==>
              Reached(Settle(b, o).call.history.attempts, true) == Reached(call.history.attempts, true)
  {
    var before, after := call.history.attempts, o.call.history.attempts;
    if after != before {
      ReachedAppend(before, after[|before|], true);
    }
  }

  /** Only an undisciplined receive adds a loose request. */
  lemma LooseStep(call: Call, a: Act)
    requires ActOk(call, a)
    ensures var before, after := call.history.attempts, Perform(call, a).history.attempts;
            && Reached(before, true) <= Reached(after, true)
            && (Disciplined(call, a) ==> Reached(after, true) == Reached(before, true))
  {
    if a.Submit? && Dispatches(call, a.batch, a.env) {
      var marked := Mark(call, a.batch);
      DispatchFrame(marked, a.batch, a.env);
      LooseFramed(marked, a.batch, a.env, Dispatch(marked, a.batch, a.env));
    }
  }

  lemma {:induction false} NoLooseRequests(call: Call, acts: seq<Act>)
    requires ValidActs(call, acts) && AllDisciplined(call, acts)
    ensures Reached(PerformAll(call, acts).history.attempts, true) == Reached(call.history.attempts, true)
    decreases |acts|
  {
    if acts != [] {
      LooseStep(call, acts[0]);
      NoLooseRequests(Perform(call, acts[0]), acts[1..]);
    }
  }

  /**
   * At most one request of a call reaches the wire if its receives are
   * disciplined; in general every further one is a loose one-batch call.
   */
  lemma AtMostOneRequest(call: Call, acts: seq<Act>)
    requires IsNew(call) && ValidActs(call, acts)
    ensures var after := PerformAll(call, acts);
            && Requests(after) <= 1 + Reached(after.history.attempts, true)
            && (AllDisciplined(call, acts) ==> Requests(after) <= 1)
  {
    RunOk(call, acts);
    if AllDisciplined(call, acts) {
      NoLooseRequests(call, acts);
    }
  }

  /** A receive of the next message alone, before any half-close. */
  const LOOSE_READ := Batch(None, None, false, RecvOps(false, true, false))

  /** A world without a plugin in which everything happens at once. */
  function Quick(now: Clock, script: Script, schedule: seq<Event>): Env {
    Env(now, false, None, script, Choice(now, false, now, ResponseWins, now, []), [], schedule)
  }

  function Answering(now: Clock): Env {
    Quick(now, Script(Connected, Accepted([], [[]], Complete(None))), [])
  }

  /** Nothing stops a one-batch call on this call object. */
  predicate Fresh(call: Call) {
    && !call.cancelled && !call.finished && !call.sendClosed && call.stream.None?
    && call.pathValid && !RealDeadline(call.deadline)
  }

  lemma LooseReadSends(call: Call)
    requires Fresh(call)
    ensures var act := Submit(LOOSE_READ, Answering(call.clock));
            && ActOk(call, act)
            && Fresh(Perform(call, act))
            && Requests(Perform(call, act)) == Requests(call) + 1
  {
    var next := Perform(call, Submit(LOOSE_READ, Answering(call.clock)));
    var attempt := next.history.attempts[|call.history.attempts|];
    assert next.history.attempts == call.history.attempts + [attempt];
    ReachedAppend(call.history.attempts, attempt, true);
    ReachedAppend(call.history.attempts, attempt, false);
  }

  /** The discipline is needed: loose reads send a request each, any number of them. */
  lemma {:induction false} LooseReadsRepeat(call: Call, k: nat) returns (acts: seq<Act>)
    requires Fresh(call)
    ensures ValidActs(call, acts) && |acts| == k
    ensures Requests(PerformAll(call, acts)) == Requests(call) + k
    decreases k
  {
    if k == 0 {
      acts := [];
    } else {
      LooseReadSends(call);
      var act := Submit(LOOSE_READ, Answering(call.clock));
      var rest := LooseReadsRepeat(Perform(call, act), k - 1);
      acts := [act] + rest;
      assert acts[1..] == rest;
    }
  }

  /** A call whose deadline has passed never puts a request on the wire. */
  predicate Unsent(call: Call) {
    && AlreadyExpired(call.deadline, call.clock)
    && Reached(call.history.attempts, true) == 0
    && Reached(call.history.attempts, false) == 0
    && (call.stream.Some? ==> Expired(call.stream.value.config))
  }

  /** A one-batch call entered after the deadline sends no request. */
  lemma ExpiredAttempts(call: Call, b: Batch, env: Env, after: seq<Attempt>)
    requires AlreadyExpired(call.deadline, env.now) && SameAttempts(call, b, env, after)
    requires RouteOf(call, b).OneShot? ==> env.choice.entry == env.now
    ensures forall loose :: Reached(after, loose) == Reached(call.history.attempts, loose)
  {
    var before := call.history.attempts;
    if after != before {
      ReachedAppend(before, after[|before|], true);
      ReachedAppend(before, after[|before|], false);
    }
  }

  lemma ExpiredFramed(call: Call, b: Batch, env: Env, o: BatchOutcome)
    requires Unsent(call) && call.clock <= env.now && Framed(call, b, env, o)
    requires RouteOf(call, b).OneShot? ==> env.choice.entry == env.now
    ensures Unsent(Settle(b, o).call)
  {
    ExpiredAttempts(call, b, env, o.call.history.attempts);
  }

  lemma ExpiredStep(call: Call, a: Act)
    requires Unsent(call) && ActOk(call, a)
    ensures Unsent(Perform(call, a))
  {
    if a.Submit? && Dispatches(call, a.batch, a.env) {
      var marked := Mark(call, a.batch);
      DispatchFrame(marked, a.batch, a.env);
      ExpiredFramed(marked, a.batch, a.env, Dispatch(marked, a.batch, a.env));
    }
  }

  lemma {:induction false} ExpiredSendsNothing(call: Call, acts: seq<Act>)
    requires CallInv(call) && Unsent(call) && ValidActs(call, acts)
    ensures Unsent(PerformAll(call, acts)) && Requests(PerformAll(call, acts)) == 0
    decreases |acts|
  {
    if acts == [] {
      if call.stream.Some? {
        ReachableInv(call.stream.value.config, call.stream.value.state);
      }
    } else {
      ExpiredStep(call, acts[0]);
      PerformOk(call, acts[0]);
      ExpiredSendsNothing(Perform(call, acts[0]), acts[1..]);
    }
  }

  // ---- what never goes back ----

  /** Streams, half-closes, statuses and initial metadata are final. */
  predicate Evolves(before: Call, after: Call) {
    && after.clock >= before.clock
    && (before.stream.Some? ==> StreamKept(before.stream.value, after.stream))
    && (before.stream.Some? && !before.stream.value.pipe.open ==> after.history.accepted == before.history.accepted)
    && (before.history.initial.Some? ==> after.history.initial == before.history.initial)
    && (before.finished ==>
          && after.finished && after.history.statuses == before.history.statuses
          && after.history.accepted == before.history.accepted && after.history.attempts == before.history.attempts)
    && (before.history.failed ==> after.history.failed)
    && (before.cancelled ==> after.cancelled && after.history == before.history)
  }

  lemma BetweenEvolves(call: Call, a: Act)
    requires ActOk(call, a) && !a.Submit?
    ensures Evolves(call, Perform(call, a))
  {
  }

  lemma EvolvesStep(call: Call, a: Act)
    requires FlagsOk(call) && ActOk(call, a)
    ensures Evolves(call, Perform(call, a))
  {
    if !a.Submit? {
      BetweenEvolves(call, a);
    } else if Dispatches(call, a.batch, a.env) {
      var marked := Mark(call, a.batch);
      DispatchFrame(marked, a.batch, a.env);
      EvolvesFramed(call, a.batch, a.env, Dispatch(marked, a.batch, a.env));
    }
  }

  lemma EvolvesOn(c0: Call, c1: Call, c2: Call)
    requires Evolves(c0, c1) && Evolves(c1, c2)
    ensures Evolves(c0, c2)
  {
  }

  lemma EvolvesFramed(call: Call, b: Batch, env: Env, o: BatchOutcome)
    requires FlagsOk(call) && Dispatches(call, b, env) && call.clock <= env.now
    requires Framed(Mark(call, b), b, env, o)
    ensures Evolves(call, Settle(b, o).call)
  {
  }

  /** Over every run: the stream is never dropped, nothing is sent after its half-close, a status is the last word. */
  lemma {:induction false} RunEvolves(call: Call, acts: seq<Act>)
    requires CallInv(call) && ValidActs(call, acts)
    ensures Evolves(call, PerformAll(call, acts))
    decreases |acts|
  {
    if acts != [] {
      EvolvesStep(call, acts[0]);
      PerformOk(call, acts[0]);
      RunEvolves(Perform(call, acts[0]), acts[1..]);
      EvolvesOn(call, Perform(call, acts[0]), PerformAll(call, acts));
    }
  }

  // ---- after every successful batch ----

  /** A half-closed call has a stream or is over, and no request message stays buffered. */
  predicate Tidy(call: Call) {
    (call.sendClosed ==> call.stream.Some? || call.finished) && call.pendingMessage.None?
  }

  lemma ClosedHasStream(call: Call, b: Batch, env: Env)
    requires EnvOk(call, b, env) && Dispatch(call, b, env).result.Ok?
    requires call.sendClosed && (call.stream.Some? || b.close)
    ensures Dispatch(call, b, env).call.stream.Some? || b.recv.status
  {
    DispatchFrame(call, b, env);
    if RouteOf(call, b).Lazy? {
      LazyForm(call, b, env);
      ReceiveFrame(Resolved(call, b, env), ReadSource(call, b, env).value, b, env);
    }
  }

  lemma DispatchTidies(call: Call, b: Batch, env: Env)
    requires EnvOk(call, b, env) && call.pendingMessage.None?
    requires call.sendClosed ==> call.stream.Some? || b.close
    requires Dispatch(call, b, env).result.Ok?
    ensures var after := Dispatch(call, b, env).call;
            after.pendingMessage.None? && (call.sendClosed ==> after.stream.Some? || b.recv.status)
  {
    BufferExactly(call, b, env);
    if call.sendClosed {
      ClosedHasStream(call, b, env);
    }
  }

  lemma SettleTidies(call: Call, b: Batch, env: Env, o: BatchOutcome)
    requires Framed(call, b, env, o) && o.result.Ok? && o.call.pendingMessage.None?
    requires call.sendClosed ==> o.call.stream.Some? || b.recv.status
    ensures Tidy(Settle(b, o).call)
  {
  }

  lemma TidyStep(call: Call, a: Act)
    requires ActOk(call, a) && Tidy(call) && !Perform(call, a).history.failed
    ensures Tidy(Perform(call, a))
  {
    if a.Submit? && Dispatches(call, a.batch, a.env) {
      var marked := Mark(call, a.batch);
      DispatchFrame(marked, a.batch, a.env);
      var o := Dispatch(marked, a.batch, a.env);
      assert o.result.Ok?;
      DispatchTidies(marked, a.batch, a.env);
      SettleTidies(marked, a.batch, a.env, o);
    }
  }

  /** In every run without a failed batch the call is tidy after each batch. */
  lemma {:induction false} RunIsTidy(call: Call, acts: seq<Act>)
    requires CallInv(call) && Tidy(call) && ValidActs(call, acts) && !PerformAll(call, acts).history.failed
    ensures Tidy(PerformAll(call, acts))
    decreases |acts|
  {
    if acts != [] {
      PerformOk(call, acts[0]);
      RunEvolves(Perform(call, acts[0]), acts[1..]);
      TidyStep(call, acts[0]);
      RunIsTidy(Perform(call, acts[0]), acts[1..]);
    }
  }

  // ---- sequencing ----

  /**
   * Over every run a batch is refused as one operation too many exactly if its status has been reported,
   * or it carries initial metadata after some was accepted; an empty batch never is.
   */
  lemma SequencingExactly(call: Call, acts: seq<Act>, b: Batch, env: Env)
    requires IsNew(call) && ValidActs(call, acts) && ActOk(PerformAll(call, acts), Submit(b, env))
    ensures var after := PerformAll(call, acts);
            StartBatch(after, b, env).result == Err(TooManyOperations) <==>
            && !env.channelClosed && !after.cancelled && (b.Sends() || b.Receives())
            && (after.history.statuses != [] || (b.metadata.Some? && after.history.initial.Some?))
  {
    RunOk(call, acts);
    var after := PerformAll(call, acts);
    if Dispatches(after, b, env) {
      DispatchIsAllowed(Mark(after, b), b, env);
    }
  }

  lemma DispatchIsAllowed(call: Call, b: Batch, env: Env)
    requires EnvOk(call, b, env)
    ensures Dispatch(call, b, env).result != Err(TooManyOperations)
  {
    if RouteOf(call, b).Lazy? {
      LazyForm(call, b, env);
    }
  }

  /**
   * What a send-only batch without a stream becomes: a stream exactly if it half-closes or has a
   * message, of one request if it half-closes, and open for more messages if it does not.
   */
  lemma SendKind(call: Call, b: Batch, env: Env)
    requires ActOk(call, Submit(b, env)) && Dispatches(call, b, env) && !b.Receives() && call.stream.None?
    requires StartBatch(call, b, env).result.Ok?
    ensures var after := StartBatch(call, b, env).call;
            && (after.stream.Some? <==> b.close || b.message.Some?)
            && (after.stream.Some? ==> after.stream.value.bidi == after.stream.value.pipe.open == !b.close)
            && after.history.attempts == call.history.attempts
  {
    var marked := Mark(call, b);
    if RouteOf(marked, b).StartBidi? {
      OpensForMore(marked, b, env);
    }
  }

  lemma OpensForMore(call: Call, b: Batch, env: Env)
    requires RouteOf(call, b).StartBidi? && SendsOk(call, b, env) && OpenBidi(call, b, env).result.Ok?
    ensures var after := OpenBidi(call, b, env).call;
            && after.stream.Some? && after.stream.value.bidi && after.stream.value.pipe.open
            && after.history == call.history
  {
    var a := LaunchBidi(call, env).value;
    TransportGrows(Waiting(a.pipe, b.message.value), env.transport);
  }

  /** Over every run at most 32 messages wait for PHP and at most 4 for the transport. */
  lemma BuffersBounded(call: Call, acts: seq<Act>)
    requires IsNew(call) && ValidActs(call, acts)
    ensures var after := PerformAll(call, acts);
            after.stream.Some? ==>
              |after.stream.value.state.link.buffer| <= 32 && |after.stream.value.pipe.queue| <= 4
  {
    RunOk(call, acts);
    var after := PerformAll(call, acts);
    if after.stream.Some? {
      MessagesConserved(after.stream.value.config, after.stream.value.state);
    }
  }

  // ---- one status ----

  /** A call reports at most one status; after it every batch with an op is refused and changes nothing. */
  lemma AtMostOneStatus(call: Call, acts: seq<Act>, b: Batch, env: Env)
    requires IsNew(call) && ValidActs(call, acts)
    ensures var after := PerformAll(call, acts);
            && |after.history.statuses| <= 1
            && (after.finished <==> |after.history.statuses| == 1)
            && (after.finished && (b.Sends() || b.Receives()) ==>
                  !Dispatches(after, b, env) && StartBatch(after, b, env).result.Err?
                  && StartBatch(after, b, env).call == after)
            && (after.stream.Some? && !after.finished ==>
                  var hand := after.stream.value.state.hand; hand.cached.Some? || hand.trailersHeld)
  {
    RunOk(call, acts);
    var after := PerformAll(call, acts);
    if after.stream.Some? {
      StatusHasSource(after.stream.value.config, after.stream.value.state);
    }
  }

  /**
   * A cancelled call stays cancelled: over every later run nothing is sent or reported any more, and
   * every batch, even an empty one, is refused as cancelled, unless its channel is closed.
   */
  lemma CancelledForGood(call: Call, acts: seq<Act>, b: Batch, env: Env)
    requires CallInv(call) && call.cancelled && ValidActs(call, acts)
    ensures var after := PerformAll(call, acts);
            && after.cancelled && after.history == call.history
            && !Dispatches(after, b, env) && StartBatch(after, b, env).call == after
            && StartBatch(after, b, env).result == Err(if env.channelClosed then ChannelClosed else CallCancelled)
  {
    RunEvolves(call, acts);
  }

  /** Cancelling makes it so, as does losing the race of a one-batch call to a cancel. */
  lemma CancelCancels(call: Call, at: Clock, b: Batch, env: Env)
    ensures call.clock <= at ==> ActOk(call, Abort(at)) && Perform(call, Abort(at)).cancelled
    ensures ActOk(call, Submit(b, env)) && StartBatch(call, b, env).result == Err(CallFailed(CancelledInFlight)) ==>
              Perform(call, Submit(b, env)).cancelled
  {
    if ActOk(call, Submit(b, env)) && Dispatches(call, b, env)
       && StartBatch(call, b, env).result == Err(CallFailed(CancelledInFlight)) {
      InFlightCancels(Mark(call, b), b, env);
    }
  }

  lemma InFlightCancels(call: Call, b: Batch, env: Env)
    requires EnvOk(call, b, env) && Dispatch(call, b, env).result == Err(CallFailed(CancelledInFlight))
    ensures Dispatch(call, b, env).call.cancelled
  {
    if RouteOf(call, b).Lazy? {
      LazyForm(call, b, env);
    }
  }

  /**
   * What a receive without a stream becomes: a stream it reads from exactly if the call is half-closed
   * and the batch does not ask for message and status together; otherwise a one-batch call.
   */
  lemma ReceiveKind(call: Call, b: Batch, env: Env)
    requires ActOk(call, Submit(b, env)) && Dispatches(call, b, env) && b.Receives() && call.stream.None?
    requires StartBatch(call, b, env).result.Ok?
    ensures var after := StartBatch(call, b, env).call;
            && (after.stream.Some? <==> (call.sendClosed || b.close) && !(b.recv.message && b.recv.status))
            && |after.history.attempts| == |call.history.attempts| + (if after.stream.Some? then 0 else 1)
  {
    var marked := Mark(call, b);
    if RouteOf(marked, b).Lazy? {
      LazyForm(marked, b, env);
      ReceiveFrame(Resolved(marked, b, env), ReadSource(marked, b, env).value, b, env);
    } else {
      AttemptKeepsRequest(Resolved(marked, b, env), b, ResolvedRequest(marked, b, env), env);
    }
  }

  // ---- the request stream of a bidi call ----

  /**
   * Over every run, failed batches included: the messages batches were told were accepted
   * are, in batch order, the own messages of answered one-batch calls, then of the stream's
   * request, then those queued for the transport. The transport has taken a prefix of the
   * queued ones and never takes one back. Once it has seen the half-close it has taken all,
   * and no later batch adds one.
   */
  lemma RequestStreamOrder(call: Call, acts: seq<Act>, later: seq<Act>)
    requires IsNew(call) && ValidActs(call, acts) && ValidActs(PerformAll(call, acts), later)
    ensures var mid := PerformAll(call, acts);
            var end := PerformAll(mid, later);
            && end.history.accepted == AttemptsGiven(end.history.attempts) + StreamGiven(end.stream)
            && (mid.stream.Some? ==>
                  && end.stream.Some?
                  && var p, q := mid.stream.value.pipe, end.stream.value.pipe;
                     && p.taken <= q.taken <= q.accepted
                     && (p.endSeen ==>
                           q.taken == q.accepted == p.accepted && end.history.accepted == mid.history.accepted))
  {
    RunOk(call, acts);
    var mid := PerformAll(call, acts);
    RunOk(mid, later);
    RunEvolves(mid, later);
  }

  /** A half-close in the same batch comes after the message, and is the end of the request stream. */
  lemma HalfCloseFollowsMessage(call: Call, b: Batch, env: Env, later: seq<Act>)
    requires CallInv(call) && call.stream.Some? && b.close && ActOk(call, Submit(b, env))
    requires Dispatches(call, b, env) && StartBatch(call, b, env).result.Ok?
    requires ValidActs(StartBatch(call, b, env).call, later)
    ensures var a := call.stream.value;
            var after := PerformAll(StartBatch(call, b, env).call, later);
            && after.stream.Some? && !after.stream.value.pipe.open
            && after.stream.value.pipe.accepted == a.pipe.accepted + Payload(b.message)
            && after.history.accepted == call.history.accepted + Payload(b.message)
  {
    HalfClosed(call, b, env);
    PerformOk(call, Submit(b, env));
    RunEvolves(StartBatch(call, b, env).call, later);
  }

  lemma HalfClosed(call: Call, b: Batch, env: Env)
    requires call.stream.Some? && PipeOk(call.stream.value) && b.close && ActOk(call, Submit(b, env))
    requires Dispatches(call, b, env) && StartBatch(call, b, env).result.Ok?
    ensures var after := StartBatch(call, b, env).call;
            && after.stream.Some? && !after.stream.value.pipe.open
            && after.stream.value.pipe.accepted == call.stream.value.pipe.accepted + Payload(b.message)
            && after.history.accepted == call.history.accepted + Payload(b.message)
  {
    var marked := Mark(call, b);
    SendOnPipe(call.stream.value, b, env);
    DispatchFrame(marked, b, env);
    if b.Receives() {
      ReadIsReceive(marked, b, env);
      ReceiveFrame(marked, SendOn(call.stream.value, b, env).active, b, env);
    }
  }

  lemma ReadIsReceive(call: Call, b: Batch, env: Env)
    requires EnvOk(call, b, env) && RouteOf(call, b).ReadActive? && ReadStream(call, b, env).result.Ok?
    ensures var sent := SendOn(call.stream.value, b, env);
            && sent.error.None?
            && AnswersBy(sent.active.config, sent.active.state, b.recv, env.now, env.schedule)
            && ReadStream(call, b, env) == Receive(call, sent.active, b.recv, env)
  {
  }

  /** Opening a bidi call after its deadline leaves a stream without a sender: the first send fails. */
  lemma ExpiredBidiRefusesSends(call: Call, message: Bytes, env: Env)
    requires IsNew(call) && AlreadyExpired(call.deadline, call.clock) && call.clock <= env.now
    requires !env.channelClosed && !PluginThrows(env)
    ensures var b := Batch(None, Some(message), false, NO_OPS);
            && ActOk(call, Submit(b, env))
            && StartBatch(call, b, env).result == Err(SendUnsupported)
            && var after := StartBatch(call, b, env).call;
               after.stream.Some? && after.stream.value.state.hand.cached == Some(DEADLINE_TRAILERS)
  {
  }
}
