/** What every batch, every background step and every cancel keeps of a call. */
module CallInvariant {
  import opened Base
  import opened Deadline
  import opened RequestStream
  import opened StreamProtocol
  import opened StreamInvariant
  import opened StreamTheorems
  import opened Unary
  import opened CallMachine

  /** Requests of one-batch calls that went out; loose ones neither ended the call nor followed a half-close. */
  function Reached(attempts: seq<Attempt>, loose: bool): nat {
    if attempts == [] then 0
    else
      var last := attempts[|attempts| - 1];
      Reached(attempts[..|attempts| - 1], loose) + (if last.reached && last.loose == loose then 1 else 0)
  }

  /** A running stream, seen from the call that owns it. */
  ghost predicate StreamOk(deadline: I64, now: Clock, cancelled: bool, statuses: seq<Trailers>, a: Active) {
    && Reachable(a.config, a.state)
    && a.config.deadline == deadline
    && a.config.capacity == STREAM_MSG_BUFFER
    && a.state.clock <= now
    && a.state.cancelled == cancelled
    && a.state.hand.reader.Idle?
    && a.state.hand.log.statuses == statuses
    && PipeOk(a)
  }

  /** The sending half between batches: only a live bidi stream has one, and no send is pending. */
  predicate PipeOk(a: Active) {
    && PipeInv(a.pipe)
    && a.pipe.waiting.None?
    && (a.pipe.open ==> a.bidi && !Expired(a.config))
    && (a.bidi ==> a.request.message.None? && a.request.own.None?)
    && (!a.bidi ==> a.pipe.accepted == [])
  }

  ghost predicate ActiveOk(call: Call) {
    call.stream.Some? ==>
      StreamOk(call.deadline, call.clock, call.cancelled, call.history.statuses, call.stream.value)
  }

  function Payload(m: Option<Bytes>): seq<Bytes> {
    if m.Some? then [m.value] else []
  }

  /** The batches' own messages that one-batch calls answered. */
  function AttemptsGiven(attempts: seq<Attempt>): seq<Bytes> {
    if attempts == [] then []
    else
      var last := attempts[|attempts| - 1];
      AttemptsGiven(attempts[..|attempts| - 1]) + (if last.ok then Payload(last.request.own) else [])
  }

  function StreamGiven(stream: Option<Active>): seq<Bytes> {
    match stream
    case None => []
    case Some(a) => Payload(a.request.own) + a.pipe.accepted
  }

  /** The messages batches were told were accepted are exactly those requests and the request stream took in. */
  predicate PayloadOk(call: Call) {
    call.history.accepted == AttemptsGiven(call.history.attempts) + StreamGiven(call.stream)
  }

  predicate FlagsOk(call: Call) {
    && |call.history.statuses| <= 1
    && (call.finished <==> call.history.statuses != [])
    && (call.metadataSent <==> call.history.initial.Some?)
    && Reached(call.history.attempts, false) <= 1
    && (Reached(call.history.attempts, false) == 1 ==> call.stream.None? && (call.finished || call.cancelled))
  }

  ghost predicate CallInv(call: Call) {
    FlagsOk(call) && PayloadOk(call) && ActiveOk(call)
  }

  lemma LaunchOk(call: Call, request: Request, bidi: bool, env: Env)
    requires bidi ==> request.message.None? && request.own.None?
    ensures LaunchedOk(call, env.now, Launch(call, request, bidi, env), request.own)
  {
    var c := StreamConfig(call, env);
    assert ValidRun(c, Init(c), []) && After(c, Init(c), []) == Init(c);
  }

  /** An open call can always begin a receive. */
  lemma ReceiveCanBegin(deadline: I64, now: Clock, a: Active, ops: RecvOps)
    requires StreamOk(deadline, now, false, [], a)
    requires ops.meta || ops.message || ops.status
    ensures Enabled(a.config, a.state, Event(Begin(ops), now))
    ensures Reachable(a.config, BeginState(a.state, ops, now))
  {
    ReachableInv(a.config, a.state);
    NextReachable(a.config, a.state, Event(Begin(ops), now));
  }

  lemma {:induction false} Finishes(c: Config, s: State) returns (es: seq<Event>)
    requires Inv(c, s)
    ensures AllWork(es) && ValidRun(c, s, es) && After(c, s, es).hand.reader.Idle? && After(c, s, es).clock == s.clock
    decreases Measure(c, s)
  {
    if s.hand.reader.Idle? {
      es := [];
    } else {
      var e := WaitingMoves(c, s);
      StepInv(c, s, e);
      WorkFalls(c, s, e);
      var rest := Finishes(c, Next(c, s, e));
      es := [e] + rest;
      assert es[1..] == rest;
    }
  }

  /** Every receive an open call begins is answered by some schedule, which need take no time. */
  lemma SomeScheduleAnswers(deadline: I64, now: Clock, a: Active, ops: RecvOps) returns (es: seq<Event>)
    requires StreamOk(deadline, now, false, [], a)
    requires ops.meta || ops.message || ops.status
    ensures AnswersBy(a.config, a.state, ops, now, es)
    ensures After(a.config, BeginState(a.state, ops, now), es).clock == now
  {
    ReceiveCanBegin(deadline, now, a, ops);
    ReachableInv(a.config, BeginState(a.state, ops, now));
    es := Finishes(a.config, BeginState(a.state, ops, now));
  }

  lemma WorkStepFrame(c: Config, s: State, e: Event)
    requires ReplyShape(s.hand) && IsWork(e) && Enabled(c, s, e)
    ensures var s' := Next(c, s, e);
            && s'.hand.ops == s.hand.ops && s'.cancelled == s.cancelled && s'.clock >= s.clock
            && (!s.hand.ops.status ==> s'.hand.log.statuses == s.hand.log.statuses)
  {
  }

  lemma {:induction false} WorkFrame(c: Config, s: State, es: seq<Event>)
    requires Inv(c, s) && AllWork(es) && ValidRun(c, s, es)
    ensures var s' := After(c, s, es);
            && Inv(c, s') && s'.hand.ops == s.hand.ops && s'.cancelled == s.cancelled && s'.clock >= s.clock
            && (!s.hand.ops.status ==> s'.hand.log.statuses == s.hand.log.statuses)
    decreases |es|
  {
    if es != [] {
      StepInv(c, s, es[0]);
      WorkStepFrame(c, s, es[0]);
      WorkFrame(c, Next(c, s, es[0]), es[1..]);
    }
  }

  /** The reply of an answered wait, and what it leaves behind. */
  lemma WaitResult(c: Config, s: State, ops: RecvOps, at: Clock, es: seq<Event>)
    requires Reachable(c, s) && s.hand.log.statuses == [] && AnswersBy(c, s, ops, at, es)
    ensures var s' := After(c, BeginState(s, ops, at), es);
            && Reachable(c, s') && s'.cancelled == s.cancelled && s'.clock >= at && s'.hand.reader.Idle?
            && (s'.hand.reply.meta.Some? <==> ops.meta)
            && (s'.hand.reply.message.Some? <==> ops.message)
            && (s'.hand.reply.status.Some? <==> ops.status)
            && s'.hand.log.statuses == if ops.status then [s'.hand.reply.status.value] else []
  {
    NextReachable(c, s, Event(Begin(ops), at));
    ReachableInv(c, BeginState(s, ops, at));
    StillReachable(c, BeginState(s, ops, at), es);
    WorkFrame(c, BeginState(s, ops, at), es);
  }

  /** A call that takes a batch: nothing final has been reported. */
  ghost predicate Open(call: Call) {
    CallInv(call) && !call.cancelled && !call.finished
  }

  lemma ReceiveOk(call: Call, a: Active, b: Batch, env: Env)
    requires FlagsOk(call) && !call.cancelled && !call.finished
    requires StreamOk(call.deadline, env.now, false, [], a)
    requires call.history.accepted + Payload(b.message) == AttemptsGiven(call.history.attempts) + StreamGiven(Some(a))
    requires AnswersBy(a.config, a.state, b.recv, env.now, env.schedule)
    ensures CallInv(Settle(b, Receive(call, a, b.recv, env)).call)
  {
    WaitResult(a.config, a.state, b.recv, env.now, env.schedule);
  }

  /** The sending half across one batch. */
  lemma SendOnPipe(a: Active, b: Batch, env: Env)
    requires PipeOk(a) && SendOk(a, b, env)
    ensures var r := SendOn(a, b, env);
            && PipeOk(r.active)
            && r.active == a.(pipe := r.active.pipe)
            && r.active.pipe.accepted == a.pipe.accepted + (if r.error.None? then Payload(b.message) else [])
            && (!a.pipe.open ==> !r.active.pipe.open)
            && (b.message.Some? && r.error.None? ==> a.pipe.open)
            && (b.close && r.error.None? ==> !r.active.pipe.open)
  {
    if b.message.Some? && a.pipe.open {
      SendResult(a.pipe, b.message.value, env.transport);
    }
  }

  lemma SendOnOk(deadline: I64, now: Clock, a: Active, b: Batch, env: Env)
    requires StreamOk(deadline, now, false, [], a) && now <= env.now && SendOk(a, b, env)
    ensures StreamOk(deadline, env.now, false, [], SendOn(a, b, env).active)
  {
    SendOnPipe(a, b, env);
  }

  lemma ForwardOk(call: Call, b: Batch, env: Env)
    requires Open(call) && call.stream.Some? && call.clock <= env.now && !b.recv.status
    requires SendOk(call.stream.value, b, env)
    ensures CallInv(Settle(b, ForwardSend(call, b, env)).call)
  {
    SendOnGiven(call, b, env);
    SendOnOk(call.deadline, call.clock, call.stream.value, b, env);
  }

  /** A send keeps the account of accepted messages. */
  lemma SendOnGiven(call: Call, b: Batch, env: Env)
    requires PayloadOk(call) && call.stream.Some? && PipeOk(call.stream.value) && SendOk(call.stream.value, b, env)
    ensures var r := SendOn(call.stream.value, b, env);
            call.history.accepted + (if r.error.None? then Payload(b.message) else []) ==
            AttemptsGiven(call.history.attempts) + StreamGiven(Some(r.active))
  {
    var a := call.stream.value;
    SendOnPipe(a, b, env);
    var added := if SendOn(a, b, env).error.None? then Payload(b.message) else [];
    Regroup(AttemptsGiven(call.history.attempts), Payload(a.request.own), a.pipe.accepted, added);
  }

  lemma Regroup<T>(a: seq<T>, b: seq<T>, c: seq<T>, d: seq<T>)
    ensures a + (b + c) + d == a + (b + (c + d))
  {
  }

  lemma ReadStreamOk(call: Call, b: Batch, env: Env)
    requires Open(call) && EnvOk(call, b, env) && RouteOf(call, b).ReadActive?
    ensures CallInv(Settle(b, ReadStream(call, b, env)).call)
  {
    SendOnOk(call.deadline, call.clock, call.stream.value, b, env);
    SendOnGiven(call, b, env);
    var r := SendOn(call.stream.value, b, env);
    if r.error.None? {
      ReceiveOk(call, r.active, b, env);
    }
  }

  ghost predicate LaunchedOk(call: Call, now: Clock, r: Result<Active, Error>, own: Option<Bytes>) {
    r.Ok? ==>
      StreamOk(call.deadline, now, false, [], r.value) && r.value.pipe.accepted == [] && r.value.request.own == own
  }

  /** Keeping a stream as a send left it. */
  lemma KeepSentOk(call: Call, sent: Sent, b: Batch)
    requires FlagsOk(call) && !call.cancelled && !call.finished && !b.recv.status
    requires StreamOk(call.deadline, call.clock, false, [], sent.active)
    ensures call.history.accepted + (if sent.error.None? then Payload(b.message) else []) ==
            AttemptsGiven(call.history.attempts) + StreamGiven(Some(sent.active)) ==>
              CallInv(Settle(b, KeepSent(call, sent)).call)
  {
  }

  lemma FirstGiven(call: Call, a: Active, b: Batch, env: Env)
    requires PayloadOk(call) && call.stream.None? && SendOk(a, b, env)
    requires PipeOk(a) && a.pipe.accepted == [] && a.request.own.None?
    ensures var r := SendOn(a, b, env);
            call.history.accepted + (if r.error.None? then Payload(b.message) else []) ==
            AttemptsGiven(call.history.attempts) + StreamGiven(Some(r.active))
  {
    SendOnPipe(a, b, env);
    var added := if SendOn(a, b, env).error.None? then Payload(b.message) else [];
    Regroup(AttemptsGiven(call.history.attempts), [], [], added);
  }

  lemma FirstSendOk(call: Call, a: Active, b: Batch, env: Env)
    requires FlagsOk(call) && PayloadOk(call) && !call.cancelled && !call.finished
    requires call.stream.None? && call.clock == env.now && b.message.Some? && !b.recv.status
    requires LaunchedOk(call, env.now, Ok(a), None) && SendOk(a, b, env)
    ensures CallInv(Settle(b, KeepSent(call, SendOn(a, b, env))).call)
  {
    FirstGiven(call, a, b, env);
    SendOnOk(call.deadline, env.now, a, b, env);
    KeepSentOk(call, SendOn(a, b, env), b);
  }

  lemma OpenBidiOk(call: Call, b: Batch, env: Env)
    requires Open(call) && RouteOf(call, b).StartBidi? && SendsOk(call, b, env)
    ensures CallInv(Settle(b, OpenBidi(call, b, env)).call)
  {
    var taken := call.(pendingMetadata := [], clock := env.now);
    LaunchOk(call, Request(call.pendingMetadata, PluginEntries(env), None, None), true, env);
    var launched := LaunchBidi(call, env);
    if !PluginThrows(env) && launched.Ok? {
      FirstSendOk(taken, launched.value, b, env);
    }
  }

  lemma BufferSendOk(call: Call, b: Batch, env: Env)
    requires Open(call) && call.stream.None? && b.message.None? && !b.recv.status
    ensures CallInv(Settle(b, BufferSend(call, b, env)).call)
  {
  }

  lemma KeepStreamOk(call: Call, launched: Result<Active, Error>, b: Batch, env: Env)
    requires Open(call) && call.stream.None? && call.clock == env.now && !b.recv.status
    requires LaunchedOk(call, env.now, launched, b.message)
    ensures CallInv(Settle(b, KeepStream(call, launched)).call)
  {
  }

  lemma EagerOk(call: Call, b: Batch, env: Env)
    requires Open(call) && call.stream.None? && !b.recv.status
    ensures CallInv(Settle(b, EagerSend(call, b, env)).call)
  {
    var kept := Buffered(call, b, env);
    var taken := kept.(pendingMetadata := [], pendingMessage := None);
    if !PluginThrows(env) {
      var request := Request(kept.pendingMetadata, [], kept.pendingMessage, b.message);
      LaunchOk(taken, request, false, env);
      KeepStreamOk(taken, Launch(taken, request, false, env), b, env);
    }
  }

  function Resolved(call: Call, b: Batch, env: Env): Call {
    TakePending(call, b).(clock := env.now)
  }

  /** A lazy stream fails before it starts, or is launched and read from. */
  lemma LazyForm(call: Call, b: Batch, env: Env)
    requires EnvOk(call, b, env) && RouteOf(call, b).Lazy?
    ensures var source := ReadSource(call, b, env);
            var o := LazyStream(call, b, env);
            && (source.None? ==> o.call == Resolved(call, b, env) && o.result.Err?)
            && (source.Some? ==>
                  && Launch(call, ResolvedRequest(call, b, env), false, env) == Ok(source.value)
                  && o == Receive(Resolved(call, b, env), source.value, b.recv, env))
  {
  }

  lemma LazyReceiveOk(call: Call, a: Active, b: Batch, env: Env)
    requires FlagsOk(call) && PayloadOk(call) && !call.cancelled && !call.finished && call.stream.None?
    requires LaunchedOk(call, env.now, Ok(a), b.message)
    requires AnswersBy(a.config, a.state, b.recv, env.now, env.schedule)
    ensures CallInv(Settle(b, Receive(Resolved(call, b, env), a, b.recv, env)).call)
  {
    ReceiveOk(Resolved(call, b, env), a, b, env);
  }

  lemma LazyFailedOk(call: Call, b: Batch, env: Env, e: Error)
    requires FlagsOk(call) && PayloadOk(call) && call.stream.None?
    ensures CallInv(Settle(b, Done(Resolved(call, b, env), Err(e))).call)
  {
  }

  lemma LazyOk(call: Call, b: Batch, env: Env)
    requires Open(call) && EnvOk(call, b, env) && RouteOf(call, b).Lazy?
    ensures CallInv(Settle(b, LazyStream(call, b, env)).call)
  {
    LazyForm(call, b, env);
    var r := ReadSource(call, b, env);
    if r.Some? {
      LaunchOk(call, ResolvedRequest(call, b, env), false, env);
      LazyReceiveOk(call, r.value, b, env);
    } else {
      LazyFailedOk(call, b, env, LazyStream(call, b, env).result.error);
    }
  }

  /** A request that went out and still failed was cancelled in flight. */
  lemma FailureInFlight(script: Script, deadline: I64, pathValid: bool, ch: Choice)
    ensures Reaches(script, deadline, pathValid, ch) ==>
              var r := ExecuteCall(script, deadline, pathValid, ch); r.Ok? || r == Err(CancelledInFlight)
  {
  }

  lemma ReachedAppend(attempts: seq<Attempt>, a: Attempt, loose: bool)
    ensures Reached(attempts + [a], loose) ==
            Reached(attempts, loose) + (if a.reached && a.loose == loose then 1 else 0)
  {
    assert (attempts + [a])[..|attempts|] == attempts;
  }

  lemma GivenAppend(attempts: seq<Attempt>, a: Attempt)
    ensures AttemptsGiven(attempts + [a]) == AttemptsGiven(attempts) + (if a.ok then Payload(a.request.own) else [])
  {
    assert (attempts + [a])[..|attempts|] == attempts;
  }

  lemma RunOneShotOk(call: Call, b: Batch, request: Request, env: Env)
    requires Open(call) && call.stream.None? && (b.recv.status || !call.sendClosed)
    requires request.own == b.message
    ensures CallInv(Settle(b, RunOneShot(call, b, request, env)).call)
  {
    FailureInFlight(env.script, call.deadline, call.pathValid, env.choice);
    var attempts := RunOneShot(call, b, request, env).call.history.attempts;
    ReachedAppend(call.history.attempts, attempts[|attempts| - 1], false);
    GivenAppend(call.history.attempts, attempts[|attempts| - 1]);
  }

  lemma OneShotOk(call: Call, b: Batch, env: Env)
    requires Open(call) && call.stream.None? && (b.recv.status || !call.sendClosed)
    ensures CallInv(Settle(b, OneShotCall(call, b, env)).call)
  {
    if !(b.Sends() && PluginThrows(env)) {
      RunOneShotOk(Resolved(call, b, env), b, ResolvedRequest(call, b, env), env);
    }
  }

  lemma DispatchOk(call: Call, b: Batch, env: Env)
    requires Open(call) && EnvOk(call, b, env)
    ensures CallInv(Settle(b, Dispatch(call, b, env)).call)
  {
    match RouteOf(call, b)
    case Forward => ForwardOk(call, b, env);
    case StartBidi => OpenBidiOk(call, b, env);
    case Buffer => BufferSendOk(call, b, env);
    case Eager => EagerOk(call, b, env);
    case ReadActive => ReadStreamOk(call, b, env);
    case OneShot => OneShotOk(call, b, env);
    case Lazy => LazyOk(call, b, env);
  }

  lemma BackgroundOk(call: Call, e: Event)
    requires ActiveOk(call) && ActOk(call, Background(e))
    ensures ActiveOk(Perform(call, Background(e)))
  {
    NextReachable(call.stream.value.config, call.stream.value.state, e);
  }

  lemma TransportOk(call: Call, e: PipeEvent)
    requires ActiveOk(call) && ActOk(call, Transport(e))
    ensures ActiveOk(Perform(call, Transport(e)))
    ensures StreamGiven(Perform(call, Transport(e)).stream) == StreamGiven(call.stream)
  {
    StepKeepsPipe(call.stream.value.pipe, e);
  }

  lemma AbortOk(call: Call, at: Clock)
    requires ActiveOk(call) && ActOk(call, Abort(at))
    ensures ActiveOk(Perform(call, Abort(at)))
  {
    if call.stream.Some? {
      NextReachable(call.stream.value.config, call.stream.value.state, Event(Cancel, at));
    }
  }

  lemma BetweenOk(call: Call, a: Act)
    requires CallInv(call) && ActOk(call, a) && !a.Submit?
    ensures CallInv(Perform(call, a))
  {
    match a
    case Background(e) => BackgroundOk(call, e);
    case Transport(e) => TransportOk(call, e);
    case Abort(at) => AbortOk(call, at);
  }

  /** Every act keeps the invariant. */
  lemma PerformOk(call: Call, a: Act)
    requires CallInv(call) && ActOk(call, a)
    ensures CallInv(Perform(call, a))
  {
    if a.Submit? {
      if Dispatches(call, a.batch, a.env) {
        DispatchOk(Mark(call, a.batch), a.batch, a.env);
      }
    } else {
      BetweenOk(call, a);
    }
  }

  lemma {:induction false} RunOk(call: Call, acts: seq<Act>)
    requires CallInv(call) && ValidActs(call, acts)
    ensures CallInv(PerformAll(call, acts))
    decreases |acts|
  {
    if acts != [] {
      PerformOk(call, acts[0]);
      RunOk(Perform(call, acts[0]), acts[1..]);
    }
  }

  // ---- the frame of a batch ----

  lemma {:induction false} RunClock(c: Config, s: State, es: seq<Event>)
    requires ValidRun(c, s, es)
    ensures After(c, s, es).clock >= s.clock
    decreases |es|
  {
    if es != [] {
      RunClock(c, Next(c, s, es[0]), es[1..]);
    }
  }

  /** The same stream, and a closed sending half stays closed. */
  predicate StreamKept(a: Active, after: Option<Active>) {
    && after.Some? && after.value.config == a.config && after.value.request == a.request && after.value.bidi == a.bidi
    && Grows(a.pipe, after.value.pipe)
  }

  /** A stream is kept, or the one launched now. */
  predicate SameStream(before: Option<Active>, after: Option<Active>, launch: Config) {
    match before
    case Some(a) => StreamKept(a, after)
    case None => after.Some? ==> after.value.config == launch
  }

  /** At most one attempt is added, by a one-batch route. */
  predicate SameAttempts(call: Call, b: Batch, env: Env, after: seq<Attempt>) {
    || after == call.history.attempts
    || (&& RouteOf(call, b).OneShot?
        && |after| == |call.history.attempts| + 1
        && after == call.history.attempts + [after[|call.history.attempts|]]
        && var last := after[|call.history.attempts|];
           && last.reached == Reaches(env.script, call.deadline, call.pathValid, env.choice)
           && last.loose == (!b.recv.status && !call.sendClosed))
  }

  /** What no dispatch touches, and what it can do to the rest. */
  predicate Framed(call: Call, b: Batch, env: Env, o: BatchOutcome) {
    && o.call == call.(
       pendingMetadata := o.call.pendingMetadata, pendingMessage := o.call.pendingMessage,
       cancelled := o.call.cancelled, stream := o.call.stream, clock := o.call.clock,
       history := call.history.(attempts := o.call.history.attempts))
    && o.call.clock >= env.now
    && SameStream(call.stream, o.call.stream, StreamConfig(call, env))
    && SameAttempts(call, b, env, o.call.history.attempts)
    && (b.message.Some? && o.result.Ok? && call.stream.Some? ==> call.stream.value.pipe.open)
  }

  lemma SendOnFrame(a: Active, b: Batch, env: Env)
    requires SendOk(a, b, env)
    ensures var r := SendOn(a, b, env);
            && StreamKept(a, Some(r.active)) && r.active.config == a.config && r.active.state == a.state
            && (b.message.Some? && r.error.None? ==> a.pipe.open)
  {
    if b.message.Some? && a.pipe.open {
      SendGrows(a.pipe, b.message.value, env.transport);
    }
  }

  lemma LaunchFrame(call: Call, request: Request, bidi: bool, env: Env)
    ensures var r := Launch(call, request, bidi, env);
            r.Ok? ==> r.value.config == StreamConfig(call, env)
  {
  }

  lemma ReceiveFrame(call: Call, a: Active, b: Batch, env: Env)
    requires AnswersBy(a.config, a.state, b.recv, env.now, env.schedule)
    ensures var o := Receive(call, a, b.recv, env);
            && o.call == call.(stream := o.call.stream, clock := o.call.clock) && o.call.clock >= env.now
            && o.call.stream.Some? && o.call.stream.value == a.(state := o.call.stream.value.state)
  {
    RunClock(a.config, BeginState(a.state, b.recv, env.now), env.schedule);
  }

  lemma RunOneShotAttempts(call: Call, b: Batch, request: Request, env: Env)
    requires RouteOf(call, b).OneShot?
    ensures SameAttempts(call, b, env, RunOneShot(call, b, request, env).call.history.attempts)
  {
    var o := RunOneShot(call, b, request, env);
    assert o.call.history.attempts[|call.history.attempts|] ==
           Attempt(request, Reaches(env.script, call.deadline, call.pathValid, env.choice), o.result.Ok?,
                   !b.recv.status && !call.sendClosed);
  }

  lemma RunOneShotFrame(call: Call, b: Batch, request: Request, env: Env)
    requires env.now == env.choice.entry <= env.choice.raceAt && RouteOf(call, b).OneShot?
    ensures Framed(call, b, env, RunOneShot(call, b, request, env))
  {
    RunOneShotAttempts(call, b, request, env);
  }

  lemma AttemptKeepsRequest(call: Call, b: Batch, request: Request, env: Env)
    ensures var o := RunOneShot(call, b, request, env);
            var n := |call.history.attempts|;
            && o.call.stream == call.stream && |o.call.history.attempts| == n + 1
            && o.call.history.attempts[..n] == call.history.attempts
            && o.call.history.attempts[n].request == request
            && o.call.history.attempts[n].ok == o.result.Ok?
  {
  }

  lemma OneShotFrame(call: Call, b: Batch, env: Env)
    requires EnvOk(call, b, env) && RouteOf(call, b).OneShot?
    ensures Framed(call, b, env, OneShotCall(call, b, env))
  {
    if !(b.Sends() && PluginThrows(env)) {
      RunOneShotFrame(Resolved(call, b, env), b, ResolvedRequest(call, b, env), env);
    }
  }

  lemma ForwardFrame(call: Call, b: Batch, env: Env)
    requires call.stream.Some? && SendOk(call.stream.value, b, env)
    ensures Framed(call, b, env, ForwardSend(call, b, env))
  {
    SendOnFrame(call.stream.value, b, env);
  }

  lemma OpenBidiFrame(call: Call, b: Batch, env: Env)
    requires RouteOf(call, b).StartBidi? && SendsOk(call, b, env)
    ensures Framed(call, b, env, OpenBidi(call, b, env))
  {
    LaunchFrame(call, Request(call.pendingMetadata, PluginEntries(env), None, None), true, env);
    if !PluginThrows(env) && LaunchBidi(call, env).Ok? {
      SendOnFrame(LaunchBidi(call, env).value, b, env);
    }
  }

  lemma EagerFrame(call: Call, b: Batch, env: Env)
    requires call.stream.None?
    ensures Framed(call, b, env, EagerSend(call, b, env)) && Framed(call, b, env, BufferSend(call, b, env))
  {
    var kept := Buffered(call, b, env);
    LaunchFrame(kept.(pendingMetadata := [], pendingMessage := None),
                Request(kept.pendingMetadata, [], kept.pendingMessage, b.message), false, env);
  }

  lemma ReadStreamFrame(call: Call, b: Batch, env: Env)
    requires EnvOk(call, b, env) && RouteOf(call, b).ReadActive?
    ensures Framed(call, b, env, ReadStream(call, b, env))
  {
    SendOnFrame(call.stream.value, b, env);
    var r := SendOn(call.stream.value, b, env);
    if r.error.None? {
      ReceiveFrame(call, r.active, b, env);
    }
  }

  lemma LazyReceiveFrame(call: Call, a: Active, b: Batch, env: Env)
    requires call.stream.None? && a.config == StreamConfig(call, env)
    requires AnswersBy(a.config, a.state, b.recv, env.now, env.schedule)
    ensures Framed(call, b, env, Receive(Resolved(call, b, env), a, b.recv, env))
  {
    ReceiveFrame(Resolved(call, b, env), a, b, env);
  }

  lemma LazyFrame(call: Call, b: Batch, env: Env)
    requires EnvOk(call, b, env) && RouteOf(call, b).Lazy?
    ensures Framed(call, b, env, LazyStream(call, b, env))
  {
    LazyForm(call, b, env);
    var r := ReadSource(call, b, env);
    if r.Some? {
      LazyReceiveFrame(call, r.value, b, env);
    }
  }

  lemma DispatchFrame(call: Call, b: Batch, env: Env)
    requires EnvOk(call, b, env)
    ensures Framed(call, b, env, Dispatch(call, b, env))
  {
    match RouteOf(call, b)
    case Forward => ForwardFrame(call, b, env);
    case StartBidi => OpenBidiFrame(call, b, env);
    case Buffer => EagerFrame(call, b, env);
    case Eager => EagerFrame(call, b, env);
    case ReadActive => ReadStreamFrame(call, b, env);
    case OneShot => OneShotFrame(call, b, env);
    case Lazy => LazyFrame(call, b, env);
  }

  // ---- the buffers ----

  /** A message is left in the buffer by a half-closed batch without a stream whose plugin throws. */
  predicate LeavesMessage(call: Call, b: Batch, env: Env) {
    RouteOf(call, b).Eager? && b.message.Some? && PluginThrows(env)
  }

  /** The metadata and the message kept for a later batch. */
  function Buffers(call: Call): (seq<Pair>, Option<Bytes>) {
    (call.pendingMetadata, call.pendingMessage)
  }

  function BuffersAfter(call: Call, b: Batch, env: Env): (seq<Pair>, Option<Bytes>) {
    match RouteOf(call, b)
    case Eager => if PluginThrows(env) then (b.metadata.GetOr([]), b.message) else ([], None)
    case Buffer => (b.metadata.GetOr([]) + PluginEntries(env), None)
    case StartBidi => ([], call.pendingMessage)
    case OneShot => if b.Sends() then Buffers(call) else ([], None)
    case Lazy => if b.Sends() then Buffers(call) else ([], None)
    case _ => Buffers(call)
  }

  lemma LazyBuffer(call: Call, b: Batch, env: Env)
    requires EnvOk(call, b, env) && RouteOf(call, b).Lazy?
    ensures Buffers(LazyStream(call, b, env).call) == Buffers(Resolved(call, b, env))
  {
    LazyForm(call, b, env);
    if ReadSource(call, b, env).Some? {
      ReceiveFrame(Resolved(call, b, env), ReadSource(call, b, env).value, b, env);
    }
  }

  lemma OneShotBuffer(call: Call, b: Batch, env: Env)
    ensures Buffers(OneShotCall(call, b, env).call) == Buffers(Resolved(call, b, env))
  {
  }

  lemma ReadBuffer(call: Call, b: Batch, env: Env)
    requires EnvOk(call, b, env) && RouteOf(call, b).ReadActive?
    ensures Buffers(ReadStream(call, b, env).call) == Buffers(call)
  {
    var sent := SendOn(call.stream.value, b, env);
    if sent.error.None? {
      ReceiveFrame(call, sent.active, b, env);
    }
  }

  lemma OpenBidiBuffer(call: Call, b: Batch, env: Env)
    requires RouteOf(call, b).StartBidi? && SendsOk(call, b, env)
    ensures Buffers(OpenBidi(call, b, env).call) == ([], call.pendingMessage)
  {
  }

  lemma EagerBuffer(call: Call, b: Batch, env: Env)
    ensures Buffers(EagerSend(call, b, env).call) ==
            if PluginThrows(env) then (b.metadata.GetOr([]), b.message) else ([], None)
  {
    assert b.metadata.GetOr([]) + [] == b.metadata.GetOr([]);
  }

  lemma SendBuffer(call: Call, b: Batch, env: Env)
    requires EnvOk(call, b, env) && !b.Receives()
    ensures Buffers(Dispatch(call, b, env).call) == BuffersAfter(call, b, env)
  {
    match RouteOf(call, b)
    case StartBidi => OpenBidiBuffer(call, b, env);
    case Eager => EagerBuffer(call, b, env);
    case _ =>
  }

  lemma ReceiveBuffer(call: Call, b: Batch, env: Env)
    requires EnvOk(call, b, env) && b.Receives()
    ensures Buffers(Dispatch(call, b, env).call) == BuffersAfter(call, b, env)
  {
    match RouteOf(call, b)
    case ReadActive => ReadBuffer(call, b, env);
    case Lazy => LazyBuffer(call, b, env);
    case OneShot => OneShotBuffer(call, b, env);
  }

  /**
   * Exactly what is in the buffers after a dispatch. From an empty buffer a message stays there if
   * and only if a half-closed batch without a stream failed in its plugin.
   */
  lemma BufferExactly(call: Call, b: Batch, env: Env)
    requires EnvOk(call, b, env)
    ensures var held := Dispatch(call, b, env).call.pendingMessage;
            && Buffers(Dispatch(call, b, env).call) == BuffersAfter(call, b, env)
            && (call.pendingMessage.None? ==> (held.Some? <==> LeavesMessage(call, b, env)))
  {
    if b.Receives() {
      ReceiveBuffer(call, b, env);
    } else {
      SendBuffer(call, b, env);
    }
  }
}
