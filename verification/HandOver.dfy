/** Every accepted message is handed over once, and exactly when that fails. */
module HandOver {
  import opened Base
  import opened StreamProtocol
  import opened CallMachine
  import opened CallInvariant
  import opened CallTheorems

  // ---- what is handed over ----

  /** The messages of successful one-batch calls, in order. */
  function AttemptPayloads(attempts: seq<Attempt>): seq<Bytes> {
    if attempts == [] then []
    else
      var last := attempts[|attempts| - 1];
      AttemptPayloads(attempts[..|attempts| - 1]) + (if last.ok then Payload(last.request.message) else [])
  }

  /** What the stream was given: its request message, or what was sent on it. */
  function StreamPayloads(stream: Option<Active>): seq<Bytes> {
    match stream
    case None => []
    case Some(a) => Payload(a.request.message) + a.pipe.accepted
  }

  function HandedOver(call: Call): seq<Bytes> {
    AttemptPayloads(call.history.attempts) + StreamPayloads(call.stream)
  }

  /** A request that carries a message its own batch did not have. */
  predicate IsStale(r: Request) {
    r.message.Some? && r.own.None?
  }

  predicate Covers(r: Request) {
    r.message == r.own || IsStale(r)
  }

  function One(stale: bool): nat {
    if stale then 1 else 0
  }

  /** Answered one-batch calls that carried a stale message. */
  function StaleAttempts(attempts: seq<Attempt>): nat {
    if attempts == [] then 0
    else
      var last := attempts[|attempts| - 1];
      StaleAttempts(attempts[..|attempts| - 1]) + One(last.ok && IsStale(last.request))
  }

  function StaleRequests(call: Call): nat {
    StaleAttempts(call.history.attempts) + One(call.stream.Some? && IsStale(call.stream.value.request))
  }

  predicate AttemptsCover(attempts: seq<Attempt>) {
    attempts == [] ||
    (AttemptsCover(attempts[..|attempts| - 1]) && Covers(attempts[|attempts| - 1].request))
  }

  predicate AllCover(call: Call) {
    AttemptsCover(call.history.attempts) && (call.stream.Some? ==> Covers(call.stream.value.request))
  }

  lemma StaleAppend(attempts: seq<Attempt>, a: Attempt)
    ensures StaleAttempts(attempts + [a]) == StaleAttempts(attempts) + One(a.ok && IsStale(a.request))
    ensures AttemptsCover(attempts + [a]) <==> AttemptsCover(attempts) && Covers(a.request)
  {
    assert (attempts + [a])[..|attempts|] == attempts;
  }

  lemma {:induction false} AttemptsCounted(attempts: seq<Attempt>)
    requires AttemptsCover(attempts)
    ensures |AttemptPayloads(attempts)| == |AttemptsGiven(attempts)| + StaleAttempts(attempts)
    ensures StaleAttempts(attempts) == 0 ==> AttemptPayloads(attempts) == AttemptsGiven(attempts)
    decreases |attempts|
  {
    if attempts != [] {
      AttemptsCounted(attempts[..|attempts| - 1]);
    }
  }

  /** A receive without send operations, and without a stream, finds a message in the buffer. */
  predicate FindsStale(call: Call, b: Batch) {
    b.Receives() && !b.Sends() && call.stream.None? && call.pendingMessage.Some?
  }

  /** One stale request more exactly when stale, and every request still covers its batch. */
  predicate Counted(call: Call, after: Call, stale: bool) {
    StaleRequests(after) == StaleRequests(call) + One(stale) && (AllCover(call) ==> AllCover(after))
  }

  lemma ResolvedIsStale(call: Call, b: Batch, env: Env)
    ensures var r := ResolvedRequest(call, b, env);
            Covers(r) && (IsStale(r) <==> !b.Sends() && call.pendingMessage.Some?)
  {
  }

  lemma RunOneShotCounted(call: Call, b: Batch, request: Request, env: Env)
    requires Covers(request)
    ensures var o := RunOneShot(call, b, request, env); Counted(call, o.call, o.result.Ok? && IsStale(request))
  {
    AttemptKeepsRequest(call, b, request, env);
    var attempts, n := RunOneShot(call, b, request, env).call.history.attempts, |call.history.attempts|;
    assert attempts == call.history.attempts + [attempts[n]];
    StaleAppend(call.history.attempts, attempts[n]);
  }

  lemma OneShotCounted(call: Call, b: Batch, env: Env)
    requires RouteOf(call, b).OneShot?
    ensures var o := OneShotCall(call, b, env); Counted(call, o.call, FindsStale(call, b) && o.result.Ok?)
  {
    ResolvedIsStale(call, b, env);
    RunOneShotCounted(Resolved(call, b, env), b, ResolvedRequest(call, b, env), env);
  }

  lemma LazyCounted(call: Call, b: Batch, env: Env)
    requires EnvOk(call, b, env) && RouteOf(call, b).Lazy?
    ensures var o := LazyStream(call, b, env); Counted(call, o.call, FindsStale(call, b) && o.result.Ok?)
  {
    LazyForm(call, b, env);
    ResolvedIsStale(call, b, env);
    var r := ReadSource(call, b, env);
    if r.Some? {
      ReceiveFrame(Resolved(call, b, env), r.value, b, env);
    }
  }

  lemma KeepCounted(call: Call, launched: Result<Active, Error>)
    requires call.stream.None? && (launched.Ok? ==> launched.value.request.message == launched.value.request.own)
    ensures Counted(call, KeepStream(call, launched).call, false)
  {
  }

  lemma EagerCounted(call: Call, b: Batch, env: Env)
    requires call.stream.None?
    ensures Counted(call, EagerSend(call, b, env).call, false)
  {
    var kept := Buffered(call, b, env);
    var taken := kept.(pendingMetadata := [], pendingMessage := None);
    KeepCounted(taken, Launch(taken, Request(kept.pendingMetadata, [], kept.pendingMessage, b.message), false, env));
  }

  lemma StreamCounted(call: Call, b: Batch, env: Env, o: BatchOutcome)
    requires call.stream.Some? && Framed(call, b, env, o)
    ensures Counted(call, o.call, false)
  {
  }

  lemma OpenBidiCounted(call: Call, b: Batch, env: Env)
    requires RouteOf(call, b).StartBidi? && SendsOk(call, b, env)
    ensures Counted(call, OpenBidi(call, b, env).call, false)
  {
    if !PluginThrows(env) && LaunchBidi(call, env).Ok? {
      SendOnFrame(LaunchBidi(call, env).value, b, env);
    }
  }

  lemma DispatchCounted(call: Call, b: Batch, env: Env)
    requires EnvOk(call, b, env)
    ensures var o := Dispatch(call, b, env); Counted(call, o.call, FindsStale(call, b) && o.result.Ok?)
  {
    match RouteOf(call, b)
    case Eager => EagerCounted(call, b, env);
    case StartBidi => OpenBidiCounted(call, b, env);
    case OneShot => OneShotCounted(call, b, env);
    case Lazy => LazyCounted(call, b, env);
    case Buffer =>
    case Forward =>
      ForwardFrame(call, b, env);
      StreamCounted(call, b, env, ForwardSend(call, b, env));
    case ReadActive =>
      ReadStreamFrame(call, b, env);
      StreamCounted(call, b, env, ReadStream(call, b, env));
  }

  /** A batch that hands over a message left in the buffer. */
  predicate TakesStale(call: Call, a: Act)
    requires ActOk(call, a)
  {
    a.Submit? && Dispatches(call, a.batch, a.env) && FindsStale(call, a.batch)
    && StartBatch(call, a.batch, a.env).result.Ok?
  }

  lemma BetweenCounted(call: Call, a: Act)
    requires ActOk(call, a) && !a.Submit?
    ensures Counted(call, Perform(call, a), false)
  {
  }

  lemma SettleCounted(call: Call, b: Batch, o: BatchOutcome, stale: bool)
    requires Counted(Mark(call, b), o.call, stale)
    ensures Counted(call, Settle(b, o).call, stale)
  {
  }

  lemma StaleStep(call: Call, a: Act)
    requires ActOk(call, a)
    ensures Counted(call, Perform(call, a), TakesStale(call, a))
  {
    if !a.Submit? {
      BetweenCounted(call, a);
    } else if Dispatches(call, a.batch, a.env) {
      var marked := Mark(call, a.batch);
      var o := Dispatch(marked, a.batch, a.env);
      DispatchCounted(marked, a.batch, a.env);
      SettleCounted(call, a.batch, o, FindsStale(marked, a.batch) && o.result.Ok?);
    }
  }

  /** How many batches of a run hand over a message left in the buffer. */
  function StaleReads(call: Call, acts: seq<Act>): nat
    requires ValidActs(call, acts)
    decreases |acts|
  {
    if acts == [] then 0
    else One(TakesStale(call, acts[0])) + StaleReads(Perform(call, acts[0]), acts[1..])
  }

  lemma {:induction false} RunCounted(call: Call, acts: seq<Act>)
    requires ValidActs(call, acts) && AllCover(call)
    ensures StaleRequests(PerformAll(call, acts)) == StaleRequests(call) + StaleReads(call, acts)
    ensures AllCover(PerformAll(call, acts))
    decreases |acts|
  {
    if acts != [] {
      StaleStep(call, acts[0]);
      RunCounted(Perform(call, acts[0]), acts[1..]);
    }
  }

  /**
   * Over every run, failed batches included: the messages handed over to one-batch calls and
   * to the stream outnumber those PHP was told were accepted by the batches that took a
   * message left in the buffer. The two agree, each message once and in order, if and only
   * if there was no such batch.
   */
  lemma AcceptedExactlyHandedOver(call: Call, acts: seq<Act>)
    requires IsNew(call) && ValidActs(call, acts)
    ensures var after := PerformAll(call, acts);
            && |HandedOver(after)| == |after.history.accepted| + StaleReads(call, acts)
            && (after.history.accepted == HandedOver(after) <==> StaleReads(call, acts) == 0)
  {
    RunOk(call, acts);
    RunCounted(call, acts);
    AttemptsCounted(PerformAll(call, acts).history.attempts);
  }

  /** No batch of the run leaves a message in the buffer. */
  predicate NothingLeft(call: Call, acts: seq<Act>)
    requires ValidActs(call, acts)
    decreases |acts|
  {
    acts == [] ||
    (!(acts[0].Submit? && Dispatches(call, acts[0].batch, acts[0].env)
       && LeavesMessage(call, acts[0].batch, acts[0].env))
     && NothingLeft(Perform(call, acts[0]), acts[1..]))
  }

  lemma BufferStep(call: Call, a: Act)
    requires ActOk(call, a) && call.pendingMessage.None?
    ensures Perform(call, a).pendingMessage.Some? <==>
            a.Submit? && Dispatches(call, a.batch, a.env) && LeavesMessage(call, a.batch, a.env)
  {
    if a.Submit? && Dispatches(call, a.batch, a.env) {
      BufferExactly(Mark(call, a.batch), a.batch, a.env);
    }
  }

  lemma {:induction false} NothingLeftNothingStale(call: Call, acts: seq<Act>)
    requires ValidActs(call, acts) && call.pendingMessage.None? && NothingLeft(call, acts)
    ensures StaleReads(call, acts) == 0
    decreases |acts|
  {
    if acts != [] {
      BufferStep(call, acts[0]);
      NothingLeftNothingStale(Perform(call, acts[0]), acts[1..]);
    }
  }

  lemma {:induction false} NoFailureLeavesNothing(call: Call, acts: seq<Act>)
    requires CallInv(call) && ValidActs(call, acts) && !PerformAll(call, acts).history.failed
    ensures NothingLeft(call, acts)
    decreases |acts|
  {
    if acts != [] {
      PerformOk(call, acts[0]);
      RunEvolves(Perform(call, acts[0]), acts[1..]);
      NoFailureLeavesNothing(Perform(call, acts[0]), acts[1..]);
    }
  }

  /**
   * So the accepted messages are those handed over in every run in which no half-closed batch
   * without a stream fails in its plugin, and in particular in every run without a failed batch.
   */
  lemma AcceptedIsHandedOver(call: Call, acts: seq<Act>)
    requires IsNew(call) && ValidActs(call, acts)
    requires NothingLeft(call, acts) || !PerformAll(call, acts).history.failed
    ensures PerformAll(call, acts).history.accepted == HandedOver(PerformAll(call, acts))
  {
    if !PerformAll(call, acts).history.failed {
      NoFailureLeavesNothing(call, acts);
    }
    NothingLeftNothingStale(call, acts);
    AcceptedExactlyHandedOver(call, acts);
  }

  /** A message and a half-close. */
  function LastMessage(message: Bytes): Batch {
    Batch(None, Some(message), true, NO_OPS)
  }

  /**
   * A failed batch can still be sent: when the plugin throws, the message stays
   * in the buffer, and the next receive hands it over although PHP was told the
   * batch failed.
   */
  lemma FailedBatchIsSent(call: Call, message: Bytes, failing: Env, b: Batch, env: Env)
    requires IsNew(call) && !failing.channelClosed && PluginThrows(failing) && call.clock <= failing.now
    requires b.Receives() && !b.Sends()
    requires ActOk(Perform(call, Submit(LastMessage(message), failing)), Submit(b, env))
    requires StartBatch(Perform(call, Submit(LastMessage(message), failing)), b, env).result.Ok?
    ensures StartBatch(call, LastMessage(message), failing).result == Err(PluginFailed)
    ensures var mid := Perform(call, Submit(LastMessage(message), failing));
            var after := StartBatch(mid, b, env).call;
            after.history.accepted == [] && HandedOver(after) == [message]
  {
    var mid := Perform(call, Submit(LastMessage(message), failing));
    assert mid.pendingMessage == Some(message) && mid.sendClosed && mid.stream.None? && mid.history.attempts == [];
    StaleMessage(mid, message, b, env);
  }

  lemma StaleLazy(call: Call, message: Bytes, b: Batch, env: Env)
    requires call.history.attempts == [] && call.pendingMessage == Some(message) && !b.Sends()
    requires EnvOk(call, b, env) && RouteOf(call, b).Lazy? && LazyStream(call, b, env).result.Ok?
    ensures HandedOver(LazyStream(call, b, env).call) == [message]
  {
    LazyForm(call, b, env);
    var a := ReadSource(call, b, env).value;
    assert StreamPayloads(Some(a)) == [message];
    ReceiveFrame(Resolved(call, b, env), a, b, env);
  }

  lemma StaleOneShot(call: Call, message: Bytes, b: Batch, env: Env)
    requires call.stream.None? && call.history.attempts == [] && call.pendingMessage == Some(message) && !b.Sends()
    requires OneShotCall(call, b, env).result.Ok?
    ensures HandedOver(OneShotCall(call, b, env).call) == [message]
  {
    AttemptKeepsRequest(Resolved(call, b, env), b, ResolvedRequest(call, b, env), env);
    OneAttempt(OneShotCall(call, b, env).call.history.attempts);
  }

  lemma StaleMessage(call: Call, message: Bytes, b: Batch, env: Env)
    requires call.stream.None? && call.history.attempts == [] && call.pendingMessage == Some(message)
    requires b.Receives() && !b.Sends() && EnvOk(call, b, env) && Dispatch(call, b, env).result.Ok?
    ensures HandedOver(Dispatch(call, b, env).call) == [message]
    ensures Dispatch(call, b, env).call.history.accepted == call.history.accepted
  {
    DispatchFrame(call, b, env);
    if RouteOf(call, b).Lazy? {
      StaleLazy(call, message, b, env);
    } else {
      StaleOneShot(call, message, b, env);
    }
  }

  lemma OneAttempt(attempts: seq<Attempt>)
    requires |attempts| == 1
    ensures AttemptPayloads(attempts) == if attempts[0].ok then Payload(attempts[0].request.message) else []
  {
    assert AttemptPayloads(attempts[..0]) == [];
  }
}
