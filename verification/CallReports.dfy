/** What a call sends along with its request, and what it reports about its deadline. */
module CallReports {
  import opened Base
  import opened Deadline
  import opened MetadataGroups
  import opened RequestStream
  import opened StreamProtocol
  import opened StreamTheorems
  import opened Unary
  import opened CallMachine
  import opened CallInvariant
  import opened CallTheorems

  // ---- initial metadata ----

  /** Nothing has been dispatched yet. */
  predicate Unstarted(call: Call) {
    call.stream.None? && call.history.attempts == []
  }

  /** Before the first dispatch the buffer starts with the metadata accepted so far. */
  predicate PendingHoldsInitial(call: Call) {
    Unstarted(call) && !call.history.failed ==>
      match call.history.initial
      case None => call.pendingMetadata == []
      case Some(initial) => initial <= call.pendingMetadata
  }

  lemma OnlyBufferingStaysUnstarted(call: Call, b: Batch, env: Env)
    requires EnvOk(call, b, env) && (b.Sends() || b.Receives()) && Unstarted(call)
    requires var o := Dispatch(call, b, env); Unstarted(o.call) && o.result.Ok?
    ensures RouteOf(call, b).Buffer?
  {
    if RouteOf(call, b).Lazy? {
      LazyKeepsStream(call, b, env);
    }
  }

  /** Buffering replaces the buffer by the metadata that is now the initial one. */
  lemma BufferingHoldsInitial(call: Call, b: Batch, env: Env)
    requires FlagsOk(call) && Dispatches(call, b, env) && RouteOf(Mark(call, b), b).Buffer?
    ensures PendingHoldsInitial(Settle(b, BufferSend(Mark(call, b), b, env)).call)
  {
    assert b.metadata.Some?;
  }

  lemma BetweenHoldsInitial(call: Call, a: Act)
    requires ActOk(call, a) && PendingHoldsInitial(call) && !a.Submit?
    ensures PendingHoldsInitial(Perform(call, a))
  {
  }

  lemma StaysUnstarted(call: Call, b: Batch, env: Env, o: BatchOutcome)
    requires Framed(Mark(call, b), b, env, o) && Unstarted(Settle(b, o).call)
    ensures Unstarted(Mark(call, b)) && Unstarted(o.call)
  {
  }

  lemma SubmitHoldsInitial(call: Call, b: Batch, env: Env)
    requires FlagsOk(call) && Dispatches(call, b, env) && EnvOk(Mark(call, b), b, env)
    ensures PendingHoldsInitial(Settle(b, Dispatch(Mark(call, b), b, env)).call)
  {
    var marked := Mark(call, b);
    var o := Dispatch(marked, b, env);
    DispatchFrame(marked, b, env);
    if Unstarted(Settle(b, o).call) && o.result.Ok? {
      StaysUnstarted(call, b, env, o);
      OnlyBufferingStaysUnstarted(marked, b, env);
      BufferingHoldsInitial(call, b, env);
    }
  }

  lemma PendingStep(call: Call, a: Act)
    requires FlagsOk(call) && ActOk(call, a) && PendingHoldsInitial(call)
    ensures PendingHoldsInitial(Perform(call, a))
  {
    if !a.Submit? {
      BetweenHoldsInitial(call, a);
    } else if Dispatches(call, a.batch, a.env) {
      SubmitHoldsInitial(call, a.batch, a.env);
    }
  }

  lemma {:induction false} RunKeepsPending(call: Call, acts: seq<Act>)
    requires CallInv(call) && PendingHoldsInitial(call) && ValidActs(call, acts)
    ensures PendingHoldsInitial(PerformAll(call, acts))
    decreases |acts|
  {
    if acts != [] {
      PendingStep(call, acts[0]);
      PerformOk(call, acts[0]);
      RunKeepsPending(Perform(call, acts[0]), acts[1..]);
    }
  }

  /** All entries of the first request a dispatch makes, in the order they are folded. */
  function SentEntries(after: Call): seq<Pair>
    requires !Unstarted(after)
  {
    var request :=
      if after.stream.Some? then after.stream.value.request
      else after.history.attempts[|after.history.attempts| - 1].request;
    request.send + request.plugin
  }

  /**
   * When the accepted initial metadata reaches the request: a bidi stream sends
   * only what an earlier batch buffered; every other dispatch with send
   * operations sends only what its own batch carries.
   */
  predicate MetadataTravels(call: Call, b: Batch) {
    if RouteOf(Mark(call, b), b).StartBidi? then b.metadata.GetOr([]) == []
    else !b.Sends() || b.metadata.Some? || call.history.initial.GetOr([]) == []
  }

  lemma BidiEntries(call: Call, b: Batch, env: Env)
    requires Unstarted(call) && RouteOf(call, b).StartBidi? && SendsOk(call, b, env)
    requires !Unstarted(OpenBidi(call, b, env).call)
    ensures SentEntries(OpenBidi(call, b, env).call) == call.pendingMetadata + PluginEntries(env)
  {
    SendOnFrame(LaunchBidi(call, env).value, b, env);
  }

  lemma EagerEntries(call: Call, b: Batch, env: Env)
    requires Unstarted(call) && !Unstarted(EagerSend(call, b, env).call)
    ensures SentEntries(EagerSend(call, b, env).call) == b.metadata.GetOr([]) + PluginEntries(env)
  {
  }

  /** The entries of a request resolved by a receive batch. */
  function ResolvedEntries(call: Call, b: Batch, env: Env): seq<Pair> {
    if b.Sends() then b.metadata.GetOr([]) + PluginEntries(env) else call.pendingMetadata
  }

  lemma OneShotEntries(call: Call, b: Batch, env: Env)
    requires Unstarted(call) && !Unstarted(OneShotCall(call, b, env).call)
    ensures SentEntries(OneShotCall(call, b, env).call) == ResolvedEntries(call, b, env)
  {
    AttemptKeepsRequest(Resolved(call, b, env), b, ResolvedRequest(call, b, env), env);
  }

  lemma LazyEntries(call: Call, b: Batch, env: Env)
    requires Unstarted(call) && EnvOk(call, b, env) && RouteOf(call, b).Lazy?
    requires !Unstarted(LazyStream(call, b, env).call)
    ensures SentEntries(LazyStream(call, b, env).call) == ResolvedEntries(call, b, env)
  {
    LazyForm(call, b, env);
    var r := ReadSource(call, b, env);
    if r.Some? {
      ReceiveFrame(Resolved(call, b, env), r.value, b, env);
    }
  }

  lemma FirstEntries(call: Call, b: Batch, env: Env)
    requires EnvOk(call, b, env) && Unstarted(call) && (b.Sends() || b.Receives())
    requires !Unstarted(Dispatch(call, b, env).call)
    ensures SentEntries(Dispatch(call, b, env).call) ==
            if RouteOf(call, b).StartBidi? then call.pendingMetadata + PluginEntries(env)
            else ResolvedEntries(call, b, env)
  {
    match RouteOf(call, b)
    case StartBidi => BidiEntries(call, b, env);
    case Eager => EagerEntries(call, b, env);
    case OneShot => OneShotEntries(call, b, env);
    case Lazy => LazyEntries(call, b, env);
    case _ =>
  }

  lemma SettleKeepsEntries(b: Batch, o: BatchOutcome)
    ensures Unstarted(Settle(b, o).call) <==> Unstarted(o.call)
    ensures !Unstarted(o.call) ==> SentEntries(Settle(b, o).call) == SentEntries(o.call)
  {
  }

  predicate EndsWith(entries: seq<Pair>, last: seq<Pair>) {
    |last| <= |entries| && entries[|entries| - |last|..] == last
  }

  /**
   * The first request of a call starts with the accepted initial metadata when it
   * travels; when it does not, the request carries the plugin's entries and nothing
   * else. Without a plugin this is an equivalence. What the plugin answers to a batch
   * that sends comes last.
   */
  lemma FirstRequestMetadata(call: Call, acts: seq<Act>, b: Batch, env: Env)
    requires IsNew(call) && ValidActs(call, acts)
    requires var c := PerformAll(call, acts);
             && Unstarted(c) && !c.history.failed && Dispatches(c, b, env) && EnvOk(Mark(c, b), b, env)
             && !Unstarted(StartBatch(c, b, env).call)
    ensures var c := PerformAll(call, acts);
            var initial := Mark(c, b).history.initial.GetOr([]);
            var sent := SentEntries(StartBatch(c, b, env).call);
            && (MetadataTravels(c, b) ==> initial <= sent)
            && (!MetadataTravels(c, b) ==> initial != [] && sent == PluginEntries(env))
            && (env.plugin.None? ==> (MetadataTravels(c, b) <==> initial <= sent))
            && (b.Sends() ==> EndsWith(sent, PluginEntries(env)))
  {
    RunOk(call, acts);
    RunKeepsPending(call, acts);
    FirstMetadata(PerformAll(call, acts), b, env);
  }

  lemma FirstMetadata(c: Call, b: Batch, env: Env)
    requires FlagsOk(c) && PendingHoldsInitial(c) && Unstarted(c) && !c.history.failed
    requires Dispatches(c, b, env) && EnvOk(Mark(c, b), b, env) && !Unstarted(StartBatch(c, b, env).call)
    ensures var initial := Mark(c, b).history.initial.GetOr([]);
            var sent := SentEntries(StartBatch(c, b, env).call);
            && (MetadataTravels(c, b) ==> initial <= sent)
            && (!MetadataTravels(c, b) ==> initial != [] && sent == PluginEntries(env))
            && (b.Sends() ==> EndsWith(sent, PluginEntries(env)))
  {
    SettleKeepsEntries(b, Dispatch(Mark(c, b), b, env));
    FirstEntries(Mark(c, b), b, env);
  }

  /** Nothing stops the dispatch. */
  predicate Unhindered(call: Call, env: Env) {
    && call.clock <= env.now && !env.channelClosed && !PluginThrows(env) && env.transport == []
    && call.pathValid && !AlreadyExpired(call.deadline, env.now)
  }

  /** Metadata in the batch of the first message of a bidi call is accepted and not sent, whatever it is. */
  lemma MetadataWithMessageIsLost(call: Call, metadata: seq<Pair>, message: Bytes, env: Env)
    requires IsNew(call) && Unhindered(call, env) && env.plugin.None?
    ensures var b := Batch(Some(metadata), Some(message), false, NO_OPS);
            && ActOk(call, Submit(b, env))
            && var o := StartBatch(call, b, env);
               && o.result.Ok? && o.call.history.initial == Some(metadata)
               && !Unstarted(o.call) && SentEntries(o.call) == []
  {
    var b := Batch(Some(metadata), Some(message), false, NO_OPS);
    var marked := Mark(call, b);
    assert SendEnds(NEW_PIPE, message, []);
    BidiEntries(marked, b, env);
  }

  /** Metadata in an earlier batch than a half-closed send is accepted and not sent, whatever it is. */
  lemma MetadataBeforeMessageIsLost(call: Call, metadata: seq<Pair>, message: Bytes, first: Env, second: Env)
    requires IsNew(call) && Unhindered(call, first) && Unhindered(call, second) && first.now <= second.now
    requires first.plugin.None? && second.plugin.None?
    ensures var b1, b2 := Batch(Some(metadata), None, false, NO_OPS), Batch(None, Some(message), true, NO_OPS);
            && ActOk(call, Submit(b1, first))
            && StartBatch(call, b1, first).result.Ok?
            && var mid := StartBatch(call, b1, first).call;
               && ActOk(mid, Submit(b2, second))
               && var o := StartBatch(mid, b2, second);
                  && o.result.Ok? && o.call.history.initial == Some(metadata)
                  && !Unstarted(o.call) && SentEntries(o.call) == []
  {
  }

  /**
   * A call that asks its plugin twice: buffering metadata, then opening a bidi stream. The request
   * carries both answers, so a header is the second answer's if that writes it, and otherwise the
   * first answer leaves its trace.
   */
  lemma PluginAskedTwice(
    call: Call, metadata: seq<Pair>, message: Bytes, first: Env, second: Env, parse: Parser, name: string)
    requires IsNew(call) && Unhindered(call, first) && Unhindered(call, second) && first.now <= second.now
    ensures var b1, b2 := Batch(Some(metadata), None, false, NO_OPS), Batch(None, Some(message), false, NO_OPS);
            && ActOk(call, Submit(b1, first))
            && StartBatch(call, b1, first).result.Ok?
            && var mid := StartBatch(call, b1, first).call;
               && ActOk(mid, Submit(b2, second))
               && var o := StartBatch(mid, b2, second);
                  && o.result.Ok? && !Unstarted(o.call)
                  && SentEntries(o.call) == metadata + PluginEntries(first) + PluginEntries(second)
                  && var header := LastWritten(SentEntries(o.call), parse, name);
                     var a := LastWritten(PluginEntries(first), parse, name);
                     var b := LastWritten(PluginEntries(second), parse, name);
                     && (b.Some? ==> header == b)
                     && (header == LastWritten(metadata + PluginEntries(second), parse, name) <==>
                         b.Some? || a.None? || a == LastWritten(metadata, parse, name))
  {
    var b1, b2 := Batch(Some(metadata), None, false, NO_OPS), Batch(None, Some(message), false, NO_OPS);
    var mid := StartBatch(call, b1, first).call;
    assert mid.pendingMetadata == metadata + PluginEntries(first);
    assert SendEnds(NEW_PIPE, message, []);
    BidiEntries(Mark(mid, b2), b2, second);
    PluginTwice(metadata, PluginEntries(first), PluginEntries(second), parse, name);
  }

  // ---- the deadline ----

  /** No status of any transport script says DEADLINE_EXCEEDED. */
  predicate ServersKeepQuiet(acts: seq<Act>) {
    forall i :: 0 <= i < |acts| && acts[i].Submit? ==> QuietScript(acts[i].env.script)
  }

  predicate QuietScript(script: Script) {
    NoErrorHasCode(Config(script, 0, 0, 1), DEADLINE_EXCEEDED)
  }

  /** A locally reported DEADLINE_EXCEEDED was true when it was reported. */
  predicate DeadlineHonest(call: Call, start: Clock) {
    && start <= call.clock
    && (call.stream.Some? ==>
          QuietScript(call.stream.value.config.script) && start <= call.stream.value.config.start)
    && (call.history.statuses != [] && call.history.statuses[0].code == DEADLINE_EXCEEDED
        && call.clock < start + SENTINEL ==>
          RealDeadline(call.deadline) && call.clock >= call.deadline)
  }

  lemma StreamIsHonest(call: Call, start: Clock)
    requires CallInv(call) && call.stream.Some? && call.clock < start + SENTINEL
    requires QuietScript(call.stream.value.config.script) && start <= call.stream.value.config.start
    requires call.history.statuses != [] && call.history.statuses[0].code == DEADLINE_EXCEEDED
    ensures RealDeadline(call.deadline) && call.clock >= call.deadline
  {
    StreamDeadlineSound(call.stream.value.config, call.stream.value.state);
  }

  lemma OneShotIsHonest(call: Call, b: Batch, env: Env)
    requires QuietScript(env.script) && ValidChoice(call.deadline, env.choice) && env.choice.entry == env.now
    requires var o := OneShotCall(call, b, env);
             && o.result.Ok? && o.result.value.status.Some? && o.result.value.status.value.code == DEADLINE_EXCEEDED
             && o.call.clock < env.now + SENTINEL
    ensures RealDeadline(call.deadline) && OneShotCall(call, b, env).call.clock >= call.deadline
  {
    UnaryDeadlineSound(env.script, call.deadline, call.pathValid, env.choice);
  }

  lemma HonestBetween(call: Call, a: Act, start: Clock)
    requires ActOk(call, a) && !a.Submit? && CallInv(Perform(call, a)) && DeadlineHonest(call, start)
    ensures DeadlineHonest(Perform(call, a), start)
  {
    BetweenEvolves(call, a);
    var after := Perform(call, a);
    if after.stream.Some? {
      HonestStream(after, start);
    }
  }

  lemma HonestStep(call: Call, a: Act, start: Clock)
    requires CallInv(call) && ActOk(call, a) && DeadlineHonest(call, start)
    requires a.Submit? ==> QuietScript(a.env.script)
    ensures DeadlineHonest(Perform(call, a), start)
  {
    PerformOk(call, a);
    if !a.Submit? {
      HonestBetween(call, a, start);
    } else if Dispatches(call, a.batch, a.env) {
      HonestDispatch(Mark(call, a.batch), a.batch, a.env, start);
    }
  }

  lemma HonestDispatch(call: Call, b: Batch, env: Env, start: Clock)
    requires EnvOk(call, b, env) && QuietScript(env.script) && (b.Sends() || b.Receives())
    requires DeadlineHonest(call, start) && call.history.statuses == []
    requires CallInv(Settle(b, Dispatch(call, b, env)).call)
    ensures DeadlineHonest(Settle(b, Dispatch(call, b, env)).call, start)
  {
    var o := Dispatch(call, b, env);
    DispatchFrame(call, b, env);
    if o.call.stream.None? && ReportsDeadline(o) && o.call.clock < env.now + SENTINEL {
      OnlyOneShotReports(call, b, env);
      OneShotIsHonest(call, b, env);
    }
    HonestOutcome(call, b, env, o, start);
  }

  predicate ReportsDeadline(o: BatchOutcome) {
    o.result.Ok? && o.result.value.status.Some? && o.result.value.status.value.code == DEADLINE_EXCEEDED
  }

  lemma HonestOutcome(call: Call, b: Batch, env: Env, o: BatchOutcome, start: Clock)
    requires Framed(call, b, env, o) && QuietScript(env.script) && call.clock <= env.now
    requires DeadlineHonest(call, start) && call.history.statuses == [] && CallInv(Settle(b, o).call)
    requires o.call.stream.None? && ReportsDeadline(o) && o.call.clock < env.now + SENTINEL ==>
               RealDeadline(call.deadline) && o.call.clock >= call.deadline
    ensures DeadlineHonest(Settle(b, o).call, start)
  {
    if o.call.stream.Some? {
      QuietStream(call, b, env, o, start);
      HonestStream(Settle(b, o).call, start);
    } else {
      HonestReply(call, b, env, o, start);
    }
  }

  lemma HonestReply(call: Call, b: Batch, env: Env, o: BatchOutcome, start: Clock)
    requires Framed(call, b, env, o) && call.clock <= env.now && o.call.stream.None?
    requires start <= call.clock && call.history.statuses == []
    requires ReportsDeadline(o) && o.call.clock < env.now + SENTINEL ==>
               RealDeadline(call.deadline) && o.call.clock >= call.deadline
    ensures DeadlineHonest(Settle(b, o).call, start)
  {
  }

  lemma QuietStream(call: Call, b: Batch, env: Env, o: BatchOutcome, start: Clock)
    requires Framed(call, b, env, o) && QuietScript(env.script) && call.clock <= env.now && DeadlineHonest(call, start)
    ensures start <= o.call.clock
    ensures o.call.stream.Some? ==>
              QuietScript(o.call.stream.value.config.script) && start <= o.call.stream.value.config.start
  {
  }

  lemma HonestStream(call: Call, start: Clock)
    requires CallInv(call) && call.stream.Some? && start <= call.clock
    requires QuietScript(call.stream.value.config.script) && start <= call.stream.value.config.start
    ensures DeadlineHonest(call, start)
  {
    if call.history.statuses != [] && call.history.statuses[0].code == DEADLINE_EXCEEDED
       && call.clock < start + SENTINEL {
      StreamIsHonest(call, start);
    }
  }

  /** Send-only batches without a stream report nothing. */
  lemma SendsReportNothing(call: Call, b: Batch, env: Env)
    requires call.stream.None?
    ensures RouteOf(call, b).StartBidi? && SendsOk(call, b, env) && OpenBidi(call, b, env).result.Ok? ==>
              OpenBidi(call, b, env).result.value == EMPTY_REPLY
    ensures EagerSend(call, b, env).result.Ok? ==> EagerSend(call, b, env).result.value == EMPTY_REPLY
    ensures BufferSend(call, b, env).result.Ok? ==> BufferSend(call, b, env).result.value == EMPTY_REPLY
  {
  }

  lemma LazyKeepsStream(call: Call, b: Batch, env: Env)
    requires EnvOk(call, b, env) && RouteOf(call, b).Lazy? && LazyStream(call, b, env).result.Ok?
    ensures LazyStream(call, b, env).call.stream.Some?
  {
  }

  lemma OnlyOneShotReports(call: Call, b: Batch, env: Env)
    requires EnvOk(call, b, env) && (b.Sends() || b.Receives())
    requires var o := Dispatch(call, b, env); o.call.stream.None? && o.result.Ok? && o.result.value.status.Some?
    ensures RouteOf(call, b).OneShot?
  {
    DispatchFrame(call, b, env);
    SendsReportNothing(call, b, env);
    if RouteOf(call, b).Lazy? {
      LazyKeepsStream(call, b, env);
    }
  }

  /** On every path: a DEADLINE_EXCEEDED no server sent means a real deadline that has passed. */
  lemma {:induction false} CallDeadlineSound(call: Call, acts: seq<Act>, start: Clock)
    requires CallInv(call) && DeadlineHonest(call, start) && ValidActs(call, acts) && ServersKeepQuiet(acts)
    ensures DeadlineHonest(PerformAll(call, acts), start)
    decreases |acts|
  {
    if acts != [] {
      HonestStep(call, acts[0], start);
      PerformOk(call, acts[0]);
      CallDeadlineSound(Perform(call, acts[0]), acts[1..], start);
    }
  }
}
