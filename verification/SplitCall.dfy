/** The split form of a unary call, batch by batch, against the single-batch form. */
module SplitCall {
  import opened Base
  import opened Deadline
  import opened StreamProtocol
  import opened StreamInvariant
  import opened StreamTheorems
  import opened Unary
  import opened SplitUnary
  import opened CallMachine
  import opened CallInvariant
  import opened CallTheorems
  import opened Answers

  function SendAll(metadata: seq<Pair>, message: Bytes): Batch {
    Batch(Some(metadata), Some(message), true, NO_OPS)
  }

  function RecvAll(meta: bool): Batch {
    Batch(None, None, false, RecvOps(meta, true, true))
  }

  function Single(metadata: seq<Pair>, message: Bytes, meta: bool): Batch {
    Batch(Some(metadata), Some(message), true, RecvOps(meta, true, true))
  }

  // ---- one read per wait ----

  function ReadMark(h: Hand): nat {
    if h.reply.message.Some? then 1 else 0
  }

  lemma ReplyIsFirstRead(h: Hand)
    requires ReplyHolds(h) && ReadCount(h.log) == 1 && h.reply.message.Some? && h.reply.status.Some?
    ensures h.reply.message == Some(FirstRead(h.log))
    ensures h.log.statuses != [] && h.reply.status == Some(h.log.statuses[0])
  {
  }

  /** The only receive of a call gives PHP its one read and its status. */
  lemma OnlyReceive(c: Config, s: State, meta: bool, at: Clock, es: seq<Event>)
    requires Reachable(c, s) && s.hand.log.statuses == [] && ReadCount(s.hand.log) == 0 && s.hand.log.metas == []
    requires AnswersBy(c, s, RecvOps(meta, true, true), at, es)
    ensures var s' := After(c, BeginState(s, RecvOps(meta, true, true), at), es);
            && Reachable(c, s') && AnsweredOnce(s')
            && (meta ==> s'.hand.log.metas != [] && s'.hand.reply.meta == Some(s'.hand.log.metas[0]))
            && s'.hand.reply.message == Some(FirstRead(s'.hand.log))
            && s'.hand.reply.status == Some(s'.hand.log.statuses[0])
  {
    var ops := RecvOps(meta, true, true);
    WaitResult(c, s, ops, at, es);
    WaitRecords(c, s, ops, at, es);
    OneRead(c, s, ops, at, es);
    ReplyIsFirstRead(After(c, BeginState(s, ops, at), es).hand);
  }

  lemma OneRead(c: Config, s: State, ops: RecvOps, at: Clock, es: seq<Event>)
    requires Reachable(c, s) && AnswersBy(c, s, ops, at, es)
    ensures var s' := After(c, BeginState(s, ops, at), es);
            ReplyHolds(s'.hand) && ReadCount(s'.hand.log) == ReadCount(s.hand.log) + ReadMark(s'.hand)
  {
    WaitRecords(c, s, ops, at, es);
    NextReachable(c, s, Event(Begin(ops), at));
    StillReachable(c, BeginState(s, ops, at), es);
    ReachableInv(c, After(c, BeginState(s, ops, at), es));
  }

  // ---- the two batches ----

  predicate AllBackground(acts: seq<Act>) {
    forall i :: 0 <= i < |acts| ==> acts[i].Background?
  }

  /** Driver progress between the batches touches nothing PHP holds. */
  lemma {:induction false} BackgroundKeeps(call: Call, acts: seq<Act>)
    requires CallInv(call) && call.stream.Some? && AllBackground(acts) && ValidActs(call, acts)
    ensures var after := PerformAll(call, acts);
            && CallInv(after) && after.stream.Some?
            && after == call.(stream := after.stream, clock := after.clock) && after.clock >= call.clock
            && after.stream.value == call.stream.value.(state := after.stream.value.state)
            && after.stream.value.state.hand == call.stream.value.state.hand
    decreases |acts|
  {
    if acts != [] {
      PerformOk(call, acts[0]);
      BackgroundKeeps(Perform(call, acts[0]), acts[1..]);
    }
  }

  /** What the send batch leaves: a stream with the call's script, and no answer yet. */
  lemma SendLaunches(call: Call, metadata: seq<Pair>, message: Bytes, env: Env)
    requires IsNew(call) && call.pathValid && call.clock <= env.now
    requires !env.channelClosed && !PluginThrows(env)
    ensures var b := SendAll(metadata, message);
            && ActOk(call, Submit(b, env))
            && StartBatch(call, b, env).result == Ok(EMPTY_REPLY)
            && var after := StartBatch(call, b, env).call;
               && after.stream.Some? && !after.finished && !after.cancelled
               && after.clock == env.now
               && after.stream.value.config == StreamConfig(call, env)
               && after.stream.value.state == Init(StreamConfig(call, env))
  {
  }

  /** The state and reply of the split form's receive batch. */
  lemma RecvAnswers(call: Call, meta: bool, env: Env)
    requires CallInv(call) && call.stream.Some? && !call.finished && !call.cancelled && !env.channelClosed
    requires ReadCount(call.stream.value.state.hand.log) == 0 && call.stream.value.state.hand.log.metas == []
    requires ActOk(call, Submit(RecvAll(meta), env))
    ensures var o := StartBatch(call, RecvAll(meta), env);
            && o.result.Ok? && o.call.stream.Some?
            && o.call.stream.value.config == call.stream.value.config
            && var s := o.call.stream.value.state;
               && Reachable(call.stream.value.config, s) && AnsweredOnce(s)
               && s.clock == o.call.clock
               && o.result.value.message == Some(FirstRead(s.hand.log))
               && o.result.value.status == Some(s.hand.log.statuses[0])
               && (meta ==> s.hand.log.metas != [] && o.result.value.meta == Some(s.hand.log.metas[0]))
  {
    var a := call.stream.value;
    OnlyReceive(a.config, a.state, meta, env.now, env.schedule);
  }

  /** Same message, code and details in two results. */
  predicate SameResult(split: Result<Reply, Error>, single: Result<Reply, Error>) {
    && split.Ok? && single.Ok?
    && split.value.message == single.value.message
    && split.value.status.Some? && single.value.status.Some?
    && split.value.status.value.code == single.value.status.value.code
    && split.value.status.value.message == single.value.status.value.message
  }

  /** What the split form reports about the launched stream. */
  ghost predicate ReportsStream(c: Config, o: BatchOutcome, meta: bool) {
    && o.result.Ok? && o.call.stream.Some?
    && var s := o.call.stream.value.state;
       && Reachable(c, s) && AnsweredOnce(s) && s.clock == o.call.clock
       && o.result.value.message == Some(FirstRead(s.hand.log))
       && o.result.value.status == Some(s.hand.log.statuses[0])
       && (meta ==> s.hand.log.metas != [] && o.result.value.meta == Some(s.hand.log.metas[0]))
  }

  /** What the single-batch form reports about its unary call. */
  predicate ReportsUnary(o: BatchOutcome, unary: Result<CallResult, CallError>, meta: bool, ch: Choice) {
    && o.call.clock == ch.raceAt
    && (o.result.Ok? <==> unary.Ok?)
    && (unary.Ok? ==> o.result.value == UnaryReply(unary.value, RecvOps(meta, true, true)))
  }

  /** The single-batch form is the unary call of its script. */
  lemma SingleIsUnary(call: Call, metadata: seq<Pair>, message: Bytes, meta: bool, env: Env)
    requires IsNew(call) && call.pathValid && !env.channelClosed && !PluginThrows(env)
    requires ActOk(call, Submit(Single(metadata, message, meta), env))
    ensures env.choice.entry == env.now && ValidChoice(call.deadline, env.choice)
    ensures ReportsUnary(StartBatch(call, Single(metadata, message, meta), env),
                         ExecuteCall(env.script, call.deadline, true, env.choice), meta, env.choice)
  {
  }

  /** The comparison, on what the two forms report. */
  lemma ReportsAgree(c: Config, split: BatchOutcome, single: BatchOutcome, meta: bool, ch: Choice)
    requires ReportsStream(c, split, meta)
    requires ReportsUnary(single, ExecuteCall(c.script, c.deadline, true, ch), meta, ch)
    requires !Expired(c) && !DeadlineFires(c, split.call.clock)
    requires ValidChoice(c.deadline, ch) && !AlreadyExpired(c.deadline, ch.entry) && !ch.winner.CancelWins?
    requires single.call.clock < DeadlineInstant(c.deadline, ch.entry)
    ensures SameResult(split.result, single.result) <==> UnaryShaped(c.script)
    ensures UnaryShaped(c.script) && StatusOutsideBody(c.script.response) ==>
              (split.result.value.status.value.metadata == single.result.value.status.value.metadata <==>
               TrailersEmpty(c.script.response))
    ensures meta && c.script.connection.Connected? ==>
              (split.result.value.meta == single.result.value.meta <==> HeadersAgree(c.script.response, ch.merged))
  {
    var s := split.call.stream.value.state;
    SplitAgreesBeforeDeadline(c, s, ch);
    if meta && c.script.connection.Connected? {
      SplitHeadersBeforeDeadline(c, s, ch);
    }
    if UnaryShaped(c.script) && StatusOutsideBody(c.script.response) {
      SplitMetadataBeforeDeadline(c, s, ch);
    }
  }

  /** The two forms of the same call: its send batch, driver progress, its receive batch; and the single batch. */
  datatype TwoForms = TwoForms(
    call: Call,
    metadata: seq<Pair>,
    message: Bytes,
    meta: bool,
    sendEnv: Env,
    between: seq<Act>,
    recvEnv: Env,
    singleEnv: Env)

  function SplitStart(f: TwoForms): Call
    requires ActOk(f.call, Submit(SendAll(f.metadata, f.message), f.sendEnv))
  {
    StartBatch(f.call, SendAll(f.metadata, f.message), f.sendEnv).call
  }

  predicate Comparable(f: TwoForms) {
    && IsNew(f.call) && f.call.pathValid
    && !f.sendEnv.channelClosed && !f.recvEnv.channelClosed && !f.singleEnv.channelClosed
    && !PluginThrows(f.sendEnv) && !PluginThrows(f.singleEnv)
    && f.singleEnv.script == f.sendEnv.script && !f.singleEnv.choice.winner.CancelWins?
    && ActOk(f.call, Submit(SendAll(f.metadata, f.message), f.sendEnv))
    && AllBackground(f.between) && ValidActs(SplitStart(f), f.between)
    && ActOk(PerformAll(SplitStart(f), f.between), Submit(RecvAll(f.meta), f.recvEnv))
    && ActOk(f.call, Submit(Single(f.metadata, f.message, f.meta), f.singleEnv))
    && f.call.clock <= f.sendEnv.now
  }

  function SplitOutcome(f: TwoForms): BatchOutcome
    requires Comparable(f)
  {
    StartBatch(PerformAll(SplitStart(f), f.between), RecvAll(f.meta), f.recvEnv)
  }

  function SingleOutcome(f: TwoForms): BatchOutcome
    requires Comparable(f)
  {
    StartBatch(f.call, Single(f.metadata, f.message, f.meta), f.singleEnv)
  }

  lemma RecvAfterBackground(call: Call, between: seq<Act>, meta: bool, env: Env)
    requires CallInv(call) && call.stream.Some? && !call.finished && !call.cancelled && !env.channelClosed
    requires call.stream.value.state.hand == Init(call.stream.value.config).hand
    requires AllBackground(between) && ValidActs(call, between)
    requires ActOk(PerformAll(call, between), Submit(RecvAll(meta), env))
    ensures ReportsStream(call.stream.value.config, StartBatch(PerformAll(call, between), RecvAll(meta), env), meta)
  {
    BackgroundKeeps(call, between);
    RecvAnswers(PerformAll(call, between), meta, env);
  }

  lemma SplitReaches(f: TwoForms)
    requires Comparable(f)
    ensures ReportsStream(StreamConfig(f.call, f.sendEnv), SplitOutcome(f), f.meta)
  {
    SendLaunches(f.call, f.metadata, f.message, f.sendEnv);
    PerformOk(f.call, Submit(SendAll(f.metadata, f.message), f.sendEnv));
    RecvAfterBackground(SplitStart(f), f.between, f.meta, f.recvEnv);
  }

  /** Neither form reaches the deadline. */
  predicate InTime(f: TwoForms)
    requires Comparable(f)
  {
    && !AlreadyExpired(f.call.deadline, f.sendEnv.now) && !AlreadyExpired(f.call.deadline, f.singleEnv.now)
    && SplitOutcome(f).call.clock < DeadlineInstant(f.call.deadline, f.sendEnv.now)
    && SingleOutcome(f).call.clock < DeadlineInstant(f.call.deadline, f.singleEnv.now)
  }

  /**
   * Before the deadline the two forms give PHP the same message, code and details
   * exactly on unary-shaped scripts; of a success or a refusal the status metadata is
   * the same too, unless a success has trailers, which only the split form shows. The
   * initial metadata is the same exactly if the library attached just the headers to a
   * success, or there were none to lose with any other accepted response.
   */
  lemma SplitEqualsSingle(f: TwoForms)
    requires Comparable(f) && InTime(f)
    ensures SameResult(SplitOutcome(f).result, SingleOutcome(f).result) <==> UnaryShaped(f.sendEnv.script)
    ensures UnaryShaped(f.sendEnv.script) && StatusOutsideBody(f.sendEnv.script.response) ==>
              var split, single := SplitOutcome(f).result.value, SingleOutcome(f).result.value;
              split.status.value.metadata == single.status.value.metadata <==>
              TrailersEmpty(f.sendEnv.script.response)
    ensures f.meta && f.sendEnv.script.connection.Connected? ==>
              && SplitOutcome(f).result.Ok? && SingleOutcome(f).result.Ok?
              && (SplitOutcome(f).result.value.meta == SingleOutcome(f).result.value.meta <==>
                  HeadersAgree(f.sendEnv.script.response, f.singleEnv.choice.merged))
  {
    SplitReaches(f);
    SingleIsUnary(f.call, f.metadata, f.message, f.meta, f.singleEnv);
    ReportsAgree(StreamConfig(f.call, f.sendEnv), SplitOutcome(f), SingleOutcome(f), f.meta, f.singleEnv.choice);
  }

  /** With the deadline already passed the two forms always give PHP the same answer. */
  lemma SplitEqualsSingleExpired(f: TwoForms)
    requires Comparable(f)
    requires AlreadyExpired(f.call.deadline, f.sendEnv.now) && AlreadyExpired(f.call.deadline, f.singleEnv.now)
    ensures SameResult(SplitOutcome(f).result, SingleOutcome(f).result)
    ensures f.meta ==> SplitOutcome(f).result.value.meta == SingleOutcome(f).result.value.meta == Some([])
  {
    SplitReaches(f);
    SingleIsUnary(f.call, f.metadata, f.message, f.meta, f.singleEnv);
    var s := SplitOutcome(f).call.stream.value.state;
    InitialMetadataExact(StreamConfig(f.call, f.sendEnv), s);
    SplitAgreesWhenExpired(StreamConfig(f.call, f.sendEnv), s, f.singleEnv.choice, true);
  }

  // ---- both sides of the comparison exist ----

  lemma SingleAtOnce(call: Call, metadata: seq<Pair>, message: Bytes, meta: bool, env: Env)
    requires IsNew(call) && env == Quick(call.clock, env.script, []) && !AlreadyExpired(call.deadline, call.clock)
    ensures ActOk(call, Submit(Single(metadata, message, meta), env))
    ensures StartBatch(call, Single(metadata, message, meta), env).call.clock == call.clock
  {
  }

  lemma RecvAtOnce(call: Call, meta: bool, script: Script) returns (env: Env)
    requires CallInv(call) && call.stream.Some? && !call.finished && !call.cancelled
    ensures env == Quick(call.clock, script, env.schedule)
    ensures ActOk(call, Submit(RecvAll(meta), env))
    ensures StartBatch(call, RecvAll(meta), env).call.clock == call.clock
  {
    var a, ops := call.stream.value, RecvOps(meta, true, true);
    var es := SomeScheduleAnswers(call.deadline, call.clock, a, ops);
    env := Quick(call.clock, script, es);
    RecvTakes(call, a, meta, env);
  }

  lemma RecvTakes(call: Call, a: Active, meta: bool, env: Env)
    requires call.stream == Some(a) && !call.finished && !call.cancelled && !env.channelClosed && call.clock <= env.now
    requires AnswersBy(a.config, a.state, RecvOps(meta, true, true), env.now, env.schedule)
    ensures ActOk(call, Submit(RecvAll(meta), env))
    ensures StartBatch(call, RecvAll(meta), env).call.clock ==
            After(a.config, BeginState(a.state, RecvOps(meta, true, true), env.now), env.schedule).clock
  {
  }

  lemma InTimeAtOnce(deadline: I64, now: Clock)
    requires !AlreadyExpired(deadline, now)
    ensures now < DeadlineInstant(deadline, now)
  {
  }

  /** Every script and every new call with time left has two forms to compare. */
  lemma TwoFormsExist(call: Call, metadata: seq<Pair>, message: Bytes, meta: bool, script: Script) returns (f: TwoForms)
    requires IsNew(call) && call.pathValid && !AlreadyExpired(call.deadline, call.clock)
    ensures f.call == call && f.metadata == metadata && f.message == message && f.meta == meta
    ensures f.sendEnv.script == script && Comparable(f) && InTime(f)
  {
    var sendEnv := Quick(call.clock, script, []);
    SendLaunches(call, metadata, message, sendEnv);
    PerformOk(call, Submit(SendAll(metadata, message), sendEnv));
    SingleAtOnce(call, metadata, message, meta, sendEnv);
    var mid := StartBatch(call, SendAll(metadata, message), sendEnv).call;
    var recvEnv := RecvAtOnce(mid, meta, script);
    InTimeAtOnce(call.deadline, call.clock);
    f := TwoForms(call, metadata, message, meta, sendEnv, [], recvEnv, sendEnv);
  }

  /**
   * The condition is needed: a response that is not unary-shaped makes the two forms
   * differ, for every call, metadata and message.
   */
  lemma FormsDiffer(call: Call, metadata: seq<Pair>, message: Bytes, meta: bool, script: Script) returns (f: TwoForms)
    requires IsNew(call) && call.pathValid && !AlreadyExpired(call.deadline, call.clock) && !UnaryShaped(script)
    ensures f.call == call && f.metadata == metadata && f.message == message && f.sendEnv.script == script
    ensures Comparable(f) && !SameResult(SplitOutcome(f).result, SingleOutcome(f).result)
  {
    f := TwoFormsExist(call, metadata, message, meta, script);
    SplitEqualsSingle(f);
  }
}
