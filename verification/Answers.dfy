/**
 * What PHP gets out of `startBatch`: the fields of the result objects, batch after batch,
 * against what the stream handed over.
 */
module Answers {
  import opened Base
  import opened Deadline
  import opened Metadata
  import opened StreamProtocol
  import opened StreamInvariant
  import opened StreamTheorems
  import opened CallMachine
  import opened CallInvariant
  import opened CallTheorems

  /** What a stream has handed over so far. */
  datatype Given = Given(metas: seq<MetadataMap>, messages: seq<Bytes>, nulls: nat, statuses: seq<Trailers>)

  const NOTHING := Given([], [], 0, [])

  function GivenBy(log: Log): Given {
    Given(log.metas, log.delivered, log.nulls, log.statuses)
  }

  function GivenTo(call: Call): Given {
    if call.stream.Some? then GivenBy(call.stream.value.state.hand.log) else NOTHING
  }

  /** What was handed over before, and then one result object. */
  function Plus(g: Given, r: Reply): Given {
    Given(g.metas + (if r.meta.Some? then [r.meta.value] else []),
          g.messages + (if r.message.Some? && r.message.value.Some? then [r.message.value.value] else []),
          g.nulls + (if r.message == Some(None) then 1 else 0),
          g.statuses + (if r.status.Some? then [r.status.value] else []))
  }

  // ---- one batch ----

  lemma ReadRecords(c: Config, h: Hand, l: Link, a: ReaderAction, at: Clock, before: Given)
    requires ReplyShape(h) && ReaderEnabled(h, l, a) && GivenBy(h.log) == Plus(before, h.reply)
    ensures var h' := ReaderNext(c, h, l, a, at); GivenBy(h'.log) == Plus(before, h'.reply)
  {
    match a
    case ResolveMeta => GivingRecords(h, if h.metaHeld then l.metaSlot.GetOr([]) else [], [], CANCEL_TRAILERS, before);
    case ReadMessage => TakingRecords(c, h, l, at, before);
    case OpenStatus => AskingRecords(h, before);
    case TakeTrailers => GivingRecords(h, [], [], l.trailersSlot.GetOr(TASK_GONE_TRAILERS), before);
    case _ =>
  }

  lemma GivingRecords(h: Hand, md: MetadataMap, m: Bytes, t: Trailers, before: Given)
    requires GivenBy(h.log) == Plus(before, h.reply)
    ensures h.reply.meta.None? ==> GivenBy(GiveMeta(h, md).log) == Plus(before, GiveMeta(h, md).reply)
    ensures h.reply.message.None? ==>
              && GivenBy(GiveMessage(h, m).log) == Plus(before, GiveMessage(h, m).reply)
              && GivenBy(GiveNull(h).log) == Plus(before, GiveNull(h).reply)
    ensures h.reply.status.None? ==> GivenBy(GiveStatus(h, t).log) == Plus(before, GiveStatus(h, t).reply)
  {
  }

  lemma TakingRecords(c: Config, h: Hand, l: Link, at: Clock, before: Given)
    requires GivenBy(h.log) == Plus(before, h.reply) && h.reply.message.None?
    ensures var h' := TakeMessage(c, h, l, at); GivenBy(h'.log) == Plus(before, h'.reply)
  {
    var m := if l.buffer != [] && l.buffer[0].Message? then l.buffer[0].bytes else [];
    GivingRecords(h, [], m, CANCEL_TRAILERS, before);
  }

  lemma AskingRecords(h: Hand, before: Given)
    requires GivenBy(h.log) == Plus(before, h.reply) && h.reply.status.None?
    ensures GivenBy(AskStatus(h).log) == Plus(before, AskStatus(h).reply)
  {
    GivingRecords(h, [], [], h.cached.GetOr(CONSUMED_TRAILERS), before);
  }

  lemma {:induction false} RunRecords(c: Config, s: State, es: seq<Event>, before: Given)
    requires Inv(c, s) && AllWork(es) && ValidRun(c, s, es) && GivenBy(s.hand.log) == Plus(before, s.hand.reply)
    ensures var h := After(c, s, es).hand; GivenBy(h.log) == Plus(before, h.reply)
    decreases |es|
  {
    if es != [] {
      StepInv(c, s, es[0]);
      if es[0].action.Read? {
        ReadRecords(c, s.hand, s.link, es[0].action.reader, es[0].at, before);
      }
      RunRecords(c, Next(c, s, es[0]), es[1..], before);
    }
  }

  /** An answered wait puts into its result object exactly what it took from the stream. */
  lemma WaitRecords(c: Config, s: State, ops: RecvOps, at: Clock, es: seq<Event>)
    requires Reachable(c, s) && AnswersBy(c, s, ops, at, es)
    ensures var h := After(c, BeginState(s, ops, at), es).hand;
            GivenBy(h.log) == Plus(GivenBy(s.hand.log), h.reply)
  {
    NextReachable(c, s, Event(Begin(ops), at));
    ReachableInv(c, BeginState(s, ops, at));
    RunRecords(c, BeginState(s, ops, at), es, GivenBy(s.hand.log));
  }

  /** The result object has exactly the fields asked for. */
  predicate Fields(r: Reply, ops: RecvOps) {
    (r.meta.Some? <==> ops.meta) && (r.message.Some? <==> ops.message) && (r.status.Some? <==> ops.status)
  }

  lemma ReceiveRecords(call: Call, a: Active, b: Batch, env: Env)
    requires Reachable(a.config, a.state) && a.state.hand.log.statuses == []
    requires AnswersBy(a.config, a.state, b.recv, env.now, env.schedule)
    ensures var o := Receive(call, a, b.recv, env);
            && o.result.Ok? && Fields(o.result.value, b.recv)
            && GivenTo(o.call) == Plus(GivenBy(a.state.hand.log), o.result.value)
  {
    WaitResult(a.config, a.state, b.recv, env.now, env.schedule);
    WaitRecords(a.config, a.state, b.recv, env.now, env.schedule);
  }

  /** A dispatch that succeeds adds its result to what the stream handed over; one that fails adds nothing. */
  predicate Records(call: Call, b: Batch, o: BatchOutcome) {
    && (o.result.Ok? ==> Fields(o.result.value, b.recv))
    && GivenTo(o.call) ==
       if o.result.Ok? && o.call.stream.Some? then Plus(GivenTo(call), o.result.value) else GivenTo(call)
  }

  lemma PlusNothing(g: Given)
    ensures Plus(g, EMPTY_REPLY) == g
  {
  }

  lemma ForwardRecords(call: Call, b: Batch, env: Env)
    requires RouteOf(call, b).Forward? && SendOk(call.stream.value, b, env)
    ensures Records(call, b, ForwardSend(call, b, env))
  {
    SendOnFrame(call.stream.value, b, env);
    PlusNothing(GivenTo(call));
  }

  lemma LaunchRecords(call: Call, request: Request, bidi: bool, env: Env)
    ensures var r := Launch(call, request, bidi, env);
            r.Ok? ==> GivenBy(r.value.state.hand.log) == NOTHING && r.value.state == Init(r.value.config)
  {
  }

  lemma OpenBidiRecords(call: Call, b: Batch, env: Env)
    requires RouteOf(call, b).StartBidi? && SendsOk(call, b, env)
    ensures Records(call, b, OpenBidi(call, b, env))
  {
    PlusNothing(NOTHING);
    if !PluginThrows(env) && LaunchBidi(call, env).Ok? {
      LaunchRecords(call, Request(call.pendingMetadata, PluginEntries(env), None, None), true, env);
      SendOnFrame(LaunchBidi(call, env).value, b, env);
    }
  }

  lemma KeepRecords(call: Call, launched: Result<Active, Error>, b: Batch)
    requires call.stream.None? && !b.Receives()
    requires launched.Ok? ==> GivenBy(launched.value.state.hand.log) == NOTHING
    ensures Records(call, b, KeepStream(call, launched))
  {
    PlusNothing(NOTHING);
  }

  lemma EagerRecords(call: Call, b: Batch, env: Env)
    requires call.stream.None? && !b.Receives()
    ensures Records(call, b, EagerSend(call, b, env)) && Records(call, b, BufferSend(call, b, env))
  {
    var kept := Buffered(call, b, env);
    var taken := kept.(pendingMetadata := [], pendingMessage := None);
    var request := Request(kept.pendingMetadata, [], kept.pendingMessage, b.message);
    LaunchRecords(taken, request, false, env);
    KeepRecords(taken, Launch(taken, request, false, env), b);
  }

  lemma ReadRecordsAll(call: Call, b: Batch, env: Env)
    requires Open(call) && EnvOk(call, b, env) && RouteOf(call, b).ReadActive?
    ensures Records(call, b, ReadStream(call, b, env))
  {
    var sent := SendOn(call.stream.value, b, env);
    SendOnFrame(call.stream.value, b, env);
    if sent.error.None? {
      ReceiveRecords(call, sent.active, b, env);
    }
  }

  lemma LazyRecords(call: Call, b: Batch, env: Env)
    requires EnvOk(call, b, env) && RouteOf(call, b).Lazy?
    ensures Records(call, b, LazyStream(call, b, env))
  {
    LazyForm(call, b, env);
    var r := ReadSource(call, b, env);
    if r.Some? {
      LaunchOk(call, ResolvedRequest(call, b, env), false, env);
      LaunchRecords(call, ResolvedRequest(call, b, env), false, env);
      ReceiveRecords(Resolved(call, b, env), r.value, b, env);
    }
  }

  lemma OneShotRecords(call: Call, b: Batch, env: Env)
    requires call.stream.None?
    ensures Records(call, b, OneShotCall(call, b, env))
  {
  }

  lemma DispatchRecords(call: Call, b: Batch, env: Env)
    requires Open(call) && EnvOk(call, b, env)
    ensures Records(call, b, Dispatch(call, b, env))
  {
    match RouteOf(call, b)
    case Forward => ForwardRecords(call, b, env);
    case StartBidi => OpenBidiRecords(call, b, env);
    case Buffer => EagerRecords(call, b, env);
    case Eager => EagerRecords(call, b, env);
    case ReadActive => ReadRecordsAll(call, b, env);
    case OneShot => OneShotRecords(call, b, env);
    case Lazy => LazyRecords(call, b, env);
  }

  /**
   * `startBatch` itself: a successful batch has exactly the fields it asked for, and on a stream each
   * field is what the batch took from it: the message it was given or null, the metadata, the status.
   */
  lemma BatchAnswers(call: Call, b: Batch, env: Env)
    requires CallInv(call) && ActOk(call, Submit(b, env))
    ensures Records(call, b, StartBatch(call, b, env))
  {
    PlusNothing(GivenTo(call));
    if Dispatches(call, b, env) {
      DispatchRecords(Mark(call, b), b, env);
    }
  }

  // ---- runs ----

  /** The result object an act gives PHP on a call that then has a stream. */
  function AnswerOf(call: Call, a: Act): seq<Reply>
    requires ActOk(call, a)
  {
    if a.Submit? && StartBatch(call, a.batch, a.env).result.Ok? && Perform(call, a).stream.Some?
    then [StartBatch(call, a.batch, a.env).result.value] else []
  }

  function Replies(call: Call, acts: seq<Act>): seq<Reply>
    requires ValidActs(call, acts)
    decreases |acts|
  {
    if acts == [] then [] else AnswerOf(call, acts[0]) + Replies(Perform(call, acts[0]), acts[1..])
  }

  function MetasIn(rs: seq<Reply>): seq<MetadataMap> {
    if rs == [] then [] else (if rs[0].meta.Some? then [rs[0].meta.value] else []) + MetasIn(rs[1..])
  }

  function MessagesIn(rs: seq<Reply>): seq<Bytes> {
    if rs == [] then []
    else (if rs[0].message.Some? && rs[0].message.value.Some? then [rs[0].message.value.value] else [])
         + MessagesIn(rs[1..])
  }

  function NullsIn(rs: seq<Reply>): nat {
    if rs == [] then 0 else (if rs[0].message == Some(None) then 1 else 0) + NullsIn(rs[1..])
  }

  function StatusesIn(rs: seq<Reply>): seq<Trailers> {
    if rs == [] then [] else (if rs[0].status.Some? then [rs[0].status.value] else []) + StatusesIn(rs[1..])
  }

  /** What was handed over before, and then all these result objects. */
  function PlusAll(g: Given, rs: seq<Reply>): Given {
    Given(g.metas + MetasIn(rs), g.messages + MessagesIn(rs), g.nulls + NullsIn(rs), g.statuses + StatusesIn(rs))
  }

  lemma PlusFirst(g: Given, r: Reply, rs: seq<Reply>)
    ensures PlusAll(g, [r] + rs) == PlusAll(Plus(g, r), rs)
  {
    assert ([r] + rs)[1..] == rs;
  }

  lemma PlusNone(g: Given)
    ensures PlusAll(g, []) == g
  {
  }

  lemma BetweenGivesNothing(call: Call, a: Act)
    requires ActOk(call, a) && !a.Submit?
    ensures GivenTo(Perform(call, a)) == GivenTo(call)
  {
  }

  lemma {:induction false} RunAnswers(call: Call, acts: seq<Act>)
    requires CallInv(call) && ValidActs(call, acts)
    ensures GivenTo(PerformAll(call, acts)) == PlusAll(GivenTo(call), Replies(call, acts))
    decreases |acts|
  {
    if acts == [] {
      PlusNone(GivenTo(call));
    } else {
      var next := Perform(call, acts[0]);
      PerformOk(call, acts[0]);
      RunAnswers(next, acts[1..]);
      StepAnswers(call, acts[0], Replies(next, acts[1..]));
    }
  }

  lemma StepAnswers(call: Call, a: Act, rs: seq<Reply>)
    requires CallInv(call) && ActOk(call, a)
    ensures PlusAll(GivenTo(Perform(call, a)), rs) == PlusAll(GivenTo(call), AnswerOf(call, a) + rs)
  {
    if a.Submit? {
      BatchAnswers(call, a.batch, a.env);
    } else {
      BetweenGivesNothing(call, a);
    }
    if AnswerOf(call, a) == [] {
      assert [] + rs == rs;
    } else {
      PlusFirst(GivenTo(call), AnswerOf(call, a)[0], rs);
    }
  }

  lemma AllAnswers(call: Call, acts: seq<Act>)
    requires IsNew(call) && ValidActs(call, acts)
    ensures var rs := Replies(call, acts);
            GivenTo(PerformAll(call, acts)) == Given(MetasIn(rs), MessagesIn(rs), NullsIn(rs), StatusesIn(rs))
  {
    RunAnswers(call, acts);
  }

  /** What a stream hands over is the server's. */
  lemma ServersOwn(c: Config, s: State, g: Given)
    requires Reachable(c, s) && g == GivenBy(s.hand.log)
    ensures g.messages <= Messages(c)
    ensures g.metas != [] ==>
              g.metas[0] == if s.link.responded && c.script.response.Accepted? then c.script.response.headers else []
    ensures forall i :: 1 <= i < |g.metas| ==> g.metas[i] == []
  {
    MessagesConserved(c, s);
    InitialMetadataExact(c, s);
  }

  /**
   * Over every run: the result objects of all batches together hold exactly what the stream handed
   * over. Their messages are, in order, a prefix of the server's; only the first metadata can be
   * non-empty, and is then the server's headers.
   */
  lemma ResultsAreTheStream(call: Call, acts: seq<Act>)
    requires IsNew(call) && ValidActs(call, acts)
    ensures var after, rs := PerformAll(call, acts), Replies(call, acts);
            && GivenTo(after) == Given(MetasIn(rs), MessagesIn(rs), NullsIn(rs), StatusesIn(rs))
            && (after.stream.Some? ==>
                  var c, l := after.stream.value.config, after.stream.value.state.link;
                  && MessagesIn(rs) <= Messages(c)
                  && (MetasIn(rs) != [] ==>
                        MetasIn(rs)[0] ==
                        if l.responded && c.script.response.Accepted? then c.script.response.headers else [])
                  && forall i :: 1 <= i < |MetasIn(rs)| ==> MetasIn(rs)[i] == [])
  {
    RunOk(call, acts);
    AllAnswers(call, acts);
    var after := PerformAll(call, acts);
    if after.stream.Some? {
      ServersOwn(after.stream.value.config, after.stream.value.state, GivenTo(after));
    }
  }

  /** A call whose results hold a null and then a success holds the whole response in them. */
  lemma ResultsAreComplete(call: Call, acts: seq<Act>)
    requires IsNew(call) && ValidActs(call, acts)
    ensures var after, rs := PerformAll(call, acts), Replies(call, acts);
            NullsIn(rs) > 0 && StatusesIn(rs) != [] && StatusesIn(rs)[0].code == 0 ==>
              && after.stream.Some?
              && (NoErrorHasCode(after.stream.value.config, 0) ==>
                    var response := after.stream.value.config.script.response;
                    && response.Accepted? && response.ending.Complete?
                    && MessagesIn(rs) == response.messages
                    && StatusesIn(rs) == [Trailers(0, "", response.ending.trailers.GetOr([]))])
  {
    RunOk(call, acts);
    AllAnswers(call, acts);
    var after := PerformAll(call, acts);
    if after.stream.Some? {
      CompleteResults(after.stream.value.config, after.stream.value.state);
    }
  }

  lemma CompleteResults(c: Config, s: State)
    requires Reachable(c, s)
    ensures var g := GivenBy(s.hand.log);
            g.nulls > 0 && g.statuses != [] && g.statuses[0].code == 0 && NoErrorHasCode(c, 0) ==>
              var response := c.script.response;
              && response.Accepted? && response.ending.Complete? && g.messages == response.messages
              && g.statuses == [Trailers(0, "", response.ending.trailers.GetOr([]))]
  {
    var log := s.hand.log;
    if log.nulls > 0 && log.statuses != [] && log.statuses[0].code == 0 && NoErrorHasCode(c, 0) {
      SuccessIsComplete(c, s);
      SuccessAccountsForAll(c, s);
    }
  }

  // ---- after the end ----

  lemma ReceiveAfterEnd(call: Call, a: Active, b: Batch, env: Env)
    requires Reachable(a.config, a.state) && a.state.hand.log.nulls > 0
    requires AnswersBy(a.config, a.state, b.recv, env.now, env.schedule)
    ensures GivenTo(Receive(call, a, b.recv, env).call).messages == a.state.hand.log.delivered
  {
    var begin := Event(Begin(b.recv), env.now);
    var es := [begin] + env.schedule;
    assert es[1..] == env.schedule;
    EndIsPermanent(a.config, a.state, es);
  }

  lemma BatchAfterEnd(call: Call, b: Batch, env: Env)
    requires CallInv(call) && ActOk(call, Submit(b, env)) && GivenTo(call).nulls > 0
    ensures GivenTo(StartBatch(call, b, env).call).messages == GivenTo(call).messages
  {
    if Dispatches(call, b, env) {
      var marked, a := Mark(call, b), call.stream.value;
      SendOnFrame(a, b, env);
      if b.Receives() && SendOn(a, b, env).error.None? {
        ReceiveAfterEnd(marked, SendOn(a, b, env).active, b, env);
      }
    }
  }

  /** Once PHP was given a null, no batch of any later run gives it a message. */
  lemma {:induction false} NullIsLast(call: Call, acts: seq<Act>)
    requires CallInv(call) && ValidActs(call, acts) && GivenTo(call).nulls > 0
    ensures MessagesIn(Replies(call, acts)) == []
    decreases |acts|
  {
    if acts != [] {
      var next := Perform(call, acts[0]);
      PerformOk(call, acts[0]);
      NoMessageAfterEnd(call, acts[0]);
      NullIsLast(next, acts[1..]);
      if AnswerOf(call, acts[0]) == [] {
        assert Replies(call, acts) == Replies(next, acts[1..]);
      } else {
        assert Replies(call, acts)[1..] == Replies(next, acts[1..]);
      }
    }
  }

  lemma NoMessageAfterEnd(call: Call, a: Act)
    requires CallInv(call) && ActOk(call, a) && GivenTo(call).nulls > 0
    ensures GivenTo(Perform(call, a)).nulls > 0 && MessagesIn(AnswerOf(call, a)) == []
    ensures |AnswerOf(call, a)| <= 1 &&
            (AnswerOf(call, a) != [] ==> MessagesIn([AnswerOf(call, a)[0]]) == [])
  {
    if a.Submit? {
      BatchAnswers(call, a.batch, a.env);
      BatchAfterEnd(call, a.batch, a.env);
    } else {
      BetweenGivesNothing(call, a);
    }
  }
}
