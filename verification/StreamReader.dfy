/**
 * The PHP side of a stream as the sequential code it is: each wait drives the
 * runtime one arbitrary step at a time until the awaited channel has something.
 */
module StreamReader {
  import opened Deadline
  import opened StreamProtocol
  import opened StreamInvariant
  import opened StreamTheorems

  /** The action a phase of the reader waits to perform. */
  predicate Awaits(r: Reader, a: ReaderAction) {
    match a
    case ResolveMeta => r.WantMeta?
    case ReadMessage => r.WantMessage?
    case OpenStatus => r.WantStatus?
    case DrainItem => false
    case DrainClosed => false
    case TakeTrailers => r.TrailersOnly?
  }

  /** Some schedule of driver and reader steps leads from one reachable state to another. */
  ghost predicate Ran(c: Config, s: State, es: seq<Event>, s': State) {
    && ValidRun(c, s, es) && AllWork(es) && s' == After(c, s, es)
    && Reachable(c, s') && s'.link.pulled <= |Messages(c)|
  }

  lemma RanNothing(c: Config, s: State)
    requires Reachable(c, s)
    ensures Ran(c, s, [], s)
  {
    ReachableInv(c, s);
  }

  lemma RanOneMore(c: Config, s: State, es: seq<Event>, s': State, e: Event)
    requires Ran(c, s, es, s') && IsWork(e) && Enabled(c, s', e)
    ensures Ran(c, s, es + [e], Next(c, s', e))
    ensures Measure(c, Next(c, s', e)) < Measure(c, s')
  {
    assert [e][1..] == [];
    RunThenRun(c, s, es, [e]);
    NextReachable(c, s', e);
    ReachableInv(c, s');
    WorkFalls(c, s', e);
  }

  lemma BlockedOn(c: Config, s: State, a: ReaderAction)
    requires Reachable(c, s) && Awaits(s.hand.reader, a) && !ReaderEnabled(s.hand, s.link, a)
    ensures DriverCanMove(c, s.link)
  {
    ReachableInv(c, s);
    BlockedMoves(c, s);
  }

  /** One step of the driver task, at any later time and by any enabled arm. */
  method StepDriver(c: Config, s: State) returns (e: Event)
    requires DriverCanMove(c, s.link)
    ensures e.action.Drive? && Enabled(c, s, e)
  {
    ghost var some := SomeDriverEvent(c, s);
    e :| e.action.Drive? && Enabled(c, s, e);
  }

  /** `block_on` of a single channel: run the driver until the action can be taken, and take it. */
  method Await(c: Config, s0: State, a: ReaderAction) returns (s: State, ghost es: seq<Event>)
    requires Reachable(c, s0) && Awaits(s0.hand.reader, a)
    ensures Ran(c, s0, es, s)
    ensures a.ResolveMeta? ==> s.hand.reader == AfterMeta(s0.hand.ops)
    ensures a.ReadMessage? ==> s.hand.reader == AfterMessage(s0.hand.ops)
    ensures a.OpenStatus? ==> s.hand.reader.Idle? || s.hand.reader.Draining?
    ensures a.TakeTrailers? ==> s.hand.reader.Idle?
    ensures s.hand.ops == s0.hand.ops
  {
    RanNothing(c, s0);
    s, es := s0, [];
    var lingers: bool := *;
    while !ReaderEnabled(s.hand, s.link, a) || (lingers && DriverCanMove(c, s.link))
      invariant Ran(c, s0, es, s) && s.hand == s0.hand
      decreases Measure(c, s)
    {
      if !ReaderEnabled(s.hand, s.link, a) {
        BlockedOn(c, s, a);
      }
      var e := StepDriver(c, s);
      RanOneMore(c, s0, es, s, e);
      s, es := Next(c, s, e), es + [e];
      lingers := *;
    }
    var at: Clock :| s.clock <= at;
    s, es := TakeAction(c, s0, s, a, at, es);
  }

  /** Perform an enabled reader action. */
  method TakeAction(c: Config, s0: State, s: State, a: ReaderAction, at: Clock, ghost es: seq<Event>)
    returns (s': State, ghost es': seq<Event>)
    requires Ran(c, s0, es, s) && ReaderEnabled(s.hand, s.link, a) && s.clock <= at
    ensures Ran(c, s0, es', s') && s' == ReadState(c, s, a, at) && s'.hand.ops == s.hand.ops
  {
    var e := Event(Read(a), at);
    RanOneMore(c, s0, es, s, e);
    s', es' := Next(c, s, e), es + [e];
  }

  lemma RanTwice(c: Config, s: State, es: seq<Event>, s': State, fs: seq<Event>, s'': State)
    requires Ran(c, s, es, s') && Ran(c, s', fs, s'')
    ensures Ran(c, s, es + fs, s'')
  {
    RunThenRun(c, s, es, fs);
  }

  /**
   * The drain loop of a status request: an unbiased choice between the trailers
   * and the next buffered item, until the trailers are in or only they can come.
   */
  method Drain(c: Config, s0: State) returns (s: State, ghost es: seq<Event>)
    requires Reachable(c, s0) && s0.hand.reader.Draining?
    ensures Ran(c, s0, es, s)
    ensures s.hand.reader.Idle? || s.hand.reader.TrailersOnly?
    ensures s.hand.ops == s0.hand.ops
  {
    RanNothing(c, s0);
    s, es := s0, [];
    while s.hand.reader.Draining?
      invariant Ran(c, s0, es, s)
      invariant s.hand.reader.Draining? || s.hand.reader.Idle? || s.hand.reader.TrailersOnly?
      invariant s.hand.ops == s0.hand.ops
      decreases Measure(c, s)
    {
      var e := Choose(c, s);
      RanOneMore(c, s0, es, s, e);
      s, es := Next(c, s, e), es + [e];
    }
  }

  /** The arms of the drain's `select!`, and the driver running meanwhile. */
  method Choose(c: Config, s: State) returns (e: Event)
    requires Reachable(c, s) && s.hand.reader.Draining?
    ensures IsWork(e) && Enabled(c, s, e)
    ensures var next := Next(c, s, e).hand;
            next.ops == s.hand.ops && (next.reader.Draining? || next.reader.Idle? || next.reader.TrailersOnly?)
  {
    ReachableInv(c, s);
    if
    case s.link.trailersSlot.Some? || s.link.driver.Finished? => e := Event(Read(TakeTrailers), s.clock);
    case s.link.buffer != [] => e := Event(Read(DrainItem), s.clock);
    case s.link.buffer == [] && s.link.driver.Finished? => e := Event(Read(DrainClosed), s.clock);
    case DriverCanMove(c, s.link) => e := StepDriver(c, s);
  }

  /**
   * The receive half of a batch, phase by phase as `build_stream_result` runs
   * them. It always returns, and what it returns is the answer of some schedule.
   */
  method BuildStreamResult(c: Config, s0: State, ops: RecvOps, at: Clock)
    returns (s: State, reply: Reply, ghost es: seq<Event>)
    requires Reachable(c, s0) && Enabled(c, s0, Event(Begin(ops), at))
    ensures Ran(c, BeginState(s0, ops, at), es, s)
    ensures s.hand.reader.Idle? && reply == s.hand.reply
    ensures (reply.meta.Some? <==> ops.meta) && (reply.message.Some? <==> ops.message)
    ensures reply.status.Some? <==> ops.status
  {
    ghost var begun := BeginState(s0, ops, at);
    NextReachable(c, s0, Event(Begin(ops), at));
    RanNothing(c, begun);
    ghost var step: seq<Event>;
    ghost var before: State;
    s, es := BeginState(s0, ops, at), [];
    if ops.meta {
      before := s;
      s, step := Await(c, s, ResolveMeta);
      RanTwice(c, begun, es, before, step, s);
      es := es + step;
    }
    if ops.message {
      before := s;
      s, step := Await(c, s, ReadMessage);
      RanTwice(c, begun, es, before, step, s);
      es := es + step;
    }
    if ops.status {
      before := s;
      s, step := Await(c, s, OpenStatus);
      RanTwice(c, begun, es, before, step, s);
      es := es + step;
      if s.hand.reader.Draining? {
        before := s;
        s, step := Drain(c, s);
        RanTwice(c, begun, es, before, step, s);
        es := es + step;
        if s.hand.reader.TrailersOnly? {
          before := s;
          s, step := Await(c, s, TakeTrailers);
          RanTwice(c, begun, es, before, step, s);
          es := es + step;
        }
      }
    }
    ReachableInv(c, s);
    reply := s.hand.reply;
  }
}
