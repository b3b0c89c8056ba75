/**
 * PHP blocked in SEND_MESSAGE on a full request queue, while the driver of the same call is
 * parked on a full response buffer. Neither wait races the deadline or a cancel.
 */
module SendStall {
  import opened Base
  import opened Deadline
  import opened RequestStream
  import opened StreamProtocol
  import opened StreamInvariant
  import opened StreamTheorems
  import opened CallMachine
  import opened CallTheorems

  /** PHP waits in a send that cannot end yet. */
  predicate Blocked(p: Pipe) {
    p.waiting.Some? && !p.dropped && |p.queue| == REQUEST_BUFFER
  }

  /** The driver is parked on a full buffer, and nobody reads. */
  predicate DriverParked(c: Config, s: State) {
    && (s.link.driver.ParkedMessage? || s.link.driver.ParkedEnd? || s.link.driver.ParkedFailure?)
    && |s.link.buffer| >= c.capacity
    && s.hand.reader.Idle?
  }

  /** What can happen while PHP is inside the send: the transport of the request, the driver, the clock. */
  datatype Meanwhile = OnPipe(pipe: PipeEvent) | OnStream(event: Event)

  predicate Possible(c: Config, p: Pipe, s: State, m: Meanwhile) {
    match m
    case OnPipe(e) => IsTransport(e) && CanHappen(p, e)
    case OnStream(e) => IsWork(e) && Enabled(c, s, e)
  }

  predicate AllPossible(c: Config, p: Pipe, s: State, ms: seq<Meanwhile>)
    decreases |ms|
  {
    ms == [] ||
    (Possible(c, p, s, ms[0]) &&
     match ms[0]
     case OnPipe(e) => AllPossible(c, Happen(p, e), s, ms[1..])
     case OnStream(e) => AllPossible(c, p, Next(c, s, e), ms[1..]))
  }

  function Meantime(c: Config, p: Pipe, s: State, ms: seq<Meanwhile>): (Pipe, State)
    requires AllPossible(c, p, s, ms)
    decreases |ms|
  {
    if ms == [] then (p, s)
    else
      match ms[0]
      case OnPipe(e) => Meantime(c, Happen(p, e), s, ms[1..])
      case OnStream(e) => Meantime(c, p, Next(c, s, e), ms[1..])
  }

  /** A parked driver does nothing at any time: it sees neither its deadline nor a cancel. */
  lemma ParkedIsStuck(c: Config, s: State, e: Event)
    requires DriverParked(c, s) && IsWork(e)
    ensures !Enabled(c, s, e)
  {
  }

  /** The transport takes a message, or leaves. */
  predicate LetsGo(m: Meanwhile) {
    m == OnPipe(Take) || m == OnPipe(Drop)
  }

  /** In the joint wait nothing else is possible, whatever the time and the cancel flag say. */
  lemma OnlyTransportHelps(c: Config, p: Pipe, s: State, m: Meanwhile)
    requires Blocked(p) && DriverParked(c, s)
    ensures Possible(c, p, s, m) <==> LetsGo(m)
  {
    if m.OnStream? && IsWork(m.event) {
      ParkedIsStuck(c, s, m.event);
    }
  }

  /** A send that can end stays so. */
  lemma {:induction false} StaysFree(c: Config, p: Pipe, s: State, ms: seq<Meanwhile>)
    requires DriverParked(c, s) && CanHappen(p, EndSend) && AllPossible(c, p, s, ms)
    ensures CanHappen(Meantime(c, p, s, ms).0, EndSend) && Meantime(c, p, s, ms).1 == s
    decreases |ms|
  {
    if ms != [] {
      match ms[0]
      case OnPipe(e) => StaysFree(c, Happen(p, e), s, ms[1..]);
      case OnStream(e) => ParkedIsStuck(c, s, e);
    }
  }

  /**
   * Exactly when the joint wait can end: over everything that can happen, at any times, the send
   * can return if and only if something happened at all, and whatever does begins with the
   * transport taking a message or leaving. The response stream does not move, deadline and
   * cancellation included.
   */
  lemma StallEndsExactly(c: Config, p: Pipe, s: State, ms: seq<Meanwhile>)
    requires Blocked(p) && DriverParked(c, s) && AllPossible(c, p, s, ms)
    ensures Meantime(c, p, s, ms).1 == s
    ensures CanHappen(Meantime(c, p, s, ms).0, EndSend) <==> ms != []
    ensures ms != [] ==> LetsGo(ms[0])
  {
    if ms != [] {
      OnlyTransportHelps(c, p, s, ms[0]);
      StaysFree(c, Happen(p, ms[0].pipe), s, ms[1..]);
    }
  }

  // ---- a full queue under a batch ----

  predicate FullQueue(p: Pipe) {
    p.open && p.waiting.None? && !p.dropped && |p.queue| == REQUEST_BUFFER
  }

  lemma {:induction false} FreeSendStays(p: Pipe, es: seq<PipeEvent>)
    requires CanHappen(p, EndSend) && AllTransport(es) && AllCanHappen(p, es)
    ensures CanHappen(HappenAll(p, es), EndSend)
    decreases |es|
  {
    if es != [] {
      FreeSendStays(Happen(p, es[0]), es[1..]);
    }
  }

  /** A send on a full queue ends by exactly the non-empty runs of the transport, which begin with Take or Drop. */
  lemma FullQueueSend(p: Pipe, message: Bytes, es: seq<PipeEvent>)
    requires FullQueue(p)
    ensures SendEnds(p, message, es) <==> es != [] && AllTransport(es) && AllCanHappen(Waiting(p, message), es)
    ensures SendEnds(p, message, es) ==> es[0] == Take || es[0] == Drop
  {
    var begun := Waiting(p, message);
    if es != [] && AllTransport(es) && AllCanHappen(begun, es) {
      assert es[0] == Take || es[0] == Drop;
      FreeSendStays(Happen(begun, es[0]), es[1..]);
    }
  }

  /** On a full queue a batch with a message returns only if the transport first takes a message or leaves. */
  lemma StalledBatch(call: Call, b: Batch, env: Env)
    requires call.stream.Some? && FullQueue(call.stream.value.pipe) && b.message.Some? && Dispatches(call, b, env)
    requires ActOk(call, Submit(b, env))
    ensures env.transport != [] && (env.transport[0] == Take || env.transport[0] == Drop)
  {
    FullQueueSend(call.stream.value.pipe, b.message.value, env.transport);
  }

  // ---- the joint wait is reached ----

  /** Nobody reads: the driver pulls until its buffer is full and it holds one more message. */
  lemma {:induction false} DriverFills(c: Config, s: State) returns (es: seq<Event>)
    requires c.script.response.Accepted? && s.link.driver.Pulling? && s.hand.reader.Idle?
    requires |s.link.buffer| <= c.capacity && c.capacity - |s.link.buffer| < |Messages(c)| - s.link.pulled
    ensures ValidRun(c, s, es) && DriverParked(c, After(c, s, es)) && AllDriveAt(es, s.clock)
    decreases c.capacity - |s.link.buffer|
  {
    var pull := Event(Drive(Pull), s.clock);
    var held := Next(c, s, pull);
    if |s.link.buffer| == c.capacity {
      es := [];
      assert ValidRun(c, held, es) && After(c, held, es) == held;
    } else {
      var push := Event(Drive(Push), s.clock);
      es := DriverFills(c, Next(c, held, push));
      es := Prepend(c, held, push, es);
    }
    es := Prepend(c, s, pull, es);
  }

  predicate AllDriveAt(es: seq<Event>, at: Clock) {
    forall i :: 0 <= i < |es| ==> es[i].action.Drive? && es[i].at == at
  }

  /** Every response longer than the buffer parks its driver if PHP does not read. */
  lemma ParkingIsReached(c: Config) returns (es: seq<Event>)
    requires WellFormed(c) && !Expired(c) && c.script.connection.Connected?
    requires c.script.response.Accepted? && |Messages(c)| > c.capacity
    ensures ValidRun(c, Init(c), es) && DriverParked(c, After(c, Init(c), es)) && AllDriveAt(es, c.start)
  {
    var e0, e1 := Event(Drive(Connect), c.start), Event(Drive(Respond), c.start);
    var s1 := Next(c, Init(c), e0);
    es := DriverFills(c, Next(c, s1, e1));
    es := Prepend(c, s1, e1, es);
    es := Prepend(c, Init(c), e0, es);
  }

  function Backgrounds(es: seq<Event>): seq<Act> {
    if es == [] then [] else [Background(es[0])] + Backgrounds(es[1..])
  }

  /** Between batches the driver can make any run of its own. */
  lemma {:induction false} DriverAlone(call: Call, es: seq<Event>)
    requires call.stream.Some? && AllDriveAt(es, call.clock)
    requires ValidRun(call.stream.value.config, call.stream.value.state, es)
    ensures ValidActs(call, Backgrounds(es))
    ensures var a := call.stream.value;
            PerformAll(call, Backgrounds(es)) == call.(stream := Some(a.(state := After(a.config, a.state, es))))
    decreases |es|
  {
    if es != [] {
      assert Backgrounds(es)[1..] == Backgrounds(es[1..]);
      DriverAlone(Perform(call, Background(es[0])), es[1..]);
    }
  }

  function OneMessage(message: Bytes): Batch {
    Batch(None, Some(message), false, NO_OPS)
  }

  /** A call that can go on sending, as its driver left it. */
  predicate CanSend(call: Call, a: Active) {
    && call.stream.Some? && call.stream.value == a.(pipe := call.stream.value.pipe)
    && !call.cancelled && !call.finished
    && call.stream.value.pipe.open && call.stream.value.pipe.waiting.None? && !call.stream.value.pipe.dropped
  }

  lemma RoomForOne(p: Pipe, message: Bytes)
    requires p.open && p.waiting.None? && !p.dropped && |p.queue| < REQUEST_BUFFER
    ensures SendEnds(p, message, [])
    ensures SendBy(p, message, []) == p.(queue := p.queue + [message], accepted := p.accepted + [message])
  {
  }

  lemma ForwardsOne(call: Call, a: Active, message: Bytes, env: Env)
    requires call.stream == Some(a) && a.pipe.open && a.pipe.waiting.None? && !a.pipe.dropped
    requires |a.pipe.queue| < REQUEST_BUFFER && env == Quick(call.clock, env.script, [])
    ensures SendOk(a, OneMessage(message), env)
    ensures ForwardSend(call, OneMessage(message), env) ==
            Done(call.(stream := Some(a.(pipe := SendBy(a.pipe, message, [])))), Ok(EMPTY_REPLY))
  {
    RoomForOne(a.pipe, message);
  }

  lemma SendOne(call: Call, a: Active, message: Bytes, script: Script) returns (act: Act)
    requires CanSend(call, a) && |call.stream.value.pipe.queue| < REQUEST_BUFFER
    ensures ActOk(call, act)
    ensures var after := Perform(call, act);
            && CanSend(after, a) && after.clock == call.clock
            && |after.stream.value.pipe.queue| == |call.stream.value.pipe.queue| + 1
  {
    var b, env := OneMessage(message), Quick(call.clock, script, []);
    ForwardsOne(Mark(call, b), call.stream.value, message, env);
    RoomForOne(call.stream.value.pipe, message);
    act := Submit(b, env);
  }

  /** PHP goes on sending and the transport does nothing: the queue fills up. */
  lemma {:induction false} QueueFills(call: Call, a: Active, message: Bytes, script: Script) returns (acts: seq<Act>)
    requires CanSend(call, a) && |call.stream.value.pipe.queue| <= REQUEST_BUFFER
    ensures ValidActs(call, acts)
    ensures var after := PerformAll(call, acts);
            CanSend(after, a) && after.clock == call.clock && FullQueue(after.stream.value.pipe)
    decreases REQUEST_BUFFER - |call.stream.value.pipe.queue|
  {
    if |call.stream.value.pipe.queue| == REQUEST_BUFFER {
      acts := [];
    } else {
      var act := SendOne(call, a, message, script);
      var rest := QueueFills(Perform(call, act), a, message, script);
      acts := [act] + rest;
      assert acts[1..] == rest;
    }
  }

  lemma OpensBidi(call: Call, message: Bytes, script: Script) returns (act: Act)
    requires IsNew(call) && call.pathValid && !AlreadyExpired(call.deadline, call.clock)
    ensures ActOk(call, act)
    ensures var after := Perform(call, act);
            && after.stream.Some? && CanSend(after, after.stream.value) && after.clock == call.clock
            && |after.stream.value.pipe.queue| <= REQUEST_BUFFER
            && var c := after.stream.value.config;
               c == Config(script, call.deadline, call.clock, STREAM_MSG_BUFFER) && after.stream.value.state == Init(c)
  {
    assert SendEnds(NEW_PIPE, message, []);
    act := Submit(OneMessage(message), Quick(call.clock, script, []));
  }

  /** A call with both directions full: the next message blocks, and the driver sees nothing. */
  predicate JointWait(call: Call) {
    && call.stream.Some? && !call.cancelled && !call.finished
    && FullQueue(call.stream.value.pipe)
    && DriverParked(call.stream.value.config, call.stream.value.state)
  }

  /**
   * One call reaches the joint wait: every new bidi call with time left, against every response
   * longer than the buffer, if PHP only sends and the transport of the request does nothing.
   */
  lemma JointWaitIsReached(call: Call, message: Bytes, script: Script) returns (acts: seq<Act>)
    requires IsNew(call) && call.pathValid && !AlreadyExpired(call.deadline, call.clock)
    requires script.connection.Connected? && script.response.Accepted?
    requires |script.response.messages| > 32
    ensures ValidActs(call, acts) && JointWait(PerformAll(call, acts))
    ensures var a := PerformAll(call, acts).stream.value; |a.state.link.buffer| == 32 && |a.pipe.queue| == 4
  {
    var act := OpensBidi(call, message, script);
    var started := Perform(call, act);
    var a := started.stream.value;
    var sends := QueueFills(started, a, message, script);
    var full := PerformAll(started, sends);
    var es := ParkingIsReached(a.config);
    DriverAlone(full, es);
    ActsThenActs(started, sends, Backgrounds(es));
    acts := [act] + (sends + Backgrounds(es));
    assert acts[1..] == sends + Backgrounds(es);
    BuffersBounded(call, acts);
  }
}
