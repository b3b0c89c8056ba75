/**
 * One call as PHP drives it: `startBatch` over the flags and buffers of a
 * `Grpc\Call`, the route each batch takes, and runs of batches.
 */
module CallMachine {
  import opened Base
  import opened Deadline
  import opened RequestStream
  import opened StreamProtocol
  import opened StreamInvariant
  import opened StreamTheorems
  import opened Unary

  const STREAM_MSG_BUFFER: nat := 32

  /** A parsed batch of operations. */
  datatype Batch = Batch(
    metadata: Option<seq<Pair>>,
    message: Option<Bytes>,
    close: bool,
    recv: RecvOps)
  {
    predicate Sends() { metadata.Some? || message.Some? || close }

    predicate Receives() { recv.meta || recv.message || recv.status }
  }

  /**
   * The entries and the message handed to a request, and the message of the batch that
   * made it: the same one, unless the message was left in the buffer by a failed batch.
   */
  datatype Request = Request(send: seq<Pair>, plugin: seq<Pair>, message: Option<Bytes>, own: Option<Bytes>)

  /** A running stream: its driver, its request, and the sending half of a bidi call. */
  datatype Active = Active(config: Config, state: State, request: Request, bidi: bool, pipe: Pipe)

  /** A one-batch call that was attempted: whether its request went out, whether it succeeded. */
  datatype Attempt = Attempt(request: Request, reached: bool, ok: bool, loose: bool)

  datatype Error =
    | ChannelClosed
    | CallCancelled
    | TooManyOperations
    | PluginFailed
    | SendUnsupported
    | SendClosed
    | CallFailed(error: CallError)

  /** What the history of a call shows. */
  datatype History = History(
    attempts: seq<Attempt>,
    accepted: seq<Bytes>,
    initial: Option<seq<Pair>>,
    statuses: seq<Trailers>,
    failed: bool)

  datatype Call = Call(
    deadline: I64,
    pathValid: bool,
    pendingMetadata: seq<Pair>,
    pendingMessage: Option<Bytes>,
    sendClosed: bool,
    metadataSent: bool,
    finished: bool,
    cancelled: bool,
    stream: Option<Active>,
    clock: Clock,
    history: History)

  function NewCall(deadline: I64, pathValid: bool, now: Clock): Call {
    Call(deadline, pathValid, [], None, false, false, false, false, None, now, History([], [], None, [], false))
  }

  /** The outside world during one batch. */
  datatype Env = Env(
    now: Clock,
    channelClosed: bool,
    plugin: Option<Result<seq<Pair>, ()>>,
    script: Script,
    choice: Choice,
    transport: seq<PipeEvent>,
    schedule: seq<Event>)

  // ---- routing ----

  datatype Route = Forward | StartBidi | Buffer | Eager | ReadActive | OneShot | Lazy

  function RouteOf(call: Call, b: Batch): Route {
    if b.Receives() then
      if call.stream.Some? then ReadActive
      else if b.recv.message && b.recv.status then OneShot
      else if call.sendClosed then Lazy
      else OneShot
    else
      if call.stream.Some? then Forward
      else if b.close then Eager
      else if b.message.Some? then StartBidi
      else Buffer
  }

  datatype BatchOutcome = Done(call: Call, result: Result<Reply, Error>)

  function PluginEntries(env: Env): seq<Pair> {
    match env.plugin
    case Some(Ok(entries)) => entries
    case _ => []
  }

  predicate PluginThrows(env: Env) {
    env.plugin.Some? && env.plugin.value.Err?
  }

  function StreamConfig(call: Call, env: Env): Config {
    Config(env.script, call.deadline, env.now, STREAM_MSG_BUFFER)
  }

  /** Start the driver; an expired deadline starts none and leaves no sender. */
  function Launch(call: Call, request: Request, bidi: bool, env: Env): Result<Active, Error> {
    var config := StreamConfig(call, env);
    if Expired(config) then Ok(Active(config, Init(config), request, bidi, CLOSED_PIPE))
    else if !call.pathValid then Err(CallFailed(InvalidPath))
    else Ok(Active(config, Init(config), request, bidi, if bidi then NEW_PIPE else CLOSED_PIPE))
  }

  /** A stream after the send half of a batch, and the error if the send failed. */
  datatype Sent = Sent(active: Active, error: Option<Error>)

  /** The transport lets a send on an open pipe end. */
  predicate SendOk(a: Active, b: Batch, env: Env) {
    b.message.Some? && a.pipe.open ==> SendEnds(a.pipe, b.message.value, env.transport)
  }

  function CloseIf(a: Active, close: bool): Active {
    if close then a.(pipe := a.pipe.(open := false)) else a
  }

  /** The send half of a batch on an active stream: the message first, then the half-close. */
  function SendOn(a: Active, b: Batch, env: Env): Sent
    requires SendOk(a, b, env)
  {
    if b.message.None? then Sent(CloseIf(a, b.close), None)
    else if !a.pipe.open then Sent(a, Some(SendUnsupported))
    else
      var after := a.(pipe := SendBy(a.pipe, b.message.value, env.transport));
      if after.pipe.dropped then Sent(after, Some(SendClosed)) else Sent(CloseIf(after, b.close), None)
  }

  /** A schedule that answers the receive operations. */
  predicate AnswersBy(c: Config, s: State, ops: RecvOps, at: Clock, es: seq<Event>) {
    && Enabled(c, s, Event(Begin(ops), at))
    && AllWork(es)
    && ValidRun(c, BeginState(s, ops, at), es)
    && After(c, BeginState(s, ops, at), es).hand.reader.Idle?
  }

  /** The receive half of a batch on a stream. */
  function Receive(call: Call, a: Active, ops: RecvOps, env: Env): BatchOutcome
    requires AnswersBy(a.config, a.state, ops, env.now, env.schedule)
  {
    var s := After(a.config, BeginState(a.state, ops, env.now), env.schedule);
    Done(call.(stream := Some(a.(state := s)), clock := s.clock), Ok(s.hand.reply))
  }

  function UnaryReply(r: CallResult, ops: RecvOps): Reply {
    Reply(if ops.meta then Some(r.initial.GetOr([])) else None,
          if ops.message then Some(r.body) else None,
          if ops.status then Some(Trailers(r.code, r.message, r.trailing.GetOr([]))) else None)
  }

  /** The request a receive batch without a stream resolves: its own send half, or the buffers. */
  function ResolvedRequest(call: Call, b: Batch, env: Env): Request {
    if b.Sends() then Request(b.metadata.GetOr([]), PluginEntries(env), b.message, b.message)
    else Request(call.pendingMetadata, [], call.pendingMessage, None)
  }

  function TakePending(call: Call, b: Batch): Call {
    if b.Sends() then call else call.(pendingMetadata := [], pendingMessage := None)
  }

  function RunOneShot(call: Call, b: Batch, request: Request, env: Env): BatchOutcome {
    var r := ExecuteCall(env.script, call.deadline, call.pathValid, env.choice);
    var attempt := Attempt(request, Reaches(env.script, call.deadline, call.pathValid, env.choice), r.Ok?,
                           !b.recv.status && !call.sendClosed);
    var after := call.(clock := env.choice.raceAt,
                       cancelled := call.cancelled || r == Err(CancelledInFlight),
                       history := call.history.(attempts := call.history.attempts + [attempt]));
    match r
    case Ok(value) => Done(after, Ok(UnaryReply(value, b.recv)))
    case Err(e) => Done(after, Err(CallFailed(e)))
  }

  /** A bidi stream sends along only the metadata buffered earlier. */
  function LaunchBidi(call: Call, env: Env): Result<Active, Error> {
    Launch(call, Request(call.pendingMetadata, PluginEntries(env), None, None), true, env)
  }

  /** The stream a batch sends its message on, when its route sends on one. */
  function SendTarget(call: Call, b: Batch, env: Env): Option<Active> {
    match RouteOf(call, b)
    case Forward => call.stream
    case ReadActive => call.stream
    case StartBidi =>
      if !PluginThrows(env) && LaunchBidi(call, env).Ok? then Some(LaunchBidi(call, env).value) else None
    case _ => None
  }

  predicate SendsOk(call: Call, b: Batch, env: Env) {
    SendTarget(call, b, env).Some? ==> SendOk(SendTarget(call, b, env).value, b, env)
  }

  /** The stream a batch reads from, when its route reads from one. */
  function ReadSource(call: Call, b: Batch, env: Env): Option<Active>
    requires SendsOk(call, b, env)
  {
    match RouteOf(call, b)
    case ReadActive =>
      var sent := SendOn(call.stream.value, b, env);
      if sent.error.None? then Some(sent.active) else None
    case Lazy =>
      var launched := Launch(call, ResolvedRequest(call, b, env), false, env);
      if launched.Ok? && !(b.Sends() && PluginThrows(env)) then Some(launched.value) else None
    case _ => None
  }

  /** The world behaves: clocks do not run back, races are won fairly, sends end, waits are answered. */
  predicate EnvOk(call: Call, b: Batch, env: Env) {
    && call.clock <= env.now
    && (RouteOf(call, b).OneShot? ==> ValidChoice(call.deadline, env.choice) && env.choice.entry == env.now)
    && SendsOk(call, b, env)
    && (ReadSource(call, b, env).Some? ==>
          var a := ReadSource(call, b, env).value;
          AnswersBy(a.config, a.state, b.recv, env.now, env.schedule))
  }

  /** Keep the stream as the send left it. */
  function KeepSent(call: Call, sent: Sent): BatchOutcome {
    Done(call.(stream := Some(sent.active)),
         match sent.error case None => Ok(EMPTY_REPLY) case Some(e) => Err(e))
  }

  function ForwardSend(call: Call, b: Batch, env: Env): BatchOutcome
    requires call.stream.Some? && SendOk(call.stream.value, b, env)
  {
    KeepSent(call.(clock := env.now), SendOn(call.stream.value, b, env))
  }

  /** The first message without a half-close: only metadata buffered earlier is sent along. */
  function OpenBidi(call: Call, b: Batch, env: Env): BatchOutcome
    requires RouteOf(call, b).StartBidi? && SendsOk(call, b, env)
  {
    var taken := call.(pendingMetadata := [], clock := env.now);
    if PluginThrows(env) then Done(taken, Err(PluginFailed))
    else
      match LaunchBidi(call, env)
      case Err(e) => Done(taken, Err(e))
      case Ok(started) => KeepSent(taken, SendOn(started, b, env))
  }

  /** The buffers after a send-only batch without a stream: overwritten, then the plugin's entries. */
  function Buffered(call: Call, b: Batch, env: Env): Call {
    call.(pendingMetadata := b.metadata.GetOr([]) + PluginEntries(env), pendingMessage := b.message, clock := env.now)
  }

  function BufferSend(call: Call, b: Batch, env: Env): BatchOutcome {
    Done(Buffered(call, b, env), if PluginThrows(env) then Err(PluginFailed) else Ok(EMPTY_REPLY))
  }

  /** A half-closed send is dispatched at once. */
  function EagerSend(call: Call, b: Batch, env: Env): BatchOutcome {
    var kept := Buffered(call, b, env);
    if PluginThrows(env) then Done(kept, Err(PluginFailed))
    else
      var taken := kept.(pendingMetadata := [], pendingMessage := None);
      KeepStream(taken, Launch(taken, Request(kept.pendingMetadata, [], kept.pendingMessage, b.message), false, env))
  }

  function KeepStream(call: Call, launched: Result<Active, Error>): BatchOutcome {
    match launched
    case Ok(a) => Done(call.(stream := Some(a)), Ok(EMPTY_REPLY))
    case Err(e) => Done(call, Err(e))
  }

  function ReadStream(call: Call, b: Batch, env: Env): BatchOutcome
    requires EnvOk(call, b, env) && RouteOf(call, b).ReadActive?
  {
    var sent := SendOn(call.stream.value, b, env);
    if sent.error.Some? then KeepSent(call.(clock := env.now), sent)
    else Receive(call, sent.active, b.recv, env)
  }

  function OneShotCall(call: Call, b: Batch, env: Env): BatchOutcome {
    var taken := TakePending(call, b).(clock := env.now);
    if b.Sends() && PluginThrows(env) then Done(taken, Err(PluginFailed))
    else RunOneShot(taken, b, ResolvedRequest(call, b, env), env)
  }

  function LazyStream(call: Call, b: Batch, env: Env): BatchOutcome
    requires EnvOk(call, b, env) && RouteOf(call, b).Lazy?
  {
    var taken := TakePending(call, b).(clock := env.now);
    if b.Sends() && PluginThrows(env) then Done(taken, Err(PluginFailed))
    else
      match Launch(call, ResolvedRequest(call, b, env), false, env)
      case Err(e) => Done(taken, Err(e))
      case Ok(a) => Receive(taken, a, b.recv, env)
  }

  function Dispatch(call: Call, b: Batch, env: Env): BatchOutcome
    requires EnvOk(call, b, env)
  {
    match RouteOf(call, b)
    case Forward => ForwardSend(call, b, env)
    case StartBidi => OpenBidi(call, b, env)
    case Buffer => BufferSend(call, b, env)
    case Eager => EagerSend(call, b, env)
    case ReadActive => ReadStream(call, b, env)
    case OneShot => OneShotCall(call, b, env)
    case Lazy => LazyStream(call, b, env)
  }

  /** Bookkeeping after a dispatch: a delivered status ends the call. */
  function Settle(b: Batch, o: BatchOutcome): BatchOutcome {
    var h := o.call.history;
    match o.result
    case Err(_) => o.(call := o.call.(history := h.(failed := true)))
    case Ok(reply) =>
      o.(call := o.call.(
         finished := o.call.finished || b.recv.status,
         history := h.(accepted := if b.message.Some? then h.accepted + [b.message.value] else h.accepted,
                       statuses := if reply.status.Some? then h.statuses + [reply.status.value] else h.statuses)))
  }

  /** The flags set before a batch is dispatched. */
  function Mark(call: Call, b: Batch): Call {
    call.(metadataSent := call.metadataSent || b.metadata.Some?,
          sendClosed := call.sendClosed || b.close,
          history := call.history.(initial := if b.metadata.Some? then b.metadata else call.history.initial))
  }

  /** Why a batch is turned away before it is dispatched. */
  function Refusal(call: Call, b: Batch, env: Env): Option<Error> {
    if env.channelClosed then Some(ChannelClosed)
    else if call.cancelled then Some(CallCancelled)
    else if !b.Sends() && !b.Receives() then None
    else if call.finished || (b.metadata.Some? && call.metadataSent) then Some(TooManyOperations)
    else None
  }

  predicate Dispatches(call: Call, b: Batch, env: Env) {
    Refusal(call, b, env).None? && (b.Sends() || b.Receives())
  }

  function StartBatch(call: Call, b: Batch, env: Env): BatchOutcome
    requires Dispatches(call, b, env) ==> EnvOk(Mark(call, b), b, env)
  {
    match Refusal(call, b, env)
    case Some(e) => Done(call, Err(e))
    case None =>
      if !b.Sends() && !b.Receives() then Done(call, Ok(EMPTY_REPLY))
      else Settle(b, Dispatch(Mark(call, b), b, env))
  }

  // ---- runs ----

  /** What happens to a call: a batch, progress of its driver or its transport between batches, a cancel. */
  datatype Act =
    | Submit(batch: Batch, env: Env)
    | Background(event: Event)
    | Transport(pipe: PipeEvent)
    | Abort(at: Clock)

  predicate ActOk(call: Call, a: Act) {
    match a
    case Submit(b, env) => Dispatches(call, b, env) ==> EnvOk(Mark(call, b), b, env)
    case Background(e) =>
      && call.stream.Some? && e.action.Drive? && call.clock <= e.at
      && Enabled(call.stream.value.config, call.stream.value.state, e)
    case Transport(e) =>
      call.stream.Some? && IsTransport(e) && CanHappen(call.stream.value.pipe, e)
    case Abort(at) => call.clock <= at
  }

  function Perform(call: Call, a: Act): Call
    requires ActOk(call, a)
  {
    match a
    case Submit(b, env) => StartBatch(call, b, env).call
    case Background(e) =>
      var s := call.stream.value;
      call.(stream := Some(s.(state := Next(s.config, s.state, e))), clock := e.at)
    case Transport(e) =>
      var s := call.stream.value;
      call.(stream := Some(s.(pipe := Happen(s.pipe, e))))
    case Abort(at) =>
      call.(cancelled := true, clock := at,
            stream := if call.stream.None? then None
                      else var s := call.stream.value;
                           Some(s.(state := Next(s.config, s.state, Event(Cancel, at)))))
  }

  predicate ValidActs(call: Call, acts: seq<Act>)
    decreases |acts|
  {
    acts == [] || (ActOk(call, acts[0]) && ValidActs(Perform(call, acts[0]), acts[1..]))
  }

  function PerformAll(call: Call, acts: seq<Act>): Call
    requires ValidActs(call, acts)
    decreases |acts|
  {
    if acts == [] then call else PerformAll(Perform(call, acts[0]), acts[1..])
  }
}
