/**
 * The response-stream protocol: a driver task that pulls the server's response
 * into a bounded buffer, and the PHP thread that reads from it.
 *
 * The transport is a finite script; which arm of a `select!` fires, how driver
 * and reader interleave and how far the clock moves between steps are left to
 * the event sequence, so a statement about all event sequences is a statement
 * about all schedules.
 */
module StreamProtocol {
  import opened Base
  import opened Deadline
  import opened Metadata

  /** What the driver puts into the message buffer. */
  datatype Item =
    | Message(bytes: Bytes)
    | EndOfStream
    | Failure(status: Status)

  datatype Trailers = Trailers(code: int, message: string, metadata: MetadataMap)

  // ---- the transport script ----

  datatype Connection = Connected | Unreachable(status: Status)

  /** How the body ends: with trailers (possibly none), or with an error status. */
  datatype Ending = Complete(trailers: Option<MetadataMap>) | Broken(status: Status)

  datatype Response =
    | Accepted(headers: MetadataMap, messages: seq<Bytes>, ending: Ending)
    | Refused(status: Status)

  datatype Script = Script(connection: Connection, response: Response)

  /** Everything fixed when the driver task is spawned. */
  datatype Config = Config(script: Script, deadline: I64, start: Clock, capacity: nat)

  predicate WellFormed(c: Config) {
    c.capacity >= 1
  }

  function Messages(c: Config): seq<Bytes> {
    match c.script.response
    case Accepted(_, messages, _) => messages
    case Refused(_) => []
  }

  // ---- statuses ----

  const CANCELLED := 1
  const UNKNOWN := 2
  const DEADLINE_EXCEEDED := 4
  const UNAVAILABLE := 14

  /** The (code, details) pair PHP is given for a transport status. */
  function StatusToPhp(status: Status, deadline: I64, now: int): (int, string) {
    if status.code == CANCELLED && deadline > 0 && deadline < I64_MAX && now >= deadline then
      (DEADLINE_EXCEEDED, "Deadline Exceeded")
    else if status.code == UNKNOWN && status.message == "transport error" then
      (UNAVAILABLE, "transport error")
    else
      (status.code, status.message)
  }

  function StatusTrailers(status: Status, deadline: I64, now: int): Trailers {
    var (code, message) := StatusToPhp(status, deadline, now);
    Trailers(code, message, StatusMetadata(status))
  }

  const DEADLINE_TRAILERS := Trailers(DEADLINE_EXCEEDED, "Deadline Exceeded", [])
  const CANCEL_TRAILERS := Trailers(CANCELLED, "Call cancelled", [])
  const TASK_GONE_TRAILERS := Trailers(UNKNOWN, "stream task terminated unexpectedly", [])
  const CONSUMED_TRAILERS := Trailers(UNKNOWN, "stream already consumed", [])

  // ---- state ----

  /** Where the driver task stands. The Parked states are inside `msg_tx.send(..).await`. */
  datatype Driver =
    | Connecting
    | Requesting
    | Pulling
    | ParkedMessage(bytes: Bytes)
    | ParkedEnd(trailers: Trailers)
    | ParkedFailure(status: Status)
    | Finishing(trailers: Trailers)
    | Finished

  /** Where `build_stream_result` stands on the PHP thread. */
  datatype Reader = Idle | WantMeta | WantMessage | WantStatus | Draining | TrailersOnly

  datatype RecvOps = RecvOps(meta: bool, message: bool, status: bool)

  /** The result object: a field is present when its operation was requested. */
  datatype Reply = Reply(meta: Option<MetadataMap>, message: Option<Option<Bytes>>, status: Option<Trailers>)

  const EMPTY_REPLY := Reply(None, None, None)

  datatype Cause = ByServer | ByDeadline | ByCancel

  /** What the driver decided about the call, why, and when. */
  datatype Outcome =
    | Undecided
    | ConnectFailed(status: Status)
    | Ended(trailers: Trailers, cause: Cause, at: Clock)

  /** The driver task, the channels it writes, and a record of what it did. */
  datatype Link = Link(
    driver: Driver,
    pulled: nat,
    buffer: seq<Item>,
    metaSlot: Option<MetadataMap>,
    trailersSlot: Option<Trailers>,
    outcome: Outcome,
    requested: bool,
    responded: bool)

  /** The receiving ends held by the call and the batch being answered. */
  datatype Hand = Hand(
    metaHeld: bool,
    cached: Option<Trailers>,
    trailersHeld: bool,
    reader: Reader,
    ops: RecvOps,
    reply: Reply,
    log: Log)

  /** What PHP has been given so far. */
  datatype Log = Log(
    metas: seq<MetadataMap>,
    delivered: seq<Bytes>,
    discarded: seq<Bytes>,
    terminalTaken: bool,
    nulls: nat,
    failureReadAt: Clock,
    statuses: seq<Trailers>)

  datatype State = State(link: Link, hand: Hand, cancelled: bool, clock: Clock)

  const NO_OPS := RecvOps(false, false, false)

  function Spawned(c: Config): State {
    State(Link(Connecting, 0, [], None, None, Undecided, false, false),
          Hand(true, None, true, Idle, NO_OPS, EMPTY_REPLY, Log([], [], [], false, 0, 0, [])),
          false, c.start)
  }

  /** No task is spawned when the deadline has passed at dispatch. */
  function ExpiredAtDispatch(c: Config): State {
    State(Link(Finished, 0, [], None, None, Ended(DEADLINE_TRAILERS, ByDeadline, c.start), false, false),
          Hand(false, Some(DEADLINE_TRAILERS), false, Idle, NO_OPS, EMPTY_REPLY, Log([], [], [], true, 0, 0, [])),
          false, c.start)
  }

  function Init(c: Config): State {
    if AlreadyExpired(c.deadline, c.start) then ExpiredAtDispatch(c) else Spawned(c)
  }

  // ---- events ----

  datatype DriverAction =
    | Connect
    | ConnectTimeout
    | Respond
    | RespondTimeout
    | Pull
    | SeeCancel
    | SeeDeadline
    | Push
    | SendTrailers

  datatype ReaderAction =
    | ResolveMeta
    | ReadMessage
    | OpenStatus
    | DrainItem
    | DrainClosed
    | TakeTrailers

  datatype Action =
    | Drive(driver: DriverAction)
    | Read(reader: ReaderAction)
    | Begin(ops: RecvOps)
    | Cancel

  datatype Event = Event(action: Action, at: Clock)

  predicate IsWork(e: Event) {
    e.action.Drive? || e.action.Read?
  }

  predicate DeadlineFires(c: Config, at: Clock) {
    at >= DeadlineInstant(c.deadline, c.start)
  }

  // ---- the driver task ----

  predicate DriverEnabled(c: Config, l: Link, cancelled: bool, a: DriverAction, at: Clock) {
    match a
    case Connect => l.driver.Connecting?
    case ConnectTimeout => l.driver.Connecting? && DeadlineFires(c, at)
    case Respond => l.driver.Requesting?
    case RespondTimeout => l.driver.Requesting? && DeadlineFires(c, at)
    case Pull => l.driver.Pulling?
    case SeeCancel => l.driver.Pulling? && cancelled
    case SeeDeadline => l.driver.Pulling? && DeadlineFires(c, at)
    case Push =>
      && (l.driver.ParkedMessage? || l.driver.ParkedEnd? || l.driver.ParkedFailure?)
      && |l.buffer| < c.capacity
    case SendTrailers => l.driver.Finishing?
  }

  /** The driver has decided: announce the end, then send the trailers. */
  function Conclude(l: Link, t: Trailers, cause: Cause, at: Clock): Link {
    l.(driver := ParkedEnd(t), outcome := Ended(t, cause, at))
  }

  function ConnectResolves(c: Config, l: Link): Link {
    match c.script.connection
    case Connected => l.(driver := Requesting, requested := true)
    case Unreachable(status) =>
      l.(driver := ParkedFailure(status), metaSlot := Some([]), outcome := ConnectFailed(status))
  }

  function ResponseArrives(c: Config, l: Link, at: Clock): Link {
    match c.script.response
    case Accepted(headers, _, _) => l.(driver := Pulling, metaSlot := Some(headers))
    case Refused(status) => Conclude(l.(metaSlot := Some([])), StatusTrailers(status, c.deadline, at), ByServer, at)
  }

  function PullNext(c: Config, l: Link, at: Clock): Link {
    match c.script.response
    case Accepted(_, messages, ending) =>
      if l.pulled < |messages| then
        l.(driver := ParkedMessage(messages[l.pulled]), pulled := l.pulled + 1)
      else (
        match ending
        case Complete(trailers) => Conclude(l, Trailers(0, "", trailers.GetOr([])), ByServer, at)
        case Broken(status) => Conclude(l, StatusTrailers(status, c.deadline, at), ByServer, at)
      )
    case Refused(_) => l
  }

  function PushParked(l: Link): Link {
    match l.driver
    case ParkedMessage(bytes) => l.(driver := Pulling, buffer := l.buffer + [Message(bytes)])
    case ParkedEnd(t) => l.(driver := Finishing(t), buffer := l.buffer + [EndOfStream])
    case ParkedFailure(status) => l.(driver := Finished, buffer := l.buffer + [Failure(status)])
    case _ => l
  }

  function DriverNext(c: Config, l: Link, a: DriverAction, at: Clock): Link {
    match a
    case Connect => ConnectResolves(c, l)
    case ConnectTimeout => Conclude(l.(metaSlot := Some([])), DEADLINE_TRAILERS, ByDeadline, at)
    case Respond => ResponseArrives(c, l.(responded := true), at)
    case RespondTimeout => Conclude(l.(metaSlot := Some([])), DEADLINE_TRAILERS, ByDeadline, at)
    case Pull => PullNext(c, l, at)
    case SeeCancel => Conclude(l, CANCEL_TRAILERS, ByCancel, at)
    case SeeDeadline => Conclude(l, DEADLINE_TRAILERS, ByDeadline, at)
    case Push => PushParked(l)
    case SendTrailers =>
      if l.driver.Finishing? then l.(driver := Finished, trailersSlot := Some(l.driver.trailers)) else l
  }

  // ---- the reader ----

  /** Waiting for a channel: a value is there, or its sender is gone. */
  predicate ReaderEnabled(h: Hand, l: Link, a: ReaderAction) {
    match a
    case ResolveMeta =>
      h.reader.WantMeta? && (h.metaHeld ==> l.metaSlot.Some? || l.driver.Finished?)
    case ReadMessage =>
      h.reader.WantMessage? && (h.cached.Some? || l.buffer != [] || l.driver.Finished?)
    case OpenStatus => h.reader.WantStatus?
    case DrainItem => h.reader.Draining? && l.buffer != []
    case DrainClosed => h.reader.Draining? && l.buffer == [] && l.driver.Finished?
    case TakeTrailers =>
      (h.reader.Draining? || h.reader.TrailersOnly?) && (l.trailersSlot.Some? || l.driver.Finished?)
  }

  /** Whether the action takes the oldest buffered item. */
  predicate Pops(h: Hand, l: Link, a: ReaderAction) {
    l.buffer != [] && (a.DrainItem? || (a.ReadMessage? && h.cached.None?))
  }

  function AfterMeta(ops: RecvOps): Reader {
    if ops.message then WantMessage else AfterMessage(ops)
  }

  function AfterMessage(ops: RecvOps): Reader {
    if ops.status then WantStatus else Idle
  }

  function GiveMeta(h: Hand, m: MetadataMap): Hand {
    h.(reply := h.reply.(meta := Some(m)), metaHeld := false, reader := AfterMeta(h.ops),
       log := h.log.(metas := h.log.metas + [m]))
  }

  function GiveMessage(h: Hand, bytes: Bytes): Hand {
    h.(reply := h.reply.(message := Some(Some(bytes))), reader := AfterMessage(h.ops),
       log := h.log.(delivered := h.log.delivered + [bytes]))
  }

  function GiveNull(h: Hand): Hand {
    h.(reply := h.reply.(message := Some(None)), reader := AfterMessage(h.ops),
       log := h.log.(nulls := h.log.nulls + 1))
  }

  function TakeMessage(c: Config, h: Hand, l: Link, at: Clock): Hand {
    if h.cached.Some? || l.buffer == [] then GiveNull(h)
    else
      match l.buffer[0]
      case Message(bytes) => GiveMessage(h, bytes)
      case EndOfStream => GiveNull(h.(log := h.log.(terminalTaken := true)))
      case Failure(status) =>
        GiveNull(h.(cached := Some(StatusTrailers(status, c.deadline, at)),
                    log := h.log.(terminalTaken := true, failureReadAt := at)))
  }

  function GiveStatus(h: Hand, t: Trailers): Hand {
    h.(reply := h.reply.(status := Some(t)), reader := Idle,
       log := h.log.(statuses := h.log.statuses + [t]))
  }

  function AskStatus(h: Hand): Hand {
    if h.cached.Some? then GiveStatus(h.(cached := None), h.cached.value)
    else if h.trailersHeld then h.(trailersHeld := false, reader := Draining)
    else GiveStatus(h, CONSUMED_TRAILERS)
  }

  function DrainOne(h: Hand, item: Item): Hand {
    match item
    case Message(bytes) => h.(log := h.log.(discarded := h.log.discarded + [bytes]))
    case _ => h.(reader := TrailersOnly, log := h.log.(terminalTaken := true))
  }

  function ReaderNext(c: Config, h: Hand, l: Link, a: ReaderAction, at: Clock): Hand {
    match a
    case ResolveMeta => GiveMeta(h, if h.metaHeld then l.metaSlot.GetOr([]) else [])
    case ReadMessage => TakeMessage(c, h, l, at)
    case OpenStatus => AskStatus(h)
    case DrainItem => if l.buffer == [] then h else DrainOne(h, l.buffer[0])
    case DrainClosed => h.(reader := TrailersOnly)
    case TakeTrailers => GiveStatus(h, l.trailersSlot.GetOr(TASK_GONE_TRAILERS))
  }

  // ---- the whole system ----

  predicate Enabled(c: Config, s: State, e: Event) {
    && e.at >= s.clock
    && match e.action
       case Drive(a) => DriverEnabled(c, s.link, s.cancelled, a, e.at)
       case Read(a) => ReaderEnabled(s.hand, s.link, a)
       case Begin(ops) =>
         && s.hand.reader.Idle? && !s.cancelled && s.hand.log.statuses == []
         && (ops.meta || ops.message || ops.status)
       case Cancel => s.hand.reader.Idle?
  }

  function DriveState(c: Config, s: State, a: DriverAction, at: Clock): State {
    State(DriverNext(c, s.link, a, at), s.hand, s.cancelled, at)
  }

  function ReadLink(s: State, a: ReaderAction): Link {
    if Pops(s.hand, s.link, a) then s.link.(buffer := s.link.buffer[1..]) else s.link
  }

  function ReadState(c: Config, s: State, a: ReaderAction, at: Clock): State {
    State(ReadLink(s, a), ReaderNext(c, s.hand, s.link, a, at), s.cancelled, at)
  }

  function BeginState(s: State, ops: RecvOps, at: Clock): State {
    s.(hand := s.hand.(ops := ops, reply := EMPTY_REPLY,
                       reader := if ops.meta then WantMeta else AfterMeta(ops)),
       clock := at)
  }

  function Next(c: Config, s: State, e: Event): State {
    match e.action
    case Drive(a) => DriveState(c, s, a, e.at)
    case Read(a) => ReadState(c, s, a, e.at)
    case Begin(ops) => BeginState(s, ops, e.at)
    case Cancel => s.(cancelled := true, clock := e.at)
  }

  // ---- runs ----

  predicate ValidRun(c: Config, s: State, es: seq<Event>)
    decreases |es|
  {
    es == [] || (Enabled(c, s, es[0]) && ValidRun(c, Next(c, s, es[0]), es[1..]))
  }

  function After(c: Config, s: State, es: seq<Event>): State
    requires ValidRun(c, s, es)
    decreases |es|
  {
    if es == [] then s else After(c, Next(c, s, es[0]), es[1..])
  }
}
