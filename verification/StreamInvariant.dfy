/** What every event of the response-stream protocol keeps. */
module StreamInvariant {
  import opened Base
  import opened Deadline
  import opened Metadata
  import opened StreamProtocol

  // ---- messages in flight ----

  function Payloads(items: seq<Item>): seq<Bytes> {
    if items == [] then []
    else (if items[0].Message? then [items[0].bytes] else []) + Payloads(items[1..])
  }

  function Parked(d: Driver): seq<Bytes> {
    if d.ParkedMessage? then [d.bytes] else []
  }

  function InFlight(l: Link): seq<Bytes> {
    Payloads(l.buffer) + Parked(l.driver)
  }

  /** Every message the driver pulled is in exactly one place, and the places keep its order. */
  predicate Conserved(c: Config, l: Link, log: Log) {
    && l.pulled <= |Messages(c)|
    && log.delivered + log.discarded + InFlight(l) == Messages(c)[..l.pulled]
  }

  // ---- the driver's side ----

  predicate Expired(c: Config) {
    AlreadyExpired(c.deadline, c.start)
  }

  predicate DriverOk(c: Config, l: Link) {
    && (match l.driver
        case Connecting => l.outcome.Undecided?
        case Requesting => l.outcome.Undecided? && l.requested
        case Pulling => l.outcome.Undecided? && l.requested && c.script.response.Accepted?
        case ParkedMessage(_) => l.outcome.Undecided? && l.requested && c.script.response.Accepted?
        case ParkedEnd(t) => l.outcome.Ended? && l.outcome.trailers == t
        case ParkedFailure(status) => l.outcome == ConnectFailed(status)
        case Finishing(t) => l.outcome.Ended? && l.outcome.trailers == t
        case Finished => !l.outcome.Undecided?)
    && (Expired(c) ==> l.driver.Finished? && l.outcome == Ended(DEADLINE_TRAILERS, ByDeadline, c.start))
    && (l.outcome.ConnectFailed? ==> c.script.connection == Unreachable(l.outcome.status))
    && (l.driver.Connecting? || l.driver.Requesting? || l.outcome.ConnectFailed? || Expired(c) ==> l.pulled == 0)
    && (l.requested ==> c.script.connection.Connected? && !l.driver.Connecting? && !Expired(c))
  }

  /** The decision came from the body of an accepted response. */
  predicate BodyEnded(c: Config, outcome: Outcome) {
    outcome.Ended? && outcome.cause.ByServer? && c.script.response.Accepted?
  }

  /** The server's own final word, translated at the given time. */
  function ServerTrailers(c: Config, at: Clock): Trailers {
    match c.script.response
    case Refused(status) => StatusTrailers(status, c.deadline, at)
    case Accepted(_, _, Broken(status)) => StatusTrailers(status, c.deadline, at)
    case Accepted(_, _, Complete(trailers)) => Trailers(0, "", trailers.GetOr([]))
  }

  /** Each decision of the driver has its reason. */
  predicate OutcomeOk(c: Config, l: Link, now: Clock, cancelled: bool) {
    l.outcome.Ended? ==>
      && l.outcome.at <= now
      && match l.outcome.cause
         case ByServer =>
           && l.requested && l.outcome.trailers == ServerTrailers(c, l.outcome.at)
           && l.pulled == |Messages(c)|
         case ByDeadline => l.outcome.trailers == DEADLINE_TRAILERS && DeadlineFires(c, l.outcome.at)
         case ByCancel => l.outcome.trailers == CANCEL_TRAILERS && cancelled
  }

  /** The response headers, once an accepting response has arrived; empty without one. */
  function HeadersSeen(c: Config, l: Link): MetadataMap {
    if l.responded && c.script.response.Accepted? then c.script.response.headers else []
  }

  /** Initial metadata is sent before the driver can park; trailers only by an orderly finish. */
  predicate SlotsOk(c: Config, l: Link) {
    && (!Expired(c) ==>
          l.metaSlot == if l.driver.Connecting? || l.driver.Requesting? then None else Some(HeadersSeen(c, l)))
    && (l.driver.Pulling? || l.driver.ParkedMessage? || BodyEnded(c, l.outcome) ==>
          c.script.response.Accepted? && l.responded)
    && (l.driver.Connecting? || l.driver.Requesting? || !l.requested ==> !l.responded)
    && l.trailersSlot ==
       if l.driver.Finished? && l.outcome.Ended? && !Expired(c) then Some(l.outcome.trailers) else None
  }

  /** The driver has put its terminal item into the buffer. */
  predicate TerminalSent(l: Link) {
    l.driver.Finishing? || l.driver.Finished?
  }

  predicate IsTerminal(outcome: Outcome, item: Item) {
    match outcome
    case Undecided => false
    case ConnectFailed(status) => item == Failure(status)
    case Ended(_, _, _) => item == EndOfStream
  }

  /** The buffer respects its bound; its one possible terminal item is its last. */
  predicate BufferOk(c: Config, l: Link, terminalTaken: bool) {
    && |l.buffer| <= c.capacity
    && (forall i :: 0 <= i < |l.buffer| - 1 ==> l.buffer[i].Message?)
    && (terminalTaken ==> TerminalSent(l) && l.buffer == [])
    && (l.buffer != [] ==>
          var last := l.buffer[|l.buffer| - 1];
          if TerminalSent(l) then IsTerminal(l.outcome, last) else last.Message?)
    && (TerminalSent(l) && !terminalTaken ==> l.buffer != [])
  }

  // ---- the reader's side ----

  predicate InStatus(h: Hand) {
    h.reader.Draining? || h.reader.TrailersOnly?
  }

  function ReadCount(log: Log): nat {
    |log.delivered| + log.nulls
  }

  /** The status a batch with RECV_STATUS reports, as a function of the driver's decision. */
  function ReportedStatus(c: Config, outcome: Outcome, log: Log): Trailers {
    match outcome
    case Undecided => CONSUMED_TRAILERS
    case Ended(t, _, _) => t
    case ConnectFailed(status) =>
      if ReadCount(log) > 0 then StatusTrailers(status, c.deadline, log.failureReadAt) else TASK_GONE_TRAILERS
  }

  /** An open call holds cached trailers or the trailers receiver; a status closes the call. */
  predicate ReaderOk(c: Config, h: Hand) {
    && (h.log.statuses == [] && !InStatus(h) ==> h.trailersHeld || h.cached.Some?)
    && (InStatus(h) ==> h.cached.None? && h.log.statuses == [] && !Expired(c))
    && (h.reader.TrailersOnly? ==> h.log.terminalTaken)
    && (h.log.statuses != [] ==> h.reader.Idle? && |h.log.statuses| == 1)
    && (h.log.discarded != [] ==> InStatus(h) || h.log.statuses != [])
    && (h.log.nulls > 0 ==> h.log.terminalTaken && h.log.discarded == [])
    && (Expired(c) ==> !h.metaHeld && h.log.terminalTaken)
    && (h.cached.Some? ==> h.log.terminalTaken)
  }

  /** Cached trailers and reported statuses are what the driver decided. */
  predicate StatusOk(c: Config, outcome: Outcome, h: Hand) {
    && (h.log.statuses == [] ==>
          (h.cached.Some? <==> Expired(c) || (outcome.ConnectFailed? && ReadCount(h.log) > 0)))
    && (h.cached.Some? ==> h.cached.value == ReportedStatus(c, outcome, h.log))
    && (outcome.ConnectFailed? && ReadCount(h.log) > 0 ==> h.log.terminalTaken)
    && (outcome.ConnectFailed? && h.log.terminalTaken && h.log.statuses == [] && !InStatus(h) ==> h.cached.Some?)
    && (h.log.statuses != [] ==>
          !outcome.Undecided? && h.log.statuses[0] == ReportedStatus(c, outcome, h.log))
  }

  /** Only the first RECV_INITIAL_METADATA sees the response headers. */
  predicate MetaOk(c: Config, l: Link, h: Hand) {
    && (h.metaHeld ==> h.log.metas == [])
    && (!h.metaHeld && !Expired(c) ==> h.log.metas != [])
    && (h.log.metas != [] && !Expired(c) ==> l.metaSlot == Some(h.log.metas[0]))
    && (forall i :: 0 <= i < |h.log.metas| && (i > 0 || Expired(c)) ==> h.log.metas[i] == [])
  }

  /** A cancelled call is never answered again. */
  predicate CancelOk(outcome: Outcome, h: Hand, cancelled: bool) {
    && (cancelled ==> h.reader.Idle?)
    && (outcome.Ended? && outcome.cause.ByCancel? ==> h.log.statuses == [])
  }

  /** Each field of the result object holds what was handed over last. */
  predicate ReplyHolds(h: Hand) {
    && (h.reply.meta.Some? ==> h.log.metas != [] && h.reply.meta.value == h.log.metas[|h.log.metas| - 1])
    && (h.reply.message.Some? ==>
          match h.reply.message.value
          case None => h.log.nulls > 0
          case Some(m) => h.log.delivered != [] && m == h.log.delivered[|h.log.delivered| - 1])
    && (h.reply.status.Some? ==> h.log.statuses == [h.reply.status.value])
  }

  /** The result object of an answered batch has exactly the requested fields. */
  predicate ReplyShape(h: Hand) {
    && (h.reader.WantMeta? ==> h.ops.meta && h.reply == EMPTY_REPLY)
    && (h.reader.WantMessage? ==> h.ops.message && h.reply.message.None?)
    && (h.reader.WantStatus? || InStatus(h) ==> h.ops.status)
    && (!h.reader.WantMeta? ==> (h.reply.meta.Some? <==> h.ops.meta))
    && (!h.reader.WantMeta? && !h.reader.WantMessage? ==> (h.reply.message.Some? <==> h.ops.message))
    && (h.reply.status.Some? <==> h.ops.status && h.reader.Idle?)
  }

  // ---- the invariant ----

  predicate LinkInv(c: Config, s: State) {
    && Conserved(c, s.link, s.hand.log)
    && BufferOk(c, s.link, s.hand.log.terminalTaken)
    && DriverOk(c, s.link)
    && SlotsOk(c, s.link)
    && OutcomeOk(c, s.link, s.clock, s.cancelled)
  }

  predicate HandInv(c: Config, s: State) {
    && ReaderOk(c, s.hand)
    && StatusOk(c, s.link.outcome, s.hand)
    && MetaOk(c, s.link, s.hand)
    && CancelOk(s.link.outcome, s.hand, s.cancelled)
    && ReplyHolds(s.hand)
    && ReplyShape(s.hand)
    && c.start <= s.clock
    && s.hand.log.failureReadAt <= s.clock
  }

  predicate Inv(c: Config, s: State) {
    WellFormed(c) && LinkInv(c, s) && HandInv(c, s)
  }

  lemma InitInv(c: Config)
    requires WellFormed(c)
    ensures Inv(c, Init(c))
  {
  }

  lemma PayloadsAppend(items: seq<Item>, x: Item)
    ensures Payloads(items + [x]) == Payloads(items) + (if x.Message? then [x.bytes] else [])
  {
    if items != [] {
      assert (items + [x])[1..] == items[1..] + [x];
      PayloadsAppend(items[1..], x);
    }
  }

  lemma PushMovesNothing(l: Link)
    requires l.driver.ParkedMessage? || l.driver.ParkedEnd? || l.driver.ParkedFailure?
    ensures InFlight(PushParked(l)) == InFlight(l)
  {
    var buffer := PushParked(l).buffer;
    PayloadsAppend(l.buffer, buffer[|buffer| - 1]);
  }

  lemma PullConserves(c: Config, l: Link, log: Log, at: Clock)
    requires Conserved(c, l, log) && l.driver.Pulling?
    ensures Conserved(c, PullNext(c, l, at), log)
  {
    var l' := PullNext(c, l, at);
    if l'.driver.ParkedMessage? {
      assert Messages(c)[..l'.pulled] == Messages(c)[..l.pulled] + [l'.driver.bytes];
      assert InFlight(l') == InFlight(l) + [l'.driver.bytes];
    }
  }

  lemma DecidingMovesNothing(c: Config, l: Link, cancelled: bool, a: DriverAction, at: Clock)
    requires DriverEnabled(c, l, cancelled, a, at) && !a.Push? && !a.Pull?
    ensures InFlight(DriverNext(c, l, a, at)) == InFlight(l) && DriverNext(c, l, a, at).pulled == l.pulled
  {
  }

  lemma DriveConserves(c: Config, l: Link, log: Log, cancelled: bool, a: DriverAction, at: Clock)
    requires Conserved(c, l, log) && DriverOk(c, l) && DriverEnabled(c, l, cancelled, a, at)
    ensures Conserved(c, DriverNext(c, l, a, at), log)
  {
    match a
    case Push => PushMovesNothing(l);
    case Pull => PullConserves(c, l, log, at);
    case _ => DecidingMovesNothing(c, l, cancelled, a, at);
  }

  lemma DriveKeepsBuffer(c: Config, l: Link, terminalTaken: bool, cancelled: bool, a: DriverAction, at: Clock)
    requires BufferOk(c, l, terminalTaken) && DriverOk(c, l) && DriverEnabled(c, l, cancelled, a, at)
    ensures BufferOk(c, DriverNext(c, l, a, at), terminalTaken)
  {
    if a.Push? {
      var buffer := PushParked(l).buffer;
      assert forall i :: 0 <= i < |buffer| - 1 ==> buffer[i] == l.buffer[i];
    }
  }

  lemma DriveKeepsDriver(c: Config, l: Link, cancelled: bool, a: DriverAction, at: Clock)
    requires DriverOk(c, l) && DriverEnabled(c, l, cancelled, a, at)
    ensures DriverOk(c, DriverNext(c, l, a, at))
  {
  }

  lemma DriveKeepsSlots(c: Config, l: Link, cancelled: bool, a: DriverAction, at: Clock)
    requires DriverOk(c, l) && SlotsOk(c, l) && DriverEnabled(c, l, cancelled, a, at)
    ensures SlotsOk(c, DriverNext(c, l, a, at))
  {
  }

  lemma DriveKeepsOutcome(c: Config, l: Link, now: Clock, cancelled: bool, a: DriverAction, at: Clock)
    requires DriverOk(c, l) && OutcomeOk(c, l, now, cancelled) && l.pulled <= |Messages(c)|
    requires now <= at && DriverEnabled(c, l, cancelled, a, at)
    ensures OutcomeOk(c, DriverNext(c, l, a, at), at, cancelled)
  {
  }

  /** A decision is made once, and before it nothing has been answered but whole messages. */
  lemma DriveKeepsHand(c: Config, s: State, a: DriverAction, at: Clock)
    requires LinkInv(c, s) && HandInv(c, s) && at >= s.clock && DriverEnabled(c, s.link, s.cancelled, a, at)
    ensures HandInv(c, DriveState(c, s, a, at))
  {
  }

  lemma PopFront(l: Link)
    requires l.buffer != []
    ensures InFlight(l) == (if l.buffer[0].Message? then [l.buffer[0].bytes] else [])
                           + InFlight(l.(buffer := l.buffer[1..]))
  {
  }

  /** Moving the oldest in-flight message to the end of what PHP got, or of what was drained. */
  lemma Handover(delivered: seq<Bytes>, discarded: seq<Bytes>, m: Bytes, rest: seq<Bytes>)
    ensures discarded == [] ==> delivered + [m] + discarded + rest == delivered + discarded + ([m] + rest)
    ensures delivered + (discarded + [m]) + rest == delivered + discarded + ([m] + rest)
  {
  }

  lemma ReadConserves(c: Config, s: State, a: ReaderAction, at: Clock)
    requires Conserved(c, s.link, s.hand.log) && ReaderOk(c, s.hand) && ReaderEnabled(s.hand, s.link, a)
    ensures Conserved(c, ReadLink(s, a), ReaderNext(c, s.hand, s.link, a, at).log)
  {
    if Pops(s.hand, s.link, a) {
      PopFront(s.link);
      if s.link.buffer[0].Message? {
        Handover(s.hand.log.delivered, s.hand.log.discarded, s.link.buffer[0].bytes, InFlight(ReadLink(s, a)));
      }
    }
  }

  lemma ReadKeepsBuffer(c: Config, s: State, a: ReaderAction, at: Clock)
    requires BufferOk(c, s.link, s.hand.log.terminalTaken) && ReaderEnabled(s.hand, s.link, a)
    ensures BufferOk(c, ReadLink(s, a), ReaderNext(c, s.hand, s.link, a, at).log.terminalTaken)
  {
    if Pops(s.hand, s.link, a) {
      var rest := s.link.buffer[1..];
      assert forall i :: 0 <= i < |rest| ==> rest[i] == s.link.buffer[i + 1];
    }
  }

  lemma ReadKeepsLink(c: Config, s: State, a: ReaderAction, at: Clock)
    requires LinkInv(c, s) && ReaderOk(c, s.hand) && at >= s.clock && ReaderEnabled(s.hand, s.link, a)
    ensures LinkInv(c, ReadState(c, s, a, at))
  {
    ReadConserves(c, s, a, at);
    ReadKeepsBuffer(c, s, a, at);
  }

  lemma ReadKeepsReader(c: Config, s: State, a: ReaderAction, at: Clock)
    requires BufferOk(c, s.link, s.hand.log.terminalTaken) && ReaderOk(c, s.hand)
    requires StatusOk(c, s.link.outcome, s.hand) && ReaderEnabled(s.hand, s.link, a)
    ensures ReaderOk(c, ReaderNext(c, s.hand, s.link, a, at))
  {
  }

  /** Reading after a failed connection takes the failure itself. */
  lemma FailureIsFirst(c: Config, l: Link, log: Log)
    requires Conserved(c, l, log) && BufferOk(c, l, log.terminalTaken) && DriverOk(c, l)
    requires l.outcome.ConnectFailed? && l.buffer != []
    ensures TerminalSent(l) && l.buffer[0] == Failure(l.outcome.status) && ReadCount(log) == log.nulls
  {
    assert InFlight(l) == [];
    assert Payloads(l.buffer) == [];
  }

  lemma TakeKeepsStatus(c: Config, h: Hand, l: Link, at: Clock)
    requires BufferOk(c, l, h.log.terminalTaken) && DriverOk(c, l)
    requires ReaderOk(c, h) && StatusOk(c, l.outcome, h)
    requires ReaderEnabled(h, l, ReadMessage)
    requires l.outcome.ConnectFailed? && l.buffer != [] ==> l.buffer[0] == Failure(l.outcome.status)
    ensures StatusOk(c, l.outcome, TakeMessage(c, h, l, at))
  {
  }

  lemma GiveKeepsStatus(c: Config, h: Hand, l: Link)
    requires ReaderOk(c, h) && StatusOk(c, l.outcome, h) && SlotsOk(c, l) && DriverOk(c, l)
    requires BufferOk(c, l, h.log.terminalTaken)
    ensures h.reader.WantStatus? ==> StatusOk(c, l.outcome, AskStatus(h))
    ensures ReaderEnabled(h, l, TakeTrailers) ==>
              StatusOk(c, l.outcome, GiveStatus(h, l.trailersSlot.GetOr(TASK_GONE_TRAILERS)))
  {
  }

  lemma ReadKeepsStatus(c: Config, s: State, a: ReaderAction, at: Clock)
    requires LinkInv(c, s) && ReaderOk(c, s.hand) && StatusOk(c, s.link.outcome, s.hand)
    requires ReaderEnabled(s.hand, s.link, a)
    ensures StatusOk(c, s.link.outcome, ReaderNext(c, s.hand, s.link, a, at))
  {
    match a
    case ReadMessage =>
      if s.link.outcome.ConnectFailed? && s.link.buffer != [] {
        FailureIsFirst(c, s.link, s.hand.log);
      }
      TakeKeepsStatus(c, s.hand, s.link, at);
    case OpenStatus => GiveKeepsStatus(c, s.hand, s.link);
    case TakeTrailers => GiveKeepsStatus(c, s.hand, s.link);
    case _ =>
  }

  lemma GivingKeepsMeta(c: Config, h: Hand, l: Link)
    requires MetaOk(c, l, h) && SlotsOk(c, l) && ReaderOk(c, h) && ReaderEnabled(h, l, ResolveMeta)
    requires DriverOk(c, l)
    ensures MetaOk(c, l, GiveMeta(h, if h.metaHeld then l.metaSlot.GetOr([]) else []))
  {
  }

  lemma ReadKeepsMeta(c: Config, s: State, a: ReaderAction, at: Clock)
    requires MetaOk(c, s.link, s.hand) && SlotsOk(c, s.link) && ReaderOk(c, s.hand) && DriverOk(c, s.link)
    requires ReaderEnabled(s.hand, s.link, a)
    ensures MetaOk(c, s.link, ReaderNext(c, s.hand, s.link, a, at))
  {
    if a.ResolveMeta? {
      GivingKeepsMeta(c, s.hand, s.link);
    }
  }

  lemma ReadKeepsCancel(c: Config, s: State, a: ReaderAction, at: Clock)
    requires CancelOk(s.link.outcome, s.hand, s.cancelled) && OutcomeOk(c, s.link, s.clock, s.cancelled)
    requires s.hand.log.failureReadAt <= s.clock <= at && ReaderEnabled(s.hand, s.link, a)
    ensures var h := ReaderNext(c, s.hand, s.link, a, at);
            CancelOk(s.link.outcome, h, s.cancelled) && h.log.failureReadAt <= at
  {
  }

  lemma GivingKeepsReply(h: Hand, md: MetadataMap, m: Bytes, t: Trailers)
    requires ReplyHolds(h)
    ensures ReplyHolds(GiveMeta(h, md)) && ReplyHolds(GiveMessage(h, m)) && ReplyHolds(GiveNull(h))
    ensures h.log.statuses == [] ==> ReplyHolds(GiveStatus(h, t))
  {
  }

  lemma TakingKeepsReply(c: Config, h: Hand, l: Link, at: Clock)
    requires ReplyHolds(h)
    ensures ReplyHolds(TakeMessage(c, h, l, at))
  {
    var m := if l.buffer != [] && l.buffer[0].Message? then l.buffer[0].bytes else [];
    GivingKeepsReply(h, [], m, DEADLINE_TRAILERS);
  }

  lemma ReadKeepsReply(c: Config, s: State, a: ReaderAction, at: Clock)
    requires ReaderOk(c, s.hand) && ReplyHolds(s.hand) && ReaderEnabled(s.hand, s.link, a)
    ensures ReplyHolds(ReaderNext(c, s.hand, s.link, a, at))
  {
    var h, l := s.hand, s.link;
    match a
    case ResolveMeta => GivingKeepsReply(h, if h.metaHeld then l.metaSlot.GetOr([]) else [], [], DEADLINE_TRAILERS);
    case ReadMessage => TakingKeepsReply(c, h, l, at);
    case OpenStatus =>
    case TakeTrailers => GivingKeepsReply(h, [], [], l.trailersSlot.GetOr(TASK_GONE_TRAILERS));
    case _ =>
  }

  lemma ReadKeepsShape(c: Config, s: State, a: ReaderAction, at: Clock)
    requires ReplyShape(s.hand) && ReaderEnabled(s.hand, s.link, a)
    ensures ReplyShape(ReaderNext(c, s.hand, s.link, a, at))
  {
  }

  lemma ReadKeepsHand(c: Config, s: State, a: ReaderAction, at: Clock)
    requires LinkInv(c, s) && HandInv(c, s) && at >= s.clock && ReaderEnabled(s.hand, s.link, a)
    ensures HandInv(c, ReadState(c, s, a, at))
  {
    ReadKeepsReader(c, s, a, at);
    ReadKeepsStatus(c, s, a, at);
    ReadKeepsMeta(c, s, a, at);
    ReadKeepsCancel(c, s, a, at);
    ReadKeepsReply(c, s, a, at);
    ReadKeepsShape(c, s, a, at);
  }

  lemma DriveKeepsLink(c: Config, s: State, a: DriverAction, at: Clock)
    requires LinkInv(c, s) && at >= s.clock && DriverEnabled(c, s.link, s.cancelled, a, at)
    ensures LinkInv(c, DriveState(c, s, a, at))
  {
    DriveConserves(c, s.link, s.hand.log, s.cancelled, a, at);
    DriveKeepsBuffer(c, s.link, s.hand.log.terminalTaken, s.cancelled, a, at);
    DriveKeepsDriver(c, s.link, s.cancelled, a, at);
    DriveKeepsSlots(c, s.link, s.cancelled, a, at);
    DriveKeepsOutcome(c, s.link, s.clock, s.cancelled, a, at);
  }

  lemma PhpKeeps(c: Config, s: State, e: Event)
    requires Inv(c, s) && Enabled(c, s, e) && !IsWork(e)
    ensures Inv(c, Next(c, s, e))
  {
  }

  /** Every event keeps the invariant. */
  lemma StepInv(c: Config, s: State, e: Event)
    requires Inv(c, s) && Enabled(c, s, e)
    ensures Inv(c, Next(c, s, e))
  {
    match e.action
    case Drive(a) =>
      DriveKeepsLink(c, s, a, e.at);
      DriveKeepsHand(c, s, a, e.at);
    case Read(a) =>
      ReadKeepsLink(c, s, a, e.at);
      ReadKeepsHand(c, s, a, e.at);
    case _ =>
      PhpKeeps(c, s, e);
  }

  /** Every run keeps the invariant. */
  lemma {:induction false} RunInv(c: Config, s: State, es: seq<Event>)
    requires Inv(c, s) && ValidRun(c, s, es)
    ensures Inv(c, After(c, s, es))
    decreases |es|
  {
    if es != [] {
      StepInv(c, s, es[0]);
      RunInv(c, Next(c, s, es[0]), es[1..]);
    }
  }

  // ---- reachable states ----

  ghost predicate Reachable(c: Config, s: State) {
    WellFormed(c) && exists es :: ValidRun(c, Init(c), es) && s == After(c, Init(c), es)
  }

  lemma ReachableInv(c: Config, s: State)
    requires Reachable(c, s)
    ensures Inv(c, s)
  {
    var es :| ValidRun(c, Init(c), es) && s == After(c, Init(c), es);
    InitInv(c);
    RunInv(c, Init(c), es);
  }

  lemma {:induction false} RunThenRun(c: Config, s: State, es: seq<Event>, fs: seq<Event>)
    requires ValidRun(c, s, es) && ValidRun(c, After(c, s, es), fs)
    ensures ValidRun(c, s, es + fs) && After(c, s, es + fs) == After(c, After(c, s, es), fs)
    decreases |es|
  {
    if es == [] {
      assert es + fs == fs;
    } else {
      assert (es + fs)[1..] == es[1..] + fs;
      RunThenRun(c, Next(c, s, es[0]), es[1..], fs);
    }
  }

  lemma StillReachable(c: Config, s: State, fs: seq<Event>)
    requires Reachable(c, s) && ValidRun(c, s, fs)
    ensures Reachable(c, After(c, s, fs))
  {
    var es :| ValidRun(c, Init(c), es) && s == After(c, Init(c), es);
    RunThenRun(c, Init(c), es, fs);
  }

  lemma NextReachable(c: Config, s: State, e: Event)
    requires Reachable(c, s) && Enabled(c, s, e)
    ensures Reachable(c, Next(c, s, e))
  {
    assert [e][1..] == [];
    assert After(c, s, [e]) == Next(c, s, e);
    StillReachable(c, s, [e]);
  }
}
