/** Safety, completeness, deadlock freedom and termination of the response stream, over every run. */
module StreamTheorems {
  import opened Base
  import opened Deadline
  import opened Metadata
  import opened StreamProtocol
  import opened StreamInvariant

  // ---- deadlock freedom and termination ----

  function DriverRank(d: Driver): nat {
    match d
    case Connecting => 8
    case Requesting => 7
    case Pulling => 6
    case ParkedMessage(_) => 8
    case ParkedEnd(_) => 5
    case ParkedFailure(_) => 5
    case Finishing(_) => 3
    case Finished => 0
  }

  function ReaderRank(r: Reader): nat {
    match r
    case Idle => 0
    case TrailersOnly => 1
    case Draining => 2
    case WantStatus => 3
    case WantMessage => 4
    case WantMeta => 5
  }

  /** Work left: messages still to pull, to push and to take, then the fixed steps at either end. */
  function Measure(c: Config, s: State): nat
    requires s.link.pulled <= |Messages(c)|
  {
    4 * (|Messages(c)| - s.link.pulled) + DriverRank(s.link.driver) + |s.link.buffer| + ReaderRank(s.hand.reader)
  }

  lemma DriveFalls(c: Config, s: State, a: DriverAction, at: Clock)
    requires s.link.pulled <= |Messages(c)| && DriverOk(c, s.link)
    requires DriverEnabled(c, s.link, s.cancelled, a, at)
    ensures var s' := DriveState(c, s, a, at);
            s'.link.pulled <= |Messages(c)| && Measure(c, s') < Measure(c, s)
  {
  }

  lemma ReadFalls(c: Config, s: State, a: ReaderAction, at: Clock)
    requires s.link.pulled <= |Messages(c)|
    requires ReaderEnabled(s.hand, s.link, a)
    ensures var s' := ReadState(c, s, a, at);
            s'.link.pulled <= |Messages(c)| && Measure(c, s') < Measure(c, s)
  {
  }

  /** Every step of driver or reader lowers the measure. */
  lemma WorkFalls(c: Config, s: State, e: Event)
    requires Inv(c, s) && Enabled(c, s, e) && IsWork(e)
    ensures Next(c, s, e).link.pulled <= |Messages(c)|
    ensures Measure(c, Next(c, s, e)) < Measure(c, s)
  {
    match e.action
    case Drive(a) => DriveFalls(c, s, a, e.at);
    case Read(a) => ReadFalls(c, s, a, e.at);
  }

  /** The driver is neither done nor parked on a full buffer. */
  predicate DriverCanMove(c: Config, l: Link) {
    match l.driver
    case Finished => false
    case ParkedMessage(_) => |l.buffer| < c.capacity
    case ParkedEnd(_) => |l.buffer| < c.capacity
    case ParkedFailure(_) => |l.buffer| < c.capacity
    case _ => true
  }

  lemma SomeDriverEvent(c: Config, s: State) returns (e: Event)
    requires DriverCanMove(c, s.link)
    ensures e.action.Drive? && e.at == s.clock && Enabled(c, s, e)
  {
    var d := match s.link.driver
      case Connecting => Connect
      case Requesting => Respond
      case Pulling => Pull
      case Finishing(_) => SendTrailers
      case _ => Push;
    e := Event(Drive(d), s.clock);
  }

  /** An action the reader may be waiting to perform. */
  function NextRead(h: Hand, l: Link): ReaderAction {
    match h.reader
    case WantMeta => ResolveMeta
    case WantMessage => ReadMessage
    case WantStatus => OpenStatus
    case Draining => if l.buffer != [] then DrainItem else TakeTrailers
    case _ => TakeTrailers
  }

  /** While the reader is blocked the driver can move. */
  lemma BlockedMoves(c: Config, s: State)
    requires WellFormed(c) && BufferOk(c, s.link, s.hand.log.terminalTaken) && ReaderOk(c, s.hand)
    requires DriverOk(c, s.link) && SlotsOk(c, s.link)
    requires !s.hand.reader.Idle? && !ReaderEnabled(s.hand, s.link, NextRead(s.hand, s.link))
    ensures DriverCanMove(c, s.link)
  {
  }

  /** No deadlock: while PHP waits, the driver or the reader can move. */
  lemma WaitingMoves(c: Config, s: State) returns (e: Event)
    requires Inv(c, s) && !s.hand.reader.Idle?
    ensures IsWork(e) && e.at == s.clock && Enabled(c, s, e)
  {
    if ReaderEnabled(s.hand, s.link, NextRead(s.hand, s.link)) {
      e := Event(Read(NextRead(s.hand, s.link)), s.clock);
    } else {
      BlockedMoves(c, s);
      e := SomeDriverEvent(c, s);
    }
  }

  predicate AllWork(es: seq<Event>) {
    forall i :: 0 <= i < |es| ==> IsWork(es[i])
  }

  /** Nothing the driver or the reader could do next. */
  ghost predicate Quiescent(c: Config, s: State) {
    forall e :: IsWork(e) ==> !Enabled(c, s, e)
  }

  function Begins(es: seq<Event>): nat {
    if es == [] then 0 else (if es[0].action.Begin? then 1 else 0) + Begins(es[1..])
  }

  function Works(es: seq<Event>): nat {
    if es == [] then 0 else (if IsWork(es[0]) then 1 else 0) + Works(es[1..])
  }

  /** Steps taken are paid for by the initial work and by five units per batch begun. */
  lemma {:induction false} WorkIsBounded(c: Config, s: State, es: seq<Event>)
    requires Inv(c, s) && ValidRun(c, s, es)
    ensures After(c, s, es).link.pulled <= |Messages(c)|
    ensures Works(es) + Measure(c, After(c, s, es)) <= Measure(c, s) + 5 * Begins(es)
    decreases |es|
  {
    if es != [] {
      var s' := Next(c, s, es[0]);
      StepInv(c, s, es[0]);
      WorkIsBounded(c, s', es[1..]);
      if IsWork(es[0]) {
        WorkFalls(c, s, es[0]);
      }
    }
  }

  lemma {:induction false} AllWorkCounts(es: seq<Event>)
    requires AllWork(es)
    ensures Works(es) == |es| && Begins(es) == 0
  {
    if es != [] {
      AllWorkCounts(es[1..]);
    }
  }

  /**
   * Every schedule answers the wait: from any reachable state, however the steps
   * interleave, at most Measure of them fit, and a schedule that cannot be
   * extended has handed PHP its result.
   */
  lemma EveryScheduleAnswers(c: Config, s: State, es: seq<Event>)
    requires Reachable(c, s) && ValidRun(c, s, es) && AllWork(es)
    ensures s.link.pulled <= |Messages(c)| && |es| <= Measure(c, s)
    ensures Quiescent(c, After(c, s, es)) ==> After(c, s, es).hand.reader.Idle?
  {
    ReachableInv(c, s);
    WorkIsBounded(c, s, es);
    AllWorkCounts(es);
    var s' := After(c, s, es);
    if !s'.hand.reader.Idle? {
      StillReachable(c, s, es);
      ReachableInv(c, s');
      var e := WaitingMoves(c, s');
    }
  }

  lemma Prepend(c: Config, s: State, e: Event, rest: seq<Event>) returns (es: seq<Event>)
    requires Enabled(c, s, e) && ValidRun(c, Next(c, s, e), rest)
    ensures es == [e] + rest && ValidRun(c, s, es) && After(c, s, es) == After(c, Next(c, s, e), rest)
  {
    es := [e] + rest;
    assert es[1..] == rest;
  }

  // ---- a silent server ----

  /** Steps that need something from the network: a connection, a response, a message or its end. */
  predicate NeedsServer(e: Event) {
    e.action == Drive(Connect) || e.action == Drive(Respond) || e.action == Drive(Pull)
  }

  /** The deadline arm of whatever the driver awaits, or its next step of its own. */
  function DeadlineStep(d: Driver): DriverAction {
    match d
    case Connecting => ConnectTimeout
    case Requesting => RespondTimeout
    case Pulling => SeeDeadline
    case Finishing(_) => SendTrailers
    case _ => Push
  }

  /** Once the deadline has fired, a waiting PHP never depends on the server: some step of ours is enabled. */
  lemma DeadlineMoves(c: Config, s: State, now: Clock) returns (e: Event)
    requires Inv(c, s) && !s.hand.reader.Idle? && s.clock <= now && DeadlineFires(c, now)
    ensures IsWork(e) && !NeedsServer(e) && e.at == now && Enabled(c, s, e)
  {
    if ReaderEnabled(s.hand, s.link, NextRead(s.hand, s.link)) {
      e := Event(Read(NextRead(s.hand, s.link)), now);
    } else {
      BlockedMoves(c, s);
      e := Event(Drive(DeadlineStep(s.link.driver)), now);
    }
  }

  /** From the deadline on, every wait can be ended at once without the server. */
  lemma {:induction false} AnswersAtDeadline(c: Config, s: State, now: Clock) returns (es: seq<Event>)
    requires Inv(c, s) && s.clock <= now && DeadlineFires(c, now)
    ensures ValidRun(c, s, es) && After(c, s, es).hand.reader.Idle?
    ensures forall i :: 0 <= i < |es| ==> IsWork(es[i]) && !NeedsServer(es[i]) && es[i].at == now
    decreases Measure(c, s)
  {
    if s.hand.reader.Idle? {
      es := [];
    } else {
      var e := DeadlineMoves(c, s, now);
      StepInv(c, s, e);
      WorkFalls(c, s, e);
      var rest := AnswersAtDeadline(c, Next(c, s, e), now);
      es := Prepend(c, s, e, rest);
    }
  }

  /** Nothing is left to do except wait for the server. */
  ghost predicate OnlyServerLeft(c: Config, s: State) {
    forall e :: IsWork(e) && !NeedsServer(e) ==> !Enabled(c, s, e)
  }

  lemma ServerIsNotAwaited(c: Config, s: State)
    requires Reachable(c, s) && OnlyServerLeft(c, s)
    requires RealDeadline(c.deadline) || DeadlineInstant(c.deadline, c.start) <= I64_MAX
    ensures s.hand.reader.Idle?
  {
    DeadlineSitesAgree(c.deadline, c.start);
    ReachableInv(c, s);
    if !s.hand.reader.Idle? {
      var e := DeadlineMoves(c, s, Max(s.clock, DeadlineInstant(c.deadline, c.start)));
    }
  }

  /**
   * A silent server does not hold PHP up: with a real deadline, or a clock that can reach the
   * sentinel, every schedule is finite, and one that only the server could extend, however
   * late, has answered the wait.
   */
  lemma SilentServerAnswers(c: Config, s: State, es: seq<Event>)
    requires Reachable(c, s) && ValidRun(c, s, es) && AllWork(es)
    requires RealDeadline(c.deadline) || DeadlineInstant(c.deadline, c.start) <= I64_MAX
    ensures s.link.pulled <= |Messages(c)| && |es| <= Measure(c, s)
    ensures OnlyServerLeft(c, After(c, s, es)) ==> After(c, s, es).hand.reader.Idle?
  {
    EveryScheduleAnswers(c, s, es);
    StillReachable(c, s, es);
    if OnlyServerLeft(c, After(c, s, es)) {
      ServerIsNotAwaited(c, After(c, s, es));
    }
  }

  // ---- what PHP is told ----

  /** Order and conservation in every reachable state; the buffer bound; one terminal item, last. */
  lemma MessagesConserved(c: Config, s: State)
    requires Reachable(c, s)
    ensures s.link.pulled <= |Messages(c)|
    ensures s.hand.log.delivered + s.hand.log.discarded + InFlight(s.link) == Messages(c)[..s.link.pulled]
    ensures |s.link.buffer| <= c.capacity
    ensures forall i :: 0 <= i < |s.link.buffer| - 1 ==> s.link.buffer[i].Message?
  {
    ReachableInv(c, s);
  }

  /** Translating a status neither makes nor unmakes a success. */
  lemma TranslationKeepsSuccess(status: Status, deadline: I64, now: Clock)
    ensures StatusTrailers(status, deadline, now).code == 0 <==> status.code == 0
  {
  }

  /** No error status of the script carries the given code. */
  predicate NoErrorHasCode(c: Config, code: int) {
    && (c.script.connection.Unreachable? ==> c.script.connection.status.code != code)
    && match c.script.response
       case Refused(status) => status.code != code
       case Accepted(_, _, Broken(status)) => status.code != code
       case _ => true
  }

  /** The driver decides on success only at the end of an accepted body. */
  lemma SuccessFromServer(c: Config, l: Link, h: Hand, now: Clock, cancelled: bool)
    requires DriverOk(c, l) && OutcomeOk(c, l, now, cancelled) && StatusOk(c, l.outcome, h)
    requires NoErrorHasCode(c, 0) && h.log.statuses != [] && h.log.statuses[0].code == 0
    ensures c.script.response.Accepted? && c.script.response.ending.Complete? && l.pulled == |Messages(c)|
    ensures BodyEnded(c, l.outcome) && Parked(l.driver) == []
    ensures h.log.statuses[0] == Trailers(0, "", c.script.response.ending.trailers.GetOr([]))
  {
    match l.outcome
    case ConnectFailed(status) => TranslationKeepsSuccess(status, c.deadline, h.log.failureReadAt);
    case Ended(_, _, at) =>
      match c.script.response {
        case Refused(status) => TranslationKeepsSuccess(status, c.deadline, at);
        case Accepted(_, _, Broken(status)) => TranslationKeepsSuccess(status, c.deadline, at);
        case _ =>
      }
    case _ =>
  }

  /**
   * A reported success accounts for the whole response: what PHP did not get was
   * drained by its own status request, and the headers and trailers are the server's.
   */
  lemma SuccessAccountsForAll(c: Config, s: State)
    requires Reachable(c, s) && NoErrorHasCode(c, 0)
    requires s.hand.log.statuses != [] && s.hand.log.statuses[0].code == 0
    ensures c.script.response.Accepted? && c.script.response.ending.Complete?
    ensures s.hand.log.delivered + s.hand.log.discarded + Payloads(s.link.buffer) == c.script.response.messages
    ensures s.hand.log.statuses == [Trailers(0, "", c.script.response.ending.trailers.GetOr([]))]
    ensures s.hand.log.metas != [] ==> s.hand.log.metas[0] == c.script.response.headers
    ensures forall i :: 1 <= i < |s.hand.log.metas| ==> s.hand.log.metas[i] == []
  {
    ReachableInv(c, s);
    SuccessFromServer(c, s.link, s.hand, s.clock, s.cancelled);
    assert Messages(c)[..|Messages(c)|] == Messages(c);
  }

  /**
   * The initial metadata PHP is given first is the server's headers exactly if an accepting response
   * arrived; a refused, unreachable, timed-out or expired call gives none, and no later answer does.
   */
  lemma InitialMetadataExact(c: Config, s: State)
    requires Reachable(c, s)
    ensures s.hand.log.metas != [] ==>
              s.hand.log.metas[0] ==
              if s.link.responded && c.script.response.Accepted? then c.script.response.headers else []
    ensures s.link.responded ==> c.script.connection.Connected? && !Expired(c)
    ensures forall i :: 1 <= i < |s.hand.log.metas| ==> s.hand.log.metas[i] == []
  {
    ReachableInv(c, s);
  }

  /** A call read to its null message that then reports success delivered the whole response. */
  lemma SuccessIsComplete(c: Config, s: State)
    requires Reachable(c, s) && NoErrorHasCode(c, 0)
    requires s.hand.log.nulls > 0 && s.hand.log.statuses != [] && s.hand.log.statuses[0].code == 0
    ensures c.script.response.Accepted? && c.script.response.ending.Complete?
    ensures s.hand.log.delivered == c.script.response.messages
  {
    SuccessAccountsForAll(c, s);
    ReachableInv(c, s);
    assert s.link.buffer == [];
  }

  /** Statuses PHP could tell from the fallback the code reports for a vanished task. */
  predicate Recognisable(status: Status) {
    !(status.code == UNKNOWN && status.message == TASK_GONE_TRAILERS.message && StatusMetadata(status) == [])
  }

  /** The report tells what happened: the server's word, the failed connection, or the deadline. */
  ghost predicate Truthful(c: Config, outcome: Outcome, reported: Trailers, now: Clock) {
    match outcome
    case Undecided => false
    case Ended(_, ByCancel, _) => false
    case Ended(_, ByServer, at) => at <= now && reported == ServerTrailers(c, at)
    case Ended(_, ByDeadline, at) => at <= now && reported == DEADLINE_TRAILERS && DeadlineFires(c, at)
    case ConnectFailed(status) =>
      exists at: Clock :: at <= now && reported == StatusTrailers(status, c.deadline, at)
  }

  /** The connection failed, no message was asked for, and the failure does not look like the fallback. */
  predicate FailureLost(s: State) {
    && s.link.outcome.ConnectFailed?
    && ReadCount(s.hand.log) == 0
    && Recognisable(s.link.outcome.status)
  }

  /** A reported status tells what happened exactly when no failure is lost; a lost one reads as a vanished task. */
  lemma StatusFidelity(c: Config, s: State)
    requires Reachable(c, s) && s.hand.log.statuses != []
    ensures |s.hand.log.statuses| == 1
    ensures Truthful(c, s.link.outcome, s.hand.log.statuses[0], s.clock) <==> !FailureLost(s)
    ensures FailureLost(s) ==> s.hand.log.statuses[0] == TASK_GONE_TRAILERS
  {
    ReachableInv(c, s);
    if s.link.outcome.ConnectFailed? && ReadCount(s.hand.log) == 0 {
      assert Recognisable(s.link.outcome.status) <==>
             StatusTrailers(s.link.outcome.status, c.deadline, s.clock) != TASK_GONE_TRAILERS;
    }
  }

  /** Every failed connection can be lost: PHP asks for the status alone, and gets the fallback. */
  lemma ConnectFailureCanBeLost(c: Config) returns (es: seq<Event>)
    requires WellFormed(c) && !Expired(c) && c.script.connection.Unreachable?
    ensures ValidRun(c, Init(c), es)
    ensures var s := After(c, Init(c), es);
            && s.link.outcome == ConnectFailed(c.script.connection.status) && ReadCount(s.hand.log) == 0
            && s.hand.log.statuses == [TASK_GONE_TRAILERS]
  {
    var s0 := Init(c);
    var e0 := Event(Drive(Connect), c.start);
    var s1 := Next(c, s0, e0);
    var e1 := Event(Drive(Push), c.start);
    var s2 := Next(c, s1, e1);
    var e2 := Event(Begin(RecvOps(false, false, true)), c.start);
    var s3 := Next(c, s2, e2);
    var e3 := Event(Read(OpenStatus), c.start);
    var s4 := Next(c, s3, e3);
    var e4 := Event(Read(TakeTrailers), c.start);
    var s5 := Next(c, s4, e4);
    assert ValidRun(c, s5, []) && After(c, s5, []) == s5;
    es := Prepend(c, s4, e4, []);
    es := Prepend(c, s3, e3, es);
    es := Prepend(c, s2, e2, es);
    es := Prepend(c, s1, e1, es);
    es := Prepend(c, s0, e0, es);
  }

  /** Once a read gave null no later read gives a message. */
  lemma {:induction false} EndIsPermanent(c: Config, s: State, es: seq<Event>)
    requires Reachable(c, s) && s.hand.log.nulls > 0 && ValidRun(c, s, es)
    ensures After(c, s, es).hand.log.delivered == s.hand.log.delivered
    ensures After(c, s, es).hand.log.nulls >= s.hand.log.nulls
    decreases |es|
  {
    if es != [] {
      ReachableInv(c, s);
      EndStays(c, s, es[0]);
      NextReachable(c, s, es[0]);
      EndIsPermanent(c, Next(c, s, es[0]), es[1..]);
    }
  }

  lemma EndStays(c: Config, s: State, e: Event)
    requires BufferOk(c, s.link, s.hand.log.terminalTaken) && ReaderOk(c, s.hand)
    requires s.hand.log.nulls > 0 && Enabled(c, s, e)
    ensures Next(c, s, e).hand.log.delivered == s.hand.log.delivered
    ensures Next(c, s, e).hand.log.nulls >= s.hand.log.nulls
  {
  }

  /** The "stream already consumed" answer is unreachable: a status always has a source. */
  lemma StatusHasSource(c: Config, s: State)
    requires Reachable(c, s)
    ensures |s.hand.log.statuses| <= 1
    ensures s.hand.log.statuses == [] && !InStatus(s.hand) ==> s.hand.cached.Some? || s.hand.trailersHeld
    ensures s.hand.reader.WantStatus? ==> s.hand.cached.Some? || s.hand.trailersHeld
  {
    ReachableInv(c, s);
  }

  lemma DeadlineReported(c: Config, s: State)
    requires HandInv(c, s) && OutcomeOk(c, s.link, s.clock, s.cancelled) && DriverOk(c, s.link)
    requires NoErrorHasCode(c, DEADLINE_EXCEEDED) && s.clock < c.start + SENTINEL
    requires s.hand.log.statuses != [] && s.hand.log.statuses[0].code == DEADLINE_EXCEEDED
    ensures RealDeadline(c.deadline) && s.clock >= c.deadline
  {
  }

  /** A DEADLINE_EXCEEDED the server never sent is reported only at or after a real deadline. */
  lemma StreamDeadlineSound(c: Config, s: State)
    requires Reachable(c, s) && NoErrorHasCode(c, DEADLINE_EXCEEDED) && s.clock < c.start + SENTINEL
    requires s.hand.log.statuses != [] && s.hand.log.statuses[0].code == DEADLINE_EXCEEDED
    ensures RealDeadline(c.deadline) && s.clock >= c.deadline
  {
    ReachableInv(c, s);
    DeadlineReported(c, s);
  }
}
