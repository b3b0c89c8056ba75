/**
 * What PHP is told about a call, said on the server's script and the clock alone: the status of a
 * stream, and every field of the answer of a one-batch call.
 */
module StatusReports {
  import opened Base
  import opened Deadline
  import opened Metadata
  import opened MetadataGroups
  import opened RequestStream
  import opened StreamProtocol
  import opened StreamInvariant
  import opened Unary
  import opened CallMachine
  import opened CallInvariant
  import opened CallTheorems
  import opened Answers

  // ---- how an error status is told ----

  /** A transport failure the library could not classify. */
  predicate Dropped(status: Status) {
    status.code == 2 && status.message == "transport error"
  }

  /** A cancellation seen at or after a real deadline. */
  predicate Late(status: Status, deadline: I64, at: Clock) {
    status.code == 1 && RealDeadline(deadline) && at >= deadline
  }

  /**
   * Code and details are the status's own exactly if it is neither dropped nor late; a dropped one is
   * told as UNAVAILABLE, and is the only way to that code but a status that has it; a late one is
   * told as the deadline, likewise. The metadata is the status's, with its details put back.
   */
  ghost predicate Tells(status: Status, deadline: I64, at: Clock, told: Trailers) {
    && (told.code == status.code && told.message == status.message <==>
        !Dropped(status) && !Late(status, deadline, at))
    && (told.code == 14 && status.code != 14 <==> Dropped(status))
    && (told.code == 4 && status.code != 4 <==> Late(status, deadline, at))
    && (Dropped(status) ==> told.message == "transport error")
    && (Late(status, deadline, at) ==> told.message == "Deadline Exceeded")
    && ShowsStatus(told.metadata, status)
  }

  lemma TrailersTell(status: Status, deadline: I64, at: Clock)
    ensures Tells(status, deadline, at, StatusTrailers(status, deadline, at))
  {
    StatusIsShown(status);
  }

  predicate TellsDeadline(told: Trailers) {
    told.code == 4 && told.message == "Deadline Exceeded" && told.metadata == []
  }

  // ---- the status of a stream ----

  /** The status a stream reports, by what happened to it and when. */
  ghost predicate StreamTold(c: Config, s: State, told: Trailers) {
    match s.link.outcome
    case Undecided => false
    case ConnectFailed(status) =>
      if ReadCount(s.hand.log) > 0 then Tells(status, c.deadline, s.hand.log.failureReadAt, told)
      else told.code == 2 && told.message == "stream task terminated unexpectedly" && told.metadata == []
    case Ended(_, ByDeadline, at) => TellsDeadline(told) && DeadlineFires(c, at)
    case Ended(_, ByCancel, _) => false
    case Ended(_, ByServer, at) =>
      && at <= s.clock
      && match c.script.response
         case Refused(status) => Tells(status, c.deadline, at, told)
         case Accepted(_, _, Broken(status)) => Tells(status, c.deadline, at, told)
         case Accepted(_, _, Complete(trailers)) =>
           told.code == 0 && told.message == "" && told.metadata == trailers.GetOr([])
  }

  /** Every status a stream reports, in every reachable state. */
  lemma StreamStatusTold(c: Config, s: State)
    requires Reachable(c, s) && s.hand.log.statuses != []
    ensures StreamTold(c, s, s.hand.log.statuses[0])
  {
    ReachableInv(c, s);
    match s.link.outcome
    case ConnectFailed(status) => TrailersTell(status, c.deadline, s.hand.log.failureReadAt);
    case Ended(_, ByServer, at) =>
      match c.script.response {
        case Refused(status) => TrailersTell(status, c.deadline, at);
        case Accepted(_, _, Broken(status)) => TrailersTell(status, c.deadline, at);
        case _ =>
      }
    case _ =>
  }

  /** So over every run, the one status in the results of a stream's batches tells what happened. */
  lemma ResultStatusTold(call: Call, acts: seq<Act>)
    requires IsNew(call) && ValidActs(call, acts)
    ensures var after, told := PerformAll(call, acts), StatusesIn(Replies(call, acts));
            told != [] ==>
              && after.stream.Some? && |told| == 1
              && StreamTold(after.stream.value.config, after.stream.value.state, told[0])
  {
    RunOk(call, acts);
    AllAnswers(call, acts);
    var after := PerformAll(call, acts);
    if after.stream.Some? && after.stream.value.state.hand.log.statuses != [] {
      StreamStatusTold(after.stream.value.config, after.stream.value.state);
    }
  }

  // ---- the answer of a one-batch call ----

  /** The request went out and the response won its race. */
  predicate Responded(script: Script, deadline: I64, pathValid: bool, ch: Choice) {
    && !AlreadyExpired(deadline, ch.entry) && pathValid && !ch.connectTimesOut
    && script.connection.Connected? && ch.winner.ResponseWins?
  }

  /** The deadline won: before the call, while connecting, or against the response. */
  predicate TimedOut(script: Script, deadline: I64, pathValid: bool, ch: Choice) {
    || AlreadyExpired(deadline, ch.entry)
    || (pathValid && (ch.connectTimesOut || (script.connection.Connected? && ch.winner.DeadlineWins?)))
  }

  /** A response with a first message and a good end. */
  predicate Succeeds(r: Response) {
    r.Accepted? && r.ending.Complete? && r.messages != []
  }

  /** The status told of a response that is not a success. */
  ghost predicate FailureTold(r: Response, deadline: I64, ch: Choice, told: Trailers) {
    match r
    case Refused(status) => Tells(status, deadline, ch.raceAt, told)
    case Accepted(_, _, Broken(status)) => Tells(status.(metadata := ch.merged), deadline, ch.raceAt, told)
    case Accepted(_, _, Complete(_)) =>
      told.code == 13 && told.message == "Missing response message." && told.metadata == ch.merged
  }

  /** Every field of a one-batch reply. */
  ghost predicate ReplyTold(script: Script, deadline: I64, pathValid: bool, ch: Choice, ops: RecvOps, r: Reply) {
    var answered := Responded(script, deadline, pathValid, ch) && Succeeds(script.response);
    && r.meta == (if ops.meta then Some(if answered then ch.merged else []) else None)
    && r.message == (if ops.message then Some(if answered then Some(script.response.messages[0]) else None) else None)
    && (r.status.Some? <==> ops.status)
    && (r.status.Some? ==>
          var told := r.status.value;
          if TimedOut(script, deadline, pathValid, ch) then TellsDeadline(told)
          else if answered then told.code == 0 && told.message == "" && told.metadata == []
          else FailureTold(script.response, deadline, ch, told))
  }

  /** The error of a one-batch call that gives no reply. */
  predicate ErrorTold(script: Script, deadline: I64, pathValid: bool, ch: Choice, e: Error) {
    && !TimedOut(script, deadline, pathValid, ch)
    && e == CallFailed(
              if !pathValid then InvalidPath
              else if script.connection.Unreachable? then TransportFailed
              else CancelledInFlight)
  }

  lemma ExecutedIsTold(script: Script, deadline: I64, pathValid: bool, ch: Choice, ops: RecvOps)
    ensures var r := ExecuteCall(script, deadline, pathValid, ch);
            && (r.Ok? <==> Responded(script, deadline, pathValid, ch) || TimedOut(script, deadline, pathValid, ch))
            && (r.Ok? ==> ReplyTold(script, deadline, pathValid, ch, ops, UnaryReply(r.value, ops)))
            && (r.Err? ==> ErrorTold(script, deadline, pathValid, ch, CallFailed(r.error)))
  {
    match UnaryResponse(script.response, ch.merged)
    case Err(status) => TrailersTell(status, deadline, ch.raceAt);
    case Ok(_) =>
  }

  /**
   * `startBatch` of a one-batch call: it succeeds exactly if the response or the deadline wins, and
   * then every field of the result is told by the script; otherwise the error names what went wrong.
   */
  lemma OneBatchTold(call: Call, b: Batch, env: Env)
    requires Dispatches(call, b, env) && EnvOk(Mark(call, b), b, env) && RouteOf(Mark(call, b), b).OneShot?
    requires !(b.Sends() && PluginThrows(env))
    ensures var r := StartBatch(call, b, env).result;
            var script, ch := env.script, env.choice;
            && (r.Ok? <==> Responded(script, call.deadline, call.pathValid, ch)
                           || TimedOut(script, call.deadline, call.pathValid, ch))
            && (r.Ok? ==> ReplyTold(script, call.deadline, call.pathValid, ch, b.recv, r.value))
            && (r.Err? ==> ErrorTold(script, call.deadline, call.pathValid, ch, r.error))
  {
    ExecutedIsTold(env.script, call.deadline, call.pathValid, env.choice, b.recv);
    OneShotRuns(Mark(call, b), b, env);
  }

  lemma OneShotRuns(call: Call, b: Batch, env: Env)
    requires !(b.Sends() && PluginThrows(env))
    ensures var r := ExecuteCall(env.script, call.deadline, call.pathValid, env.choice);
            OneShotCall(call, b, env).result ==
            match r case Ok(value) => Ok(UnaryReply(value, b.recv)) case Err(e) => Err(CallFailed(e))
  {
  }

  // ---- the errors of all other batches ----

  /** A send on a pipe fails if it was never open or is half-closed, or the transport has left by its end. */
  function SendFailure(p: Pipe, b: Batch, env: Env): Option<Error> {
    if b.message.None? then None
    else if !p.open then Some(SendUnsupported)
    else if p.dropped || Drop in env.transport then Some(SendClosed)
    else None
  }

  /** The error a batch that is not a one-batch call gives, by the state of the call and the world. */
  function Failure(call: Call, b: Batch, env: Env): Option<Error> {
    var opensBidi := !b.Receives() && !b.close && b.message.Some?;
    if call.stream.Some? then SendFailure(call.stream.value.pipe, b, env)
    else if b.Sends() && PluginThrows(env) then Some(PluginFailed)
    else if !b.Receives() && !b.close && b.message.None? then None
    else if AlreadyExpired(call.deadline, env.now) then (if opensBidi then Some(SendUnsupported) else None)
    else if !call.pathValid then Some(CallFailed(InvalidPath))
    else if opensBidi && Drop in env.transport then Some(SendClosed)
    else None
  }

  lemma SendFails(a: Active, b: Batch, env: Env)
    requires SendOk(a, b, env)
    ensures SendOn(a, b, env).error == SendFailure(a.pipe, b, env)
  {
    if b.message.Some? && a.pipe.open {
      TransportLeaves(Waiting(a.pipe, b.message.value), env.transport);
    }
  }

  lemma OpenBidiFails(call: Call, b: Batch, env: Env)
    requires RouteOf(call, b).StartBidi? && SendsOk(call, b, env)
    ensures var r := OpenBidi(call, b, env).result;
            match Failure(call, b, env) case None => r.Ok? case Some(e) => r == Err(e)
  {
    if !PluginThrows(env) && LaunchBidi(call, env).Ok? {
      SendFails(LaunchBidi(call, env).value, b, env);
    }
  }

  lemma OnStreamFails(call: Call, b: Batch, env: Env)
    requires EnvOk(call, b, env) && call.stream.Some?
    ensures var r := Dispatch(call, b, env).result;
            match Failure(call, b, env) case None => r.Ok? case Some(e) => r == Err(e)
  {
    SendFails(call.stream.value, b, env);
  }

  lemma LazyFails(call: Call, b: Batch, env: Env)
    requires EnvOk(call, b, env) && RouteOf(call, b).Lazy?
    ensures var r := LazyStream(call, b, env).result;
            match Failure(call, b, env) case None => r.Ok? case Some(e) => r == Err(e)
  {
  }

  lemma DispatchFails(call: Call, b: Batch, env: Env)
    requires EnvOk(call, b, env) && !RouteOf(call, b).OneShot? && (b.Sends() || b.Receives())
    ensures var r := Dispatch(call, b, env).result;
            match Failure(call, b, env) case None => r.Ok? case Some(e) => r == Err(e)
  {
    match RouteOf(call, b)
    case Forward => OnStreamFails(call, b, env);
    case ReadActive => OnStreamFails(call, b, env);
    case StartBidi => OpenBidiFails(call, b, env);
    case Lazy => LazyFails(call, b, env);
    case _ =>
  }

  /** Every dispatched batch that is not a one-batch call fails exactly as stated, and otherwise succeeds. */
  lemma FailuresExactly(call: Call, b: Batch, env: Env)
    requires Dispatches(call, b, env) && EnvOk(Mark(call, b), b, env) && !RouteOf(Mark(call, b), b).OneShot?
    ensures var r := StartBatch(call, b, env).result;
            match Failure(call, b, env) case None => r.Ok? case Some(e) => r == Err(e)
  {
    DispatchFails(Mark(call, b), b, env);
  }
}
