/** A whole call in one batch: `execute_call`, given the transport script and the clock. */
module Unary {
  import opened Base
  import opened Deadline
  import opened Metadata
  import opened StreamProtocol

  datatype CallResult = CallResult(
    initial: Option<MetadataMap>,
    body: Option<Bytes>,
    trailing: Option<MetadataMap>,
    code: int,
    message: string)

  datatype CallError = InvalidPath | TransportFailed | CancelledInFlight

  /** Which arm of the final race completes. */
  datatype Winner = ResponseWins | DeadlineWins | CancelWins

  /**
   * The scheduler's choices: when the call starts, how connecting and the race end;
   * and the metadata the transport library attaches to what it read from the body,
   * where it may merge headers and trailers.
   */
  datatype Choice = Choice(
    entry: Clock,
    connectTimesOut: bool,
    connectAt: Clock,
    winner: Winner,
    raceAt: Clock,
    merged: MetadataMap)

  predicate ValidChoice(deadline: I64, ch: Choice) {
    && ch.entry <= ch.connectAt <= ch.raceAt
    && (ch.connectTimesOut ==> ch.connectAt >= DeadlineInstant(deadline, ch.entry))
    && (ch.winner.DeadlineWins? ==> ch.raceAt >= DeadlineInstant(deadline, ch.entry))
  }

  const DEADLINE_RESULT := CallResult(None, None, Some([]), DEADLINE_EXCEEDED, "Deadline Exceeded")

  /** How the unary client reads a response: the first message of a body that ends well. */
  function UnaryResponse(r: Response, merged: MetadataMap): Result<(MetadataMap, Bytes), Status> {
    match r
    case Refused(status) => Err(status)
    case Accepted(_, _, Broken(status)) => Err(status.(metadata := merged))
    case Accepted(_, messages, Complete(_)) =>
      if messages == [] then Err(Status(13, "Missing response message.", [], merged))
      else Ok((merged, messages[0]))
  }

  function Race(script: Script, deadline: I64, ch: Choice): Result<CallResult, CallError> {
    match ch.winner
    case DeadlineWins => Ok(DEADLINE_RESULT)
    case CancelWins => Err(CancelledInFlight)
    case ResponseWins =>
      match UnaryResponse(script.response, ch.merged)
      case Ok((headers, body)) => Ok(CallResult(Some(headers), Some(body), None, 0, ""))
      case Err(status) =>
        var (code, message) := StatusToPhp(status, deadline, ch.raceAt);
        Ok(CallResult(None, None, Some(StatusMetadata(status)), code, message))
  }

  /** Whether the request goes out: not expired, a legal path, and a connection in time. */
  predicate Reaches(script: Script, deadline: I64, pathValid: bool, ch: Choice) {
    !AlreadyExpired(deadline, ch.entry) && pathValid && !ch.connectTimesOut && script.connection.Connected?
  }

  function ExecuteCall(script: Script, deadline: I64, pathValid: bool, ch: Choice): Result<CallResult, CallError> {
    if AlreadyExpired(deadline, ch.entry) then Ok(DEADLINE_RESULT)
    else if !pathValid then Err(InvalidPath)
    else if ch.connectTimesOut then Ok(DEADLINE_RESULT)
    else if script.connection.Unreachable? then Err(TransportFailed)
    else Race(script, deadline, ch)
  }

  /** A code 4 the server did not send needs a real deadline that has been reached. */
  lemma UnaryDeadlineSound(script: Script, deadline: I64, pathValid: bool, ch: Choice)
    requires ValidChoice(deadline, ch) && ch.raceAt < ch.entry + SENTINEL
    requires forall status ::
               UnaryResponse(script.response, ch.merged) == Err(status) ==> status.code != DEADLINE_EXCEEDED
    requires var r := ExecuteCall(script, deadline, pathValid, ch); r.Ok? && r.value.code == DEADLINE_EXCEEDED
    ensures RealDeadline(deadline) && ch.raceAt >= deadline
    ensures AlreadyExpired(deadline, ch.entry) ==> !Reaches(script, deadline, pathValid, ch)
  {
  }

  /** A reported success is the server's: the request went out and PHP gets its first message. */
  lemma UnarySuccessIsServers(script: Script, deadline: I64, pathValid: bool, ch: Choice)
    requires var r := ExecuteCall(script, deadline, pathValid, ch); r.Ok? && r.value.code == 0
    requires forall status :: UnaryResponse(script.response, ch.merged) == Err(status) ==> status.code != 0
    ensures Reaches(script, deadline, pathValid, ch) && script.response.Accepted?
    ensures var r := ExecuteCall(script, deadline, pathValid, ch).value;
            && script.response.messages != [] && r.body == Some(script.response.messages[0])
            && r.initial == Some(ch.merged) && r.message == "" && r.trailing.None?
  {
  }
}
