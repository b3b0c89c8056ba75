/** Sending and receiving in two batches against doing both in one. */
module SplitUnary {
  import opened Base
  import opened Deadline
  import opened Metadata
  import opened StreamProtocol
  import opened StreamInvariant
  import opened Unary

  /** The split call was answered by its only receive batch. */
  predicate AnsweredOnce(s: State) {
    s.hand.log.statuses != [] && ReadCount(s.hand.log) == 1
  }

  /** The message PHP got from its one read. */
  function FirstRead(log: Log): Option<Bytes> {
    if log.delivered == [] then None else Some(log.delivered[0])
  }

  /** Same message, same status code, same details. */
  predicate SameAnswer(single: Result<CallResult, CallError>, message: Option<Bytes>, status: Trailers) {
    && single.Ok?
    && single.value.body == message
    && single.value.code == status.code
    && single.value.message == status.message
  }

  /** The scripts on which both forms agree: one answer, or an error before any message. */
  predicate UnaryShaped(script: Script) {
    && script.connection.Connected?
    && match script.response
       case Refused(_) => true
       case Accepted(_, messages, Broken(_)) => messages == []
       case Accepted(_, messages, Complete(_)) => messages != []
  }

  /** Not a success with trailers. */
  predicate TrailersEmpty(r: Response) {
    r.Accepted? && r.ending.Complete? ==> r.ending.trailers.GetOr([]) == []
  }

  /** The final status is not read out of an accepted body that broke. */
  predicate StatusOutsideBody(r: Response) {
    r.Accepted? ==> r.ending.Complete?
  }

  /** What the split form reports while the deadline has not been reached. */
  lemma SplitBeforeDeadline(c: Config, s: State)
    requires Inv(c, s) && AnsweredOnce(s) && !Expired(c) && c.script.connection.Connected?
    requires !DeadlineFires(c, s.clock)
    ensures s.link.outcome.Ended? && s.hand.log.statuses[0] == ServerTrailers(c, s.link.outcome.at)
    ensures FirstRead(s.hand.log) == if Messages(c) == [] then None else Some(Messages(c)[0])
  {
    assert s.link.pulled == |Messages(c)|;
    assert Messages(c)[..|Messages(c)|] == Messages(c);
    if s.hand.log.delivered == [] {
      assert s.hand.log.discarded + InFlight(s.link) == Messages(c);
    }
  }

  /** Before its deadline a real deadline does not touch the translation of a status. */
  lemma TranslationIsStable(status: Status, deadline: I64, now: Clock, start: Clock)
    requires now < DeadlineInstant(deadline, start) && !AlreadyExpired(deadline, start)
    ensures StatusToPhp(status, deadline, now) == StatusToPhp(status, 0, 0)
  {
  }

  /**
   * The two forms agree on message, code and details exactly on unary-shaped
   * scripts, for every schedule of the split form, while no deadline is reached.
   */
  lemma SplitAgreesBeforeDeadline(c: Config, s: State, ch: Choice)
    requires Reachable(c, s) && AnsweredOnce(s)
    requires !Expired(c) && !DeadlineFires(c, s.clock)
    requires ValidChoice(c.deadline, ch) && !AlreadyExpired(c.deadline, ch.entry) && !ch.winner.CancelWins?
    requires ch.raceAt < DeadlineInstant(c.deadline, ch.entry)
    ensures SameAnswer(ExecuteCall(c.script, c.deadline, true, ch), FirstRead(s.hand.log), s.hand.log.statuses[0])
            <==> UnaryShaped(c.script)
  {
    if c.script.connection.Connected? {
      ReachableInv(c, s);
      SplitBeforeDeadline(c, s);
      match c.script.response
      case Refused(status) =>
        TranslationIsStable(status, c.deadline, ch.raceAt, ch.entry);
        TranslationIsStable(status, c.deadline, s.link.outcome.at, c.start);
      case Accepted(_, _, Broken(status)) =>
        TranslationIsStable(status, c.deadline, ch.raceAt, ch.entry);
        TranslationIsStable(status, c.deadline, s.link.outcome.at, c.start);
      case _ =>
    }
  }

  /** With the deadline already passed both forms report it, whatever the script. */
  lemma SplitAgreesWhenExpired(c: Config, s: State, ch: Choice, pathValid: bool)
    requires Reachable(c, s) && AnsweredOnce(s)
    requires Expired(c) && AlreadyExpired(c.deadline, ch.entry)
    ensures SameAnswer(ExecuteCall(c.script, c.deadline, pathValid, ch), FirstRead(s.hand.log), s.hand.log.statuses[0])
  {
    ReachableInv(c, s);
  }

  /**
   * For a success or a refusal the two forms also agree on the status metadata, except
   * that a success with trailers shows them only in the split form.
   */
  lemma SplitMetadataBeforeDeadline(c: Config, s: State, ch: Choice)
    requires Reachable(c, s) && AnsweredOnce(s) && UnaryShaped(c.script) && StatusOutsideBody(c.script.response)
    requires !Expired(c) && !DeadlineFires(c, s.clock)
    requires ValidChoice(c.deadline, ch) && !AlreadyExpired(c.deadline, ch.entry) && !ch.winner.CancelWins?
    requires ch.raceAt < DeadlineInstant(c.deadline, ch.entry)
    ensures var single := ExecuteCall(c.script, c.deadline, true, ch);
            single.Ok? &&
            (single.value.trailing.GetOr([]) == s.hand.log.statuses[0].metadata <==> TrailersEmpty(c.script.response))
  {
    ReachableInv(c, s);
    SplitBeforeDeadline(c, s);
  }

  /** The single form shows what the library attached to a success, and nothing of any other response. */
  predicate HeadersAgree(r: Response, merged: MetadataMap) {
    match r
    case Refused(_) => true
    case Accepted(headers, messages, ending) => headers == if ending.Complete? && messages != [] then merged else []
  }

  /** The initial metadata of the two forms, while no deadline is reached. */
  lemma SplitHeadersBeforeDeadline(c: Config, s: State, ch: Choice)
    requires Reachable(c, s) && AnsweredOnce(s) && s.hand.log.metas != [] && c.script.connection.Connected?
    requires !Expired(c) && !DeadlineFires(c, s.clock)
    requires ValidChoice(c.deadline, ch) && !AlreadyExpired(c.deadline, ch.entry) && !ch.winner.CancelWins?
    requires ch.raceAt < DeadlineInstant(c.deadline, ch.entry)
    ensures var single := ExecuteCall(c.script, c.deadline, true, ch);
            single.Ok? &&
            (single.value.initial.GetOr([]) == s.hand.log.metas[0] <==> HeadersAgree(c.script.response, ch.merged))
  {
    ReachableInv(c, s);
    SplitBeforeDeadline(c, s);
  }
}
