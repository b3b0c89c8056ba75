/** `Grpc\Call` as the mutable object it is, proved against the batch machine. */
module CallObject {
  import opened Base
  import opened Deadline
  import opened RequestStream
  import opened StreamProtocol
  import opened StreamReader
  import opened Unary
  import opened CallMachine
  import opened CallInvariant

  /** A batch on the active stream whose send half failed. */
  lemma SendFailed(call: Call, b: Batch, sending: Env, env: Env, sent: Sent)
    requires RouteOf(call, b).ReadActive? && call.clock <= env.now && env == sending.(schedule := env.schedule)
    requires SendOk(call.stream.value, b, sending) && sent == SendOn(call.stream.value, b, sending) && sent.error.Some?
    ensures EnvOk(call, b, env)
    ensures ReadStream(call, b, env) == KeepSent(call.(clock := env.now), sent)
  {
  }

  /** A batch on the active stream, from its send half and an answered wait. */
  lemma Answered(call: Call, b: Batch, sending: Env, env: Env, sent: Sent, mid: Call)
    requires RouteOf(call, b).ReadActive? && call.clock <= env.now && env == sending.(schedule := env.schedule)
    requires SendOk(call.stream.value, b, sending) && sent == SendOn(call.stream.value, b, sending) && sent.error.None?
    requires AnswersBy(sent.active.config, sent.active.state, b.recv, env.now, env.schedule)
    requires mid == call.(clock := env.now, stream := Some(sent.active))
    ensures EnvOk(call, b, env)
    ensures ReadStream(call, b, env) == Receive(mid, sent.active, b.recv, env)
  {
  }

  /** The start of a bidi stream, from its launch and its first send. */
  lemma FirstSend(call: Call, b: Batch, env: Env, a: Active)
    requires RouteOf(call, b).StartBidi? && !PluginThrows(env) && LaunchBidi(call, env) == Ok(a) && SendOk(a, b, env)
    ensures SendsOk(call, b, env)
    ensures OpenBidi(call, b, env) == KeepSent(call.(pendingMetadata := [], clock := env.now), SendOn(a, b, env))
  {
  }

  /** A late server stream, from its launch and an answered wait. */
  lemma LateStream(call: Call, b: Batch, env: Env, launched: Result<Active, Error>)
    requires RouteOf(call, b).Lazy? && call.clock <= env.now && !(b.Sends() && PluginThrows(env))
    requires launched == Launch(call, ResolvedRequest(call, b, env), false, env)
    requires launched.Ok? ==>
               AnswersBy(launched.value.config, launched.value.state, b.recv, env.now, env.schedule)
    ensures EnvOk(call, b, env)
    ensures LazyStream(call, b, env) ==
            match launched
            case Ok(a) => Receive(Resolved(call, b, env), a, b.recv, env)
            case Err(e) => Done(Resolved(call, b, env), Err(e))
  {
  }

  /** A cancel, from what it does to the stream. */
  lemma Aborted(call: Call, at: Clock, stream: Option<Active>)
    requires CallInv(call) && call.clock <= at && (call.stream.None? <==> stream.None?)
    requires call.stream.Some? ==>
               var a := call.stream.value;
               stream.value == a.(state := Next(a.config, a.state, Event(Cancel, at)))
    ensures ActOk(call, Abort(at))
    ensures Perform(call, Abort(at)) == call.(cancelled := true, clock := at, stream := stream)
    ensures CallInv(Perform(call, Abort(at)))
  {
    BetweenOk(call, Abort(at));
  }

  class GrpcCall {
    const deadline: I64
    const pathValid: bool
    var pendingMetadata: seq<Pair>
    var pendingMessage: Option<Bytes>
    var sendClosed: bool
    var metadataSent: bool
    var finished: bool
    var cancelled: bool
    var stream: Option<Active>
    var clock: Clock
    ghost var history: History

    ghost function View(): Call
      reads this
    {
      Call(deadline, pathValid, pendingMetadata, pendingMessage, sendClosed, metadataSent, finished, cancelled,
           stream, clock, history)
    }

    ghost predicate Valid()
      reads this
    {
      CallInv(View())
    }

    constructor (deadline: I64, pathValid: bool, now: Clock)
      ensures Valid() && View() == NewCall(deadline, pathValid, now)
    {
      this.deadline, this.pathValid := deadline, pathValid;
      pendingMetadata, pendingMessage := [], None;
      sendClosed, metadataSent, finished, cancelled := false, false, false, false;
      stream, clock := None, now;
      history := History([], [], None, [], false);
    }

    method Cancel(at: Clock)
      requires Valid() && clock <= at
      modifies this
      ensures Valid() && ActOk(old(View()), Abort(at)) && View() == Perform(old(View()), Abort(at))
    {
      cancelled, clock := true, at;
      if stream.Some? {
        var a := stream.value;
        stream := Some(a.(state := Next(a.config, a.state, Event(StreamProtocol.Cancel, at))));
      }
      Aborted(old(View()), at, stream);
    }

    /** The sending half on an active stream: message, then half-close. */
    method SendOnStream(b: Batch, ghost env: Env) returns (r: Result<(), Error>, ghost moves: seq<PipeEvent>)
      requires stream.Some? && PipeOk(stream.value)
      modifies this`stream
      ensures SendOk(old(stream.value), b, env.(transport := moves))
      ensures var s := SendOn(old(stream.value), b, env.(transport := moves));
              && stream == Some(s.active)
              && r == match s.error case None => Ok(()) case Some(e) => Err(e)
    {
      moves := [];
      if b.message.Some? {
        r, moves := SendStreamMessage(b.message.value);
        if r.Err? {
          return;
        }
      }
      if b.close {
        CloseStreamSend();
      }
      r := Ok(());
    }

    /** Blocks while the queue is full; the transport goes on meanwhile. */
    method SendStreamMessage(message: Bytes) returns (r: Result<(), Error>, ghost moves: seq<PipeEvent>)
      requires stream.Some? && PipeOk(stream.value)
      modifies this`stream
      ensures stream.Some? && PipeOk(stream.value)
      ensures !old(stream.value.pipe.open) ==> r == Err(SendUnsupported) && stream == old(stream)
      ensures old(stream.value.pipe.open) ==>
                && SendEnds(old(stream.value.pipe), message, moves)
                && stream == Some(old(stream.value).(pipe := SendBy(old(stream.value.pipe), message, moves)))
                && r == (if stream.value.pipe.dropped then Err(SendClosed) else Ok(()))
      ensures stream.value.pipe.accepted == old(stream.value.pipe.accepted) + (if r.Ok? then [message] else [])
    {
      moves := [];
      if !stream.value.pipe.open {
        return Err(SendUnsupported), [];
      }
      var pipe, taken;
      pipe, taken, moves := Send(stream.value.pipe, message);
      stream := Some(stream.value.(pipe := pipe));
      if !taken {
        return Err(SendClosed), moves;
      }
      r := Ok(());
    }

    method CloseStreamSend()
      requires stream.Some?
      modifies this`stream
      ensures stream == Some(old(stream.value).(pipe := old(stream.value.pipe).(open := false)))
    {
      stream := Some(stream.value.(pipe := stream.value.pipe.(open := false)));
    }

    /** `start_server_stream` and `start_bidi_stream`: launch a driver unless already expired. */
    method StartStream(request: Request, bidi: bool, env: Env) returns (r: Result<(), Error>)
      requires stream.None? && clock == env.now
      modifies this`stream
      ensures var l := Launch(View(), request, bidi, env);
              match r
              case Ok(_) => l.Ok? && stream == Some(l.value)
              case Err(e) => l == Err(e) && stream.None?
    {
      var config := Config(env.script, deadline, env.now, STREAM_MSG_BUFFER);
      if AlreadyExpired(deadline, env.now) {
        stream := Some(Active(config, ExpiredAtDispatch(config), request, bidi, CLOSED_PIPE));
        return Ok(());
      }
      if !pathValid {
        return Err(CallFailed(InvalidPath));
      }
      stream := Some(Active(config, Spawned(config), request, bidi, if bidi then NEW_PIPE else CLOSED_PIPE));
      r := Ok(());
    }

    /** Receive operations on the active stream; the wait always ends. */
    method ReceiveOnStream(ops: RecvOps, ghost env: Env) returns (reply: Reply, ghost schedule: seq<Event>)
      requires stream.Some? && StreamOk(deadline, clock, false, [], stream.value) && clock == env.now
      requires ops.meta || ops.message || ops.status
      modifies this`stream, this`clock
      ensures var a := old(stream.value);
              && AnswersBy(a.config, a.state, ops, env.now, schedule)
              && Done(View(), Ok(reply)) == Receive(old(View()), a, ops, env.(schedule := schedule))
    {
      var a := stream.value;
      ReceiveCanBegin(deadline, clock, a, ops);
      var s;
      s, reply, schedule := BuildStreamResult(a.config, a.state, ops, clock);
      stream, clock := Some(a.(state := s)), s.clock;
    }

    /** Send operations on the active stream. */
    method ForwardToStream(b: Batch, now: Clock, ghost env: Env)
      returns (r: Result<Reply, Error>, ghost moves: seq<PipeEvent>)
      requires stream.Some? && PipeOk(stream.value) && now == env.now
      modifies this`stream, this`clock
      ensures SendOk(old(stream.value), b, env.(transport := moves))
      ensures Done(View(), r) == ForwardSend(old(View()), b, env.(transport := moves))
    {
      clock := now;
      var sent;
      sent, moves := SendOnStream(b, env);
      r := if sent.Ok? then Ok(EMPTY_REPLY) else Err(sent.error);
    }

    /** The first message of a call that is not half-closed. */
    method OpenBidiStream(b: Batch, env: Env) returns (r: Result<Reply, Error>, ghost moves: seq<PipeEvent>)
      requires RouteOf(View(), b).StartBidi?
      modifies this`stream, this`clock, this`pendingMetadata
      ensures SendsOk(old(View()), b, env.(transport := moves))
      ensures Done(View(), r) == OpenBidi(old(View()), b, env.(transport := moves))
    {
      moves := [];
      clock := env.now;
      var sendMetadata := pendingMetadata;
      pendingMetadata := [];
      if PluginThrows(env) {
        return Err(PluginFailed), [];
      }
      var started := StartStream(Request(sendMetadata, PluginEntries(env), None, None), true, env);
      if started.Err? {
        return Err(started.error), [];
      }
      ghost var launched := stream.value;
      var sent;
      sent, moves := SendOnStream(b, env);
      FirstSend(old(View()), b, env.(transport := moves), launched);
      r := if sent.Ok? then Ok(EMPTY_REPLY) else Err(sent.error);
    }

    /** Keep the batch for later, or dispatch it at once when it half-closes. */
    method BufferSends(b: Batch, env: Env) returns (r: Result<Reply, Error>)
      requires stream.None?
      modifies this`stream, this`clock, this`pendingMetadata, this`pendingMessage
      ensures Done(View(), r) == if b.close then EagerSend(old(View()), b, env) else BufferSend(old(View()), b, env)
    {
      clock := env.now;
      pendingMetadata, pendingMessage := b.metadata.GetOr([]), b.message;
      if PluginThrows(env) {
        return Err(PluginFailed);
      }
      pendingMetadata := pendingMetadata + PluginEntries(env);
      if b.close {
        var sendMetadata, sendMessage := pendingMetadata, pendingMessage;
        pendingMetadata, pendingMessage := [], None;
        var started := StartStream(Request(sendMetadata, [], sendMessage, b.message), false, env);
        if started.Err? {
          return Err(started.error);
        }
      }
      r := Ok(EMPTY_REPLY);
    }

    /** A batch of send operations only: forward, open a bidi stream, or buffer and perhaps dispatch. */
    method DispatchSends(b: Batch, env: Env) returns (r: Result<Reply, Error>, ghost moves: seq<PipeEvent>)
      requires ActiveOk(View()) && clock <= env.now && b.Sends() && !b.Receives()
      modifies this`stream, this`clock, this`pendingMetadata, this`pendingMessage
      ensures EnvOk(old(View()), b, env.(transport := moves))
      ensures Done(View(), r) == Dispatch(old(View()), b, env.(transport := moves))
    {
      if stream.Some? {
        r, moves := ForwardToStream(b, env.now, env);
      } else if !b.close && b.message.Some? {
        r, moves := OpenBidiStream(b, env);
      } else {
        moves := env.transport;
        r := BufferSends(b, env);
      }
    }

    /** The send half of a receive batch; an open stream stays open to receive. */
    method SendHalf(b: Batch, now: Clock, ghost env: Env)
      returns (sent: Result<(), Error>, ghost moves: seq<PipeEvent>, ghost half: Sent)
      requires stream.Some? && StreamOk(deadline, clock, false, [], stream.value) && clock <= now == env.now
      modifies this`stream, this`clock
      ensures SendOk(old(stream.value), b, env.(transport := moves))
      ensures half == SendOn(old(stream.value), b, env.(transport := moves))
      ensures StreamOk(deadline, now, false, [], half.active)
      ensures View() == old(View()).(clock := now, stream := Some(half.active))
      ensures sent == match half.error case None => Ok(()) case Some(e) => Err(e)
    {
      ghost var was := stream.value;
      clock := now;
      sent, moves := SendOnStream(b, env);
      half := SendOn(was, b, env.(transport := moves));
      SendOnOk(deadline, old(clock), was, b, env.(transport := moves));
    }

    /** A receive batch on the active stream: its send half, then the receive. */
    method DispatchOnStream(b: Batch, now: Clock, ghost env: Env)
      returns (r: Result<Reply, Error>, ghost moves: seq<PipeEvent>, ghost schedule: seq<Event>)
      requires stream.Some? && StreamOk(deadline, clock, false, [], stream.value)
      requires clock <= now == env.now && b.Receives()
      modifies this`stream, this`clock
      ensures EnvOk(old(View()), b, env.(transport := moves, schedule := schedule))
      ensures Done(View(), r) == ReadStream(old(View()), b, env.(transport := moves, schedule := schedule))
    {
      ghost var half;
      var sent;
      sent, moves, half := SendHalf(b, now, env);
      ghost var sending := env.(transport := moves);
      if sent.Err? {
        schedule := [];
        SendFailed(old(View()), b, sending, sending.(schedule := []), half);
        return Err(sent.error), moves, [];
      }
      ghost var mid := View();
      var reply;
      reply, schedule := ReceiveOnStream(b.recv, sending);
      Answered(old(View()), b, sending, sending.(schedule := schedule), half, mid);
      r := Ok(reply);
    }

    /** A whole call in one batch. */
    method RunUnary(b: Batch, request: Request, env: Env) returns (r: Result<Reply, Error>)
      requires env.choice.entry == env.now && ValidChoice(deadline, env.choice)
      modifies this`clock, this`cancelled, this`history
      ensures Done(View(), r) == RunOneShot(old(View()), b, request, env)
    {
      var result := ExecuteCall(env.script, deadline, pathValid, env.choice);
      history := history.(attempts := history.attempts + [
        Attempt(request, Reaches(env.script, deadline, pathValid, env.choice), result.Ok?,
                !b.recv.status && !sendClosed)]);
      clock := env.choice.raceAt;
      match result
      case Ok(value) => r := Ok(UnaryReply(value, b.recv));
      case Err(e) =>
        if e == CancelledInFlight {
          cancelled := true;
        }
        r := Err(CallFailed(e));
    }

    /** The request of a receive batch without a stream: from the batch, or out of the buffers. */
    method ResolveRequest(b: Batch, env: Env) returns (r: Result<Request, Error>)
      modifies this`pendingMetadata, this`pendingMessage
      ensures View() == TakePending(old(View()), b)
      ensures r == if b.Sends() && PluginThrows(env) then Err(PluginFailed)
                   else Ok(ResolvedRequest(old(View()), b, env))
    {
      if b.Sends() {
        if PluginThrows(env) {
          return Err(PluginFailed);
        }
        return Ok(Request(b.metadata.GetOr([]), PluginEntries(env), b.message, b.message));
      }
      r := Ok(Request(pendingMetadata, [], pendingMessage, None));
      pendingMetadata, pendingMessage := [], None;
    }

    /** Start a stream for a half-closed call and read from it at once. */
    method StreamThenReceive(b: Batch, request: Request, env: Env)
      returns (r: Result<Reply, Error>, ghost schedule: seq<Event>)
      requires stream.None? && clock == env.now && b.Receives() && history.statuses == [] && !cancelled
      modifies this`stream, this`clock
      ensures var launched := Launch(old(View()), request, false, env);
              match launched
              case Err(e) => Done(View(), r) == Done(old(View()), Err(e))
              case Ok(a) =>
                && AnswersBy(a.config, a.state, b.recv, env.now, schedule)
                && Done(View(), r) == Receive(old(View()), a, b.recv, env.(schedule := schedule))
    {
      LaunchOk(View(), request, false, env);
      schedule := [];
      var started := StartStream(request, false, env);
      if started.Err? {
        return Err(started.error), [];
      }
      var reply;
      reply, schedule := ReceiveOnStream(b.recv, env);
      r := Ok(reply);
    }

    method DispatchOneShot(b: Batch, env: Env) returns (r: Result<Reply, Error>)
      requires stream.None? && env.choice.entry == env.now && ValidChoice(deadline, env.choice)
      modifies this`clock, this`cancelled, this`history, this`pendingMetadata, this`pendingMessage
      ensures Done(View(), r) == OneShotCall(old(View()), b, env)
    {
      var request := ResolveRequest(b, env);
      clock := env.now;
      if request.Err? {
        return Err(request.error);
      }
      r := RunUnary(b, request.value, env);
    }

    method DispatchLazy(b: Batch, env: Env) returns (r: Result<Reply, Error>, ghost schedule: seq<Event>)
      requires clock <= env.now && RouteOf(View(), b) == Lazy && history.statuses == [] && !cancelled
      modifies this`stream, this`clock, this`pendingMetadata, this`pendingMessage
      ensures EnvOk(old(View()), b, env.(schedule := schedule))
      ensures Done(View(), r) == LazyStream(old(View()), b, env.(schedule := schedule))
    {
      schedule := [];
      var request := ResolveRequest(b, env);
      clock := env.now;
      if request.Err? {
        return Err(request.error), [];
      }
      ghost var launched := Launch(View(), request.value, false, env);
      r, schedule := StreamThenReceive(b, request.value, env);
      LateStream(old(View()), b, env.(schedule := schedule), launched);
    }

    /** Route a parsed batch to the unary or streaming machinery. */
    method DispatchBatch(b: Batch, env: Env)
      returns (r: Result<Reply, Error>, ghost moves: seq<PipeEvent>, ghost schedule: seq<Event>)
      requires Open(View()) && clock <= env.now && (b.Sends() || b.Receives())
      requires env.choice.entry == env.now && ValidChoice(deadline, env.choice)
      modifies this`stream, this`clock, this`cancelled, this`history, this`pendingMetadata, this`pendingMessage
      ensures EnvOk(old(View()), b, env.(transport := moves, schedule := schedule))
      ensures Done(View(), r) == Dispatch(old(View()), b, env.(transport := moves, schedule := schedule))
    {
      moves, schedule := env.transport, env.schedule;
      if !b.Receives() {
        r, moves := DispatchSends(b, env);
      } else if stream.Some? {
        r, moves, schedule := DispatchOnStream(b, env.now, env);
      } else if (b.recv.message && b.recv.status) || !sendClosed {
        r := DispatchOneShot(b, env);
      } else {
        r, schedule := DispatchLazy(b, env);
      }
    }

    method CheckRefusal(b: Batch, env: Env) returns (refusal: Option<Error>)
      ensures refusal == Refusal(View(), b, env)
    {
      if env.channelClosed {
        return Some(ChannelClosed);
      }
      if cancelled {
        return Some(CallCancelled);
      }
      if b.Sends() || b.Receives() {
        if finished {
          return Some(TooManyOperations);
        }
        if b.metadata.Some? && metadataSent {
          return Some(TooManyOperations);
        }
      }
      refusal := None;
    }

    method MarkFlags(b: Batch)
      modifies this`metadataSent, this`sendClosed, this`history
      ensures View() == Mark(old(View()), b)
    {
      if b.metadata.Some? {
        metadataSent := true;
        history := history.(initial := b.metadata);
      }
      if b.close {
        sendClosed := true;
      }
    }

    /** A delivered status ends the call. */
    method SettleBatch(b: Batch, r: Result<Reply, Error>)
      modifies this`finished, this`history
      ensures Done(View(), r) == Settle(b, Done(old(View()), r))
    {
      if r.Ok? {
        if b.recv.status {
          finished := true;
        }
        history := history.(
          accepted := if b.message.Some? then history.accepted + [b.message.value] else history.accepted,
          statuses := if r.value.status.Some? then history.statuses + [r.value.status.value] else history.statuses);
      } else {
        history := history.(failed := true);
      }
    }

    /** `startBatch`: refuse, mark, dispatch, and close the call once its status is out. */
    method Submit(b: Batch, env: Env)
      returns (r: Result<Reply, Error>, ghost moves: seq<PipeEvent>, ghost schedule: seq<Event>)
      requires Valid() && clock <= env.now
      requires env.choice.entry == env.now && ValidChoice(deadline, env.choice)
      modifies this
      ensures Valid()
      ensures ActOk(old(View()), Act.Submit(b, env.(transport := moves, schedule := schedule)))
      ensures Done(View(), r) == StartBatch(old(View()), b, env.(transport := moves, schedule := schedule))
    {
      moves, schedule := [], [];
      var refusal := CheckRefusal(b, env);
      if refusal.Some? {
        return Err(refusal.value), [], [];
      }
      if !b.Sends() && !b.Receives() {
        return Ok(EMPTY_REPLY), [], [];
      }
      MarkFlags(b);
      r, moves, schedule := DispatchBatch(b, env);
      SettleBatch(b, r);
      PerformOk(old(View()), Act.Submit(b, env.(transport := moves, schedule := schedule)));
    }
  }
}
