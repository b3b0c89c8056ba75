/**
 * The sending half of a bidi call: a bounded queue between `SEND_MESSAGE` on the
 * PHP thread and the transport, which may stop listening at any time.
 */
module RequestStream {
  import opened Base

  const REQUEST_BUFFER: nat := 4

  datatype Pipe = Pipe(
    queue: seq<Bytes>,
    waiting: Option<Bytes>,
    open: bool,
    dropped: bool,
    // history
    accepted: seq<Bytes>,
    taken: seq<Bytes>,
    endSeen: bool)

  const NEW_PIPE := Pipe([], None, true, false, [], [], false)

  /** The sending half of a stream that never had a sender. */
  const CLOSED_PIPE := NEW_PIPE.(open := false)

  datatype PipeEvent =
    // PHP
    | BeginSend(message: Bytes)
    | EndSend
    | CloseSend
    // transport
    | Take
    | SeeEnd
    | Drop

  predicate IsTransport(e: PipeEvent) {
    e.Take? || e.SeeEnd? || e.Drop?
  }

  predicate CanHappen(p: Pipe, e: PipeEvent) {
    match e
    case BeginSend(_) => p.open && p.waiting.None?
    case EndSend => p.waiting.Some? && (p.dropped || |p.queue| < REQUEST_BUFFER)
    case CloseSend => p.waiting.None?
    case Take => !p.dropped && p.queue != []
    case SeeEnd => !p.dropped && p.queue == [] && !p.open
    case Drop => true
  }

  function Happen(p: Pipe, e: PipeEvent): Pipe
    requires CanHappen(p, e)
  {
    match e
    case BeginSend(m) => p.(waiting := Some(m))
    case EndSend =>
      if p.dropped then p.(waiting := None)
      else p.(waiting := None, queue := p.queue + [p.waiting.value], accepted := p.accepted + [p.waiting.value])
    case CloseSend => p.(open := false)
    case Take => p.(queue := p.queue[1..], taken := p.taken + [p.queue[0]])
    case SeeEnd => p.(endSeen := true)
    case Drop => p.(dropped := true)
  }

  predicate PipeInv(p: Pipe) {
    && |p.queue| <= REQUEST_BUFFER
    && p.taken + p.queue == p.accepted
    && (p.waiting.Some? ==> p.open)
    && (p.endSeen ==> !p.open && p.queue == [])
  }

  predicate AllCanHappen(p: Pipe, es: seq<PipeEvent>)
    decreases |es|
  {
    es == [] || (CanHappen(p, es[0]) && AllCanHappen(Happen(p, es[0]), es[1..]))
  }

  function HappenAll(p: Pipe, es: seq<PipeEvent>): Pipe
    requires AllCanHappen(p, es)
    decreases |es|
  {
    if es == [] then p else HappenAll(Happen(p, es[0]), es[1..])
  }

  lemma StepKeepsPipe(p: Pipe, e: PipeEvent)
    requires PipeInv(p) && CanHappen(p, e)
    ensures PipeInv(Happen(p, e))
    ensures p.endSeen ==> Happen(p, e).endSeen && Happen(p, e).accepted == p.accepted
  {
    match e
    case EndSend =>
      if !p.dropped {
        var m := p.waiting.value;
        assert p.taken + (p.queue + [m]) == (p.taken + p.queue) + [m];
      }
    case Take =>
      assert (p.taken + [p.queue[0]]) + p.queue[1..] == p.taken + p.queue;
    case _ =>
  }

  /**
   * Over every run the transport takes the accepted messages in order; when it sees
   * the half-close it has taken all of them, and nothing is accepted afterwards.
   */
  lemma {:induction false} RequestsArriveInOrder(p: Pipe, es: seq<PipeEvent>)
    requires PipeInv(p) && AllCanHappen(p, es)
    ensures var q := HappenAll(p, es);
            && PipeInv(q) && q.taken <= q.accepted
            && (q.endSeen ==> q.taken == q.accepted)
            && (p.endSeen ==> q.endSeen && q.accepted == p.accepted)
    decreases |es|
  {
    if es != [] {
      StepKeepsPipe(p, es[0]);
      RequestsArriveInOrder(Happen(p, es[0]), es[1..]);
    }
  }

  // ---- one send ----

  predicate AllTransport(es: seq<PipeEvent>) {
    forall i :: 0 <= i < |es| ==> IsTransport(es[i])
  }

  function Waiting(p: Pipe, message: Bytes): Pipe {
    p.(waiting := Some(message))
  }

  /** While PHP waits in its send the transport does these things, and then the send can end. */
  predicate SendEnds(p: Pipe, message: Bytes, es: seq<PipeEvent>) {
    && CanHappen(p, BeginSend(message))
    && AllTransport(es)
    && AllCanHappen(Waiting(p, message), es)
    && CanHappen(HappenAll(Waiting(p, message), es), EndSend)
  }

  function SendBy(p: Pipe, message: Bytes, es: seq<PipeEvent>): Pipe
    requires SendEnds(p, message, es)
  {
    Happen(HappenAll(Waiting(p, message), es), EndSend)
  }

  lemma {:induction false} TransportFrame(p: Pipe, es: seq<PipeEvent>)
    requires PipeInv(p) && AllTransport(es) && AllCanHappen(p, es)
    ensures var q := HappenAll(p, es);
            && PipeInv(q) && q.waiting == p.waiting && q.open == p.open && q.accepted == p.accepted
            && (p.dropped ==> q.dropped)
    decreases |es|
  {
    if es != [] {
      StepKeepsPipe(p, es[0]);
      TransportFrame(Happen(p, es[0]), es[1..]);
    }
  }

  /** A send is accepted exactly when the transport is still there at its end, and is then next in order. */
  lemma SendResult(p: Pipe, message: Bytes, es: seq<PipeEvent>)
    requires PipeInv(p) && SendEnds(p, message, es)
    ensures var q := SendBy(p, message, es);
            && PipeInv(q) && q.waiting.None? && q.open
            && q.accepted == if q.dropped then p.accepted else p.accepted + [message]
  {
    var begun := Waiting(p, message);
    StepKeepsPipe(p, BeginSend(message));
    TransportFrame(begun, es);
    StepKeepsPipe(HappenAll(begun, es), EndSend);
  }

  /** Nothing taken or accepted is taken back, and a half-close, an end seen and a departure are final. */
  predicate Grows(p: Pipe, q: Pipe) {
    && p.taken <= q.taken
    && p.accepted <= q.accepted
    && (!p.open ==> !q.open && q.accepted == p.accepted)
    && (p.endSeen ==> q.endSeen)
    && (p.dropped ==> q.dropped)
  }

  lemma {:induction false} TransportGrows(p: Pipe, es: seq<PipeEvent>)
    requires AllTransport(es) && AllCanHappen(p, es)
    ensures var q := HappenAll(p, es); Grows(p, q) && q.open == p.open && q.accepted == p.accepted
    decreases |es|
  {
    if es != [] {
      TransportGrows(Happen(p, es[0]), es[1..]);
    }
  }

  /** The transport is gone exactly if it was gone before, or left meanwhile. */
  lemma {:induction false} TransportLeaves(p: Pipe, es: seq<PipeEvent>)
    requires AllTransport(es) && AllCanHappen(p, es)
    ensures HappenAll(p, es).dropped <==> p.dropped || Drop in es
    decreases |es|
  {
    if es != [] {
      TransportLeaves(Happen(p, es[0]), es[1..]);
      assert es == [es[0]] + es[1..];
    }
  }

  lemma SendGrows(p: Pipe, message: Bytes, es: seq<PipeEvent>)
    requires SendEnds(p, message, es)
    ensures Grows(p, SendBy(p, message, es))
  {
    TransportGrows(Waiting(p, message), es);
  }

  /** `send_stream_message`: blocks while the queue is full; fails exactly when the transport has left. */
  method Send(p0: Pipe, message: Bytes) returns (p: Pipe, ok: bool, ghost es: seq<PipeEvent>)
    requires PipeInv(p0) && p0.open && p0.waiting.None?
    ensures SendEnds(p0, message, es) && p == SendBy(p0, message, es)
    ensures PipeInv(p) && p.waiting.None? && p.open
    ensures ok <==> !p.dropped
    ensures p.accepted == if ok then p0.accepted + [message] else p0.accepted
  {
    es := [];
    ghost var begun := Waiting(p0, message);
    p := p0.(waiting := Some(message));
    StepKeepsPipe(p0, BeginSend(message));
    var slow: bool := *;
    while !p.dropped && (|p.queue| == REQUEST_BUFFER || (slow && p.queue != []))
      invariant AllTransport(es) && AllCanHappen(begun, es) && p == HappenAll(begun, es)
      invariant PipeInv(p) && p.open && p.waiting == Some(message) && p.accepted == p0.accepted
      decreases if p.dropped then 0 else 1, |p.queue|
    {
      var leaves: bool := *;
      var e := if leaves then Drop else Take;
      StepKeepsPipe(p, e);
      OneMore(begun, es, e);
      p, es := Happen(p, e), es + [e];
      slow := *;
    }
    SendResult(p0, message, es);
    p := Happen(p, EndSend);
    ok := !p.dropped;
  }

  lemma {:induction false} OneMore(p: Pipe, es: seq<PipeEvent>, e: PipeEvent)
    requires AllCanHappen(p, es) && CanHappen(HappenAll(p, es), e)
    ensures AllCanHappen(p, es + [e]) && HappenAll(p, es + [e]) == Happen(HappenAll(p, es), e)
    decreases |es|
  {
    if es == [] {
      assert [e][1..] == [];
      assert es + [e] == [e];
    } else {
      assert (es + [e])[1..] == es[1..] + [e];
      OneMore(Happen(p, es[0]), es[1..], e);
    }
  }
}
