/** The whole stack: send_once and receive_once over two connections over two byte streams. Every run
    of the stack is a run of the attempt over plain FIFO channels, so everything proved of attempts and
    of whole transfers holds of it (src/transfer/transfer.cpp:459-716, src/conn.cpp:59-402). */
module Stack {
  import opened Bytes
  import opened Errors
  import opened Frames
  import opened Endpoints
  import opened Attempt
  import opened Link
  import opened Blocked
  import opened Transfer
  import Wire
  import Protocol
  import Session
  import ConnState
  import D = Duplex
  import Proofs = DuplexProofs
  import Theorems = DuplexTheorems

  /** The sender uses the left connection, the receiver the right one. */
  datatype Stack = Stack(s: Sender, r: Receiver, d: D.Duo, sLost: Option<ConnErr>, rLost: Option<ConnErr>)

  /** A step inside the connections or their streams, or a call of one of the endpoints: a send that is
      accepted, a receive that returns a payload, a call that fails, a refusal whose send fails. */
  datatype Move =
    | Inside(t: D.Step)
    | SenderSend | SenderReceive | SenderFail(e: ConnErr)
    | ReceiverSend | ReceiverReceive | ReceiverFail(e: ConnErr) | ReceiverDrop

  function Fresh(c: Pair): Stack { Stack(SENDER_START, ReceiverStart(c.recv, c.dev), D.CONNECTED, None, None) }

  /** Anything but a call of the application: threads, shutdown, the ends of the streams. */
  predicate IsInside(t: D.Step) {
    (t.Left? || t.Right?) ==> !t.e.Send? && !t.e.Receive?
  }

  /** The errors of send: the payload is too large, or shutdown has begun, which can be at any time. */
  predicate SendFails(cfg: ConnState.Cfg, p: bytes, e: ConnErr) {
    e == Closed || (e == MessageTooLarge && |p| > cfg.maxMessage)
  }

  /** The errors of receive: a callback is installed, or the connection has ended and nothing is left. */
  predicate ReceiveFails(cfg: ConnState.Cfg, x: ConnState.State, e: ConnErr) {
    if cfg.callback then e == ReceiveDisabled else x.recvClosed && x.recvQ == [] && e == ConnState.TerminalError(x)
  }

  /** The application's next call fails with `e`. */
  predicate CallFails<S>(a: Action<S>, cfg: ConnState.Cfg, x: ConnState.State, e: ConnErr) {
    (a.Emit? && SendFails(cfg, Payload(a.frame), e)) || (a.Await? && ReceiveFails(cfg, x, e))
  }

  predicate CanMove(v: D.Env, c: Pair, k: Stack, m: Move) {
    var a, b := SenderAction(c.send, k.s), ReceiverAction(c.recv, k.r);
    match m
    case Inside(t) => IsInside(t) && D.CanStep(v, k.d, t)
    case SenderSend => k.sLost == None && a.Emit? && D.CanStep(v, k.d, D.Left(D.Send(Payload(a.frame))))
    case SenderReceive => k.sLost == None && a.Await? && D.CanStep(v, k.d, D.Left(D.Receive))
    case SenderFail(e) => k.sLost == None && CallFails(a, v.left, k.d.a, e)
    case ReceiverSend =>
      k.rLost == None && (b.Emit? || b.EmitLast?) && D.CanStep(v, k.d, D.Right(D.Send(Payload(b.frame))))
    case ReceiverReceive => k.rLost == None && b.Await? && D.CanStep(v, k.d, D.Right(D.Receive))
    case ReceiverFail(e) => k.rLost == None && CallFails(b, v.right, k.d.b, e)
    case ReceiverDrop => k.rLost == None && b.EmitLast?
  }

  function DoMove(v: D.Env, c: Pair, k: Stack, m: Move): Stack
    requires CanMove(v, c, k, m)
  {
    match m
    case Inside(t) => k.(d := D.Next(v, k.d, t))
    case SenderSend =>
      var a := SenderAction(c.send, k.s);
      k.(s := a.next, d := D.Next(v, k.d, D.Left(D.Send(Payload(a.frame)))))
    case SenderReceive =>
      k.(s := SenderOnPayload(c.send, k.s, k.d.a.recvQ[0]), d := D.Next(v, k.d, D.Left(D.Receive)))
    case SenderFail(e) => k.(sLost := Some(e))
    case ReceiverSend =>
      var b := ReceiverAction(c.recv, k.r);
      k.(r := Sent(b), d := D.Next(v, k.d, D.Right(D.Send(Payload(b.frame)))))
    case ReceiverReceive =>
      k.(r := ReceiverOnPayload(c.recv, k.r, k.d.b.recvQ[0]), d := D.Next(v, k.d, D.Right(D.Receive)))
    case ReceiverFail(e) => k.(rLost := Some(e))
    case ReceiverDrop => k.(r := Sent(ReceiverAction(c.recv, k.r)))
  }

  // ---------- the stack and the attempt ----------

  /** The channels of the attempt hold what one connection has accepted and the other not yet returned,
      wherever it is: in a queue, in a thread's hand, sealed on a stream, or lost with it. */
  ghost predicate Shows(k: Stack, l: Link) {
    && l.s == k.s && l.r == k.r && l.sLost == k.sLost && l.rLost == k.rLost
    && k.d.a.h.accepted == k.d.b.h.returned + Payloads(l.fwd)
    && k.d.b.h.accepted == k.d.a.h.returned + Payloads(l.rev)
  }

  lemma InsideSide(v: D.Env, c: ConnState.Cfg, s: D.Side, e: D.Event)
    requires D.CanDo(v, c, s, e) && !e.Send? && !e.Receive?
    ensures var x2 := D.Do(v, c, s, e).x; x2.h.accepted == s.x.h.accepted && x2.h.returned == s.x.h.returned
  {
    hide ConnState.OnMessage, Protocol.Parse, D.Unread, Session.Open, D.Written, Protocol.RecordBytes;
    var p := Protocol.Parse(D.Unread(s.inn));
    if e.Read? && p.Got? {
      var pt := Session.Open(v.s, v.key, p.rec.sealed);
      if pt.Ok? { MessageInside(c, s.x, p.rec.typ, pt.value); }
    }
  }

  lemma MessageInside(c: ConnState.Cfg, x: ConnState.State, typ: byte, pt: bytes)
    ensures var x2 := ConnState.OnMessage(c, x, typ, pt); x2.h.accepted == x.h.accepted && x2.h.returned == x.h.returned
  {
  }

  lemma InsideFrame(v: D.Env, d: D.Duo, t: D.Step)
    requires D.CanStep(v, d, t) && IsInside(t)
    ensures var d2 := D.Next(v, d, t);
            && d2.a.h.accepted == d.a.h.accepted && d2.a.h.returned == d.a.h.returned
            && d2.b.h.accepted == d.b.h.accepted && d2.b.h.returned == d.b.h.returned
  {
    hide D.CanDo, D.Do;
    match t
    case Left(e) => InsideSide(v, v.left, D.Side(d.a, d.lr, d.rl), e);
    case Right(e) => InsideSide(v, v.right, D.Side(d.b, d.rl, d.lr), e);
    case _ =>
  }

  lemma PayloadsMore(base: seq<bytes>, fs: seq<Frame>, f: Frame)
    ensures base + Payloads(fs) + [Payload(f)] == base + Payloads(fs + [f])
  {
  }

  /** What is next in a receive queue is next in the channel. */
  lemma NextInChannel(returned: seq<bytes>, q: seq<bytes>, accepted: seq<bytes>, fs: seq<Frame>)
    requires q != [] && returned + q <= accepted && accepted == returned + Payloads(fs)
    ensures fs != [] && q[0] == Payload(fs[0])
    ensures accepted == returned + [q[0]] + Payloads(fs[1..])
  {
    assert (returned + q)[|returned|] == q[0];
    assert Payloads(fs) == [Payload(fs[0])] + Payloads(fs[1..]);
  }

  /** The event of the attempt that a call of an endpoint amounts to. */
  function EventOf(m: Move): Event
    requires !m.Inside?
  {
    match m
    case SenderSend => SenderSends
    case SenderReceive => SenderTakes
    case SenderFail(e) => SenderLoses(e)
    case ReceiverSend => ReceiverSends
    case ReceiverReceive => ReceiverTakes
    case ReceiverFail(e) => ReceiverLoses(e)
    case ReceiverDrop => ReceiverDrops
  }

  /** The attempt in state `l` can follow the stack to `k2`. */
  ghost predicate Follows(c: Pair, l: Link, m: Move, k2: Stack) {
    if m.Inside? then Shows(k2, l) else Enabled(c, l, EventOf(m)) && Shows(k2, Apply(c, l, EventOf(m)))
  }

  lemma SimulateSenderReceive(v: D.Env, c: Pair, k: Stack, l: Link)
    requires Offered(c) && AttemptInv(c, l) && Proofs.DuoInv(v, k.d) && Shows(k, l) && CanMove(v, c, k, SenderReceive)
    ensures Follows(c, l, SenderReceive, DoMove(v, c, k, SenderReceive))
  {
    hide AttemptInv, Offered, Decode, Payload, Proofs.DuoInv;
    Theorems.FifoNow(v, k.d, true);
    NextInChannel(k.d.a.h.returned, k.d.a.recvQ, k.d.b.h.accepted, l.rev);
    Wire.HeadsSurvive(c, l);
  }

  lemma SimulateReceiverReceive(v: D.Env, c: Pair, k: Stack, l: Link)
    requires Offered(c) && AttemptInv(c, l) && Proofs.DuoInv(v, k.d) && Shows(k, l) && CanMove(v, c, k, ReceiverReceive)
    ensures Follows(c, l, ReceiverReceive, DoMove(v, c, k, ReceiverReceive))
  {
    hide AttemptInv, Offered, Decode, Payload, Proofs.DuoInv;
    Theorems.FifoNow(v, k.d, false);
    NextInChannel(k.d.b.h.returned, k.d.b.recvQ, k.d.a.h.accepted, l.fwd);
    Wire.HeadsSurvive(c, l);
  }

  lemma SimulateSend(v: D.Env, c: Pair, k: Stack, l: Link, m: Move)
    requires Shows(k, l) && (m.SenderSend? || m.ReceiverSend?) && CanMove(v, c, k, m)
    ensures Follows(c, l, m, DoMove(v, c, k, m))
  {
    hide Payload;
    if m.SenderSend? {
      PayloadsMore(k.d.b.h.returned, l.fwd, SenderAction(c.send, k.s).frame);
    } else {
      PayloadsMore(k.d.a.h.returned, l.rev, ReceiverAction(c.recv, k.r).frame);
    }
  }

  /** Every move of the stack is a step of the attempt, or none. */
  lemma Simulate(v: D.Env, c: Pair, k: Stack, l: Link, m: Move)
    requires Offered(c) && AttemptInv(c, l) && Proofs.DuoInv(v, k.d) && Shows(k, l) && CanMove(v, c, k, m)
    ensures Follows(c, l, m, DoMove(v, c, k, m))
  {
    hide AttemptInv, Offered, Decode, Payload, Proofs.DuoInv;
    match m
    case Inside(t) => InsideFrame(v, k.d, t);
    case SenderSend => SimulateSend(v, c, k, l, m);
    case ReceiverSend => SimulateSend(v, c, k, l, m);
    case SenderReceive => SimulateSenderReceive(v, c, k, l);
    case ReceiverReceive => SimulateReceiverReceive(v, c, k, l);
    case _ =>
  }

  /** Every move keeps what holds of the two connections. */
  lemma MoveKeepsDuo(v: D.Env, c: Pair, k: Stack, m: Move)
    requires Session.SealsRight(v.s) && Proofs.DuoInv(v, k.d) && CanMove(v, c, k, m)
    ensures Proofs.DuoInv(v, DoMove(v, c, k, m).d)
  {
    hide Proofs.DuoInv, D.CanDo, D.Do;
    match m
    case Inside(t) => Proofs.DuoStep(v, k.d, t);
    case SenderSend => Proofs.DuoStep(v, k.d, D.Left(D.Send(Payload(SenderAction(c.send, k.s).frame))));
    case SenderReceive => Proofs.DuoStep(v, k.d, D.Left(D.Receive));
    case ReceiverSend => Proofs.DuoStep(v, k.d, D.Right(D.Send(Payload(ReceiverAction(c.recv, k.r).frame))));
    case ReceiverReceive => Proofs.DuoStep(v, k.d, D.Right(D.Receive));
    case _ =>
  }
}
