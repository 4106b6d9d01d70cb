/** The sender and the receiver of one attempt over two FIFO channels; either end may lose the
    connection at any moment, whatever is still on its way (src/transfer/transfer.cpp:459-540, 566-716).
    Every step of every run is one event. */
module Link {
  import opened Errors
  import opened Frames
  import opened Grid
  import opened Endpoints
  import opened Attempt

  /** `p`, `q`, `u`, `v` are history variables: frames sent and taken by the sender (p, q), taken
      and sent by the receiver (u, v). A lost endpoint has returned its connection error. */
  datatype Link = Link(s: Sender, r: Receiver, fwd: seq<Frame>, rev: seq<Frame>,
                       sLost: Option<ConnErr>, rLost: Option<ConnErr>,
                       p: nat, q: nat, u: nat, v: nat)

  datatype Event =
    | SenderSends | SenderTakes | ReceiverSends | ReceiverTakes
    | SenderLoses(e: ConnErr) | ReceiverLoses(e: ConnErr)
    | ReceiverDrops                                     // a refusal whose send fails, which is ignored

  function Start(c: Pair): Link {
    Link(SENDER_START, ReceiverStart(c.recv, c.dev), [], [], None, None, 0, 0, 0, 0)
  }

  predicate Enabled(c: Pair, l: Link, e: Event) {
    var a, b := SenderAction(c.send, l.s), ReceiverAction(c.recv, l.r);
    match e
    case SenderSends => l.sLost == None && (a.Emit? || a.EmitLast?)
    case SenderTakes => l.sLost == None && a.Await? && l.rev != []
    case ReceiverSends => l.rLost == None && (b.Emit? || b.EmitLast?)
    case ReceiverTakes => l.rLost == None && b.Await? && l.fwd != []
    case SenderLoses(_) => l.sLost == None && (a.Emit? || a.Await?)
    case ReceiverLoses(_) => l.rLost == None && (b.Emit? || b.Await?)
    case ReceiverDrops => l.rLost == None && b.EmitLast?
  }

  function Sent<S>(a: Action<S>): S
    requires a.Emit? || a.EmitLast?
  {
    if a.Emit? then a.next else a.end
  }

  function Apply(c: Pair, l: Link, e: Event): Link
    requires Enabled(c, l, e)
  {
    match e
    case SenderSends =>
      var a := SenderAction(c.send, l.s);
      l.(s := Sent(a), fwd := l.fwd + [a.frame], p := l.p + 1)
    case SenderTakes =>
      l.(s := SenderOnFrame(c.send, l.s, l.rev[0]), rev := l.rev[1..], q := l.q + 1)
    case ReceiverSends =>
      var b := ReceiverAction(c.recv, l.r);
      l.(r := Sent(b), rev := l.rev + [b.frame], v := l.v + 1)
    case ReceiverTakes =>
      l.(r := ReceiverOnFrame(c.recv, l.r, l.fwd[0]), fwd := l.fwd[1..], u := l.u + 1)
    case SenderLoses(err) => l.(sLost := Some(err))
    case ReceiverLoses(err) => l.(rLost := Some(err))
    case ReceiverDrops => l.(r := Sent(ReceiverAction(c.recv, l.r)))
  }

  /** What send_once and receive_once have returned, once they have. */
  function SenderResult(l: Link): Option<Outcome> {
    if l.sLost.Some? then Some(Failure(MapConnErr(l.sLost.value)))
    else if l.s.pc.SenderDone? then Some(l.s.pc.res) else None
  }

  function ReceiverResult(l: Link): Option<Outcome> {
    if l.rLost.Some? then Some(Failure(MapConnErr(l.rLost.value)))
    else if l.r.pc.ReceiverDone? then Some(l.r.pc.res) else None
  }

  /** `es` leads from `l` to `l2`. */
  predicate Leads(c: Pair, l: Link, es: seq<Event>, l2: Link)
    decreases |es|
  {
    if es == [] then l == l2
    else Enabled(c, l, es[0]) && Leads(c, Apply(c, l, es[0]), es[1..], l2)
  }

  lemma {:induction false} LeadsMore(c: Pair, l: Link, es: seq<Event>, l2: Link, e: Event)
    requires Leads(c, l, es, l2) && Enabled(c, l2, e)
    ensures Leads(c, l, es + [e], Apply(c, l2, e))
    decreases |es|
  {
    hide Enabled, Apply;
    if es == [] {
      assert (es + [e])[1..] == [];
    } else {
      LeadsMore(c, Apply(c, l, es[0]), es[1..], l2, e);
      assert (es + [e])[1..] == es[1..] + [e];
    }
  }

  predicate Lossy(e: Event) { e.SenderLoses? || e.ReceiverLoses? || e.ReceiverDrops? }

  /** Neither end loses the connection. */
  predicate LossFree(es: seq<Event>) {
    forall i :: 0 <= i < |es| ==> !Lossy(es[i])
  }

  // ---------- what every reachable state is ----------

  function FwdFrames(c: Pair, i: nat, j: nat): (r: seq<Frame>)
    requires Agreed(c) && i <= j <= N(c) + 2
    ensures |r| == j - i && forall k :: 0 <= k < j - i ==> r[k] == FwdFrame(c, i + k)
  {
    seq(j - i, k requires 0 <= k < j - i => FwdFrame(c, i + k))
  }

  function RevFrames(c: Pair, i: nat, j: nat): (r: seq<Frame>)
    requires Agreed(c) && i <= j <= J(c) + 2
    ensures |r| == j - i && forall k :: 0 <= k < j - i ==> r[k] == RevFrame(c, i + k)
  {
    seq(j - i, k requires 0 <= k < j - i => RevFrame(c, i + k))
  }

  predicate Consistent(c: Pair, p: nat, q: nat, u: nat, v: nat)
    requires Agreed(c)
  {
    && u <= p <= N(c) + 2
    && q <= v <= J(c) + 2
    && SenderFits(c, p, q)
    && ReceiverFits(c, u, v)
  }

  /** The four counters determine the whole state: both endpoints, and each channel as the frames
      between what one side sent and what the other took. */
  predicate Inv(c: Pair, l: Link)
    requires Agreed(c)
  {
    && Consistent(c, l.p, l.q, l.u, l.v)
    && l.s == SenderAt(c, l.p, l.q)
    && l.r == ReceiverAt(c, l.u, l.v)
    && l.fwd == FwdFrames(c, l.u, l.p)
    && l.rev == RevFrames(c, l.q, l.v)
    && (l.sLost.Some? ==> l.q < J(c) + 2)
    && (l.rLost.Some? ==> l.v < J(c) + 2)
  }

  lemma InvStart(c: Pair)
    requires Agreed(c)
    ensures Inv(c, Start(c))
  {
    hide CeilDiv, Pieces, Off, AckIdx, Due;
    AtZero(c);
    DueZero(N(c), c.recv.ackEvery);
  }

  /** An acknowledgement on its way names chunks the receiver has stored, hence chunks sent. */
  lemma AckBehind(c: Pair, p: nat, q: nat, u: nat, v: nat)
    requires Agreed(c) && Consistent(c, p, q, u, v) && 0 < q <= v
    ensures 0 < u
    ensures Acked(c, q - 1) <= Min(u - 1, N(c))
    ensures 0 < q < v && q <= J(c) ==> Acked(c, q) <= Min(u - 1, N(c))
  {
    hide CeilDiv, Pieces, Off, AckIdx, Due;
    RepliesBounded(c, u);
    var k := Min(u - 1, N(c));
    DueEnd(N(c), c.recv.ackEvery, k);
    DueEnd(N(c), c.recv.ackEvery, N(c));
    AckIdxEnd(N(c), c.recv.ackEvery, q - 1);
    AckIdxEnd(N(c), c.recv.ackEvery, q);
    if u <= N(c) + 1 {
      AckIdxMono(N(c), c.recv.ackEvery, q - 1, Owed(c, k));
      if q < v { AckIdxMono(N(c), c.recv.ackEvery, q, Owed(c, k)); }
    }
  }

  lemma SenderSendsStep(c: Pair, l: Link)
    requires Agreed(c) && Inv(c, l) && Enabled(c, l, SenderSends)
    ensures Inv(c, Apply(c, l, SenderSends))
  {
    hide CeilDiv, Pieces, Off, AckIdx, Due;
    SenderActs(c, l.p, l.q);
    assert FwdFrames(c, l.u, l.p + 1) == l.fwd + [FwdFrame(c, l.p)];
  }

  lemma SenderTakesStep(c: Pair, l: Link)
    requires Agreed(c) && Inv(c, l) && Enabled(c, l, SenderTakes)
    ensures Inv(c, Apply(c, l, SenderTakes))
  {
    hide CeilDiv, Pieces, Off, AckIdx, Due;
    SenderActs(c, l.p, l.q);
    if l.q > 0 { AckBehind(c, l.p, l.q, l.u, l.v); }
    assert l.rev[0] == RevFrame(c, l.q);
    SenderOnRev(c, l.p, l.q);
    assert RevFrames(c, l.q + 1, l.v) == l.rev[1..];
  }

  lemma ReceiverSendsStep(c: Pair, l: Link)
    requires Agreed(c) && Inv(c, l) && Enabled(c, l, ReceiverSends)
    ensures Inv(c, Apply(c, l, ReceiverSends))
  {
    hide CeilDiv, Pieces, Off, AckIdx, Due;
    ReceiverActs(c, l.u, l.v);
    RepliesBounded(c, l.u);
    assert RevFrames(c, l.q, l.v + 1) == l.rev + [RevFrame(c, l.v)];
  }

  lemma ReceiverIdle(c: Pair, l: Link)
    requires Agreed(c) && Inv(c, l) && Enabled(c, l, ReceiverTakes)
    ensures l.u < l.p && l.v == Replies(c, l.u)
  {
    hide CeilDiv, Pieces, Off, AckIdx, Due;
    ReceiverActs(c, l.u, l.v);
  }

  lemma ReceiverTakesStep(c: Pair, l: Link)
    requires Agreed(c) && Inv(c, l) && Enabled(c, l, ReceiverTakes)
    ensures Inv(c, Apply(c, l, ReceiverTakes))
  {
    hide CeilDiv, Pieces, Off, AckIdx, Due;
    ReceiverIdle(c, l);
    assert l.fwd[0] == FwdFrame(c, l.u);
    ReceiverTook(c, l, Apply(c, l, ReceiverTakes));
  }

  lemma ReceiverTook(c: Pair, l: Link, l2: Link)
    requires Agreed(c) && Inv(c, l) && l.u < l.p && l.v == Replies(c, l.u)
    requires l2 == l.(r := ReceiverOnFrame(c.recv, l.r, FwdFrame(c, l.u)), fwd := l.fwd[1..], u := l.u + 1)
    ensures Inv(c, l2)
  {
    hide CeilDiv, Pieces, Off, AckIdx, Due;
    ReceiverOnFwd(c, l.u);
    assert FwdFrames(c, l.u + 1, l.p) == l.fwd[1..];
  }

  lemma LossStep(c: Pair, l: Link, e: Event)
    requires Agreed(c) && Inv(c, l) && Enabled(c, l, e)
    requires Lossy(e)
    ensures Inv(c, Apply(c, l, e))
  {
    hide CeilDiv, Pieces, Off, AckIdx, Due;
    SenderActs(c, l.p, l.q);
    ReceiverActs(c, l.u, l.v);
    RepliesBounded(c, l.u);
  }

  lemma InvStep(c: Pair, l: Link, e: Event)
    requires Agreed(c) && Inv(c, l) && Enabled(c, l, e)
    ensures Inv(c, Apply(c, l, e))
  {
    hide CeilDiv, Pieces, Off, AckIdx, Due;
    match e
    case SenderSends => SenderSendsStep(c, l);
    case SenderTakes => SenderTakesStep(c, l);
    case ReceiverSends => ReceiverSendsStep(c, l);
    case ReceiverTakes => ReceiverTakesStep(c, l);
    case _ => LossStep(c, l, e);
  }

  lemma {:induction false} InvRun(c: Pair, l: Link, es: seq<Event>, l2: Link)
    requires Agreed(c) && Inv(c, l) && Leads(c, l, es, l2)
    ensures Inv(c, l2)
    decreases |es|
  {
    hide CeilDiv, Pieces, Off, AckIdx, Due;
    if es != [] {
      InvStep(c, l, es[0]);
      InvRun(c, Apply(c, l, es[0]), es[1..], l2);
    }
  }
}
