/** An attempt whose destination cannot be opened at the resume offset: the receiver accepts, finds
    that it cannot read back what is stored, and gives up (src/transfer/transfer.cpp:385-390,
    615-622, 640-646). */
module Blocked {
  import opened Errors
  import opened Frames
  import opened Endpoints
  import opened Attempt
  import opened Link
  import opened LinkRuns

  /** Everything the receiver ever sends. */
  function Refusal(c: Pair): seq<Frame> { [Accept(Id(c), c.recv.resume), Abort(Id(c), Ascii("transfer error"))] }

  function BlockedReceiver(c: Pair, u: nat, v: nat): Receiver {
    var pc := if u == 0 then AwaitOffer
              else if v == 0 then Accepting(c.send.meta)
              else if v == 1 then Prepare(c.recv, c.send.meta, c.dev)
              else ReceiverDone(Failure(Other));
    var log, got := if v == 0 then [] else [c.recv.resume], if u == 0 then None else Some(c.send.meta);
    Receiver(pc, c.recv.resume, c.dev, log, got)
  }

  predicate BlockedSender(c: Pair, s: Sender, p: nat, q: nat) {
    if q == 0 then
      p <= 1 && s == if p == 0 then SENDER_START else Sender(AwaitAccept, [])
    else
      && s.log == [c.recv.resume] && p >= 1
      && if q == 1 then
           || (s.pc.Sending? && s.pc.acked == c.recv.resume <= s.pc.next <= Size(c))
           || (s.pc.AwaitVerdict? && c.recv.resume == Size(c))
         else s.pc == SenderDone(Failure(Aborted))
  }

  /** The refusal could not be sent. */
  predicate Dropped(c: Pair, l: Link) {
    && l.u == l.v == 1 && c.recv.resume < Size(c)
    && l.r == BlockedReceiver(c, 1, 1).(pc := ReceiverDone(Failure(Other)))
  }

  /** The destination and the stored length stay put. */
  predicate BlockedInv(c: Pair, l: Link)
    requires Offered(c)
  {
    && l.u <= 1 && l.q <= l.v <= 2 && (l.u == 0 ==> l.v == 0)
    && (l.r == BlockedReceiver(c, l.u, l.v) || Dropped(c, l))
    && l.rev == Refusal(c)[l.q..l.v]
    && BlockedSender(c, l.s, l.p, l.q)
    && (l.u == 0 ==> l.fwd == if l.p == 0 then [] else [Offer(c.send.meta)])
    && (l.v == 2 ==> c.recv.resume < Size(c))
    && (l.sLost.Some? ==> !l.s.pc.SenderDone?)
    && (l.rLost.Some? ==> !l.r.pc.ReceiverDone? && !l.r.pc.Refusing?)
  }

  lemma PrepareBlocked(c: Pair)
    requires Offered(c) && !Opens(c)
    ensures Prepare(c.recv, c.send.meta, c.dev)
         == if c.recv.resume == Size(c) then ReceiverDone(Failure(Other)) else Refusing(Refusal(c)[1], Other)
  {
  }

  lemma BlockedStart(c: Pair)
    requires Offered(c)
    ensures BlockedInv(c, Start(c))
  {
  }

  lemma BlockedSends(c: Pair, l: Link)
    requires Offered(c) && !Opens(c) && BlockedInv(c, l) && Enabled(c, l, SenderSends)
    ensures BlockedInv(c, Apply(c, l, SenderSends))
  {
  }

  lemma BlockedTakes(c: Pair, l: Link)
    requires Offered(c) && !Opens(c) && BlockedInv(c, l) && Enabled(c, l, SenderTakes)
    ensures BlockedInv(c, Apply(c, l, SenderTakes))
  {
    assert l.rev[0] == Refusal(c)[l.q];
  }

  lemma BlockedReplies(c: Pair, l: Link)
    requires Offered(c) && !Opens(c) && BlockedInv(c, l) && Enabled(c, l, ReceiverSends)
    ensures BlockedInv(c, Apply(c, l, ReceiverSends))
  {
    PrepareBlocked(c);
    var l2 := Apply(c, l, ReceiverSends);
    assert l2.rev == l.rev + [Refusal(c)[l.v]];
  }

  lemma BlockedStep(c: Pair, l: Link, e: Event)
    requires Offered(c) && !Opens(c) && BlockedInv(c, l) && Enabled(c, l, e)
    ensures BlockedInv(c, Apply(c, l, e))
  {
    match e
    case SenderSends => BlockedSends(c, l);
    case SenderTakes => BlockedTakes(c, l);
    case ReceiverSends => BlockedReplies(c, l);
    case _ => PrepareBlocked(c);
  }

  lemma {:induction false} NothingDropped(c: Pair, l: Link, es: seq<Event>, l2: Link)
    requires Offered(c) && !Opens(c) && BlockedInv(c, l) && l.r == BlockedReceiver(c, l.u, l.v) && Whole(l)
    requires Leads(c, l, es, l2) && LossFree(es)
    ensures BlockedInv(c, l2) && l2.r == BlockedReceiver(c, l2.u, l2.v) && Whole(l2)
    decreases |es|
  {
    if es != [] {
      CleanStep(c, l, es[0]);
      assert LossFree(es[1..]);
      NothingDropped(c, Apply(c, l, es[0]), es[1..], l2);
    }
  }

  lemma CleanStep(c: Pair, l: Link, e: Event)
    requires Offered(c) && !Opens(c) && BlockedInv(c, l) && l.r == BlockedReceiver(c, l.u, l.v) && Whole(l)
    requires Enabled(c, l, e) && !Lossy(e)
    ensures var l2 := Apply(c, l, e);
            BlockedInv(c, l2) && l2.r == BlockedReceiver(c, l2.u, l2.v) && Whole(l2)
  {
    PrepareBlocked(c);
    BlockedStep(c, l, e);
  }

  /** Without loss, the receiver ends with `other`; the sender with `aborted` if bytes were missing, and
      otherwise it waits for a verdict that never comes. Neither succeeds. */
  lemma BlockedEnds(c: Pair, es: seq<Event>, l: Link)
    requires Offered(c) && !Opens(c) && Leads(c, Start(c), es, l) && LossFree(es) && Stuck(c, l)
    ensures l.r.pc == ReceiverDone(Failure(Other)) && l.r.dev == c.dev
    ensures l.s.pc == if c.recv.resume < Size(c) then SenderDone(Failure(Aborted)) else AwaitVerdict
  {
    BlockedStart(c);
    NothingDropped(c, Start(c), es, l);
    PrepareBlocked(c);
    BlockedStuck(c, l);
  }

  lemma BlockedStuck(c: Pair, l: Link)
    requires Offered(c) && !Opens(c) && BlockedInv(c, l) && l.r == BlockedReceiver(c, l.u, l.v) && Whole(l)
        && Stuck(c, l)
    ensures l.r.pc == ReceiverDone(Failure(Other)) && l.r.dev == c.dev
    ensures l.s.pc == if c.recv.resume < Size(c) then SenderDone(Failure(Aborted)) else AwaitVerdict
  {
    PrepareBlocked(c);
  }

  lemma BlockedFails(c: Pair, l: Link)
    requires Offered(c) && !Opens(c) && BlockedInv(c, l)
    ensures SenderResult(l) != Some(Success) && ReceiverResult(l) != Some(Success)
  {
    PrepareBlocked(c);
  }

  // ---------- opened or blocked ----------

  /** One attempt, opened or blocked, in one of its reachable states. */
  predicate AttemptInv(c: Pair, l: Link)
    requires Offered(c)
  {
    if Opens(c) then Inv(c, l) else BlockedInv(c, l)
  }

  lemma AttemptStart(c: Pair)
    requires Offered(c)
    ensures AttemptInv(c, Start(c))
  {
    if Opens(c) { InvStart(c); } else { BlockedStart(c); }
  }

  lemma AttemptStep(c: Pair, l: Link, e: Event)
    requires Offered(c) && AttemptInv(c, l) && Enabled(c, l, e)
    ensures AttemptInv(c, Apply(c, l, e))
  {
    hide Inv, BlockedInv, Enabled, Apply;
    if Opens(c) { InvStep(c, l, e); } else { BlockedStep(c, l, e); }
  }

  lemma {:induction false} AttemptRun(c: Pair, l: Link, es: seq<Event>, l2: Link)
    requires Offered(c) && AttemptInv(c, l) && Leads(c, l, es, l2)
    ensures AttemptInv(c, l2)
    decreases |es|
  {
    hide AttemptInv, Enabled, Apply;
    if es != [] {
      AttemptStep(c, l, es[0]);
      AttemptRun(c, Apply(c, l, es[0]), es[1..], l2);
    }
  }
}
