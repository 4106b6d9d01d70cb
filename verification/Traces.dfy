/** The frames that move along a run of one attempt, collected event by event, are exactly the two
    frame sequences in closed form (src/transfer/transfer.cpp:459-540, 566-716). */
module Traces {
  import opened Frames
  import opened Grid
  import opened Endpoints
  import opened Attempt
  import opened Link

  /** What one event puts on the forward and the reverse channel, and what it takes off them. */
  function Moved(c: Pair, l: Link, e: Event, kind: Event): seq<Frame>
    requires Enabled(c, l, e)
  {
    if e != kind then []
    else match e
         case SenderSends => [SenderAction(c.send, l.s).frame]
         case SenderTakes => [l.rev[0]]
         case ReceiverSends => [ReceiverAction(c.recv, l.r).frame]
         case ReceiverTakes => [l.fwd[0]]
         case _ => []
  }

  /** All frames moved by events of one kind along `es`. */
  function Along(c: Pair, l: Link, es: seq<Event>, kind: Event): seq<Frame>
    decreases |es|
  {
    if es == [] || !Enabled(c, l, es[0]) then []
    else Moved(c, l, es[0], kind) + Along(c, Apply(c, l, es[0]), es[1..], kind)
  }

  lemma MovedFwd(c: Pair, l: Link, e: Event)
    requires Agreed(c) && Inv(c, l) && Enabled(c, l, e) && Inv(c, Apply(c, l, e))
    ensures var l2 := Apply(c, l, e);
            && l.p <= l2.p && Moved(c, l, e, SenderSends) == FwdFrames(c, l.p, l2.p)
            && l.u <= l2.u && Moved(c, l, e, ReceiverTakes) == FwdFrames(c, l.u, l2.u)
  {
    hide CeilDiv, Pieces, Off, AckIdx, Due;
    SenderActs(c, l.p, l.q);
  }

  lemma MovedRev(c: Pair, l: Link, e: Event)
    requires Agreed(c) && Inv(c, l) && Enabled(c, l, e) && Inv(c, Apply(c, l, e))
    ensures var l2 := Apply(c, l, e);
            && l.v <= l2.v && Moved(c, l, e, ReceiverSends) == RevFrames(c, l.v, l2.v)
            && l.q <= l2.q && Moved(c, l, e, SenderTakes) == RevFrames(c, l.q, l2.q)
  {
    hide CeilDiv, Pieces, Off, AckIdx, Due;
    ReceiverActs(c, l.u, l.v);
  }

  lemma FwdJoin(c: Pair, i: nat, j: nat, k: nat)
    requires Agreed(c) && i <= j <= k <= N(c) + 2
    ensures FwdFrames(c, i, j) + FwdFrames(c, j, k) == FwdFrames(c, i, k)
  {
  }

  lemma RevJoin(c: Pair, i: nat, j: nat, k: nat)
    requires Agreed(c) && i <= j <= k <= J(c) + 2
    ensures RevFrames(c, i, j) + RevFrames(c, j, k) == RevFrames(c, i, k)
  {
  }

  /** The frames sent and taken along any run, losses included, are consecutive frames of the two
      sequences: nothing is skipped, repeated or reordered on either channel. */
  lemma {:induction false} AlongIsSequence(c: Pair, l: Link, es: seq<Event>, l2: Link)
    requires Agreed(c) && Inv(c, l) && Leads(c, l, es, l2)
    ensures Inv(c, l2) && l.p <= l2.p && l.q <= l2.q && l.u <= l2.u && l.v <= l2.v
    ensures Along(c, l, es, SenderSends) == FwdFrames(c, l.p, l2.p)
    ensures Along(c, l, es, ReceiverTakes) == FwdFrames(c, l.u, l2.u)
    ensures Along(c, l, es, ReceiverSends) == RevFrames(c, l.v, l2.v)
    ensures Along(c, l, es, SenderTakes) == RevFrames(c, l.q, l2.q)
    decreases |es|
  {
    hide Inv, FwdFrame, RevFrame, Enabled, Apply;
    if es != [] {
      var m := Apply(c, l, es[0]);
      InvStep(c, l, es[0]);
      MovedFwd(c, l, es[0]);
      MovedRev(c, l, es[0]);
      AlongIsSequence(c, m, es[1..], l2);
      Bounds(c, l2);
      FwdJoin(c, l.p, m.p, l2.p);
      FwdJoin(c, l.u, m.u, l2.u);
      RevJoin(c, l.v, m.v, l2.v);
      RevJoin(c, l.q, m.q, l2.q);
    } else {
      Bounds(c, l);
    }
  }

  lemma Bounds(c: Pair, l: Link)
    requires Agreed(c) && Inv(c, l)
    ensures l.u <= l.p <= N(c) + 2 && l.q <= l.v <= J(c) + 2
  {
  }

  /** The channels keep what they are given: what was on them and what is sent is what is taken and what
      is left. */
  lemma {:induction false} NothingVanishes(c: Pair, l: Link, es: seq<Event>, l2: Link)
    requires Leads(c, l, es, l2)
    ensures l.fwd + Along(c, l, es, SenderSends) == Along(c, l, es, ReceiverTakes) + l2.fwd
    ensures l.rev + Along(c, l, es, ReceiverSends) == Along(c, l, es, SenderTakes) + l2.rev
    decreases |es|
  {
    hide Enabled, Apply, Moved;
    if es != [] {
      var m, rest := Apply(c, l, es[0]), es[1..];
      OneKept(c, l, es[0]);
      NothingVanishes(c, m, rest, l2);
      Exchange(l.fwd, Moved(c, l, es[0], SenderSends), Moved(c, l, es[0], ReceiverTakes), m.fwd,
               Along(c, m, rest, SenderSends), Along(c, m, rest, ReceiverTakes), l2.fwd);
      Exchange(l.rev, Moved(c, l, es[0], ReceiverSends), Moved(c, l, es[0], SenderTakes), m.rev,
               Along(c, m, rest, ReceiverSends), Along(c, m, rest, SenderTakes), l2.rev);
    }
  }

  lemma OneKept(c: Pair, l: Link, e: Event)
    requires Enabled(c, l, e)
    ensures var l2 := Apply(c, l, e);
            && l.fwd + Moved(c, l, e, SenderSends) == Moved(c, l, e, ReceiverTakes) + l2.fwd
            && l.rev + Moved(c, l, e, ReceiverSends) == Moved(c, l, e, SenderTakes) + l2.rev
  {
  }

  lemma Exchange(a: seq<Frame>, x: seq<Frame>, y: seq<Frame>, b: seq<Frame>, s: seq<Frame>, t: seq<Frame>,
      d: seq<Frame>)
    requires a + x == y + b && b + s == t + d
    ensures a + (x + s) == y + t + d
  {
    assert a + (x + s) == (a + x) + s == y + (b + s) == y + (t + d);
  }
}
