/** The byte level of an attempt: every frame survives its encoding, and the two endpoints, each fed
    the payloads the other produces, reproduce exactly those payloads
    (src/transfer/transfer.cpp:459-540, 566-716). */
module Wire {
  import opened Errors
  import opened Frames
  import opened Grid
  import opened Endpoints
  import opened Attempt
  import opened Link
  import opened Traces
  import opened LinkRuns
  import opened Blocked
  import opened Transfer

  lemma FwdSurvives(c: Pair, i: nat)
    requires Agreed(c) && i < N(c) + 2
    ensures Decode(Payload(FwdFrame(c, i))) == Ok(FwdFrame(c, i))
  {
    DecodeEncode(FwdFrame(c, i));
  }

  lemma RevSurvives(c: Pair, j: nat)
    requires Agreed(c) && j < J(c) + 2
    ensures Decode(Payload(RevFrame(c, j))) == Ok(RevFrame(c, j))
  {
    DecodeEncode(RevFrame(c, j));
  }

  lemma SenderReady(c: Pair, p: nat, q: nat)
    requires Agreed(c) && !Starved(c) && SenderFits(c, p, q) && p > 0 && 0 < q <= J(c) && !MaySend(c, p, q)
    ensures Acked(c, q) <= p - 1
  {
    AckIdxEnd(N(c), c.recv.ackEvery, q);
    AckIdxEnd(N(c), c.recv.ackEvery, q - 1);
    assert q * c.recv.ackEvery == (q - 1) * c.recv.ackEvery + c.recv.ackEvery;
  }

  lemma SenderSendsNext(c: Pair, p: nat, q: nat, s: Script)
    requires Agreed(c) && SenderFits(c, p, q) && q < J(c) + 2 && MaySend(c, p, q) && s.credits > 0
    ensures p < N(c) + 2 && SenderFits(c, p + 1, q)
    ensures var rest := RunSender(c.send, SenderAt(c, p + 1, q), s.(credits := s.credits - 1));
            RunSender(c.send, SenderAt(c, p, q), s) == rest.(out := [FwdFrame(c, p)] + rest.out)
  {
    SenderActs(c, p, q);
  }

  lemma SenderTakesNext(c: Pair, p: nat, q: nat, s: Script)
    requires Agreed(c) && !Starved(c) && SenderFits(c, p, q) && q < J(c) + 2 && !MaySend(c, p, q)
    requires s.inbox != [] && s.inbox[0] == Payload(RevFrame(c, q))
    ensures SenderFits(c, p, q + 1)
    ensures RunSender(c.send, SenderAt(c, p, q), s)
        == RunSender(c.send, SenderAt(c, p, q + 1), s.(inbox := s.inbox[1..]))
  {
    if 0 < q <= J(c) { SenderReady(c, p, q); }
    SenderActs(c, p, q);
    SenderOnRev(c, p, q);
    RevSurvives(c, q);
  }

  lemma RevTail(c: Pair, q: nat)
    requires Agreed(c) && q < J(c) + 2
    ensures var all := Payloads(RevFrames(c, q, J(c) + 2));
            all != [] && all[0] == Payload(RevFrame(c, q)) && all[1..] == Payloads(RevFrames(c, q + 1, J(c) + 2))
    ensures RevFrames(c, q, J(c) + 2) == [RevFrame(c, q)] + RevFrames(c, q + 1, J(c) + 2)
  {
    hide FwdFrame, RevFrame, Payload;
  }

  lemma FwdTail(c: Pair, p: nat)
    requires Agreed(c) && p < N(c) + 2
    ensures var all := Payloads(FwdFrames(c, p, N(c) + 2));
            all != [] && all[0] == Payload(FwdFrame(c, p)) && all[1..] == Payloads(FwdFrames(c, p + 1, N(c) + 2))
    ensures FwdFrames(c, p, N(c) + 2) == [FwdFrame(c, p)] + FwdFrames(c, p + 1, N(c) + 2)
  {
    hide FwdFrame, RevFrame, Payload;
  }

  /** The rest of the sender's side of the attempt after `p` frames. */
  function SenderRest(c: Pair, p: nat): Run<Sender>
    requires Agreed(c) && p <= N(c) + 2
  {
    Run(SenderAt(c, N(c) + 2, J(c) + 2), FwdFrames(c, p, N(c) + 2), FinalOutcome(c))
  }

  lemma SenderRestStep(c: Pair, p: nat)
    requires Agreed(c) && p < N(c) + 2
    ensures var rest := SenderRest(c, p + 1); SenderRest(c, p) == rest.(out := [FwdFrame(c, p)] + rest.out)
  {
    FwdTail(c, p);
  }

  lemma SenderEnds(c: Pair, s: Script)
    requires Agreed(c)
    ensures RunSender(c.send, SenderAt(c, N(c) + 2, J(c) + 2), s) == SenderRest(c, N(c) + 2)
  {
  }

  /** Fed the receiver's frames, the sender sends its whole sequence and returns the verdict. */
  lemma {:induction false} SenderReplays(c: Pair, p: nat, q: nat, s: Script)
    requires Agreed(c) && !Starved(c) && SenderFits(c, p, q)
    requires s.inbox == Payloads(RevFrames(c, q, J(c) + 2)) && s.credits >= N(c) + 2 - p
    ensures RunSender(c.send, SenderAt(c, p, q), s) == SenderRest(c, p)
    decreases |s.inbox| + s.credits
  {
    hide RunSender, SenderAt;
    if q == J(c) + 2 {
      SenderEnds(c, s);
    } else if MaySend(c, p, q) {
      SenderSendsNext(c, p, q, s);
      SenderReplays(c, p + 1, q, s.(credits := s.credits - 1));
      SenderRestStep(c, p);
    } else {
      RevTail(c, q);
      SenderTakesNext(c, p, q, s);
      SenderReplays(c, p, q + 1, s.(inbox := s.inbox[1..]));
    }
  }

  lemma ReceiverSendsNext(c: Pair, u: nat, v: nat, s: Script)
    requires Agreed(c) && ReceiverFits(c, u, v) && v < Replies(c, u) && s.credits > 0
    ensures v < J(c) + 2 && ReceiverFits(c, u, v + 1)
    ensures var rest := RunReceiver(c.recv, ReceiverAt(c, u, v + 1), s.(credits := s.credits - 1));
            RunReceiver(c.recv, ReceiverAt(c, u, v), s) == rest.(out := [RevFrame(c, v)] + rest.out)
  {
    RepliesBounded(c, u);
    ReceiverActs(c, u, v);
  }

  lemma ReceiverTakesNext(c: Pair, u: nat, v: nat, s: Script)
    requires Agreed(c) && u < N(c) + 2 && ReceiverFits(c, u, v) && v == Replies(c, u)
    requires s.inbox != [] && s.inbox[0] == Payload(FwdFrame(c, u))
    ensures ReceiverFits(c, u + 1, v)
    ensures RunReceiver(c.recv, ReceiverAt(c, u, v), s)
         == RunReceiver(c.recv, ReceiverAt(c, u + 1, v), s.(inbox := s.inbox[1..]))
  {
    ReceiverActs(c, u, v);
    ReceiverOnFwd(c, u);
    FwdSurvives(c, u);
  }

  /** The rest of the receiver's side after `v` frames sent. */
  function ReceiverRest(c: Pair, v: nat): Run<Receiver>
    requires Agreed(c) && v <= J(c) + 2
  {
    Run(ReceiverAt(c, N(c) + 2, J(c) + 2), RevFrames(c, v, J(c) + 2), FinalOutcome(c))
  }

  lemma ReceiverRestStep(c: Pair, v: nat)
    requires Agreed(c) && v < J(c) + 2
    ensures var rest := ReceiverRest(c, v + 1); ReceiverRest(c, v) == rest.(out := [RevFrame(c, v)] + rest.out)
  {
    RevTail(c, v);
  }

  lemma ReceiverEnds(c: Pair, s: Script)
    requires Agreed(c)
    ensures RunReceiver(c.recv, ReceiverAt(c, N(c) + 2, J(c) + 2), s) == ReceiverRest(c, J(c) + 2)
  {
  }

  /** Fed the sender's frames, the receiver sends its whole sequence and returns the verdict. */
  lemma {:induction false} ReceiverReplays(c: Pair, u: nat, v: nat, s: Script)
    requires Agreed(c) && ReceiverFits(c, u, v) && v <= J(c) + 2
    requires s.inbox == Payloads(FwdFrames(c, u, N(c) + 2)) && s.credits >= J(c) + 2 - v
    ensures RunReceiver(c.recv, ReceiverAt(c, u, v), s) == ReceiverRest(c, v)
    decreases |s.inbox| + s.credits
  {
    hide RunReceiver, ReceiverAt;
    RepliesBounded(c, u);
    if v < Replies(c, u) {
      ReceiverSendsNext(c, u, v, s);
      ReceiverReplays(c, u, v + 1, s.(credits := s.credits - 1));
      ReceiverRestStep(c, v);
    } else if u < N(c) + 2 {
      assert v == Replies(c, u);
      FwdTail(c, u);
      ReceiverTakesNext(c, u, v, s);
      ReceiverReplays(c, u + 1, v, s.(inbox := s.inbox[1..]));
    } else {
      assert u == N(c) + 2 && v == J(c) + 2;
      ReceiverEnds(c, s);
    }
  }

  /** The two methods meet: send_once fed the payloads of receive_once produces exactly the payloads
      receive_once was fed, and the other way round; both return the same verdict. */
  lemma MethodsMeet(c: Pair, e1: ConnErr, e2: ConnErr, k1: nat, k2: nat, m1: int, m2: int)
    requires Agreed(c) && !Starved(c) && k1 >= N(c) + 2 && k2 >= J(c) + 2
    ensures var fwd, rev := Payloads(FwdFrames(c, 0, N(c) + 2)), Payloads(RevFrames(c, 0, J(c) + 2));
            var a := RunSender(c.send, SENDER_START, Script(rev, k1, e1, m1));
            var b := RunReceiver(c.recv, ReceiverStart(c.recv, c.dev), Script(fwd, k2, e2, m2));
            && Payloads(a.out) == fwd && Payloads(b.out) == rev
            && a.res == b.res == FinalOutcome(c)
            && b.end.dev == DevAt(c, N(c)) && b.end.written == Size(c)
  {
    var fwd, rev := Payloads(FwdFrames(c, 0, N(c) + 2)), Payloads(RevFrames(c, 0, J(c) + 2));
    AtZero(c);
    assert SenderAt(c, 0, 0) == SENDER_START && ReceiverAt(c, 0, 0) == ReceiverStart(c.recv, c.dev);
    SenderReplays(c, 0, 0, Script(rev, k1, e1, m1));
    ReceiverReplays(c, 0, 0, Script(fwd, k2, e2, m2));
    OffBelow(c.recv.resume, Size(c), c.send.chunk, N(c));
  }

  // ---------- runs that are cut ----------

  /** The frame at the head of a channel survives its encoding. */
  lemma RevHead(c: Pair, l: Link)
    requires Agreed(c) && Inv(c, l) && l.rev != []
    ensures Decode(Payload(l.rev[0])) == Ok(l.rev[0])
  {
    hide Decode, FwdFrame, RevFrame;
    RevSurvives(c, l.q);
  }

  lemma FwdHead(c: Pair, l: Link)
    requires Agreed(c) && Inv(c, l) && l.fwd != []
    ensures Decode(Payload(l.fwd[0])) == Ok(l.fwd[0])
  {
    hide Decode, FwdFrame, RevFrame;
    FwdSurvives(c, l.u);
  }

  lemma HeadsSurvive(c: Pair, l: Link)
    requires Offered(c) && AttemptInv(c, l)
    ensures Enabled(c, l, SenderTakes) ==> Decode(Payload(l.rev[0])) == Ok(l.rev[0])
    ensures Enabled(c, l, ReceiverTakes) ==> Decode(Payload(l.fwd[0])) == Ok(l.fwd[0])
  {
    hide Inv, Decode, Encode, Payload;
    if Opens(c) {
      if l.rev != [] { RevHead(c, l); }
      if l.fwd != [] { FwdHead(c, l); }
    } else {
      if Enabled(c, l, SenderTakes) { RefusalSurvives(c, l.q); }
      if Enabled(c, l, ReceiverTakes) { OfferSurvives(c, l); }
    }
  }

  lemma RefusalSurvives(c: Pair, i: nat)
    requires Offered(c) && i < 2
    ensures Decode(Payload(Refusal(c)[i])) == Ok(Refusal(c)[i])
  {
    DecodeEncode(Refusal(c)[i]);
  }

  lemma OfferSurvives(c: Pair, l: Link)
    requires Offered(c) && !Opens(c) && BlockedInv(c, l) && Enabled(c, l, ReceiverTakes)
    ensures Decode(Payload(l.fwd[0])) == Ok(l.fwd[0])
  {
    PrepareBlocked(c);
    DecodeEncode(Offer(c.send.meta));
  }

  /** The script of a connection that delivers `inbox` and takes `n` sends. */
  function Only(inbox: seq<Frame>, n: nat, e: ConnErr, limit: int): Script {
    Script(Payloads(inbox), n, e, limit)
  }

  /** `run` is what the endpoint did on its way to `end`, with the result it has returned, if any. */
  ghost predicate Matches<S>(run: Run<S>, end: S, sent: seq<Frame>, res: Option<Outcome>) {
    run.end == end && run.out == sent && (res.Some? ==> run.res == res.value)
  }

  /** A receiver about to refuse ends the same way whether or not its refusal goes out. */
  function Settled(r: Receiver): Receiver {
    if r.pc.Refusing? then r.(pc := ReceiverDone(Failure(r.pc.error))) else r
  }

  lemma SenderRests(c: Pair, l: Link, e: ConnErr, limit: int)
    requires Offered(c) && AttemptInv(c, l) && (l.sLost.Some? ==> e == l.sLost.value)
    ensures Matches(RunSender(c.send, l.s, Only([], 0, e, limit)), l.s, [], SenderResult(l))
  {
    if Opens(c) { SenderActs(c, l.p, l.q); }
  }

  lemma PayloadsFirst(f: Frame, fs: seq<Frame>)
    ensures Payloads([f] + fs) == [Payload(f)] + Payloads(fs)
  {
  }

  lemma SenderHears(c: SendCfg, s: Sender, p: Script, f: Frame)
    requires SenderAction(c, s).Await? && p.inbox != [] && Decode(p.inbox[0]) == Ok(f)
    ensures RunSender(c, s, p) == RunSender(c, SenderOnFrame(c, s, f), p.(inbox := p.inbox[1..]))
  {
  }

  lemma ReceiverHears(c: RecvCfg, r: Receiver, p: Script, f: Frame)
    requires ReceiverAction(c, r).Await? && p.inbox != [] && Decode(p.inbox[0]) == Ok(f)
    ensures RunReceiver(c, r, p) == RunReceiver(c, ReceiverOnFrame(c, r, f), p.(inbox := p.inbox[1..]))
  {
  }

  lemma ReceiverEmits(c: RecvCfg, r: Receiver, p: Script)
    requires var a := ReceiverAction(c, r); (a.Emit? || a.EmitLast?) && p.credits > 0
    ensures var a := ReceiverAction(c, r);
            RunReceiver(c, r, p) == After([a.frame], RunReceiver(c, Sent(a), p.(credits := p.credits - 1)))
  {
  }

  lemma ReceiverDropped(c: RecvCfg, r: Receiver, p: Script)
    requires ReceiverAction(c, r).EmitLast? && p.credits == 0
    ensures RunReceiver(c, r, p) == RunReceiver(c, ReceiverAction(c, r).end, p)
  {
  }

  lemma SenderFollows(c: Pair, l: Link, ev: Event, inbox: seq<Frame>, n: nat, e: ConnErr, limit: int)
    requires Offered(c) && AttemptInv(c, l) && Enabled(c, l, ev)
    ensures var taken, sent := Moved(c, l, ev, SenderTakes), Moved(c, l, ev, SenderSends);
            RunSender(c.send, l.s, Only(taken + inbox, |sent| + n, e, limit))
            == After(sent, RunSender(c.send, Apply(c, l, ev).s, Only(inbox, n, e, limit)))
  {
    hide RunSender, Payloads, Decode, AttemptInv;
    var p := Only(Moved(c, l, ev, SenderTakes) + inbox, |Moved(c, l, ev, SenderSends)| + n, e, limit);
    assert [] + inbox == inbox;
    if ev.SenderTakes? {
      HeadsSurvive(c, l);
      PayloadsFirst(l.rev[0], inbox);
      SenderHears(c.send, l.s, p, l.rev[0]);
    } else if ev.SenderSends? {
      SenderEmits(c.send, l.s, p, SenderAction(c.send, l.s).frame, Apply(c, l, ev).s);
    }
  }

  /** send_once in a run that may be cut anywhere: fed exactly the payloads the sender took, over a
      connection that took exactly the frames it sent, it stands where the sender of the run stands,
      has sent the same frames, and has returned the same result. */
  lemma {:induction false} SenderProjects(c: Pair, l: Link, es: seq<Event>, l2: Link, e: ConnErr, limit: int)
    requires Offered(c) && AttemptInv(c, l) && Leads(c, l, es, l2) && (l2.sLost.Some? ==> e == l2.sLost.value)
    ensures var sent := Along(c, l, es, SenderSends);
            Matches(RunSender(c.send, l.s, Only(Along(c, l, es, SenderTakes), |sent|, e, limit)),
                    l2.s, sent, SenderResult(l2))
    decreases |es|
  {
    hide AttemptInv, Enabled, Apply, RunSender, Only, Moved;
    if es == [] {
      SenderRests(c, l, e, limit);
    } else {
      var m, rest := Apply(c, l, es[0]), es[1..];
      AttemptStep(c, l, es[0]);
      SenderProjects(c, m, rest, l2, e, limit);
      SenderFollows(c, l, es[0], Along(c, m, rest, SenderTakes), |Along(c, m, rest, SenderSends)|, e, limit);
    }
  }

  lemma ReceiverRests(c: Pair, l: Link, e: ConnErr, limit: int)
    requires Offered(c) && AttemptInv(c, l) && (l.rLost.Some? ==> e == l.rLost.value)
    ensures Matches(RunReceiver(c.recv, l.r, Only([], 0, e, limit)), Settled(l.r), [], ReceiverResult(l))
  {
    if Opens(c) {
      RepliesBounded(c, l.u);
      ReceiverActs(c, l.u, l.v);
    } else {
      PrepareBlocked(c);
    }
  }

  lemma ReceiverFollows(c: Pair, l: Link, ev: Event, inbox: seq<Frame>, n: nat, e: ConnErr, limit: int)
    requires Offered(c) && AttemptInv(c, l) && Enabled(c, l, ev) && (ev.ReceiverDrops? ==> n == 0)
    ensures var taken, sent := Moved(c, l, ev, ReceiverTakes), Moved(c, l, ev, ReceiverSends);
            RunReceiver(c.recv, l.r, Only(taken + inbox, |sent| + n, e, limit))
            == After(sent, RunReceiver(c.recv, Apply(c, l, ev).r, Only(inbox, n, e, limit)))
  {
    hide RunReceiver, Payloads, Decode, AttemptInv;
    var p := Only(Moved(c, l, ev, ReceiverTakes) + inbox, |Moved(c, l, ev, ReceiverSends)| + n, e, limit);
    assert [] + inbox == inbox;
    if ev.ReceiverTakes? {
      HeadsSurvive(c, l);
      PayloadsFirst(l.fwd[0], inbox);
      ReceiverHears(c.recv, l.r, p, l.fwd[0]);
    } else if ev.ReceiverSends? {
      ReceiverEmits(c.recv, l.r, p);
    } else if ev.ReceiverDrops? {
      ReceiverDropped(c.recv, l.r, p);
    }
  }

  /** A receiver that has returned sends nothing more. */
  lemma {:induction false} DoneIsSilent(c: Pair, l: Link, es: seq<Event>)
    requires l.r.pc.ReceiverDone?
    ensures Along(c, l, es, ReceiverSends) == []
    decreases |es|
  {
    if es != [] && Enabled(c, l, es[0]) {
      DoneIsSilent(c, Apply(c, l, es[0]), es[1..]);
    }
  }

  /** The same for receive_once: written_out, destination, reports, replies and result. */
  lemma {:induction false} ReceiverProjects(c: Pair, l: Link, es: seq<Event>, l2: Link, e: ConnErr, limit: int)
    requires Offered(c) && AttemptInv(c, l) && Leads(c, l, es, l2) && (l2.rLost.Some? ==> e == l2.rLost.value)
    ensures var sent := Along(c, l, es, ReceiverSends);
            Matches(RunReceiver(c.recv, l.r, Only(Along(c, l, es, ReceiverTakes), |sent|, e, limit)),
                    Settled(l2.r), sent, ReceiverResult(l2))
    decreases |es|
  {
    hide AttemptInv, Enabled, Apply, RunReceiver, Only, Moved, Settled;
    if es == [] {
      ReceiverRests(c, l, e, limit);
    } else {
      var m, rest := Apply(c, l, es[0]), es[1..];
      AttemptStep(c, l, es[0]);
      ReceiverProjects(c, m, rest, l2, e, limit);
      if es[0].ReceiverDrops? { DropIsSilent(c, l, rest); }
      ReceiverFollows(c, l, es[0], Along(c, m, rest, ReceiverTakes), |Along(c, m, rest, ReceiverSends)|, e, limit);
    }
  }

  lemma DropIsSilent(c: Pair, l: Link, rest: seq<Event>)
    requires Enabled(c, l, ReceiverDrops)
    ensures Along(c, Apply(c, l, ReceiverDrops), rest, ReceiverSends) == []
  {
    DoneIsSilent(c, Apply(c, l, ReceiverDrops), rest);
  }

  /** Every reachable state of an attempt, whatever was lost and whether or not the destination opens, is
      what the two loops compute when each is fed what the other sent and has arrived. */
  lemma CutRunsAreLoops(c: Pair, es: seq<Event>, l: Link, e1: ConnErr, e2: ConnErr, m1: int, m2: int)
    requires Offered(c) && Leads(c, Start(c), es, l)
    requires (l.sLost.Some? ==> e1 == l.sLost.value) && (l.rLost.Some? ==> e2 == l.rLost.value)
    ensures var fwd, fwdTaken := Along(c, Start(c), es, SenderSends), Along(c, Start(c), es, ReceiverTakes);
            var rev, revTaken := Along(c, Start(c), es, ReceiverSends), Along(c, Start(c), es, SenderTakes);
            && fwd == fwdTaken + l.fwd && rev == revTaken + l.rev
            && Matches(RunSender(c.send, SENDER_START, Only(revTaken, |fwd|, e1, m1)), l.s, fwd, SenderResult(l))
            && Matches(RunReceiver(c.recv, ReceiverStart(c.recv, c.dev), Only(fwdTaken, |rev|, e2, m2)),
                       Settled(l.r), rev, ReceiverResult(l))
  {
    hide AttemptInv, Enabled, Apply, RunSender, RunReceiver, Leads, Along, Settled;
    AttemptStart(c);
    NothingVanishes(c, Start(c), es, l);
    SenderProjects(c, Start(c), es, l, e1, m1);
    ReceiverProjects(c, Start(c), es, l, e2, m2);
    assert forall fs: seq<Frame> :: [] + fs == fs;
  }
}
