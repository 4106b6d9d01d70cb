/** Whole runs of one attempt: exact cost, the exact deadlock condition, and the verdict. */
module LinkRuns {
  import opened Bytes
  import opened Errors
  import opened Frames
  import opened Storage
  import opened Grid
  import opened Endpoints
  import opened Attempt
  import opened Link

  function Progress(l: Link): nat { l.p + l.q + l.u + l.v }

  /** N chunks, J acknowledgements and four control frames, each sent once and taken once. */
  function Total(c: Pair): nat
    requires Agreed(c)
  {
    2 * (N(c) + J(c) + 4)
  }

  /** The window fills before the first acknowledgement falls due. */
  predicate Starved(c: Pair)
    requires Agreed(c)
  {
    c.send.window < c.recv.ackEvery && c.send.window < N(c)
  }

  /** Neither endpoint can move. */
  predicate Stuck(c: Pair, l: Link) {
    && !Enabled(c, l, SenderSends) && !Enabled(c, l, SenderTakes)
    && !Enabled(c, l, ReceiverSends) && !Enabled(c, l, ReceiverTakes)
  }

  predicate Whole(l: Link) { l.sLost == None && l.rLost == None }

  /** In a loss-free run every event moves exactly one frame on or off a channel. */
  lemma {:induction false} EveryEventCounts(c: Pair, l: Link, es: seq<Event>, l2: Link)
    requires Agreed(c) && Inv(c, l) && Whole(l) && Leads(c, l, es, l2) && LossFree(es)
    ensures Inv(c, l2) && Whole(l2)
    ensures Progress(l2) == Progress(l) + |es| <= Total(c)
    decreases |es|
  {
    hide CeilDiv, Pieces, Off, AckIdx, Due;
    if es == [] {
      ProgressBounded(c, l);
    } else {
      InvStep(c, l, es[0]);
      OneStep(c, l, es[0]);
      assert LossFree(es[1..]);
      EveryEventCounts(c, Apply(c, l, es[0]), es[1..], l2);
    }
  }

  lemma ProgressBounded(c: Pair, l: Link)
    requires Agreed(c) && Inv(c, l)
    ensures Progress(l) <= Total(c)
  {
  }

  lemma OneStep(c: Pair, l: Link, e: Event)
    requires Whole(l) && Enabled(c, l, e) && !Lossy(e)
    ensures Whole(Apply(c, l, e)) && Progress(Apply(c, l, e)) == Progress(l) + 1
  {
  }

  lemma StuckCounters(c: Pair, l: Link)
    requires Agreed(c) && Inv(c, l) && Whole(l) && Stuck(c, l)
    ensures l.fwd == [] && l.rev == [] && SenderFits(c, l.p, l.q)
    ensures l.u == l.p && l.q == l.v && l.v == Replies(c, l.u)
    ensures l.q == J(c) + 2 || !MaySend(c, l.p, l.q)
  {
    hide CeilDiv, Pieces, Off, AckIdx, Due;
    SenderActs(c, l.p, l.q);
    ReceiverActs(c, l.u, l.v);
  }

  /** A stuck state is the end of the transfer or a full window waiting for an ack that is not due. */
  lemma StuckShape(c: Pair, p: nat, q: nat)
    requires Agreed(c) && SenderFits(c, p, q) && q == Replies(c, p)
    requires q == J(c) + 2 || !MaySend(c, p, q)
    ensures (p == N(c) + 2 && q == J(c) + 2)
         || (Starved(c) && 0 < p <= N(c) && p - 1 == Acked(c, q - 1) + c.send.window)
  {
    hide CeilDiv, Pieces, Off, AckIdx, Due;
    RepliesBounded(c, p);
    DueZero(N(c), c.recv.ackEvery);
    if 0 < p <= N(c) + 1 {
      DueEnd(N(c), c.recv.ackEvery, p - 1);
    }
  }

  /** When the window starves, no acknowledgement is ever sent. */
  predicate Starving(c: Pair, l: Link) {
    l.p <= c.send.window + 1 && l.v <= 1
  }

  lemma StarvingStep(c: Pair, l: Link, e: Event)
    requires Agreed(c) && Starved(c) && Inv(c, l) && Starving(c, l) && Enabled(c, l, e)
    ensures Starving(c, Apply(c, l, e))
  {
    hide CeilDiv, Pieces, Off, AckIdx, Due;
    DueZero(N(c), c.recv.ackEvery);
    SenderActs(c, l.p, l.q);
    ReceiverActs(c, l.u, l.v);
    if 0 < l.u { DueBelow(N(c), c.recv.ackEvery, l.u - 1); NoneDue(c, l.u - 1); }
  }

  lemma NoneDue(c: Pair, k: nat)
    requires Agreed(c) && k < N(c) && k < c.recv.ackEvery
    ensures Owed(c, k) == 0
  {
    hide CeilDiv, Pieces, Off, AckIdx, Due;
    var d := Owed(c, k);
    DueBelow(N(c), c.recv.ackEvery, k);
    if d > 0 { MulMono(1, d, c.recv.ackEvery); }
  }

  lemma {:induction false} StarvingRun(c: Pair, l: Link, es: seq<Event>, l2: Link)
    requires Agreed(c) && Starved(c) && Inv(c, l) && Starving(c, l) && Leads(c, l, es, l2)
    ensures Starving(c, l2)
    decreases |es|
  {
    hide CeilDiv, Pieces, Off, AckIdx, Due;
    if es != [] {
      InvStep(c, l, es[0]);
      StarvingStep(c, l, es[0]);
      StarvingRun(c, Apply(c, l, es[0]), es[1..], l2);
    }
  }

  /** Every maximal loss-free run: if the window does not starve it completes in exactly Total steps
      with both sides giving the same verdict; otherwise it deadlocks after `window` chunks, with
      nothing acknowledged. */
  lemma MaximalRun(c: Pair, es: seq<Event>, l: Link)
    requires Agreed(c) && Leads(c, Start(c), es, l) && LossFree(es) && Stuck(c, l)
    ensures l.fwd == [] && l.rev == []
    ensures !Starved(c) ==>
              && |es| == Total(c) && l.p == l.u == N(c) + 2 && l.q == l.v == J(c) + 2
              && l.s.pc == SenderDone(FinalOutcome(c)) && l.r.pc == ReceiverDone(FinalOutcome(c))
    ensures Starved(c) ==>
              && |es| == 2 * (c.send.window + 2) && l.p == l.u == c.send.window + 1 && l.q == l.v == 1
              && l.s.pc == Sending(c.recv.resume, At(c, c.send.window))
              && l.r.pc.Receiving? && l.r.written == At(c, c.send.window)
  {
    hide CeilDiv, Pieces, Off, AckIdx, Due, Inv, Leads, Stuck, SenderFits;
    InvStart(c);
    EveryEventCounts(c, Start(c), es, l);
    StuckCounters(c, l);
    StuckShape(c, l.p, l.q);
    if Starved(c) {
      StarvingRun(c, Start(c), es, l);
      AtZero(c);
      StarvedEnd(c, l);
    } else {
      FinishedEnd(c, l);
    }
  }

  lemma FinishedEnd(c: Pair, l: Link)
    requires Agreed(c) && Inv(c, l) && l.p == l.u == N(c) + 2 && l.q == l.v == J(c) + 2
    ensures l.s.pc == SenderDone(FinalOutcome(c)) && l.r.pc == ReceiverDone(FinalOutcome(c))
    ensures Progress(l) == Total(c)
  {
    hide CeilDiv, Pieces, Off, AckIdx, Due;
  }

  lemma StarvedEnd(c: Pair, l: Link)
    requires Agreed(c) && Starved(c) && Inv(c, l) && Starving(c, l)
    requires l.u == l.p && l.q == l.v && l.v == Replies(c, l.u)
    requires (l.p == N(c) + 2 && l.q == J(c) + 2) || (0 < l.p <= N(c) && l.p - 1 == Acked(c, l.q - 1) + c.send.window)
    ensures l.p == c.send.window + 1 && l.q == 1
    ensures l.s.pc == Sending(At(c, 0), At(c, c.send.window))
    ensures l.r.pc.Receiving? && l.r.written == At(c, c.send.window)
  {
    hide CeilDiv, Pieces, Off, AckIdx, Due;
    DueZero(N(c), c.recv.ackEvery);
  }

  /** From every loss-free state the run can be continued to its end, so both outcomes above occur. */
  lemma {:induction false} RunToTheEnd(c: Pair, l: Link) returns (es: seq<Event>, l2: Link)
    requires Agreed(c) && Inv(c, l) && Whole(l)
    ensures Leads(c, l, es, l2) && LossFree(es) && Stuck(c, l2)
    decreases Total(c) - Progress(l)
  {
    hide CeilDiv, Pieces, Off, AckIdx, Due;
    if Stuck(c, l) {
      return [], l;
    }
    var e := if Enabled(c, l, SenderSends) then SenderSends
             else if Enabled(c, l, SenderTakes) then SenderTakes
             else if Enabled(c, l, ReceiverSends) then ReceiverSends else ReceiverTakes;
    InvStep(c, l, e);
    var rest;
    rest, l2 := RunToTheEnd(c, Apply(c, l, e));
    es := [e] + rest;
    assert es[1..] == rest;
  }

  lemma SomeRun(c: Pair) returns (es: seq<Event>, l: Link)
    requires Agreed(c) && !Starved(c)
    ensures Leads(c, Start(c), es, l) && LossFree(es)
    ensures l.s.pc == SenderDone(FinalOutcome(c)) && l.r.pc == ReceiverDone(FinalOutcome(c))
  {
    hide CeilDiv, Pieces, Off, AckIdx, Due, Inv, Leads, Stuck;
    InvStart(c);
    es, l := RunToTheEnd(c, Start(c));
    MaximalRun(c, es, l);
  }

  /** Exact deadlock condition: a state where neither side can move and the transfer is not over is
      reachable without loss if and only if ack_every and the number of chunks exceed the window. */
  lemma DeadlockIff(c: Pair)
    requires Agreed(c)
    ensures (exists es, l :: Leads(c, Start(c), es, l) && LossFree(es) && Stuck(c, l)
                             && !(l.s.pc.SenderDone? && l.r.pc.ReceiverDone?))
       <==> (c.recv.ackEvery > c.send.window && N(c) > c.send.window)
  {
    hide CeilDiv, Pieces, Off, AckIdx, Due;
    InvStart(c);
    var es0, l0 := RunToTheEnd(c, Start(c));
    MaximalRun(c, es0, l0);
    forall es, l | Leads(c, Start(c), es, l) && LossFree(es) && Stuck(c, l)
      ensures Starved(c) || (l.s.pc.SenderDone? && l.r.pc.ReceiverDone?)
    {
      MaximalRun(c, es, l);
    }
  }

  // ---------- the verdict ----------

  /** Everything is there already and cannot be read back. */
  predicate Unreadable(c: Pair) { c.recv.resume == Size(c) && !c.dev.readable }

  /** The receiver's digest is the hash of what now lies in the destination, except that a complete
      destination that cannot be read back has the all-zero digest. So the verdict is good if and only
      if no hash was offered, or the content could be read and hashes to the offered value. */
  lemma DigestIsContent(c: Pair)
    requires Agreed(c)
    ensures !Unreadable(c) ==> c.recv.resume <= |c.dev.data| && Size(c) <= |DevAt(c, N(c)).data|
    ensures Digest(c) == if Unreadable(c) then ZERO_HASH else c.recv.sha(DevAt(c, N(c)).data[..Size(c)])
    ensures Verdict(c) <==> || IsZeroHash(c.send.meta.hash)
                            || (!Unreadable(c) && c.recv.sha(DevAt(c, N(c)).data[..Size(c)]) == c.send.meta.hash)
  {
    hide CeilDiv, Pieces, Off, AckIdx, Due;
    if !Unreadable(c) { FedIsContent(c); }
  }

  lemma FedIsContent(c: Pair)
    requires Agreed(c) && !Unreadable(c)
    ensures c.recv.resume <= |c.dev.data| && Size(c) <= |DevAt(c, N(c)).data|
    ensures FedAt(c, N(c)) == DevAt(c, N(c)).data[..Size(c)]
  {
    hide CeilDiv, Pieces, Off, AckIdx, Due;
    var r, src, data := c.recv.resume, c.send.src, DevAt(c, N(c)).data;
    OffBelow(r, Size(c), c.send.chunk, N(c));
    OffBelow(r, Size(c), c.send.chunk, 0);
    AtZero(c);
    if N(c) > 0 {
      assert data[..Size(c)] == data[..r] + data[r..Size(c)];
    } else {
      assert src[r..Size(c)] == [];
      assert data[..Size(c)] == c.dev.data[..r];
    }
  }

  /** With a good prefix and the hash of what is offered, the verdict is good if and only if the
      destination is not both complete and unreadable. */
  lemma GoodPrefixSucceeds(c: Pair)
    requires Agreed(c) && c.send.meta.hash == c.recv.sha(c.send.src[..Size(c)])
    requires !Unreadable(c)
        ==> c.recv.resume <= |c.dev.data| && c.dev.data[..c.recv.resume] == c.send.src[..c.recv.resume]
    ensures Verdict(c) <==> IsZeroHash(c.send.meta.hash) || !Unreadable(c)
    ensures !Unreadable(c) ==> FedAt(c, N(c)) == c.send.src[..Size(c)]
  {
    hide CeilDiv, Pieces, Off, AckIdx, Due;
    var r, src := c.recv.resume, c.send.src;
    OffBelow(r, Size(c), c.send.chunk, N(c));
    assert src[..Size(c)] == src[..r] + src[r..Size(c)];
    if !Unreadable(c) { assert FedAt(c, N(c)) == src[..Size(c)]; }
  }

  lemma UnreadableFails(c: Pair)
    requires Offered(c) && Unreadable(c) && !IsZeroHash(c.send.meta.hash)
    ensures Agreed(c) && !Starved(c) && FinalOutcome(c) == Failure(HashMismatch)
  {
    CeilDivUnique(0, c.send.chunk, 0);
  }

  /** The smallest failing input: nothing at all, sent to a destination that can only be written. */
  lemma NothingIntoWriteOnly(id: ID, sha: bytes -> Hash) returns (c: Pair, es: seq<Event>, l: Link)
    requires !IsZeroHash(sha([]))
    ensures c.send.src == [] && c.recv.resume == 0 && c.send.meta.hash == sha([]) && c.recv.sha == sha
        && !c.dev.readable
    ensures Agreed(c) && Leads(c, Start(c), es, l) && LossFree(es)
    ensures l.s.pc == SenderDone(Failure(HashMismatch)) && l.r.pc == ReceiverDone(Failure(HashMismatch))
  {
    c := Pair(SendCfg(Meta(id, [], 0, sha([])), [], 1, 1), RecvCfg(0, 1, None, _ => None, sha), Device([], 0, false));
    hide Leads;
    UnreadableFails(c);
    es, l := SomeRun(c);
  }

  /** One-sided agreement, loss or no loss: a sender that returned success had a receiver that
      returned success, with the whole content stored and its digest checked. */
  lemma SuccessIsShared(c: Pair, es: seq<Event>, l: Link)
    requires Agreed(c) && Leads(c, Start(c), es, l)
    requires l.sLost == None && l.s.pc == SenderDone(Success)
    ensures l.rLost == None && l.r.pc == ReceiverDone(Success)
    ensures l.r.written == Size(c) && l.r.dev == DevAt(c, N(c))
    ensures !Unreadable(c) ==> Size(c) <= |l.r.dev.data|
    ensures || IsZeroHash(c.send.meta.hash)
            || (!Unreadable(c) && c.recv.sha(l.r.dev.data[..Size(c)]) == c.send.meta.hash)
  {
    hide CeilDiv, Pieces, Off, AckIdx, Due;
    InvStart(c);
    InvRun(c, Start(c), es, l);
    OffBelow(c.recv.resume, Size(c), c.send.chunk, N(c));
    RepliesBounded(c, l.u);
    DigestIsContent(c);
  }
}
