/** What holds of every reachable state of one attempt: channel contents, what is in flight, and the
    absence of stale frames and of errors other than the verdict. */
module LinkTheorems {
  import opened Frames
  import opened Grid
  import opened Endpoints
  import opened Attempt
  import opened Link
  import opened Shapes
  import opened Traces

  ghost predicate Reachable(c: Pair, l: Link) {
    exists es :: Leads(c, Start(c), es, l)
  }

  lemma ReachableInv(c: Pair, l: Link)
    requires Agreed(c) && Reachable(c, l)
    ensures Inv(c, l)
  {
    hide CeilDiv, Pieces, Off, AckIdx, Due;
    var es :| Leads(c, Start(c), es, l);
    InvStart(c);
    InvRun(c, Start(c), es, l);
  }

  // ---------- channel contents ----------

  lemma {:induction false} FwdTiles(c: Pair, a: nat, b: nat)
    requires Agreed(c) && a <= b <= N(c)
    ensures Tiles(FwdFrames(c, a + 1, b + 1), Id(c), c.send.src, At(c, a), At(c, b))
    decreases b - a
  {
    hide CeilDiv, Pieces, Off, AckIdx, Due;
    if a < b {
      OffMono(c.recv.resume, Size(c), c.send.chunk, a, a + 1);
      OffMono(c.recv.resume, Size(c), c.send.chunk, a + 1, b);
      assert FwdFrames(c, a + 1, b + 1)[1..] == FwdFrames(c, a + 2, b + 1);
      FwdTiles(c, a + 1, b);
    }
  }

  lemma {:induction false} RevClimbs(c: Pair, i: nat, j: nat, hi: nat)
    requires Agreed(c) && i <= j <= J(c)
    requires i < j ==> At(c, Acked(c, j)) <= hi
    ensures Climbs(RevFrames(c, i + 1, j + 1), Id(c), At(c, Acked(c, i)), hi)
    decreases j - i
  {
    hide CeilDiv, Pieces, Off, AckIdx, Due;
    if i < j {
      AckIdxMono(N(c), c.recv.ackEvery, i, i + 1);
      AckIdxMono(N(c), c.recv.ackEvery, i + 1, j);
      OffMono(c.recv.resume, Size(c), c.send.chunk, Acked(c, i), Acked(c, i + 1));
      OffMono(c.recv.resume, Size(c), c.send.chunk, Acked(c, i + 1), Acked(c, j));
      assert RevFrames(c, i + 1, j + 1)[1..] == RevFrames(c, i + 2, j + 1);
      RevClimbs(c, i + 1, j, hi);
    }
  }

  /** The counters while the sender is sending. */
  lemma SendingCounters(c: Pair, l: Link)
    requires Agreed(c) && Reachable(c, l) && l.s.pc.Sending?
    ensures 1 <= l.u <= l.p <= N(c) + 1 && 1 <= l.q <= l.v <= J(c) + 1
    ensures Acked(c, l.q - 1) <= Acked(c, l.v - 1) <= l.u - 1
    ensures l.p - 1 <= Acked(c, l.q - 1) + c.send.window
    ensures l.s.pc == Sending(At(c, Acked(c, l.q - 1)), At(c, l.p - 1)) && l.r.written == At(c, l.u - 1)
    ensures l.fwd == FwdFrames(c, l.u, l.p) && l.rev == RevFrames(c, l.q, l.v)
  {
    hide CeilDiv, Pieces, Off, AckIdx, Due;
    ReachableInv(c, l);
    AckBehind(c, l.p, l.q, l.u, l.v);
    RepliesBounded(c, l.u);
    AckIdxMono(N(c), c.recv.ackEvery, l.q - 1, l.v - 1);
    if l.q < l.v { LastAckStored(c, l.u, l.v); }
  }

  lemma LastAckStored(c: Pair, u: nat, v: nat)
    requires Agreed(c) && 1 <= u <= N(c) + 1 && 1 <= v <= Replies(c, u)
    ensures Acked(c, v - 1) <= u - 1
  {
    hide CeilDiv, Pieces, Off, AckIdx, Due;
    DueEnd(N(c), c.recv.ackEvery, u - 1);
    AckIdxMono(N(c), c.recv.ackEvery, v - 1, Owed(c, u - 1));
  }

  /** Channel invariant: while the sender is sending, acknowledged <= stored <= sent, ... */
  lemma ChannelOrder(c: Pair, l: Link)
    requires Agreed(c) && Reachable(c, l) && l.s.pc.Sending?
    ensures c.recv.resume <= l.s.pc.acked <= l.r.written <= l.s.pc.next <= Size(c)
  {
    hide CeilDiv, Pieces, Off, AckIdx, Due;
    SendingCounters(c, l);
    OffMono(c.recv.resume, Size(c), c.send.chunk, Acked(c, l.q - 1), l.u - 1);
    OffMono(c.recv.resume, Size(c), c.send.chunk, l.u - 1, l.p - 1);
  }

  /** ... the chunks in flight are exactly the source bytes between stored and sent, ... */
  lemma ChunksInFlight(c: Pair, l: Link)
    requires Agreed(c) && Reachable(c, l) && l.s.pc.Sending?
    ensures Tiles(l.fwd, Id(c), c.send.src, l.r.written, l.s.pc.next)
  {
    hide CeilDiv, Pieces, Off, AckIdx, Due;
    SendingCounters(c, l);
    FwdTiles(c, l.u - 1, l.p - 1);
  }

  /** ... and the acknowledgements in flight climb from acknowledged to stored. */
  lemma AcksInFlight(c: Pair, l: Link)
    requires Agreed(c) && Reachable(c, l) && l.s.pc.Sending?
    ensures Climbs(l.rev, Id(c), l.s.pc.acked, l.r.written)
  {
    hide CeilDiv, Pieces, Off, AckIdx, Due;
    SendingCounters(c, l);
    OffMono(c.recv.resume, Size(c), c.send.chunk, Acked(c, l.v - 1), l.u - 1);
    RevClimbs(c, l.q - 1, l.v - 1, l.r.written);
  }

  /** Neither side ever ends with anything but the verdict: no bad_frame, no size_mismatch. */
  lemma OnlyTheVerdict(c: Pair, l: Link)
    requires Agreed(c) && Reachable(c, l)
    ensures l.s.pc.SenderDone? ==> l.s.pc.res == FinalOutcome(c)
    ensures l.r.pc.ReceiverDone? ==> l.r.pc.res == FinalOutcome(c)
    ensures !l.r.pc.Refusing?
  {
    hide CeilDiv, Pieces, Off, AckIdx, Due;
    ReachableInv(c, l);
  }

  /** Number of chunk frames among `fs` that start at or after `off`. */
  function ChunksFrom(fs: seq<Frame>, off: int): nat {
    if fs == [] then 0
    else ChunksFrom(fs[..|fs| - 1], off)
         + (var f := fs[|fs| - 1]; if f.Chunk? && f.offset >= off then 1 else 0)
  }

  lemma {:induction false} ChunksCounted(c: Pair, a: nat, b: nat)
    requires Agreed(c) && a <= N(c) && b <= N(c)
    ensures ChunksFrom(FwdFrames(c, 0, b + 1), At(c, a)) == if a <= b then b - a else 0
  {
    hide CeilDiv, Pieces, Off, AckIdx, Due;
    var fs := FwdFrames(c, 0, b + 1);
    assert fs[..b] == FwdFrames(c, 0, b);
    if b == 0 {
      assert fs[..0] == [];
    } else {
      ChunksCounted(c, a, b - 1);
      if a <= b - 1 { OffMono(c.recv.resume, Size(c), c.send.chunk, a, b - 1); }
      else { OffMono(c.recv.resume, Size(c), c.send.chunk, b - 1, a); }
    }
  }

  /** The ceiling division of count_in_flight is the true number of unacknowledged chunk frames among
      those the run has sent. */
  lemma InFlightIsExact(c: Pair, es: seq<Event>, l: Link)
    requires Agreed(c) && Leads(c, Start(c), es, l) && l.s.pc.Sending?
    ensures CountInFlight(l.s.pc.acked, l.s.pc.next, c.send.chunk)
         == ChunksFrom(Along(c, Start(c), es, SenderSends), l.s.pc.acked) <= c.send.window
  {
    hide CeilDiv, Pieces, Off, AckIdx, Due, Inv;
    SendingCounters(c, l);
    InvStart(c);
    AlongIsSequence(c, Start(c), es, l);
    var a, b := Acked(c, l.q - 1), l.p - 1;
    InFlightBetween(c, a, b);
    ChunksCounted(c, a, b);
  }

  /** When the sender enters finish_send both channels are empty; while it waits for the verdict the
      only frame it can read is the verdict. */
  lemma NoStaleAck(c: Pair, l: Link)
    requires Agreed(c) && Reachable(c, l)
    ensures l.s.pc.Sending? && l.s.pc.acked >= Size(c) ==> l.rev == [] && l.fwd == []
    ensures l.s.pc.AwaitVerdict? ==> l.rev == [] || l.rev == [Done(Id(c), Verdict(c), Digest(c))]
  {
    hide CeilDiv, Pieces, Off, AckIdx, Due;
    ReachableInv(c, l);
    RepliesBounded(c, l.u);
    if l.q > 0 { AckIdxEnd(N(c), c.recv.ackEvery, l.q - 1); }
    if l.s.pc.Sending? && l.s.pc.acked >= Size(c) {
      OffBelow(c.recv.resume, Size(c), c.send.chunk, Acked(c, l.q - 1));
      if l.u < N(c) + 1 { RepliesBounded(c, l.u); }
    }
  }
}
