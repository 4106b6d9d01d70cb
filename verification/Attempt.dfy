/** The frames and the states of one attempt of an agreed transfer, each given in closed form by two
    counters: frames sent and frames taken (src/transfer/transfer.cpp:459-716). */
module Attempt {
  import opened Bytes
  import opened Errors
  import opened Frames
  import opened Storage
  import opened Grid
  import opened Endpoints

  /** This sender, this receiver, and the destination as the attempt finds it. */
  datatype Pair = Pair(send: SendCfg, recv: RecvCfg, dev: Device)

  /** The offer is well formed and acceptable. The source may be longer than what is offered. */
  predicate Offered(c: Pair) {
    var m, resume := c.send.meta, c.recv.resume;
    && 0 <= m.size <= |c.send.src| && m.size < TWO63
    && |m.name| <= 0xffff
    && resume <= m.size <= c.dev.capacity
    && (c.recv.wanted == None || c.recv.wanted == Some(m.id))
    && c.recv.accept(m) == None
  }

  /** The destination opens at the resume offset: nothing is to be read back, or it can be. */
  predicate Opens(c: Pair) {
    var size, resume := c.send.meta.size, c.recv.resume;
    && (resume == size ==> c.dev.readable ==> resume <= |c.dev.data|)
    && (0 < resume < size ==> c.dev.readable && resume <= |c.dev.data|)
  }

  predicate Agreed(c: Pair) { Offered(c) && Opens(c) }

  function Size(c: Pair): nat { if c.send.meta.size < 0 then 0 else c.send.meta.size }
  function Id(c: Pair): ID { c.send.meta.id }

  /** Number of chunks, and of acknowledgements. */
  function N(c: Pair): nat
    requires Agreed(c)
  {
    Pieces(c.recv.resume, Size(c), c.send.chunk)
  }

  function J(c: Pair): nat
    requires Agreed(c)
  {
    CeilDiv(N(c), c.recv.ackEvery)
  }

  function At(c: Pair, k: nat): (o: nat)
    requires Agreed(c)
    ensures c.recv.resume <= o <= Size(c)
  {
    OffMono(c.recv.resume, Size(c), c.send.chunk, 0, k);
    Off(c.recv.resume, Size(c), c.send.chunk, k)
  }

  lemma AtZero(c: Pair)
    requires Agreed(c)
    ensures At(c, 0) == c.recv.resume
  {
  }

  /** Between two chunk boundaries count_in_flight counts the chunks. */
  lemma InFlightBetween(c: Pair, a: nat, b: nat)
    requires Agreed(c) && a <= b <= N(c)
    ensures At(c, a) <= At(c, b) && CountInFlight(At(c, a), At(c, b), c.send.chunk) == b - a
  {
    FramesBetween(c.recv.resume, Size(c), c.send.chunk, a, b);
    OffMono(c.recv.resume, Size(c), c.send.chunk, a, b);
  }

  function Acked(c: Pair, j: nat): nat
    requires Agreed(c)
  {
    AckIdx(N(c), c.recv.ackEvery, j)
  }

  function Owed(c: Pair, k: nat): nat
    requires Agreed(c)
  {
    Due(N(c), c.recv.ackEvery, k)
  }

  /** Bytes hashed, and the destination, after `k` chunks. */
  function FedAt(c: Pair, k: nat): bytes
    requires Agreed(c)
  {
    (if c.recv.resume <= |c.dev.data| then c.dev.data[..c.recv.resume] else [])
    + c.send.src[c.recv.resume..At(c, k)]
  }

  function DevAt(c: Pair, k: nat): Device
    requires Agreed(c)
  {
    if k == 0 then c.dev
    else c.dev.(data := Splice(c.dev.data, c.recv.resume, c.send.src[c.recv.resume..At(c, k)]))
  }

  /** The digest the receiver checks: an unreadable destination that is already complete has none. */
  function Digest(c: Pair): Hash
    requires Agreed(c)
  {
    if c.recv.resume == Size(c) && !c.dev.readable then ZERO_HASH else c.recv.sha(FedAt(c, N(c)))
  }

  function Verdict(c: Pair): bool
    requires Agreed(c)
  {
    VerdictOk(c.send.meta.hash, c.send.meta.hash, Digest(c))
  }

  function FinalOutcome(c: Pair): Outcome
    requires Agreed(c)
  {
    if Verdict(c) then Success else Failure(HashMismatch)
  }

  // ---------- the two frame sequences ----------

  function FwdFrame(c: Pair, i: nat): Frame
    requires Agreed(c) && i < N(c) + 2
  {
    if i == 0 then Offer(c.send.meta)
    else if i <= N(c) then
      OffMono(c.recv.resume, Size(c), c.send.chunk, i - 1, i);
      Chunk(Id(c), At(c, i - 1), c.send.src[At(c, i - 1)..At(c, i)])
    else Done(Id(c), true, c.send.meta.hash)
  }

  function RevFrame(c: Pair, j: nat): Frame
    requires Agreed(c) && j < J(c) + 2
  {
    if j == 0 then Accept(Id(c), c.recv.resume)
    else if j <= J(c) then Ack(Id(c), At(c, Acked(c, j)))
    else Done(Id(c), Verdict(c), Digest(c))
  }

  // ---------- the sender after `p` frames sent and `q` taken ----------

  function SenderLog(c: Pair, q: nat): seq<int>
    requires Agreed(c)
  {
    if q == 0 then [] else SenderLog(c, q - 1) + [At(c, Acked(c, q - 1))]
  }

  function SenderAt(c: Pair, p: nat, q: nat): Sender
    requires Agreed(c)
  {
    var pc := if p == 0 then AtOffer
              else if q == 0 then AwaitAccept
              else if q >= J(c) + 2 then SenderDone(FinalOutcome(c))
              else if p >= N(c) + 2 then AwaitVerdict
              else Sending(At(c, Acked(c, q - 1)), At(c, p - 1));
    Sender(pc, SenderLog(c, Min(q, J(c) + 1)))
  }

  /** The sender keeps its window and its order. */
  predicate SenderFits(c: Pair, p: nat, q: nat)
    requires Agreed(c)
  {
    && p <= N(c) + 2 && q <= J(c) + 2
    && (q == 0 ==> p <= 1)
    && (0 < q ==> 0 < p)
    && (0 < q <= J(c) + 1 && p <= N(c) + 1 ==> Acked(c, q - 1) <= p - 1 <= Acked(c, q - 1) + c.send.window)
    && (q >= J(c) + 1 ==> p >= N(c) + 1)
    && (p == N(c) + 2 ==> q >= J(c) + 1)
    && (q == J(c) + 2 ==> p == N(c) + 2)
  }

  predicate MaySend(c: Pair, p: nat, q: nat)
    requires Agreed(c)
  {
    || p == 0
    || (0 < q <= J(c) && 0 < p <= N(c) && p - 1 < Acked(c, q - 1) + c.send.window)
    || (q == J(c) + 1 && p == N(c) + 1)
  }

  lemma SenderActs(c: Pair, p: nat, q: nat)
    requires Agreed(c) && SenderFits(c, p, q)
    ensures var a := SenderAction(c.send, SenderAt(c, p, q));
            if q == J(c) + 2 then a == Halt(FinalOutcome(c))
            else if MaySend(c, p, q)
            then p < N(c) + 2 && a == Emit(FwdFrame(c, p), SenderAt(c, p + 1, q)) && SenderFits(c, p + 1, q)
            else a == Await
  {
    hide CeilDiv, Pieces, Off, AckIdx, Due, CountInFlight;
    if 0 < q <= J(c) + 1 && 0 < p <= N(c) + 1 {
      var (from, size, chunk) := (c.recv.resume, Size(c), c.send.chunk);
      var a, b := Acked(c, q - 1), p - 1;
      AckIdxEnd(N(c), c.recv.ackEvery, q - 1);
      AckIdxMono(N(c), c.recv.ackEvery, q - 1, q);
      OffBelow(from, size, chunk, a);
      OffBelow(from, size, chunk, b);
      InFlightBetween(c, a, b);
      if b < N(c) { OffStep(from, size, chunk, b); }
    }
  }

  lemma SenderOnRev(c: Pair, p: nat, q: nat)
    requires Agreed(c) && SenderFits(c, p, q)
    requires p > 0 && q < J(c) + 2 && !MaySend(c, p, q)
    requires 0 < q <= J(c) ==> Acked(c, q) <= p - 1
    ensures SenderOnFrame(c.send, SenderAt(c, p, q), RevFrame(c, q)) == SenderAt(c, p, q + 1)
    ensures SenderFits(c, p, q + 1)
  {
    hide CeilDiv, Pieces, Off, AckIdx, Due;
    var (from, size, chunk) := (c.recv.resume, Size(c), c.send.chunk);
    AtZero(c);
    DueZero(N(c), c.recv.ackEvery);
    AckIdxEnd(N(c), c.recv.ackEvery, 0);
    if 0 < q <= J(c) {
      AckIdxEnd(N(c), c.recv.ackEvery, q);
      AckIdxEnd(N(c), c.recv.ackEvery, q - 1);
      AckIdxMono(N(c), c.recv.ackEvery, q - 1, q);
      OffMono(from, size, chunk, Acked(c, q - 1), Acked(c, q));
      OffMono(from, size, chunk, Acked(c, q), p - 1);
    }
  }

  // ---------- the receiver after `u` frames taken and `v` sent ----------

  /** Frames the receiver owes once it has taken `u`. */
  function Replies(c: Pair, u: nat): nat
    requires Agreed(c)
  {
    if u == 0 then 0 else if u <= N(c) + 1 then 1 + Owed(c, u - 1) else J(c) + 2
  }

  function ReceiverLog(c: Pair, k: nat): seq<int>
    requires Agreed(c)
  {
    if k == 0 then [At(c, 0)] else ReceiverLog(c, k - 1) + [At(c, k)]
  }

  function Waiting(c: Pair, k: nat): ReceiverPc
    requires Agreed(c) && k <= N(c)
  {
    if k == N(c) then AwaitDone(c.send.meta, Digest(c))
    else DueEnd(N(c), c.recv.ackEvery, k);
         Receiving(c.send.meta, k - Acked(c, Owed(c, k)), FedAt(c, k))
  }

  function ReceiverAt(c: Pair, u: nat, v: nat): Receiver
    requires Agreed(c)
  {
    var k := if u == 0 then 0 else Min(u - 1, N(c));
    var pc := if u == 0 then AwaitOffer
              else if v == 0 then Accepting(c.send.meta)
              else if u >= N(c) + 2 then
                if v >= J(c) + 2 then ReceiverDone(FinalOutcome(c))
                else Replying(Done(Id(c), Verdict(c), Digest(c)), ReceiverDone(FinalOutcome(c)))
              else if v < Replies(c, u) then Replying(Ack(Id(c), At(c, k)), Waiting(c, k))
              else Waiting(c, k);
    Receiver(pc, At(c, k), DevAt(c, k), if v == 0 then [] else ReceiverLog(c, k),
             if u == 0 then None else Some(c.send.meta))
  }

  /** The receiver has sent everything it owed before the last frame it took. */
  predicate ReceiverFits(c: Pair, u: nat, v: nat)
    requires Agreed(c)
  {
    && u <= N(c) + 2
    && (if u == 0 then v == 0 else Replies(c, u - 1) <= v <= Replies(c, u))
  }

  lemma RepliesStep(c: Pair, u: nat)
    requires Agreed(c) && u < N(c) + 2
    ensures Replies(c, u) <= Replies(c, u + 1) <= Replies(c, u) + 1
    ensures u == 0 || u == N(c) + 1 ==> Replies(c, u + 1) == Replies(c, u) + 1
  {
    hide CeilDiv, Pieces, Off, AckIdx, Due;
    DueZero(N(c), c.recv.ackEvery);
    DueEnd(N(c), c.recv.ackEvery, N(c));
    if 0 < u < N(c) + 1 { DueStep(N(c), c.recv.ackEvery, u - 1); }
  }

  lemma RepliesBounded(c: Pair, u: nat)
    requires Agreed(c) && u <= N(c) + 2
    ensures Replies(c, u) <= J(c) + 2
    ensures u <= N(c) + 1 ==> Replies(c, u) <= J(c) + 1
    ensures u <= N(c) && u > 0 ==> Replies(c, u) <= J(c)
  {
    hide CeilDiv, Pieces, Off, AckIdx, Due;
    if 0 < u <= N(c) + 1 { DueEnd(N(c), c.recv.ackEvery, u - 1); }
  }

  lemma ReceiverActs(c: Pair, u: nat, v: nat)
    requires Agreed(c) && ReceiverFits(c, u, v)
    ensures v <= J(c) + 2
    ensures var a := ReceiverAction(c.recv, ReceiverAt(c, u, v));
            if v < Replies(c, u)
            then v < J(c) + 2 && a == Emit(RevFrame(c, v), ReceiverAt(c, u, v + 1)) && ReceiverFits(c, u, v + 1)
            else if u == N(c) + 2 then a == Halt(FinalOutcome(c))
            else a == Await
  {
    hide CeilDiv, Pieces, Off, AckIdx, Due;
    RepliesBounded(c, u);
    if u > 0 { RepliesStep(c, u - 1); }
    if u == 1 {
      PrepareIsWaiting(c);
      DueZero(N(c), c.recv.ackEvery);
      AtZero(c);
      assert [] + [c.recv.resume] == ReceiverLog(c, 0);
    } else if 1 < u <= N(c) + 1 {
      ReceiverAcks(c, u, v);
    } else if u == N(c) + 2 {
      DueEnd(N(c), c.recv.ackEvery, N(c));
    }
  }

  lemma ReceiverAcks(c: Pair, u: nat, v: nat)
    requires Agreed(c) && 1 < u <= N(c) + 1 && ReceiverFits(c, u, v)
    ensures v < Replies(c, u) ==>
              v < J(c) + 2 && ReceiverAction(c.recv, ReceiverAt(c, u, v))
                  == Emit(RevFrame(c, v), ReceiverAt(c, u, v + 1))
  {
    hide CeilDiv, Pieces, Off, AckIdx, Due;
    RepliesBounded(c, u);
    RepliesStep(c, u - 1);
    if v < Replies(c, u) {
      DueStep(N(c), c.recv.ackEvery, u - 2);
      assert v == Owed(c, u - 1) && Acked(c, v) == u - 1;
      assert RevFrame(c, v) == Ack(Id(c), At(c, u - 1));
    }
  }

  lemma PrepareIsWaiting(c: Pair)
    requires Agreed(c)
    ensures Prepare(c.recv, c.send.meta, c.dev) == Waiting(c, 0)
  {
    hide CeilDiv, Pieces, Off, AckIdx, Due;
    var (from, size, chunk) := (c.recv.resume, Size(c), c.send.chunk);
    OffBelow(from, size, chunk, 0);
    AtZero(c);
    DueZero(N(c), c.recv.ackEvery);
    assert c.send.src[from..At(c, 0)] == [];
    if from <= |c.dev.data| {
      assert FedAt(c, 0) == c.dev.data[..from];
    }
  }

  lemma FedStep(c: Pair, k: nat)
    requires Agreed(c) && k < N(c)
    ensures At(c, k) < At(c, k + 1)
    ensures FedAt(c, k + 1) == FedAt(c, k) + c.send.src[At(c, k)..At(c, k + 1)]
  {
    hide CeilDiv, Pieces, Off, AckIdx, Due;
    OffMono(c.recv.resume, Size(c), c.send.chunk, k, k + 1);
    var src, a, b, r := c.send.src, At(c, k), At(c, k + 1), c.recv.resume;
    assert src[r..b] == src[r..a] + src[a..b];
  }

  lemma SpliceIndex(s: bytes, off: nat, p: bytes, i: nat)
    requires off <= |s| && i < |Splice(s, off, p)|
    ensures Splice(s, off, p)[i] == if off <= i < off + |p| then p[i - off] else if i < |s| then s[i] else 0
  {
    hide CeilDiv, Pieces, Off, AckIdx, Due;
    var r := Splice(s, off, p);
    if off <= i < off + |p| { assert r[i] == r[off..off + |p|][i - off]; }
  }

  lemma SpliceSplice(s: bytes, off: nat, a: bytes, b: bytes)
    requires off <= |s|
    ensures Splice(Splice(s, off, a), off + |a|, b) == Splice(s, off, a + b)
  {
    hide CeilDiv, Pieces, Off, AckIdx, Due;
    var t := Splice(s, off, a);
    var x, y := Splice(t, off + |a|, b), Splice(s, off, a + b);
    forall i | 0 <= i < |y|
      ensures x[i] == y[i]
    {
      SpliceIndex(t, off + |a|, b, i);
      SpliceIndex(s, off, a + b, i);
      if i < |t| { SpliceIndex(s, off, a, i); }
    }
  }

  lemma SpliceNothing(s: bytes, off: nat)
    requires off <= |s|
    ensures Splice(s, off, []) == s
  {
    hide CeilDiv, Pieces, Off, AckIdx, Due;
    var x := Splice(s, off, []);
    assert x == x[..off] + x[off..] && s == s[..off] + s[off..];
  }

  lemma DevStep(c: Pair, k: nat)
    requires Agreed(c) && k < N(c)
    ensures At(c, k) < At(c, k + 1)
    ensures WriteAt(DevAt(c, k), At(c, k), c.send.src[At(c, k)..At(c, k + 1)]) == Ok(DevAt(c, k + 1))
  {
    hide CeilDiv, Pieces, Off, AckIdx, Due;
    FedStep(c, k);
    var src, a, b, r := c.send.src, At(c, k), At(c, k + 1), c.recv.resume;
    OffBelow(r, Size(c), c.send.chunk, 0);
    AtZero(c);
    assert r <= |c.dev.data|;
    assert src[r..b] == src[r..a] + src[a..b];
    SpliceSplice(c.dev.data, r, src[r..a], src[a..b]);
    if k == 0 {
      assert src[r..a] == [];
      SpliceNothing(c.dev.data, r);
    }
    assert DevAt(c, k).data == Splice(c.dev.data, r, src[r..a]);
  }

  lemma ReceiverOnFwd(c: Pair, u: nat)
    requires Agreed(c) && u < N(c) + 2
    ensures ReceiverOnFrame(c.recv, ReceiverAt(c, u, Replies(c, u)), FwdFrame(c, u))
         == ReceiverAt(c, u + 1, Replies(c, u))
    ensures ReceiverFits(c, u + 1, Replies(c, u))
  {
    hide CeilDiv, Pieces, Off, AckIdx, Due;
    RepliesStep(c, u);
    DueZero(N(c), c.recv.ackEvery);
    OffBelow(c.recv.resume, Size(c), c.send.chunk, 0);
    AtZero(c);
    if 0 < u <= N(c) {
      ReceiverOnChunk(c, u);
    } else if u == N(c) + 1 {
      DueEnd(N(c), c.recv.ackEvery, N(c));
    }
  }

  lemma ReceiverOnChunk(c: Pair, u: nat)
    requires Agreed(c) && 0 < u <= N(c)
    ensures ReceiverOnFrame(c.recv, ReceiverAt(c, u, Replies(c, u)), FwdFrame(c, u))
         == ReceiverAt(c, u + 1, Replies(c, u))
  {
    hide CeilDiv, Pieces, Off, AckIdx, Due;
    var k := u - 1;
    var r := ReceiverAt(c, u, Replies(c, u));
    var f := FwdFrame(c, u);
    assert r.pc == Waiting(c, k) && r.written == At(c, k) && r.dev == DevAt(c, k);
    FedStep(c, k);
    assert f.data == c.send.src[At(c, k)..At(c, u)];
    assert ReceiverOnFrame(c.recv, r, f) == OnChunk(c.recv, r, f.data);
    ChunkStored(c, k, r);
  }

  lemma ChunkStored(c: Pair, k: nat, r: Receiver)
    requires Agreed(c) && k < N(c)
    requires r == ReceiverAt(c, k + 1, Replies(c, k + 1))
    requires r.pc == Waiting(c, k)
    ensures At(c, k) <= At(c, k + 1)
    ensures OnChunk(c.recv, r, c.send.src[At(c, k)..At(c, k + 1)]) == ReceiverAt(c, k + 2, Replies(c, k + 1))
  {
    hide CeilDiv, Pieces, Off, AckIdx, Due;
    FedStep(c, k);
    DevStep(c, k);
    var data := c.send.src[At(c, k)..At(c, k + 1)];
    var x, y := OnChunk(c.recv, r, data), ReceiverAt(c, k + 2, Replies(c, k + 1));
    assert x.written == y.written && x.dev == y.dev && x.log == y.log && x.got == y.got;
    ChunkAcked(c, k);
  }

  /** The acknowledgement decision after chunk `k`, in closed form. */
  lemma ChunkAcked(c: Pair, k: nat)
    requires Agreed(c) && k < N(c)
    ensures At(c, k + 1) == Size(c) <==> k + 1 == N(c)
    ensures Acked(c, Owed(c, k)) <= k
    ensures k - Acked(c, Owed(c, k)) + 1 >= c.recv.ackEvery || k + 1 == N(c) <==> Owed(c, k + 1) == Owed(c, k) + 1
    ensures Owed(c, k) <= Owed(c, k + 1) <= Owed(c, k) + 1
    ensures Owed(c, k + 1) == Owed(c, k) + 1 ==> Acked(c, Owed(c, k + 1)) == k + 1
  {
    hide CeilDiv, Pieces, Off, AckIdx, Due;
    OffBelow(c.recv.resume, Size(c), c.send.chunk, k + 1);
    DueStep(N(c), c.recv.ackEvery, k);
  }
}
