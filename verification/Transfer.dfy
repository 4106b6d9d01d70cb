/** send_once and receive_once as the source writes them: loops over a connection object, proved equal
    to the endpoint processes (src/transfer/transfer.cpp:436-716). */
module Transfer {
  import opened Bytes
  import opened Errors
  import opened Frames
  import opened Storage
  import opened Grid
  import opened Endpoints

  /** A connection to an arbitrary peer: it delivers `inbox`, accepts `credits` more sends, and
      then fails with `loss`. */
  class PeerConn {
    var inbox: seq<bytes>
    var outbox: seq<bytes>
    var credits: nat
    const loss: ConnErr
    const maxMessage: int

    constructor (p: Script)
      ensures Rest() == p && outbox == []
    {
      inbox, outbox, credits, loss, maxMessage := p.inbox, [], p.credits, p.loss, p.limit;
    }

    /** What the connection will still do. */
    function Rest(): Script
      reads this
    {
      Script(inbox, credits, loss, maxMessage)
    }

    method Send(payload: bytes) returns (ec: Option<Err>)
      modifies this
      ensures inbox == old(inbox)
      ensures old(credits) == 0 ==> ec == Some(MapConnErr(loss)) && outbox == old(outbox) && credits == 0
      ensures old(credits) > 0 ==> ec == None && outbox == old(outbox) + [payload] && credits == old(credits) - 1
    {
      if credits == 0 {
        return Some(MapConnErr(loss));
      }
      outbox, credits := outbox + [payload], credits - 1;
      ec := None;
    }

    method Receive() returns (r: Result<bytes, Err>)
      modifies this
      ensures outbox == old(outbox) && credits == old(credits)
      ensures old(inbox) == [] ==> r == Err(MapConnErr(loss)) && inbox == []
      ensures old(inbox) != [] ==> r == Ok(old(inbox)[0]) && inbox == old(inbox)[1..]
    {
      if inbox == [] {
        return Err(MapConnErr(loss));
      }
      r, inbox := Ok(inbox[0]), inbox[1..];
    }
  }

  /** The bytes of a frame that encodes. */
  function Payload(f: Frame): bytes {
    match Encode(f)
    case Ok(b) => b
    case Err(_) => []
  }

  function Payloads(fs: seq<Frame>): (r: seq<bytes>)
    ensures |r| == |fs| && forall i :: 0 <= i < |fs| ==> r[i] == Payload(fs[i])
  {
    seq(|fs|, i requires 0 <= i < |fs| => Payload(fs[i]))
  }

  /** `r` after the frames `sent` have already gone out. */
  function After<S>(sent: seq<Frame>, r: Run<S>): Run<S> { r.(out := sent + r.out) }

  lemma AfterEmit<S>(sent: seq<Frame>, f: Frame, r: Run<S>)
    ensures After(sent, r.(out := [f] + r.out)) == After(sent + [f], r)
    ensures Payloads(sent + [f]) == Payloads(sent) + [Payload(f)]
  {
    assert sent + ([f] + r.out) == sent + [f] + r.out;
  }

  lemma SenderStops(c: SendCfg, s: Sender, p: Script, e: Err)
    requires var a := SenderAction(c, s);
             a == Halt(Failure(e)) || (a.Emit? && p.credits == 0 && e == MapConnErr(p.loss))
    ensures RunSender(c, s, p) == Run(s, [], Failure(e))
  {
  }

  lemma SenderEmits(c: SendCfg, s: Sender, p: Script, f: Frame, next: Sender)
    requires SenderAction(c, s) == Emit(f, next) && p.credits > 0
    ensures RunSender(c, s, p) == var r := RunSender(c, next, p.(credits := p.credits - 1)); r.(out := [f] + r.out)
  {
  }

  /** The method's effect is the process's run. */
  twostate predicate Did<S>(conn: PeerConn, r: Run<S>)
    reads conn
  {
    conn.outbox == old(conn.outbox) + Payloads(r.out)
  }

  method FinishSend(conn: PeerConn, ghost c: SendCfg, meta: Meta, ghost s: Sender) returns (res: Outcome)
    requires c.meta == meta && s.pc.Sending? && s.pc.acked >= meta.size
    modifies conn
    ensures var run := RunSender(c, s, old(conn.Rest()));
            res == run.res && Did(conn, run) && run.end.log == s.log
  {
    ghost var p := conn.Rest();
    ghost var s1 := s.(pc := AwaitVerdict);
    var ec := conn.Send(Payload(Done(meta.id, true, meta.hash)));
    if ec.Some? {
      return Failure(ec.value);
    }
    ghost var p1 := conn.Rest();
    var msg := conn.Receive();
    if msg.Err? {
      return Failure(msg.error);
    }
    ghost var s2 := SenderOnPayload(c, s1, msg.value);
    assert RunSender(c, s1, p1) == RunSender(c, s2, conn.Rest());
    var dec := Decode(msg.value);
    if dec.Err? {
      return Failure(dec.error);
    }
    if !dec.value.Done? || dec.value.id != meta.id {
      return Failure(BadFrame);
    }
    if !dec.value.ok {
      return Failure(HashMismatch);
    }
    res := Success;
  }

  /** The inner loop of send_once: chunks go out until the window is full or the source is. */
  method FillWindow(conn: PeerConn, r: File, meta: Meta, chunk: pos, window: pos, acked: int, from: int,
      ghost log: seq<int>)
      returns (ec: Option<Err>, next: int, ghost sent: seq<Frame>)
    requires 0 <= acked <= from <= meta.size && acked < meta.size
    modifies conn
    ensures from <= next <= meta.size && conn.inbox == old(conn.inbox)
    ensures conn.outbox == old(conn.outbox) + Payloads(sent)
    ensures ec == None ==> CountInFlight(acked, next, chunk) >= window || next == meta.size
    ensures var c := SendCfg(meta, r.data, chunk, window);
            var run := RunSender(c, Sender(Sending(acked, from), log), old(conn.Rest()));
            if ec == None then run == After(sent, RunSender(c, Sender(Sending(acked, next), log), conn.Rest()))
            else run == Run(Sender(Sending(acked, next), log), sent, Failure(ec.value))
  {
    hide RunSender;
    ghost var c := SendCfg(meta, r.data, chunk, window);
    ghost var s0 := Sender(Sending(acked, from), log);
    next, sent := from, [];
    while CountInFlight(acked, next, chunk) < window && next < meta.size
      invariant from <= next <= meta.size && conn.inbox == old(conn.inbox)
      invariant conn.outbox == old(conn.outbox) + Payloads(sent)
      invariant RunSender(c, s0, old(conn.Rest()))
          == After(sent, RunSender(c, Sender(Sending(acked, next), log), conn.Rest()))
      decreases meta.size - next
    {
      ghost var s, p := Sender(Sending(acked, next), log), conn.Rest();
      var n := chunk;
      if next + n > meta.size {
        n := meta.size - next;
      }
      var got := r.Read(next, n);
      if got.Err? {
        SenderStops(c, s, p, got.error);
        return Some(got.error), next, sent;
      }
      var frame := Chunk(meta.id, next, got.value);
      ec := conn.Send(Payload(frame));
      if ec.Some? {
        SenderStops(c, s, p, ec.value);
        return;
      }
      ghost var rest := RunSender(c, Sender(Sending(acked, next + n), log), conn.Rest());
      SenderEmits(c, s, p, frame, Sender(Sending(acked, next + n), log));
      AfterEmit(sent, frame, rest);
      sent := sent + [frame];
      next := next + n;
    }
    ec := None;
  }

  /** The receive half of the outer loop: one acknowledgement, or the end of the attempt. */
  method AwaitAck(conn: PeerConn, ghost c: SendCfg, meta: Meta, acked0: int, next: int, log0: seq<int>)
      returns (ec: Option<Err>, acked: int, log: seq<int>)
    requires c.meta == meta && SenderAction(c, Sender(Sending(acked0, next), log0)) == Await
    requires acked0 <= next
    modifies conn
    ensures conn.outbox == old(conn.outbox) && acked0 <= acked <= next
    ensures ec == None ==> |conn.inbox| < |old(conn.inbox)|
    ensures var run := RunSender(c, Sender(Sending(acked0, next), log0), old(conn.Rest()));
            if ec == None then run == RunSender(c, Sender(Sending(acked, next), log), conn.Rest())
            else run.res == Failure(ec.value) && run.out == [] && run.end.log == log0 == log
  {
    acked, log := acked0, log0;
    ghost var s, p := Sender(Sending(acked, next), log), conn.Rest();
    var msg := conn.Receive();
    if msg.Err? {
      return Some(msg.error), acked, log;
    }
    assert RunSender(c, s, p) == RunSender(c, SenderOnPayload(c, s, msg.value), conn.Rest());
    var dec := Decode(msg.value);
    if dec.Err? {
      return Some(dec.error), acked, log;
    }
    if dec.value.Ack? {
      if dec.value.id != meta.id || dec.value.offset < acked || dec.value.offset > next {
        return Some(BadFrame), acked, log;
      }
      acked := dec.value.offset;
      log := log + [acked];
      ec := None;
    } else if dec.value.Abort? {
      ec := Some(Aborted);
    } else {
      ec := Some(BadFrame);
    }
  }

  /** The outer loop of send_once, from an accepted offset to the end of the exchange. */
  method SendChunks(conn: PeerConn, r: File, meta: Meta, chunk: pos, window: pos, offset: int)
      returns (res: Outcome, log: seq<int>)
    requires 0 <= offset <= meta.size
    modifies conn
    ensures var run := RunSender(SendCfg(meta, r.data, chunk, window), Sender(Sending(offset, offset), [offset]),
        old(conn.Rest()));
            res == run.res && log == run.end.log && Did(conn, run)
  {
    ghost var c := SendCfg(meta, r.data, chunk, window);
    ghost var whole := RunSender(c, Sender(Sending(offset, offset), [offset]), conn.Rest());
    ghost var sent: seq<Frame> := [];
    var acked, next := offset, offset;
    log := [offset];
    while acked < meta.size
      invariant 0 <= acked <= next <= meta.size
      invariant conn.outbox == old(conn.outbox) + Payloads(sent)
      invariant whole == After(sent, RunSender(c, Sender(Sending(acked, next), log), conn.Rest()))
      decreases |conn.inbox|
    {
      var ec;
      ghost var more;
      ec, next, more := FillWindow(conn, r, meta, chunk, window, acked, next, log);
      OutboxJoin(old(conn.outbox), sent, more);
      if ec.Some? {
        return Failure(ec.value), log;
      }
      AfterAfter(sent, more, RunSender(c, Sender(Sending(acked, next), log), conn.Rest()));
      sent := sent + more;
      ec, acked, log := AwaitAck(conn, c, meta, acked, next, log);
      if ec.Some? {
        return Failure(ec.value), log;
      }
    }
    ghost var run := RunSender(c, Sender(Sending(acked, next), log), conn.Rest());
    res := FinishSend(conn, c, meta, Sender(Sending(acked, next), log));
    OutboxJoin(old(conn.outbox), sent, run.out);
  }

  lemma OutboxJoin(base: seq<bytes>, a: seq<Frame>, b: seq<Frame>)
    ensures base + Payloads(a) + Payloads(b) == base + Payloads(a + b)
  {
  }

  lemma OutboxFirst(base: seq<bytes>, f: Frame, rest: seq<Frame>)
    ensures base + [Payload(f)] + Payloads(rest) == base + Payloads([f] + rest)
  {
  }

  lemma AfterAfter<S>(a: seq<Frame>, b: seq<Frame>, r: Run<S>)
    ensures After(a, After(b, r)) == After(a + b, r)
  {
    assert a + (b + r.out) == a + b + r.out;
  }

  method SendOnce(conn: PeerConn, r: File, meta: Meta, want: int, window: pos)
      returns (res: Outcome, log: seq<int>)
    modifies conn
    ensures var chunk := EffectiveChunkSize(conn.maxMessage, want);
            var run := RunSender(SendCfg(meta, r.data, chunk, window), SENDER_START, old(conn.Rest()));
            res == run.res && log == run.end.log && Did(conn, run)
  {
    log := [];
    var chunk := EffectiveChunkSize(conn.maxMessage, want);
    ghost var c := SendCfg(meta, r.data, chunk, window);
    ghost var p0 := conn.Rest();
    var offer := EncodeOffer(meta);
    if offer.Err? {
      return Failure(offer.error), log;
    }
    var ec := conn.Send(offer.value);
    if ec.Some? {
      return Failure(ec.value), log;
    }
    ghost var s1 := Sender(AwaitAccept, []);
    ghost var p1 := conn.Rest();
    assert RunSender(c, SENDER_START, p0) == After([Offer(meta)], RunSender(c, s1, p1));
    var msg := conn.Receive();
    if msg.Err? {
      return Failure(msg.error), log;
    }
    ghost var s2 := SenderOnPayload(c, s1, msg.value);
    assert RunSender(c, s1, p1) == RunSender(c, s2, conn.Rest());
    var dec := Decode(msg.value);
    if dec.Err? {
      return Failure(dec.error), log;
    }
    if dec.value.Reject? {
      if dec.value.id != meta.id {
        return Failure(BadFrame), log;
      }
      return Failure(Rejected), log;
    }
    if !dec.value.Accept? || dec.value.id != meta.id {
      return Failure(BadFrame), log;
    }
    var offset := dec.value.offset;
    if offset < 0 || offset > meta.size {
      return Failure(ResumePastEnd), log;
    }
    assert s2 == Sender(Sending(offset, offset), [offset]);
    OutboxFirst(old(conn.outbox), Offer(meta), RunSender(c, s2, conn.Rest()).out);
    res, log := SendChunks(conn, r, meta, chunk, window, offset);
  }

  // ---------- receiver ----------

  /** Ending an attempt changes nothing but the program counter. */
  ghost predicate OnlyPc(a: Receiver, b: Receiver) { a == b.(pc := a.pc) }

  method VerifyAndAckDone(conn: PeerConn, meta: Meta, sent: Hash, local: Hash, ghost c: RecvCfg, ghost r: Receiver)
      returns (res: Outcome)
    requires r.pc == Verify(meta, sent, local)
    modifies conn
    ensures var run := RunReceiver(c, r, old(conn.Rest()));
            res == run.res && Did(conn, run) && OnlyPc(run.end, r)
  {
    var ok := true;
    var target := meta.hash;
    if IsZeroHash(target) {
      target := sent;
    }
    if !IsZeroHash(target) && local != target {
      ok := false;
    }
    if !IsZeroHash(sent) && sent != local {
      ok := false;
    }
    ghost var after := r.(pc := ReceiverDone(if ok then Success else Failure(HashMismatch)));
    var ec := conn.Send(Payload(Done(meta.id, ok, local)));
    if ec.Some? {
      return Failure(ec.value);
    }
    assert RunReceiver(c, after, conn.Rest()) == Run(after, [], after.pc.res);
    if !ok {
      return Failure(HashMismatch);
    }
    res := Success;
  }

  /** The done frame that must follow the last byte. */
  method FinishReceive(conn: PeerConn, meta: Meta, sum: Hash, ghost c: RecvCfg, ghost r: Receiver)
      returns (res: Outcome)
    requires r.pc == AwaitDone(meta, sum)
    modifies conn
    ensures var run := RunReceiver(c, r, old(conn.Rest()));
            res == run.res && Did(conn, run) && OnlyPc(run.end, r)
  {
    ghost var p := conn.Rest();
    var msg := conn.Receive();
    if msg.Err? {
      return Failure(msg.error);
    }
    ghost var r1 := ReceiverOnPayload(c, r, msg.value);
    assert RunReceiver(c, r, p) == RunReceiver(c, r1, conn.Rest());
    var dec := Decode(msg.value);
    if dec.Err? {
      return Failure(dec.error);
    }
    if !dec.value.Done? || dec.value.id != meta.id {
      return Failure(BadFrame);
    }
    res := VerifyAndAckDone(conn, meta, dec.value.hash, sum, c, r1);
  }

  /** Best-effort refusal: the outcome of the send is ignored. */
  method Refuse(conn: PeerConn, f: Frame, e: Err, ghost c: RecvCfg, ghost r: Receiver) returns (res: Outcome)
    requires r.pc == Refusing(f, e)
    modifies conn
    ensures conn.inbox == old(conn.inbox)
    ensures var run := RunReceiver(c, r, old(conn.Rest()));
            res == run.res && Did(conn, run) && OnlyPc(run.end, r)
  {
    var _ := conn.Send(Payload(f));
    res := Failure(e);
  }

  /** Where the receive loop stands between two frames. */
  function LoopPc(meta: Meta, written: nat, since: nat, fed: bytes, sha: bytes -> Hash): ReceiverPc {
    if written == meta.size then AwaitDone(meta, sha(fed)) else Receiving(meta, since, fed)
  }

  function LoopState(meta: Meta, written: nat, since: nat, fed: bytes, sha: bytes -> Hash, dev: Device,
      log: seq<int>): Receiver {
    Receiver(LoopPc(meta, written, since, fed, sha), written, dev, log, Some(meta))
  }

  /** The acknowledgement after a stored chunk, between the states `r1` and `r2` of the process. */
  method SendAck(conn: PeerConn, meta: Meta, written: nat, ghost c: RecvCfg, ghost r1: Receiver, ghost r2: Receiver)
      returns (ec: Option<Err>, ghost sent: seq<Frame>)
    requires r1 == r2.(pc := Replying(Ack(meta.id, written), r2.pc))
    modifies conn
    ensures conn.inbox == old(conn.inbox) && conn.outbox == old(conn.outbox) + Payloads(sent)
    ensures RunReceiver(c, r1, old(conn.Rest()))
         == if ec == None then After(sent, RunReceiver(c, r2, conn.Rest())) else Run(r1, sent, Failure(ec.value))
  {
    var f := Ack(meta.id, written);
    ec := conn.Send(Payload(f));
    sent := if ec.Some? then [] else [f];
  }

  /** A chunk that passed the frame checks: store, hash, report, acknowledge when due. */
  method StoreChunk(conn: PeerConn, w: File, hw: HashingWriter, meta: Meta, data: bytes, written0: nat, since0: nat,
                    log0: seq<int>, c: RecvCfg)
      returns (ec: Option<Err>, written: nat, since: nat, log: seq<int>, ghost sent: seq<Frame>)
    requires hw.w == w && hw.Valid() && hw.offset == written0 && written0 < meta.size && written0 + |data| <= meta.size
    modifies conn, w, hw
    ensures hw.Valid() && hw.offset == written && conn.inbox == old(conn.inbox)
    ensures written0 <= written <= meta.size
    ensures conn.outbox == old(conn.outbox) + Payloads(sent)
    ensures var r := LoopState(meta, written0, since0, old(hw.fed), c.sha, old(w.View()), log0);
            var run := RunReceiver(c, OnChunk(c, r, data), old(conn.Rest()));
            var r2 := LoopState(meta, written, since, hw.fed, c.sha, w.View(), log);
            if ec == None then run == After(sent, RunReceiver(c, r2, conn.Rest()))
            else run.res == Failure(ec.value) && run.out == sent && run.end.(pc := r2.pc) == r2
  {
    ghost var r := LoopState(meta, written0, since0, hw.fed, c.sha, w.View(), log0);
    ghost var r1 := OnChunk(c, r, data);
    written, since, log, sent := written0, since0, log0, [];
    ec := hw.Write(data, written0);
    if ec.Some? {
      var f := Abort(meta.id, Ascii("transfer error"));
      sent := if conn.credits == 0 then [] else [f];
      var _ := Refuse(conn, f, ec.value, c, r1);
      return;
    }
    written := written0 + |data|;
    since := since + 1;
    log := log + [written];
    if since >= c.ackEvery || written == meta.size {
      ghost var r2 := LoopState(meta, written, 0, hw.fed, c.sha, w.View(), log);
      ec, sent := SendAck(conn, meta, written, c, r1, r2);
      if ec.Some? {
        return;
      }
      since := 0;
    }
  }

  /** One frame of the receive loop, decoded and checked. */
  method TakeFrame(conn: PeerConn, meta: Meta, written: nat, ghost c: RecvCfg, ghost r: Receiver)
      returns (end: Option<Outcome>, data: bytes)
    requires r.pc.Receiving? && r.pc.meta == meta && r.written == written < meta.size
    modifies conn
    ensures conn.outbox == old(conn.outbox) && conn.credits == old(conn.credits)
    ensures end == None ==> |conn.inbox| < |old(conn.inbox)| && written + |data| <= meta.size
    ensures var run := RunReceiver(c, r, old(conn.Rest()));
            if end == None then run == RunReceiver(c, OnChunk(c, r, data), conn.Rest())
            else run.res == end.value && run.out == [] && OnlyPc(run.end, r)
  {
    data := [];
    ghost var p := conn.Rest();
    var msg := conn.Receive();
    if msg.Err? {
      return Some(Failure(msg.error)), data;
    }
    assert RunReceiver(c, r, p) == RunReceiver(c, ReceiverOnPayload(c, r, msg.value), conn.Rest());
    var dec := Decode(msg.value);
    if dec.Err? {
      return Some(Failure(dec.error)), data;
    }
    var f := dec.value;
    if f.Chunk? {
      if f.id != meta.id || f.offset != written || f.offset + |f.data| > meta.size {
        return Some(Failure(BadFrame)), data;
      }
      return None, f.data;
    } else if f.Done? {
      // inside the loop fewer bytes than offered have been written
      return Some(Failure(SizeMismatch)), data;
    } else if f.Abort? {
      return Some(Failure(Aborted)), data;
    }
    end := Some(Failure(BadFrame));
  }

  /** The receive loop and the closing exchange, from an opened writer. */
  method ReceiveChunks(conn: PeerConn, w: File, hw: HashingWriter, meta: Meta, c: RecvCfg)
      returns (res: Outcome, written: nat, log: seq<int>)
    requires hw.w == w && hw.Valid() && hw.offset == c.resume < meta.size
    modifies conn, w, hw
    ensures var r := LoopState(meta, c.resume, 0, old(hw.fed), c.sha, old(w.View()), [c.resume]);
            var run := RunReceiver(c, r, old(conn.Rest()));
            && res == run.res && written == run.end.written && log == run.end.log
            && w.View() == run.end.dev && run.end.got == Some(meta) && Did(conn, run)
  {
    written, log := c.resume, [c.resume];
    var since := 0;
    ghost var sent: seq<Frame> := [];
    ghost var whole := RunReceiver(c, LoopState(meta, written, 0, hw.fed, c.sha, w.View(), log), conn.Rest());
    while written < meta.size
      invariant hw.Valid() && hw.offset == written <= meta.size
      invariant conn.outbox == old(conn.outbox) + Payloads(sent)
      invariant whole == After(sent,
          RunReceiver(c, LoopState(meta, written, since, hw.fed, c.sha, w.View(), log), conn.Rest()))
      decreases |conn.inbox|
    {
      ghost var r := LoopState(meta, written, since, hw.fed, c.sha, w.View(), log);
      var end, data := TakeFrame(conn, meta, written, c, r);
      if end.Some? {
        return end.value, written, log;
      }
      var ec;
      ghost var more;
      ec, written, since, log, more := StoreChunk(conn, w, hw, meta, data, written, since, log, c);
      OutboxJoin(old(conn.outbox), sent, more);
      if ec.Some? {
        return Failure(ec.value), written, log;
      }
      AfterAfter(sent, more,
          RunReceiver(c, LoopState(meta, written, since, hw.fed, c.sha, w.View(), log), conn.Rest()));
      sent := sent + more;
    }
    ghost var r := LoopState(meta, written, since, hw.fed, c.sha, w.View(), log);
    OutboxJoin(old(conn.outbox), sent, RunReceiver(c, r, conn.Rest()).out);
    var sum := hw.Sum(c.sha);
    res := FinishReceive(conn, meta, sum, c, r);
  }

  method ReceiveOnce(conn: PeerConn, w: File, c: RecvCfg)
      returns (res: Outcome, written: nat, got: Option<Meta>, log: seq<int>)
    modifies conn, w
    ensures var run := RunReceiver(c, ReceiverStart(c, old(w.View())), old(conn.Rest()));
            && res == run.res && written == run.end.written && got == run.end.got && log == run.end.log
            && w.View() == run.end.dev && Did(conn, run)
  {
    written, got, log := c.resume, None, [];
    ghost var r0, p0 := ReceiverStart(c, w.View()), conn.Rest();
    var msg := conn.Receive();
    if msg.Err? {
      res := Failure(msg.error);
      return;
    }
    ghost var r1 := ReceiverOnPayload(c, r0, msg.value);
    assert RunReceiver(c, r0, p0) == RunReceiver(c, r1, conn.Rest());
    var dec := Decode(msg.value);
    if dec.Err? {
      res := Failure(dec.error);
      return;
    }
    if !dec.value.Offer? {
      res := Failure(BadFrame);
      return;
    }
    var meta := dec.value.meta;
    if c.wanted.Some? && meta.id != c.wanted.value {
      res := Refuse(conn, Reject(meta.id, Ascii("unexpected transfer id")), BadFrame, c, r1);
      return;
    }
    got := Some(meta);
    if c.resume > meta.size {
      res := Refuse(conn, Reject(meta.id, Ascii("resume past end")), ResumePastEnd, c, r1);
      return;
    }
    var refusal := c.accept(meta);
    if refusal.Some? {
      res := Refuse(conn, Reject(meta.id, refusal.value), Rejected, c, r1);
      return;
    }
    res, written, log := Accepted(conn, w, c, meta, r1);
  }

  lemma AcceptGoesOut(c: RecvCfg, r: Receiver, r1: Receiver, p: Script)
    requires r.pc.Accepting? && p.credits > 0
    requires r1 == r.(pc := Prepare(c, r.pc.meta, r.dev), log := r.log + [c.resume])
    ensures RunReceiver(c, r, p)
        == After([Accept(r.pc.meta.id, c.resume)], RunReceiver(c, r1, p.(credits := p.credits - 1)))
  {
  }

  /** From the accept frame on. */
  method Accepted(conn: PeerConn, w: File, c: RecvCfg, meta: Meta, ghost r: Receiver)
      returns (res: Outcome, written: nat, log: seq<int>)
    requires c.resume <= meta.size
    requires r == Receiver(Accepting(meta), c.resume, w.View(), [], Some(meta))
    modifies conn, w
    ensures var run := RunReceiver(c, r, old(conn.Rest()));
            && res == run.res && written == run.end.written && log == run.end.log
            && w.View() == run.end.dev && run.end.got == Some(meta) && Did(conn, run)
  {
    written, log := c.resume, [];
    var f := Accept(meta.id, c.resume);
    ghost var p := conn.Rest();
    var ec := conn.Send(Payload(f));
    if ec.Some? {
      res := Failure(ec.value);
      return;
    }
    log := [c.resume];
    ghost var r1 := Receiver(Prepare(c, meta, w.View()), c.resume, w.View(), [c.resume], Some(meta));
    AcceptGoesOut(c, r, r1, p);
    assert p.(credits := p.credits - 1) == conn.Rest();
    OutboxFirst(old(conn.outbox), f, RunReceiver(c, r1, conn.Rest()).out);
    res, written, log := Opened(conn, w, c, meta, r1);
  }

  /** Either everything is there already, or the writer opens at the resume offset. */
  method Opened(conn: PeerConn, w: File, c: RecvCfg, meta: Meta, ghost r: Receiver)
      returns (res: Outcome, written: nat, log: seq<int>)
    requires c.resume <= meta.size
    requires r == Receiver(Prepare(c, meta, w.View()), c.resume, w.View(), [c.resume], Some(meta))
    modifies conn, w
    ensures var run := RunReceiver(c, r, old(conn.Rest()));
            && res == run.res && written == run.end.written && log == run.end.log
            && w.View() == run.end.dev && run.end.got == Some(meta) && Did(conn, run)
  {
    written, log := c.resume, [c.resume];
    if c.resume == meta.size {
      var sum := ZERO_HASH;
      if w.readable {
        var h := HashReader(w, meta.size, c.sha);
        if h.Err? {
          res := Failure(h.error);
          return;
        }
        sum := h.value;
      }
      res := FinishReceive(conn, meta, sum, c, r);
      return;
    }
    var hw := new HashingWriter(w, c.resume);
    if hw.openError.Some? {
      res := Refuse(conn, Abort(meta.id, Ascii("transfer error")), hw.openError.value, c, r);
      return;
    }
    res, written, log := ReceiveChunks(conn, w, hw, meta, c);
  }
}
