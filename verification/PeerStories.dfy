/** What each endpoint has been told and what it has answered, against an arbitrary peer: which frames
    it took, why it accepted, why it gave up, and what it made of the hashes
    (src/transfer/transfer.cpp:436-457, 470-539, 542-564, 570-715). */
module PeerStories {
  import opened Bytes
  import opened Errors
  import opened Frames
  import opened Storage
  import opened Endpoints
  import opened PeerSafety

  lemma DecodeErrs(b: bytes)
    ensures Decode(b).Err? ==> Decode(b).error == BadFrame
  {
  }

  // ---------- receiver ----------

  /** The transfer is the expected one, if one is expected. */
  predicate Expected(c: RecvCfg, m: Meta) { c.wanted == None || c.wanted == Some(m.id) }

  /** The offer is expected, long enough, and the accept hook has nothing against it. */
  predicate Welcome(c: RecvCfg, m: Meta) { Expected(c, m) && c.resume <= m.size && c.accept(m) == None }

  predicate Is(b: bytes, f: Frame) { Decode(b) == Ok(f) }

  predicate IsDone(b: bytes, id: ID) { Decode(b).Ok? && Decode(b).value.Done? && Decode(b).value.id == id }

  /** The payloads are chunks of this transfer, each starting where the one before ended. */
  predicate Arrived(k: seq<bytes>, id: ID, from: int, to: int) {
    if k == [] then from == to
    else
      var d := Decode(k[|k| - 1]);
      && d.Ok? && d.value.Chunk? && d.value.id == id && d.value.offset + |d.value.data| == to
      && Arrived(k[..|k| - 1], id, from, d.value.offset)
  }

  /** The accept is out and nothing has gone wrong. */
  predicate Underway(pc: ReceiverPc) {
    pc.Receiving? || pc.AwaitDone? || pc.Replying? || pc == ReceiverDone(Success)
  }

  /** The done frame has been taken. */
  predicate Closing(pc: ReceiverPc) { pc.ReceiverDone? || (pc.Replying? && pc.after.ReceiverDone?) }

  /** Only a welcome offer is accepted, and it is the first payload taken. */
  predicate Greeted(c: RecvCfg, r: Receiver, h: seq<Frame>, k: seq<bytes>) {
    && (r.pc.AwaitOffer? ==> k == [] && h == [] && r.got == None)
    && (r.got.Some? ==> k != [] && Is(k[0], Offer(r.got.value)) && Expected(c, r.got.value))
    && (r.pc.Accepting? ==> h == [] && |k| == 1 && r.got == Some(r.pc.meta) && Welcome(c, r.pc.meta))
    && (forall i :: 0 <= i < |h| && h[i].Accept? ==>
          i == 0 && r.got.Some? && Welcome(c, r.got.value) && h[0] == Accept(r.got.value.id, c.resume))
    && (Underway(r.pc) || r.written > c.resume ==> r.got.Some? && h != [] && h[0].Accept?)
    && (r.pc.Refusing? ==> !r.pc.reply.Accept? && (|k| == 1 || (r.got.Some? && r.written < r.got.value.size)))
    && (r.pc.Replying? ==>
          !r.pc.reply.Accept? && (r.pc.after.Receiving? || r.pc.after.AwaitDone? || r.pc.after.ReceiverDone?))
  }

  /** What was taken after the offer: chunks up to `written`, and at the end the done frame, answered with
      the digest and with whether both hashes respect it. */
  predicate Followed(c: RecvCfg, r: Receiver, h: seq<Frame>, k: seq<bytes>) {
    Underway(r.pc) && r.got.Some? ==>
      var m, n := r.got.value, if Closing(r.pc) then |k| - 1 else |k|;
      && 1 <= n && Arrived(k[1..n], m.id, c.resume, r.written)
      && (Closing(r.pc) ==>
            && r.written == m.size && IsDone(k[n], m.id)
            && var digest, sent := LocalHash(c, r, m), Decode(k[n]).value.hash;
               var ok := Respected(m.hash, digest) && Respected(sent, digest);
               if r.pc.Replying?
               then r.pc == Replying(Done(m.id, ok, digest),
                   ReceiverDone(if ok then Success else Failure(HashMismatch)))
               else ok && h != [] && h[|h| - 1] == Done(m.id, true, digest))
  }

  /** The destination cannot be read back as far as the resume offset. */
  predicate Unopened(c: RecvCfg, m: Meta, dev: Device) {
    if c.resume == m.size then dev.readable && m.size > |dev.data|
    else c.resume > 0 && (!dev.readable || c.resume > |dev.data|)
  }

  /** Why an attempt was given up: the error, and the payload that caused it. */
  predicate Blamed(c: RecvCfg, r: Receiver, h: seq<Frame>, k: seq<bytes>, e: Err) {
    && k != []
    && var last := k[|k| - 1];
       if r.got == None then |k| == 1 && e == BadFrame && !ExpectedOffer(c, last)
       else if !Welcome(c, r.got.value) then
         |k| == 1 && e == if r.got.value.size < c.resume then ResumePastEnd else Rejected
       else if |k| == 1 then e == Other && Unopened(c, r.got.value, r.dev)
       else BlamedLater(c, r, h, last, e)
  }

  predicate ExpectedOffer(c: RecvCfg, b: bytes) {
    Decode(b).Ok? && Decode(b).value.Offer? && Expected(c, Decode(b).value.meta)
  }

  /** Once accepted: a done frame with bad hashes, a done frame too early, an abort, a device that is full,
      or a frame that does not belong here. */
  predicate BlamedLater(c: RecvCfg, r: Receiver, h: seq<Frame>, last: bytes, e: Err)
    requires r.got.Some?
  {
    var m, d := r.got.value, Decode(last);
    if r.written == m.size then
      if IsDone(last, m.id) then
        var digest := LocalHash(c, r, m);
        && e == HashMismatch && !(Respected(m.hash, digest) && Respected(d.value.hash, digest))
        && h != [] && h[|h| - 1] == Done(m.id, false, digest)
      else e == BadFrame
    else if d.Ok? && d.value.Abort? then e == Aborted
    else if d.Ok? && d.value.Done? then e == SizeMismatch
    else if d.Ok? && d.value.Chunk? && d.value.id == m.id && d.value.offset == r.written
            && r.written + |d.value.data| <= m.size then e == Other && r.written + |d.value.data| > r.dev.capacity
    else e == BadFrame
  }

  /** How the attempt has failed, or is about to. */
  function Failing(pc: ReceiverPc): Option<Err> {
    match pc
    case Refusing(_, e) => Some(e)
    case ReceiverDone(res) => if res == Success then None else Some(res.error)
    case _ => None
  }

  predicate Told(c: RecvCfg, r: Receiver, h: seq<Frame>, k: seq<bytes>) {
    && Greeted(c, r, h, k) && Followed(c, r, h, k)
    && (Failing(r.pc).Some? ==> Blamed(c, r, h, k, Failing(r.pc).value))
  }

  lemma ToldOffer(c: RecvCfg, r: Receiver, b: bytes)
    requires r.pc.AwaitOffer? && Told(c, r, [], []) && r.written == c.resume
    ensures Told(c, ReceiverOnPayload(c, r, b), [], [b])
  {
    hide Decode;
    DecodeErrs(b);
  }

  lemma ToldAccept(c: RecvCfg, r: Receiver, h: seq<Frame>, k: seq<bytes>)
    requires r.pc.Accepting? && Told(c, r, h, k) && r.written == c.resume
    ensures Told(c, ReceiverAction(c, r).next, h + [ReceiverAction(c, r).frame], k)
  {
    hide Decode;
    var r2 := ReceiverAction(c, r).next;
    assert k[1..1] == [];
  }

  /** A reply that is out: the acknowledgement, or the verdict. */
  lemma ToldReply(c: RecvCfg, r: Receiver, h: seq<Frame>, k: seq<bytes>)
    requires r.pc.Replying? && Told(c, r, h, k)
    ensures Told(c, r.(pc := r.pc.after), h + [r.pc.reply], k)
  {
    hide Decode;
    var g := h + [r.pc.reply];
    assert g[|g| - 1] == r.pc.reply;
    if r.pc.after.ReceiverDone? { VerdictOut(c, r, h, k); }
  }

  lemma VerdictOut(c: RecvCfg, r: Receiver, h: seq<Frame>, k: seq<bytes>)
    requires r.pc.Replying? && r.pc.after.ReceiverDone? && Told(c, r, h, k)
    ensures var r2, g := r.(pc := r.pc.after), h + [r.pc.reply];
            Followed(c, r2, g, k) && (Failing(r2.pc).Some? ==> Blamed(c, r2, g, k, Failing(r2.pc).value))
  {
    hide Decode;
    var g := h + [r.pc.reply];
    assert g[|g| - 1] == r.pc.reply;
  }

  lemma ArrivedMore(k: seq<bytes>, b: bytes, id: ID, from: int, at: int, data: bytes)
    requires Arrived(k, id, from, at) && Is(b, Chunk(id, at, data))
    ensures Arrived(k + [b], id, from, at + |data|)
  {
    assert (k + [b])[..|k|] == k;
  }

  /** A chunk that fits: stored, or refused by a full device. */
  lemma ToldChunk(c: RecvCfg, dev0: Device, r: Receiver, h: seq<Frame>, k: seq<bytes>, b: bytes, data: bytes)
    requires ReceiverInv(c, dev0, r, h, k) && r.pc.Receiving? && Told(c, r, h, k)
    requires Is(b, Chunk(r.pc.meta.id, r.written, data)) && r.written + |data| <= r.pc.meta.size
    ensures Told(c, OnChunk(c, r, data), h, k + [b])
  {
    hide Decode, Untouched, ChunkBytes, Arrived;
    var g, n := k + [b], |k|;
    assert g[1..n + 1] == k[1..n] + [b] && g[0] == k[0] && g[|g| - 1] == b;
    ArrivedMore(k[1..n], b, r.pc.meta.id, c.resume, r.written, data);
  }

  /** Anything else ends the attempt. */
  lemma ToldOther(c: RecvCfg, dev0: Device, r: Receiver, h: seq<Frame>, k: seq<bytes>, b: bytes)
    requires ReceiverInv(c, dev0, r, h, k) && r.pc.Receiving? && Told(c, r, h, k)
    requires forall data :: r.written + |data| <= r.pc.meta.size ==> !Is(b, Chunk(r.pc.meta.id, r.written, data))
    ensures Told(c, ReceiverOnPayload(c, r, b), h, k + [b])
  {
    hide Decode, Untouched, ChunkBytes, Arrived;
    DecodeErrs(b);
    var g, d := k + [b], Decode(b);
    assert g[0] == k[0] && g[|g| - 1] == b;
    assert d.Ok? && d.value.Chunk? ==> Is(b, Chunk(d.value.id, d.value.offset, d.value.data));
  }

  lemma ToldDone(c: RecvCfg, dev0: Device, r: Receiver, h: seq<Frame>, k: seq<bytes>, b: bytes)
    requires ReceiverInv(c, dev0, r, h, k) && r.pc.AwaitDone? && Told(c, r, h, k)
    ensures Told(c, ReceiverOnPayload(c, r, b), h, k + [b])
  {
    hide Decode, Untouched, ChunkBytes, Arrived, VerdictOk;
    DecodeErrs(b);
    var g, d := k + [b], Decode(b);
    assert g[0] == k[0] && g[|g| - 1] == b && g[1..|k|] == k[1..|k|];
    if IsDone(b, r.pc.meta.id) { VerdictIs(r.pc.meta.hash, d.value.hash, r.pc.sum); }
  }

  lemma ToldPayload(c: RecvCfg, dev0: Device, r: Receiver, h: seq<Frame>, k: seq<bytes>, b: bytes)
    requires ReceiverInv(c, dev0, r, h, k) && Told(c, r, h, k) && ReceiverAction(c, r).Await?
    ensures Told(c, ReceiverOnPayload(c, r, b), h, k + [b])
  {
    hide Decode, Told, OnChunk;
    match r.pc
    case AwaitOffer =>
      NothingYet(c, r, h, k);
      assert [] + [b] == [b];
      ToldOffer(c, r, b);
    case Receiving(m, _, _) =>
      var d := Decode(b);
      if d.Ok? && d.value.Chunk? && d.value.id == m.id && d.value.offset == r.written
          && r.written + |d.value.data| <= m.size {
        assert Is(b, Chunk(m.id, r.written, d.value.data));
        ToldChunk(c, dev0, r, h, k, b, d.value.data);
      } else {
        ToldOther(c, dev0, r, h, k, b);
      }
    case AwaitDone(_, _) => ToldDone(c, dev0, r, h, k, b);
  }

  lemma NothingYet(c: RecvCfg, r: Receiver, h: seq<Frame>, k: seq<bytes>)
    requires r.pc.AwaitOffer? && Told(c, r, h, k)
    ensures h == [] && k == []
  {
  }

  lemma ToldEmit(c: RecvCfg, dev0: Device, r: Receiver, h: seq<Frame>, k: seq<bytes>)
    requires ReceiverInv(c, dev0, r, h, k) && Told(c, r, h, k) && ReceiverAction(c, r).Emit?
    ensures Told(c, ReceiverAction(c, r).next, h + [ReceiverAction(c, r).frame], k)
  {
    hide Told, Untouched, Decode;
    if r.pc.Accepting? {
      ToldAccept(c, r, h, k);
    } else {
      ToldReply(c, r, h, k);
    }
  }

  /** A refusal, whether or not it goes out. */
  lemma ToldRefusal(c: RecvCfg, r: Receiver, h: seq<Frame>, k: seq<bytes>, sent: bool)
    requires r.pc.Refusing? && Told(c, r, h, k)
    ensures Told(c, ReceiverAction(c, r).end, if sent then h + [r.pc.reply] else h, k)
  {
    hide Decode;
  }

  /** What the call returns: the outcome of the attempt, or the error of the connection. */
  predicate Returned(run: Run<Receiver>, loss: ConnErr) {
    run.res == match run.end.pc
               case ReceiverDone(res) => res
               case _ => Failure(MapConnErr(loss))
  }

  lemma {:induction false} ToldRun(c: RecvCfg, dev0: Device, r: Receiver, h: seq<Frame>, k: seq<bytes>, p: Script)
      returns (n: nat)
    requires Good(c, dev0, r, h, k) && Told(c, r, h, k)
    ensures var run := RunReceiver(c, r, p);
            && n <= |p.inbox| && Told(c, run.end, h + run.out, k + p.inbox[..n])
            && Good(c, dev0, run.end, h + run.out, k + p.inbox[..n]) && Returned(run, p.loss)
    decreases |p.inbox| + p.credits
  {
    hide Told, ReceiverInv, Filled, Decode, ReceiverOnPayload;
    var a := ReceiverAction(c, r);
    n := 0;
    assert k + p.inbox[..0] == k && h + [] == h;
    if a.Await? && p.inbox != [] {
      var b, q := p.inbox[0], p.(inbox := p.inbox[1..]);
      GoodPayload(c, dev0, r, h, k, b);
      ToldPayload(c, dev0, r, h, k, b);
      n := ToldRun(c, dev0, ReceiverOnPayload(c, r, b), h, k + [b], q);
      n := n + 1;
      assert k + [b] + p.inbox[1..][..n - 1] == k + p.inbox[..n];
    } else if a.Emit? && p.credits > 0 {
      var q := p.(credits := p.credits - 1);
      GoodEmit(c, dev0, r, h, k);
      ToldEmit(c, dev0, r, h, k);
      n := ToldRun(c, dev0, a.next, h + [a.frame], k, q);
      assert h + [a.frame] + RunReceiver(c, a.next, q).out == h + ([a.frame] + RunReceiver(c, a.next, q).out);
    } else if a.EmitLast? {
      ToldRefusal(c, r, h, k, p.credits > 0);
      GoodRefusal(c, dev0, r, h, k, p.credits > 0);
    }
  }

  lemma GoodRefusal(c: RecvCfg, dev0: Device, r: Receiver, h: seq<Frame>, k: seq<bytes>, sent: bool)
    requires Good(c, dev0, r, h, k) && r.pc.Refusing?
    ensures Good(c, dev0, ReceiverAction(c, r).end, if sent then h + [r.pc.reply] else h, k)
  {
    hide Decode, ChunkBytes, Untouched;
  }

  /** The whole story of receive_once against any peer: only a welcome offer is accepted, what is stored is
      chunks of that offer end to end, the verdict respects both hashes, and every error has its cause. */
  lemma ReceiverStory(c: RecvCfg, dev: Device, p: Script) returns (n: nat)
    ensures var run := RunReceiver(c, ReceiverStart(c, dev), p);
            && n <= |p.inbox| && Told(c, run.end, run.out, p.inbox[..n]) && Returned(run, p.loss)
            && (run.end.got.Some? ==> Expected(c, run.end.got.value))
  {
    hide RunReceiver, Untouched, ChunkBytes, Decode;
    GoodStart(c, dev);
    n := ToldRun(c, dev, ReceiverStart(c, dev), [], [], p);
    var run := RunReceiver(c, ReceiverStart(c, dev), p);
    assert [] + run.out == run.out && [] + p.inbox[..n] == p.inbox[..n];
  }

  /** Every offer gets its answer: a reject that says why, and nothing else changes; or an accept. */
  lemma OfferAnswered(c: RecvCfg, dev: Device, p: Script, m: Meta)
    requires p.inbox != [] && Is(p.inbox[0], Offer(m))
    ensures var run := RunReceiver(c, ReceiverStart(c, dev), p);
            if Welcome(c, m) then
              p.credits > 0 ==> run.out != [] && run.out[0] == Accept(m.id, c.resume)
            else
              var (why, e) := if !Expected(c, m) then (Ascii("unexpected transfer id"), BadFrame)
                              else if m.size < c.resume then (Ascii("resume past end"), ResumePastEnd)
                              else (c.accept(m).value, Rejected);
              && run.res == Failure(e)
              && run.out == (if p.credits == 0 then [] else [Reject(m.id, why)])
              && run.end.dev == dev && run.end.written == c.resume && run.end.log == []
  {
    var r := ReceiverOnPayload(c, ReceiverStart(c, dev), p.inbox[0]);
    var q := p.(inbox := p.inbox[1..]);
    assert RunReceiver(c, ReceiverStart(c, dev), p) == RunReceiver(c, r, q);
    assert r.pc.Refusing? <==> !Welcome(c, m);
    assert RunReceiver(c, r, q).end.dev == dev || Welcome(c, m);
  }

  // ---------- sender ----------

  /** Answers taken: the accept and then acknowledgements, all of this transfer, at the reported offsets. */
  predicate Answers(c: SendCfg, k: seq<bytes>, log: seq<int>) {
    && |k| == |log|
    && forall i :: 0 <= i < |k| ==> Is(k[i], if i == 0 then Accept(c.meta.id, log[0]) else Ack(c.meta.id, log[i]))
  }

  predicate AllAcked(c: SendCfg, log: seq<int>) { log != [] && log[|log| - 1] >= c.meta.size }

  /** Why the sender gave up on the last payload it took. */
  predicate SenderBlamed(c: SendCfg, log: seq<int>, last: bytes, e: Err) {
    var d, id := Decode(last), c.meta.id;
    if log == [] then
      if d.Ok? && d.value.Reject? && d.value.id == id then e == Rejected
      else if d.Ok? && d.value.Accept? && d.value.id == id
      then e == ResumePastEnd && !(0 <= d.value.offset <= c.meta.size)
      else e == BadFrame
    else if !AllAcked(c, log) then
      if d.Ok? && d.value.Abort? then e == Aborted
      else
        e == BadFrame && !Is(last, Ack(id, log[|log| - 1]))
    else if IsDone(last, id) then e == HashMismatch && !d.value.ok
    else e == BadFrame
  }

  predicate Heard(c: SendCfg, s: Sender, k: seq<bytes>) {
    match s.pc
    case AtOffer => k == [] && s.log == []
    case AwaitAccept => k == [] && s.log == []
    case Sending(acked, next) => s.log != [] && s.log[|s.log| - 1] == acked <= next && Answers(c, k, s.log)
    case AwaitVerdict => AllAcked(c, s.log) && Answers(c, k, s.log)
    case SenderDone(res) =>
      && k != [] && Answers(c, k[..|k| - 1], s.log)
      && if res == Success then AllAcked(c, s.log) && IsDone(k[|k| - 1], c.meta.id) && Decode(k[|k| - 1]).value.ok
         else SenderBlamed(c, s.log, k[|k| - 1], res.error)
  }

  lemma HeardPayload(c: SendCfg, s: Sender, k: seq<bytes>, b: bytes)
    requires Heard(c, s, k) && SenderAction(c, s).Await?
    ensures Heard(c, SenderOnPayload(c, s, b), k + [b])
  {
    hide Decode, Heard;
    match s.pc
    case AwaitAccept => HeardAccept(c, s, k, b);
    case Sending(_, _) => HeardAck(c, s, k, b);
    case AwaitVerdict => HeardVerdict(c, s, k, b);
  }

  lemma HeardAccept(c: SendCfg, s: Sender, k: seq<bytes>, b: bytes)
    requires Heard(c, s, k) && s.pc.AwaitAccept?
    ensures Heard(c, SenderOnPayload(c, s, b), k + [b])
  {
    hide Decode;
    DecodeErrs(b);
    assert k + [b] == [b] && [b][..0] == [];
  }

  lemma HeardAck(c: SendCfg, s: Sender, k: seq<bytes>, b: bytes)
    requires Heard(c, s, k) && s.pc.Sending? && SenderAction(c, s).Await?
    ensures Heard(c, SenderOnPayload(c, s, b), k + [b])
  {
    hide Decode;
    DecodeErrs(b);
    var g, s2 := k + [b], SenderOnPayload(c, s, b);
    assert g[..|g| - 1] == k && g[|g| - 1] == b;
    if s2.pc.Sending? {
      assert Is(b, Ack(c.meta.id, s2.pc.acked)) && s2.log == s.log + [s2.pc.acked];
      AnswersMore(c, k, s.log, b, s2.pc.acked);
    }
  }

  lemma AnswersMore(c: SendCfg, k: seq<bytes>, log: seq<int>, b: bytes, o: int)
    requires Answers(c, k, log) && log != [] && Is(b, Ack(c.meta.id, o))
    ensures Answers(c, k + [b], log + [o])
  {
    hide Decode;
  }

  lemma HeardVerdict(c: SendCfg, s: Sender, k: seq<bytes>, b: bytes)
    requires Heard(c, s, k) && s.pc.AwaitVerdict?
    ensures Heard(c, SenderOnPayload(c, s, b), k + [b])
  {
    hide Decode, Answers;
    DecodeErrs(b);
    var g := k + [b];
    assert g[..|g| - 1] == k && g[|g| - 1] == b;
  }

  lemma HeardEmit(c: SendCfg, s: Sender, k: seq<bytes>)
    requires Heard(c, s, k) && SenderAction(c, s).Emit?
    ensures Heard(c, SenderAction(c, s).next, k)
  {
  }

  /** What the call returns: the outcome, the error of the connection, or, before a frame could be made,
      a refusal to offer or a source that is too short. */
  predicate SenderReturned(c: SendCfg, run: Run<Sender>, loss: ConnErr) {
    match run.end.pc
    case SenderDone(res) => run.res == res
    case AtOffer =>
      run.res == Failure(if c.meta.size < 0 then SizeMismatch
                         else if |c.meta.name| > 0xffff then BadFrame else MapConnErr(loss))
    case Sending(_, next) =>
      || run.res == Failure(MapConnErr(loss))
      || (run.res == Failure(Other) && |c.src| < c.meta.size && next + c.chunk > |c.src|)
    case _ => run.res == Failure(MapConnErr(loss))
  }

  lemma {:induction false} HeardRun(c: SendCfg, s: Sender, k: seq<bytes>, p: Script) returns (n: nat)
    requires Heard(c, s, k) && (s.pc.Sending? ==> 0 <= s.pc.next <= c.meta.size)
    ensures var run := RunSender(c, s, p);
            n <= |p.inbox| && Heard(c, run.end, k + p.inbox[..n]) && SenderReturned(c, run, p.loss)
    decreases |p.inbox| + p.credits
  {
    hide Heard, Decode, SenderOnPayload;
    var a := SenderAction(c, s);
    n := 0;
    assert k + p.inbox[..0] == k;
    if a.Await? && p.inbox != [] {
      var b, q := p.inbox[0], p.(inbox := p.inbox[1..]);
      HeardPayload(c, s, k, b);
      NextStays(c, s, b);
      n := HeardRun(c, SenderOnPayload(c, s, b), k + [b], q);
      n := n + 1;
      assert k + [b] + p.inbox[1..][..n - 1] == k + p.inbox[..n];
    } else if a.Emit? && p.credits > 0 {
      HeardEmit(c, s, k);
      n := HeardRun(c, a.next, k, p.(credits := p.credits - 1));
    }
  }

  lemma NextStays(c: SendCfg, s: Sender, b: bytes)
    requires s.pc.Sending? ==> 0 <= s.pc.next <= c.meta.size
    ensures var s2 := SenderOnPayload(c, s, b); s2.pc.Sending? ==> 0 <= s2.pc.next <= c.meta.size
  {
    hide Decode;
  }

  /** The whole story of send_once against any peer: it reports exactly the offsets it was given by an
      accept and acknowledgements of this transfer, success needs a good verdict for this transfer after
      everything was acknowledged, and every error has its cause. */
  lemma SenderStory(c: SendCfg, p: Script) returns (n: nat)
    ensures var run := RunSender(c, SENDER_START, p);
            n <= |p.inbox| && Heard(c, run.end, p.inbox[..n]) && SenderReturned(c, run, p.loss)
  {
    n := HeardRun(c, SENDER_START, [], p);
    assert [] + p.inbox[..n] == p.inbox[..n];
  }
}
