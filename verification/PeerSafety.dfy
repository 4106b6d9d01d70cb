/** Each endpoint alone against an arbitrary peer: whatever is delivered and whenever the connection
    fails (src/transfer/transfer.cpp:459-540, 542-716). A state in the middle of a run is the end of
    the run whose script stops there, so statements about ends are statements about every state. */
module PeerSafety {
  import opened Bytes
  import opened Errors
  import opened Frames
  import opened Storage
  import opened Grid
  import opened Endpoints
  import opened Shapes

  // ---------- sender ----------

  /** The offer, then chunks tiling [from, to), then possibly the done frame. */
  predicate Sent(c: SendCfg, h: seq<Frame>, from: int, to: int, closed: bool) {
    var n := |h| - (if closed then 1 else 0);
    && 0 <= from <= to <= c.meta.size
    && 1 <= n && h[0] == Offer(c.meta)
    && Tiles(h[1..n], c.meta.id, c.src, from, to)
    && (closed ==> h[n] == Done(c.meta.id, true, c.meta.hash))
  }

  /** Some prefix of that, starting at the first reported offset. */
  ghost predicate PartSent(c: SendCfg, log: seq<int>, h: seq<Frame>) {
    if log == [] then h == [] || h == [Offer(c.meta)]
    else exists to, closed :: Sent(c, h, log[0], to, closed)
  }

  predicate Reports(log: seq<int>, size: int) {
    && Ascends(log)
    && forall i :: 0 <= i < |log| ==> 0 <= log[i] <= size
  }

  ghost predicate SenderInv(c: SendCfg, s: Sender, h: seq<Frame>) {
    && Reports(s.log, c.meta.size)
    && match s.pc
       case AtOffer => h == [] && s.log == []
       case AwaitAccept => h == [Offer(c.meta)] && s.log == []
       case Sending(acked, next) =>
         && s.log != [] && s.log[|s.log| - 1] == acked <= next
         && Sent(c, h, s.log[0], next, false)
         && CountInFlight(acked, next, c.chunk) <= c.window
       case AwaitVerdict => s.log != [] && Sent(c, h, s.log[0], c.meta.size, true)
       case SenderDone(res) =>
         if res == Success then s.log != [] && Sent(c, h, s.log[0], c.meta.size, true)
         else PartSent(c, s.log, h)
  }

  lemma OneMoreInFlight(acked: int, next: int, n: nat, chunk: pos)
    requires acked <= next && n <= chunk
    ensures CountInFlight(acked, next + n, chunk) <= CountInFlight(acked, next, chunk) + 1
  {
    var x, m := next - acked, CeilDiv(next - acked, chunk);
    CeilDivBounds(x, chunk);
    CeilDivBounds(x + n, chunk);
    assert (m + 2) * chunk == m * chunk + chunk + chunk;
    if CeilDiv(x + n, chunk) > m + 1 { MulMono(m + 2, CeilDiv(x + n, chunk), chunk); }
    if x == 0 { CeilDivUnique(0, chunk, 0); }
  }

  lemma FewerInFlight(acked: int, acked2: int, next: int, chunk: pos)
    requires acked <= acked2 <= next
    ensures CountInFlight(acked2, next, chunk) <= CountInFlight(acked, next, chunk)
  {
    var x, y := next - acked, next - acked2;
    CeilDivBounds(x, chunk);
    CeilDivBounds(y, chunk);
    assert (CeilDiv(x, chunk) + 1) * chunk == CeilDiv(x, chunk) * chunk + chunk;
    if CeilDiv(y, chunk) > CeilDiv(x, chunk) { MulMono(CeilDiv(x, chunk) + 1, CeilDiv(y, chunk), chunk); }
    if y == 0 { CeilDivUnique(0, chunk, 0); }
  }

  lemma SenderEmitKeeps(c: SendCfg, s: Sender, h: seq<Frame>)
    requires SenderInv(c, s, h) && SenderAction(c, s).Emit?
    ensures SenderInv(c, SenderAction(c, s).next, h + [SenderAction(c, s).frame])
  {
    var f := SenderAction(c, s).frame;
    var g := h + [f];
    match s.pc
    case AtOffer =>
    case Sending(acked, next) =>
      if acked >= c.meta.size {
        assert g[1..|h|] == h[1..|h|];
      } else {
        var n := NextLength(c, next);
        assert h[1..|h|] == h[1..];
        TilesMore(h[1..], c.meta.id, c.src, s.log[0], next, n);
        assert g[1..|g|] == h[1..] + [f];
        OneMoreInFlight(acked, next, n, c.chunk);
      }
    case _ =>
  }

  lemma SenderFrameKeeps(c: SendCfg, s: Sender, h: seq<Frame>, f: Frame)
    requires SenderInv(c, s, h) && SenderAction(c, s).Await?
    ensures SenderInv(c, SenderOnFrame(c, s, f), h)
  {
    var s2 := SenderOnFrame(c, s, f);
    match s.pc
    case AwaitAccept =>
      if s2.pc.Sending? {
        assert h[1..1] == [];
        CeilDivUnique(0, c.chunk, 0);
      }
    case Sending(acked, next) =>
      if s2.pc.Sending? {
        FewerInFlight(acked, s2.pc.acked, next, c.chunk);
      } else {
        assert Sent(c, h, s.log[0], next, false);
      }
    case AwaitVerdict =>
      assert Sent(c, h, s.log[0], c.meta.size, true);
    case _ =>
  }

  lemma SenderPayloadKeeps(c: SendCfg, s: Sender, h: seq<Frame>, b: bytes)
    requires SenderInv(c, s, h) && SenderAction(c, s).Await?
    ensures SenderInv(c, SenderOnPayload(c, s, b), h)
  {
    match Decode(b)
    case Ok(f) => SenderFrameKeeps(c, s, h, f);
    case Err(e) =>
      if s.pc.Sending? {
        assert Sent(c, h, s.log[0], s.pc.next, false);
      } else if s.pc.AwaitVerdict? {
        assert Sent(c, h, s.log[0], c.meta.size, true);
      }
  }

  lemma {:induction false} SenderKeeps(c: SendCfg, s: Sender, h: seq<Frame>, p: Script)
    requires SenderInv(c, s, h)
    ensures var run := RunSender(c, s, p);
            SenderInv(c, run.end, h + run.out) && (run.res == Success ==> run.end.pc == SenderDone(Success))
    decreases |p.inbox| + p.credits
  {
    var a := SenderAction(c, s);
    assert h + [] == h;
    if a.Await? && p.inbox != [] {
      SenderPayloadKeeps(c, s, h, p.inbox[0]);
      SenderKeeps(c, SenderOnPayload(c, s, p.inbox[0]), h, p.(inbox := p.inbox[1..]));
    } else if a.Emit? && p.credits > 0 {
      SenderEmitKeeps(c, s, h);
      SenderKeeps(c, a.next, h + [a.frame], p.(credits := p.credits - 1));
      var rest := RunSender(c, a.next, p.(credits := p.credits - 1));
      assert h + [a.frame] + rest.out == h + ([a.frame] + rest.out);
    }
  }

  /** Sender safety: against any peer the frames sent are the offer and chunks tiling an interval
      that starts at the accepted offset, each byte once, with the done frame only after the last
      byte; reports ascend within [0, size]; never more than `window` chunks nor window * chunk bytes
      are unacknowledged; and success means everything was sent. */
  lemma SenderSafe(c: SendCfg, p: Script)
    ensures var run := RunSender(c, SENDER_START, p);
            && Reports(run.end.log, c.meta.size)
            && PartSent(c, run.end.log, run.out)
            && (run.res == Success ==> run.end.log != [] && Sent(c, run.out, run.end.log[0], c.meta.size, true))
            && (run.end.pc.Sending? ==>
                  var Sending(acked, next) := run.end.pc;
                  && run.end.log != [] && run.end.log[0] <= acked <= next <= c.meta.size
                  && CountInFlight(acked, next, c.chunk) <= c.window
                  && next - acked <= c.window * c.chunk)
  {
    SenderKeeps(c, SENDER_START, [], p);
    var run := RunSender(c, SENDER_START, p);
    assert [] + run.out == run.out;
    SenderInvMeans(c, run.end, run.out);
  }

  lemma SenderInvMeans(c: SendCfg, s: Sender, h: seq<Frame>)
    requires SenderInv(c, s, h)
    ensures PartSent(c, s.log, h)
    ensures s.pc.Sending? ==>
              && s.log != [] && s.log[0] <= s.pc.acked <= s.pc.next <= c.meta.size
              && s.pc.next - s.pc.acked <= c.window * c.chunk
  {
    match s.pc
    case Sending(acked, next) =>
      assert Sent(c, h, s.log[0], next, false);
      BytesInFlight(acked, next, c.chunk, c.window);
      AscendsOver(s.log, 0, |s.log| - 1);
    case AwaitVerdict => assert Sent(c, h, s.log[0], c.meta.size, true);
    case SenderDone(res) =>
      if res == Success { assert Sent(c, h, s.log[0], c.meta.size, true); }
    case _ =>
  }

  lemma BytesInFlight(acked: int, next: int, chunk: pos, window: pos)
    requires acked <= next && CountInFlight(acked, next, chunk) <= window
    ensures next - acked <= window * chunk
  {
    CeilDivBounds(next - acked, chunk);
    var k := CountInFlight(acked, next, chunk);
    if acked < next { MulMono(k, window, chunk); } else { MulMono(0, window, chunk); }
  }

  lemma {:induction false} AscendsOver(s: seq<int>, i: nat, j: nat)
    requires Ascends(s) && i <= j < |s|
    ensures s[i] <= s[j]
    decreases j - i
  {
    if i < j { AscendsOver(s, i, j - 1); }
  }

  // ---------- receiver ----------

  /** Against the original bytes: nothing below `resume` and nothing from `written` on has changed. */
  predicate Untouched(orig: bytes, data: bytes, resume: nat, written: nat) {
    && |orig| <= |data| && (|data| == |orig| || resume < |data| <= written)
    && (forall i :: 0 <= i < |orig| && (i < resume || written <= i) ==> data[i] == orig[i])
  }

  /** The digest the receiver checks: the hash of what it has stored, or none if it cannot read back. */
  function LocalHash(c: RecvCfg, r: Receiver, m: Meta): Hash {
    if c.resume == m.size && !r.dev.readable then ZERO_HASH
    else if 0 <= m.size <= |r.dev.data| then c.sha(r.dev.data[..m.size]) else c.sha([])
  }

  /** Everything offered is stored. */
  predicate Complete(c: RecvCfg, r: Receiver, m: Meta) {
    r.written == m.size && ((c.resume == m.size && !r.dev.readable) || m.size <= |r.dev.data|)
  }

  /** A hash that was given must be the digest. */
  predicate Respected(given: Hash, digest: Hash) { given == ZERO_HASH || given == digest }

  /** The checks of verify_and_ack_done amount to this: the hash of the offer and the hash of the done
      frame are each absent or equal to the digest. */
  lemma VerdictIs(offered: Hash, sent: Hash, digest: Hash)
    ensures VerdictOk(offered, sent, digest) <==> Respected(offered, digest) && Respected(sent, digest)
  {
  }

  /** The last payload taken was a done frame for this offer, and both hashes respect the digest. */
  predicate Checked(c: RecvCfg, r: Receiver, k: seq<bytes>) {
    && r.got.Some? && Complete(c, r, r.got.value)
    && k != []
    && var m, last := r.got.value, Decode(k[|k| - 1]);
       && last.Ok? && last.value.Done? && last.value.id == m.id
       && Respected(m.hash, LocalHash(c, r, m)) && Respected(last.value.hash, LocalHash(c, r, m))
  }

  /** The data of the chunk frames among `k`, in order of arrival. */
  function ChunkBytes(k: seq<bytes>): bytes {
    if k == [] then []
    else
      var d := Decode(k[|k| - 1]);
      ChunkBytes(k[..|k| - 1]) + (if d.Ok? && d.value.Chunk? then d.value.data else [])
  }

  /** What this attempt has stored. */
  function Kept(c: RecvCfg, r: Receiver): bytes {
    if c.resume <= r.written <= |r.dev.data| then r.dev.data[c.resume..r.written] else []
  }

  /** The attempt has not failed. */
  predicate Going(pc: ReceiverPc) {
    match pc
    case Refusing(_, _) => false
    case ReceiverDone(res) => res == Success
    case Replying(_, after) => Going(after)
    case _ => true
  }

  /** What is stored is what arrived, in order; a chunk that ended the attempt is not part of it. */
  predicate Filled(c: RecvCfg, r: Receiver, k: seq<bytes>) {
    && Kept(c, r) <= ChunkBytes(k)
    && (Going(r.pc) ==> Kept(c, r) == ChunkBytes(k))
  }

  /** Acknowledgements name this transfer and bytes already stored. */
  predicate AcksBelow(h: seq<Frame>, got: Option<Meta>, resume: nat, written: nat) {
    forall i :: 0 <= i < |h| && h[i].Ack? ==> got.Some? && h[i].id == got.value.id && resume <= h[i].offset <= written
  }

  /** What a program counter that is not about to reply knows. */
  predicate PcInv(c: RecvCfg, r: Receiver, pc: ReceiverPc, k: seq<bytes>) {
    match pc
    case AwaitOffer => r.got == None && r.written == c.resume && r.log == []
    case Accepting(m) => r.got == Some(m) && c.resume <= m.size && r.written == c.resume && r.log == []
    case Replying(_, _) => false
    case Refusing(f, _) => !f.Ack?
    case Receiving(m, since, fed) =>
      && r.got == Some(m) && r.written < m.size && since < c.ackEvery
      && r.written <= |r.dev.data| && fed == r.dev.data[..r.written]
    case AwaitDone(m, sum) => r.got == Some(m) && Complete(c, r, m) && sum == LocalHash(c, r, m)
    case ReceiverDone(res) => res == Success ==> Checked(c, r, k)
  }

  predicate ReceiverInv(c: RecvCfg, dev0: Device, r: Receiver, h: seq<Frame>, k: seq<bytes>) {
    && c.resume <= r.written
    && r.dev.capacity == dev0.capacity && r.dev.readable == dev0.readable
    && Untouched(dev0.data, r.dev.data, c.resume, r.written)
    && Ascends(r.log) && StartsFrom(r.log, c.resume) && EndsBy(r.log, r.written)
    && AcksBelow(h, r.got, c.resume, r.written)
    && (r.got == None ==> r.written == c.resume)
    && (r.got.Some? && r.written > c.resume ==> r.written <= r.got.value.size)
    && (if r.pc.Replying?
        then && !r.pc.after.Accepting? && PcInv(c, r, r.pc.after, k)
             && (r.pc.reply.Ack? ==> r.got.Some? && r.pc.reply == Ack(r.got.value.id, r.written))
        else PcInv(c, r, r.pc, k))
  }

  lemma ReceiverOpens(c: RecvCfg, r: Receiver, m: Meta, k: seq<bytes>)
    requires r.pc == Accepting(m) && PcInv(c, r, r.pc, k)
    ensures var pc := Prepare(c, m, r.dev); !pc.Replying? && PcInv(c, r.(pc := pc, log := r.log + [c.resume]), pc, k)
  {
  }

  lemma ReceiverEmitKeeps(c: RecvCfg, dev0: Device, r: Receiver, h: seq<Frame>, k: seq<bytes>)
    requires ReceiverInv(c, dev0, r, h, k) && ReceiverAction(c, r).Emit?
    ensures ReceiverInv(c, dev0, ReceiverAction(c, r).next, h + [ReceiverAction(c, r).frame], k)
  {
    if r.pc.Accepting? {
      ReceiverOpens(c, r, r.pc.meta, k);
    }
  }

  lemma ChunkWritten(c: RecvCfg, dev0: Device, r: Receiver, data: bytes)
    requires r.pc.Receiving? && r.written <= |r.dev.data| && r.pc.fed == r.dev.data[..r.written]
    requires c.resume <= r.written && Untouched(dev0.data, r.dev.data, c.resume, r.written)
    requires WriteAt(r.dev, r.written, data).Ok?
    ensures var dev := WriteAt(r.dev, r.written, data).value;
            var w := r.written + |data|;
            && w <= |dev.data| && r.pc.fed + data == dev.data[..w]
            && Untouched(dev0.data, dev.data, c.resume, w)
  {
    var dev := WriteAt(r.dev, r.written, data).value;
    var w, d := r.written, dev.data;
    assert d[..w + |data|] == d[..w] + d[w..w + |data|];
    forall i | 0 <= i < |dev0.data| && (i < c.resume || w + |data| <= i)
      ensures d[i] == dev0.data[i]
    {
      if i < c.resume {
        assert d[i] == d[..w][i] == r.dev.data[..w][i];
      } else {
        assert d[i] == d[w + |data|..][i - w - |data|] == r.dev.data[w + |data|..][i - w - |data|];
      }
    }
  }

  /** Program counter and reply after a stored chunk. */
  lemma ChunkPc(c: RecvCfg, r: Receiver, data: bytes, k: seq<bytes>)
    requires r.pc.Receiving? && PcInv(c, r, r.pc, k) && c.resume <= r.written
    requires r.written + |data| <= r.pc.meta.size && WriteAt(r.dev, r.written, data).Ok?
    requires var dev, w := WriteAt(r.dev, r.written, data).value, r.written + |data|;
             w <= |dev.data| && r.pc.fed + data == dev.data[..w]
    ensures var r2, m := OnChunk(c, r, data), r.pc.meta;
            if r2.pc.Replying?
            then r2.pc.reply == Ack(m.id, r2.written) && !r2.pc.after.Accepting? && PcInv(c, r2, r2.pc.after, k)
            else PcInv(c, r2, r2.pc, k)
  {
  }

  lemma ChunkKeeps(c: RecvCfg, dev0: Device, r: Receiver, h: seq<Frame>, k: seq<bytes>, data: bytes, k2: seq<bytes>)
    requires ReceiverInv(c, dev0, r, h, k) && r.pc.Receiving? && r.written + |data| <= r.pc.meta.size
    ensures ReceiverInv(c, dev0, OnChunk(c, r, data), h, k2)
  {
    if WriteAt(r.dev, r.written, data).Ok? {
      ChunkWritten(c, dev0, r, data);
      ChunkPc(c, r, data, k2);
      var r2, w := OnChunk(c, r, data), r.written + |data|;
      assert r2.written == w && r2.got == r.got && r2.log == r.log + [w];
      assert Ascends(r2.log) && StartsFrom(r2.log, c.resume) && EndsBy(r2.log, w) by {
        JoinAscends(r.log, [w], r.written);
      }
    }
  }

  lemma ReceiverPayloadKeeps(c: RecvCfg, dev0: Device, r: Receiver, h: seq<Frame>, k: seq<bytes>, b: bytes)
    requires ReceiverInv(c, dev0, r, h, k) && ReceiverAction(c, r).Await?
    ensures ReceiverInv(c, dev0, ReceiverOnPayload(c, r, b), h, k + [b])
  {
    hide Decode, Untouched, Ascends, StartsFrom, EndsBy, VerdictOk;
    var dec := Decode(b);
    if dec.Ok? && r.pc.AwaitDone? && dec.value.Done? { VerdictIs(r.pc.meta.hash, dec.value.hash, r.pc.sum); }
    if dec.Ok? && r.pc.Receiving? {
      var f := dec.value;
      if f.Chunk? && f.offset == r.written && f.offset + |f.data| <= r.pc.meta.size {
        ChunkKeeps(c, dev0, r, h, k, f.data, k + [b]);
      }
    }
  }

  // ---------- what is stored ----------

  lemma ChunkBytesMore(k: seq<bytes>, b: bytes)
    ensures var d := Decode(b);
            ChunkBytes(k + [b]) == ChunkBytes(k) + if d.Ok? && d.value.Chunk? then d.value.data else []
  {
    assert (k + [b])[..|k|] == k;
  }

  lemma FilledMore(c: RecvCfg, r: Receiver, data: bytes)
    requires r.pc.Receiving? && c.resume <= r.written <= |r.dev.data| && WriteAt(r.dev, r.written, data).Ok?
    ensures Kept(c, OnChunk(c, r, data)) == Kept(c, r) + data
  {
    var d, o, w := OnChunk(c, r, data).dev.data, c.resume, r.written;
    assert d[o..w] == d[..w][o..] == r.dev.data[..w][o..] == r.dev.data[o..w];
    assert d[o..w + |data|] == d[o..w] + d[w..w + |data|];
  }

  lemma FilledEmit(c: RecvCfg, r: Receiver, k: seq<bytes>)
    requires Filled(c, r, k) && ReceiverAction(c, r).Emit?
    ensures Filled(c, ReceiverAction(c, r).next, k)
  {
    assert Kept(c, ReceiverAction(c, r).next) == Kept(c, r);
  }

  lemma FilledPayload(c: RecvCfg, dev0: Device, r: Receiver, h: seq<Frame>, k: seq<bytes>, b: bytes)
    requires ReceiverInv(c, dev0, r, h, k) && Filled(c, r, k) && ReceiverAction(c, r).Await?
    ensures Filled(c, ReceiverOnPayload(c, r, b), k + [b])
  {
    hide ChunkBytes, Untouched, Ascends;
    ChunkBytesMore(k, b);
    var dec, r2 := Decode(b), ReceiverOnPayload(c, r, b);
    if r2.written != r.written || r2.dev != r.dev {
      FilledMore(c, r, dec.value.data);
    } else {
      assert Kept(c, r2) == Kept(c, r);
    }
  }

  /** Both invariants of the receiver. */
  predicate Good(c: RecvCfg, dev0: Device, r: Receiver, h: seq<Frame>, k: seq<bytes>) {
    ReceiverInv(c, dev0, r, h, k) && Filled(c, r, k)
  }

  lemma GoodPayload(c: RecvCfg, dev0: Device, r: Receiver, h: seq<Frame>, k: seq<bytes>, b: bytes)
    requires Good(c, dev0, r, h, k) && ReceiverAction(c, r).Await?
    ensures Good(c, dev0, ReceiverOnPayload(c, r, b), h, k + [b])
  {
    hide ReceiverInv, Filled;
    ReceiverPayloadKeeps(c, dev0, r, h, k, b);
    FilledPayload(c, dev0, r, h, k, b);
  }

  lemma GoodEmit(c: RecvCfg, dev0: Device, r: Receiver, h: seq<Frame>, k: seq<bytes>)
    requires Good(c, dev0, r, h, k) && ReceiverAction(c, r).Emit?
    ensures Good(c, dev0, ReceiverAction(c, r).next, h + [ReceiverAction(c, r).frame], k)
  {
    hide ReceiverInv;
    ReceiverEmitKeeps(c, dev0, r, h, k);
    FilledEmit(c, r, k);
  }

  /** `run` ends well after taking some of the payloads in `inbox`. */
  ghost predicate EndsWell(c: RecvCfg, dev0: Device, run: Run<Receiver>, h: seq<Frame>, k: seq<bytes>,
      inbox: seq<bytes>) {
    && (run.res == Success ==> run.end.pc == ReceiverDone(Success))
    && exists n :: 0 <= n <= |inbox| && Good(c, dev0, run.end, h + run.out, k + inbox[..n])
  }

  lemma EndsWellAfterTaking(c: RecvCfg, dev0: Device, run: Run<Receiver>, h: seq<Frame>, k: seq<bytes>,
      inbox: seq<bytes>)
    requires inbox != [] && EndsWell(c, dev0, run, h, k + [inbox[0]], inbox[1..])
    ensures EndsWell(c, dev0, run, h, k, inbox)
  {
    hide Good;
    var n :| 0 <= n <= |inbox[1..]| && Good(c, dev0, run.end, h + run.out, k + [inbox[0]] + inbox[1..][..n]);
    assert k + [inbox[0]] + inbox[1..][..n] == k + inbox[..n + 1];
  }

  lemma EndsWellAfterSending(c: RecvCfg, dev0: Device, run: Run<Receiver>, h: seq<Frame>, k: seq<bytes>,
      inbox: seq<bytes>, f: Frame)
    requires EndsWell(c, dev0, run, h + [f], k, inbox)
    ensures EndsWell(c, dev0, run.(out := [f] + run.out), h, k, inbox)
  {
    assert h + [f] + run.out == h + ([f] + run.out);
  }

  lemma ReceiverStops(c: RecvCfg, dev0: Device, r: Receiver, h: seq<Frame>, k: seq<bytes>, p: Script)
    requires Good(c, dev0, r, h, k)
    requires var a := ReceiverAction(c, r);
        a.Halt? || a.EmitLast? || (a.Await? && p.inbox == []) || (a.Emit? && p.credits == 0)
    ensures EndsWell(c, dev0, RunReceiver(c, r, p), h, k, p.inbox)
  {
    var run := RunReceiver(c, r, p);
    assert h + [] == h && k + p.inbox[..0] == k;
    assert Good(c, dev0, run.end, h + run.out, k + p.inbox[..0]);
  }

  lemma {:induction false} ReceiverKeeps(c: RecvCfg, dev0: Device, r: Receiver, h: seq<Frame>, k: seq<bytes>, p: Script)
    requires Good(c, dev0, r, h, k)
    ensures EndsWell(c, dev0, RunReceiver(c, r, p), h, k, p.inbox)
    decreases |p.inbox| + p.credits
  {
    hide Good, EndsWell, Decode, ReceiverOnPayload;
    var a := ReceiverAction(c, r);
    if a.Await? && p.inbox != [] {
      GoodPayload(c, dev0, r, h, k, p.inbox[0]);
      var r2, q := ReceiverOnPayload(c, r, p.inbox[0]), p.(inbox := p.inbox[1..]);
      ReceiverKeeps(c, dev0, r2, h, k + [p.inbox[0]], q);
      EndsWellAfterTaking(c, dev0, RunReceiver(c, r2, q), h, k, p.inbox);
    } else if a.Emit? && p.credits > 0 {
      GoodEmit(c, dev0, r, h, k);
      var q := p.(credits := p.credits - 1);
      ReceiverKeeps(c, dev0, a.next, h + [a.frame], k, q);
      EndsWellAfterSending(c, dev0, RunReceiver(c, a.next, q), h, k, p.inbox, a.frame);
    } else {
      ReceiverStops(c, dev0, r, h, k, p);
    }
  }

  lemma GoodStart(c: RecvCfg, dev: Device)
    ensures Good(c, dev, ReceiverStart(c, dev), [], [])
  {
  }

  lemma NothingStored(c: RecvCfg, dev: Device, r: Receiver, h: seq<Frame>, k: seq<bytes>)
    requires ReceiverInv(c, dev, r, h, k) && r.written == c.resume
    ensures r.dev == dev
  {
    assert r.dev.data == dev.data;
  }

  /** Receiver safety: against any peer, bytes below the resume offset and from `written` on keep
      their values, the bytes between are chunk data in the order it arrived, `written` stays between
      the resume offset and the offered size, reports ascend, and every acknowledgement names stored
      bytes; and success means the whole size is stored, a done frame was taken, and its digest
      matches every non-zero hash that was offered or sent. */
  lemma ReceiverSafe(c: RecvCfg, dev: Device, p: Script) returns (n: nat)
    ensures n <= |p.inbox|
    ensures var run := RunReceiver(c, ReceiverStart(c, dev), p);
            && c.resume <= run.end.written
            && Untouched(dev.data, run.end.dev.data, c.resume, run.end.written)
            && Ascends(run.end.log) && StartsFrom(run.end.log, c.resume) && EndsBy(run.end.log, run.end.written)
            && AcksBelow(run.out, run.end.got, c.resume, run.end.written)
            && (run.end.got == None ==> run.end.written == c.resume)
            && (run.end.got.Some? && run.end.written > c.resume ==> run.end.written <= run.end.got.value.size)
            && Kept(c, run.end) <= ChunkBytes(p.inbox[..n])
            && (run.res == Success
                ==> Checked(c, run.end, p.inbox[..n]) && Kept(c, run.end) == ChunkBytes(p.inbox[..n]))
            && (run.end.got.Some? && run.end.got.value.size < 0 ==> run.res != Success && run.end.dev == dev)
  {
    hide RunReceiver, ChunkBytes, Untouched, Ascends, Kept, AcksBelow, VerdictOk;
    GoodStart(c, dev);
    ReceiverKeeps(c, dev, ReceiverStart(c, dev), [], [], p);
    var run := RunReceiver(c, ReceiverStart(c, dev), p);
    n :| 0 <= n <= |p.inbox| && Good(c, dev, run.end, [] + run.out, [] + p.inbox[..n]);
    assert [] + run.out == run.out && [] + p.inbox[..n] == p.inbox[..n];
    if run.end.written == c.resume { NothingStored(c, dev, run.end, run.out, p.inbox[..n]); }
  }
}
