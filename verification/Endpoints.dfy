/** send_once and receive_once as deterministic processes: in every state an endpoint either sends
    one frame, waits for one frame, or has returned (src/transfer/transfer.cpp:323-330, 436-716). */
module Endpoints {
  import opened Bytes
  import opened Errors
  import opened Frames
  import opened Storage
  import opened Grid

  datatype Action<+S> =
    | Emit(frame: Frame, next: S)                     // a failed send ends the attempt
    | EmitLast(frame: Frame, end: S, res: Outcome)    // the outcome of the send is ignored
    | Await
    | Halt(res: Outcome)

  // ---------- sender ----------

  datatype SendCfg = SendCfg(meta: Meta, src: bytes, chunk: pos, window: pos)

  datatype SenderPc =
    | AtOffer
    | AwaitAccept
    | Sending(acked: int, next: int)
    | AwaitVerdict
    | SenderDone(res: Outcome)

  /** `log` holds the values passed to on_progress. */
  datatype Sender = Sender(pc: SenderPc, log: seq<int>)

  const SENDER_START: Sender := Sender(AtOffer, [])

  function EffectiveChunkSize(maxMessage: int, want: int): (r: pos)
    ensures maxMessage >= 30 ==> 29 + r <= maxMessage
    ensures 0 < want && 29 + want <= maxMessage ==> r == want
    ensures want <= 0 || 29 + want > maxMessage ==> r == if maxMessage < 30 then 1 else maxMessage - 29
  {
    var limit := if maxMessage - 29 < 1 then 1 else maxMessage - 29;
    if want <= 0 || want > limit then limit else want
  }

  function CountInFlight(acked: int, next: int, chunk: pos): int {
    if next <= acked then 0 else (next - acked + chunk - 1) / chunk
  }

  function NextLength(c: SendCfg, next: int): int {
    if next + c.chunk > c.meta.size then c.meta.size - next else c.chunk
  }

  function SenderAction(c: SendCfg, s: Sender): Action<Sender> {
    match s.pc
    case AtOffer =>
      var e := EncodeOffer(c.meta);
      if e.Err? then Halt(Failure(e.error)) else Emit(Offer(c.meta), s.(pc := AwaitAccept))
    case AwaitAccept => Await
    case Sending(acked, next) =>
      if acked >= c.meta.size then
        Emit(Done(c.meta.id, true, c.meta.hash), s.(pc := AwaitVerdict))
      else if CountInFlight(acked, next, c.chunk) < c.window && next < c.meta.size then
        var n := NextLength(c, next);
        var got := ReadAt(c.src, next, n);
        if got.Err? then Halt(Failure(got.error))
        else Emit(Chunk(c.meta.id, next, got.value), s.(pc := Sending(acked, next + n)))
      else Await
    case AwaitVerdict => Await
    case SenderDone(res) => Halt(res)
  }

  function SenderFail(s: Sender, e: Err): Sender {
    s.(pc := SenderDone(Failure(e)))
  }

  function SenderOnFrame(c: SendCfg, s: Sender, f: Frame): Sender {
    match s.pc
    case AwaitAccept =>
      if f.Reject? then SenderFail(s, if f.id != c.meta.id then BadFrame else Rejected)
      else if !f.Accept? || f.id != c.meta.id then SenderFail(s, BadFrame)
      else if f.offset < 0 || f.offset > c.meta.size then SenderFail(s, ResumePastEnd)
      else Sender(Sending(f.offset, f.offset), s.log + [f.offset])
    case Sending(acked, next) =>
      if f.Ack? then
        if f.id != c.meta.id || f.offset < acked || f.offset > next then SenderFail(s, BadFrame)
        else Sender(Sending(f.offset, next), s.log + [f.offset])
      else SenderFail(s, if f.Abort? then Aborted else BadFrame)
    case AwaitVerdict =>
      if !f.Done? || f.id != c.meta.id then SenderFail(s, BadFrame)
      else if !f.ok then SenderFail(s, HashMismatch)
      else s.(pc := SenderDone(Success))
    case _ => s
  }

  function SenderOnPayload(c: SendCfg, s: Sender, b: bytes): Sender {
    match Decode(b)
    case Ok(f) => SenderOnFrame(c, s, f)
    case Err(e) => SenderFail(s, e)
  }

  // ---------- receiver ----------

  /** `accept` returns the refusal text of the accept hook, if it refuses. */
  datatype RecvCfg = RecvCfg(resume: nat, ackEvery: pos, wanted: Option<ID>,
                             accept: Meta -> Option<bytes>, sha: bytes -> Hash)

  datatype ReceiverPc =
    | AwaitOffer
    | Accepting(meta: Meta)
    | Replying(reply: Frame, after: ReceiverPc)
    | Refusing(reply: Frame, error: Err)
    | Receiving(meta: Meta, since: nat, fed: bytes)
    | AwaitDone(meta: Meta, sum: Hash)
    | ReceiverDone(res: Outcome)

  /** `written` is written_out, `got` is out_meta, `log` the values passed to on_progress. */
  datatype Receiver = Receiver(pc: ReceiverPc, written: nat, dev: Device, log: seq<int>, got: Option<Meta>)

  function ReceiverStart(c: RecvCfg, dev: Device): Receiver {
    Receiver(AwaitOffer, c.resume, dev, [], None)
  }

  function Ascii(s: string): bytes {
    seq(|s|, i requires 0 <= i < |s| => s[i] as int % 256)
  }

  function VerdictOk(offered: Hash, sent: Hash, local: Hash): bool {
    var target := if IsZeroHash(offered) then sent else offered;
    (IsZeroHash(target) || local == target) && (IsZeroHash(sent) || sent == local)
  }

  function Verify(m: Meta, sent: Hash, local: Hash): ReceiverPc {
    var ok := VerdictOk(m.hash, sent, local);
    Replying(Done(m.id, ok, local), ReceiverDone(if ok then Success else Failure(HashMismatch)))
  }

  /** Where the receiver stands once its accept is out. */
  function Prepare(c: RecvCfg, m: Meta, dev: Device): ReceiverPc {
    if c.resume == m.size then
      if !dev.readable then AwaitDone(m, ZERO_HASH)
      else match ReadPrefix(dev.data, m.size)
           case Ok(prefix) => AwaitDone(m, c.sha(prefix))
           case Err(e) => ReceiverDone(Failure(e))
    else match OpenPrefix(dev, c.resume)
         case Ok(prefix) => Receiving(m, 0, prefix)
         case Err(e) => Refusing(Abort(m.id, Ascii("transfer error")), e)
  }

  function ReceiverAction(c: RecvCfg, r: Receiver): Action<Receiver> {
    match r.pc
    case Accepting(m) =>
      Emit(Accept(m.id, c.resume), r.(pc := Prepare(c, m, r.dev), log := r.log + [c.resume]))
    case Replying(f, after) => Emit(f, r.(pc := after))
    case Refusing(f, e) => EmitLast(f, r.(pc := ReceiverDone(Failure(e))), Failure(e))
    case ReceiverDone(res) => Halt(res)
    case _ => Await
  }

  function ReceiverFail(r: Receiver, e: Err): Receiver {
    r.(pc := ReceiverDone(Failure(e)))
  }

  function OnOffer(c: RecvCfg, r: Receiver, m: Meta): Receiver {
    if c.wanted.Some? && m.id != c.wanted.value then
      r.(pc := Refusing(Reject(m.id, Ascii("unexpected transfer id")), BadFrame))
    else if c.resume > m.size then
      r.(pc := Refusing(Reject(m.id, Ascii("resume past end")), ResumePastEnd), got := Some(m))
    else if c.accept(m).Some? then
      r.(pc := Refusing(Reject(m.id, c.accept(m).value), Rejected), got := Some(m))
    else r.(pc := Accepting(m), got := Some(m))
  }

  /** A chunk at the write offset: store, hash, report, and acknowledge when due. */
  function OnChunk(c: RecvCfg, r: Receiver, data: bytes): Receiver
    requires r.pc.Receiving?
  {
    var Receiving(m, since, fed) := r.pc;
    match WriteAt(r.dev, r.written, data)
    case Err(e) => r.(pc := Refusing(Abort(m.id, Ascii("transfer error")), e))
    case Ok(dev) =>
      var written := r.written + |data|;
      var after := if written == m.size then AwaitDone(m, c.sha(fed + data)) else Receiving(m, 0, fed + data);
      var pc := if since + 1 >= c.ackEvery || written == m.size then Replying(Ack(m.id, written), after)
                else Receiving(m, since + 1, fed + data);
      r.(pc := pc, written := written, dev := dev, log := r.log + [written])
  }

  function ReceiverOnFrame(c: RecvCfg, r: Receiver, f: Frame): Receiver {
    match r.pc
    case AwaitOffer => if f.Offer? then OnOffer(c, r, f.meta) else ReceiverFail(r, BadFrame)
    case Receiving(m, since, fed) =>
      if f.Chunk? then
        if f.id != m.id || f.offset != r.written || f.offset + |f.data| > m.size
        then ReceiverFail(r, BadFrame)
        else OnChunk(c, r, f.data)
      else if f.Done? then
        if f.id != m.id || r.written != m.size then ReceiverFail(r, SizeMismatch)
        else r.(pc := Verify(m, f.hash, c.sha(fed)))
      else ReceiverFail(r, if f.Abort? then Aborted else BadFrame)
    case AwaitDone(m, sum) =>
      if !f.Done? || f.id != m.id then ReceiverFail(r, BadFrame)
      else r.(pc := Verify(m, f.hash, sum))
    case _ => r
  }

  function ReceiverOnPayload(c: RecvCfg, r: Receiver, b: bytes): Receiver {
    match Decode(b)
    case Ok(f) => ReceiverOnFrame(c, r, f)
    case Err(e) => ReceiverFail(r, e)
  }

  // ---------- an endpoint against an arbitrary peer ----------

  /** Everything a connection can do to one endpoint: the payloads it delivers, how many sends it
      takes, the error every later call returns, and its max_message_bytes. */
  datatype Script = Script(inbox: seq<bytes>, credits: nat, loss: ConnErr, limit: int)

  datatype Run<+S> = Run(end: S, out: seq<Frame>, res: Outcome)

  function RunSender(c: SendCfg, s: Sender, p: Script): Run<Sender>
    decreases |p.inbox| + p.credits
  {
    match SenderAction(c, s)
    case Halt(res) => Run(s, [], res)
    case Await =>
      if p.inbox == [] then Run(s, [], Failure(MapConnErr(p.loss)))
      else RunSender(c, SenderOnPayload(c, s, p.inbox[0]), p.(inbox := p.inbox[1..]))
    case Emit(f, next) =>
      if p.credits == 0 then Run(s, [], Failure(MapConnErr(p.loss)))
      else var r := RunSender(c, next, p.(credits := p.credits - 1)); r.(out := [f] + r.out)
    case EmitLast(f, end, res) => Run(end, if p.credits == 0 then [] else [f], res)
  }

  function RunReceiver(c: RecvCfg, s: Receiver, p: Script): Run<Receiver>
    decreases |p.inbox| + p.credits
  {
    match ReceiverAction(c, s)
    case Halt(res) => Run(s, [], res)
    case Await =>
      if p.inbox == [] then Run(s, [], Failure(MapConnErr(p.loss)))
      else RunReceiver(c, ReceiverOnPayload(c, s, p.inbox[0]), p.(inbox := p.inbox[1..]))
    case Emit(f, next) =>
      if p.credits == 0 then Run(s, [], Failure(MapConnErr(p.loss)))
      else var r := RunReceiver(c, next, p.(credits := p.credits - 1)); r.(out := [f] + r.out)
    case EmitLast(f, end, res) => Run(end, if p.credits == 0 then [] else [f], res)
  }
}
