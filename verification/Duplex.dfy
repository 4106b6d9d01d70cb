/** Two connections over two byte streams, each of which may end at any byte (src/conn.cpp:59-402).
    Every interleaving of application calls and threads is a sequence of events. */
module Duplex {
  import opened Bytes
  import opened Errors
  import opened Protocol
  import opened Session
  import opened ConnState

  /** A record whose write failed part way: only its first `sent` bytes are on the wire. */
  datatype Torn = Torn(rec: Record, sent: nat)

  /** One direction: the records written in full, a possibly torn last one, how many bytes the reader
      has taken, and, once the stream has ended, how many bytes ever arrive. */
  datatype Wire = Wire(recs: seq<Record>, torn: Option<Torn>, taken: nat, end: Option<nat>)

  function Tail(w: Wire): bytes {
    if w.torn.Some? && w.torn.value.sent <= |RecordBytes(w.torn.value.rec)|
    then RecordBytes(w.torn.value.rec)[..w.torn.value.sent] else []
  }

  function OnWire(w: Wire): bytes { Stream(w.recs) + Tail(w) }

  /** The bytes the reader can get at now. */
  function Unread(w: Wire): bytes {
    var b := OnWire(w);
    var upTo := if w.end.Some? && w.end.value < |b| then w.end.value else |b|;
    if w.taken <= upTo then b[w.taken..upTo] else []
  }

  /** The parameters of both sides: the primitives, the common key, and each side's configuration. */
  datatype Env = Env(s: Suite, key: bytes, left: Cfg, right: Cfg)

  /** One connection with the stream it writes and the stream it reads. */
  datatype Side = Side(x: State, out: Wire, inn: Wire)

  datatype Event =
    | Send(p: bytes) | Receive | Stop | StopDeliver
    | Wake | Drain | Write(nonce: bytes, tear: Option<nat>)
    | Read | Push | Pong | Take | Call

  function Written(v: Env, o: Outbound, nonce: bytes): Result<Record, ConnErr> {
    match Seal(v.s, v.key, nonce, o.pt)
    case Ok(b) => Ok(Record(o.typ, b))
    case Err(e) => Err(e)
  }

  predicate CanDo(v: Env, c: Cfg, s: Side, e: Event) {
    var x := s.x;
    match e
    case Send(p) => |p| <= c.maxMessage && !x.stopSend && |x.sendQ| < c.sendDepth
    case Receive => !c.callback && x.r != RStuck && x.recvQ != []
    case Stop => true
    case StopDeliver => true
    case Wake => x.w.WIdle? && (x.stopSend || x.sendQ != [])
    case Drain => x.w.WFlush?
    case Write(nonce, tear) =>
      && Writing(x) && |nonce| == NONCE
      && (tear.Some? && Written(v, InHand(x), nonce).Ok?
          ==> tear.value < |RecordBytes(Written(v, InHand(x), nonce).value)|)
    case Read => x.r.RIdle? && (Parse(Unread(s.inn)) != Short || s.inn.end.Some?)
    case Push => PushReady(c, x)
    case Pong => x.r.RPing? && SendReady(c, x)
    case Take => c.callback && DeliverReady(x)
    case Call => x.d.DHold?
  }

  /** write_out: seal, then put the record on the wire. */
  function DoWrite(v: Env, s: Side, nonce: bytes, tear: Option<nat>): Side
    requires Writing(s.x)
  {
    match Written(v, InHand(s.x), nonce)
    case Err(_) => s.(x := WriteFailed(s.x))
    case Ok(rec) =>
      if tear.Some? then s.(x := WriteFailed(s.x), out := s.out.(torn := Some(Torn(rec, tear.value))))
      else s.(x := Wrote(s.x), out := s.out.(recs := s.out.recs + [rec]))
  }

  /** read_record, open, and the dispatch on the message type. */
  function DoRead(v: Env, c: Cfg, s: Side): Side {
    match Parse(Unread(s.inn))
    case Short => s.(x := ReaderEnds(s.x, Closed))
    case Malformed => s.(x := ReaderEnds(s.x, BadRecord))
    case Got(rec, _) =>
      var inn := s.inn.(taken := s.inn.taken + |RecordBytes(rec)|);
      match Open(v.s, v.key, rec.sealed)
      case Err(e) => s.(x := ReaderEnds(s.x, e), inn := inn)
      case Ok(pt) => s.(x := OnMessage(c, s.x, rec.typ, pt), inn := inn)
  }

  function Do(v: Env, c: Cfg, s: Side, e: Event): Side
    requires CanDo(v, c, s, e)
  {
    match e
    case Send(p) => s.(x := Enqueue(s.x, p))
    case Receive => s.(x := Pop(s.x))
    case Stop => s.(x := StopSending(s.x))
    case StopDeliver => s.(x := StopDelivery(s.x))
    case Wake => s.(x := WakeWriter(s.x))
    case Drain => s.(x := DrainWriter(s.x))
    case Write(nonce, tear) => DoWrite(v, s, nonce, tear)
    case Read => DoRead(v, c, s)
    case Push => s.(x := PushText(c, s.x))
    case Pong => s.(x := PushPong(s.x))
    case Take => s.(x := TakeJob(s.x))
    case Call => s.(x := CallJob(s.x))
  }

  /** Left writes `lr` and reads `rl`. */
  datatype Duo = Duo(a: State, b: State, lr: Wire, rl: Wire)

  datatype Step = Left(e: Event) | Right(e: Event) | EndLR(k: nat) | EndRL(k: nat)

  const EMPTY: Wire := Wire([], None, 0, None)

  const CONNECTED: Duo := Duo(FRESH, FRESH, EMPTY, EMPTY)

  /** A stream can end anywhere at or after what has been taken. */
  predicate CanEnd(w: Wire, k: nat) { w.end == None && w.taken <= k <= |OnWire(w)| }

  predicate CanStep(v: Env, d: Duo, t: Step) {
    match t
    case Left(e) => CanDo(v, v.left, Side(d.a, d.lr, d.rl), e)
    case Right(e) => CanDo(v, v.right, Side(d.b, d.rl, d.lr), e)
    case EndLR(k) => CanEnd(d.lr, k)
    case EndRL(k) => CanEnd(d.rl, k)
  }

  function Next(v: Env, d: Duo, t: Step): Duo
    requires CanStep(v, d, t)
  {
    match t
    case Left(e) => var s := Do(v, v.left, Side(d.a, d.lr, d.rl), e); Duo(s.x, d.b, s.out, s.inn)
    case Right(e) => var s := Do(v, v.right, Side(d.b, d.rl, d.lr), e); Duo(d.a, s.x, s.inn, s.out)
    case EndLR(k) => d.(lr := d.lr.(end := Some(k)))
    case EndRL(k) => d.(rl := d.rl.(end := Some(k)))
  }

  /** One of the two connections, its configuration, and the other one. */
  function Here(d: Duo, left: bool): State { if left then d.a else d.b }
  function There(d: Duo, left: bool): State { if left then d.b else d.a }
  function CfgOf(v: Env, left: bool): Cfg { if left then v.left else v.right }

  ghost predicate Runs(v: Env, d: Duo, ts: seq<Step>, d2: Duo)
    decreases |ts|
  {
    if ts == [] then d == d2 else CanStep(v, d, ts[0]) && Runs(v, Next(v, d, ts[0]), ts[1..], d2)
  }

  // ---------- what one connection keeps ----------

  function Texts(os: seq<Outbound>): seq<bytes> {
    if os == [] then []
    else Texts(os[..|os| - 1]) + (if os[|os| - 1].typ == TEXT then [os[|os| - 1].pt] else [])
  }

  function Pending(w: Writer): seq<Outbound> {
    match w
    case WHold(o) => [o]
    case WDrain(o) => [o]
    case WExit(lost) => lost
    case _ => []
  }

  function Hand(r: Reader): seq<bytes> { if r.RText? then [r.pt] else [] }

  predicate Ordinary(os: seq<Outbound>) {
    forall i :: 0 <= i < |os| ==> os[i].typ == TEXT || os[i].typ == PONG
  }

  predicate Closes(os: seq<Outbound>) { os != [] && os[|os| - 1].typ == CLOSE }

  /** Texts within the receiver's size limit. */
  function Acceptable(os: seq<Outbound>, limit: int): nat {
    if os == [] then 0
    else Acceptable(os[..|os| - 1], limit)
         + (var o := os[|os| - 1]; if o.typ == TEXT && |o.pt| <= limit then 1 else 0)
  }

  /** The sending half: nothing enters the queue after stop, Close is written last, and what was
      accepted is what was written, what the writer holds, and what is queued, in that order. */
  predicate TxInv(c: Cfg, x: State) {
    && |x.sendQ| <= c.sendDepth && Ordinary(x.sendQ)
    && x.h.accepted == Texts(x.h.written + Pending(x.w) + x.sendQ)
    && !x.w.WDrain?
    && (x.w.WHold? ==> Ordinary([x.w.out]))
    && (x.w.WFlush? || x.w.WClosing? ==> x.stopSend && x.sendQ == [])
    && (if Closes(x.h.written)
        then x.stopSend && x.sendQ == [] && x.w == WExit([]) && Ordinary(x.h.written[..|x.h.written| - 1])
        else Ordinary(x.h.written))
  }

  /** The receiving half in receive mode: returned, queued and in hand are the texts consumed. */
  predicate RxInv(c: Cfg, x: State) {
    && |x.recvQ| <= c.recvDepth
    && (x.recvClosed <==> x.r.RExit?) && (x.recvErr.Some? <==> x.recvClosed)
    && (c.callback ==> x.recvQ == [] && !x.r.RText? && !x.r.RStuck?)
    && (!c.callback ==>
          && x.h.returned + x.recvQ + Hand(x.r) <= Texts(x.h.consumed)
          && (x.r.RIdle? || x.r.RText? || x.r.RPing? || Closes(x.h.consumed)
              ==> x.h.returned + x.recvQ + Hand(x.r) == Texts(x.h.consumed)))
    && (Closes(x.h.consumed) ==> x.r.RExit?)
  }

  /** The callback half: every acceptable text is accounted for. */
  predicate CbInv(c: Cfg, x: State) {
    && |x.jobs| <= c.jobsDepth
    && (!c.callback ==> x.jobs == [] && x.dropped == 0 && x.h.slow == 0 && x.d.DIdle?)
    && x.h.slow <= (if x.r.RExit? then 1 else 0)
    && (c.callback ==>
          Acceptable(x.h.consumed, c.maxMessage)
          == |x.h.called| + x.h.skipped + (if x.d.DHold? then 1 else 0) + |x.jobs| + x.dropped + x.h.slow)
  }
}
