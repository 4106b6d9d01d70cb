/** The full-queue shutdown path of the reader (src/conn.cpp:309-321, 192-193): it calls abort_recv
    while it holds the mutex abort_recv takes. Such a state is reachable for every queue depth, and
    nothing leaves it. */
module Shutdown {
  import opened Bytes
  import opened Errors
  import opened Protocol
  import opened Session
  import opened ConnState
  import opened Duplex
  import opened DuplexProofs
  import opened DuplexTheorems

  /** Full-queue shutdown: a reader that holds a text while the queue is full and sending has stopped
      never returns, and from then on no receive call can ever complete. */
  lemma FullQueueShutdownHangs(v: Env, ts: seq<Step>, d: Duo, left: bool, more: seq<Step>, d2: Duo)
    requires SealsRight(v.s) && Runs(v, CONNECTED, ts, d)
    requires var c, x := CfgOf(v, left), Here(d, left); x.r.RText? && x.stopSend && |x.recvQ| >= c.recvDepth
    requires CanStep(v, d, if left then Left(Push) else Right(Push))
    requires Runs(v, Next(v, d, if left then Left(Push) else Right(Push)), more, d2)
    ensures var x, y := Here(d, left), Here(d2, left);
            y.r.RStuck? && y.recvQ == x.recvQ && y.h.returned == x.h.returned && !y.recvClosed
    ensures !CanStep(v, d2, if left then Left(Receive) else Right(Receive))
  {
    hide DuoInv, Runs;
    ReachedDuo(v, ts, d);
    var t := if left then Left(Push) else Right(Push);
    DuoStep(v, d, t);
    StuckStays(v, Next(v, d, t), left, more, d2);
  }

  lemma StuckStays(v: Env, d: Duo, left: bool, more: seq<Step>, d2: Duo)
    requires SealsRight(v.s) && DuoInv(v, d) && Runs(v, d, more, d2) && Here(d, left).r.RStuck?
    ensures var x, y := Here(d, left), Here(d2, left);
            y.r.RStuck? && y.recvQ == x.recvQ && y.h.returned == x.h.returned && !y.recvClosed
  {
    hide DuoInv, Runs;
    LaterRun(v, d, more, d2, left);
    DuoRun(v, d, more, d2);
    StuckIsOpen(v, d2, left);
  }

  lemma StuckIsOpen(v: Env, d: Duo, left: bool)
    requires DuoInv(v, d) && Here(d, left).r.RStuck?
    ensures !Here(d, left).recvClosed
  {
  }

  // ---------- a run that gets there ----------

  lemma {:induction false} RunsJoin(v: Env, d: Duo, ts: seq<Step>, m: Duo, us: seq<Step>, d2: Duo)
    requires Runs(v, d, ts, m) && Runs(v, m, us, d2)
    ensures Runs(v, d, ts + us, d2)
    decreases |ts|
  {
    if ts == [] {
      assert ts + us == us;
    } else {
      RunsJoin(v, Next(v, d, ts[0]), ts[1..], m, us, d2);
      assert (ts + us)[1..] == ts[1..] + us;
    }
  }

  lemma RunsStep(v: Env, d: Duo, ts: seq<Step>, m: Duo, t: Step)
    requires Runs(v, d, ts, m) && CanStep(v, m, t)
    ensures Runs(v, d, ts + [t], Next(v, m, t))
  {
    assert [t][1..] == [];
    RunsJoin(v, d, ts, m, [t], Next(v, m, t));
  }

  /** Nothing is under way from left to right; right buffers `n` texts. */
  predicate Quiet(v: Env, d: Duo, n: nat) {
    && d.a.w.WIdle? && d.a.sendQ == [] && !d.a.stopSend
    && d.b.r.RIdle? && !d.b.stopSend && !d.b.recvClosed && |d.b.recvQ| == n
    && d.lr.torn == None && d.lr.end == None && d.lr.taken == |Stream(d.lr.recs)|
  }

  /** Both sides allow messages, and right has no callback. */
  ghost predicate Talks(v: Env) {
    SealsRight(v.s) && v.left.maxMessage >= 0 && v.right.maxMessage >= 0 && !v.right.callback
  }

  const EMPTY_TEXT: Outbound := Outbound(TEXT, [])

  /** Left sends an empty text and puts it on the wire. */
  lemma Sends(v: Env, d: Duo, n: nat) returns (ts: seq<Step>, d2: Duo, rec: Record)
    requires Talks(v) && Quiet(v, d, n)
    ensures Runs(v, d, ts, d2)
    ensures d2.b == d.b && d2.lr == d.lr.(recs := d.lr.recs + [rec])
    ensures d2.a.w.WIdle? && d2.a.sendQ == [] && !d2.a.stopSend
    ensures Fits(rec) && rec.typ == TEXT && Open(v.s, v.key, rec.sealed) == Ok([])
  {
    var d1 := Next(v, d, Left(Send([])));
    RunsStep(v, d, [], d, Left(Send([])));
    assert d1.a.sendQ == [EMPTY_TEXT];
    var m := Next(v, d1, Left(Wake));
    RunsStep(v, d, [] + [Left(Send([]))], d1, Left(Wake));
    var w := Left(Write(Zeros(NONCE), None));
    OpenSeal(v.s, v.key, Zeros(NONCE), []);
    rec := Written(v, EMPTY_TEXT, Zeros(NONCE)).value;
    d2 := Next(v, m, w);
    RunsStep(v, d, [] + [Left(Send([]))] + [Left(Wake)], m, w);
    ts := [] + [Left(Send([]))] + [Left(Wake)] + [w];
  }

  lemma ReadsTheNew(w: Wire, rec: Record)
    requires w.torn == None && w.end == None && w.taken == |Stream(w.recs)| && Fits(rec)
    ensures var w2 := w.(recs := w.recs + [rec]);
            Parse(Unread(w2)) == Got(rec, []) && |Stream(w2.recs)| == w.taken + |RecordBytes(rec)|
  {
    var w2 := w.(recs := w.recs + [rec]);
    StreamSplit(w2.recs, |w.recs|);
    assert w2.recs[..|w.recs|] == w.recs && w2.recs[|w.recs|..] == [rec];
    assert Stream([rec]) == RecordBytes(rec) + Stream([rec][1..]);
    assert Unread(w2) == RecordBytes(rec) + [];
    ParseWritten(rec, []);
  }

  /** One text travels from left to right and is in the reader's hand. */
  lemma Travels(v: Env, d: Duo, n: nat) returns (ts: seq<Step>, d2: Duo)
    requires Talks(v) && Quiet(v, d, n)
    ensures Runs(v, d, ts, d2) && d2.b.r == RText([])
    ensures Quiet(v, d2.(b := d2.b.(r := RIdle)), n)
  {
    var m, rec;
    ts, m, rec := Sends(v, d, n);
    ReadsTheNew(d.lr, rec);
    RunsStep(v, d, ts, m, Right(Read));
    d2 := Next(v, m, Right(Read));
    ts := ts + [Right(Read)];
  }

  lemma {:induction false} Fills(v: Env, n: nat) returns (ts: seq<Step>, d: Duo)
    requires Talks(v) && n <= v.right.recvDepth
    ensures Runs(v, CONNECTED, ts, d) && Quiet(v, d, n)
  {
    if n == 0 {
      return [], CONNECTED;
    }
    var us, m, m2;
    ts, m := Fills(v, n - 1);
    us, m2 := Travels(v, m, n - 1);
    RunsJoin(v, CONNECTED, ts, m, us, m2);
    RunsStep(v, CONNECTED, ts + us, m2, Right(Push));
    ts, d := ts + us + [Right(Push)], Next(v, m2, Right(Push));
  }

  /** For every queue depth some run ends with the reader waiting for a mutex it owns. */
  lemma FullQueueShutdownIsReachable(v: Env) returns (ts: seq<Step>, d: Duo)
    requires Talks(v)
    ensures Runs(v, CONNECTED, ts, d) && d.b.r.RStuck? && |d.b.recvQ| == v.right.recvDepth
  {
    var us, m, m2;
    ts, m := Fills(v, v.right.recvDepth);
    us, m2 := Travels(v, m, v.right.recvDepth);
    RunsJoin(v, CONNECTED, ts, m, us, m2);
    RunsStep(v, CONNECTED, ts + us, m2, Right(Stop));
    var m3 := Next(v, m2, Right(Stop));
    RunsStep(v, CONNECTED, ts + us + [Right(Stop)], m3, Right(Push));
    ts, d := ts + us + [Right(Stop)] + [Right(Push)], Next(v, m3, Right(Push));
  }

  // ---------- exactly which sides can hang ----------

  function FlipEnv(v: Env): Env { Env(v.s, v.key, v.right, v.left) }

  function Flip(d: Duo): Duo { Duo(d.b, d.a, d.rl, d.lr) }

  function FlipStep(t: Step): Step {
    match t
    case Left(e) => Right(e)
    case Right(e) => Left(e)
    case EndLR(k) => EndRL(k)
    case EndRL(k) => EndLR(k)
  }

  /** Every run has a mirror image with the two connections exchanged. */
  lemma {:induction false} Mirror(v: Env, d: Duo, ts: seq<Step>, d2: Duo) returns (us: seq<Step>)
    requires Runs(v, d, ts, d2)
    ensures Runs(FlipEnv(v), Flip(d), us, Flip(d2))
    decreases |ts|
  {
    if ts == [] {
      return [];
    }
    var m := Next(v, d, ts[0]);
    MirrorStep(v, d, ts[0]);
    us := Mirror(v, m, ts[1..], d2);
    RunsJoin(FlipEnv(v), Flip(d), [FlipStep(ts[0])], Flip(m), us, Flip(d2));
    us := [FlipStep(ts[0])] + us;
  }

  lemma MirrorStep(v: Env, d: Duo, t: Step)
    requires CanStep(v, d, t)
    ensures Runs(FlipEnv(v), Flip(d), [FlipStep(t)], Flip(Next(v, d, t)))
  {
    RunsStep(FlipEnv(v), Flip(d), [], Flip(d), FlipStep(t));
    assert [] + [FlipStep(t)] == [FlipStep(t)];
  }

  /** A side that allows no message accepts none, from its application or from its peer. */
  predicate Sane(c: Cfg, x: State) {
    && (x.h.accepted != [] ==> c.maxMessage >= 0)
    && (x.r.RText? || x.recvQ != [] ==> c.maxMessage >= 0)
    && (x.r.RStuck? ==> x.recvQ != [])
  }

  lemma SaneStep(v: Env, c: Cfg, s: Side, e: Event)
    requires Sane(c, s.x) && CanDo(v, c, s, e)
    ensures Sane(c, Do(v, c, s, e).x)
  {
    hide Parse, Unread, Open, Written, RecordBytes, OnMessage;
    if e.Read? {
      var p := Parse(Unread(s.inn));
      if p.Got? && Open(v.s, v.key, p.rec.sealed).Ok? {
        SaneMessage(c, s.x, p.rec.typ, Open(v.s, v.key, p.rec.sealed).value);
      }
    }
  }

  lemma SaneMessage(c: Cfg, x: State, typ: byte, pt: bytes)
    requires Sane(c, x) && x.r.RIdle?
    ensures Sane(c, OnMessage(c, x, typ, pt))
  {
  }

  lemma {:induction false} SaneRun(v: Env, d: Duo, ts: seq<Step>, d2: Duo)
    requires Sane(v.left, d.a) && Sane(v.right, d.b) && Runs(v, d, ts, d2)
    ensures Sane(v.left, d2.a) && Sane(v.right, d2.b)
    decreases |ts|
  {
    hide Sane, CanDo, Do;
    if ts != [] {
      match ts[0] {
        case Left(e) => SaneStep(v, v.left, Side(d.a, d.lr, d.rl), e);
        case Right(e) => SaneStep(v, v.right, Side(d.b, d.rl, d.lr), e);
        case _ =>
      }
      SaneRun(v, Next(v, d, ts[0]), ts[1..], d2);
    }
  }

  ghost predicate Hangs(v: Env, left: bool, ts: seq<Step>, d: Duo) {
    Runs(v, CONNECTED, ts, d) && Here(d, left).r.RStuck?
  }

  /** What a caller can check before connecting: the side has no callback, and both ends allow messages. */
  predicate MayHang(v: Env, left: bool) {
    !CfgOf(v, left).callback && v.left.maxMessage >= 0 && v.right.maxMessage >= 0
  }

  lemma HangNeeds(v: Env, left: bool, ts: seq<Step>, d: Duo)
    requires SealsRight(v.s) && Hangs(v, left, ts, d)
    ensures MayHang(v, left)
  {
    hide Runs;
    SaneRun(v, CONNECTED, ts, d);
    Reached(v, ts, d, left);
    Fifo(v, ts, d, left);
  }

  lemma SomeHang(v: Env, left: bool) returns (ts: seq<Step>, d: Duo)
    requires SealsRight(v.s) && MayHang(v, left)
    ensures Hangs(v, left, ts, d)
  {
    if left {
      var us, m := FullQueueShutdownIsReachable(FlipEnv(v));
      ts := Mirror(FlipEnv(v), CONNECTED, us, m);
      d := Flip(m);
    } else {
      ts, d := FullQueueShutdownIsReachable(v);
    }
  }

  /** Some run locks the reader of a side out for good if and only if that side has no callback and both
      sides allow messages: with a callback, or with nothing to read, shutdown cannot hang this way. */
  lemma HangIff(v: Env, left: bool)
    requires SealsRight(v.s)
    ensures (exists ts, d :: Hangs(v, left, ts, d)) <==> MayHang(v, left)
  {
    hide Hangs;
    if MayHang(v, left) {
      var ts, d := SomeHang(v, left);
    }
    forall ts, d | Hangs(v, left, ts, d)
      ensures MayHang(v, left)
    {
      HangNeeds(v, left, ts, d);
    }
  }
}
