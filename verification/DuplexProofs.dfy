/** Every step of the two connections keeps their invariants. */
module DuplexProofs {
  import opened Bytes
  import opened Errors
  import opened Protocol
  import opened Session
  import opened ConnState
  import opened Duplex

  lemma {:induction false} TextsJoin(a: seq<Outbound>, b: seq<Outbound>)
    ensures Texts(a + b) == Texts(a) + Texts(b)
  {
    if b == [] {
      assert a + b == a;
    } else {
      var n := |b| - 1;
      TextsJoin(a, b[..n]);
      assert (a + b)[..|a + b| - 1] == a + b[..n];
    }
  }

  lemma TextsOne(o: Outbound)
    ensures Texts([o]) == if o.typ == TEXT then [o.pt] else []
  {
    assert [o][..0] == [];
  }

  lemma TextsMore(a: seq<Outbound>, b: seq<Outbound>, q: seq<Outbound>, o: Outbound)
    ensures Texts(a + b + (q + [o])) == Texts(a + b + q) + if o.typ == TEXT then [o.pt] else []
  {
    var all := a + b + q;
    assert a + b + (q + [o]) == all + [o];
    assert (all + [o])[..|all|] == all;
  }

  /** Steps of the other threads leave a half alone. */
  lemma TxSame(c: Cfg, x: State, x2: State)
    requires TxInv(c, x)
    requires x2.sendQ == x.sendQ && x2.stopSend == x.stopSend && x2.w == x.w
    requires x2.h.accepted == x.h.accepted && x2.h.written == x.h.written
    ensures TxInv(c, x2)
  {
  }

  lemma RxSame(c: Cfg, x: State, x2: State)
    requires RxInv(c, x)
    requires x2.recvQ == x.recvQ && x2.recvClosed == x.recvClosed && x2.recvErr == x.recvErr && x2.r == x.r
    requires x2.h.consumed == x.h.consumed && x2.h.returned == x.h.returned
    ensures RxInv(c, x2)
  {
  }

  lemma CbSame(c: Cfg, x: State, x2: State)
    requires CbInv(c, x)
    requires x2.jobs == x.jobs && x2.dropped == x.dropped && x2.d == x.d && x2.r.RExit? == x.r.RExit?
    requires x2.h == x.h.(accepted := x2.h.accepted, written := x2.h.written, returned := x2.h.returned)
    ensures CbInv(c, x2)
  {
  }

  // ---------- the sending half ----------

  lemma EnqueueKeeps(c: Cfg, x: State, o: Outbound, x2: State)
    requires TxInv(c, x) && !x.stopSend && |x.sendQ| < c.sendDepth && Ordinary([o])
    requires x2.sendQ == x.sendQ + [o] && x2.w == x.w && x2.stopSend == x.stopSend && x2.h.written == x.h.written
    requires x2.h.accepted == x.h.accepted + (if o.typ == TEXT then [o.pt] else [])
    ensures TxInv(c, x2)
  {
    hide Texts;
    TextsMore(x.h.written, Pending(x.w), x.sendQ, o);
    assert Ordinary(x2.sendQ);
  }

  lemma WakeKeeps(c: Cfg, x: State)
    requires TxInv(c, x) && x.w.WIdle? && (x.stopSend || x.sendQ != [])
    ensures TxInv(c, WakeWriter(x))
  {
    var x2 := WakeWriter(x);
    if x.sendQ != [] {
      var o := x.sendQ[0];
      assert Ordinary([o]) && Ordinary(x2.sendQ);
      assert x.h.written + [] + x.sendQ == x.h.written + [o] + x.sendQ[1..];
    }
  }

  /** The inner drain loop of the writer never finds a message. */
  lemma DrainKeeps(c: Cfg, x: State)
    requires TxInv(c, x) && x.w.WFlush?
    ensures TxInv(c, DrainWriter(x)) && DrainWriter(x).w.WClosing?
  {
  }

  lemma WroteKeeps(c: Cfg, x: State)
    requires TxInv(c, x) && Writing(x)
    ensures TxInv(c, Wrote(x))
  {
    var x2 := Wrote(x);
    if x.w.WClosing? {
      assert x2.h.written + Pending(x2.w) + x2.sendQ == x.h.written + [InHand(x)];
      assert x.h.written + Pending(x.w) + x.sendQ == x.h.written;
      TextsJoin(x.h.written, [InHand(x)]);
      TextsOne(InHand(x));
      assert x2.h.written[..|x2.h.written| - 1] == x.h.written;
    } else {
      assert x2.h.written + Pending(x2.w) + x2.sendQ == x.h.written + Pending(x.w) + x.sendQ;
    }
  }

  lemma WriteFailedKeeps(c: Cfg, x: State)
    requires TxInv(c, x) && Writing(x)
    ensures TxInv(c, WriteFailed(x))
  {
    var x2 := WriteFailed(x);
    if x.w.WClosing? {
      assert x2.h.written + Pending(x2.w) + x2.sendQ == x.h.written + [InHand(x)];
      assert x.h.written + Pending(x.w) + x.sendQ == x.h.written;
      TextsJoin(x.h.written, [InHand(x)]);
      TextsOne(InHand(x));
    } else {
      assert Pending(x2.w) == Pending(x.w);
    }
  }

  // ---------- the receiving half ----------

  predicate LocalInv(c: Cfg, x: State) { TxInv(c, x) && RxInv(c, x) && CbInv(c, x) }

  lemma ConsumedMore(os: seq<Outbound>, o: Outbound, limit: int)
    ensures var os2 := os + [o];
            && os2[..|os2| - 1] == os && os2[|os2| - 1] == o
            && Texts(os2) == Texts(os) + (if o.typ == TEXT then [o.pt] else [])
            && Acceptable(os2, limit) == Acceptable(os, limit) + (if o.typ == TEXT && |o.pt| <= limit then 1 else 0)
  {
    assert (os + [o])[..|os|] == os;
  }

  lemma MessageKeepsRx(c: Cfg, x: State, typ: byte, pt: bytes)
    requires RxInv(c, x) && x.r.RIdle?
    ensures RxInv(c, OnMessage(c, x, typ, pt))
  {
    hide Texts, Acceptable;
    ConsumedMore(x.h.consumed, Outbound(typ, pt), c.maxMessage);
  }

  lemma MessageKeepsCb(c: Cfg, x: State, typ: byte, pt: bytes)
    requires CbInv(c, x) && x.r.RIdle?
    ensures CbInv(c, OnMessage(c, x, typ, pt))
  {
    hide Acceptable, Texts;
    ConsumedMore(x.h.consumed, Outbound(typ, pt), c.maxMessage);
  }

  lemma MessageFrame(c: Cfg, x: State, typ: byte, pt: bytes)
    ensures var x2 := OnMessage(c, x, typ, pt);
            && x2.h.consumed == x.h.consumed + [Outbound(typ, pt)] && x2.h.written == x.h.written
            && x2.w == x.w && x2.stopSend == x.stopSend && x2.sendQ == x.sendQ && x2.h.accepted == x.h.accepted
  {
  }

  lemma MessageKeeps(c: Cfg, x: State, typ: byte, pt: bytes)
    requires LocalInv(c, x) && x.r.RIdle?
    ensures LocalInv(c, OnMessage(c, x, typ, pt))
  {
    MessageKeepsRx(c, x, typ, pt);
    MessageKeepsCb(c, x, typ, pt);
    MessageFrame(c, x, typ, pt);
    TxSame(c, x, OnMessage(c, x, typ, pt));
  }

  lemma PopKeeps(c: Cfg, x: State)
    requires LocalInv(c, x) && !c.callback && x.recvQ != []
    ensures LocalInv(c, Pop(x))
  {
    hide Texts, Acceptable, Ordinary;
    var x2 := Pop(x);
    TxSame(c, x, x2);
    CbSame(c, x, x2);
    assert x2.h.returned + x2.recvQ == x.h.returned + x.recvQ;
  }

  lemma PushKeeps(c: Cfg, x: State)
    requires LocalInv(c, x) && PushReady(c, x)
    ensures LocalInv(c, PushText(c, x))
  {
    var x2 := PushText(c, x);
    if x2.r.RIdle? {
      assert x2.h.returned + x2.recvQ + Hand(x2.r) == x.h.returned + x.recvQ + Hand(x.r);
    } else {
      assert x2.h.returned + x2.recvQ + Hand(x2.r) <= x.h.returned + x.recvQ + Hand(x.r);
    }
  }

  lemma PongKeepsRest(c: Cfg, x: State)
    requires RxInv(c, x) && CbInv(c, x) && x.r.RPing?
    ensures RxInv(c, PushPong(x)) && CbInv(c, PushPong(x))
  {
  }

  lemma PongKeeps(c: Cfg, x: State)
    requires LocalInv(c, x) && x.r.RPing? && SendReady(c, x)
    ensures LocalInv(c, PushPong(x))
  {
    PongKeepsRest(c, x);
    if x.stopSend {
      TxSame(c, x, PushPong(x));
    } else {
      EnqueueKeeps(c, x, Outbound(PONG, x.r.pt), PushPong(x));
    }
  }

  lemma TakeJobKeeps(c: Cfg, x: State)
    requires LocalInv(c, x) && c.callback && DeliverReady(x)
    ensures LocalInv(c, TakeJob(x))
  {
    TxSame(c, x, TakeJob(x));
    RxSame(c, x, TakeJob(x));
  }

  lemma CallJobKeeps(c: Cfg, x: State)
    requires LocalInv(c, x) && x.d.DHold?
    ensures LocalInv(c, CallJob(x))
  {
    TxSame(c, x, CallJob(x));
    RxSame(c, x, CallJob(x));
  }

  // ---------- one direction ----------

  /** What the receiver has consumed is a prefix of what the sender has written, read off the bytes of
      exactly those records. */
  predicate DirInv(v: Env, tx: State, w: Wire, rx: State) {
    && |w.recs| == |tx.h.written|
    && (forall i :: 0 <= i < |w.recs| ==>
          && Fits(w.recs[i]) && w.recs[i].typ == tx.h.written[i].typ
          && Open(v.s, v.key, w.recs[i].sealed) == Ok(tx.h.written[i].pt))
    && (w.torn.Some? ==> Fits(w.torn.value.rec) && w.torn.value.sent < |RecordBytes(w.torn.value.rec)| && tx.w.WExit?)
    && rx.h.consumed <= tx.h.written
    && w.taken == |Stream(w.recs[..|rx.h.consumed|])|
    && (w.end.Some? ==> w.taken <= w.end.value)
  }

  /** Any prefix of a record followed by anything parses to that record or runs short. */
  lemma ParsePrefix(r: Record, rest: bytes, n: nat)
    requires Fits(r) && n <= |RecordBytes(r) + rest|
    ensures var p := Parse((RecordBytes(r) + rest)[..n]); p == Short || (p.Got? && p.rec == r)
    ensures n < |RecordBytes(r)| ==> Parse((RecordBytes(r) + rest)[..n]) == Short
  {
    if n < |RecordBytes(r)| {
      ParseCut(r, rest, n);
    } else {
      assert (RecordBytes(r) + rest)[..n] == RecordBytes(r) + rest[..n - |RecordBytes(r)|];
      ParseWritten(r, rest[..n - |RecordBytes(r)|]);
    }
  }

  /** The unread bytes are a prefix of the records not yet taken and the torn tail. */
  lemma UnreadPrefix(w: Wire, m: nat) returns (n: nat)
    requires m <= |w.recs| && w.taken == |Stream(w.recs[..m])|
    requires w.end.Some? ==> w.taken <= w.end.value
    ensures var left := Stream(w.recs[m..]) + Tail(w); n <= |left| && Unread(w) == left[..n]
  {
    StreamSplit(w.recs, m);
    var left := Stream(w.recs[m..]) + Tail(w);
    assert OnWire(w) == Stream(w.recs[..m]) + left;
    n := |Unread(w)|;
  }

  /** The reader's next parse yields the next record or runs short; never anything else. */
  lemma NextRecord(w: Wire, m: nat)
    requires AllFit(w.recs) && m <= |w.recs| && w.taken == |Stream(w.recs[..m])|
    requires w.torn.Some? ==> Fits(w.torn.value.rec) && w.torn.value.sent < |RecordBytes(w.torn.value.rec)|
    requires w.end.Some? ==> w.taken <= w.end.value
    ensures var p := Parse(Unread(w)); p == Short || (m < |w.recs| && p.Got? && p.rec == w.recs[m])
  {
    var n := UnreadPrefix(w, m);
    if m < |w.recs| {
      var r, rest := w.recs[m], Stream(w.recs[m..][1..]) + Tail(w);
      assert Stream(w.recs[m..]) + Tail(w) == RecordBytes(r) + rest;
      ParsePrefix(r, rest, n);
    } else {
      assert Stream(w.recs[m..]) + Tail(w) == Tail(w);
      if w.torn.Some? {
        assert Tail(w)[..n] == (RecordBytes(w.torn.value.rec) + [])[..n];
        ParsePrefix(w.torn.value.rec, [], n);
      }
    }
  }

  lemma TakenMore(recs: seq<Record>, m: nat)
    requires m < |recs|
    ensures |Stream(recs[..m + 1])| == |Stream(recs[..m])| + |RecordBytes(recs[m])|
  {
    var t := recs[..m + 1];
    StreamSplit(t, m);
    assert t[..m] == recs[..m] && t[m..] == [recs[m]];
    assert Stream([recs[m]]) == RecordBytes(recs[m]) + Stream([recs[m]][1..]);
  }

  lemma DirSame(v: Env, tx: State, w: Wire, rx: State, tx2: State, rx2: State)
    requires DirInv(v, tx, w, rx)
    requires tx2.h.written == tx.h.written && rx2.h.consumed == rx.h.consumed && (tx.w.WExit? ==> tx2.w.WExit?)
    ensures DirInv(v, tx2, w, rx2)
  {
  }

  lemma DirWrote(v: Env, tx: State, w: Wire, rx: State, nonce: bytes)
    requires SealsRight(v.s) && DirInv(v, tx, w, rx) && Writing(tx) && |nonce| == NONCE
    requires Written(v, InHand(tx), nonce).Ok?
    ensures var rec := Written(v, InHand(tx), nonce).value;
            DirInv(v, Wrote(tx), w.(recs := w.recs + [rec]), rx)
  {
    var o := InHand(tx);
    OpenSeal(v.s, v.key, nonce, o.pt);
    var rec := Written(v, o, nonce).value;
    var m := |rx.h.consumed|;
    assert (w.recs + [rec])[..m] == w.recs[..m];
  }

  lemma DirTorn(v: Env, tx: State, w: Wire, rx: State, nonce: bytes, k: nat)
    requires SealsRight(v.s) && DirInv(v, tx, w, rx) && Writing(tx) && |nonce| == NONCE
    requires Written(v, InHand(tx), nonce).Ok? && k < |RecordBytes(Written(v, InHand(tx), nonce).value)|
    ensures DirInv(v, WriteFailed(tx), w.(torn := Some(Torn(Written(v, InHand(tx), nonce).value, k))), rx)
  {
    OpenSeal(v.s, v.key, nonce, InHand(tx).pt);
  }

  /** The reader takes the next record and opens it to the plaintext its sender wrote. */
  lemma ReadIsNext(v: Env, tx: State, w: Wire, rx: State)
    requires DirInv(v, tx, w, rx)
    ensures var p, m := Parse(Unread(w)), |rx.h.consumed|;
            p == Short
            || (&& m < |w.recs| && p.Got? && p.rec == w.recs[m]
                && Open(v.s, v.key, p.rec.sealed) == Ok(tx.h.written[m].pt) && p.rec.typ == tx.h.written[m].typ
                && (w.end.Some? ==> w.taken + |RecordBytes(p.rec)| <= w.end.value))
  {
    var m := |rx.h.consumed|;
    NextRecord(w, m);
    if Parse(Unread(w)).Got? { ParseIsExact(Unread(w)); }
  }

  lemma DirRead(v: Env, tx: State, w: Wire, rx: State, rx2: State)
    requires DirInv(v, tx, w, rx) && Parse(Unread(w)).Got?
    requires var m := |rx.h.consumed|;
             m < |tx.h.written| && rx2.h.consumed == rx.h.consumed + [tx.h.written[m]]
    ensures DirInv(v, tx, w.(taken := w.taken + |RecordBytes(Parse(Unread(w)).rec)|), rx2)
  {
    hide Parse, Unread, Open, Stream, RecordBytes;
    var m := |rx.h.consumed|;
    ReadIsNext(v, tx, w, rx);
    TakenMore(w.recs, m);
    assert rx2.h.consumed == tx.h.written[..m + 1];
  }

  // ---------- both sides ----------

  /** One side, its two streams, and its peer. */
  predicate SideInv(v: Env, c: Cfg, s: Side, peer: State) {
    LocalInv(c, s.x) && DirInv(v, s.x, s.out, peer) && DirInv(v, peer, s.inn, s.x)
  }

  lemma WriteStep(v: Env, c: Cfg, s: Side, peer: State, nonce: bytes, tear: Option<nat>)
    requires SealsRight(v.s) && SideInv(v, c, s, peer) && CanDo(v, c, s, Write(nonce, tear))
    ensures SideInv(v, c, DoWrite(v, s, nonce, tear), peer)
  {
    var s2 := DoWrite(v, s, nonce, tear);
    if Written(v, InHand(s.x), nonce).Ok? && tear == None {
      WroteKeeps(c, s.x);
      DirWrote(v, s.x, s.out, peer, nonce);
    } else {
      WriteFailedKeeps(c, s.x);
      if Written(v, InHand(s.x), nonce).Ok? {
        DirTorn(v, s.x, s.out, peer, nonce, tear.value);
      } else {
        DirSame(v, s.x, s.out, peer, s2.x, peer);
      }
    }
    RxSame(c, s.x, s2.x);
    CbSame(c, s.x, s2.x);
    DirSame(v, peer, s.inn, s.x, peer, s2.x);
  }

  lemma ReaderEndsKeeps(c: Cfg, x: State, e: ConnErr)
    requires LocalInv(c, x) && x.r.RIdle?
    ensures LocalInv(c, ReaderEnds(x, e))
  {
    TxSame(c, x, ReaderEnds(x, e));
  }

  lemma ReadGot(v: Env, c: Cfg, s: Side, peer: State, o: Outbound, inn: Wire)
    requires SideInv(v, c, s, peer) && s.x.r.RIdle? && Parse(Unread(s.inn)).Got?
    requires |s.x.h.consumed| < |peer.h.written| && o == peer.h.written[|s.x.h.consumed|]
    requires inn == s.inn.(taken := s.inn.taken + |RecordBytes(Parse(Unread(s.inn)).rec)|)
    ensures SideInv(v, c, s.(x := OnMessage(c, s.x, o.typ, o.pt), inn := inn), peer)
  {
    var x2 := OnMessage(c, s.x, o.typ, o.pt);
    MessageKeeps(c, s.x, o.typ, o.pt);
    MessageFrame(c, s.x, o.typ, o.pt);
    DirRead(v, peer, s.inn, s.x, x2);
    DirSame(v, s.x, s.out, peer, x2, peer);
  }

  lemma ReadStep(v: Env, c: Cfg, s: Side, peer: State)
    requires SideInv(v, c, s, peer) && CanDo(v, c, s, Read)
    ensures SideInv(v, c, DoRead(v, c, s), peer)
  {
    ReadIsNext(v, peer, s.inn, s.x);
    if Parse(Unread(s.inn)) == Short {
      var x2 := ReaderEnds(s.x, Closed);
      ReaderEndsKeeps(c, s.x, Closed);
      DirSame(v, peer, s.inn, s.x, peer, x2);
      DirSame(v, s.x, s.out, peer, x2, peer);
    } else {
      var o := peer.h.written[|s.x.h.consumed|];
      var inn := s.inn.(taken := s.inn.taken + |RecordBytes(Parse(Unread(s.inn)).rec)|);
      assert DoRead(v, c, s) == s.(x := OnMessage(c, s.x, o.typ, o.pt), inn := inn);
      ReadGot(v, c, s, peer, o, inn);
    }
  }

  lemma SendKeeps(c: Cfg, x: State, p: bytes)
    requires LocalInv(c, x) && !x.stopSend && |x.sendQ| < c.sendDepth
    ensures LocalInv(c, Enqueue(x, p))
  {
    var x2 := Enqueue(x, p);
    EnqueueKeeps(c, x, Outbound(TEXT, p), x2);
    RxSame(c, x, x2);
    CbSame(c, x, x2);
  }

  /** A step that changes only the sending half. */
  lemma TxStep(c: Cfg, x: State, x2: State)
    requires LocalInv(c, x) && TxInv(c, x2) && x2 == x.(sendQ := x2.sendQ, w := x2.w, stopSend := x2.stopSend)
    ensures LocalInv(c, x2)
  {
    RxSame(c, x, x2);
    CbSame(c, x, x2);
  }

  lemma StopDeliveryKeeps(c: Cfg, x: State)
    requires LocalInv(c, x)
    ensures LocalInv(c, StopDelivery(x))
  {
    TxSame(c, x, StopDelivery(x));
    RxSame(c, x, StopDelivery(x));
    CbSame(c, x, StopDelivery(x));
  }

  /** Steps that touch only the connection's own state. */
  lemma LocalStep(v: Env, c: Cfg, s: Side, e: Event)
    requires LocalInv(c, s.x) && CanDo(v, c, s, e) && !e.Write? && !e.Read?
    ensures LocalInv(c, Do(v, c, s, e).x)
  {
    var x := s.x;
    match e
    case Send(p) => SendKeeps(c, x, p);
    case Receive => PopKeeps(c, x);
    case Stop => TxStep(c, x, StopSending(x));
    case StopDeliver => StopDeliveryKeeps(c, x);
    case Wake => WakeKeeps(c, x); TxStep(c, x, WakeWriter(x));
    case Drain => DrainKeeps(c, x); TxStep(c, x, DrainWriter(x));
    case Push => PushKeeps(c, x);
    case Pong => PongKeeps(c, x);
    case Take => TakeJobKeeps(c, x);
    case Call => CallJobKeeps(c, x);
  }

  lemma LocalFrame(v: Env, c: Cfg, s: Side, e: Event)
    requires CanDo(v, c, s, e) && !e.Write? && !e.Read?
    ensures var s2 := Do(v, c, s, e);
            && s2.out == s.out && s2.inn == s.inn
            && s2.x.h.written == s.x.h.written && s2.x.h.consumed == s.x.h.consumed
            && (s.x.w.WExit? ==> s2.x.w.WExit?)
  {
  }

  lemma SideStep(v: Env, c: Cfg, s: Side, peer: State, e: Event)
    requires SealsRight(v.s) && SideInv(v, c, s, peer) && CanDo(v, c, s, e)
    ensures SideInv(v, c, Do(v, c, s, e), peer)
  {
    if e.Write? {
      WriteStep(v, c, s, peer, e.nonce, e.tear);
    } else if e.Read? {
      ReadStep(v, c, s, peer);
    } else {
      OtherStep(v, c, s, peer, e);
    }
  }

  lemma OtherStep(v: Env, c: Cfg, s: Side, peer: State, e: Event)
    requires SideInv(v, c, s, peer) && CanDo(v, c, s, e) && !e.Write? && !e.Read?
    ensures SideInv(v, c, Do(v, c, s, e), peer)
  {
    LocalStep(v, c, s, e);
    LocalFrame(v, c, s, e);
    var x2 := Do(v, c, s, e).x;
    DirSame(v, s.x, s.out, peer, x2, peer);
    DirSame(v, peer, s.inn, s.x, peer, x2);
  }

  predicate DuoInv(v: Env, d: Duo) {
    SideInv(v, v.left, Side(d.a, d.lr, d.rl), d.b) && SideInv(v, v.right, Side(d.b, d.rl, d.lr), d.a)
  }

  lemma DuoStep(v: Env, d: Duo, t: Step)
    requires SealsRight(v.s) && DuoInv(v, d) && CanStep(v, d, t)
    ensures DuoInv(v, Next(v, d, t))
  {
    match t
    case Left(e) => SideStep(v, v.left, Side(d.a, d.lr, d.rl), d.b, e);
    case Right(e) => SideStep(v, v.right, Side(d.b, d.rl, d.lr), d.a, e);
    case EndLR(k) =>
    case EndRL(k) =>
  }

  lemma {:induction false} DuoRun(v: Env, d: Duo, ts: seq<Step>, d2: Duo)
    requires SealsRight(v.s) && DuoInv(v, d) && Runs(v, d, ts, d2)
    ensures DuoInv(v, d2)
    decreases |ts|
  {
    if ts != [] {
      DuoStep(v, d, ts[0]);
      DuoRun(v, Next(v, d, ts[0]), ts[1..], d2);
    }
  }

  lemma DuoStart(v: Env)
    ensures DuoInv(v, CONNECTED)
  {
  }
}
