/** One connection against an arbitrary peer and network: whatever arrives, callbacks come in order, every
    pong answers a ping, and the reader ends for a reason (src/conn.cpp:266-402). */
module Lone {
  import opened Bytes
  import opened Errors
  import opened Protocol
  import opened Session
  import opened ConnState
  import opened Duplex
  import opened DuplexProofs
  import opened DuplexTheorems

  /** A step of the connection, or anything at all on its incoming stream. */
  datatype Turn = Own(e: Event) | Fed(inn: Wire)

  predicate CanTurn(v: Env, c: Cfg, s: Side, t: Turn) { t.Own? ==> CanDo(v, c, s, t.e) }

  function DoTurn(v: Env, c: Cfg, s: Side, t: Turn): Side
    requires CanTurn(v, c, s, t)
  {
    match t
    case Own(e) => Do(v, c, s, e)
    case Fed(inn) => s.(inn := inn)
  }

  const UP: Side := Side(FRESH, EMPTY, EMPTY)

  ghost predicate Lives(v: Env, c: Cfg, s: Side, ts: seq<Turn>, s2: Side)
    decreases |ts|
  {
    if ts == [] then s == s2 else CanTurn(v, c, s, ts[0]) && Lives(v, c, DoTurn(v, c, s, ts[0]), ts[1..], s2)
  }

  // ---------- sequences of payloads ----------

  /** Payloads of one type, in order. */
  function OfType(os: seq<Outbound>, typ: byte): seq<bytes> {
    if os == [] then []
    else OfType(os[..|os| - 1], typ) + (if os[|os| - 1].typ == typ then [os[|os| - 1].pt] else [])
  }

  /** Texts within the size limit, in order. */
  function Fit(os: seq<Outbound>, limit: int): seq<bytes> {
    if os == [] then []
    else
      var o := os[|os| - 1];
      Fit(os[..|os| - 1], limit) + (if o.typ == TEXT && |o.pt| <= limit then [o.pt] else [])
  }

  function NonEmpty(ps: seq<bytes>): seq<bytes> {
    if ps == [] then []
    else NonEmpty(ps[..|ps| - 1]) + (if ps[|ps| - 1] == [] then [] else [ps[|ps| - 1]])
  }

  /** `a` is `b` with some payloads left out. */
  predicate Sub(a: seq<bytes>, b: seq<bytes>)
    decreases |b|
  {
    if b == [] then a == []
    else
      || Sub(a, b[..|b| - 1])
      || (a != [] && a[|a| - 1] == b[|b| - 1] && Sub(a[..|a| - 1], b[..|b| - 1]))
  }

  lemma {:induction false} OfTypeJoin(a: seq<Outbound>, b: seq<Outbound>, typ: byte)
    ensures OfType(a + b, typ) == OfType(a, typ) + OfType(b, typ)
  {
    if b == [] {
      assert a + b == a;
    } else {
      OfTypeJoin(a, b[..|b| - 1], typ);
      assert (a + b)[..|a + b| - 1] == a + b[..|b| - 1];
    }
  }

  lemma OfTypeMore(a: seq<Outbound>, o: Outbound, typ: byte)
    ensures OfType(a + [o], typ) == OfType(a, typ) + if o.typ == typ then [o.pt] else []
  {
    assert (a + [o])[..|a|] == a;
  }

  lemma FitMore(a: seq<Outbound>, o: Outbound, limit: int)
    ensures Fit(a + [o], limit) == Fit(a, limit) + if o.typ == TEXT && |o.pt| <= limit then [o.pt] else []
  {
    assert (a + [o])[..|a|] == a;
  }

  lemma NonEmptyMore(a: seq<bytes>, p: bytes)
    ensures NonEmpty(a + [p]) == if p == [] then NonEmpty(a) else NonEmpty(a) + [p]
  {
    assert (a + [p])[..|a|] == a;
  }

  lemma {:induction false} NonEmptyJoin(a: seq<bytes>, b: seq<bytes>)
    ensures NonEmpty(a + b) == NonEmpty(a) + NonEmpty(b)
  {
    if b == [] {
      assert a + b == a;
    } else {
      NonEmptyJoin(a, b[..|b| - 1]);
      assert (a + b)[..|a + b| - 1] == a + b[..|b| - 1];
    }
  }

  lemma SubMore(a: seq<bytes>, b: seq<bytes>, p: bytes)
    requires Sub(a, b)
    ensures Sub(a, b + [p]) && Sub(a + [p], b + [p])
  {
    assert (b + [p])[..|b|] == b && (a + [p])[..|a|] == a;
  }

  lemma {:induction false} SubGrows(a: seq<bytes>, b: seq<bytes>, d: seq<bytes>)
    requires Sub(a, b)
    ensures Sub(a, b + d)
    decreases |d|
  {
    if d == [] {
      assert b + d == b;
    } else {
      SubGrows(a, b, d[..|d| - 1]);
      assert (b + d)[..|b + d| - 1] == b + d[..|d| - 1];
    }
  }

  lemma {:induction false} SubCut(a: seq<bytes>, b: seq<bytes>)
    requires Sub(a, b) && a != []
    ensures Sub(a[..|a| - 1], b)
    decreases |b|
  {
    if Sub(a, b[..|b| - 1]) {
      SubCut(a, b[..|b| - 1]);
    } else {
      SubMore(a[..|a| - 1], b[..|b| - 1], b[|b| - 1]);
      assert b[..|b| - 1] + [b[|b| - 1]] == b;
    }
  }

  lemma {:induction false} SubPrefix(a: seq<bytes>, b: seq<bytes>, n: nat)
    requires Sub(a, b) && n <= |a|
    ensures Sub(a[..n], b)
    decreases |a|
  {
    if n < |a| {
      SubCut(a, b);
      SubPrefix(a[..|a| - 1], b, n);
      assert a[..|a| - 1][..n] == a[..n];
    } else {
      assert a[..n] == a;
    }
  }

  // ---------- callbacks in order ----------

  function Handed(d: Deliver): seq<bytes> { if d.DHold? then [d.pt] else [] }

  /** Callbacks made and still to be made. */
  function Called(x: State): seq<bytes> { x.h.called + NonEmpty(Handed(x.d) + x.jobs) }

  predicate Ordered(c: Cfg, x: State) {
    c.callback ==>
      var texts := NonEmpty(Fit(x.h.consumed, c.maxMessage));
      Sub(Called(x), texts) && (x.dropped == 0 && x.h.slow == 0 ==> Called(x) == texts)
  }

  lemma OrderedSame(c: Cfg, x: State, x2: State)
    requires Ordered(c, x) && x2.h.called == x.h.called && Handed(x2.d) + x2.jobs == Handed(x.d) + x.jobs
    requires x2.dropped == x.dropped && x2.h.slow == x.h.slow && x2.h.consumed == x.h.consumed
    ensures Ordered(c, x2)
  {
  }

  lemma OrderedTake(c: Cfg, x: State)
    requires Ordered(c, x) && x.d.DIdle?
    ensures Ordered(c, TakeJob(x))
  {
    hide Sub, NonEmpty, Fit;
    var x2 := TakeJob(x);
    if x.jobs != [] { assert [x.jobs[0]] + x.jobs[1..] == x.jobs == Handed(DIdle) + x.jobs; }
    OrderedSame(c, x, x2);
  }

  /** `ps` and one more payload, unless it is empty. */
  function With(ps: seq<bytes>, p: bytes): seq<bytes> { if p == [] then ps else ps + [p] }

  lemma CallOne(called: seq<bytes>, p: bytes, jobs: seq<bytes>)
    ensures called + NonEmpty([p] + jobs) == With(called, p) + NonEmpty(jobs)
  {
    NonEmptyJoin([p], jobs);
    NonEmptyOne(p);
    Assoc(called, With([], p), NonEmpty(jobs));
  }

  lemma Assoc(a: seq<bytes>, b: seq<bytes>, d: seq<bytes>)
    ensures a + (b + d) == a + b + d
  {
  }

  lemma NonEmptyOne(p: bytes)
    ensures NonEmpty([p]) == With([], p)
  {
    var none: seq<bytes> := [];
    assert none + [p] == [p];
    NonEmptyMore(none, p);
  }

  lemma CalledCall(x: State)
    requires x.d.DHold?
    ensures Called(CallJob(x)) == Called(x)
  {
    hide NonEmpty;
    CallOne(x.h.called, x.d.pt, x.jobs);
    assert Handed(DIdle) + x.jobs == x.jobs;
  }

  lemma OrderedCall(c: Cfg, x: State)
    requires Ordered(c, x) && x.d.DHold?
    ensures Ordered(c, CallJob(x))
  {
    hide Sub, Fit, NonEmpty, Called;
    CalledCall(x);
  }

  /** The texts so far and one more message. */
  lemma TextsSoFar(os: seq<Outbound>, o: Outbound, limit: int)
    ensures NonEmpty(Fit(os + [o], limit))
         == if o.typ == TEXT && |o.pt| <= limit then With(NonEmpty(Fit(os, limit)), o.pt) else NonEmpty(Fit(os, limit))
  {
    hide NonEmpty;
    FitMore(os, o, limit);
    NonEmptyMore(Fit(os, limit), o.pt);
    assert Fit(os, limit) + [] == Fit(os, limit);
  }

  lemma SubWith(a: seq<bytes>, b: seq<bytes>, p: bytes)
    requires Sub(a, b)
    ensures Sub(a, With(b, p)) && Sub(With(a, p), With(b, p))
  {
    hide Sub;
    SubMore(a, b, p);
  }

  lemma OrderedMessage(c: Cfg, x: State, typ: byte, pt: bytes)
    requires Ordered(c, x)
    ensures Ordered(c, OnMessage(c, x, typ, pt))
  {
    hide Sub, NonEmpty, Fit, Called, With;
    if c.callback {
      TextsSoFar(x.h.consumed, Outbound(typ, pt), c.maxMessage);
      SubWith(Called(x), NonEmpty(Fit(x.h.consumed, c.maxMessage)), pt);
      CalledThen(c, x, typ, pt);
    }
  }

  /** A text joins the jobs if there is room; nothing else changes what is to be called. */
  lemma CalledThen(c: Cfg, x: State, typ: byte, pt: bytes)
    requires c.callback
    ensures var x2 := OnMessage(c, x, typ, pt);
            var joins := typ == TEXT && |pt| <= c.maxMessage && |x.jobs| < c.jobsDepth;
            Called(x2) == if joins then With(Called(x), pt) else Called(x)
  {
    hide NonEmpty;
    var pending := Handed(x.d) + x.jobs;
    NonEmptyMore(pending, pt);
    assert pending + [pt] == Handed(x.d) + (x.jobs + [pt]);
    Assoc(x.h.called, NonEmpty(pending), [pt]);
  }

  // ---------- pongs answer pings ----------

  /** Everything written, held and queued. */
  function Outgoing(x: State): seq<Outbound> { x.h.written + Pending(x.w) + x.sendQ }

  function PingHand(r: Reader): seq<bytes> { if r.RPing? then [r.pt] else [] }

  predicate Answered(x: State) {
    && OfType(Outgoing(x), PONG) + PingHand(x.r) <= OfType(x.h.consumed, PING)
    && (!x.r.RExit? ==> OfType(Outgoing(x), PONG) + PingHand(x.r) == OfType(x.h.consumed, PING))
  }

  lemma AnsweredSame(x: State, x2: State)
    requires Answered(x) && OfType(Outgoing(x2), PONG) == OfType(Outgoing(x), PONG)
    requires PingHand(x2.r) == PingHand(x.r) && x2.h.consumed == x.h.consumed && (x.r.RExit? ==> x2.r.RExit?)
    ensures Answered(x2)
  {
    hide OfType;
  }

  lemma PongAnswers(x: State, x2: State)
    requires Answered(x) && x.r.RPing? && x2 == x.(sendQ := x.sendQ + [Outbound(PONG, x.r.pt)], r := RIdle)
    ensures Answered(x2)
  {
    hide OfType;
    var o := Outbound(PONG, x.r.pt);
    assert Outgoing(x2) == Outgoing(x) + [o];
    OfTypeMore(Outgoing(x), o, PONG);
    assert OfType(Outgoing(x2), PONG) + [] == OfType(Outgoing(x2), PONG);
  }

  lemma AnsweredMessage(c: Cfg, x: State, typ: byte, pt: bytes)
    requires Answered(x) && x.r.RIdle?
    ensures Answered(OnMessage(c, x, typ, pt))
  {
    hide OfType;
    var x2 := OnMessage(c, x, typ, pt);
    OfTypeMore(x.h.consumed, Outbound(typ, pt), PING);
    assert Outgoing(x2) == Outgoing(x);
    assert OfType(Outgoing(x), PONG) + [] == OfType(Outgoing(x), PONG);
    assert OfType(x.h.consumed, PING) + [] == OfType(x.h.consumed, PING);
  }

  /** The writer only moves messages along, and adds the Close. */
  lemma AnsweredWriter(x: State, x2: State)
    requires Answered(x) && x2.r == x.r && x2.h.consumed == x.h.consumed
    requires Outgoing(x2) == Outgoing(x) || Outgoing(x2) == Outgoing(x) + [Outbound(CLOSE, [])]
    ensures Answered(x2)
  {
    hide OfType;
    OfTypeMore(Outgoing(x), Outbound(CLOSE, []), PONG);
    assert OfType(Outgoing(x), PONG) + [] == OfType(Outgoing(x), PONG);
  }

  // ---------- why the reader ended ----------

  predicate TooLarge(c: Cfg, o: Outbound) { o.typ == TEXT && |o.pt| > c.maxMessage }

  /** A message after which the reader does not go on. */
  predicate Ending(c: Cfg, o: Outbound) { TooLarge(c, o) || o.typ == CLOSE || o.typ == 0 || o.typ > CLOSE }

  predicate Reasoned(c: Cfg, x: State) {
    var n := |x.h.consumed|;
    && (forall i :: 0 <= i < n && Ending(c, x.h.consumed[i]) ==> i == n - 1 && x.r.RExit?)
    && (if c.disconnectSlow then x.dropped == 0 else x.h.slow == 0)
    && (x.recvErr.Some? ==>
          var e := x.recvErr.value;
          && (e == MessageTooLarge <==> n > 0 && TooLarge(c, x.h.consumed[n - 1]))
          && (e == SlowConsumer <==> x.h.slow == 1)
          && (n > 0 && x.h.consumed[n - 1].typ == CLOSE ==> e == Closed)
          && (n > 0 && (x.h.consumed[n - 1].typ == 0 || x.h.consumed[n - 1].typ > CLOSE) ==> e == BadRecord)
          && (e == MessageTooLarge || e == SlowConsumer || e == Closed || e == BadRecord))
  }

  lemma ReasonedSame(c: Cfg, x: State, x2: State)
    requires Reasoned(c, x) && x2.h.consumed == x.h.consumed && x2.h.slow == x.h.slow
    requires x2.recvErr == x.recvErr && x2.dropped == x.dropped && (x.r.RExit? ==> x2.r.RExit?)
    ensures Reasoned(c, x2)
  {
  }

  lemma ReasonedEnds(c: Cfg, x: State, e: ConnErr)
    requires Reasoned(c, x) && RxInv(c, x) && CbInv(c, x) && !x.r.RExit? && (e == Closed || e == BadRecord)
    ensures Reasoned(c, ReaderEnds(x, e))
  {
    hide Texts, Acceptable;
  }

  lemma ReasonedMessage(c: Cfg, x: State, typ: byte, pt: bytes)
    requires Reasoned(c, x) && RxInv(c, x) && CbInv(c, x) && x.r.RIdle?
    ensures Reasoned(c, OnMessage(c, x, typ, pt))
  {
    hide Texts, Acceptable;
    var x2 := OnMessage(c, x, typ, pt);
    assert x2.h.consumed == x.h.consumed + [Outbound(typ, pt)];
    assert x.recvErr == None && x.h.slow == 0;
  }

  // ---------- every step keeps all of it ----------

  predicate AloneInv(c: Cfg, x: State) { LocalInv(c, x) && Ordered(c, x) && Answered(x) && Reasoned(c, x) }

  lemma AloneRead(v: Env, c: Cfg, s: Side)
    requires AloneInv(c, s.x) && CanDo(v, c, s, Read)
    ensures AloneInv(c, DoRead(v, c, s).x)
  {
    hide LocalInv, Ordered, Answered, Reasoned, Parse, Unread, Open, OnMessage;
    var p := Parse(Unread(s.inn));
    if p.Got? && Open(v.s, v.key, p.rec.sealed).Ok? {
      AloneMessage(c, s.x, p.rec.typ, Open(v.s, v.key, p.rec.sealed).value);
    } else {
      if p.Got? { OpenFails(v.s, v.key, p.rec.sealed); }
      AloneEnds(c, s.x, if p == Short then Closed else BadRecord);
    }
  }

  lemma OpenFails(s: Suite, key: bytes, b: bytes)
    ensures Open(s, key, b).Err? ==> Open(s, key, b).error == BadRecord
  {
  }

  lemma AloneMessage(c: Cfg, x: State, typ: byte, pt: bytes)
    requires AloneInv(c, x) && x.r.RIdle?
    ensures AloneInv(c, OnMessage(c, x, typ, pt))
  {
    hide TxInv, RxInv, CbInv, Ordered, Answered, Reasoned;
    MessageKeeps(c, x, typ, pt);
    OrderedMessage(c, x, typ, pt);
    AnsweredMessage(c, x, typ, pt);
    ReasonedMessage(c, x, typ, pt);
  }

  lemma AloneEnds(c: Cfg, x: State, e: ConnErr)
    requires AloneInv(c, x) && x.r.RIdle? && (e == Closed || e == BadRecord)
    ensures AloneInv(c, ReaderEnds(x, e))
  {
    hide TxInv, RxInv, CbInv, Ordered, Answered, Reasoned;
    ReaderEndsKeeps(c, x, e);
    OrderedSame(c, x, ReaderEnds(x, e));
    ReasonedEnds(c, x, e);
    EndsQuietly(x, e);
  }

  lemma EndsQuietly(x: State, e: ConnErr)
    requires Answered(x) && x.r.RIdle?
    ensures Answered(ReaderEnds(x, e))
  {
    AnsweredSame(x, ReaderEnds(x, e));
  }

  lemma AloneWrite(v: Env, c: Cfg, s: Side, nonce: bytes, tear: Option<nat>)
    requires AloneInv(c, s.x) && CanDo(v, c, s, Write(nonce, tear))
    ensures AloneInv(c, DoWrite(v, s, nonce, tear).x)
  {
    hide TxInv, RxInv, CbInv, Ordered, Answered, Reasoned, Written;
    var x := s.x;
    var x2 := DoWrite(v, s, nonce, tear).x;
    WroteKeeps(c, x);
    WriteFailedKeeps(c, x);
    NotDraining(c, x);
    RxSame(c, x, x2);
    CbSame(c, x, x2);
    OrderedSame(c, x, x2);
    ReasonedSame(c, x, x2);
    WriterMoves(x);
    AnsweredWriter(x, x2);
  }

  lemma NotDraining(c: Cfg, x: State)
    requires TxInv(c, x)
    ensures !x.w.WDrain? && (x.w.WClosing? ==> x.sendQ == [])
  {
  }

  lemma WriterMoves(x: State)
    requires Writing(x) && !x.w.WDrain? && (x.w.WClosing? ==> x.sendQ == [])
    ensures var y := Wrote(x); Outgoing(y) == Outgoing(x) || Outgoing(y) == Outgoing(x) + [Outbound(CLOSE, [])]
    ensures var y := WriteFailed(x); Outgoing(y) == Outgoing(x) || Outgoing(y) == Outgoing(x) + [Outbound(CLOSE, [])]
  {
  }

  lemma AloneLocal(v: Env, c: Cfg, s: Side, e: Event)
    requires AloneInv(c, s.x) && CanDo(v, c, s, e) && !e.Write? && !e.Read?
    ensures AloneInv(c, Do(v, c, s, e).x)
  {
    hide TxInv, RxInv, CbInv, Ordered, Answered, Reasoned;
    var x, x2 := s.x, Do(v, c, s, e).x;
    LocalStep(v, c, s, e);
    AloneOrder(v, c, s, e);
    AloneAnswers(v, c, s, e);
    if e.Pong? && x.stopSend {
      ReasonedEnds(c, x, Closed);
    } else {
      ReasonedSame(c, x, x2);
    }
  }

  lemma AloneOrder(v: Env, c: Cfg, s: Side, e: Event)
    requires Ordered(c, s.x) && CanDo(v, c, s, e) && !e.Write? && !e.Read?
    ensures Ordered(c, Do(v, c, s, e).x)
  {
    hide Ordered;
    if e.Take? {
      OrderedTake(c, s.x);
    } else if e.Call? {
      OrderedCall(c, s.x);
    } else {
      OrderedSame(c, s.x, Do(v, c, s, e).x);
    }
  }

  lemma AloneAnswers(v: Env, c: Cfg, s: Side, e: Event)
    requires Answered(s.x) && CanDo(v, c, s, e) && !e.Write? && !e.Read?
    ensures Answered(Do(v, c, s, e).x)
  {
    hide Answered, Outgoing;
    var x, x2 := s.x, Do(v, c, s, e).x;
    if e.Send? {
      SendAnswers(x, e.p);
    } else if e.Pong? {
      if x.stopSend { PongEnds(x); } else { PongAnswers(x, x2); }
    } else {
      SameOutgoing(v, c, s, e);
      AnsweredStill(x, x2);
    }
  }

  /** The other steps only move messages along. */
  lemma SameOutgoing(v: Env, c: Cfg, s: Side, e: Event)
    requires CanDo(v, c, s, e) && !e.Write? && !e.Read? && !e.Send? && !e.Pong?
    ensures var x2 := Do(v, c, s, e).x;
            Outgoing(x2) == Outgoing(s.x) && PingHand(x2.r) == PingHand(s.x.r) && x2.h.consumed == s.x.h.consumed
            && (x2.r.RExit? <==> s.x.r.RExit?)
  {
    var x := s.x;
    if e.Wake? { MovesAlong(x, WakeWriter(x)); }
    if e.Drain? { MovesAlong(x, DrainWriter(x)); }
  }

  lemma MovesAlong(x: State, x2: State)
    requires Pending(x.w) == [] && x2.h.written == x.h.written && Pending(x2.w) + x2.sendQ == x.sendQ
    ensures Outgoing(x2) == Outgoing(x)
  {
  }

  lemma AnsweredStill(x: State, x2: State)
    requires Answered(x) && Outgoing(x2) == Outgoing(x) && PingHand(x2.r) == PingHand(x.r)
    requires x2.h.consumed == x.h.consumed && (x2.r.RExit? <==> x.r.RExit?)
    ensures Answered(x2)
  {
    hide OfType, Outgoing;
  }

  lemma PongEnds(x: State)
    requires Answered(x) && x.r.RPing?
    ensures Answered(ReaderEnds(x, Closed))
  {
    hide OfType;
    var x2 := ReaderEnds(x, Closed);
    assert Outgoing(x2) == Outgoing(x);
    assert OfType(Outgoing(x), PONG) + [] == OfType(Outgoing(x), PONG);
  }

  lemma SendAnswers(x: State, p: bytes)
    requires Answered(x)
    ensures Answered(Enqueue(x, p))
  {
    hide OfType;
    assert Outgoing(Enqueue(x, p)) == Outgoing(x) + [Outbound(TEXT, p)];
    OfTypeMore(Outgoing(x), Outbound(TEXT, p), PONG);
    assert OfType(Outgoing(x), PONG) + [] == OfType(Outgoing(x), PONG);
  }

  lemma AloneStep(v: Env, c: Cfg, s: Side, e: Event)
    requires AloneInv(c, s.x) && CanDo(v, c, s, e)
    ensures AloneInv(c, Do(v, c, s, e).x)
  {
    hide AloneInv;
    if e.Read? {
      AloneRead(v, c, s);
    } else if e.Write? {
      AloneWrite(v, c, s, e.nonce, e.tear);
    } else {
      AloneLocal(v, c, s, e);
    }
  }

  lemma AloneStart(c: Cfg)
    ensures AloneInv(c, FRESH)
  {
  }

  lemma {:induction false} AloneRun(v: Env, c: Cfg, s: Side, ts: seq<Turn>, s2: Side)
    requires AloneInv(c, s.x) && Lives(v, c, s, ts, s2)
    ensures AloneInv(c, s2.x)
    decreases |ts|
  {
    hide AloneInv, CanDo, Do;
    if ts != [] {
      if ts[0].Own? { AloneStep(v, c, s, ts[0].e); }
      AloneRun(v, c, DoTurn(v, c, s, ts[0]), ts[1..], s2);
    }
  }

  /** One connection, whatever arrives: the callbacks made and still to be made are the non-empty texts
      within the limit that were read, in that order, with only dropped ones left out; ... */
  lemma CallbacksInOrder(v: Env, c: Cfg, ts: seq<Turn>, s: Side)
    requires Lives(v, c, UP, ts, s) && c.callback
    ensures var texts := NonEmpty(Fit(s.x.h.consumed, c.maxMessage));
            && Sub(s.x.h.called, texts)
            && Sub(s.x.h.called + NonEmpty(Handed(s.x.d) + s.x.jobs), texts)
            && (s.x.dropped == 0 && s.x.h.slow == 0 ==>
                  s.x.h.called + NonEmpty(Handed(s.x.d) + s.x.jobs) == texts)
  {
    hide Lives, Sub, NonEmpty, Fit;
    AloneStart(c);
    AloneRun(v, c, UP, ts, s);
    var all, n := Called(s.x), |s.x.h.called|;
    SubPrefix(all, NonEmpty(Fit(s.x.h.consumed, c.maxMessage)), n);
    assert all[..n] == s.x.h.called;
  }

  /** ... the pongs written, held and queued carry the payloads of the pings that were read, one for one and
      in that order, except for a last one that shutdown left unanswered; ... */
  lemma PongsAnswerPings(v: Env, c: Cfg, ts: seq<Turn>, s: Side)
    requires Lives(v, c, UP, ts, s)
    ensures OfType(s.x.h.written + Pending(s.x.w) + s.x.sendQ, PONG) <= OfType(s.x.h.consumed, PING)
    ensures s.x.r.RIdle? ==> OfType(s.x.h.written + Pending(s.x.w) + s.x.sendQ, PONG) == OfType(s.x.h.consumed, PING)
  {
    hide Lives, OfType;
    AloneStart(c);
    AloneRun(v, c, UP, ts, s);
  }

  /** ... and the error that receive reports at the end says why: a text above the limit, a callback that was
      too slow, a Close, a message of unknown type, or else the end of the stream or of sending, or a
      record that could not be read. Nothing is read after such a message. A slow callback costs dropped
      texts or the connection, as configured. */
  lemma EndHasReason(v: Env, c: Cfg, ts: seq<Turn>, s: Side)
    requires Lives(v, c, UP, ts, s)
    ensures Reasoned(c, s.x)
  {
    hide Lives;
    AloneStart(c);
    AloneRun(v, c, UP, ts, s);
  }

  // ---------- two connections ----------

  lemma {:induction false} BothAlone(v: Env, d: Duo, ts: seq<Step>, d2: Duo)
    requires AloneInv(v.left, d.a) && AloneInv(v.right, d.b) && Runs(v, d, ts, d2)
    ensures AloneInv(v.left, d2.a) && AloneInv(v.right, d2.b)
    decreases |ts|
  {
    hide AloneInv, CanDo, Do;
    if ts != [] {
      match ts[0] {
        case Left(e) => AloneStep(v, v.left, Side(d.a, d.lr, d.rl), e);
        case Right(e) => AloneStep(v, v.right, Side(d.b, d.rl, d.lr), e);
        case _ =>
      }
      BothAlone(v, Next(v, d, ts[0]), ts[1..], d2);
    }
  }

  lemma AloneIn(v: Env, ts: seq<Step>, d: Duo, left: bool)
    requires Runs(v, CONNECTED, ts, d)
    ensures AloneInv(CfgOf(v, left), Here(d, left))
  {
    hide AloneInv, Runs;
    AloneStart(v.left);
    AloneStart(v.right);
    BothAlone(v, CONNECTED, ts, d);
  }

  /** When at most the last message is too large, the texts that fit are a prefix of the texts. */
  lemma {:induction false} FitIsPrefix(c: Cfg, os: seq<Outbound>)
    requires forall i :: 0 <= i < |os| - 1 ==> !TooLarge(c, os[i])
    ensures Fit(os, c.maxMessage) <= Texts(os)
    ensures os != [] && !TooLarge(c, os[|os| - 1]) ==> Fit(os, c.maxMessage) == Texts(os)
  {
    if os != [] { FitIsPrefix(c, os[..|os| - 1]); }
  }

  lemma NonEmptyPrefix(a: seq<bytes>, b: seq<bytes>)
    requires a <= b
    ensures NonEmpty(a) <= NonEmpty(b)
  {
    NonEmptyJoin(a, b[|a|..]);
    assert a + b[|a|..] == b;
  }

  /** What a callback side has read within the limit is, in order, the start of what the other side accepted. */
  lemma ReadIsAccepted(v: Env, ts: seq<Step>, d: Duo, left: bool)
    requires SealsRight(v.s) && Runs(v, CONNECTED, ts, d)
    ensures NonEmpty(Fit(Here(d, left).h.consumed, CfgOf(v, left).maxMessage)) <= NonEmpty(There(d, left).h.accepted)
  {
    hide Runs, NonEmpty, Fit, Ordered, Answered;
    var rx, tx := Here(d, left), There(d, left);
    AloneIn(v, ts, d, left);
    Reached(v, ts, d, left);
    FitIsPrefix(CfgOf(v, left), rx.h.consumed);
    TextsPrefix(rx.h.consumed, tx.h.written);
    TextsPrefix(tx.h.written, tx.h.written + Pending(tx.w) + tx.sendQ);
    assert tx.h.written <= tx.h.written + Pending(tx.w) + tx.sendQ;
    NonEmptyPrefix(Fit(rx.h.consumed, CfgOf(v, left).maxMessage), tx.h.accepted);
  }

  /** End-to-end order for callbacks: in every interleaving and for every truncation, the callbacks made on
      one side are payloads accepted on the other, in that order, with only empty and dropped ones left
      out; and a prefix of the non-empty ones while nothing has been dropped. */
  lemma CallbackFifo(v: Env, ts: seq<Step>, d: Duo, left: bool)
    requires SealsRight(v.s) && Runs(v, CONNECTED, ts, d) && CfgOf(v, left).callback
    ensures var x, sent := Here(d, left), NonEmpty(There(d, left).h.accepted);
            Sub(x.h.called, sent) && (x.dropped == 0 && x.h.slow == 0 ==> x.h.called <= sent)
  {
    hide Runs, NonEmpty, Fit, Sub, LocalInv, Answered, Reasoned;
    var x := Here(d, left);
    var texts, sent := NonEmpty(Fit(x.h.consumed, CfgOf(v, left).maxMessage)), NonEmpty(There(d, left).h.accepted);
    AloneIn(v, ts, d, left);
    ReadIsAccepted(v, ts, d, left);
    var all, n := Called(x), |x.h.called|;
    SubPrefix(all, texts, n);
    assert all[..n] == x.h.called;
    SubGrows(x.h.called, texts, sent[|texts|..]);
    assert texts + sent[|texts|..] == sent;
  }

  /** Between two connections no record is ever found bad: a side ends because of a text above its
      limit, a slow callback, or the end of the other side. */
  lemma NeverBadRecord(v: Env, ts: seq<Step>, d: Duo, left: bool)
    requires SealsRight(v.s) && Runs(v, CONNECTED, ts, d)
    ensures Here(d, left).recvErr != Some(BadRecord)
  {
    hide Runs, DuoInv;
    DuoStart(v);
    GoodRecords(v, CONNECTED, ts, d);
  }

  lemma {:induction false} GoodRecords(v: Env, d: Duo, ts: seq<Step>, d2: Duo)
    requires SealsRight(v.s) && DuoInv(v, d) && Runs(v, d, ts, d2)
    requires d.a.recvErr != Some(BadRecord) && d.b.recvErr != Some(BadRecord)
    ensures d2.a.recvErr != Some(BadRecord) && d2.b.recvErr != Some(BadRecord)
    decreases |ts|
  {
    hide DuoInv, CanDo, Do;
    if ts != [] {
      DuoStep(v, d, ts[0]);
      match ts[0] {
        case Left(e) => SideOf(v, d, true); GoodStep(v, v.left, Side(d.a, d.lr, d.rl), d.b, e);
        case Right(e) => SideOf(v, d, false); GoodStep(v, v.right, Side(d.b, d.rl, d.lr), d.a, e);
        case _ =>
      }
      GoodRecords(v, Next(v, d, ts[0]), ts[1..], d2);
    }
  }

  lemma SideOf(v: Env, d: Duo, left: bool)
    requires DuoInv(v, d)
    ensures left ==> SideInv(v, v.left, Side(d.a, d.lr, d.rl), d.b) && TxInv(v.right, d.b)
    ensures !left ==> SideInv(v, v.right, Side(d.b, d.rl, d.lr), d.a) && TxInv(v.left, d.a)
  {
  }

  lemma GoodStep(v: Env, c: Cfg, s: Side, peer: State, e: Event)
    requires SideInv(v, c, s, peer) && CanDo(v, c, s, e) && s.x.recvErr != Some(BadRecord)
    requires exists c2 :: TxInv(c2, peer)
    ensures Do(v, c, s, e).x.recvErr != Some(BadRecord)
  {
    hide TxInv, RxInv, CbInv, Parse, Unread, Open, Written, OnMessage, Stream;
    if e.Read? {
      ReadIsNext(v, peer, s.inn, s.x);
      if Parse(Unread(s.inn)) != Short {
        var o := peer.h.written[|s.x.h.consumed|];
        var c2 :| TxInv(c2, peer);
        WrittenTypes(c2, peer, |s.x.h.consumed|);
        GoodMessage(c, s.x, o.typ, o.pt);
      }
    }
  }

  lemma WrittenTypes(c: Cfg, x: State, i: nat)
    requires TxInv(c, x) && i < |x.h.written|
    ensures x.h.written[i].typ in {TEXT, PONG, CLOSE}
  {
    hide Texts;
    var os := x.h.written;
    if Closes(os) && i < |os| - 1 { assert os[..|os| - 1][i] == os[i]; }
  }

  lemma GoodMessage(c: Cfg, x: State, typ: byte, pt: bytes)
    requires typ in {TEXT, PONG, CLOSE} && x.recvErr != Some(BadRecord)
    ensures OnMessage(c, x, typ, pt).recvErr != Some(BadRecord)
  {
  }

  /** What one read does: a record that opens is consumed, with its own type and plaintext; one that does not
      open, or a refused length ends the reader with bad_frame, and the end of the stream
      ends it with closed. */
  lemma ReadDecides(v: Env, c: Cfg, s: Side)
    requires RxInv(c, s.x) && CanDo(v, c, s, Read)
    ensures var p, x2 := Parse(Unread(s.inn)), Do(v, c, s, Read).x;
            if p.Got? && Open(v.s, v.key, p.rec.sealed).Ok?
            then x2.h.consumed == s.x.h.consumed + [Outbound(p.rec.typ, Open(v.s, v.key, p.rec.sealed).value)]
            else && x2.h.consumed == s.x.h.consumed && x2.r.RExit?
                 && x2.recvErr == Some(if p == Short then Closed else BadRecord)
  {
    hide Parse, Unread, Open, Texts;
    var p := Parse(Unread(s.inn));
    if p.Got? { OpenFails(v.s, v.key, p.rec.sealed); }
  }

  /** The deliver thread leaves only when it was told to and nothing is queued. */
  lemma DeliverLeavesNothing(v: Env, c: Cfg, s: Side)
    requires CanDo(v, c, s, Take) && Do(v, c, s, Take).x.d.DExit?
    ensures s.x.deliverStop && s.x.jobs == []
  {
  }
}
