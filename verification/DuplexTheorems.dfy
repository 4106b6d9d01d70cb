/** What holds of every run of two connections, for either of them (src/conn.cpp:59-402). */
module DuplexTheorems {
  import opened Bytes
  import opened Errors
  import opened Protocol
  import opened Session
  import opened ConnState
  import opened Duplex
  import opened DuplexProofs

  lemma ReachedDuo(v: Env, ts: seq<Step>, d: Duo)
    requires SealsRight(v.s) && Runs(v, CONNECTED, ts, d)
    ensures DuoInv(v, d)
  {
    DuoStart(v);
    DuoRun(v, CONNECTED, ts, d);
  }

  lemma Reached(v: Env, ts: seq<Step>, d: Duo, left: bool)
    requires SealsRight(v.s) && Runs(v, CONNECTED, ts, d)
    ensures LocalInv(CfgOf(v, left), Here(d, left))
    ensures Here(d, left).h.consumed <= There(d, left).h.written
    ensures TxInv(CfgOf(v, !left), There(d, left))
  {
    ReachedDuo(v, ts, d);
  }

  lemma TextsPrefix(a: seq<Outbound>, b: seq<Outbound>)
    requires a <= b
    ensures Texts(a) <= Texts(b)
  {
    TextsJoin(a, b[|a|..]);
    assert b == a + b[|a|..];
  }

  /** End-to-end FIFO: in every interleaving and for every truncation of the streams, what receive has
      returned on one side is a prefix of what send has accepted on the other. */
  lemma Fifo(v: Env, ts: seq<Step>, d: Duo, left: bool)
    requires SealsRight(v.s) && Runs(v, CONNECTED, ts, d) && !CfgOf(v, left).callback
    ensures Here(d, left).h.returned + Here(d, left).recvQ <= There(d, left).h.accepted
    ensures Here(d, left).h.returned <= There(d, left).h.accepted
  {
    ReachedDuo(v, ts, d);
    FifoNow(v, d, left);
  }

  lemma FifoNow(v: Env, d: Duo, left: bool)
    requires DuoInv(v, d) && !CfgOf(v, left).callback
    ensures Here(d, left).h.returned + Here(d, left).recvQ <= There(d, left).h.accepted
  {
    var rx, tx := Here(d, left), There(d, left);
    TextsPrefix(rx.h.consumed, tx.h.written);
    TextsPrefix(tx.h.written, tx.h.written + Pending(tx.w) + tx.sendQ);
    assert tx.h.written <= tx.h.written + Pending(tx.w) + tx.sendQ;
  }

  /** Close means complete: once the reader has consumed a Close, it has consumed every record ever
      written, and what it returned and still buffers is everything the other side accepted. */
  lemma CloseIsComplete(v: Env, ts: seq<Step>, d: Duo, left: bool)
    requires SealsRight(v.s) && Runs(v, CONNECTED, ts, d)
    requires exists i :: 0 <= i < |Here(d, left).h.consumed| && Here(d, left).h.consumed[i].typ == CLOSE
    ensures var rx, tx := Here(d, left), There(d, left);
            && rx.h.consumed == tx.h.written && rx.recvClosed
            && tx.stopSend && tx.sendQ == [] && tx.w == WExit([])
            && (!CfgOf(v, left).callback ==> rx.h.returned + rx.recvQ == tx.h.accepted)
  {
    Reached(v, ts, d, left);
    ClosedPair(CfgOf(v, left), Here(d, left), CfgOf(v, !left), There(d, left));
  }

  lemma ClosedPair(c: Cfg, rx: State, c2: Cfg, tx: State)
    requires RxInv(c, rx) && TxInv(c2, tx) && rx.h.consumed <= tx.h.written
    requires exists i :: 0 <= i < |rx.h.consumed| && rx.h.consumed[i].typ == CLOSE
    ensures rx.h.consumed == tx.h.written && rx.recvClosed
    ensures tx.stopSend && tx.sendQ == [] && tx.w == WExit([])
    ensures !c.callback ==> rx.h.returned + rx.recvQ == tx.h.accepted
  {
    var i :| 0 <= i < |rx.h.consumed| && rx.h.consumed[i].typ == CLOSE;
    OnlyLastCloses(c2, tx, i);
    assert rx.h.consumed == tx.h.written;
    assert tx.h.written + Pending(tx.w) + tx.sendQ == tx.h.written;
    assert Hand(rx.r) == [] && rx.h.returned + rx.recvQ + [] == rx.h.returned + rx.recvQ;
  }

  lemma OnlyLastCloses(c: Cfg, tx: State, i: nat)
    requires TxInv(c, tx) && i < |tx.h.written| && tx.h.written[i].typ == CLOSE
    ensures i == |tx.h.written| - 1
  {
    var os := tx.h.written;
    assert forall k :: 0 <= k < |os| - 1 ==> os[..|os| - 1][k] == os[k];
  }

  /** Close is written at most once and last, and the writer's inner drain loop never holds a message. */
  lemma CloseIsLast(v: Env, ts: seq<Step>, d: Duo, left: bool, i: nat)
    requires SealsRight(v.s) && Runs(v, CONNECTED, ts, d)
    ensures !Here(d, left).w.WDrain?
    ensures i < |Here(d, left).h.written| && Here(d, left).h.written[i].typ == CLOSE
        ==> i == |Here(d, left).h.written| - 1
  {
    Reached(v, ts, d, left);
    var x := Here(d, left);
    if i < |x.h.written| && x.h.written[i].typ == CLOSE { OnlyLastCloses(CfgOf(v, left), x, i); }
  }

  /** Every queue stays within its configured depth. */
  lemma QueuesBounded(v: Env, ts: seq<Step>, d: Duo, left: bool)
    requires SealsRight(v.s) && Runs(v, CONNECTED, ts, d)
    ensures var c, x := CfgOf(v, left), Here(d, left);
            |x.sendQ| <= c.sendDepth && |x.recvQ| <= c.recvDepth && |x.jobs| <= c.jobsDepth
  {
    Reached(v, ts, d, left);
  }

  /** Callback mode: every text within the size limit was called back, skipped as empty, is in hand or
      queued, was dropped, or was the one that triggered slow_consumer. */
  lemma CallbacksAccounted(v: Env, ts: seq<Step>, d: Duo, left: bool)
    requires SealsRight(v.s) && Runs(v, CONNECTED, ts, d) && CfgOf(v, left).callback
    ensures var c, x := CfgOf(v, left), Here(d, left);
            && Acceptable(x.h.consumed, c.maxMessage)
               == |x.h.called| + x.h.skipped + (if x.d.DHold? then 1 else 0) + |x.jobs| + x.dropped + x.h.slow
            && x.h.slow <= 1 && (x.h.slow == 1 ==> x.recvClosed)
  {
    Reached(v, ts, d, left);
  }

  // ---------- between any two moments of a run ----------

  /** How a connection may change over time. */
  predicate Later(x: State, y: State) {
    && (x.stopSend ==> y.stopSend && y.h.accepted == x.h.accepted)
    && x.h.returned + x.recvQ <= y.h.returned + y.recvQ
    && x.h.returned <= y.h.returned
    && (x.recvClosed ==> y.recvClosed && y.recvErr == x.recvErr && y.h.returned + y.recvQ == x.h.returned + x.recvQ)
    && (x.r.RStuck? ==> y.r.RStuck? && y.recvQ == x.recvQ && y.h.returned == x.h.returned)
  }

  lemma LaterLocal(v: Env, c: Cfg, s: Side, e: Event)
    requires RxInv(c, s.x) && CanDo(v, c, s, e) && !e.Write? && !e.Read?
    ensures Later(s.x, Do(v, c, s, e).x)
  {
    var x, y := s.x, Do(v, c, s, e).x;
    if e.Receive? {
      assert y.h.returned + y.recvQ == x.h.returned + x.recvQ;
    } else if e.Push? {
      assert x.h.returned + x.recvQ <= y.h.returned + y.recvQ;
    }
  }

  lemma LaterMessage(c: Cfg, x: State, typ: byte, pt: bytes)
    requires x.r.RIdle? && !x.recvClosed
    ensures Later(x, OnMessage(c, x, typ, pt))
  {
  }

  lemma LaterRead(v: Env, c: Cfg, s: Side)
    requires RxInv(c, s.x) && CanDo(v, c, s, Read)
    ensures Later(s.x, DoRead(v, c, s).x)
  {
    var p := Parse(Unread(s.inn));
    if p.Got? && Open(v.s, v.key, p.rec.sealed).Ok? {
      LaterMessage(c, s.x, p.rec.typ, Open(v.s, v.key, p.rec.sealed).value);
    }
  }

  lemma LaterStep(v: Env, c: Cfg, s: Side, e: Event)
    requires LocalInv(c, s.x) && CanDo(v, c, s, e)
    ensures Later(s.x, Do(v, c, s, e).x)
  {
    if e.Read? {
      LaterRead(v, c, s);
    } else if !e.Write? {
      LaterLocal(v, c, s, e);
    }
  }

  lemma LaterTrans(x: State, y: State, z: State)
    requires Later(x, y) && Later(y, z)
    ensures Later(x, z)
  {
  }

  lemma LaterNext(v: Env, d: Duo, t: Step, left: bool)
    requires DuoInv(v, d) && CanStep(v, d, t)
    ensures Later(Here(d, left), Here(Next(v, d, t), left))
  {
    if t.Left? && left { LaterStep(v, v.left, Side(d.a, d.lr, d.rl), t.e); }
    if t.Right? && !left { LaterStep(v, v.right, Side(d.b, d.rl, d.lr), t.e); }
  }

  lemma {:induction false} LaterRun(v: Env, d: Duo, ts: seq<Step>, d2: Duo, left: bool)
    requires SealsRight(v.s) && DuoInv(v, d) && Runs(v, d, ts, d2)
    ensures Later(Here(d, left), Here(d2, left))
    decreases |ts|
  {
    if ts != [] {
      var m := Next(v, d, ts[0]);
      DuoStep(v, d, ts[0]);
      LaterNext(v, d, ts[0], left);
      LaterRun(v, m, ts[1..], d2, left);
      LaterTrans(Here(d, left), Here(m, left), Here(d2, left));
    }
  }

  /** After stop no message is accepted; nothing buffered is ever lost or reordered; and once receive
      has reported the end of the connection every later call reports the same error. */
  lemma EndIsFinal(v: Env, ts: seq<Step>, d: Duo, more: seq<Step>, d2: Duo, left: bool)
    requires SealsRight(v.s) && Runs(v, CONNECTED, ts, d) && Runs(v, d, more, d2)
    ensures var x, y := Here(d, left), Here(d2, left);
            && (x.stopSend ==> y.h.accepted == x.h.accepted)
            && x.h.returned + x.recvQ <= y.h.returned + y.recvQ
            && (x.recvClosed && x.recvQ == [] ==>
                  && y.recvClosed && y.recvQ == [] && y.h.returned == x.h.returned
                  && x.recvErr == y.recvErr == Some(TerminalError(y)))
  {
    ReachedDuo(v, ts, d);
    LaterRun(v, d, more, d2, left);
    var x, y := Here(d, left), Here(d2, left);
    if x.recvClosed && x.recvQ == [] {
      assert x.h.returned + x.recvQ == x.h.returned;
      assert |y.h.returned| + |y.recvQ| == |x.h.returned|;
      assert |x.h.returned| <= |y.h.returned|;
    }
  }
}
