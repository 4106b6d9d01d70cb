/** Whole transfers and the retry loops: each side of any run over losses and redials is its retry loop
    on the connections it was given (src/transfer/transfer.cpp:809-847, 864-910). */
module Loops {
  import opened Errors
  import opened Frames
  import opened Grid
  import opened Endpoints
  import opened Attempt
  import opened Link
  import opened Traces
  import opened Blocked
  import opened Resume
  import opened Retry
  import opened Wire

  /** A connection that never reaches the other end. */
  function Nobody(limit: int): Script { Script([], 0, Closed, limit) }

  function Nobodies(n: nat, limit: int): (r: seq<Script>)
    ensures |r| == n && forall i :: 0 <= i < n ==> r[i] == Nobody(limit)
  {
    seq(n, i requires 0 <= i < n => Nobody(limit))
  }

  lemma NobodiesLast(ps: seq<Script>, n: nat, limit: int)
    requires n > 0
    ensures ps + Nobodies(n, limit) == ps + Nobodies(n - 1, limit) + [Nobody(limit)]
  {
    assert Nobodies(n, limit) == Nobodies(n - 1, limit) + [Nobody(limit)];
  }

  /** The run of the current attempt so far, how many attempts one end has burned since, and the message
      limit of the current connection. */
  datatype Now = Now(es: seq<Event>, alone: nat, limit: int)

  ghost predicate NowInv(m: Limits, w: World, x: Now) {
    && Offered(w.c) && Leads(w.c, Start(w.c), x.es, w.link)
    && w.c.send.chunk == EffectiveChunkSize(x.limit, m.want)
  }

  // ---------- the sender ----------

  predicate Again(o: Outcome) { o.Failure? && IsRetriable(o.error) }

  predicate AllFail(j: Job, ps: seq<Script>) {
    forall i :: 0 <= i < |ps| ==> Again(SendRun(j, ps[i]).res)
  }

  /** The reports of attempts one after the other. */
  function Reports(j: Job, ps: seq<Script>): seq<int> {
    if ps == [] then [] else SendRun(j, ps[0]).end.log + Reports(j, ps[1..])
  }

  lemma {:induction false} ReportsJoin(j: Job, ps: seq<Script>, qs: seq<Script>)
    ensures Reports(j, ps + qs) == Reports(j, ps) + Reports(j, qs)
    decreases |ps|
  {
    if ps == [] {
      assert ps + qs == qs;
    } else {
      ReportsJoin(j, ps[1..], qs);
      assert (ps + qs)[1..] == ps[1..] + qs;
    }
  }

  /** After attempts that are all retried, the loop is at the last one. */
  lemma {:induction false} SendSkips(j: Job, max: pos, ps: seq<Script>, p: Script, calls: nat, last: Option<Err>)
    requires AllFail(j, ps) && calls + |ps| < max
    ensures var r := RunSend(j, max, ps + [p], true, calls, last);
            && r.calls == calls + |ps| + 1 && r.log == Reports(j, ps) + SendRun(j, p).end.log
            && (!Again(SendRun(j, p).res) ==> r.res == SendRun(j, p).res)
    decreases |ps|
  {
    var all := ps + [p];
    if ps != [] {
      var run := SendRun(j, ps[0]);
      assert all[1..] == ps[1..] + [p];
      SendSkips(j, max, ps[1..], p, calls + 1, Some(run.res.error));
    }
  }

  function JobOf(c: Pair, want: int): Job { Job(c.send.meta, c.send.src, want, c.send.window) }

  lemma NobodySent(j: Job, limit: int)
    ensures var run := SendRun(j, Nobody(limit)); run.end.log == [] && (EncodeOffer(j.meta).Ok? ==> Again(run.res))
  {
  }

  lemma {:induction false} NobodiesSent(j: Job, n: nat, limit: int)
    requires EncodeOffer(j.meta).Ok?
    ensures AllFail(j, Nobodies(n, limit)) && Reports(j, Nobodies(n, limit)) == []
  {
    hide RunSender;
    NobodySent(j, limit);
    if n > 0 {
      NobodiesSent(j, n - 1, limit);
      assert Nobodies(n, limit)[1..] == Nobodies(n - 1, limit);
    }
  }

  /** The connection of the current attempt, as the sender saw it. */
  function SenderScript(c: Pair, l: Link, es: seq<Event>, limit: int): Script {
    Only(Along(c, Start(c), es, SenderTakes), |Along(c, Start(c), es, SenderSends)|,
         if l.sLost.Some? then l.sLost.value else Closed, limit)
  }

  lemma SenderScriptRuns(m: Limits, w: World, x: Now)
    requires NowInv(m, w, x)
    ensures var run := SendRun(JobOf(w.c, m.want), SenderScript(w.c, w.link, x.es, x.limit));
            run.end == w.link.s && (SenderResult(w.link).Some? ==> run.res == SenderResult(w.link).value)
  {
    hide Leads, Along, RunSender, AttemptInv;
    AttemptStart(w.c);
    var p := SenderScript(w.c, w.link, x.es, x.limit);
    SenderProjects(w.c, Start(w.c), x.es, w.link, p.loss, x.limit);
    assert CfgFor(JobOf(w.c, m.want), p) == w.c.send;
  }

  /** All connections of the sender so far: those of earlier attempts, the current one, and those on which
      it was alone since. */
  function SenderScripts(w: World, pre: seq<Script>, x: Now): seq<Script> {
    pre + [SenderScript(w.c, w.link, x.es, x.limit)] + Nobodies(x.alone, x.limit)
  }

  ghost predicate SenderPast(m: Limits, j: Job, w: World, pre: seq<Script>, x: Now) {
    && NowInv(m, w, x) && JobOf(w.c, m.want) == j
    && AllFail(j, pre) && Reports(j, pre) == w.sLog
    && w.sTries == |pre| + 1 + x.alone <= m.send
    && (x.alone > 0 ==> Retries(SenderResult(w.link)))
  }

  /** All of them failed, if the current attempt did. */
  lemma SenderAllFail(m: Limits, j: Job, w: World, pre: seq<Script>, x: Now)
    requires SenderPast(m, j, w, pre, x) && Retries(SenderResult(w.link))
    ensures AllFail(j, SenderScripts(w, pre, x)) && Reports(j, SenderScripts(w, pre, x)) == w.sLog + w.link.s.log
  {
    hide RunSender, Leads, SenderScript;
    SenderScriptRuns(m, w, x);
    NobodiesSent(j, x.alone, x.limit);
    var cur := SenderScript(w.c, w.link, x.es, x.limit);
    ReportsJoin(j, pre + [cur], Nobodies(x.alone, x.limit));
    ReportsJoin(j, pre, [cur]);
    assert Reports(j, [cur]) == SendRun(j, cur).end.log + Reports(j, [cur][1..]);
  }

  // ---------- the receiver ----------

  predicate AllLost(t: Trail, ps: seq<Script>)
    decreases |ps|
  {
    ps == [] || (Again(ReceiveRun(t, ps[0]).res) && AllLost(Onward(t, ps[0]), ps[1..]))
  }

  lemma {:induction false} TrekJoin(t: Trail, ps: seq<Script>, qs: seq<Script>)
    ensures Trek(t, ps + qs) == Trek(Trek(t, ps), qs)
    ensures AllLost(t, ps) && AllLost(Trek(t, ps), qs) ==> AllLost(t, ps + qs)
    decreases |ps|
  {
    if ps == [] {
      assert ps + qs == qs;
    } else {
      TrekJoin(Onward(t, ps[0]), ps[1..], qs);
      assert (ps + qs)[1..] == ps[1..] + qs;
    }
  }

  /** After attempts that are all retried, the loop is at the last one, with what they left. */
  lemma {:induction false} ReceiveSkips(t: Trail, max: pos, ps: seq<Script>, p: Script, calls: nat, last: Option<Err>)
    requires AllLost(t, ps) && calls + |ps| < max
    ensures var r := RunReceive(t.c, t.dev, max, ps + [p], true, calls, last, t.meta);
            var run, t2 := ReceiveRun(Trek(t, ps), p), Onward(Trek(t, ps), p);
            && r.calls == calls + |ps| + 1 && r.dev == t2.dev && r.written == t2.c.resume && t.log + r.log == t2.log
            && (!Again(run.res) ==> r.res == run.res)
    decreases |ps|
  {
    hide RunReceiver;
    var all := ps + [p];
    if ps != [] {
      var run := ReceiveRun(t, ps[0]);
      assert all[1..] == ps[1..] + [p];
      ReceiveSkips(Onward(t, ps[0]), max, ps[1..], p, calls + 1, Some(run.res.error));
      LogsJoin(t.log, run.end.log, RunReceive(NextCfg(t.c, run.end), run.end.dev, max, all[1..], true, calls + 1,
                                              Some(run.res.error), NextMeta(t.meta, run.end)).log);
    }
  }

  lemma LogsJoin(a: seq<int>, b: seq<int>, d: seq<int>)
    ensures a + (b + d) == a + b + d
  {
  }

  lemma NobodyHeard(t: Trail, limit: int)
    ensures Onward(t, Nobody(limit)) == t && Again(ReceiveRun(t, Nobody(limit)).res)
  {
  }

  lemma {:induction false} NobodiesHeard(t: Trail, n: nat, limit: int)
    ensures Trek(t, Nobodies(n, limit)) == t && AllLost(t, Nobodies(n, limit))
    decreases n
  {
    hide RunReceiver;
    if n > 0 {
      NobodyHeard(t, limit);
      NobodiesHeard(t, n - 1, limit);
      assert Nobodies(n, limit)[1..] == Nobodies(n - 1, limit);
    }
  }

  function ReceiverScript(c: Pair, l: Link, es: seq<Event>, limit: int): Script {
    Only(Along(c, Start(c), es, ReceiverTakes), |Along(c, Start(c), es, ReceiverSends)|,
         if l.rLost.Some? then l.rLost.value else Closed, limit)
  }

  /** The receiver of the current attempt stands on `t`. */
  ghost predicate OnTrail(w: World, t: Trail) { t.c == w.c.recv && t.dev == w.c.dev && t.log == w.rLog }

  lemma ReceiverScriptRuns(m: Limits, w: World, x: Now, t: Trail)
    requires NowInv(m, w, x) && t.c == w.c.recv && t.dev == w.c.dev
    ensures var run := ReceiveRun(t, ReceiverScript(w.c, w.link, x.es, x.limit));
            && run.end == Settled(w.link.r)
            && (ReceiverResult(w.link).Some? ==> run.res == ReceiverResult(w.link).value)
  {
    hide Leads, Along, RunReceiver, AttemptInv, Settled;
    AttemptStart(w.c);
    var p := ReceiverScript(w.c, w.link, x.es, x.limit);
    ReceiverProjects(w.c, Start(w.c), x.es, w.link, p.loss, x.limit);
  }

  function ReceiverScripts(w: World, pre: seq<Script>, x: Now): seq<Script> {
    pre + [ReceiverScript(w.c, w.link, x.es, x.limit)] + Nobodies(x.alone, x.limit)
  }

  function FirstTrail(c: Pair): Trail { Trail(c.recv, c.dev, None, []) }

  ghost predicate ReceiverPast(m: Limits, t0: Trail, w: World, pre: seq<Script>, x: Now) {
    && NowInv(m, w, x)
    && AllLost(t0, pre)
    && OnTrail(w, Trek(t0, pre))
    && w.rTries == |pre| + 1 + x.alone <= m.recv
    && (x.alone > 0 ==> Retries(ReceiverResult(w.link)))
  }

  /** All of them failed, if the current attempt did; and they left what the current attempt left. */
  lemma ReceiverAllLost(m: Limits, t0: Trail, w: World, pre: seq<Script>, x: Now)
    requires ReceiverPast(m, t0, w, pre, x) && Retries(ReceiverResult(w.link))
    ensures var ps := ReceiverScripts(w, pre, x);
            && AllLost(t0, ps) && Trek(t0, ps).c == NextCfg(w.c.recv, w.link.r) && Trek(t0, ps).dev == w.link.r.dev
            && Trek(t0, ps).log == w.rLog + w.link.r.log
  {
    hide RunReceiver, Leads, ReceiverScript, Nobodies;
    var t, cur := Trek(t0, pre), ReceiverScript(w.c, w.link, x.es, x.limit);
    ReceiverScriptRuns(m, w, x, t);
    var t1 := Onward(t, cur);
    assert [cur][1..] == [];
    assert Trek(t, [cur]) == t1;
    assert Again(ReceiveRun(t, cur).res);
    assert AllLost(t1, []);
    assert AllLost(t, [cur]);
    TrekJoin(t0, pre, [cur]);
    NobodiesHeard(t1, x.alone, x.limit);
    TrekJoin(t0, pre + [cur], Nobodies(x.alone, x.limit));
  }

  // ---------- runs ----------

  /** A result, once there, stays. */
  lemma ResultsStay(c: Pair, l: Link, e: Event)
    requires Enabled(c, l, e)
    ensures SenderResult(l).Some? ==> SenderResult(Apply(c, l, e)) == SenderResult(l)
    ensures ReceiverResult(l).Some? ==> ReceiverResult(Apply(c, l, e)) == ReceiverResult(l)
  {
  }

  lemma NowMore(m: Limits, w: World, x: Now, e: Event)
    requires NowInv(m, w, x) && Enabled(w.c, w.link, e)
    ensures NowInv(m, w.(link := Apply(w.c, w.link, e)), x.(es := x.es + [e]))
  {
    LeadsMore(w.c, Start(w.c), x.es, w.link, e);
  }

  lemma NowAnew(m: Limits, c0: Pair, w: World, limit: int)
    requires Offered(c0) && WorldInv(m, c0, w) && CanStep(m, w, Redial(limit))
    ensures NowInv(m, Take(m, w, Redial(limit)), Now([], 0, limit))
  {
    hide AttemptInv, Offered, SameTransfer;
    WorldStep(m, c0, w, Redial(limit));
  }

  lemma SenderStep(m: Limits, c0: Pair, j: Job, w: World, pre: seq<Script>, x: Now, t: Step)
      returns (pre2: seq<Script>, x2: Now)
    requires Offered(c0) && WorldInv(m, c0, w) && SenderPast(m, j, w, pre, x) && CanStep(m, w, t)
    ensures SenderPast(m, j, Take(m, w, t), pre2, x2)
  {
    hide WorldInv, AllFail, Reports, Leads, Enabled, Apply, Offered;
    match t
    case During(e) =>
      NowMore(m, w, x, e);
      ResultsStay(w.c, w.link, e);
      pre2, x2 := pre, x.(es := x.es + [e]);
    case Redial(limit) =>
      NowAnew(m, c0, w, limit);
      SenderAllFail(m, j, w, pre, x);
      pre2, x2 := SenderScripts(w, pre, x), Now([], 0, limit);
    case SenderAlone => pre2, x2 := pre, x.(alone := x.alone + 1);
    case ReceiverAlone => pre2, x2 := pre, x;
  }

  lemma ReceiverStep(m: Limits, c0: Pair, t0: Trail, w: World, pre: seq<Script>, x: Now, t: Step)
      returns (pre2: seq<Script>, x2: Now)
    requires Offered(c0) && WorldInv(m, c0, w) && ReceiverPast(m, t0, w, pre, x) && CanStep(m, w, t)
    ensures ReceiverPast(m, t0, Take(m, w, t), pre2, x2)
  {
    hide WorldInv, AllLost, Trek, Leads, Enabled, Apply, Offered, NextCfg;
    match t
    case During(e) =>
      NowMore(m, w, x, e);
      ResultsStay(w.c, w.link, e);
      pre2, x2 := pre, x.(es := x.es + [e]);
    case Redial(limit) =>
      NowAnew(m, c0, w, limit);
      ReceiverAllLost(m, t0, w, pre, x);
      pre2, x2 := ReceiverScripts(w, pre, x), Now([], 0, limit);
    case ReceiverAlone => pre2, x2 := pre, x.(alone := x.alone + 1);
    case SenderAlone => pre2, x2 := pre, x;
  }

  lemma {:induction false} SenderRun(m: Limits, c0: Pair, j: Job, w: World, pre: seq<Script>, x: Now,
                                     ts: seq<Step>, w2: World)
      returns (pre2: seq<Script>, x2: Now)
    requires Offered(c0) && WorldInv(m, c0, w) && SenderPast(m, j, w, pre, x) && Goes(m, w, ts, w2)
    ensures SenderPast(m, j, w2, pre2, x2)
    decreases |ts|
  {
    hide WorldInv, SenderPast, CanStep, Take;
    pre2, x2 := pre, x;
    if ts != [] {
      WorldStep(m, c0, w, ts[0]);
      pre2, x2 := SenderStep(m, c0, j, w, pre, x, ts[0]);
      pre2, x2 := SenderRun(m, c0, j, Take(m, w, ts[0]), pre2, x2, ts[1..], w2);
    }
  }

  lemma {:induction false} ReceiverRun(m: Limits, c0: Pair, t0: Trail, w: World, pre: seq<Script>, x: Now,
                                       ts: seq<Step>, w2: World)
      returns (pre2: seq<Script>, x2: Now)
    requires Offered(c0) && WorldInv(m, c0, w) && ReceiverPast(m, t0, w, pre, x) && Goes(m, w, ts, w2)
    ensures ReceiverPast(m, t0, w2, pre2, x2)
    decreases |ts|
  {
    hide WorldInv, ReceiverPast, CanStep, Take;
    pre2, x2 := pre, x;
    if ts != [] {
      WorldStep(m, c0, w, ts[0]);
      pre2, x2 := ReceiverStep(m, c0, t0, w, pre, x, ts[0]);
      pre2, x2 := ReceiverRun(m, c0, t0, Take(m, w, ts[0]), pre2, x2, ts[1..], w2);
    }
  }

  lemma BeginReached(m: Limits, c: Pair)
    requires Offered(c)
    ensures WorldInv(m, c, Begin(c))
  {
    Reached(m, c, [], Begin(c));
  }

  lemma BeginPast(m: Limits, c: Pair, limit: int)
    requires Offered(c) && c.send.chunk == EffectiveChunkSize(limit, m.want)
    ensures SenderPast(m, JobOf(c, m.want), Begin(c), [], Now([], 0, limit))
    ensures ReceiverPast(m, FirstTrail(c), Begin(c), [], Now([], 0, limit))
  {
  }

  // ---------- each side is its loop ----------

  /** The sender's side of any run: there are connections, one for each attempt made, on which the loop of
      send makes exactly those attempts and those reports; and if the sender is done with the
      transfer, the loop returns what it returned. */
  lemma SendLoopOfRun(m: Limits, c: Pair, limit: int, ts: seq<Step>, w: World) returns (ps: seq<Script>)
    requires Offered(c) && c.send.chunk == EffectiveChunkSize(limit, m.want) && Goes(m, Begin(c), ts, w)
    ensures |ps| == w.sTries > 0
    ensures var loop := RunSend(JobOf(c, m.want), m.send, ps, true, 0, None);
            && loop.calls == w.sTries && loop.log == w.sLog + w.link.s.log
            && (SenderResult(w.link).Some? && !Retries(SenderResult(w.link)) ==> loop.res == SenderResult(w.link).value)
  {
    hide Goes, WorldInv, AllFail, Leads, RunSend, SenderScript;
    var j := JobOf(c, m.want);
    BeginReached(m, c);
    BeginPast(m, c, limit);
    var pre, x := SenderRun(m, c, j, Begin(c), [], Now([], 0, limit), ts, w);
    var cur := SenderScript(w.c, w.link, x.es, x.limit);
    ps := SenderScripts(w, pre, x);
    SenderScriptRuns(m, w, x);
    if x.alone == 0 {
      assert ps == pre + [cur];
      SendSkips(j, m.send, pre, cur, 0, None);
    } else {
      var y := x.(alone := x.alone - 1);
      SenderAllFail(m, j, w.(sTries := w.sTries - 1), pre, y);
      NobodySent(j, x.limit);
      var qs := SenderScripts(w, pre, y);
      NobodiesLast(pre + [cur], x.alone, x.limit);
      assert ps == qs + [Nobody(x.limit)];
      SendSkips(j, m.send, qs, Nobody(x.limit), 0, None);
    }
  }

  /** The receiver's side of any run: there are connections, one for each attempt made, on which the loop of
      receive makes exactly those attempts and reports and leaves the same destination and stored
      length; and if the receiver is done with the transfer, the loop returns what it returned. */
  lemma ReceiveLoopOfRun(m: Limits, c: Pair, limit: int, ts: seq<Step>, w: World) returns (ps: seq<Script>)
    requires Offered(c) && c.send.chunk == EffectiveChunkSize(limit, m.want) && Goes(m, Begin(c), ts, w)
    ensures |ps| == w.rTries > 0
    ensures var loop := RunReceive(c.recv, c.dev, m.recv, ps, true, 0, None, None);
            && loop.calls == w.rTries && loop.log == w.rLog + w.link.r.log
            && loop.dev == w.link.r.dev && loop.written == w.link.r.written
            && (ReceiverResult(w.link).Some? && !Retries(ReceiverResult(w.link)) ==>
                  loop.res == ReceiverResult(w.link).value)
  {
    hide Goes, AllLost, Leads, RunReceive, ReceiverScript, Holds, Reported, AttemptInv;
    var t0 := FirstTrail(c);
    BeginReached(m, c);
    BeginPast(m, c, limit);
    var pre, x := ReceiverRun(m, c, t0, Begin(c), [], Now([], 0, limit), ts, w);
    Reached(m, c, ts, w);
    AttemptLeaves(w.c, w.link);
    var cur := ReceiverScript(w.c, w.link, x.es, x.limit);
    ps := ReceiverScripts(w, pre, x);
    ReceiverScriptRuns(m, w, x, Trek(t0, pre));
    if x.alone == 0 {
      assert ps == pre + [cur];
      ReceiveSkips(t0, m.recv, pre, cur, 0, None);
    } else {
      var y := x.(alone := x.alone - 1);
      ReceiverAllLost(m, t0, w.(rTries := w.rTries - 1), pre, y);
      var qs := ReceiverScripts(w, pre, y);
      NobodyHeard(Trek(t0, qs), x.limit);
      NobodiesLast(pre + [cur], x.alone, x.limit);
      assert ps == qs + [Nobody(x.limit)];
      ReceiveSkips(t0, m.recv, qs, Nobody(x.limit), 0, None);
    }
  }
}
