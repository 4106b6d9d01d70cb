/** What redialling makes of an attempt that cannot go on: a transfer that deadlocks in every attempt
    still gets `window` chunks further each time, while one into a write-only destination stalls
    (src/transfer/transfer.cpp:502-518, 823-846, 872-909). */
module Rounds {
  import opened Errors
  import opened Grid
  import opened Endpoints
  import opened Attempt
  import opened Link
  import opened LinkRuns
  import opened Blocked
  import opened Resume

  // ---------- runs of whole transfers, put together ----------

  lemma {:induction false} GoesJoin(m: Limits, w: World, ts: seq<Step>, w1: World, us: seq<Step>, w2: World)
    requires Goes(m, w, ts, w1) && Goes(m, w1, us, w2)
    ensures Goes(m, w, ts + us, w2)
    decreases |ts|
  {
    hide CanStep, Take;
    if ts == [] {
      assert ts + us == us;
    } else {
      GoesJoin(m, Take(m, w, ts[0]), ts[1..], w1, us, w2);
      assert (ts + us)[1..] == ts[1..] + us;
    }
  }

  lemma GoesStep(m: Limits, w: World, ts: seq<Step>, w1: World, t: Step)
    requires Goes(m, w, ts, w1) && CanStep(m, w1, t)
    ensures Goes(m, w, ts + [t], Take(m, w1, t))
  {
    assert [t][1..] == [];
    GoesJoin(m, w, ts, w1, [t], Take(m, w1, t));
  }

  /** A run of the current attempt is a run of the transfer. */
  lemma {:induction false} DuringGoes(m: Limits, w: World, es: seq<Event>, l: Link) returns (ts: seq<Step>)
    requires Leads(w.c, w.link, es, l)
    ensures Goes(m, w, ts, w.(link := l))
    decreases |es|
  {
    hide Enabled, Apply;
    if es == [] {
      return [];
    }
    var w1 := w.(link := Apply(w.c, w.link, es[0]));
    var us := DuringGoes(m, w1, es[1..], l);
    ts := [During(es[0])] + us;
    assert ts[1..] == us;
  }

  // ---------- one deadlocked attempt ----------

  ghost predicate Maximal(c: Pair, es: seq<Event>, l: Link) {
    Leads(c, Start(c), es, l) && LossFree(es) && Stuck(c, l)
  }

  /** An attempt runs until neither end can move, both ends lose the connection, and they redial. */
  datatype Round = Round(from: World, es: seq<Event>, stuck: Link, e1: ConnErr, e2: ConnErr, limit: int)

  function Lost(r: Round): Link { r.stuck.(sLost := Some(r.e1), rLost := Some(r.e2)) }

  ghost predicate DeadRound(m: Limits, w: World, r: Round, w2: World) {
    && r.from == w && w.link == Start(w.c) && Maximal(w.c, r.es, r.stuck)
    && Enabled(w.c, r.stuck, SenderLoses(r.e1)) && Enabled(w.c, r.stuck, ReceiverLoses(r.e2))
    && EffectiveChunkSize(r.limit, m.want) == w.c.send.chunk
    && CanStep(m, w.(link := Lost(r)), Redial(r.limit))
    && w2 == Take(m, w.(link := Lost(r)), Redial(r.limit))
  }

  lemma DeadRoundGoes(m: Limits, w: World, r: Round, w2: World) returns (ts: seq<Step>)
    requires DeadRound(m, w, r, w2)
    ensures Goes(m, w, ts, w2)
  {
    hide Goes, Leads, Stuck, LossFree;
    ts := DuringGoes(m, w, r.es, r.stuck);
    var l1 := r.stuck.(sLost := Some(r.e1));
    GoesStep(m, w, ts, w.(link := r.stuck), During(SenderLoses(r.e1)));
    ts := ts + [During(SenderLoses(r.e1))];
    GoesStep(m, w, ts, w.(link := l1), During(ReceiverLoses(r.e2)));
    ts := ts + [During(ReceiverLoses(r.e2))];
    GoesStep(m, w, ts, w.(link := Lost(r)), Redial(r.limit));
    ts := ts + [Redial(r.limit)];
  }

  /** A deadlocked attempt leaves the next one exactly `window` chunks fewer to send. */
  lemma StarvedNext(c: Pair, es: seq<Event>, l: Link)
    requires Agreed(c) && Starved(c) && c.dev.readable && Maximal(c, es, l)
    ensures SenderResult(l) == None && ReceiverResult(l) == None
    ensures var c2 := NextPair(c, l.r, c.send.chunk);
            Agreed(c2) && c2.dev.readable && c2.dev == l.r.dev && c2.recv.resume == l.r.written
            && N(c2) == N(c) - c.send.window
  {
    hide Pieces, Off, AckIdx, Due, CeilDiv, Leads, Stuck, LossFree, Inv, Holds;
    InvStart(c);
    EveryEventCounts(c, Start(c), es, l);
    MaximalRun(c, es, l);
    AttemptLeaves(c, l);
    StoredFits(c, l);
    NextOffered(c, c, l, c.send.chunk);
    NextPieces(c);
  }

  lemma StoredFits(c: Pair, l: Link)
    requires Agreed(c) && c.dev.readable && Leaves(c, l)
    ensures Holds(c.dev.data, c.dev.data, c.send.src, c.recv.resume, c.recv.resume)
    ensures l.r.written <= |l.r.dev.data|
  {
  }

  lemma NextPieces(c: Pair)
    requires Agreed(c) && c.send.window <= N(c)
    ensures Pieces(At(c, c.send.window), Size(c), c.send.chunk) == N(c) - c.send.window
  {
    FramesBetween(c.recv.resume, Size(c), c.send.chunk, c.send.window, N(c));
    OffBelow(c.recv.resume, Size(c), c.send.chunk, N(c));
  }

  // ---------- chains of deadlocked attempts ----------

  /** `rs` are deadlocked attempts, one after the other, from `w` to `w2`. */
  ghost predicate Chain(m: Limits, w: World, rs: seq<Round>, w2: World) {
    if rs == [] then w == w2
    else var r := rs[|rs| - 1]; Chain(m, w, rs[..|rs| - 1], r.from) && DeadRound(m, r.from, r, w2)
  }

  lemma {:induction false} ChainGoes(m: Limits, w: World, rs: seq<Round>, w2: World) returns (ts: seq<Step>)
    requires Chain(m, w, rs, w2)
    ensures Goes(m, w, ts, w2)
  {
    hide DeadRound;
    if rs == [] {
      return [];
    }
    var w1 := rs[|rs| - 1].from;
    var us;
    ts := ChainGoes(m, w, rs[..|rs| - 1], w1);
    us := DeadRoundGoes(m, w1, rs[|rs| - 1], w2);
    GoesJoin(m, w, ts, w1, us, w2);
    ts := ts + us;
  }

  /** A readable destination with a good prefix, and the hash of what is offered. */
  predicate Sound(c: Pair) {
    && Agreed(c) && c.dev.readable
    && c.recv.resume <= |c.dev.data| && c.dev.data[..c.recv.resume] == c.send.src[..c.recv.resume]
    && c.send.meta.hash == c.recv.sha(c.send.src[..Size(c)])
  }

  /** `c2` is `c` with other bytes stored. */
  ghost predicate SameEnds(c: Pair, c2: Pair) {
    c2.send == c.send && c2.recv.ackEvery == c.recv.ackEvery
  }

  ghost predicate ChainInv(c: Pair, n: nat, w: World)
    requires Sound(c)
  {
    && Sound(w.c) && SameEnds(c, w.c) && w.link == Start(w.c)
    && N(w.c) == N(c) - n * c.send.window > 0
    && w.sTries == w.rTries == n + 1
  }

  lemma SoundNext(c: Pair, es: seq<Event>, l: Link)
    requires Sound(c) && Starved(c) && Maximal(c, es, l)
    ensures var c2 := NextPair(c, l.r, c.send.chunk); Sound(c2) && SameEnds(c, c2) && N(c2) == N(c) - c.send.window
  {
    hide CeilDiv, Pieces, Leads, Stuck, LossFree, Holds, Starved, N;
    StarvedNext(c, es, l);
    AttemptStart(c);
    AttemptRun(c, Start(c), es, l);
    AttemptLeaves(c, l);
    HoldsAll(l.r.dev.data, c.dev.data, c.send.src, c.recv.resume, l.r.written);
  }

  /** An attempt that both ends lose while it is stuck was starved. */
  lemma DeadIsStarved(m: Limits, w: World, r: Round, w2: World)
    requires Agreed(w.c) && DeadRound(m, w, r, w2)
    ensures Starved(w.c)
  {
    hide CeilDiv, Pieces, Leads, Stuck, LossFree;
    if !Starved(w.c) { MaximalRun(w.c, r.es, r.stuck); }
  }

  lemma ChainStep(m: Limits, c: Pair, n: nat, w: World, r: Round, w2: World)
    requires Sound(c) && ChainInv(c, n, w) && DeadRound(m, w, r, w2)
    ensures ChainInv(c, n + 1, w2)
  {
    hide Leads, Stuck, LossFree, N;
    DeadIsStarved(m, w, r, w2);
    SoundNext(w.c, r.es, r.stuck);
    assert NextPair(w.c, Lost(r).r, w.c.send.chunk) == NextPair(w.c, r.stuck.r, w.c.send.chunk);
    assert (n + 1) * c.send.window == n * c.send.window + c.send.window;
    assert N(w.c) > w.c.send.window;
  }

  lemma {:induction false} ChainKeeps(m: Limits, c: Pair, rs: seq<Round>, w: World)
    requires Sound(c) && N(c) > 0 && Chain(m, Begin(c), rs, w)
    ensures ChainInv(c, |rs|, w)
  {
    hide DeadRound, N, Sound;
    if rs == [] {
      BeginChain(c);
    } else {
      var w1 := rs[|rs| - 1].from;
      ChainKeeps(m, c, rs[..|rs| - 1], w1);
      ChainStep(m, c, |rs| - 1, w1, rs[|rs| - 1], w);
    }
  }

  lemma BeginChain(c: Pair)
    requires Sound(c) && N(c) > 0
    ensures ChainInv(c, 0, Begin(c))
  {
  }

  /** ceil(N / window): the attempts a starving transfer takes. */
  function Needed(c: Pair): nat
    requires Agreed(c)
  {
    CeilDiv(N(c), c.send.window)
  }

  lemma NeededBounds(total: nat, window: pos, n: nat)
    requires total - n * window > 0
    ensures n + 1 <= CeilDiv(total, window)
    ensures total - n * window > window <==> n + 1 < CeilDiv(total, window)
  {
    var k := CeilDiv(total, window);
    CeilDivBounds(total, window);
    assert (n + 1) * window == n * window + window;
    if k <= n { MulMono(k, n, window); }
    if k <= n + 1 { MulMono(k, n + 1, window); } else { MulMono(n + 2, k, window); }
    assert (n + 2) * window == n * window + window + window;
  }

  /** A transfer whose ack_every exceeds its window, retried every time it deadlocks: attempt number k ends,
      if it loses nothing, in success on both sides with an exact copy when k is ceil(N / window), in
      the next deadlock when k is smaller, and there is no later attempt. */
  lemma StarvingTransferFinishes(m: Limits, c: Pair, rs: seq<Round>, w: World, es: seq<Event>, l: Link)
    requires Sound(c) && N(c) > 0 && c.recv.ackEvery > c.send.window
    requires Chain(m, Begin(c), rs, w) && Maximal(w.c, es, l)
    ensures var k := |rs| + 1;
            && w.sTries == w.rTries == k <= Needed(c)
            && (k < Needed(c) ==> SenderResult(l) == None && ReceiverResult(l) == None)
            && (k == Needed(c) ==>
                  && SenderResult(l) == Some(Success) && ReceiverResult(l) == Some(Success)
                  && Size(c) <= |l.r.dev.data| && l.r.dev.data[..Size(c)] == c.send.src[..Size(c)])
  {
    hide Chain, Leads, Stuck, LossFree, CeilDiv, N, Opens;
    ChainKeeps(m, c, rs, w);
    NeededBounds(N(c), c.send.window, |rs|);
    if |rs| + 1 < Needed(c) {
      StarvedNext(w.c, es, l);
    } else {
      CleanAttempt(w.c, es, l);
    }
  }

  /** Such chains exist, for every number of attempts up to ceil(N / window) that both limits allow. */
  lemma {:induction false} SomeChain(m: Limits, c: Pair, n: nat, limit: int) returns (rs: seq<Round>, w: World)
    requires Sound(c) && N(c) > 0 && c.recv.ackEvery > c.send.window && n < Needed(c)
    requires EffectiveChunkSize(limit, m.want) == c.send.chunk && n < m.send && n < m.recv
    ensures |rs| == n && Chain(m, Begin(c), rs, w)
  {
    hide Leads, Stuck, LossFree, CeilDiv, N, DeadRound;
    if n == 0 {
      return [], Begin(c);
    }
    var qs, w1 := SomeChain(m, c, n - 1, limit);
    ChainKeeps(m, c, qs, w1);
    NeededBounds(N(c), c.send.window, n - 1);
    var r;
    r, w := SomeRound(m, w1, limit);
    rs := qs + [r];
    assert rs[..|rs| - 1] == qs;
  }

  lemma SomeRound(m: Limits, w: World, limit: int) returns (r: Round, w2: World)
    requires Agreed(w.c) && Starved(w.c) && w.link == Start(w.c)
    requires EffectiveChunkSize(limit, m.want) == w.c.send.chunk && w.sTries < m.send && w.rTries < m.recv
    ensures r.from == w && DeadRound(m, w, r, w2)
  {
    hide CeilDiv, Pieces, Inv, Leads, Stuck, LossFree;
    InvStart(w.c);
    var es, l := RunToTheEnd(w.c, Start(w.c));
    MaximalRun(w.c, es, l);
    EveryEventCounts(w.c, Start(w.c), es, l);
    r := Round(w, es, l, Closed, Closed, limit);
    StarvedWaits(w.c, es, l);
    w2 := Take(m, w.(link := Lost(r)), Redial(limit));
  }

  lemma StarvedWaits(c: Pair, es: seq<Event>, l: Link)
    requires Agreed(c) && Starved(c) && Inv(c, l) && Whole(l) && Stuck(c, l)
    requires l.s.pc.Sending? && l.r.pc.Receiving?
    ensures Enabled(c, l, SenderLoses(Closed)) && Enabled(c, l, ReceiverLoses(Closed))
  {
    hide CeilDiv, Pieces, Off, AckIdx, Due;
    SenderActs(c, l.p, l.q);
  }

  /** So with enough attempts a transfer that deadlocks every time is completed by redialling. */
  lemma RedialsFinish(m: Limits, c: Pair, limit: int) returns (ts: seq<Step>, w: World)
    requires Sound(c) && N(c) > 0 && c.recv.ackEvery > c.send.window
    requires EffectiveChunkSize(limit, m.want) == c.send.chunk && Needed(c) <= m.send && Needed(c) <= m.recv
    ensures Goes(m, Begin(c), ts, w) && w.sTries == w.rTries == Needed(c)
    ensures SenderResult(w.link) == Some(Success) && ReceiverResult(w.link) == Some(Success)
  {
    hide Leads, Stuck, LossFree, CeilDiv, N, Chain, Goes, Inv;
    NeededBounds(N(c), c.send.window, 0);
    var rs, w1 := SomeChain(m, c, Needed(c) - 1, limit);
    ChainKeeps(m, c, rs, w1);
    InvStart(w1.c);
    var es, l := RunToTheEnd(w1.c, Start(w1.c));
    StarvingTransferFinishes(m, c, rs, w1, es, l);
    ts := ChainGoes(m, Begin(c), rs, w1);
    var us := DuringGoes(m, w1, es, l);
    w := w1.(link := l);
    GoesJoin(m, Begin(c), ts, w1, us, w);
    ts := ts + us;
  }

  // ---------- into a write-only destination ----------

  lemma StepsTo(c: Pair, es: seq<Event>, l: Link, e: Event) returns (es2: seq<Event>, l2: Link)
    requires Agreed(c) && Leads(c, Start(c), es, l) && Inv(c, l) && Enabled(c, l, e)
    ensures Leads(c, Start(c), es2, l2) && Inv(c, l2) && l2 == Apply(c, l, e)
  {
    hide Inv, Enabled, Apply;
    es2, l2 := es + [e], Apply(c, l, e);
    InvStep(c, l, e);
    LeadsMore(c, Start(c), es, l, e);
  }

  lemma SenderCanSend(c: Pair, l: Link)
    requires Agreed(c) && Inv(c, l) && l.sLost == None && l.q < J(c) + 2 && MaySend(c, l.p, l.q)
    ensures Enabled(c, l, SenderSends)
  {
    SenderActs(c, l.p, l.q);
  }

  lemma SenderCanTake(c: Pair, l: Link)
    requires Agreed(c) && Inv(c, l) && l.sLost == None && l.q < J(c) + 2 && !MaySend(c, l.p, l.q) && l.q < l.v
    ensures Enabled(c, l, SenderTakes)
  {
    SenderActs(c, l.p, l.q);
  }

  lemma ReceiverCanSend(c: Pair, l: Link)
    requires Agreed(c) && Inv(c, l) && l.rLost == None && l.v < Replies(c, l.u)
    ensures Enabled(c, l, ReceiverSends)
  {
    ReceiverActs(c, l.u, l.v);
  }

  lemma ReceiverCanTake(c: Pair, l: Link)
    requires Agreed(c) && Inv(c, l) && l.rLost == None && l.v == Replies(c, l.u) && l.u < l.p
    ensures Enabled(c, l, ReceiverTakes)
  {
    ReceiverActs(c, l.u, l.v);
  }

  lemma StandStill(c: Pair)
    ensures Leads(c, Start(c), [], Start(c))
  {
  }

  /** Every attempt with at least one chunk can get past its greeting, ... */
  lemma Greeted(c: Pair) returns (es: seq<Event>, l: Link)
    requires Agreed(c)
    ensures Leads(c, Start(c), es, l) && Inv(c, l) && Whole(l) && l.p == l.q == l.u == l.v == 1
  {
    hide CeilDiv, Pieces, Off, AckIdx, Due, Leads, Inv;
    InvStart(c);
    DueZero(N(c), c.recv.ackEvery);
    es, l := [], Start(c);
    StandStill(c);
    SenderCanSend(c, l);
    es, l := StepsTo(c, es, l, SenderSends);
    ReceiverCanTake(c, l);
    es, l := StepsTo(c, es, l, ReceiverTakes);
    ReceiverCanSend(c, l);
    es, l := StepsTo(c, es, l, ReceiverSends);
    SenderCanTake(c, l);
    es, l := StepsTo(c, es, l, SenderTakes);
  }

  /** ... and from there to the moment when exactly one chunk is stored. */
  lemma OneChunkStored(c: Pair) returns (es: seq<Event>, l: Link)
    requires Agreed(c) && N(c) >= 1
    ensures Leads(c, Start(c), es, l) && Inv(c, l) && Whole(l) && l.p == l.u == 2 && l.q == l.v == 1
  {
    hide CeilDiv, Pieces, Off, AckIdx, Due, Leads, Inv;
    es, l := Greeted(c);
    DueZero(N(c), c.recv.ackEvery);
    DueEnd(N(c), c.recv.ackEvery, 0);
    SenderCanSend(c, l);
    es, l := StepsTo(c, es, l, SenderSends);
    ReceiverCanTake(c, l);
    es, l := StepsTo(c, es, l, ReceiverTakes);
  }

  lemma CanLose(c: Pair, l: Link)
    requires Agreed(c) && Inv(c, l) && Whole(l) && l.q < J(c) + 2 && l.u < N(c) + 2
    ensures Enabled(c, l, SenderLoses(Closed)) && Enabled(c, l, ReceiverLoses(Closed))
  {
    hide CeilDiv, Pieces, Off, AckIdx, Due;
    SenderActs(c, l.p, l.q);
    ReceiverActs(c, l.u, l.v);
  }

  /** Some run stalls: from an empty write-only destination and at least two chunks, one chunk, a loss on
      both ends and a redial lead to an attempt that starts in the middle, from which nothing leads on. */
  lemma SomeRunStalls(m: Limits, c: Pair, limit: int) returns (ts: seq<Step>, w: World)
    requires Offered(c) && !c.dev.readable && c.recv.resume == 0
    requires Pieces(0, Size(c), c.send.chunk) >= 2 && m.send >= 2 && m.recv >= 2
    ensures Goes(m, Begin(c), ts, w) && w.link == Start(w.c) && 0 < w.c.recv.resume < Size(c)
  {
    OpensAtZero(c);
    hide CeilDiv, Pieces, Off, AckIdx, Due, Leads, Goes, Inv;
    var es, l := OneChunkStored(c);
    CanLose(c, l);
    var lost := l.(sLost := Some(Closed), rLost := Some(Closed));
    ts := DuringGoes(m, Begin(c), es, l);
    GoesStep(m, Begin(c), ts, Begin(c).(link := l), During(SenderLoses(Closed)));
    ts := ts + [During(SenderLoses(Closed))];
    GoesStep(m, Begin(c), ts, Begin(c).(link := l.(sLost := Some(Closed))), During(ReceiverLoses(Closed)));
    ts := ts + [During(ReceiverLoses(Closed))];
    GoesStep(m, Begin(c), ts, Begin(c).(link := lost), Redial(limit));
    ts := ts + [Redial(limit)];
    w := Take(m, Begin(c).(link := lost), Redial(limit));
    InTheMiddle(c, l);
  }

  lemma OpensAtZero(c: Pair)
    requires Offered(c) && !c.dev.readable && c.recv.resume == 0 && Pieces(0, Size(c), c.send.chunk) >= 2
    ensures Agreed(c) && N(c) >= 2
  {
    if Size(c) == 0 { CeilDivUnique(0, c.send.chunk, 0); }
  }

  lemma InTheMiddle(c: Pair, l: Link)
    requires Agreed(c) && Inv(c, l) && l.u == 2 && N(c) >= 2
    ensures c.recv.resume < l.r.written < Size(c)
  {
    hide CeilDiv, Pieces, Off, AckIdx, Due;
    OffMono(c.recv.resume, Size(c), c.send.chunk, 0, 1);
    OffMono(c.recv.resume, Size(c), c.send.chunk, 1, 2);
    AtZero(c);
  }
}
