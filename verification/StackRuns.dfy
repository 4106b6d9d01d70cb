/** Whole transfers over the whole stack: attempts over fresh pairs of connections, each with its own
    key, queues and message limit, until both ends have returned (src/transfer/transfer.cpp:809-910,
    src/conn.cpp:59-402). */
module StackRuns {
  import opened Errors
  import opened Frames
  import opened Endpoints
  import opened Attempt
  import opened Link
  import opened Blocked
  import opened Resume
  import opened Shapes
  import opened Stack
  import Session
  import D = Duplex
  import Proofs = DuplexProofs

  datatype Site = Site(c: Pair, v: D.Env, k: Stack, sTries: nat, rTries: nat, sLog: seq<int>, rLog: seq<int>)

  /** Both ends redial and get the two ends of a new connection, or one end redials in vain. */
  datatype Turn = Moves(m: Move) | Anew(v: D.Env) | SenderInVain | ReceiverInVain

  function SiteBegin(c: Pair, v: D.Env): Site { Site(c, v, Fresh(c), 1, 1, [], []) }

  /** The ends of a stack, without what is on its way. */
  function Ends(k: Stack): Link { Link(k.s, k.r, [], [], k.sLost, k.rLost, 0, 0, 0, 0) }

  ghost predicate SiteCan(lim: Limits, x: Site, t: Turn) {
    var s := Retries(SenderResult(Ends(x.k))) && x.sTries < lim.send;
    var r := Retries(ReceiverResult(Ends(x.k))) && x.rTries < lim.recv;
    match t
    case Moves(m) => CanMove(x.v, x.c, x.k, m)
    case Anew(v) => s && r && Session.SealsRight(v.s)
    case SenderInVain => s
    case ReceiverInVain => r
  }

  ghost function SiteNext(lim: Limits, x: Site, t: Turn): Site
    requires SiteCan(lim, x, t)
  {
    match t
    case Moves(m) => x.(k := DoMove(x.v, x.c, x.k, m))
    case Anew(v) =>
      var c := NextPair(x.c, x.k.r, EffectiveChunkSize(v.left.maxMessage, lim.want));
      Site(c, v, Fresh(c), x.sTries + 1, x.rTries + 1, x.sLog + x.k.s.log, x.rLog + x.k.r.log)
    case SenderInVain => x.(sTries := x.sTries + 1)
    case ReceiverInVain => x.(rTries := x.rTries + 1)
  }

  ghost predicate SiteGoes(lim: Limits, x: Site, ts: seq<Turn>, x2: Site)
    decreases |ts|
  {
    if ts == [] then x == x2
    else SiteCan(lim, x, ts[0]) && SiteGoes(lim, SiteNext(lim, x, ts[0]), ts[1..], x2)
  }

  // ---------- the simulation ----------

  function WorldOf(x: Site, l: Link): World { World(x.c, l, x.sTries, x.rTries, x.sLog, x.rLog) }

  ghost predicate SiteInv(lim: Limits, c0: Pair, x: Site, l: Link)
    requires Offered(c0)
  {
    && WorldInv(lim, c0, WorldOf(x, l))
    && Shows(x.k, l) && Session.SealsRight(x.v.s) && Proofs.DuoInv(x.v, x.k.d)
  }

  lemma FreshShows(c: Pair, v: D.Env)
    ensures Shows(Fresh(c), Start(c)) && Proofs.DuoInv(v, Fresh(c).d)
  {
    Proofs.DuoStart(v);
  }

  /** The steps of the plain transfer that one turn of the stack amounts to: one or none. */
  lemma SiteStep(lim: Limits, c0: Pair, x: Site, l: Link, t: Turn) returns (us: seq<Step>, l2: Link)
    requires Offered(c0) && SiteInv(lim, c0, x, l) && SiteCan(lim, x, t)
    ensures |us| <= 1 && Goes(lim, WorldOf(x, l), us, WorldOf(SiteNext(lim, x, t), l2))
    ensures SiteInv(lim, c0, SiteNext(lim, x, t), l2)
  {
    hide WorldInv, Shows, Proofs.DuoInv, Session.SealsRight;
    var w := WorldOf(x, l);
    EndsAgree(x.k, l);
    match t
    case Moves(m) =>
      us, l2 := MoveStep(lim, c0, x, l, m);
      MoveKeepsDuo(x.v, x.c, x.k, m);
      if us != [] { WorldStep(lim, c0, w, us[0]); }
    case Anew(v) =>
      us := [Redial(v.left.maxMessage)];
      WorldStep(lim, c0, w, us[0]);
      l2 := Take(lim, w, us[0]).link;
      FreshShows(SiteNext(lim, x, t).c, v);
    case SenderInVain =>
      us, l2 := [SenderAlone], l;
      WorldStep(lim, c0, w, SenderAlone);
    case ReceiverInVain =>
      us, l2 := [ReceiverAlone], l;
      WorldStep(lim, c0, w, ReceiverAlone);
  }

  lemma EndsAgree(k: Stack, l: Link)
    requires Shows(k, l)
    ensures SenderResult(Ends(k)) == SenderResult(l) && ReceiverResult(Ends(k)) == ReceiverResult(l)
    ensures l.s == k.s && l.r == k.r
  {
  }

  lemma MoveStep(lim: Limits, c0: Pair, x: Site, l: Link, m: Move) returns (us: seq<Step>, l2: Link)
    requires Offered(c0) && SiteInv(lim, c0, x, l) && CanMove(x.v, x.c, x.k, m)
    ensures |us| <= 1 && Goes(lim, WorldOf(x, l), us, WorldOf(x, l2))
    ensures Shows(DoMove(x.v, x.c, x.k, m), l2)
  {
    hide Shows, Proofs.DuoInv, Session.SealsRight, AttemptInv, Enabled, Apply;
    Simulate(x.v, x.c, x.k, l, m);
    if m.Inside? {
      us, l2 := [], l;
    } else {
      us, l2 := [During(EventOf(m))], Apply(x.c, l, EventOf(m));
    }
  }

  lemma GoesOn(lim: Limits, w: World, us: seq<Step>, m: World, rest: seq<Step>, w2: World)
    requires |us| <= 1 && Goes(lim, w, us, m) && Goes(lim, m, rest, w2)
    ensures Goes(lim, w, us + rest, w2)
  {
    if us == [] {
      assert us + rest == rest;
    } else {
      assert us[1..] == [] && (us + rest)[1..] == rest;
    }
  }

  lemma {:induction false} SiteRun(lim: Limits, c0: Pair, x: Site, l: Link, ts: seq<Turn>, x2: Site)
      returns (us: seq<Step>, l2: Link)
    requires Offered(c0) && SiteInv(lim, c0, x, l) && SiteGoes(lim, x, ts, x2)
    ensures Goes(lim, WorldOf(x, l), us, WorldOf(x2, l2)) && SiteInv(lim, c0, x2, l2)
    decreases |ts|
  {
    if ts == [] {
      assert Goes(lim, WorldOf(x, l), [], WorldOf(x, l));
      return [], l;
    }
    hide SiteInv, SiteCan, SiteNext, Goes, WorldOf;
    var first, m := SiteStep(lim, c0, x, l, ts[0]);
    var rest;
    rest, l2 := SiteRun(lim, c0, SiteNext(lim, x, ts[0]), m, ts[1..], x2);
    us := first + rest;
    GoesOn(lim, WorldOf(x, l), first, WorldOf(SiteNext(lim, x, ts[0]), m), rest, WorldOf(x2, l2));
  }

  /** Every run of the stack is a run of the plain transfer: same ends, destination, reports and
      attempts, with the channels holding what the connections have accepted and not yet returned. */
  lemma StackIsTransfer(lim: Limits, c: Pair, v: D.Env, ts: seq<Turn>, x: Site)
      returns (us: seq<Step>, l: Link)
    requires Offered(c) && Session.SealsRight(v.s) && SiteGoes(lim, SiteBegin(c, v), ts, x)
    ensures Goes(lim, Begin(c), us, WorldOf(x, l)) && Shows(x.k, l)
    ensures WorldInv(lim, c, WorldOf(x, l))
  {
    AttemptStart(c);
    FreshShows(c, v);
    us, l := SiteRun(lim, c, SiteBegin(c, v), Start(c), ts, x);
  }

  // ---------- what therefore holds of the stack ----------

  /** Over the whole stack, with every queue, thread, record and key in it: at every moment of every run
      the destination is its original content with source bytes laid over it up to `written`, reports
      never go backwards, and attempts stay within their limits. */
  lemma StackAcrossLosses(lim: Limits, c: Pair, v: D.Env, ts: seq<Turn>, x: Site)
    requires Offered(c) && Session.SealsRight(v.s) && SiteGoes(lim, SiteBegin(c, v), ts, x)
    ensures Holds(x.k.r.dev.data, c.dev.data, c.send.src, c.recv.resume, x.k.r.written)
    ensures Ascends(x.sLog + x.k.s.log) && Ascends(x.rLog + x.k.r.log)
    ensures x.sTries <= lim.send && x.rTries <= lim.recv
  {
    hide SiteGoes, Goes, Holds, Ascends, WorldInv;
    var us, l := StackIsTransfer(lim, c, v, ts, x);
    AcrossLosses(lim, c, us, WorldOf(x, l));
  }

  /** A sender that returned success over the whole stack left an exact copy: the receiver succeeded too,
      the content hashes to the offered value unless none was offered, and with a good original prefix
      the destination is what was offered. */
  lemma StackSuccessIsExactCopy(lim: Limits, c: Pair, v: D.Env, ts: seq<Turn>, x: Site)
    requires Offered(c) && Session.SealsRight(v.s) && SiteGoes(lim, SiteBegin(c, v), ts, x)
    requires x.k.sLost == None && x.k.s.pc == SenderDone(Success)
    ensures x.k.rLost == None && x.k.r.pc == ReceiverDone(Success) && x.k.r.written == Size(c)
    ensures || IsZeroHash(c.send.meta.hash)
            || (Size(c) <= |x.k.r.dev.data| && c.recv.sha(x.k.r.dev.data[..Size(c)]) == c.send.meta.hash)
    ensures c.recv.resume <= |c.dev.data| && c.dev.data[..c.recv.resume] == c.send.src[..c.recv.resume] ==>
              Size(c) <= |x.k.r.dev.data| && x.k.r.dev.data[..Size(c)] == c.send.src[..Size(c)]
  {
    hide SiteGoes, Goes, WorldInv;
    var us, l := StackIsTransfer(lim, c, v, ts, x);
    SuccessIsExactCopy(lim, c, us, WorldOf(x, l));
  }

  /** When the destination opens, no call over the stack returns anything but a connection error or the
      verdict: no frame is ever found bad, misplaced or out of order. */
  lemma StackOnlyTheVerdict(lim: Limits, c: Pair, v: D.Env, ts: seq<Turn>, x: Site)
    requires Offered(c) && Session.SealsRight(v.s) && SiteGoes(lim, SiteBegin(c, v), ts, x)
    requires Opens(x.c)
    ensures Agreed(x.c)
    ensures x.k.s.pc.SenderDone? ==> x.k.s.pc.res == FinalOutcome(x.c)
    ensures x.k.r.pc.ReceiverDone? ==> x.k.r.pc.res == FinalOutcome(x.c)
  {
    hide SiteGoes, Goes, Ascends, EndsBy, Holds;
    var us, l := StackIsTransfer(lim, c, v, ts, x);
  }
}
