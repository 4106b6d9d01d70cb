/** The retry loops of send and receive around attempts that may each be lost at any moment
    (src/transfer/transfer.cpp:823-846, 872-909). */
module Resume {
  import opened Bytes
  import opened Errors
  import opened Frames
  import opened Storage
  import opened Grid
  import opened Endpoints
  import opened Attempt
  import opened Link
  import opened LinkRuns
  import opened Blocked
  import opened Shapes
  import Retry

  /** `sLog` and `rLog` hold the progress reports of the earlier attempts. */
  datatype World = World(c: Pair, link: Link, sTries: nat, rTries: nat, sLog: seq<int>, rLog: seq<int>)

  /** Both ends redial and meet again, on a connection that may have another message limit and hence
      another chunk size; or one end burns an attempt on a connection that never reaches the other. */
  datatype Step = During(e: Event) | Redial(limit: int) | SenderAlone | ReceiverAlone

  /** The attempts of each side and the configured chunk size. */
  datatype Limits = Limits(send: pos, recv: pos, want: int)

  function Begin(c: Pair): World { World(c, Start(c), 1, 1, [], []) }

  predicate Retries(r: Option<Outcome>) {
    r.Some? && r.value.Failure? && IsRetriable(r.value.error)
  }

  predicate SenderAgain(m: Limits, w: World) { Retries(SenderResult(w.link)) && w.sTries < m.send }

  predicate ReceiverAgain(m: Limits, w: World) { Retries(ReceiverResult(w.link)) && w.rTries < m.recv }

  /** The next attempt of this pair: the receiver offers what it has stored and insists on the id. */
  function NextPair(c: Pair, r: Receiver, chunk: pos): Pair {
    Pair(c.send.(chunk := chunk), Retry.NextCfg(c.recv, r), r.dev)
  }

  predicate CanStep(m: Limits, w: World, t: Step) {
    match t
    case During(e) => Enabled(w.c, w.link, e)
    case Redial(_) => SenderAgain(m, w) && ReceiverAgain(m, w)
    case SenderAlone => SenderAgain(m, w)
    case ReceiverAlone => ReceiverAgain(m, w)
  }

  function Take(m: Limits, w: World, t: Step): World
    requires CanStep(m, w, t)
  {
    match t
    case During(e) => w.(link := Apply(w.c, w.link, e))
    case Redial(limit) =>
      var c := NextPair(w.c, w.link.r, EffectiveChunkSize(limit, m.want));
      World(c, Start(c), w.sTries + 1, w.rTries + 1, w.sLog + w.link.s.log, w.rLog + w.link.r.log)
    case SenderAlone => w.(sTries := w.sTries + 1)
    case ReceiverAlone => w.(rTries := w.rTries + 1)
  }

  ghost predicate Goes(m: Limits, w: World, ts: seq<Step>, w2: World)
    decreases |ts|
  {
    if ts == [] then w == w2 else CanStep(m, w, ts[0]) && Goes(m, Take(m, w, ts[0]), ts[1..], w2)
  }

  // ---------- what one attempt keeps ----------

  /** `data` is `orig` with the source's bytes from `from` to `upTo` laid over it, and nothing else. */
  predicate Holds(data: bytes, orig: bytes, src: bytes, from: nat, upTo: nat) {
    && from <= upTo <= |src|
    && (from == upTo ==> data == orig)
    && (from < upTo ==> from <= |orig| && data == Splice(orig, from, src[from..upTo]))
  }

  lemma HoldsTwice(a: bytes, b: bytes, d: bytes, src: bytes, from: nat, mid: nat, upTo: nat)
    requires Holds(b, a, src, from, mid) && Holds(d, b, src, mid, upTo)
    ensures Holds(d, a, src, from, upTo)
  {
    if from < mid < upTo {
      SpliceSplice(a, from, src[from..mid], src[mid..upTo]);
      assert src[from..upTo] == src[from..mid] + src[mid..upTo];
    }
  }

  /** A good prefix with source bytes laid after it is a prefix of the source. */
  lemma HoldsAll(data: bytes, orig: bytes, src: bytes, from: nat, upTo: nat)
    requires Holds(data, orig, src, from, upTo) && from <= |orig| && orig[..from] == src[..from]
    ensures upTo <= |data| && data[..upTo] == src[..upTo]
  {
    if from < upTo { assert data[..upTo] == data[..from] + data[from..upTo]; }
    assert src[..upTo] == src[..from] + src[from..upTo];
  }

  lemma {:induction false} SenderLogAscends(c: Pair, q: nat)
    requires Agreed(c) && q <= J(c) + 1
    ensures Ascends(SenderLog(c, q)) && |SenderLog(c, q)| == q
    ensures StartsFrom(SenderLog(c, q), c.recv.resume)
    ensures q > 0 ==> EndsBy(SenderLog(c, q), At(c, Acked(c, q - 1)))
  {
    hide CeilDiv, Pieces, Off, AckIdx, Due;
    if q > 0 {
      SenderLogAscends(c, q - 1);
      if q > 1 {
        AckIdxMono(N(c), c.recv.ackEvery, q - 2, q - 1);
        OffMono(c.recv.resume, Size(c), c.send.chunk, Acked(c, q - 2), Acked(c, q - 1));
        JoinAscends(SenderLog(c, q - 1), [At(c, Acked(c, q - 1))], At(c, Acked(c, q - 2)));
      }
    }
  }

  lemma {:induction false} ReceiverLogAscends(c: Pair, k: nat)
    requires Agreed(c)
    ensures Ascends(ReceiverLog(c, k)) && ReceiverLog(c, k) != []
    ensures StartsFrom(ReceiverLog(c, k), c.recv.resume) && EndsBy(ReceiverLog(c, k), At(c, k))
  {
    hide CeilDiv, Pieces, Off, AckIdx, Due;
    if k > 0 {
      ReceiverLogAscends(c, k - 1);
      OffMono(c.recv.resume, Size(c), c.send.chunk, k - 1, k);
      JoinAscends(ReceiverLog(c, k - 1), [At(c, k)], At(c, k - 1));
    }
  }

  /** Chunks the receiver has stored in this attempt. */
  function Stored(c: Pair, l: Link): nat
    requires Agreed(c)
  {
    if l.u == 0 then 0 else Min(l.u - 1, N(c))
  }

  lemma SenderReports(c: Pair, l: Link)
    requires Agreed(c) && Inv(c, l)
    ensures Ascends(l.s.log) && StartsFrom(l.s.log, c.recv.resume) && EndsBy(l.s.log, At(c, Stored(c, l)))
  {
    hide CeilDiv, Pieces, Off, AckIdx, Due;
    var q := Min(l.q, J(c) + 1);
    SenderLogAscends(c, q);
    if q > 0 {
      AckBehind(c, l.p, l.q, l.u, l.v);
      if l.q == J(c) + 2 {
        AckIdxEnd(N(c), c.recv.ackEvery, J(c));
        AckIdxEnd(N(c), c.recv.ackEvery, J(c) + 1);
      }
      OffMono(c.recv.resume, Size(c), c.send.chunk, Acked(c, q - 1), Stored(c, l));
    }
  }

  lemma ReceiverReports(c: Pair, l: Link)
    requires Agreed(c) && Inv(c, l)
    ensures l.r.written == At(c, Stored(c, l)) && l.r.dev == DevAt(c, Stored(c, l))
    ensures l.r.got == None || l.r.got == Some(c.send.meta)
    ensures Ascends(l.r.log) && StartsFrom(l.r.log, c.recv.resume) && EndsBy(l.r.log, l.r.written)
  {
    hide CeilDiv, Pieces, Off, AckIdx, Due;
    ReceiverLogAscends(c, Stored(c, l));
  }

  /** Reports of one side ascend from the resume offset and stay at or below what is stored. */
  predicate Reported(log: seq<int>, from: int, upTo: int) {
    Ascends(log) && StartsFrom(log, from) && EndsBy(log, upTo)
  }

  /** What a receiver leaves behind, whatever its attempt came to. */
  predicate Leaves(c: Pair, l: Link)
    requires Offered(c)
  {
    && c.recv.resume <= l.r.written <= Size(c)
    && l.r.dev == c.dev.(data := l.r.dev.data)
    && Holds(l.r.dev.data, c.dev.data, c.send.src, c.recv.resume, l.r.written)
    && (l.r.got == None || l.r.got == Some(c.send.meta))
    && Reported(l.s.log, c.recv.resume, l.r.written) && Reported(l.r.log, c.recv.resume, l.r.written)
  }

  lemma DevHolds(c: Pair, k: nat)
    requires Agreed(c) && k <= N(c)
    ensures Holds(DevAt(c, k).data, c.dev.data, c.send.src, c.recv.resume, At(c, k))
  {
    hide CeilDiv, Pieces, Off, AckIdx, Due;
    AtZero(c);
    OffMono(c.recv.resume, Size(c), c.send.chunk, 0, k);
    OffBelow(c.recv.resume, Size(c), c.send.chunk, 0);
  }

  lemma AttemptLeaves(c: Pair, l: Link)
    requires Offered(c) && AttemptInv(c, l)
    ensures Leaves(c, l)
  {
    hide CeilDiv, Pieces, Off, AckIdx, Due;
    if Opens(c) {
      SenderReports(c, l);
      ReceiverReports(c, l);
      DevHolds(c, Stored(c, l));
    }
  }

  lemma StoredGrows(c: Pair, l: Link, e: Event)
    requires Offered(c) && AttemptInv(c, l) && Enabled(c, l, e)
    ensures l.r.written <= Apply(c, l, e).r.written
  {
    hide CeilDiv, Pieces, Off, AckIdx, Due;
    AttemptStep(c, l, e);
    if Opens(c) {
      var l2 := Apply(c, l, e);
      ReceiverReports(c, l);
      ReceiverReports(c, l2);
      OffMono(c.recv.resume, Size(c), c.send.chunk, Stored(c, l), Stored(c, l2));
    }
  }

  // ---------- what every run keeps ----------

  /** Same source and same options as the first attempt. */
  ghost predicate SameTransfer(c0: Pair, c: Pair) {
    && c.send == c0.send.(chunk := c.send.chunk) && c.recv.accept == c0.recv.accept && c.recv.sha == c0.recv.sha
    && c.recv.ackEvery == c0.recv.ackEvery && c0.recv.resume <= c.recv.resume && c.dev == c0.dev.(data := c.dev.data)
    && Holds(c.dev.data, c0.dev.data, c0.send.src, c0.recv.resume, c.recv.resume)
  }

  ghost predicate WorldInv(m: Limits, c0: Pair, w: World)
    requires Offered(c0)
  {
    && Offered(w.c) && SameTransfer(c0, w.c)
    && AttemptInv(w.c, w.link)
    && 1 <= w.sTries <= m.send && 1 <= w.rTries <= m.recv
    && Ascends(w.sLog) && EndsBy(w.sLog, w.c.recv.resume)
    && Ascends(w.rLog) && EndsBy(w.rLog, w.c.recv.resume)
  }

  lemma NextOffered(c0: Pair, c: Pair, l: Link, chunk: pos)
    requires Offered(c0) && Offered(c) && SameTransfer(c0, c) && Leaves(c, l)
    ensures var c2 := NextPair(c, l.r, chunk);
            Offered(c2) && SameTransfer(c0, c2) && c2.recv.resume == l.r.written && c2.dev == l.r.dev
  {
    hide Holds;
    HoldsTwice(c0.dev.data, c.dev.data, l.r.dev.data, c0.send.src, c0.recv.resume, c.recv.resume, l.r.written);
  }

  lemma Redialled(m: Limits, c0: Pair, w: World, limit: int)
    requires Offered(c0) && WorldInv(m, c0, w) && CanStep(m, w, Redial(limit))
    ensures WorldInv(m, c0, Take(m, w, Redial(limit)))
  {
    var chunk := EffectiveChunkSize(limit, m.want);
    hide Holds, AttemptInv, Ascends, EndsBy, StartsFrom, Offered, SameTransfer;
    AttemptLeaves(w.c, w.link);
    NextOffered(c0, w.c, w.link, chunk);
    AttemptStart(NextPair(w.c, w.link.r, chunk));
    var mid, hi := w.c.recv.resume, w.link.r.written;
    JoinAscends(w.sLog, w.link.s.log, mid);
    JoinAscends(w.rLog, w.link.r.log, mid);
    JoinEnds(w.sLog, w.link.s.log, mid, hi);
    JoinEnds(w.rLog, w.link.r.log, mid, hi);
  }

  lemma WorldStep(m: Limits, c0: Pair, w: World, t: Step)
    requires Offered(c0) && WorldInv(m, c0, w) && CanStep(m, w, t)
    ensures WorldInv(m, c0, Take(m, w, t))
    ensures w.link.r.written <= Take(m, w, t).link.r.written
  {
    hide Holds, AttemptInv, Ascends, EndsBy, StartsFrom, Offered, SameTransfer, Enabled, Apply;
    match t
    case During(e) =>
      AttemptStep(w.c, w.link, e);
      StoredGrows(w.c, w.link, e);
    case Redial(limit) =>
      Redialled(m, c0, w, limit);
      AttemptLeaves(w.c, w.link);
    case _ =>
  }

  lemma {:induction false} WorldRun(m: Limits, c0: Pair, w: World, ts: seq<Step>, w2: World)
    requires Offered(c0) && WorldInv(m, c0, w) && Goes(m, w, ts, w2)
    ensures WorldInv(m, c0, w2)
    ensures w.link.r.written <= w2.link.r.written
    decreases |ts|
  {
    hide WorldInv, CanStep, Take;
    if ts != [] {
      WorldStep(m, c0, w, ts[0]);
      WorldRun(m, c0, Take(m, w, ts[0]), ts[1..], w2);
    }
  }

  lemma Reached(m: Limits, c: Pair, ts: seq<Step>, w: World)
    requires Offered(c) && Goes(m, Begin(c), ts, w)
    ensures WorldInv(m, c, w)
  {
    AttemptStart(c);
    WorldRun(m, c, Begin(c), ts, w);
  }

  /** Resume across any sequence of connection losses, for any destination: at every moment of every
      run the destination is its original content with source bytes laid over it from the first
      resume offset up to `written`, and nothing else; the reports of each side never go backwards,
      across redials included; and neither side exceeds its attempts. */
  lemma AcrossLosses(m: Limits, c: Pair, ts: seq<Step>, w: World)
    requires Offered(c) && Goes(m, Begin(c), ts, w)
    ensures Holds(w.link.r.dev.data, c.dev.data, c.send.src, c.recv.resume, w.link.r.written)
    ensures Ascends(w.sLog + w.link.s.log) && Ascends(w.rLog + w.link.r.log)
    ensures w.sTries <= m.send && w.rTries <= m.recv
  {
    hide Holds, AttemptInv, Ascends, EndsBy, StartsFrom;
    Reached(m, c, ts, w);
    AttemptLeaves(w.c, w.link);
    HoldsTwice(c.dev.data, w.c.dev.data, w.link.r.dev.data, c.send.src, c.recv.resume, w.c.recv.resume,
        w.link.r.written);
    JoinAscends(w.sLog, w.link.s.log, w.c.recv.resume);
    JoinAscends(w.rLog, w.link.r.log, w.c.recv.resume);
  }

  /** The stored length never shrinks between any two moments of a run. */
  lemma WrittenNeverShrinks(m: Limits, c: Pair, ts: seq<Step>, w: World, more: seq<Step>, w2: World)
    requires Offered(c) && Goes(m, Begin(c), ts, w) && Goes(m, w, more, w2)
    ensures w.link.r.written <= w2.link.r.written
  {
    Reached(m, c, ts, w);
    WorldRun(m, c, w, more, w2);
  }

  /** A success anywhere in the run is an exact copy: the sender's success implies the receiver's; the
      content hashes to the offered value unless none was offered; and, given a good original prefix,
      the destination then equals what was offered. */
  lemma SuccessIsExactCopy(m: Limits, c: Pair, ts: seq<Step>, w: World)
    requires Offered(c) && Goes(m, Begin(c), ts, w)
    requires SenderResult(w.link) == Some(Success)
    ensures ReceiverResult(w.link) == Some(Success) && w.link.r.written == Size(c)
    ensures || IsZeroHash(c.send.meta.hash)
            || (Size(c) <= |w.link.r.dev.data| && c.recv.sha(w.link.r.dev.data[..Size(c)]) == c.send.meta.hash)
    ensures c.recv.resume <= |c.dev.data| && c.dev.data[..c.recv.resume] == c.send.src[..c.recv.resume] ==>
              Size(c) <= |w.link.r.dev.data| && w.link.r.dev.data[..Size(c)] == c.send.src[..Size(c)]
  {
    hide Holds, AttemptInv, Ascends, EndsBy, StartsFrom, Goes;
    Reached(m, c, ts, w);
    AcrossLosses(m, c, ts, w);
    CopyAtSuccess(w.c, w.link);
    if c.recv.resume <= |c.dev.data| && c.dev.data[..c.recv.resume] == c.send.src[..c.recv.resume] {
      HoldsAll(w.link.r.dev.data, c.dev.data, c.send.src, c.recv.resume, Size(c));
    }
  }

  lemma CopyAtSuccess(c: Pair, l: Link)
    requires Offered(c) && AttemptInv(c, l) && SenderResult(l) == Some(Success)
    ensures ReceiverResult(l) == Some(Success) && l.r.written == Size(c)
    ensures || IsZeroHash(c.send.meta.hash)
            || (Size(c) <= |l.r.dev.data| && c.recv.sha(l.r.dev.data[..Size(c)]) == c.send.meta.hash)
  {
    hide CeilDiv, Pieces, Off, AckIdx, Due;
    if Opens(c) {
      OffBelow(c.recv.resume, Size(c), c.send.chunk, N(c));
      DigestIsContent(c);
      RepliesBounded(c, l.u);
    } else {
      BlockedFails(c, l);
    }
  }

  // ---------- when a clean attempt finishes the job ----------

  /** A fresh attempt can hash what it must: it can read back, or nothing is stored yet; or no hash was
      offered and nothing is left to store. */
  predicate Verifiable(c: Pair) {
    || c.dev.readable
    || (c.recv.resume == 0 && Size(c) > 0)
    || (IsZeroHash(c.send.meta.hash) && c.recv.resume == Size(c))
  }

  /** After any history, an attempt that loses no connection and does not starve ends in success on both
      sides if and only if the destination can be read back or nothing is stored yet; and then the
      destination is a copy. A destination that can only be written cannot be resumed. */
  lemma CleanAttemptIff(m: Limits, c: Pair, ts: seq<Step>, w: World, es: seq<Event>, l: Link)
    requires Offered(c) && Goes(m, Begin(c), ts, w) && w.link == Start(w.c)
    requires Agreed(w.c) ==> !Starved(w.c)
    requires c.recv.resume <= |c.dev.data| && c.dev.data[..c.recv.resume] == c.send.src[..c.recv.resume]
    requires c.send.meta.hash == c.recv.sha(c.send.src[..Size(c)])
    requires Leads(w.c, w.link, es, l) && LossFree(es) && Stuck(w.c, l)
    ensures SenderResult(l) == Some(Success) && ReceiverResult(l) == Some(Success) <==> Verifiable(w.c)
    ensures Verifiable(w.c) ==> Size(c) <= |l.r.dev.data| && l.r.dev.data[..Size(c)] == c.send.src[..Size(c)]
  {
    hide Leads, Stuck, Goes, AttemptInv, Holds, CeilDiv;
    Reached(m, c, ts, w);
    HoldsAll(w.c.dev.data, c.dev.data, c.send.src, c.recv.resume, w.c.recv.resume);
    CleanAttempt(w.c, es, l);
  }

  lemma CleanAttempt(c: Pair, es: seq<Event>, l: Link)
    requires Offered(c) && c.recv.resume <= |c.dev.data|
    requires Agreed(c) ==> !Starved(c)
    requires c.dev.data[..c.recv.resume] == c.send.src[..c.recv.resume]
    requires c.send.meta.hash == c.recv.sha(c.send.src[..Size(c)])
    requires Leads(c, Start(c), es, l) && LossFree(es) && Stuck(c, l)
    ensures SenderResult(l) == Some(Success) && ReceiverResult(l) == Some(Success) <==> Verifiable(c)
    ensures Verifiable(c) ==> Size(c) <= |l.r.dev.data| && l.r.dev.data[..Size(c)] == c.send.src[..Size(c)]
  {
    hide CeilDiv, Pieces, Off, AckIdx, Due, Inv, BlockedInv, Holds, Leads, Stuck;
    AttemptStart(c);
    AttemptRun(c, Start(c), es, l);
    if Opens(c) {
      OpenedEnd(c, es, l);
      GoodPrefixSucceeds(c);
      AttemptLeaves(c, l);
      HoldsAll(l.r.dev.data, c.dev.data, c.send.src, c.recv.resume, l.r.written);
    } else {
      BlockedFails(c, l);
    }
  }

  lemma OpenedEnd(c: Pair, es: seq<Event>, l: Link)
    requires Agreed(c) && !Starved(c) && Leads(c, Start(c), es, l) && LossFree(es) && Stuck(c, l)
    ensures SenderResult(l) == ReceiverResult(l) == Some(FinalOutcome(c)) && l.r.written == Size(c)
  {
    hide CeilDiv, Pieces, Off, AckIdx, Due, Leads, Stuck;
    InvStart(c);
    MaximalRun(c, es, l);
    EveryEventCounts(c, Start(c), es, l);
    OffBelow(c.recv.resume, Size(c), c.send.chunk, N(c));
  }

  /** Some bytes are stored, some are missing, and the destination can only be written. */
  predicate Stalled(c: Pair, dev: Device) {
    Offered(c) && c.dev == dev && !dev.readable && 0 < c.recv.resume < Size(c)
  }

  lemma StalledStep(m: Limits, w: World, t: Step, dev: Device)
    requires Stalled(w.c, dev) && AttemptInv(w.c, w.link) && CanStep(m, w, t)
    ensures var w2 := Take(m, w, t); Stalled(w2.c, dev) && AttemptInv(w2.c, w2.link)
  {
    match t
    case During(e) => AttemptStep(w.c, w.link, e);
    case Redial(limit) => AttemptStart(NextPair(w.c, w.link.r, EffectiveChunkSize(limit, m.want)));
    case _ =>
  }

  lemma {:induction false} StalledForever(m: Limits, w: World, ts: seq<Step>, w2: World, dev: Device)
    requires Stalled(w.c, dev) && AttemptInv(w.c, w.link) && Goes(m, w, ts, w2)
    ensures SenderResult(w2.link) != Some(Success) && ReceiverResult(w2.link) != Some(Success)
    ensures w2.link.r.dev == dev
    decreases |ts|
  {
    hide CanStep, Take;
    if ts == [] {
      BlockedFails(w.c, w.link);
    } else {
      StalledStep(m, w, ts[0], dev);
      StalledForever(m, Take(m, w, ts[0]), ts[1..], w2, dev);
    }
  }

  /** A destination that can only be written is lost once an attempt resumes in the middle of it: whatever
      is tried from then on, nothing more is stored and neither side ever succeeds. */
  lemma WriteOnlyNeverResumes(m: Limits, c: Pair, ts: seq<Step>, w: World, more: seq<Step>, w2: World)
    requires Offered(c) && Goes(m, Begin(c), ts, w) && Goes(m, w, more, w2)
    requires !c.dev.readable && 0 < w.c.recv.resume < Size(c)
    ensures SenderResult(w2.link) != Some(Success) && ReceiverResult(w2.link) != Some(Success)
    ensures w2.link.r.dev == w.c.dev
  {
    hide Goes, AttemptInv;
    Reached(m, c, ts, w);
    StalledForever(m, w, more, w2, w.c.dev);
  }
}
