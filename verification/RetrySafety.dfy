/** The retry loops against arbitrary peers, one per attempt
    (src/transfer/transfer.cpp:823-846, 872-909). */
module RetrySafety {
  import opened Bytes
  import opened Errors
  import opened Frames
  import opened Storage
  import opened Grid
  import opened Endpoints
  import opened Shapes
  import opened PeerSafety
  import opened PeerStories
  import opened Retry

  /** The errors that end the loops: the peer refused, the content or the frames are wrong, or the call was
      canceled or timed out. */
  predicate Final(e: Err) {
    || e == Rejected || e == HashMismatch || e == SizeMismatch || e == ResumePastEnd || e == BadFrame
    || e == FromConn(Canceled) || e == FromConn(TimedOut)
  }

  /** An attempt after which another one is made, if there is a way to. */
  predicate Retried(o: Outcome) { o.Failure? && !Final(o.error) }

  lemma RetriableIs(e: Err)
    ensures IsRetriable(e) <==> !Final(e)
  {
  }

  /** A lost connection is worth another attempt unless the call was canceled or timed out, and a closed one
      is reported as such. */
  lemma LossIs(e: ConnErr)
    ensures Retried(Failure(MapConnErr(e))) <==> e != Canceled && e != TimedOut
    ensures MapConnErr(e) == ClosedDuring <==> e == Closed
    ensures e != Closed ==> MapConnErr(e) == FromConn(e)
  {
  }

  predicate Plain(o: Outcome) { o != Failure(TooManyRetries) }

  lemma {:induction false} SenderPlain(c: SendCfg, s: Sender, p: Script)
    requires s.pc.SenderDone? ==> Plain(s.pc.res)
    ensures Plain(RunSender(c, s, p).res)
    decreases |p.inbox| + p.credits
  {
    var a := SenderAction(c, s);
    if a.Await? && p.inbox != [] {
      SenderPlain(c, SenderOnPayload(c, s, p.inbox[0]), p.(inbox := p.inbox[1..]));
    } else if a.Emit? && p.credits > 0 {
      SenderPlain(c, a.next, p.(credits := p.credits - 1));
    }
  }

  predicate PlainPc(pc: ReceiverPc) {
    match pc
    case ReceiverDone(res) => Plain(res)
    case Refusing(_, e) => e != TooManyRetries
    case Replying(_, after) => PlainPc(after)
    case _ => true
  }

  lemma {:induction false} ReceiverPlain(c: RecvCfg, r: Receiver, p: Script)
    requires PlainPc(r.pc)
    ensures Plain(RunReceiver(c, r, p).res)
    decreases |p.inbox| + p.credits
  {
    var a := ReceiverAction(c, r);
    if a.Await? && p.inbox != [] {
      var r2 := ReceiverOnPayload(c, r, p.inbox[0]);
      assert PlainPc(r2.pc);
      ReceiverPlain(c, r2, p.(inbox := p.inbox[1..]));
    } else if a.Emit? && p.credits > 0 {
      ReceiverPlain(c, a.next, p.(credits := p.credits - 1));
    }
  }

  /** send calls send_once at least once and at most max_attempts times, and never returns
      too_many_retries: when attempts run out there is always an earlier error to return. */
  lemma {:induction false} SendBounded(j: Job, max: pos, scripts: seq<Script>, redial: bool, calls: nat,
      last: Option<Err>)
    requires scripts != [] && calls <= max
    requires calls > 0 ==> last.Some? && last.value != TooManyRetries
    ensures var r := RunSend(j, max, scripts, redial, calls, last);
            && calls <= r.calls <= max && r.calls <= calls + |scripts| && (calls < max ==> calls < r.calls)
            && Plain(r.res)
            && (!redial && calls < max ==> r.calls == calls + 1)
    decreases |scripts|
  {
    if calls < max {
      SenderPlain(CfgFor(j, scripts[0]), SENDER_START, scripts[0]);
      var run := RunSender(CfgFor(j, scripts[0]), SENDER_START, scripts[0]);
      if run.res.Failure? && redial && IsRetriable(run.res.error) && |scripts| > 1 {
        SendBounded(j, max, scripts[1..], redial, calls + 1, Some(run.res.error));
      }
    }
  }

  lemma UntouchedTwice(a: bytes, b: bytes, d: bytes, r: nat, w: nat, w2: nat)
    requires r <= w <= w2 && Untouched(a, b, r, w) && Untouched(b, d, w, w2)
    ensures Untouched(a, d, r, w2)
  {
    forall i | 0 <= i < |a| && (i < r || w2 <= i)
      ensures d[i] == a[i]
    {
      assert b[i] == a[i];
    }
  }

  /** Storage and reports between two moments of receive: from `dev` and `resume` to `dev2` and `written`. */
  predicate Within(dev: Device, resume: nat, dev2: Device, written: nat, log: seq<int>) {
    && resume <= written
    && Untouched(dev.data, dev2.data, resume, written)
    && Ascends(log) && StartsFrom(log, resume) && EndsBy(log, written)
  }

  /** Everything offered is stored, and it hashes to the offered value unless none was offered. */
  predicate Delivered(sha: bytes -> Hash, m: Meta, dev: Device, written: nat) {
    && written == m.size
    && (IsZeroHash(m.hash) || (m.size <= |dev.data| && sha(dev.data[..m.size]) == m.hash))
  }

  /** The digest of what was offered: of the content, or none if that cannot be read back. */
  predicate DigestOf(sha: bytes -> Hash, m: Meta, dev: Device, digest: Hash) {
    || (0 <= m.size <= |dev.data| && digest == sha(dev.data[..m.size]))
    || (!dev.readable && digest == ZERO_HASH)
  }

  /** The payload is a done frame of this transfer whose hash respects the digest of the content. */
  ghost predicate DoneRespects(sha: bytes -> Hash, m: Meta, dev: Device, b: bytes) {
    && IsDone(b, m.id)
    && exists digest: Hash :: DigestOf(sha, m, dev, digest) && Respected(Decode(b).value.hash, digest)
                              && Respected(m.hash, digest)
  }

  ghost predicate SomeDone(sha: bytes -> Hash, m: Meta, dev: Device, p: Script) {
    exists i :: 0 <= i < |p.inbox| && DoneRespects(sha, m, dev, p.inbox[i])
  }

  lemma NothingWithin(dev: Device, resume: nat)
    ensures Within(dev, resume, dev, resume, [])
  {
  }

  lemma JoinWithin(dev: Device, resume: nat, mid: Device, written: nat, log: seq<int>, rest: ReceiveLoop)
    requires Within(dev, resume, mid, written, log) && Within(mid, written, rest.dev, rest.written, rest.log)
    ensures Within(dev, resume, rest.dev, rest.written, log + rest.log)
  {
    UntouchedTwice(dev.data, mid.data, rest.dev.data, resume, written, rest.written);
    JoinAscends(log, rest.log, written);
    JoinEnds(log, rest.log, written, rest.written);
  }

  lemma AttemptWithin(c: RecvCfg, dev: Device, p: Script) returns (run: Run<Receiver>)
    ensures run == RunReceiver(c, ReceiverStart(c, dev), p) && Plain(run.res)
    ensures Within(dev, c.resume, run.end.dev, run.end.written, run.end.log)
    ensures run.res == Success ==>
              && run.end.got.Some? && Delivered(c.sha, run.end.got.value, run.end.dev, run.end.written)
              && SomeDone(c.sha, run.end.got.value, run.end.dev, p)
  {
    hide RunReceiver, Decode, Untouched, Ascends, ChunkBytes, Kept;
    ReceiverPlain(c, ReceiverStart(c, dev), p);
    var n := ReceiverSafe(c, dev, p);
    run := RunReceiver(c, ReceiverStart(c, dev), p);
    if run.res == Success {
      var m := run.end.got.value;
      assert DigestOf(c.sha, m, run.end.dev, LocalHash(c, run.end, m));
      assert DoneRespects(c.sha, m, run.end.dev, p.inbox[n - 1]);
    }
  }

  ghost predicate Bounded(c: RecvCfg, dev: Device, max: pos, redial: bool, calls: nat, ps: seq<Script>,
      r: ReceiveLoop) {
    && calls <= r.calls <= max && (calls < max ==> calls < r.calls)
    && (!redial && calls < max ==> r.calls == calls + 1)
    && Plain(r.res)
    && Within(dev, c.resume, r.dev, r.written, r.log)
    && (r.res == Success ==>
          && r.meta.Some? && Delivered(c.sha, r.meta.value, r.dev, r.written)
          && 0 < r.calls - calls <= |ps| && SomeDone(c.sha, r.meta.value, r.dev, ps[r.calls - calls - 1]))
  }

  /** receive, for any peers and any history: attempts stay within max_attempts, and there is exactly one
      without redial; bytes below the first resume offset and from the final length on keep their
      values; reports ascend over all attempts; success means that the whole offered size is stored
      and, unless no hash was offered, that the content hashes to the offered value; and the last peer
      sent a done frame whose hash, unless it is absent, is the digest too. */
  lemma {:induction false} ReceiveBounded(c: RecvCfg, dev: Device, max: pos, scripts: seq<Script>, redial: bool,
                                          calls: nat, last: Option<Err>, meta: Option<Meta>)
    requires scripts != [] && calls <= max
    requires calls > 0 ==> last.Some? && last.value != TooManyRetries
    ensures Bounded(c, dev, max, redial, calls, scripts, RunReceive(c, dev, max, scripts, redial, calls, last, meta))
    decreases |scripts|
  {
    hide RunReceiver, Untouched, Ascends, StartsFrom, EndsBy;
    if calls < max {
      var run := AttemptWithin(c, dev, scripts[0]);
      if run.res.Failure? && redial && IsRetriable(run.res.error) && |scripts| > 1 {
        var c2, meta2, end := NextCfg(c, run.end), NextMeta(meta, run.end), run.end;
        ReceiveBounded(c2, end.dev, max, scripts[1..], redial, calls + 1, Some(run.res.error), meta2);
        var rest := RunReceive(c2, end.dev, max, scripts[1..], redial, calls + 1, Some(run.res.error), meta2);
        JoinWithin(dev, c.resume, end.dev, end.written, end.log, rest);
      }
    } else {
      NothingWithin(dev, c.resume);
    }
  }

  /** Bytes stored by the first attempts stay: whatever further connections bring, the destination as it
      is after `k` of them keeps everything below the length stored by then. */
  lemma {:induction false} EarlierBytesKept(c: RecvCfg, dev: Device, max: pos, scripts: seq<Script>, redial: bool,
                                            calls: nat, last: Option<Err>, meta: Option<Meta>, k: nat)
    requires 0 < k <= |scripts| && calls <= max
    requires calls > 0 ==> last.Some? && last.value != TooManyRetries
    ensures var early := RunReceive(c, dev, max, scripts[..k], redial, calls, last, meta);
            var late := RunReceive(c, dev, max, scripts, redial, calls, last, meta);
            early.written <= late.written && Untouched(early.dev.data, late.dev.data, early.written, late.written)
    decreases |scripts|
  {
    hide RunReceiver, Ascends, StartsFrom, EndsBy;
    if calls < max {
      var run := AttemptWithin(c, dev, scripts[0]);
      if run.res.Failure? && redial && IsRetriable(run.res.error) && |scripts| > 1 {
        var c2, meta2, end := NextCfg(c, run.end), NextMeta(meta, run.end), run.end;
        if k == 1 {
          ReceiveBounded(c2, end.dev, max, scripts[1..], redial, calls + 1, Some(run.res.error), meta2);
        } else {
          assert scripts[..k][1..] == scripts[1..][..k - 1];
          EarlierBytesKept(c2, end.dev, max, scripts[1..], redial, calls + 1, Some(run.res.error), meta2, k - 1);
        }
      }
    }
  }

  // ---------- exactly how the loops end ----------

  /** The result of a loop whose last attempt returned `o`, with `more` connections left to redial. */
  predicate Ends(o: Outcome, redial: bool, more: bool, spent: bool, res: Outcome) {
    if !redial || !Retried(o) then res == o
    else if !more then res == Failure(Other)
    else spent && res == o
  }

  /** send makes attempts in order, each on its own connection, as long as redialling is possible, the error
      is not final and attempts are left; it returns what its last attempt returned, or `other` when
      redialling failed. */
  lemma {:induction false} SendLoopExact(j: Job, max: pos, ps: seq<Script>, redial: bool, calls: nat, last: Option<Err>)
    requires ps != [] && calls < max
    ensures var r := RunSend(j, max, ps, redial, calls, last);
            var n := r.calls - calls;
            && 1 <= n <= |ps| && r.calls <= max
            && (forall i :: 0 <= i < n - 1 ==> redial && Retried(SendRun(j, ps[i]).res))
            && Ends(SendRun(j, ps[n - 1]).res, redial, n < |ps|, r.calls == max, r.res)
    decreases |ps|
  {
    hide RunSender;
    var run := SendRun(j, ps[0]);
    if run.res.Failure? { RetriableIs(run.res.error); }
    if redial && Retried(run.res) && |ps| > 1 && calls + 1 < max {
      SendLoopExact(j, max, ps[1..], redial, calls + 1, Some(run.res.error));
    }
  }

  /** `r` is the end of the receive loop that started at `t`: the attempts before the last one were retried,
      each starting with what the ones before it left, and the last one ended the loop. */
  ghost predicate Exact(t: Trail, max: pos, ps: seq<Script>, redial: bool, calls: nat, r: ReceiveLoop) {
    var n := r.calls - calls;
    && 1 <= n <= |ps| && r.calls <= max
    && (forall i :: 0 <= i < n - 1 ==> redial && Retried(ReceiveRun(Trek(t, ps[..i]), ps[i]).res))
    && var run, t2 := ReceiveRun(Trek(t, ps[..n - 1]), ps[n - 1]), Trek(t, ps[..n]);
       && Ends(run.res, redial, n < |ps|, r.calls == max, r.res)
       && r.dev == t2.dev && r.written == t2.c.resume && t.log + r.log == t2.log
       && r.meta == if r.res == Success then run.end.got else t2.meta
  }

  lemma ExactMore(t: Trail, max: pos, ps: seq<Script>, calls: nat, rest: ReceiveLoop)
    requires ps != [] && Retried(ReceiveRun(t, ps[0]).res)
    requires Exact(Onward(t, ps[0]), max, ps[1..], true, calls + 1, rest)
    ensures Exact(t, max, ps, true, calls, rest.(log := ReceiveRun(t, ps[0]).end.log + rest.log))
  {
    hide RunReceiver, NextCfg, NextMeta, Trek, Retried, Ends;
    var run, u, n := ReceiveRun(t, ps[0]), Onward(t, ps[0]), rest.calls - calls;
    assert ps[1..][n - 2] == ps[n - 1];
    assert t.log + (run.end.log + rest.log) == u.log + rest.log;
    TrekTail(t, ps, n);
    TrekTail(t, ps, n - 1);
    forall i | 0 <= i < n - 1
      ensures Retried(ReceiveRun(Trek(t, ps[..i]), ps[i]).res)
    {
      if i > 0 {
        TrekTail(t, ps, i);
        assert ps[1..][i - 1] == ps[i];
      } else {
        TrekNone(t, ps);
      }
    }
  }

  lemma TrekNone(t: Trail, ps: seq<Script>)
    ensures Trek(t, ps[..0]) == t
    ensures ps != [] ==> Trek(t, ps[..1]) == Onward(t, ps[0])
  {
    if ps != [] { assert ps[..1][1..] == [] && ps[..1][0] == ps[0]; }
  }

  /** An attempt that ends the loop. */
  lemma ExactLast(t: Trail, max: pos, ps: seq<Script>, redial: bool, calls: nat, res: Outcome)
    requires ps != [] && calls < max
    requires Ends(ReceiveRun(t, ps[0]).res, redial, 1 < |ps|, calls + 1 == max, res)
    ensures var run, u := ReceiveRun(t, ps[0]), Onward(t, ps[0]);
            var meta := if res == Success then run.end.got else u.meta;
            Exact(t, max, ps, redial, calls, ReceiveLoop(res, calls + 1, u.dev, u.c.resume, meta, run.end.log))
  {
    hide RunReceiver, NextCfg, NextMeta, Trek, Retried, Ends;
    TrekNone(t, ps);
  }

  /** receive does the same, and carries from attempt to attempt what each one stored, the offer it saw and
      the reports it made. */
  lemma {:induction false} ReceiveLoopExact(t: Trail, max: pos, ps: seq<Script>, redial: bool, calls: nat,
                                            last: Option<Err>)
    requires ps != [] && calls < max
    ensures Exact(t, max, ps, redial, calls, RunReceive(t.c, t.dev, max, ps, redial, calls, last, t.meta))
    decreases |ps|
  {
    hide RunReceiver, NextCfg, NextMeta, Exact;
    var run, u := ReceiveRun(t, ps[0]), Onward(t, ps[0]);
    var r := RunReceive(t.c, t.dev, max, ps, redial, calls, last, t.meta);
    if run.res.Failure? { RetriableIs(run.res.error); }
    if redial && Retried(run.res) && |ps| > 1 && calls + 1 < max {
      ReceiveLoopExact(u, max, ps[1..], redial, calls + 1, Some(run.res.error));
      ExactMore(t, max, ps, calls,
          RunReceive(u.c, u.dev, max, ps[1..], redial, calls + 1, Some(run.res.error), u.meta));
    } else {
      assert run.end.log + [] == run.end.log;
      if redial && Retried(run.res) && |ps| > 1 {
        assert RunReceive(u.c, u.dev, max, ps[1..], redial, calls + 1, Some(run.res.error), u.meta)
            == ReceiveLoop(run.res, calls + 1, u.dev, u.c.resume, u.meta, []);
      }
      ExactLast(t, max, ps, redial, calls, r.res);
    }
  }

  lemma TrekTail(t: Trail, ps: seq<Script>, i: nat)
    requires 0 < i <= |ps|
    ensures Trek(t, ps[..i]) == Trek(Onward(t, ps[0]), ps[1..][..i - 1])
  {
    assert ps[..i][0] == ps[0] && ps[..i][1..] == ps[1..][..i - 1];
  }

  // ---------- the remembered offer ----------

  /** receive remembers the last offer that had an id, and raises its resume offset to what is stored. */
  lemma OfferRemembered(t: Trail, p: Script)
    ensures var end, u := ReceiveRun(t, p).end, Onward(t, p);
            && u.c.resume == end.written >= t.c.resume
            && (if end.got.Some? && end.got.value.id != ZERO_ID
                then u.meta == end.got && u.c.wanted == Some(end.got.value.id)
                else u.meta == t.meta && u.c.wanted == t.c.wanted)
            && u.c == t.c.(resume := u.c.resume, wanted := u.c.wanted)
  {
    hide RunReceiver;
    var _ := AttemptWithin(t.c, t.dev, p);
  }

  lemma WantedStays(t: Trail, p: Script)
    requires t.c.wanted.Some?
    ensures Onward(t, p).c.wanted == t.c.wanted
  {
    hide Told, Decode;
    var _ := ReceiverStory(t.c, t.dev, p);
  }

  lemma {:induction false} WantedStaysOn(t: Trail, ps: seq<Script>)
    requires t.c.wanted.Some?
    ensures Trek(t, ps).c.wanted == t.c.wanted && Trek(t, ps).c.resume >= t.c.resume
    decreases |ps|
  {
    hide RunReceiver;
    if ps != [] {
      WantedStays(t, ps[0]);
      WantedStaysOn(Onward(t, ps[0]), ps[1..]);
    }
  }

  /** Once an attempt has seen an offer with an id, a connection that offers another transfer is refused,
      however many attempts later: a reject goes out, the call returns bad_frame, which is final, and
      nothing changes. */
  lemma OtherTransferRefused(t: Trail, p: Script, ps: seq<Script>, q: Script, m: Meta)
    requires ReceiveRun(t, p).end.got.Some? && ReceiveRun(t, p).end.got.value.id != ZERO_ID
    requires q.inbox != [] && Decode(q.inbox[0]) == Ok(Offer(m)) && m.id != ReceiveRun(t, p).end.got.value.id
    ensures var u := Trek(Onward(t, p), ps);
            var run := ReceiveRun(u, q);
            && run.res == Failure(BadFrame) && Final(BadFrame) && run.end.dev == u.dev && run.end.written == u.c.resume
            && run.out == if q.credits == 0 then [] else [Reject(m.id, Ascii("unexpected transfer id"))]
  {
    hide RunReceiver, Decode;
    WantedStaysOn(Onward(t, p), ps);
    var u := Trek(Onward(t, p), ps);
    OfferAnswered(u.c, u.dev, q, m);
  }

  /** What send offers: a given id and a given hash are kept, a missing id becomes the fresh one and a
      missing hash the hash of the first `size` bytes of the source. It refuses exactly a negative size,
      and a source that is too short to be hashed. */
  lemma OfferIsFilledIn(meta: Meta, data: bytes, freshId: ID, sha: bytes -> Hash)
    ensures match FillIn(meta, data, freshId, sha)
            case Err(e) =>
              || (e == SizeMismatch && meta.size < 0)
              || (e == Other && meta.size > |data| && meta.hash == ZERO_HASH)
            case Ok(m) =>
              && m.size == meta.size >= 0 && m.name == meta.name
              && (m.id == if meta.id == ZERO_ID then freshId else meta.id)
              && (if meta.hash == ZERO_HASH then meta.size <= |data| && m.hash == sha(data[..meta.size])
                  else m.hash == meta.hash)
  {
  }
}
