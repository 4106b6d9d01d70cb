/** The retry loops of send and receive (src/transfer/transfer.cpp:809-847, 864-910): one endpoint,
    a fresh arbitrary peer for every attempt. */
module Retry {
  import opened Bytes
  import opened Errors
  import opened Frames
  import opened Storage
  import opened Grid
  import opened Endpoints
  import opened Transfer

  /** What send works with: the chunk size each attempt uses depends on its connection as well. */
  datatype Job = Job(meta: Meta, src: bytes, want: int, window: pos)

  function CfgFor(j: Job, p: Script): SendCfg {
    SendCfg(j.meta, j.src, EffectiveChunkSize(p.limit, j.want), j.window)
  }

  /** One attempt of send. */
  function SendRun(j: Job, p: Script): Run<Sender> { RunSender(CfgFor(j, p), SENDER_START, p) }

  datatype SendLoop = SendLoop(res: Outcome, calls: nat, log: seq<int>)

  /** `scripts[0]` is the current connection, the others are what redialling yields. */
  function RunSend(j: Job, max: pos, scripts: seq<Script>, redial: bool, calls: nat, last: Option<Err>): SendLoop
    requires scripts != []
    decreases |scripts|
  {
    if calls >= max then SendLoop(Failure(if last.Some? then last.value else TooManyRetries), calls, [])
    else
      var run := RunSender(CfgFor(j, scripts[0]), SENDER_START, scripts[0]);
      if run.res == Success || !redial || !IsRetriable(run.res.error) then SendLoop(run.res, calls + 1, run.end.log)
      else if |scripts| == 1 then SendLoop(Failure(Other), calls + 1, run.end.log)
      else
        var rest := RunSend(j, max, scripts[1..], redial, calls + 1, Some(run.res.error));
        rest.(log := run.end.log + rest.log)
  }

  /** send fills in a missing id and a missing hash before the first attempt. */
  function FillIn(meta: Meta, data: bytes, freshId: ID, sha: bytes -> Hash): Result<Meta, Err> {
    if meta.size < 0 then Err(SizeMismatch)
    else
      var m := if meta.id == ZERO_ID then meta.(id := freshId) else meta;
      if !IsZeroHash(m.hash) then Ok(m)
      else match ReadPrefix(data, m.size)
           case Ok(all) => Ok(m.(hash := sha(all)))
           case Err(e) => Err(e)
  }

  ghost predicate Distinct(conns: seq<PeerConn>) {
    forall i, j :: 0 <= i < j < |conns| ==> conns[i] != conns[j]
  }

  ghost function Rests(conns: seq<PeerConn>): (r: seq<Script>)
    reads conns
    ensures |r| == |conns| && forall i :: 0 <= i < |conns| ==> r[i] == conns[i].Rest()
  {
    if conns == [] then [] else [conns[0].Rest()] + Rests(conns[1..])
  }

  /** One failed attempt that will be retried. */
  lemma SendContinues(j: Job, max: pos, scripts: seq<Script>, redial: bool, calls: nat, last: Option<Err>,
      before: seq<int>)
    requires |scripts| > 1 && calls < max && redial
    requires var res := RunSender(CfgFor(j, scripts[0]), SENDER_START, scripts[0]).res;
        res.Failure? && IsRetriable(res.error)
    ensures var run := RunSender(CfgFor(j, scripts[0]), SENDER_START, scripts[0]);
            var all := RunSend(j, max, scripts, redial, calls, last);
            var rest := RunSend(j, max, scripts[1..], redial, calls + 1, Some(run.res.error));
            all.(log := before + all.log) == rest.(log := before + run.end.log + rest.log)
  {
    var run := RunSender(CfgFor(j, scripts[0]), SENDER_START, scripts[0]);
    var rest := RunSend(j, max, scripts[1..], redial, calls + 1, Some(run.res.error));
    assert before + (run.end.log + rest.log) == before + run.end.log + rest.log;
  }

  method SendAttempts(conns: seq<PeerConn>, r: File, meta: Meta, want: int, window: pos, max: pos, redial: bool)
      returns (res: Outcome, calls: nat, log: seq<int>)
    requires conns != [] && Distinct(conns)
    modifies conns
    ensures SendLoop(res, calls, log)
         == RunSend(Job(meta, r.data, want, window), max, old(Rests(conns)), redial, 0, None)
  {
    hide RunSender;
    calls, log := 0, [];
    ghost var j := Job(meta, r.data, want, window);
    ghost var scripts := Rests(conns);
    var last: Option<Err> := None;
    while true
      invariant 0 <= calls < |conns|
      invariant forall k :: calls <= k < |conns| ==> conns[k].Rest() == scripts[k]
      invariant RunSend(j, max, scripts, redial, 0, None)
             == (var rest := RunSend(j, max, scripts[calls..], redial, calls, last); rest.(log := log + rest.log))
      decreases |conns| - calls
    {
      if calls >= max {
        return Failure(if last.Some? then last.value else TooManyRetries), calls, log;
      }
      var more;
      ghost var before, prev := log, last;
      res, more := SendOnce(conns[calls], r, meta, want, window);
      log := log + more;
      calls := calls + 1;
      if res == Success || !redial || !IsRetriable(res.error) {
        return;
      }
      last := Some(res.error);
      if calls == |conns| {
        return Failure(Other), calls, log;
      }
      SendContinues(j, max, scripts[calls - 1..], redial, calls - 1, prev, before);
      assert scripts[calls - 1..][1..] == scripts[calls..];
    }
  }

  method Send(conns: seq<PeerConn>, r: File, meta0: Meta, want: int, window: pos, max: pos, redial: bool,
              freshId: ID, sha: bytes -> Hash)
      returns (res: Outcome, calls: nat, log: seq<int>)
    requires conns != [] && Distinct(conns)
    modifies conns
    ensures match FillIn(meta0, r.data, freshId, sha)
            case Err(e) => res == Failure(e) && calls == 0
            case Ok(m) =>
              var run := RunSend(Job(m, r.data, want, window), max, old(Rests(conns)), redial, 0, None);
              SendLoop(res, calls, log) == run
  {
    calls, log := 0, [];
    var meta := meta0;
    if meta.size < 0 {
      return Failure(SizeMismatch), calls, log;
    }
    if meta.id == ZERO_ID {
      meta := meta.(id := freshId);
    }
    if IsZeroHash(meta.hash) {
      var h := HashReader(r, meta.size, sha);
      if h.Err? {
        return Failure(h.error), calls, log;
      }
      meta := meta.(hash := h.value);
    }
    res, calls, log := SendAttempts(conns, r, meta, want, window, max, redial);
  }

  datatype ReceiveLoop = ReceiveLoop(res: Outcome, calls: nat, dev: Device, written: nat, meta: Option<Meta>,
      log: seq<int>)

  /** After a failed attempt: remember the offer, keep what was stored. */
  function NextCfg(c: RecvCfg, end: Receiver): RecvCfg {
    var wanted := if end.got.Some? && end.got.value.id != ZERO_ID then Some(end.got.value.id) else c.wanted;
    c.(resume := if end.written > c.resume then end.written else c.resume, wanted := wanted)
  }

  function NextMeta(meta: Option<Meta>, end: Receiver): Option<Meta> {
    if end.got.Some? && end.got.value.id != ZERO_ID then end.got else meta
  }

  /** What the receive loop carries from attempt to attempt. */
  datatype Trail = Trail(c: RecvCfg, dev: Device, meta: Option<Meta>, log: seq<int>)

  function ReceiveRun(t: Trail, p: Script): Run<Receiver> { RunReceiver(t.c, ReceiverStart(t.c, t.dev), p) }

  function Onward(t: Trail, p: Script): Trail {
    var end := ReceiveRun(t, p).end;
    Trail(NextCfg(t.c, end), end.dev, NextMeta(t.meta, end), t.log + end.log)
  }

  function Trek(t: Trail, ps: seq<Script>): Trail
    decreases |ps|
  {
    if ps == [] then t else Trek(Onward(t, ps[0]), ps[1..])
  }

  function RunReceive(c: RecvCfg, dev: Device, max: pos, scripts: seq<Script>, redial: bool, calls: nat,
                      last: Option<Err>, meta: Option<Meta>): ReceiveLoop
    requires scripts != []
    decreases |scripts|
  {
    if calls >= max then
      ReceiveLoop(Failure(if last.Some? then last.value else TooManyRetries), calls, dev, c.resume, meta, [])
    else
      var run := RunReceiver(c, ReceiverStart(c, dev), scripts[0]);
      var c2, meta2, end := NextCfg(c, run.end), NextMeta(meta, run.end), run.end;
      if run.res == Success then ReceiveLoop(Success, calls + 1, end.dev, c2.resume, end.got, end.log)
      else if !redial || !IsRetriable(run.res.error) then
        ReceiveLoop(run.res, calls + 1, end.dev, c2.resume, meta2, end.log)
      else if |scripts| == 1 then ReceiveLoop(Failure(Other), calls + 1, end.dev, c2.resume, meta2, end.log)
      else
        var rest := RunReceive(c2, end.dev, max, scripts[1..], redial, calls + 1, Some(run.res.error), meta2);
        rest.(log := end.log + rest.log)
  }

  lemma ReceiveContinues(c: RecvCfg, dev: Device, max: pos, scripts: seq<Script>, redial: bool, calls: nat,
                         last: Option<Err>, meta: Option<Meta>, before: seq<int>)
    requires |scripts| > 1 && calls < max && redial
    requires var res := RunReceiver(c, ReceiverStart(c, dev), scripts[0]).res; res.Failure? && IsRetriable(res.error)
    ensures var run := RunReceiver(c, ReceiverStart(c, dev), scripts[0]);
            var all := RunReceive(c, dev, max, scripts, redial, calls, last, meta);
            var rest := RunReceive(NextCfg(c, run.end), run.end.dev, max, scripts[1..], redial, calls + 1,
                                   Some(run.res.error), NextMeta(meta, run.end));
            all.(log := before + all.log) == rest.(log := before + run.end.log + rest.log)
  {
    var run := RunReceiver(c, ReceiverStart(c, dev), scripts[0]);
    var rest := RunReceive(NextCfg(c, run.end), run.end.dev, max, scripts[1..], redial, calls + 1,
                           Some(run.res.error), NextMeta(meta, run.end));
    assert before + (run.end.log + rest.log) == before + run.end.log + rest.log;
  }

  method ReceiveAttempts(conns: seq<PeerConn>, w: File, c0: RecvCfg, max: pos, redial: bool)
      returns (res: Outcome, calls: nat, written: nat, meta: Option<Meta>, log: seq<int>)
    requires conns != [] && Distinct(conns)
    requires c0.wanted == None
    modifies conns, w
    ensures ReceiveLoop(res, calls, w.View(), written, meta, log)
         == RunReceive(c0, old(w.View()), max, old(Rests(conns)), redial, 0, None, None)
  {
    hide RunReceiver;
    calls, log, meta := 0, [], None;
    var c := c0;
    ghost var scripts, whole := Rests(conns), RunReceive(c0, w.View(), max, Rests(conns), redial, 0, None, None);
    var last: Option<Err> := None;
    while true
      invariant 0 <= calls < |conns|
      invariant forall k :: calls <= k < |conns| ==> conns[k].Rest() == scripts[k]
      invariant whole == (var rest := RunReceive(c, w.View(), max, scripts[calls..], redial, calls, last, meta);
                          rest.(log := log + rest.log))
      decreases |conns| - calls
    {
      if calls >= max {
        return Failure(if last.Some? then last.value else TooManyRetries), calls, c.resume, meta, log;
      }
      ghost var before, prev, cfg, met, dev := log, last, c, meta, w.View();
      var got, more;
      res, written, got, more := ReceiveOnce(conns[calls], w, c);
      log := log + more;
      calls := calls + 1;
      if res == Success {
        written := if written > c.resume then written else c.resume;
        meta := got;
        return;
      }
      last := Some(res.error);
      if got.Some? && got.value.id != ZERO_ID {
        meta := got;
        c := c.(wanted := Some(got.value.id));
      }
      if written > c.resume {
        c := c.(resume := written);
      }
      if !redial || !IsRetriable(res.error) {
        return res, calls, c.resume, meta, log;
      }
      if calls == |conns| {
        return Failure(Other), calls, c.resume, meta, log;
      }
      ReceiveContinues(cfg, dev, max, scripts[calls - 1..], redial, calls - 1, prev, met, before);
      assert scripts[calls - 1..][1..] == scripts[calls..];
    }
  }

  method Receive(conns: seq<PeerConn>, w: File, resumeOffset: int, ackEvery: pos, accept: Meta -> Option<bytes>,
                 sha: bytes -> Hash, max: pos, redial: bool)
      returns (res: Outcome, calls: nat, written: nat, meta: Option<Meta>, log: seq<int>)
    requires conns != [] && Distinct(conns)
    modifies conns, w
    ensures resumeOffset < 0 ==> res == Failure(ResumePastEnd) && calls == 0 && w.View() == old(w.View())
    ensures resumeOffset >= 0 ==>
              var c := RecvCfg(resumeOffset, ackEvery, None, accept, sha);
              ReceiveLoop(res, calls, w.View(), written, meta, log)
              == RunReceive(c, old(w.View()), max, old(Rests(conns)), redial, 0, None, None)
  {
    if resumeOffset < 0 {
      return Failure(ResumePastEnd), 0, 0, None, [];
    }
    res, calls, written, meta, log :=
      ReceiveAttempts(conns, w, RecvCfg(resumeOffset, ackEvery, None, accept, sha), max, redial);
  }
}
