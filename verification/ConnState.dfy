/** The shared state of one duplex connection and its critical sections (src/conn.cpp:59-402).
    Every critical section is one atomic step; a condition-variable wait is the guard of the step. */
module ConnState {
  import opened Bytes
  import opened Errors
  import opened Grid
  import opened Protocol

  datatype Cfg = Cfg(maxMessage: int, sendDepth: pos, recvDepth: pos,
                     callback: bool, jobsDepth: pos, disconnectSlow: bool)

  datatype Outbound = Outbound(typ: byte, pt: bytes)

  /** Where each thread stands between critical sections. A writer that gave up keeps what it held;
      a stuck reader waits forever for a mutex it already owns. */
  datatype Writer = WIdle | WHold(out: Outbound) | WFlush | WDrain(out: Outbound) | WClosing |
  WExit(lost: seq<Outbound>)
  datatype Reader = RIdle | RText(pt: bytes) | RPing(pt: bytes) | RExit | RStuck
  datatype Deliver = DIdle | DHold(pt: bytes) | DExit

  /** History variables: payloads `accepted` by send, records `written` in full, records `consumed` by
      the reader, payloads `returned` by receive, callbacks made (`called`), empty payloads `skipped`,
      and payloads that triggered slow_consumer. */
  datatype History = History(accepted: seq<bytes>, written: seq<Outbound>, consumed: seq<Outbound>,
                             returned: seq<bytes>, called: seq<bytes>, skipped: nat, slow: nat)

  datatype State = State(sendQ: seq<Outbound>, stopSend: bool,
                         recvQ: seq<bytes>, recvClosed: bool, recvErr: Option<ConnErr>,
                         jobs: seq<bytes>, deliverStop: bool, dropped: nat,
                         w: Writer, r: Reader, d: Deliver, h: History)

  const FRESH: State := State([], false, [], false, None, [], false, 0, WIdle, RIdle, DIdle,
                              History([], [], [], [], [], 0, 0))

  // ---------- application calls ----------

  predicate SendReady(c: Cfg, s: State) { s.stopSend || |s.sendQ| < c.sendDepth }

  function Enqueue(s: State, p: bytes): State {
    s.(sendQ := s.sendQ + [Outbound(TEXT, p)], h := s.h.(accepted := s.h.accepted + [p]))
  }

  predicate ReceiveReady(s: State) { s.recvClosed || s.recvQ != [] }

  function Pop(s: State): State
    requires s.recvQ != []
  {
    s.(recvQ := s.recvQ[1..], h := s.h.(returned := s.h.returned + [s.recvQ[0]]))
  }

  /** What a receive with nothing buffered returns once the connection is closed. */
  function TerminalError(s: State): ConnErr {
    if s.recvErr.Some? then s.recvErr.value else Closed
  }

  function StopSending(s: State): State { s.(stopSend := true) }

  function StopDelivery(s: State): State { s.(deliverStop := true) }

  // ---------- writer thread ----------

  function WakeWriter(s: State): State {
    if s.sendQ != [] then s.(w := WHold(s.sendQ[0]), sendQ := s.sendQ[1..]) else s.(w := WFlush)
  }

  function DrainWriter(s: State): State {
    if s.sendQ != [] then s.(w := WDrain(s.sendQ[0]), sendQ := s.sendQ[1..]) else s.(w := WClosing)
  }

  predicate Writing(s: State) { s.w.WHold? || s.w.WDrain? || s.w.WClosing? }

  /** The record the writer is about to put on the wire. */
  function InHand(s: State): Outbound
    requires Writing(s)
  {
    if s.w.WClosing? then Outbound(CLOSE, []) else s.w.out
  }

  function Wrote(s: State): State
    requires Writing(s)
  {
    var w := if s.w.WHold? then WIdle else if s.w.WDrain? then WFlush else WExit([]);
    s.(w := w, h := s.h.(written := s.h.written + [InHand(s)]))
  }

  function WriteFailed(s: State): State
    requires Writing(s)
  {
    s.(w := WExit([InHand(s)]))
  }

  // ---------- reader thread ----------

  /** abort_recv: the first error wins. */
  function AbortRecv(s: State, e: ConnErr): State {
    if s.recvClosed then s else s.(recvClosed := true, recvErr := Some(e))
  }

  function ReaderEnds(s: State, e: ConnErr): State { AbortRecv(s, e).(r := RExit) }

  function OnText(c: Cfg, s: State, pt: bytes): State {
    if |pt| > c.maxMessage then ReaderEnds(s, MessageTooLarge)
    else if !c.callback then s.(r := RText(pt))
    else if |s.jobs| >= c.jobsDepth then
      if c.disconnectSlow then ReaderEnds(s.(h := s.h.(slow := s.h.slow + 1)), SlowConsumer)
      else s.(dropped := s.dropped + 1)
    else s.(jobs := s.jobs + [pt])
  }

  /** A record that opened to `pt`. */
  function OnMessage(c: Cfg, s0: State, typ: byte, pt: bytes): State {
    var s := s0.(h := s0.h.(consumed := s0.h.consumed + [Outbound(typ, pt)]));
    if typ == TEXT then OnText(c, s, pt)
    else if typ == PING then s.(r := RPing(pt))
    else if typ == PONG then s
    else ReaderEnds(s, if typ == CLOSE then Closed else BadRecord)
  }

  predicate PushReady(c: Cfg, s: State) {
    s.r.RText? && (s.recvClosed || s.stopSend || |s.recvQ| < c.recvDepth)
  }

  /** With a full queue during shutdown the source calls abort_recv while it holds the mutex that
      abort_recv takes: the reader never comes back. */
  function PushText(c: Cfg, s: State): State
    requires s.r.RText?
  {
    if s.stopSend && |s.recvQ| >= c.recvDepth then s.(r := RStuck)
    else if s.recvClosed then s.(r := RIdle)
    else s.(recvQ := s.recvQ + [s.r.pt], r := RIdle)
  }

  function PushPong(s: State): State
    requires s.r.RPing?
  {
    if s.stopSend then ReaderEnds(s, Closed)
    else s.(sendQ := s.sendQ + [Outbound(PONG, s.r.pt)], r := RIdle)
  }

  // ---------- deliver thread ----------

  predicate DeliverReady(s: State) { s.d.DIdle? && (s.deliverStop || s.jobs != []) }

  function TakeJob(s: State): State {
    if s.jobs != [] then s.(d := DHold(s.jobs[0]), jobs := s.jobs[1..]) else s.(d := DExit)
  }

  function CallJob(s: State): State
    requires s.d.DHold?
  {
    if s.d.pt == [] then s.(d := DIdle, h := s.h.(skipped := s.h.skipped + 1))
    else s.(d := DIdle, h := s.h.(called := s.h.called + [s.d.pt]))
  }
}
