/** The Conn object: its fields and the body of every critical section, each proved to be the step of
    the same name and to keep the connection's invariant (src/conn.cpp:59-402). */
module Conn {
  import opened Bytes
  import opened Errors
  import opened Protocol
  import opened Session
  import opened ConnState
  import opened Duplex
  import opened DuplexProofs

  class Conn {
    const cfg: Cfg
    const suite: Suite
    const key: bytes

    var sendQ: seq<Outbound>
    var stopSend: bool
    var recvQ: seq<bytes>
    var recvClosed: bool
    var recvErr: Option<ConnErr>
    var msgJobs: seq<bytes>
    var deliverStop: bool
    var callbackDropped: nat
    var closed: bool
    var writeDone: bool
    var readDone: bool

    // where the three threads stand between critical sections
    var writer: Writer
    var reader: Reader
    var deliver: Deliver

    ghost var h: History

    ghost function View(): State
      reads this
    {
      State(sendQ, stopSend, recvQ, recvClosed, recvErr, msgJobs, deliverStop, callbackDropped, writer, reader,
          deliver, h)
    }

    ghost predicate Valid()
      reads this
    {
      && LocalInv(cfg, View())
      && (stopSend ==> closed)
      && (writeDone <==> writer.WExit?)
      && (readDone <==> reader.RExit?)
    }

    constructor (cfg: Cfg, suite: Suite, key: bytes)
      ensures Valid() && View() == FRESH && this.cfg == cfg && this.suite == suite && this.key == key
    {
      this.cfg, this.suite, this.key := cfg, suite, key;
      sendQ, stopSend, recvQ, recvClosed, recvErr := [], false, [], false, None;
      msgJobs, deliverStop, callbackDropped := [], false, 0;
      closed, writeDone, readDone := false, false, false;
      writer, reader, deliver := WIdle, RIdle, DIdle;
      h := FRESH.h;
    }

    /** send_for: `woke` says whether the wait ended before the timeout. */
    method SendFor(payload: bytes, woke: bool) returns (ec: Option<ConnErr>)
      requires Valid() && (woke ==> SendReady(cfg, View()))
      modifies this
      ensures Valid() && closed == old(closed)
      ensures ec == None ==> View() == Enqueue(old(View()), payload)
      ensures ec.Some? ==> View() == old(View())
      ensures ec == if old(closed) then Some(Closed)
                    else if |payload| > cfg.maxMessage then Some(MessageTooLarge)
                    else if !woke then Some(TimedOut)
                    else if old(stopSend) then Some(Closed) else None
    {
      if closed {
        return Some(Closed);
      }
      if |payload| > cfg.maxMessage {
        return Some(MessageTooLarge);
      }
      if !woke {
        return Some(TimedOut);
      }
      if stopSend {
        return Some(Closed);
      }
      ghost var x := View();
      sendQ := sendQ + [Outbound(TEXT, payload)];
      h := h.(accepted := h.accepted + [payload]);
      EnqueueKeeps(cfg, x, Outbound(TEXT, payload), View());
      RxSame(cfg, x, View());
      CbSame(cfg, x, View());
      ec := None;
    }

    /** receive_for: a stuck reader owns the mutex, so the call cannot proceed then. */
    method ReceiveFor(woke: bool) returns (r: Result<bytes, ConnErr>)
      requires Valid() && (woke && !cfg.callback ==> ReceiveReady(View()) && !reader.RStuck?)
      modifies this
      ensures Valid() && closed == old(closed)
      ensures r.Ok? ==> old(recvQ) != [] && r.value == old(recvQ)[0] && View() == Pop(old(View()))
      ensures r.Err? ==> View() == old(View())
      ensures r.Ok? <==> !cfg.callback && woke && old(recvQ) != []
      ensures r.Err? ==> r.error == if cfg.callback then ReceiveDisabled
                                    else if !woke then TimedOut
                                    else if recvErr.Some? then recvErr.value else Closed
    {
      if cfg.callback {
        return Err(ReceiveDisabled);
      }
      if !woke {
        return Err(TimedOut);
      }
      if recvQ != [] {
        PopKeeps(cfg, View());
        r := Ok(recvQ[0]);
        h := h.(returned := h.returned + [recvQ[0]]);
        recvQ := recvQ[1..];
        return;
      }
      r := Err(if recvErr.Some? then recvErr.value else Closed);
    }

    /** The first critical section of shutdown; only the first caller gets past the flag. */
    method BeginShutdown() returns (ec: Option<ConnErr>)
      requires Valid()
      modifies this
      ensures Valid() && closed
      ensures old(closed) ==> ec == Some(Closed) && View() == old(View())
      ensures !old(closed) ==> ec == None && View() == StopSending(old(View()))
    {
      if closed {
        return Some(Closed);
      }
      closed := true;
      stopSend := true;
      ec := None;
    }

    /** The second critical section of shutdown. */
    method StopDeliverThread()
      requires Valid()
      modifies this
      ensures Valid() && closed == old(closed) && View() == StopDelivery(old(View()))
    {
      deliverStop := true;
    }

    // ---------- writer thread ----------

    method WriterWakes()
      requires Valid() && writer.WIdle? && (stopSend || sendQ != [])
      modifies this
      ensures Valid() && closed == old(closed) && View() == WakeWriter(old(View()))
    {
      ghost var x := View();
      WakeKeeps(cfg, x);
      if sendQ != [] {
        writer := WHold(sendQ[0]);
        sendQ := sendQ[1..];
      } else {
        writer := WFlush;
      }
      RxSame(cfg, x, View());
      CbSame(cfg, x, View());
    }

    /** One turn of the inner drain loop: it only ever finds the queue empty. */
    method WriterDrains()
      requires Valid() && writer.WFlush?
      modifies this
      ensures Valid() && closed == old(closed) && View() == DrainWriter(old(View())) && writer.WClosing?
    {
      ghost var x := View();
      DrainKeeps(cfg, x);
      assert sendQ == [];  // so the source's branch that pops one more message is never taken
      writer := WClosing;
      RxSame(cfg, x, View());
      CbSame(cfg, x, View());
    }

    /** What reaches the stream of a sealed message when it takes `room` more bytes. */
    function Sealed(o: Outbound, nonce: bytes, room: nat): bytes {
      match Seal(suite, key, nonce, o.pt)
      case Ok(b) => Upto(RecordBytes(Record(o.typ, b)), room)
      case Err(_) => []
    }

    /** write_out: seal, then put the record on the stream. */
    method WriteOut(stream: ByteStream, out: Outbound, nonce: bytes) returns (ok: bool)
      requires |nonce| == NONCE && SealsRight(suite)
      modifies stream
      ensures stream.input == old(stream.input)
      ensures ok <==> |out.pt| <= MAX_PLAIN && 33 + |out.pt| <= old(stream.room)
      ensures stream.output == old(stream.output) + Sealed(out, nonce, old(stream.room))
    {
      var sealed := Seal(suite, key, nonce, out.pt);
      if sealed.Err? {
        return false;
      }
      OpenSeal(suite, key, nonce, out.pt);
      var ec := WriteRecord(stream, Record(out.typ, sealed.value));
      ok := ec == None;
    }

    /** The writer puts out whatever it holds, the Close message at the end, and moves on or gives up. */
    method WriterWrites(stream: ByteStream, nonce: bytes) returns (ok: bool)
      requires Valid() && Writing(View()) && |nonce| == NONCE && SealsRight(suite)
      modifies this, stream
      ensures Valid() && closed == old(closed) && stream.input == old(stream.input)
      ensures ok <==> |InHand(old(View())).pt| <= MAX_PLAIN && 33 + |InHand(old(View())).pt| <= old(stream.room)
      ensures View() == if ok then Wrote(old(View())) else WriteFailed(old(View()))
      ensures stream.output == old(stream.output) + Sealed(InHand(old(View())), nonce, old(stream.room))
    {
      hide SealsRight, Sealed;
      var out := if writer.WClosing? then Outbound(CLOSE, []) else writer.out;
      ok := WriteOut(stream, out, nonce);
      if ok {
        WriterAdvances(out);
      } else {
        WriterGivesUp(out);
      }
    }

    method WriterAdvances(out: Outbound)
      requires Valid() && Writing(View()) && out == InHand(View())
      modifies this
      ensures Valid() && closed == old(closed) && View() == Wrote(old(View()))
    {
      assert !writer.WDrain?;
      hide TxInv, RxInv, CbInv;
      ghost var x := View();
      WroteKeeps(cfg, x);
      RxSame(cfg, x, Wrote(x));
      CbSame(cfg, x, Wrote(x));
      h := h.(written := h.written + [out]);
      if writer.WHold? {
        writer := WIdle;
      } else {
        writer, writeDone := WExit([]), true;
      }
    }

    method WriterGivesUp(out: Outbound)
      requires Valid() && Writing(View()) && out == InHand(View())
      modifies this
      ensures Valid() && closed == old(closed) && View() == WriteFailed(old(View()))
    {
      hide TxInv, RxInv, CbInv;
      ghost var x := View();
      WriteFailedKeeps(cfg, x);
      RxSame(cfg, x, WriteFailed(x));
      CbSame(cfg, x, WriteFailed(x));
      writer, writeDone := WExit([out]), true;
    }

    // ---------- reader thread ----------

    /** abort_recv, as the last thing the reader does. */
    method EndReader(err: ConnErr)
      requires LocalInv(cfg, View()) && reader.RIdle?
      modifies this`recvClosed, this`recvErr, this`reader, this`readDone
      ensures View() == ReaderEnds(old(View()), err) && LocalInv(cfg, View()) && readDone
    {
      ReaderEndsKeeps(cfg, View(), err);
      if !recvClosed {
        recvClosed := true;
        recvErr := Some(err);
      }
      reader, readDone := RExit, true;
    }

    /** A text message: refused, queued for the callback, dropped, or kept in hand for the queue. */
    method TextArrives(pt: bytes)
      requires reader.RIdle? && !recvClosed && !readDone
      modifies this
      ensures View() == OnText(cfg, old(View()), pt)
      ensures closed == old(closed) && writeDone == old(writeDone) && (readDone <==> reader.RExit?)
    {
      if |pt| > cfg.maxMessage {
        recvClosed, recvErr, reader, readDone := true, Some(MessageTooLarge), RExit, true;
      } else if cfg.callback {
        if |msgJobs| >= cfg.jobsDepth {
          if cfg.disconnectSlow {
            h := h.(slow := h.slow + 1);
            recvClosed, recvErr, reader, readDone := true, Some(SlowConsumer), RExit, true;
          } else {
            callbackDropped := callbackDropped + 1;
          }
        } else {
          msgJobs := msgJobs + [pt];
        }
      } else {
        reader := RText(pt);
      }
    }

    /** The switch of read_loop on the message type. */
    method Switch(typ: byte, pt: bytes)
      requires reader.RIdle? && !recvClosed && !readDone
      modifies this
      ensures View() == OnMessage(cfg, old(View()), typ, pt)
      ensures closed == old(closed) && writeDone == old(writeDone) && (readDone <==> reader.RExit?)
    {
      h := h.(consumed := h.consumed + [Outbound(typ, pt)]);
      if typ == TEXT {
        TextArrives(pt);
      } else if typ == PING {
        reader := RPing(pt);
      } else if typ != PONG {
        recvClosed, recvErr := true, Some(if typ == CLOSE then Closed else BadRecord);
        reader, readDone := RExit, true;
      }
    }

    /** The dispatch on a message that opened to `pt`. */
    method Dispatch(typ: byte, pt: bytes)
      requires Valid() && reader.RIdle?
      modifies this
      ensures Valid() && closed == old(closed) && View() == OnMessage(cfg, old(View()), typ, pt)
    {
      MessageKeeps(cfg, View(), typ, pt);
      MessageFrame(cfg, View(), typ, pt);
      Switch(typ, pt);
    }

    /** One turn of read_loop up to the dispatch. */
    method ReadMessage(stream: ByteStream)
      requires Valid() && reader.RIdle?
      modifies this, stream
      ensures Valid() && closed == old(closed) && stream.output == old(stream.output)
      ensures match Parse(old(stream.input))
              case Short => View() == ReaderEnds(old(View()), Closed)
              case Malformed => View() == ReaderEnds(old(View()), BadRecord)
              case Got(rec, rest) =>
                stream.input == rest
                && match Open(suite, key, rec.sealed)
                   case Err(e) => View() == ReaderEnds(old(View()), e)
                   case Ok(pt) => View() == OnMessage(cfg, old(View()), rec.typ, pt)
    {
      var r := ReadRecord(stream);
      if r.Err? {
        EndReader(r.error);
        return;
      }
      var pt := Open(suite, key, r.value.sealed);
      if pt.Err? {
        EndReader(pt.error);
        return;
      }
      Dispatch(r.value.typ, pt.value);
    }

    /** The reader hands a text to the receive queue once the wait is over. */
    method PushToQueue()
      requires Valid() && PushReady(cfg, View())
      modifies this
      ensures Valid() && closed == old(closed) && View() == PushText(cfg, old(View()))
    {
      PushKeeps(cfg, View());
      if stopSend && |recvQ| >= cfg.recvDepth {
        // abort_recv locks the mutex this thread already holds
        reader := RStuck;
      } else {
        if !recvClosed {
          recvQ := recvQ + [reader.pt];
        }
        reader := RIdle;
      }
    }

    /** The reader answers a ping once the wait is over. */
    method ReplyPong()
      requires Valid() && reader.RPing? && SendReady(cfg, View())
      modifies this
      ensures Valid() && closed == old(closed) && View() == PushPong(old(View()))
    {
      hide TxInv, RxInv, CbInv;
      ghost var want := PushPong(View());
      PongKeeps(cfg, View());
      if stopSend {
        if !recvClosed {
          recvClosed, recvErr := true, Some(Closed);
        }
        reader, readDone := RExit, true;
      } else {
        sendQ := sendQ + [Outbound(PONG, reader.pt)];
        reader := RIdle;
      }
      assert View() == want;
    }

    // ---------- deliver thread ----------

    method DeliverTakes()
      requires Valid() && cfg.callback && DeliverReady(View())
      modifies this
      ensures Valid() && closed == old(closed) && View() == TakeJob(old(View()))
    {
      TakeJobKeeps(cfg, View());
      if msgJobs != [] {
        deliver := DHold(msgJobs[0]);
        msgJobs := msgJobs[1..];
      } else {
        deliver := DExit;
      }
    }

    method DeliverCalls() returns (call: Option<bytes>)
      requires Valid() && deliver.DHold?
      modifies this
      ensures Valid() && closed == old(closed) && View() == CallJob(old(View()))
      ensures call == if old(deliver).pt == [] then None else Some(old(deliver).pt)
    {
      CallJobKeeps(cfg, View());
      if deliver.pt != [] {
        call := Some(deliver.pt);
        h := h.(called := h.called + [deliver.pt]);
      } else {
        call := None;
        h := h.(skipped := h.skipped + 1);
      }
      deliver := DIdle;
    }
  }
}
