/** The stream context as the program keeps it: one object whose fields every call updates in place, proved
    against TcpStream. */
module TcpEndpoint {
  import opened TcpScript
  import opened TcpStream
  import opened Words

  class StreamCtx {
    var cfg: Script
    var peer: Peer
    var curAction: nat
    var state: State
    var expired: bool
    var newData: bool
    var ended: bool
    var gotSyn: bool
    var gotFin: bool
    var moreData: bool
    var lastRxPktMadeProgress: bool
    var sameState: nat
    var nextSeq: u32
    var ackdSeq: u32
    var recvSeq: u32
    var ackableDataSeq: u32
    var seqFirstByte: u32
    var otherSeqFirstByte: u32
    var otherMss: u32
    var retransmits: nat
    /** Whether the last call asked for a timer. */
    var timer: bool
    ghost var accepted: seq<byte>
    ghost var high: u32

    ghost function View(): Ctx
      reads this
    {
      Ctx(Core(peer, state, curAction, Tx(nextSeq, ackdSeq, ackableDataSeq, seqFirstByte, high),
               Rx(recvSeq, otherSeqFirstByte, otherMss, gotSyn, gotFin, accepted)),
          Book(sameState, retransmits, expired, ended, newData, moreData, lastRxPktMadeProgress, timer))
    }

    /** memset and stream_ctx_init */
    constructor (cfg: Script, peer: Peer)
      ensures View() == InitCtx(peer) && this.cfg == cfg
    {
      this.cfg, this.peer, curAction := cfg, peer, 0;
      state := if peer == Client then CLOSED else LISTEN;
      expired, newData, ended, gotSyn, gotFin := false, false, false, false, false;
      moreData, lastRxPktMadeProgress := false, false;
      sameState, retransmits := 0, 0;
      nextSeq, ackdSeq, recvSeq, ackableDataSeq, seqFirstByte, otherSeqFirstByte := 0, 0, 0, 0, 0, 0;
      otherMss := DEFAULT_MSS;
      timer := peer == Client;
      accepted, high := [], 0;
    }

    method ZeroSent()
      modifies `nextSeq, `seqFirstByte, `high
      ensures View() == old(View()).(core := old(View().core).(tx := old(View().core.tx).(next := 0, first := 0, high := 0)))
    {
      nextSeq, seqFirstByte, high := 0, 0, 0;
    }

    method ZeroTx()
      modifies `curAction, `nextSeq, `ackdSeq, `ackableDataSeq, `seqFirstByte, `high
      ensures View() == old(View()).(core := old(View().core).(act := 0, tx := Tx(0, 0, 0, 0, 0)))
    {
      ZeroSent();
      curAction, ackdSeq, ackableDataSeq := 0, 0, 0;
    }

    method ZeroRx()
      modifies `recvSeq, `otherSeqFirstByte, `gotSyn, `gotFin, `accepted
      ensures View() == old(View()).(core := old(View().core).(rx := Rx(0, 0, old(otherMss), false, false, [])))
    {
      recvSeq, otherSeqFirstByte, gotSyn, gotFin, accepted := 0, 0, false, false, [];
    }

    method ZeroBook()
      modifies `sameState, `retransmits, `expired, `newData, `ended, `moreData, `lastRxPktMadeProgress
      ensures View() == old(View()).(book := Book(0, 0, false, false, false, false, false, old(timer)))
    {
      sameState, retransmits := 0, 0;
      ZeroFlags();
    }

    method ZeroFlags()
      modifies `expired, `newData, `ended, `moreData, `lastRxPktMadeProgress
      ensures View() == old(View()).(book := Book(old(sameState), old(retransmits), false, false, false, false, false,
            old(timer)))
    {
      expired, ended := false, false;
      ZeroProgress();
    }

    method ZeroProgress()
      modifies `newData, `moreData, `lastRxPktMadeProgress
      ensures View() == old(View()).(book := old(View().book).(newData := false, moreData := false, progress := false))
    {
      newData, moreData, lastRxPktMadeProgress := false, false, false;
    }

    /** stream_ctx_reset_move: memset and stream_ctx_init for the next stream of the bundle. The bundle's timer is as it
        was: whether it is started is up to the bundle. */
    method ResetMove(next: Script)
      modifies this
      ensures View() == InitCtx(old(peer)).(book := InitCtx(old(peer)).book.(armed := old(timer))) && cfg == next
    {
      ZeroTx();
      ZeroRx();
      ZeroBook();
      cfg := next;
      state := if peer == Client then CLOSED else LISTEN;
      otherMss := DEFAULT_MSS;
    }

    // ---- receiving ----

    /** A payload that follows the script. */
    method Accept(payload: seq<byte>)
      requires |payload| < WORD
      modifies `recvSeq, `accepted, `newData
      ensures View() == Ctx(old(View().core).(rx := old(View().core.rx).(
                              recv := Add32(old(recvSeq), |payload|), accepted := old(accepted) + payload)),
                            old(View().book).(newData := true))
    {
      recvSeq := Add32(recvSeq, |payload|);
      accepted := accepted + payload;
      newData := true;
    }

    method ProcInOrderData(payload: seq<byte>) returns (progress: bool)
      modifies `recvSeq, `accepted, `curAction, `newData
      ensures cfg == old(cfg)
      ensures progress == Judge(cfg, old(View().core), payload).Good?
      ensures View() == Ctx(DataIn(cfg, old(View().core), payload),
                            old(View().book).(newData := old(newData) || progress))
    {
      progress := false;
      if |payload| == 0 {
        return;
      }
      var act := cfg.ActionAt(curAction);
      var seqBeg := Sub32(recvSeq, otherSeqFirstByte);
      var end := Add32(act.beg, act.len);
      var remaining := Sub32(end, seqBeg);
      if |payload| <= remaining {
        if cfg.Bytes(act.peer, seqBeg, |payload|) == payload {
          Accept(payload);
          if Add32(seqBeg, |payload|) == end {
            curAction := curAction + 1;
          }
          progress := true;
        }
      }
    }

    method ProcInAck(p: Segment) returns (progress: bool)
      modifies this
      ensures cfg == old(cfg)
      ensures progress == AckProgress(old(View().core), p)
      ensures View() == old(View()).(core := AckIn(old(View().core), p))
    {
      progress := false;
      if p.ack {
        if p.ackNo > ackdSeq {
          ackdSeq := p.ackNo;
          if ackableDataSeq == ackdSeq {
            if nextSeq < ackableDataSeq {
              nextSeq := ackableDataSeq;
            }
            ackableDataSeq := 0;
            curAction := curAction + 1;
          }
          progress := true;
        }
      }
    }

    /** The part of stream_tcp_proc_in that updates recv_seq. */
    method ProcInSeq(p: Segment) returns (progress: bool)
      modifies this
      ensures cfg == old(cfg)
      ensures progress == SeqProgress(cfg, old(View().core), p)
      ensures View() == Ctx(SeqIn(cfg, old(View().core), p),
                            old(View().book).(newData := old(newData) || DataProgress(cfg, old(View().core), p)))
    {
      progress := false;
      if p.syn {
        recvSeq := Add32(p.seqNo, 1);
        otherSeqFirstByte := Add32(p.seqNo, 1);
        progress := true;
      } else if p.fin {
        if recvSeq == p.seqNo {
          recvSeq := Add32(p.seqNo, 1);
          progress := true;
        }
      } else {
        if recvSeq == p.seqNo {
          progress := ProcInOrderData(p.payload);
        }
      }
    }

    /** The flags set before anything else is looked at. */
    method ProcInFlags(p: Segment)
      modifies this
      ensures cfg == old(cfg)
      ensures View() == old(View()).(core := FlagsIn(old(View().core), p))
    {
      if p.syn {
        gotSyn := true;
      }
      if p.fin {
        gotFin := true;
      }
    }

    /** The last part of stream_tcp_proc_in: options and the progress flag. */
    method ProcInEnd(p: Segment, progress: bool)
      modifies this
      ensures cfg == old(cfg)
      ensures View() == Ctx(OptionsIn(old(View().core), p),
                            old(View().book).(same := if progress then 0 else old(sameState), progress := progress))
    {
      if p.mssOption != 0 {
        otherMss := p.mssOption;
      }
      if progress {
        sameState := 0;
        lastRxPktMadeProgress := true;
      } else {
        lastRxPktMadeProgress := false;
      }
    }

    /** stream_tcp_proc_in; true means a RST ended the stream. */
    method ProcIn(p: Segment) returns (reset: bool)
      modifies this
      ensures cfg == old(cfg)
      ensures reset == p.rst
      ensures View() == TcpStream.ProcIn(cfg, old(View()), p)
    {
      ProcInFlags(p);
      if p.rst {
        ended := true;
        return true;
      }
      var progressAck := ProcInAck(p);
      var progressSeq := ProcInSeq(p);
      ProcInEnd(p, progressAck || progressSeq);
      reset := false;
    }

    // ---- sending ----

    /** create_tcp_pkt, and the timer every caller then starts */
    method Create(kind: Kind, dataBeg: u32, dataLen: u32) returns (pkt: seq<Segment>)
      modifies `seqFirstByte, `nextSeq, `high, `timer
      ensures cfg == old(cfg)
      ensures Out(View(), pkt) == Send(cfg, old(View().core), old(View().book), kind, dataBeg, dataLen)
    {
      hide Script.Bytes, Script.ActionAt, Script.Content;
      var seqLen: u32 := 0;
      var mss: u32 := 0;
      if kind == RST {
        seqLen := 1;
      } else if kind == SYN || kind == SYNACK {
        mss := MSS;
        seqLen := 1;
        seqFirstByte := Add32(ackdSeq, 1);
      } else if kind == FINACK {
        seqLen := 1;
      }
      var hasAck := kind != RST && kind != SYN;
      if dataLen != 0 {
        seqLen := dataLen;
      }
      pkt := [Segment(kind == SYN || kind == SYNACK, hasAck, kind == FINACK, kind == RST, nextSeq,
                      if hasAck then recvSeq else 0, cfg.Bytes(cfg.ActionAt(curAction).peer, dataBeg, dataLen), mss)];
      Advance(seqLen);
    }

    /** Sequence numbers are used up, and the timer is started. */
    method Advance(seqLen: u32)
      modifies `nextSeq, `high, `timer
      ensures View() == (var next := Add32(old(nextSeq), seqLen);
              Ctx(old(View().core).(tx := old(View().core.tx).(next := next, high := Max(old(high), next))),
                  old(View().book).(armed := true)))
    {
      nextSeq := Add32(nextSeq, seqLen);
      high := Max(high, nextSeq);
      timer := true;
    }

    method CountRetransmit()
      modifies this
      ensures cfg == old(cfg)
      ensures View() == old(View()).(book := Retransmit(old(View().book)))
    {
      sameState := sameState + 1;
      retransmits := retransmits + 1;
    }

    /** The initial sequence number. */
    method StartAt(seqNo: u32)
      modifies this
      ensures cfg == old(cfg)
      ensures View() == old(View()).(core := old(View().core).(tx := old(View().core.tx).(next := seqNo, ackd := seqNo)))
    {
      nextSeq, ackdSeq := seqNo, seqNo;
    }

    /** Sending starts again after the last byte acknowledged, and that counts as a retransmission. */
    method GoBack()
      modifies this
      ensures cfg == old(cfg)
      ensures View() == Ctx(Rewind(old(View().core)), Retransmit(old(View().book)))
    {
      CountRetransmit();
      nextSeq := ackdSeq;
    }

    /** A new state, with its retransmissions counted afresh, is entered and announced. */
    method EnterWith(st: State, kind: Kind) returns (pkt: seq<Segment>)
      modifies this
      ensures cfg == old(cfg)
      ensures Out(View(), pkt) == Send(cfg, old(View().core).(st := st), old(View().book).(same := 0), kind, 0, 0)
    {
      sameState := 0;
      state := st;
      pkt := Create(kind, 0, 0);
    }

    method ProcOutClosed(e: Env) returns (pkt: seq<Segment>)
      modifies this
      ensures cfg == old(cfg)
      ensures Out(View(), pkt) == OutClosed(cfg, old(View().core), old(View().book), e)
    {
      if !e.full {
        timer := true;
        return [];
      }
      state := SYN_SENT;
      StartAt(99);
      pkt := Create(SYN, 0, 0);
    }

    method ProcOutListen(e: Env) returns (pkt: seq<Segment>)
      modifies this
      ensures cfg == old(cfg)
      ensures Out(View(), pkt) == OutListen(cfg, old(View().core), old(View().book), e)
    {
      if !e.full {
        timer := true;
        return [];
      }
      if !gotSyn {
        ended := true;
        pkt := Create(RST, 0, 0);
        return;
      }
      StartAt(200);
      state := SYN_RECEIVED;
      pkt := Create(SYNACK, 0, 0);
    }

    method ProcOutSynSent(e: Env) returns (pkt: seq<Segment>)
      modifies this
      ensures cfg == old(cfg)
      ensures Out(View(), pkt) == OutSynSent(cfg, old(View().core), old(View().book), e)
    {
      if !e.full {
        timer := true;
        return [];
      }
      if ackdSeq < nextSeq || !gotSyn {
        CountRetransmit();
        pkt := ProcOutClosed(e);
        return;
      }
      sameState := 0;
      state := ESTABLISHED;
      if cfg.ActionAt(curAction).peer == peer {
        timer := true;
        pkt := [];
      } else {
        pkt := Create(ACK, 0, 0);
      }
    }

    method ProcOutSynRecv(e: Env) returns (pkt: seq<Segment>)
      modifies this
      ensures cfg == old(cfg)
      ensures Out(View(), pkt) == OutSynReceived(cfg, old(View().core), old(View().book), e)
    {
      if !e.full {
        timer := true;
        return [];
      }
      if ackdSeq == nextSeq {
        sameState := 0;
        state := ESTABLISHED;
        if cfg.ActionAt(curAction).peer != peer {
          pkt := Create(ACK, 0, 0);
        } else {
          timer := true;
          pkt := [];
        }
      } else {
        GoBack();
        pkt := Create(SYNACK, 0, 0);
      }
    }

    /** The end of stream_tcp_proc_out_estab_tx: the next segment of the current action. */
    method SendSegment() returns (pkt: seq<Segment>)
      modifies this
      ensures cfg == old(cfg)
      ensures Out(View(), pkt) == SendData(cfg, old(View().core), old(View().book))
    {
      var act := cfg.ActionAt(curAction);
      var dataBeg := Sub32(nextSeq, seqFirstByte);
      var remainingLen := Sub32(act.len, Sub32(dataBeg, act.beg));
      var dataLen := if remainingLen > otherMss then otherMss else remainingLen;
      moreData := remainingLen > otherMss;
      pkt := Create(ACK, dataBeg, dataLen);
    }

    /** The part of stream_tcp_proc_out_estab_tx for an end whose window is full or that has sent its whole action. */
    method NothingToSend(e: Env) returns (pkt: seq<Segment>)
      modifies this
      ensures cfg == old(cfg)
      ensures Out(View(), pkt) == (var k, b := old(View().core), old(View().book);
        if b.moreData then Wait(k, b.(moreData := false))
        else if b.progress && !e.otherFull then Wait(k, b.(progress := false))
        else if !e.timedOut then Wait(k, b)
        else SendData(cfg, Rewind(k), Retransmit(b)))
    {
      if moreData {
        moreData := false;
        timer := true;
        return [];
      }
      if lastRxPktMadeProgress && !e.otherFull {
        lastRxPktMadeProgress := false;
        timer := true;
        return [];
      }
      if !e.timedOut {
        timer := true;
        return [];
      }
      GoBack();
      pkt := SendSegment();
    }

    method Begin()
      modifies this
      ensures cfg == old(cfg)
      ensures View() == old(View()).(core := TcpStream.Begin(cfg, old(View().core)))
    {
      if ackableDataSeq == 0 {
        ackableDataSeq := Add32(nextSeq, cfg.ActionAt(curAction).len);
      }
    }

    method ProcOutEstabTx(e: Env) returns (pkt: seq<Segment>)
      modifies this
      ensures cfg == old(cfg)
      ensures Out(View(), pkt) == OutEstablishedTx(cfg, old(View().core), old(View().book), e)
    {
      if !e.full {
        timer := true;
        return [];
      }
      var act := cfg.ActionAt(curAction);
      if act.len == 0 {
        pkt := EnterWith(FIN_WAIT, FINACK);
        return;
      }
      var outstandingBytes := Sub32(nextSeq, ackdSeq);
      var remainingLen2 := Sub32(act.len, Sub32(Sub32(nextSeq, seqFirstByte), act.beg));
      if outstandingBytes <= RX_WINDOW && remainingLen2 != 0 {
        Begin();
        pkt := SendSegment();
        return;
      }
      pkt := NothingToSend(e);
    }

    method ProcOutEstabRx(e: Env) returns (pkt: seq<Segment>)
      modifies this
      ensures cfg == old(cfg)
      ensures Out(View(), pkt) == OutEstablishedRx(cfg, old(View().core), old(View().book), e)
    {
      if !e.full {
        timer := true;
        return [];
      }
      if gotFin {
        state := LAST_ACK;
        pkt := Create(FINACK, 0, 0);
        return;
      }
      if newData {
        newData := false;
      } else {
        CountRetransmit();
      }
      pkt := Create(ACK, 0, 0);
    }

    method ProcOutCloseWait(e: Env) returns (pkt: seq<Segment>)
      modifies this
      ensures cfg == old(cfg)
      ensures Out(View(), pkt) == OutCloseWait(cfg, old(View().core), old(View().book), e)
    {
      if !e.full {
        timer := true;
        return [];
      }
      state := LAST_ACK;
      pkt := Create(FINACK, 0, 0);
    }

    method ProcOutLastAck(e: Env) returns (pkt: seq<Segment>)
      modifies this
      ensures cfg == old(cfg)
      ensures Out(View(), pkt) == OutLastAck(cfg, old(View().core), old(View().book), e)
    {
      if ackdSeq == nextSeq {
        ended := true;
        return [];
      }
      if !e.full {
        timer := true;
        return [];
      }
      if lastRxPktMadeProgress {
        lastRxPktMadeProgress := false;
        timer := true;
        return [];
      }
      GoBack();
      pkt := Create(FINACK, 0, 0);
    }

    method ProcOutFinWait(e: Env) returns (pkt: seq<Segment>)
      modifies this
      ensures cfg == old(cfg)
      ensures Out(View(), pkt) == OutFinWait(cfg, old(View().core), old(View().book), e)
    {
      if !e.full {
        timer := true;
        return [];
      }
      if ackdSeq == nextSeq {
        if gotFin {
          pkt := EnterWith(TIME_WAIT, ACK);
        } else {
          timer := true;
          pkt := [];
        }
        return;
      }
      if lastRxPktMadeProgress {
        lastRxPktMadeProgress := false;
        timer := true;
        return [];
      }
      GoBack();
      pkt := Create(FINACK, 0, 0);
    }

    method ProcOutTimeWait(e: Env) returns (pkt: seq<Segment>)
      modifies this
      ensures cfg == old(cfg)
      ensures Out(View(), pkt) == OutTimeWait(cfg, old(View().core), old(View().book), e)
    {
      if e.timeWaitOver {
        ended := true;
        return [];
      }
      if !e.full {
        timer := true;
        return [];
      }
      pkt := Create(ACK, 0, 0);
    }

    method ProcOut(e: Env) returns (pkt: seq<Segment>)
      modifies this
      ensures cfg == old(cfg)
      ensures Out(View(), pkt) == TcpStream.ProcOut(cfg, old(View()), e)
    {
      if sameState == MAX_SAME_STATE {
        expired := true;
        return [];
      }
      match state {
        case CLOSED => pkt := ProcOutClosed(e);
        case LISTEN => pkt := ProcOutListen(e);
        case SYN_SENT => pkt := ProcOutSynSent(e);
        case SYN_RECEIVED => pkt := ProcOutSynRecv(e);
        case ESTABLISHED =>
          if cfg.ActionAt(curAction).peer == peer {
            pkt := ProcOutEstabTx(e);
          } else {
            pkt := ProcOutEstabRx(e);
          }
        case CLOSE_WAIT => pkt := ProcOutCloseWait(e);
        case LAST_ACK => pkt := ProcOutLastAck(e);
        case FIN_WAIT => pkt := ProcOutFinWait(e);
        case TIME_WAIT => pkt := ProcOutTimeWait(e);
      }
    }

    /** stream_tcp_proc. The caller has removed the pending timer. */
    method Proc(i: Input, e: Env) returns (pkt: seq<Segment>)
      modifies this
      ensures cfg == old(cfg)
      ensures Out(View(), pkt) == TcpStream.Proc(cfg, old(View()), i, e)
    {
      timer := false;
      if i.Packet? {
        var reset := ProcIn(i.p);
        if reset {
          return [];
        }
      }
      pkt := ProcOut(e);
    }
  }
}
