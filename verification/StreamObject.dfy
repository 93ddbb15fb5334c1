/** The logical flow as the peer keeps it: one object whose fields the frame
    handler and the endpoint loops update in place.  Each method is proved to do
    what the corresponding function of StreamFlow says. */
module StreamObject {
  import opened StreamFlow
  import opened StreamLaws

  /** One turn of the loop that drops acknowledged segments. */
  lemma UnackedStep(all: seq<Segment>, i: nat, offset: nat, keep: seq<Segment>)
    requires i < |all|
    ensures var s := all[i];
            && SeqCost(all[i..]) == |s.data| + SEGMENT_OVERHEAD + SeqCost(all[i + 1..])
            && SeqCost(keep + [s]) == SeqCost(keep) + |s.data| + SEGMENT_OVERHEAD
            && keep + Unacked(all[i..], offset) ==
               (if s.offset + |s.data| <= offset then keep else keep + [s]) + Unacked(all[i + 1..], offset)
  {
    var s := all[i];
    assert all[i..][0] == s && all[i..][1..] == all[i + 1..];
    SeqCostConcat(keep, [s]);
    assert keep + ([s] + Unacked(all[i + 1..], offset)) == keep + [s] + Unacked(all[i + 1..], offset);
  }

  class LogicalFlow {
    var isOpen: bool
    var ending: Ending
    var next: nat
    var acked: nat
    var window: nat
    var pending: seq<Segment>
    var sendBytes: int
    var readEOF: bool
    var finACK: bool
    var recv: map<nat, Segment>
    var ready: seq<Segment>
    var recvNext: nat
    var consumed: nat
    var recvBytes: int
    var recvFIN: bool
    var finOffset: nat
    var finApplied: bool

    ghost function Receiving(): Receiver
      reads this
    {
      Receiver(recv, ready, recvNext, consumed, recvBytes, recvFIN, finOffset, finApplied)
    }

    ghost function View(): Flow
      reads this
    {
      Flow(isOpen, ending, Sender(next, acked, window, pending, sendBytes, readEOF, finACK), Receiving())
    }

    ghost predicate Valid()
      reads this
    {
      Sound(Receiving())
    }

    constructor ()
      ensures Valid() && View() == NEW_FLOW
    {
      isOpen, ending := false, Running;
      next, acked, window, pending, sendBytes, readEOF, finACK := 0, 0, 0, [], 0, false, false;
      recv, ready, recvNext, consumed, recvBytes := map[], [], 0, 0, 0;
      recvFIN, finOffset, finApplied := false, 0, false;
    }

    method Finish(reason: Reason)
      requires Valid()
      modifies this`ending
      ensures Valid() && View() == Close(old(View()), reason)
    {
      if ending.Running? {
        ending := Closed(reason);
      }
    }

    /** The scan over the held segments, which Go visits in no fixed order. */
    method Scan(m: Segment) returns (duplicate: bool, conflict: bool)
      requires Valid()
      ensures duplicate == Duplicate(Receiving(), m)
      ensures !duplicate ==> conflict == Conflict(Receiving(), m)
    {
      var rest := recv.Keys;
      while rest != {}
        invariant rest <= recv.Keys
        invariant forall o :: o in recv && o !in rest ==>
                    !(m.offset == o && |m.data| == |recv[o].data|) && !Meets(m, recv[o])
        decreases |rest|
      {
        var o :| o in rest;
        if m.offset == o && |m.data| == |recv[o].data| {
          return true, false;
        }
        if m.offset < o + |recv[o].data| && o < m.offset + |m.data| {
          ConflictIsNoDuplicate(Receiving(), m, o);
          return false, true;
        }
        rest := rest - {o};
      }
      return false, false;
    }

    /** Returns whether an acknowledgement is due. */
    method HandleData(frame: Segment, flowBytes: nat, free: int) returns (ack: bool)
      requires Valid() && ending.Running? && recvBytes <= flowBytes
      modifies this
      ensures Valid() && recvBytes <= flowBytes
      ensures View() == OnData(old(View()), frame, flowBytes, free)
      ensures DataLaw(old(View()), View(), frame, flowBytes, free)
      ensures ack == ending.Running?
    {
      ghost var f := View();
      ack := TakeData(frame, flowBytes, free);
      DataMeans(f, frame, flowBytes, free);
    }

    method TakeData(frame: Segment, flowBytes: nat, free: int) returns (ack: bool)
      requires Valid() && ending.Running? && recvBytes <= flowBytes
      modifies this
      ensures Valid() && recvBytes <= flowBytes
      ensures View() == OnData(old(View()), frame, flowBytes, free)
      ensures ack == ending.Running?
    {
      DataKeepsSound(View(), frame, flowBytes, free);
      if !isOpen || |frame.data| == 0 || |frame.data| > CHUNK || frame.offset + |frame.data| >= TWO64 {
        Finish(InvalidFrame);
        return false;
      }
      var end := frame.offset + |frame.data|;
      if recvFIN && end > finOffset {
        Finish(BeyondFinish);
        return false;
      }
      if end <= recvNext {
        return true;
      }
      var m := frame;
      if frame.offset < recvNext {
        m := Segment(recvNext, frame.data[recvNext - frame.offset..]);
      }
      if m.End() > (consumed + flowBytes) % TWO64 {
        return true;
      }
      var duplicate, conflict := Scan(m);
      if duplicate {
        return true;
      }
      if conflict {
        Finish(Overlap);
        return false;
      }
      var cost := |m.data| + SEGMENT_OVERHEAD;
      if recvBytes + cost > flowBytes || cost > free {
        return true;
      }
      Keep(m);
      return true;
    }

    method Keep(m: Segment)
      modifies this`recv, this`ready, this`recvNext, this`recvBytes
      ensures Receiving() == Store(old(Receiving()), m)
    {
      recv := recv[m.offset := m];
      recvBytes := recvBytes + |m.data| + SEGMENT_OVERHEAD;
      Advance();
    }

    method Advance()
      modifies this`recv, this`ready, this`recvNext
      ensures Receiving() == Drain(old(Receiving()))
    {
      while recvNext in recv
        invariant Drain(Receiving()) == Drain(old(Receiving()))
        decreases |recv|
      {
        var s := recv[recvNext];
        recv := recv - {recvNext};
        recvNext := recvNext + |s.data|;
        ready := ready + [s];
      }
    }

    method HandleAck(offset: nat, credit: nat, flowBytes: nat)
      requires Valid() && ending.Running?
      modifies this
      ensures Valid() && View() == OnAck(old(View()), offset, credit, flowBytes)
      ensures AckLaw(old(View()), View(), offset, credit, flowBytes)
    {
      ghost var f := View();
      TakeAck(offset, credit, flowBytes);
      AckMeans(f, offset, credit, flowBytes);
    }

    method TakeAck(offset: nat, credit: nat, flowBytes: nat)
      requires Valid() && ending.Running?
      modifies this
      ensures Valid() && View() == OnAck(old(View()), offset, credit, flowBytes)
    {
      if offset > next || credit < offset || credit - offset > flowBytes {
        Finish(InvalidAck);
        return;
      }
      window := credit;
      if offset > acked {
        acked := offset;
        Discard(offset);
      }
    }

    /** Drops the retained segments that end at or before the offset. */
    method Discard(offset: nat)
      modifies this`pending, this`sendBytes
      ensures pending == Unacked(old(pending), offset)
      ensures sendBytes == old(sendBytes) - (SeqCost(old(pending)) - SeqCost(pending))
    {
      var all := pending;
      var keep: seq<Segment> := [];
      for i := 0 to |all|
        invariant pending == all == old(pending)
        invariant Unacked(all, offset) == keep + Unacked(all[i..], offset)
        invariant sendBytes == old(sendBytes) - (SeqCost(all) - SeqCost(all[i..]) - SeqCost(keep))
      {
        var s := all[i];
        UnackedStep(all, i, offset, keep);
        if s.offset + |s.data| <= offset {
          sendBytes := sendBytes - (|s.data| + SEGMENT_OVERHEAD);
        } else {
          keep := keep + [s];
        }
      }
      pending := keep;
    }

    method HandleFin(offset: nat)
      requires Valid() && ending.Running?
      modifies this
      ensures Valid() && View() == OnFin(old(View()), offset)
      ensures FinLaw(old(View()), View(), offset)
    {
      if offset < recvNext || (recvFIN && finOffset != offset) {
        Finish(InvalidFinish);
        return;
      }
      recvFIN := true;
      finOffset := offset;
    }

    method HandleFinAck(offset: nat)
      requires Valid() && ending.Running?
      modifies this`finACK
      ensures Valid() && View() == OnFinAck(old(View()), offset)
      ensures FinAckLaw(old(View()), View(), offset)
    {
      if readEOF && offset == next {
        finACK := true;
      }
    }

    method HandleOpened(server: bool, credit: nat)
      requires Valid() && ending.Running?
      modifies this`isOpen, this`window
      ensures Valid() && View() == OnOpened(old(View()), !server, credit)
      ensures OpenedLaw(old(View()), View(), !server, credit)
    {
      if !server && !isOpen {
        isOpen := true;
        window := credit;
      }
    }

    method Credit(flowBytes: nat, free: int) returns (credit: nat)
      ensures credit == ReceiveWindow(Receiving(), flowBytes, free)
    {
      var available := (if flowBytes - recvBytes < free then flowBytes - recvBytes else free) - SEGMENT_OVERHEAD;
      if available < 0 {
        available := 0;
      }
      credit := (recvNext + available) % TWO64;
    }

    /** How much the endpoint reader may ask for now; 0 means wait. */
    method ReadQuota(flowBytes: nat) returns (size: nat)
      requires flowBytes > SEGMENT_OVERHEAD && !readEOF && ending.Running?
      ensures size > 0 <==> MayRead(View(), flowBytes)
      ensures size > 0 ==> size == ReadSize(View(), flowBytes)
      ensures size > 0 ==> size <= 16384 && next + size <= window && sendBytes + size + 192 <= flowBytes
      ensures size > 0 ==> size == 16384 || size == window - next || size == flowBytes - 192
      ensures size == 0 <==> !isOpen || next >= window || (sendBytes > 0 && sendBytes + 16384 + 192 > flowBytes)
    {
      size := CHUNK;
      if size + SEGMENT_OVERHEAD > flowBytes {
        size := flowBytes - SEGMENT_OVERHEAD;
      }
      if !isOpen || next >= window || sendBytes + size + SEGMENT_OVERHEAD > flowBytes {
        return 0;
      }
      if size > window - next {
        size := window - next;
      }
    }

    method QueueRead(data: seq<Byte>, eof: bool)
      requires Valid() && ending.Running?
      modifies this
      ensures Valid()
      ensures View() == (var f := Queue(old(View()), data);
                         if eof then f.(snd := f.snd.(readEOF := true)) else f)
      ensures ReadLaw(old(View()), View(), data, eof)
    {
      if |data| > 0 {
        pending := pending + [Segment(next, data)];
        sendBytes := sendBytes + |data| + SEGMENT_OVERHEAD;
        next := next + |data|;
      }
      if eof {
        readEOF := true;
      }
    }

    method HandedOver()
      requires Valid() && ending.Running? && ready != []
      modifies this
      ensures Valid() && View() == old(View()).(rcv := Consume(old(Receiving())))
      ensures HandedLaw(old(View()), View())
    {
      ConsumeKeepsSound(Receiving());
      var s := ready[0];
      ready := ready[1..];
      recvBytes := recvBytes - (|s.data| + SEGMENT_OVERHEAD);
      consumed := consumed + |s.data|;
    }

    method WriterIdle()
      requires Valid() && ending.Running? && ready == []
      modifies this
      ensures Valid() && View() == OnIdleWriter(old(View()))
      ensures IdleLaw(old(View()), View())
    {
      if recvFIN && recvNext == finOffset && !finApplied {
        finApplied := true;
      }
      if finApplied && readEOF && finACK && |pending| == 0 {
        Finish(Finished);
      }
    }
  }
}
