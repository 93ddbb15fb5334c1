/** Every step of two ends and their network keeps the invariant; what follows
    from it for whole runs. */
module StreamProofs {
  import opened StreamFlow
  import opened DatagramWindow
  import opened StreamSystem

  // ----- DATA

  /** A held segment that starts at cut k is segment k. */
  lemma HeldAt(log: Log, seg: Segment, k: nat)
    requires log.Valid() && k <= |log.segs| && Known(log, seg, k) && seg.offset == log.Cut(k)
    ensures k < |log.segs| && seg == log.segs[k]
  {
    var i :| k <= i < |log.segs| && seg == log.segs[i];
    if k < i { CutsOrdered(log, k, i); }
  }

  lemma HeldAfter(log: Log, seg: Segment, k: nat)
    requires log.Valid() && k < |log.segs| && Known(log, seg, k) && seg.offset != log.Cut(k)
    ensures Known(log, seg, k + 1)
  {
    var i :| k <= i < |log.segs| && seg == log.segs[i];
    assert i != k;
  }

  lemma DrainOneAhead(log: Log, recv: map<nat, Segment>, at: nat, k: nat)
    requires log.Valid() && Ahead(log, recv, k) && k < |log.segs| && at == log.Cut(k)
    ensures Ahead(log, recv - {at}, k + 1)
  {
    forall o | o in recv && o != at ensures Known(log, recv[o], k + 1) {
      HeldAfter(log, recv[o], k);
    }
  }

  lemma DrainOnePlaced(log: Log, done: nat, r: Receiver)
    requires log.Valid() && Placed(log, done, r) && r.recvNext in r.recv
    ensures Placed(log, done, DrainOne(r))
  {
    var k := done + |r.ready|;
    HeldAt(log, r.recv[r.recvNext], k);
    DrainOneAhead(log, r.recv, r.recvNext, k);
    CutsOrdered(log, k, |log.segs|);
    assert Queued(log, done, DrainOne(r));
  }

  lemma {:induction false} DrainPlaced(log: Log, done: nat, r: Receiver)
    requires log.Valid() && Placed(log, done, r)
    ensures Placed(log, done, Drain(r))
    decreases |r.recv|
  {
    if r.recvNext in r.recv {
      DrainOnePlaced(log, done, r);
      DrainPlaced(log, done, DrainOne(r));
    }
  }

  /** Draining only appends to the ready queue and leaves the finish alone. */
  lemma {:induction false} DrainExtends(r: Receiver)
    ensures r.ready <= Drain(r).ready
    ensures SameFin(Drain(r), r)
    decreases |r.recv|
  {
    if r.recvNext in r.recv { DrainExtends(DrainOne(r)); }
  }

  ghost predicate SameFin(a: Receiver, b: Receiver) {
    a.recvFIN == b.recvFIN && a.finOffset == b.finOffset && a.finApplied == b.finApplied
  }

  /** The peer's segment i, when it is new, lies at or beyond recvNext. */
  lemma NewSegment(log: Log, done: nat, r: Receiver, i: nat)
    requires log.Valid() && Placed(log, done, r) && i < |log.segs|
    requires log.segs[i].End() > r.recvNext
    ensures done + |r.ready| <= i
    ensures Trim(log.segs[i], r.recvNext) == log.segs[i]
  {
    var k := done + |r.ready|;
    if k < i { CutsOrdered(log, k, i); }
    if i < k { CutsOrdered(log, i, k); }
  }

  lemma StorePlaced(log: Log, done: nat, r: Receiver, i: nat)
    requires log.Valid() && Placed(log, done, r) && done + |r.ready| <= i < |log.segs|
    ensures Placed(log, done, Store(r, log.segs[i]))
  {
    var m := log.segs[i];
    assert Known(log, m, done + |r.ready|);
    assert Ahead(log, r.recv[m.offset := m], done + |r.ready|);
    DrainPlaced(log, done, r.(recv := r.recv[m.offset := m], recvBytes := r.recvBytes + m.Cost()));
  }

  /** Of the peer's own segments, those that are new do not clash. */
  lemma DataCases(log: Log, done: nat, f: Flow, i: nat, flowBytes: nat, free: int)
    requires log.Valid() && |log.bytes| < TWO64 && Placed(log, done, f.rcv) && i < |log.segs|
    requires f.ending.Running?
    requires f.rcv.recvFIN ==> f.rcv.finOffset == |log.bytes|
    ensures var g := OnData(f, log.segs[i], flowBytes, free);
            if !f.isOpen then g == Close(f, InvalidFrame)
            else g == f || (done + |f.rcv.ready| <= i && g == f.(rcv := Store(f.rcv, log.segs[i])))
  {
    CutsOrdered(log, i, |log.segs|);
    if f.isOpen && log.segs[i].End() > f.rcv.recvNext {
      NewSegment(log, done, f.rcv, i);
      NoConflict(log, f.rcv, i, done + |f.rcv.ready|);
    }
  }

  /** The peer's own segment is stored or ignored, never an error. */
  lemma DataPlaced(log: Log, done: nat, f: Flow, seg: Segment, flowBytes: nat, free: int)
    requires log.Valid() && |log.bytes| < TWO64 && Placed(log, done, f.rcv) && Known(log, seg, 0)
    requires f.ending.Running?
    requires f.rcv.recvFIN ==> f.rcv.finOffset == |log.bytes|
    ensures var g := OnData(f, seg, flowBytes, free);
            && Placed(log, done, g.rcv)
            && f.rcv.ready <= g.rcv.ready && SameFin(g.rcv, f.rcv)
            && g.snd == f.snd && g.isOpen == f.isOpen
            && g.ending == (if f.isOpen then Running else Closed(InvalidFrame))
  {
    var i :| 0 <= i < |log.segs| && seg == log.segs[i];
    var r := f.rcv;
    DataCases(log, done, f, i, flowBytes, free);
    if done + |r.ready| <= i {
      StorePlaced(log, done, r, i);
      DrainExtends(r.(recv := r.recv[seg.offset := seg], recvBytes := r.recvBytes + seg.Cost()));
    }
  }

  lemma NoConflict(log: Log, r: Receiver, i: nat, k: nat)
    requires log.Valid() && i < |log.segs|
    requires forall o :: o in r.recv ==> r.recv[o].offset == o && Known(log, r.recv[o], k)
    ensures Duplicate(r, log.segs[i]) || !Conflict(r, log.segs[i])
  {
    var seg := log.segs[i];
    if Conflict(r, seg) {
      var o :| o in r.recv && Meets(seg, r.recv[o]);
      var j :| k <= j < |log.segs| && r.recv[o] == log.segs[j];
      Apart(log, i, j);
    }
  }

  // ----- ACK

  /** Acknowledging up to cut i leaves exactly the segments from i on. */
  lemma {:induction false} UnackedSuffix(log: Log, j: nat, i: nat)
    requires log.Valid() && j <= i <= |log.segs|
    ensures Unacked(log.segs[j..], log.Cut(i)) == log.segs[i..]
    decreases |log.segs| - j
  {
    if j < |log.segs| {
      assert log.segs[j..][1..] == log.segs[j + 1..];
      if j < i {
        CutsOrdered(log, j, i);
        UnackedSuffix(log, j + 1, i);
      } else {
        forall t | 0 <= t < |log.segs[j..]| ensures log.segs[j..][t].End() > log.Cut(j) {
          CutsOrdered(log, j + t, |log.segs|);
          if t > 0 { CutsOrdered(log, j, j + t); }
        }
        NothingUnacked(log.segs[j..], log.Cut(j));
      }
    }
  }

  lemma {:induction false} NothingUnacked(pending: seq<Segment>, offset: nat)
    requires forall t :: 0 <= t < |pending| ==> pending[t].End() > offset
    ensures Unacked(pending, offset) == pending
  {
    if pending != [] { NothingUnacked(pending[1..], offset); }
  }

  lemma CutBound(log: Log, i: nat)
    requires log.Valid() && i <= |log.segs|
    ensures log.Cut(i) <= |log.bytes|
  {
    if i < |log.segs| { CutsOrdered(log, i, |log.segs|); }
  }

  /** A cut beyond `acked` has a larger number than the first retained segment. */
  lemma AckAdvances(log: Log, snd: Sender, i: nat)
    requires log.Valid() && Retains(log, snd) && i <= |log.segs| && log.Cut(i) > snd.acked
    ensures |log.segs| - |snd.pending| < i
    ensures Unacked(snd.pending, log.Cut(i)) == log.segs[i..]
  {
    var j := |log.segs| - |snd.pending|;
    if i < j { CutsOrdered(log, i, j); }
    UnackedSuffix(log, j, i);
  }

  lemma {:induction false} UnackedCost(pending: seq<Segment>, offset: nat)
    ensures SeqCost(Unacked(pending, offset)) <= SeqCost(pending)
  {
    if pending != [] { UnackedCost(pending[1..], offset); }
  }

  // ----- each action, seen from the stream it sends and the one it receives

  ghost predicate Fits(flowBytes: nat) { CHUNK <= flowBytes <= 16 * 1024 * 1024 }

  /** An acknowledgement from a correct peer is refused only when its window
      wrapped past 2^64. */
  lemma AckVerdict(f: Flow, m: Msg, flowBytes: nat)
    requires f.ending.Running? && m.Ack? && m.offset <= f.snd.next && Credited(m, flowBytes)
    ensures var g := OnAck(f, m.offset, m.window, flowBytes);
            && (g.ending.Running? <==> m.window >= m.offset)
            && (!g.ending.Running? ==> g == Close(f, InvalidAck) && f.snd.next + flowBytes >= TWO64)
  {
  }

  /** An acknowledgement at cut i only trims the retained run from the front. */
  lemma AckResult(e: End, fb: nat, i: nat, window: nat)
    requires SenderOk(e, fb) && e.flow.ending.Running? && i <= |e.log.segs|
    ensures var snd, o, keep := e.flow.snd, e.log.Cut(i), e.log.segs[i..];
            var g := OnAck(e.flow, o, window, fb);
            || g == Close(e.flow, InvalidAck)
            || g == e.flow.(snd := snd.(window := window))
            || (g == e.flow.(snd := snd.(window := window, acked := o, pending := keep, sendBytes := SeqCost(keep)))
                && |keep| <= |snd.pending| && SeqCost(keep) <= snd.sendBytes)
  {
    var snd, o := e.flow.snd, e.log.Cut(i);
    if o > snd.acked {
      AckAdvances(e.log, snd, i);
      UnackedCost(snd.pending, o);
    }
  }

  lemma AckKeepsSender(e: End, fb: nat, i: nat, window: nat)
    requires SenderOk(e, fb) && e.flow.ending.Running? && i <= |e.log.segs| && window < TWO64
    ensures var g := OnAck(e.flow, e.log.Cut(i), window, fb);
            && SenderOk(e.(flow := g), fb)
            && (g.snd.pending == e.flow.snd.pending || i == |e.log.segs| - |g.snd.pending|)
  {
    AckResult(e, fb, i, window);
  }

  /** A read that returned appends one segment, or nothing, to the log. */
  lemma ReadKeepsSender(e: End, fb: nat, data: seq<Byte>, eof: bool, failed: bool)
    requires SenderOk(e, fb) && 0 < |data| <= e.reading
    ensures SenderOk(EndRead(e, data, eof, failed), fb)
  {
    if e.flow.ending.Running? {
      var s := Segment(e.flow.snd.next, data);
      var l := e.log.Append(data);
      var snd := EndRead(e, data, eof, failed).flow.snd;
      assert l.Valid() && l.Faithful() by { AppendKeeps(e.log, data); }
      assert Retains(l, snd) by {
        AppendKeeps(e.log, data);
        assert l.segs[|e.log.segs| - |e.flow.snd.pending|..] == e.flow.snd.pending + [s];
      }
      assert snd.sendBytes == SeqCost(snd.pending) by { SeqCostConcat(e.flow.snd.pending, [s]); }
    }
  }

  lemma StartReadKeepsSender(e: End, fb: nat)
    requires Fits(fb) && SenderOk(e, fb) && e.reading == 0 && MayRead(e.flow, fb)
    ensures SenderOk(e.(reading := ReadSize(e.flow, fb)), fb)
    ensures ReadSize(e.flow, fb) > 0
  {
  }

  // ----- the receiving half

  lemma DataKeepsReceiver(peer: End, e: End, fb: nat, seg: Segment, free: int)
    requires SenderOk(peer, fb) && ReceiverOk(peer, e, fb) && Known(peer.log, seg, 0)
    requires e.flow.ending.Running?
    ensures var g := OnData(e.flow, seg, fb, free);
            && ReceiverOk(peer, e.(flow := g), fb)
            && |g.rcv.ready| >= |e.flow.rcv.ready|
            && g.rcv.recvFIN == e.flow.rcv.recvFIN && g.rcv.finOffset == e.flow.rcv.finOffset
            && g.snd == e.flow.snd && g.isOpen == e.flow.isOpen
            && g.ending == (if e.flow.isOpen then Running else Closed(InvalidFrame))
  {
    DataPlaced(peer.log, e.done, e.flow, seg, fb, free);
    DataKeepsSound(e.flow, seg, fb, free);
    var g := OnData(e.flow, seg, fb, free);
    if e.flow.rcv.finApplied {
      ReceivedWithin(peer.log, e.done, g.rcv);
    }
  }

  lemma ReceivedWithin(log: Log, done: nat, r: Receiver)
    requires log.Valid() && Placed(log, done, r)
    ensures r.recvNext <= |log.bytes|
  {
    CutBound(log, done + |r.ready|);
  }

  lemma FinKeepsReceiver(peer: End, e: End, fb: nat)
    requires SenderOk(peer, fb) && ReceiverOk(peer, e, fb) && peer.flow.snd.readEOF
    requires e.flow.ending.Running?
    ensures var g := OnFin(e.flow, peer.flow.snd.next);
            ReceiverOk(peer, e.(flow := g), fb) && g.ending.Running?
  {
    ReceivedWithin(peer.log, e.done, e.flow.rcv);
  }

  /** The first ready segment is segment `done`, with the bytes of its place. */
  lemma FirstReady(peer: End, e: End, fb: nat)
    requires SenderOk(peer, fb) && ReceiverOk(peer, e, fb) && e.flow.rcv.ready != []
    ensures var s, l := e.flow.rcv.ready[0], peer.log;
            && e.done < |l.segs| && s == l.segs[e.done] && s.offset == e.flow.rcv.consumed
            && s.End() <= |l.bytes| && s.data == l.bytes[s.offset..s.End()]
            && s.End() == l.Cut(e.done + 1)
  {
    assert e.flow.rcv.ready[0] == peer.log.segs[e.done];
    assert peer.log.Carries(e.done);
    CutsOrdered(peer.log, e.done, |peer.log.segs|);
  }

  lemma WriteKeepsReceiver(peer: End, e: End, fb: nat, n: nat)
    requires SenderOk(peer, fb) && ReceiverOk(peer, e, fb)
    requires e.writing && e.flow.rcv.ready != [] && e.written + n <= |e.flow.rcv.ready[0].data|
    ensures var d := e.flow.rcv.ready[0].data[e.written..e.written + n];
            ReceiverOk(peer, e.(written := e.written + n, delivered := e.delivered + d), fb)
  {
    FirstReady(peer, e, fb);
    var b, at := peer.log.bytes, e.flow.rcv.consumed + e.written;
    SliceOfSlice(b, e.flow.rcv.ready[0].offset, e.flow.rcv.ready[0].End(), e.written, e.written + n);
    assert b[..at] + b[at..at + n] == b[..at + n];
  }

  lemma SliceOfSlice(b: seq<Byte>, from: nat, end: nat, i: nat, j: nat)
    requires from <= end <= |b| && i <= j <= end - from
    ensures b[from..end][i..j] == b[from + i..from + j]
  {
    var x, y := b[from..end][i..j], b[from + i..from + j];
    forall k | 0 <= k < j - i ensures x[k] == y[k] {
      assert x[k] == b[from..end][i + k];
    }
    assert x == y;
  }

  lemma ConsumePlaced(log: Log, done: nat, r: Receiver)
    requires log.Valid() && Placed(log, done, r) && r.ready != []
    ensures Placed(log, done + 1, Consume(r))
  {
    CutsOrdered(log, done, |log.segs|);
    assert r.ready[0] == log.segs[done];
    assert r.ready[1..] == log.segs[done + 1..done + |r.ready|];
  }

  lemma EndWriteKeepsReceiver(peer: End, e: End, fb: nat, broken: bool)
    requires SenderOk(peer, fb) && ReceiverOk(peer, e, fb)
    requires e.writing && e.flow.rcv.ready != []
    requires broken || !e.flow.ending.Running? || e.written == |e.flow.rcv.ready[0].data|
    ensures ReceiverOk(peer, EndWrite(e, broken), fb)
  {
    if e.flow.ending.Running? {
      FirstReady(peer, e, fb);
      ConsumePlaced(peer.log, e.done, e.flow.rcv);
      ConsumeKeepsSound(e.flow.rcv);
    }
  }

  /** The peer's log growing under a receiver changes nothing for it. */
  lemma GrowKeepsReceiver(peer: End, e: End, fb: nat, data: seq<Byte>, eof: bool, failed: bool)
    requires SenderOk(peer, fb) && ReceiverOk(peer, e, fb) && 0 < |data| <= peer.reading
    ensures ReceiverOk(EndRead(peer, data, eof, failed), e, fb)
  {
    if peer.flow.ending.Running? {
      AppendKeeps(peer.log, data);
      var l, r := peer.log.Append(data), e.flow.rcv;
      assert l.segs[e.done..e.done + |r.ready|] == r.ready;
      forall o | o in r.recv ensures Known(l, r.recv[o], e.done + |r.ready|) {
        KnownKept(peer.log, data, r.recv[o], e.done + |r.ready|);
      }
      ReceivedWithin(peer.log, e.done, r);
    }
  }

  // ----- frames in the network

  lemma GrowKeepsFrames(e: End, peer: End, out: set<Msg>, back: set<Msg>, fb: nat,
                        data: seq<Byte>, eof: bool, failed: bool)
    requires Direction(e, peer, out, back, fb) && 0 < |data| <= e.reading
    ensures ForwardOk(EndRead(e, data, eof, failed), out)
    ensures BackwardOk(EndRead(e, data, eof, failed), peer, back, fb)
  {
    if e.flow.ending.Running? {
      AppendKeeps(e.log, data);
      var l := e.log.Append(data);
      forall m | m in out && m.Data? ensures Known(l, m.seg, 0) {
        KnownKept(e.log, data, m.seg, 0);
      }
      var k := peer.done + |peer.flow.rcv.ready|;
      forall m | m in back && m.Ack? ensures IsCut(l, m.offset, k) {
        var i :| 0 <= i <= k && m.offset == e.log.Cut(i);
        assert m.offset == l.Cut(i);
      }
    }
  }

  /** A receiver that has taken in more only widens what may come back. */
  lemma ProgressKeepsBackward(e: End, peer: End, peer': End, back: set<Msg>, fb: nat)
    requires BackwardOk(e, peer, back, fb)
    requires peer.done + |peer.flow.rcv.ready| <= peer'.done + |peer'.flow.rcv.ready| <= |e.log.segs|
    requires peer.flow.rcv.recvFIN ==> peer'.flow.rcv.recvFIN && peer'.flow.rcv.finOffset == peer.flow.rcv.finOffset
    ensures BackwardOk(e, peer', back, fb)
  {
    var k, k' := peer.done + |peer.flow.rcv.ready|, peer'.done + |peer'.flow.rcv.ready|;
    forall m | m in back && m.Ack? ensures IsCut(e.log, m.offset, k') {
      var i :| 0 <= i <= k && m.offset == e.log.Cut(i);
      assert 0 <= i <= k';
    }
  }

  /** The credit in an acknowledgement is within one flow window, modulo 2^64. */
  lemma WindowCredited(r: Receiver, fb: nat, free: int)
    requires Fits(fb) && Sound(r) && r.recvNext < TWO64
    ensures Credited(Ack(r.recvNext, ReceiveWindow(r, fb, free)), fb)
  {
    RecvCostNonNegative(r);
  }

  // ----- one action, both streams

  /** Same log and finish; the sending half may have advanced. */
  ghost predicate SameLog(e: End, e': End) {
    && e'.log == e.log && e'.flow.snd.next == e.flow.snd.next && e'.flow.snd.readEOF == e.flow.snd.readEOF
    && (e'.flow.snd.finACK ==> e.flow.snd.finACK)
    && |e'.flow.snd.pending| == |e.flow.snd.pending|
  }

  lemma SameLogKept(e: End, e': End, peer: End, out: set<Msg>, back: set<Msg>, fb: nat)
    requires Direction(e, peer, out, back, fb) && SenderOk(e', fb) && SameLog(e, e')
    ensures Direction(e', peer, out, back, fb)
  {
  }

  /** Same sending half; the flow may only have stopped. */
  ghost predicate SameSender(e: End, e': End) {
    && e'.log == e.log && e'.flow.snd == e.flow.snd && e'.source == e.source && e'.reading == e.reading
    && e'.flow.isOpen == e.flow.isOpen
    && (e'.flow.ending.Running? ==> e.flow.ending.Running?)
  }

  lemma SameSenderKept(e: End, e': End, peer: End, out: set<Msg>, back: set<Msg>, fb: nat)
    requires Direction(e, peer, out, back, fb) && SameSender(e, e')
    ensures Direction(e', peer, out, back, fb)
  {
  }

  lemma AckKeepsSent(e: End, peer: End, out: set<Msg>, back: set<Msg>, fb: nat, m: Msg)
    requires Direction(e, peer, out, back, fb) && m in back && m.Ack?
    requires e.flow.ending.Running?
    ensures Direction(e.(flow := OnAck(e.flow, m.offset, m.window, fb)), peer, out, back, fb)
  {
    var k := peer.done + |peer.flow.rcv.ready|;
    var i :| 0 <= i <= k && m.offset == e.log.Cut(i);
    AckKeepsSender(e, fb, i, m.window);
  }

  lemma OpenedKeepsSender(e: End, fb: nat, gateway: bool)
    requires Fits(fb) && SenderOk(e, fb) && e.flow.ending.Running?
    ensures SenderOk(e.(flow := OnOpened(e.flow, gateway, fb)), fb)
  {
  }

  lemma FinAckKeepsSent(e: End, peer: End, out: set<Msg>, back: set<Msg>, fb: nat, m: Msg)
    requires Direction(e, peer, out, back, fb) && m in back && m.FinAck? && e.flow.ending.Running?
    ensures Direction(e.(flow := OnFinAck(e.flow, m.offset)), peer, out, back, fb)
  {
  }

  lemma DeliverKeepsSent(e: End, peer: End, out: set<Msg>, back: set<Msg>, fb: nat, m: Msg, free: int, gateway: bool)
    requires Fits(fb) && Direction(e, peer, out, back, fb) && m in back
    requires m.Opened? && gateway ==> m.credit == fb
    ensures Direction(Receive(e, gateway, m, fb, free), peer, out, back, fb)
  {
    var e' := Receive(e, gateway, m, fb, free);
    if !e.flow.ending.Running? {
    } else if m.Ack? {
      AckKeepsSent(e, peer, out, back, fb, m);
    } else if m.FinAck? {
      FinAckKeepsSent(e, peer, out, back, fb, m);
    } else if m.Opened? && gateway {
      OpenedKeepsSender(e, fb, gateway);
      SameLogKept(e, e', peer, out, back, fb);
    } else {
      if m.Data? { DataSender(e.flow, m.seg, fb, free); }
      SameSenderKept(e, e', peer, out, back, fb);
    }
  }

  lemma EmptyReadKeepsSender(e: End, fb: nat, eof: bool, failed: bool)
    requires SenderOk(e, fb) && e.reading > 0
    ensures SenderOk(EndRead(e, [], eof, failed), fb)
  {
    assert e.source + [] == e.source;
  }

  lemma EmptyReadKeepsSent(e: End, peer: End, out: set<Msg>, back: set<Msg>, fb: nat, eof: bool, failed: bool)
    requires Direction(e, peer, out, back, fb) && e.reading > 0
    ensures Direction(EndRead(e, [], eof, failed), peer, out, back, fb)
  {
    EmptyReadKeepsSender(e, fb, eof, failed);
  }

  lemma ReadKeepsSent(e: End, peer: End, out: set<Msg>, back: set<Msg>, fb: nat, data: seq<Byte>, eof: bool, failed: bool)
    requires Direction(e, peer, out, back, fb) && |data| <= e.reading && e.reading > 0
    ensures Direction(EndRead(e, data, eof, failed), peer, out, back, fb)
  {
    if data == [] {
      EmptyReadKeepsSent(e, peer, out, back, fb, eof, failed);
    } else {
      ReadKeepsSender(e, fb, data, eof, failed);
      GrowKeepsReceiver(e, peer, fb, data, eof, failed);
      GrowKeepsFrames(e, peer, out, back, fb, data, eof, failed);
    }
  }

  /** The stream that e sends. */
  lemma SentKept(e: End, peer: End, out: set<Msg>, back: set<Msg>, fb: nat, a: Action, gateway: bool)
    requires Fits(fb) && Direction(e, peer, out, back, fb) && MayAct(e, a, gateway, fb) && !a.Emit?
    requires a.Deliver? ==> a.msg in back && (a.msg.Opened? && gateway ==> a.msg.credit == fb)
    ensures Direction(Act(e, a, gateway, fb), peer, out, back, fb)
  {
    var e' := Act(e, a, gateway, fb);
    match a
    case Deliver(m, free, _) => DeliverKeepsSent(e, peer, out, back, fb, m, free, gateway);
    case FinishRead(data, eof, failed) => ReadKeepsSent(e, peer, out, back, fb, data, eof, failed);
    case StartRead =>
      StartReadKeepsSender(e, fb);
      SameLogKept(e, e', peer, out, back, fb);
    case StartWrite => SameSenderKept(e, e', peer, out, back, fb);
    case Write(n) => SameSenderKept(e, e', peer, out, back, fb);
    case FinishWrite(broken) => SameSenderKept(e, e', peer, out, back, fb);
    case IdleWriter => SameSenderKept(e, e', peer, out, back, fb);
    case Stop => SameSenderKept(e, e', peer, out, back, fb);
  }

  lemma DataSender(f: Flow, seg: Segment, fb: nat, free: int)
    requires f.ending.Running?
    ensures OnData(f, seg, fb, free).snd == f.snd && OnData(f, seg, fb, free).isOpen == f.isOpen
  {
  }

  /** Same receiving half; the flow may only have stopped. */
  ghost predicate SameReceiver(e: End, e': End) {
    && e'.flow.rcv == e.flow.rcv && e'.done == e.done && e'.delivered == e.delivered
    && e'.writing == e.writing && e'.written == e.written
    && (e'.flow.ending.Running? ==> e.flow.ending.Running?)
  }

  lemma SameReceiverKept(peer: End, e: End, e': End, out: set<Msg>, back: set<Msg>, fb: nat)
    requires Direction(peer, e, out, back, fb) && SameReceiver(e, e')
    ensures Direction(peer, e', out, back, fb)
  {
  }

  lemma NewReceiverKept(peer: End, e: End, e': End, out: set<Msg>, back: set<Msg>, fb: nat)
    requires Direction(peer, e, out, back, fb) && ReceiverOk(peer, e', fb)
    requires e.done + |e.flow.rcv.ready| <= e'.done + |e'.flow.rcv.ready|
    requires e.flow.rcv.recvFIN ==> e'.flow.rcv.recvFIN && e'.flow.rcv.finOffset == e.flow.rcv.finOffset
    ensures Direction(peer, e', out, back, fb)
  {
    ProgressKeepsBackward(peer, e, e', back, fb);
  }

  lemma DeliverKeepsReceived(e: End, peer: End, out: set<Msg>, back: set<Msg>, fb: nat, m: Msg, free: int, gateway: bool)
    requires Direction(peer, e, out, back, fb) && m in out
    ensures Direction(peer, Receive(e, gateway, m, fb, free), out, back, fb)
  {
    var e' := Receive(e, gateway, m, fb, free);
    if e.flow.ending.Running? && m.Data? {
      DataKeepsReceiver(peer, e, fb, m.seg, free);
      NewReceiverKept(peer, e, e', out, back, fb);
    } else if e.flow.ending.Running? && m.Fin? {
      FinKeepsReceiver(peer, e, fb);
      NewReceiverKept(peer, e, e', out, back, fb);
    } else {
      SameReceiverKept(peer, e, e', out, back, fb);
    }
  }

  lemma IdleKeepsReceiver(peer: End, e: End, fb: nat)
    requires SenderOk(peer, fb) && ReceiverOk(peer, e, fb)
    requires e.flow.ending.Running? && !e.writing && e.flow.rcv.ready == []
    ensures ReceiverOk(peer, e.(flow := OnIdleWriter(e.flow)), fb)
  {
  }

  lemma StartWriteKeepsReceiver(peer: End, e: End, fb: nat)
    requires ReceiverOk(peer, e, fb)
    requires e.flow.ending.Running? && !e.writing && e.flow.rcv.ready != []
    ensures ReceiverOk(peer, e.(writing := true, written := 0), fb)
  {
  }

  /** The stream that e receives. */
  lemma ReceivedKept(e: End, peer: End, out: set<Msg>, back: set<Msg>, fb: nat, a: Action, gateway: bool)
    requires Fits(fb) && Direction(peer, e, out, back, fb) && MayAct(e, a, gateway, fb) && !a.Emit?
    requires a.Deliver? ==> a.msg in out
    ensures Direction(peer, Act(e, a, gateway, fb), out, back, fb)
  {
    var e' := Act(e, a, gateway, fb);
    match a
    case Deliver(m, free, _) => DeliverKeepsReceived(e, peer, out, back, fb, m, free, gateway);
    case StartRead => SameReceiverKept(peer, e, e', out, back, fb);
    case FinishRead(data, eof, failed) => SameReceiverKept(peer, e, e', out, back, fb);
    case Stop => SameReceiverKept(peer, e, e', out, back, fb);
    case StartWrite => WriterKept(e, peer, out, back, fb, a, gateway);
    case Write(n) => WriterKept(e, peer, out, back, fb, a, gateway);
    case FinishWrite(broken) => WriterKept(e, peer, out, back, fb, a, gateway);
    case IdleWriter => WriterKept(e, peer, out, back, fb, a, gateway);
  }

  /** What the endpoint writer does. */
  lemma WriterKept(e: End, peer: End, out: set<Msg>, back: set<Msg>, fb: nat, a: Action, gateway: bool)
    requires Direction(peer, e, out, back, fb) && MayAct(e, a, gateway, fb)
    requires a.StartWrite? || a.Write? || a.FinishWrite? || a.IdleWriter?
    ensures Direction(peer, Act(e, a, gateway, fb), out, back, fb)
  {
    var e' := Act(e, a, gateway, fb);
    match a
    case StartWrite =>
      StartWriteKeepsReceiver(peer, e, fb);
      NewReceiverKept(peer, e, e', out, back, fb);
    case Write(n) =>
      WriteKeepsReceiver(peer, e, fb, n);
      NewReceiverKept(peer, e, e', out, back, fb);
    case FinishWrite(broken) =>
      EndWriteKeepsReceiver(peer, e, fb, broken);
      NewReceiverKept(peer, e, e', out, back, fb);
    case IdleWriter =>
      IdleKeepsReceiver(peer, e, fb);
      NewReceiverKept(peer, e, e', out, back, fb);
  }

  // ----- emitting

  lemma PendingKnown(e: End, fb: nat, seg: Segment)
    requires SenderOk(e, fb) && seg in e.flow.snd.pending
    ensures Known(e.log, seg, 0)
  {
    var i :| 0 <= i < |e.flow.snd.pending| && e.flow.snd.pending[i] == seg;
    assert seg == e.log.segs[|e.log.segs| - |e.flow.snd.pending| + i];
  }

  lemma EmitKeepsSent(e: End, peer: End, out: set<Msg>, back: set<Msg>, fb: nat, m: Msg, free: int, gateway: bool)
    requires Direction(e, peer, out, back, fb) && MayEmit(e, gateway, m, fb, free)
    ensures Direction(e, peer, out + {m}, back, fb)
  {
    if m.Data? { PendingKnown(e, fb, m.seg); }
  }

  lemma EmitKeepsReceived(e: End, peer: End, out: set<Msg>, back: set<Msg>, fb: nat, m: Msg, free: int, gateway: bool)
    requires Fits(fb) && Direction(peer, e, out, back, fb) && MayEmit(e, gateway, m, fb, free)
    ensures Direction(peer, e, out, back + {m}, fb)
  {
    if m.Ack? {
      ReceivedWithin(peer.log, e.done, e.flow.rcv);
      WindowCredited(e.flow.rcv, fb, free);
      assert m.offset == peer.log.Cut(e.done + |e.flow.rcv.ready|);
    }
  }

  // ----- endings

  lemma DeliverEnding(e: End, peer: End, out: set<Msg>, back: set<Msg>, fb: nat, m: Msg, free: int, gateway: bool)
    requires Direction(e, peer, out, back, fb) && Direction(peer, e, back, out, fb)
    requires m in back && EndingOk(e, gateway, fb)
    requires m.Data? && !gateway ==> e.flow.isOpen
    ensures EndingOk(Receive(e, gateway, m, fb, free), gateway, fb)
  {
    if e.flow.ending.Running? {
      if m.Data? {
        DataKeepsReceiver(peer, e, fb, m.seg, free);
      } else if m.Fin? {
        FinKeepsReceiver(peer, e, fb);
      } else if m.Ack? {
        var k := peer.done + |peer.flow.rcv.ready|;
        var i :| 0 <= i <= k && m.offset == e.log.Cut(i);
        CutBound(e.log, i);
        AckVerdict(e.flow, m, fb);
      }
    }
  }

  lemma ActEnding(e: End, peer: End, out: set<Msg>, back: set<Msg>, fb: nat, a: Action, gateway: bool)
    requires Direction(e, peer, out, back, fb) && Direction(peer, e, back, out, fb)
    requires EndingOk(e, gateway, fb) && MayAct(e, a, gateway, fb)
    requires a.Deliver? ==> a.msg in back && (a.msg.Data? && !gateway ==> e.flow.isOpen)
    ensures EndingOk(Act(e, a, gateway, fb), gateway, fb)
  {
    match a
    case Deliver(m, free, _) => DeliverEnding(e, peer, out, back, fb, m, free, gateway);
    case IdleWriter => IdleEnding(e, peer, fb, gateway);
    case Emit(_, _) =>
    case StartRead =>
    case FinishRead(_, _, _) =>
    case StartWrite =>
    case Write(_) =>
    case FinishWrite(_) =>
    case Stop =>
  }

  lemma IdleEnding(e: End, peer: End, fb: nat, gateway: bool)
    requires SenderOk(peer, fb) && ReceiverOk(peer, e, fb)
    requires e.flow.ending.Running? && !e.writing && e.flow.rcv.ready == []
    ensures EndingOk(e.(flow := OnIdleWriter(e.flow)), gateway, fb)
  {
    CutBound(peer.log, e.done);
  }

  // ----- one step of the system

  lemma GatewayActKept(s: Sys, a: Action)
    requires Inv(s) && Enabled(s, At(true, a)) && !a.Emit?
    ensures Inv(Next(s, At(true, a)))
  {
    SentKept(s.gateway, s.relay, s.toRelay, s.toGateway, s.flowBytes, a, true);
    ReceivedKept(s.gateway, s.relay, s.toGateway, s.toRelay, s.flowBytes, a, true);
    ActEnding(s.gateway, s.relay, s.toRelay, s.toGateway, s.flowBytes, a, true);
    ActOpens(s.gateway, a, true, s.flowBytes);
  }

  /** Only OPENED opens a flow, and only at the gateway. */
  lemma ActOpens(e: End, a: Action, gateway: bool, fb: nat)
    requires MayAct(e, a, gateway, fb)
    ensures Act(e, a, gateway, fb).flow.isOpen ==> e.flow.isOpen || (gateway && a.Deliver? && a.msg.Opened?)
    ensures e.flow.isOpen ==> Act(e, a, gateway, fb).flow.isOpen
  {
    if a.Deliver? && a.msg.Data? && e.flow.ending.Running? { DataSender(e.flow, a.msg.seg, fb, a.free); }
  }

  /** DATA travels to the relay only after the relay opened the flow. */
  lemma DataMeansOpen(s: Sys, m: Msg)
    requires Inv(s) && m in s.toRelay && m.Data?
    ensures s.relay.flow.isOpen
  {
    var i :| 0 <= i < |s.gateway.log.segs| && m.seg == s.gateway.log.segs[i];
    CutsOrdered(s.gateway.log, i, |s.gateway.log.segs|);
  }

  lemma RelayActKept(s: Sys, a: Action)
    requires Inv(s) && Enabled(s, At(false, a)) && !a.Emit? && !(a.Deliver? && a.msg.Open?)
    ensures Inv(Next(s, At(false, a)))
  {
    if !s.relayMade { return; }
    if a.Deliver? && a.msg.Data? { DataMeansOpen(s, a.msg); }
    SentKept(s.relay, s.gateway, s.toGateway, s.toRelay, s.flowBytes, a, false);
    ReceivedKept(s.relay, s.gateway, s.toRelay, s.toGateway, s.flowBytes, a, false);
    ActEnding(s.relay, s.gateway, s.toGateway, s.toRelay, s.flowBytes, a, false);
    ActOpens(s.relay, a, false, s.flowBytes);
  }

  lemma EmitKept(s: Sys, gateway: bool, m: Msg, free: int)
    requires Inv(s) && Enabled(s, At(gateway, Emit(m, free)))
    ensures Inv(Next(s, At(gateway, Emit(m, free))))
  {
    var e, p := if gateway then s.gateway else s.relay, if gateway then s.relay else s.gateway;
    var out, back := if gateway then s.toRelay else s.toGateway, if gateway then s.toGateway else s.toRelay;
    EmitKeepsSent(e, p, out, back, s.flowBytes, m, free, gateway);
    EmitKeepsReceived(e, p, back, out, s.flowBytes, m, free, gateway);
  }

  /** An identity the relay has opened is never opened again, whatever other
      flows have pushed through the duplicate filter since. */
  lemma RelayOpensOnce(s: Sys, admit: bool)
    requires Inv(s)
    ensures s.relayMade ==> OnOpen(s, admit) == s
    ensures Inv(OnOpen(s, admit))
  {
  }

  lemma OpenTarget(e: End, fb: nat)
    requires Fits(fb) && SenderOk(e, fb) && e.flow.ending.Running?
    ensures SenderOk(e.(flow := e.flow.(isOpen := true, snd := e.flow.snd.(window := fb))), fb)
  {
  }

  lemma TargetOpenedKept(s: Sys)
    requires Inv(s) && Enabled(s, TargetOpened)
    ensures Inv(Next(s, TargetOpened))
  {
    var s' := Next(s, TargetOpened);
    OpenTarget(s.relay, s.flowBytes);
    SameReceiverKept(s.gateway, s.relay, s'.relay, s.toRelay, s.toGateway, s.flowBytes);
    SameLogKept(s.relay, s'.relay, s.gateway, s.toGateway, s.toRelay, s.flowBytes);
  }

  lemma FreshOk(e: End, peer: End, fb: nat)
    requires Fits(fb) && Fresh(e) && Fresh(peer)
    ensures Direction(e, peer, {}, {}, fb)
  {
    assert SenderOk(e, fb) by { assert e.log.bytes == [] && e.source == []; }
    assert ReceiverOk(e, peer, fb) by { FreshReceives(e, peer, fb); }
    assert BackwardOk(e, peer, {}, fb);
  }

  lemma FreshReceives(e: End, peer: End, fb: nat)
    requires Fresh(e) && Fresh(peer)
    ensures ReceiverOk(e, peer, fb)
  {
    var r := peer.flow.rcv;
    assert r.recv == map[] && r.ready == [];
    assert Placed(e.log, peer.done, r);
    assert Sound(r);
    assert Handed(e.log, peer) by { assert peer.delivered == [] && Prefix(e.log.bytes, 0) == []; }
  }

  lemma StepKeepsInv(s: Sys, step: Step)
    requires Inv(s) && Enabled(s, step)
    ensures Inv(Next(s, step))
  {
    match step
    case TargetOpened => TargetOpenedKept(s);
    case OtherFlow(_) =>
    case At(gateway, a) =>
      if a.Emit? {
        EmitKept(s, gateway, a.frame, a.credit);
      } else if gateway {
        GatewayActKept(s, a);
      } else if a.Deliver? && a.msg.Open? {
        RelayOpensOnce(s, a.admit);
      } else {
        RelayActKept(s, a);
      }
  }

  // ----- theorems over whole runs

  lemma {:induction false} RunKeepsInv(states: seq<Sys>, steps: seq<Step>, n: nat)
    requires Run(states, steps) && n < |states|
    ensures Inv(states[n])
  {
    if n == 0 {
      FreshOk(states[0].gateway, states[0].relay, states[0].flowBytes);
      FreshOk(states[0].relay, states[0].gateway, states[0].flowBytes);
    } else {
      RunKeepsInv(states, steps, n - 1);
      StepKeepsInv(states[n - 1], steps[n - 1]);
    }
  }

  /** In every run the bytes handed to either endpoint are a prefix of the bytes
      read at the other one: nothing lost, repeated, reordered or invented. */
  lemma DeliveredIsPrefix(states: seq<Sys>, steps: seq<Step>, n: nat)
    requires Run(states, steps) && n < |states|
    ensures states[n].relay.delivered <= states[n].gateway.source
    ensures states[n].gateway.delivered <= states[n].relay.source
  {
    RunKeepsInv(states, steps, n);
  }

  /** A correct pair never trips the overlap, data-beyond-finish or
      invalid-finish closes; an invalid frame is seen only by a gateway whose flow
      is not open yet; an invalid acknowledgement only by a sender within one
      window of 2^64 bytes. */
  lemma NoProtocolError(states: seq<Sys>, steps: seq<Step>, n: nat, gateway: bool)
    requires Run(states, steps) && n < |states|
    ensures var e := if gateway then states[n].gateway else states[n].relay;
            e.flow.ending.Closed? ==>
              match e.flow.ending.reason
              case InvalidFrame => gateway && !e.flow.isOpen
              case InvalidAck => |e.source| + states[n].flowBytes >= TWO64
              case Overlap => false
              case BeyondFinish => false
              case InvalidFinish => false
              case Finished => true
              case PeerClosed => true
              case Local => true
  {
    RunKeepsInv(states, steps, n);
  }

  /** Retention: what a sender keeps is a contiguous run of segments from the
      last acknowledged byte to the end of its stream, each carrying the bytes
      that were read at its place, and charged exactly. */
  lemma RetainedRun(states: seq<Sys>, steps: seq<Step>, n: nat, gateway: bool)
    requires Run(states, steps) && n < |states|
    ensures var s := states[n];
            var e, p := if gateway then s.gateway else s.relay, if gateway then s.relay else s.gateway;
            var q := e.flow.snd.pending;
            && (if q == [] then e.flow.snd.acked == e.flow.snd.next
                else q[0].offset == e.flow.snd.acked && q[|q| - 1].End() == e.flow.snd.next)
            && (forall i, j :: 0 <= i < j == i + 1 < |q| ==> q[i].End() == q[j].offset)
            && (forall i :: 0 <= i < |q| ==> q[i].End() <= |e.source| && q[i].data == e.source[q[i].offset..q[i].End()])
            && e.flow.snd.acked <= p.flow.rcv.recvNext
            && e.flow.snd.sendBytes == SeqCost(q) <= s.flowBytes
  {
    RunKeepsInv(states, steps, n);
    var s := states[n];
    var e, p := if gateway then s.gateway else s.relay, if gateway then s.relay else s.gateway;
    RetainedShape(e, s.flowBytes);
    AckedWithin(e, p, if gateway then s.toRelay else s.toGateway, if gateway then s.toGateway else s.toRelay, s.flowBytes);
  }

  lemma AckedWithin(e: End, p: End, out: set<Msg>, back: set<Msg>, fb: nat)
    requires Direction(e, p, out, back, fb)
    ensures e.flow.snd.acked <= p.flow.rcv.recvNext
  {
    var j, k := |e.log.segs| - |e.flow.snd.pending|, p.done + |p.flow.rcv.ready|;
    if j < k { CutsOrdered(e.log, j, k); }
  }

  lemma RetainedShape(e: End, fb: nat)
    requires SenderOk(e, fb)
    ensures var q := e.flow.snd.pending;
            && (if q == [] then e.flow.snd.acked == e.flow.snd.next
                else q[0].offset == e.flow.snd.acked && q[|q| - 1].End() == e.flow.snd.next)
            && (forall i, j :: 0 <= i < j == i + 1 < |q| ==> q[i].End() == q[j].offset)
            && (forall i :: 0 <= i < |q| ==> q[i].End() <= |e.source| && q[i].data == e.source[q[i].offset..q[i].End()])
  {
    var q, t := e.flow.snd.pending, |e.log.segs| - |e.flow.snd.pending|;
    forall i, j | 0 <= i < j == i + 1 < |q| ensures q[i].End() == q[j].offset {
      assert e.log.Linked(t + j);
    }
    forall i | 0 <= i < |q| ensures q[i].End() <= |e.source| && q[i].data == e.source[q[i].offset..q[i].End()] {
      assert e.log.Carries(t + i);
    }
  }

  /** A flow that closed through the finish handshake has handed its endpoint
      every byte the other end ever read, and the other end's reassembly has
      accepted every byte it sent. */
  lemma CleanCloseIsComplete(states: seq<Sys>, steps: seq<Step>, n: nat, gateway: bool)
    requires Run(states, steps) && n < |states|
    ensures var s := states[n];
            var e, p := if gateway then s.gateway else s.relay, if gateway then s.relay else s.gateway;
            e.flow.ending == Closed(Finished) ==>
              && e.delivered == p.source
              && p.flow.rcv.recvNext == |e.source|
              && p.flow.snd.readEOF
  {
    RunKeepsInv(states, steps, n);
    var s := states[n];
    if gateway {
      CompleteMeans(s.gateway, s.relay, s.toRelay, s.toGateway, s.flowBytes);
    } else {
      CompleteMeans(s.relay, s.gateway, s.toGateway, s.toRelay, s.flowBytes);
    }
  }

  lemma CompleteMeans(e: End, p: End, out: set<Msg>, back: set<Msg>, fb: nat)
    requires Direction(e, p, out, back, fb) && Direction(p, e, back, out, fb)
    ensures Complete(e) ==> e.delivered == p.source && p.flow.rcv.recvNext == |e.source| && p.flow.snd.readEOF
  {
  }

  /** The relay dials for one identity at most once in a session. */
  lemma OpenedAtMostOnce(states: seq<Sys>, steps: seq<Step>, n: nat, admit: bool)
    requires Run(states, steps) && n < |states| && states[n].relayMade
    ensures OnOpen(states[n], admit) == states[n]
  {
    RunKeepsInv(states, steps, n);
  }

  /** Credit is honoured in every run: the next segment of the peer's stream, if
      it fits the window just computed, is taken in when it arrives. */
  lemma CreditHonouredInRuns(states: seq<Sys>, steps: seq<Step>, n: nat, gateway: bool, m: Msg, free: int)
    requires Run(states, steps) && n < |states|
    requires m.Data? && m in (if gateway then states[n].toGateway else states[n].toRelay)
    ensures var s := states[n];
            var e := if gateway then s.gateway else s.relay;
            && e.flow.ending.Running? && e.flow.isOpen
            && m.seg.offset == e.flow.rcv.recvNext
            && m.seg.End() <= ReceiveWindow(e.flow.rcv, s.flowBytes, free)
            && e.flow.rcv.consumed + s.flowBytes < TWO64
            ==> Receive(e, gateway, m, s.flowBytes, free).flow.rcv.recvNext >= m.seg.End()
  {
    RunKeepsInv(states, steps, n);
    var s := states[n];
    var e, p := if gateway then s.gateway else s.relay, if gateway then s.relay else s.gateway;
    NextIsAdmissible(p, e, s.flowBytes, m.seg);
    if && e.flow.ending.Running? && e.flow.isOpen
       && m.seg.offset == e.flow.rcv.recvNext
       && m.seg.End() <= ReceiveWindow(e.flow.rcv, s.flowBytes, free)
    {
      CreditIsHonoured(e.flow, m.seg, s.flowBytes, free);
    }
  }

  lemma NextIsAdmissible(p: End, e: End, fb: nat, seg: Segment)
    requires SenderOk(p, fb) && ReceiverOk(p, e, fb) && Known(p.log, seg, 0)
    ensures 0 < |seg.data| <= CHUNK && seg.End() <= p.flow.snd.next
    ensures seg.offset == e.flow.rcv.recvNext ==> !Conflict(e.flow.rcv, seg)
  {
    var i :| 0 <= i < |p.log.segs| && seg == p.log.segs[i];
    CutsOrdered(p.log, i, |p.log.segs|);
    NoConflict(p.log, e.flow.rcv, i, e.done + |e.flow.rcv.ready|);
  }
}
