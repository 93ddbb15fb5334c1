/** What each reaction of a flow does to its fields, said without the functions
    that compute it: which bytes are held, what is delivered next, what is still
    retained.  StreamObject promises these laws of the object. */
module StreamLaws {
  import opened StreamFlow

  // ----- DATA

  /** The byte has arrived: it is in order, or in a segment held ahead. */
  ghost predicate HasByte(r: Receiver, b: nat) {
    b < r.recvNext || exists o :: o in r.recv && o <= b < o + |r.recv[o].data|
  }

  /** The part of a frame that is new starts here. */
  function NewFrom(r: Receiver, frame: Segment): nat { if frame.offset < r.recvNext then r.recvNext else frame.offset }

  ghost predicate Overlaps(r: Receiver, from: nat, end: nat) {
    exists o :: o in r.recv && from < o + |r.recv[o].data| && o < end
  }

  predicate Repeats(r: Receiver, from: nat, end: nat) { from in r.recv && from + |r.recv[from].data| == end }

  predicate Malformed(f: Flow, frame: Segment) {
    !f.isOpen || |frame.data| == 0 || |frame.data| > 16384 || frame.offset + |frame.data| >= TWO64
  }

  /** New bytes that lie within the stream and the flow window. */
  predicate Wanted(f: Flow, frame: Segment, flowBytes: nat) {
    var end := frame.offset + |frame.data|;
    && !Malformed(f, frame) && (f.rcv.recvFIN ==> end <= f.rcv.finOffset)
    && f.rcv.recvNext < end <= (f.rcv.consumed + flowBytes) % TWO64
  }

  ghost predicate Admitted(f: Flow, frame: Segment, flowBytes: nat, free: int) {
    var from, end := NewFrom(f.rcv, frame), frame.offset + |frame.data|;
    && Wanted(f, frame, flowBytes) && !Overlaps(f.rcv, from, end)
    && f.rcv.recvBytes + (end - from) + 192 <= flowBytes && (end - from) + 192 <= free
  }

  /** Which frames end the flow, and with what error. */
  ghost predicate DataErrors(f: Flow, g: Flow, frame: Segment, flowBytes: nat) {
    var from, end := NewFrom(f.rcv, frame), frame.offset + |frame.data|;
    && (g.ending == Closed(InvalidFrame) <==> Malformed(f, frame))
    && (g.ending == Closed(BeyondFinish) <==> !Malformed(f, frame) && f.rcv.recvFIN && end > f.rcv.finOffset)
    && (g.ending == Closed(Overlap) <==> Wanted(f, frame, flowBytes) && Overlaps(f.rcv, from, end) && !Repeats(f.rcv, from, end))
    && (g.ending.Running? || g.ending == Closed(InvalidFrame) || g.ending == Closed(BeyondFinish) || g.ending == Closed(Overlap))
  }

  /** Segments that follow one another from `from` to `to`, each as it was held. */
  predicate Chain(recv: map<nat, Segment>, from: nat, run: seq<Segment>, to: nat)
    decreases |run|
  {
    if run == [] then from == to
    else from in recv && run[0] == recv[from] && Chain(recv, from + |run[0].data|, run[1..], to)
  }

  /** The drain: the run of held segments that continues the stream becomes ready,
      up to the first byte not held; what lies beyond stays. */
  ghost predicate Drained(r: Receiver, recv: map<nat, Segment>, g: Receiver) {
    && r.ready <= g.ready && Chain(recv, r.recvNext, g.ready[|r.ready|..], g.recvNext)
    && g.recvNext !in recv
    && (forall o :: o in g.recv <==> o in recv && o >= g.recvNext) && (forall o :: o in g.recv ==> g.recv[o] == recv[o])
    && (g.consumed, g.recvFIN, g.finOffset, g.finApplied) == (r.consumed, r.recvFIN, r.finOffset, r.finApplied)
  }

  /** DATA: an error ends the flow; an admitted frame adds exactly its bytes, ahead
      of the stream or in order; any other frame changes nothing. */
  ghost predicate DataLaw(f: Flow, g: Flow, frame: Segment, flowBytes: nat, free: int) {
    var from, end := NewFrom(f.rcv, frame), frame.offset + |frame.data|;
    && DataErrors(f, g, frame, flowBytes)
    && (!Admitted(f, frame, flowBytes, free) ==> g == f.(ending := g.ending))
    && (Admitted(f, frame, flowBytes, free) ==>
          && g == f.(rcv := g.rcv)
          && (forall b: nat :: HasByte(g.rcv, b) <==> HasByte(f.rcv, b) || frame.offset <= b < end)
          && g.rcv.recvBytes == f.rcv.recvBytes + (end - from) + 192
          && (frame.offset > f.rcv.recvNext ==>
                g.rcv == f.rcv.(recv := f.rcv.recv[frame.offset := frame], recvBytes := g.rcv.recvBytes))
          && (frame.offset <= f.rcv.recvNext ==>
                Drained(f.rcv, f.rcv.recv[from := Segment(from, frame.data[from - frame.offset..])], g.rcv)))
  }

  lemma {:induction false} DrainMeans(r: Receiver)
    requires Draining(r)
    ensures Drained(r, r.recv, Drain(r)) && Drain(r).recvBytes == r.recvBytes
    decreases |r.recv|
  {
    if r.recvNext in r.recv {
      DrainOneDraining(r);
      DrainMeans(DrainOne(r));
      DrainGrows(DrainOne(r));
      DrainStep(r, Drain(r));
    } else {
      assert r.ready[|r.ready|..] == [];
    }
  }

  lemma DrainStep(r: Receiver, d: Receiver)
    requires Draining(r) && r.recvNext in r.recv && Drained(DrainOne(r), DrainOne(r).recv, d) && d.recvNext >= DrainOne(r).recvNext
    ensures Drained(r, r.recv, d)
  {
    var q, s := DrainOne(r), r.recv[r.recvNext];
    var run := d.ready[|q.ready|..];
    assert d.ready[|r.ready|..] == [s] + run by { assert d.ready[|r.ready|] == s; }
    assert Chain(r.recv, r.recvNext, [s] + run, d.recvNext) by {
      ChainKept(q.recv, r.recv, q.recvNext, run, d.recvNext);
      assert ([s] + run)[1..] == run;
    }
    assert r.ready <= d.ready;
  }

  lemma {:induction false} ChainKept(recv: map<nat, Segment>, more: map<nat, Segment>, from: nat, run: seq<Segment>, to: nat)
    requires Chain(recv, from, run, to) && forall o :: o in recv ==> o in more && more[o] == recv[o]
    ensures Chain(more, from, run, to)
    decreases |run|
  {
    if run != [] { ChainKept(recv, more, from + |run[0].data|, run[1..], to); }
  }

  /** Draining loses and invents no byte. */
  lemma {:induction false} DrainBytes(r: Receiver, b: nat)
    requires Draining(r)
    ensures HasByte(Drain(r), b) <==> HasByte(r, b)
    decreases |r.recv|
  {
    if r.recvNext in r.recv {
      DrainOneDraining(r);
      DrainBytes(DrainOne(r), b);
      OneDrainedByte(r, b);
    }
  }

  lemma OneDrainedByte(r: Receiver, b: nat)
    requires Draining(r) && r.recvNext in r.recv
    ensures HasByte(DrainOne(r), b) <==> HasByte(r, b)
  {
    var q, s := DrainOne(r), r.recv[r.recvNext];
    if HasByte(r, b) && b >= q.recvNext {
      var o :| o in r.recv && o <= b < o + |r.recv[o].data|;
      assert o in q.recv && q.recv[o] == r.recv[o];
    }
    if HasByte(q, b) && b >= q.recvNext {
      var o :| o in q.recv && o <= b < o + |q.recv[o].data|;
      assert o in r.recv && r.recv[o] == q.recv[o];
    }
  }

  lemma PutBytes(r: Receiver, m: Segment, b: nat)
    requires m.offset !in r.recv
    ensures HasByte(Put(r, m), b) <==> HasByte(r, b) || m.offset <= b < m.End()
  {
    var q := Put(r, m);
    if HasByte(r, b) && b >= r.recvNext {
      var o :| o in r.recv && o <= b < o + |r.recv[o].data|;
      assert o in q.recv && q.recv[o] == r.recv[o];
    }
    if m.offset <= b < m.End() { assert m.offset in q.recv && q.recv[m.offset] == m; }
  }

  /** The part of a frame beyond what is already in order. */
  lemma Trimmed(r: Receiver, frame: Segment)
    requires frame.End() > r.recvNext
    ensures var m, from := Trim(frame, r.recvNext), NewFrom(r, frame);
            m.offset == from && m.End() == frame.End() && |m.data| == frame.End() - from
    ensures frame.offset <= r.recvNext ==>
              Trim(frame, r.recvNext) == Segment(r.recvNext, frame.data[r.recvNext - frame.offset..])
  {
    if frame.offset == r.recvNext { assert frame.data[0..] == frame.data; }
  }

  lemma Verdicts(r: Receiver, m: Segment)
    requires Held(r) && m.data != []
    ensures Conflict(r, m) <==> Overlaps(r, m.offset, m.End())
    ensures Duplicate(r, m) <==> Repeats(r, m.offset, m.End())
    ensures Duplicate(r, m) ==> Conflict(r, m)
  {
    if m.offset in r.recv { assert Meets(m, r.recv[m.offset]) by { assert r.recv[m.offset].data != []; } }
    if Overlaps(r, m.offset, m.End()) {
      var o :| o in r.recv && m.offset < o + |r.recv[o].data| && o < m.End();
      assert Meets(m, r.recv[o]);
    }
  }

  lemma AdmittedMeans(f: Flow, frame: Segment, flowBytes: nat, free: int)
    requires f.ending.Running? && Sound(f.rcv) && Admitted(f, frame, flowBytes, free)
    ensures var m := Trim(frame, f.rcv.recvNext);
            && OnData(f, frame, flowBytes, free) == f.(rcv := Drain(Put(f.rcv, m)))
            && m.offset !in f.rcv.recv && m.data != [] && Draining(Put(f.rcv, m))
  {
    var r, m := f.rcv, Trim(frame, f.rcv.recvNext);
    Trimmed(r, frame);
    Verdicts(r, m);
    PutDraining(r, m);
  }

  lemma DataErrorsHold(f: Flow, frame: Segment, flowBytes: nat, free: int)
    requires f.ending.Running? && Sound(f.rcv)
    ensures var g := OnData(f, frame, flowBytes, free);
            DataErrors(f, g, frame, flowBytes) && (!Admitted(f, frame, flowBytes, free) ==> g == f.(ending := g.ending))
  {
    if !Malformed(f, frame) && frame.End() > f.rcv.recvNext {
      Trimmed(f.rcv, frame);
      Verdicts(f.rcv, Trim(frame, f.rcv.recvNext));
    }
  }

  lemma DataMeans(f: Flow, frame: Segment, flowBytes: nat, free: int)
    requires f.ending.Running? && Sound(f.rcv)
    ensures DataLaw(f, OnData(f, frame, flowBytes, free), frame, flowBytes, free)
  {
    DataErrorsHold(f, frame, flowBytes, free);
    if Admitted(f, frame, flowBytes, free) { AdmittedLaw(f, frame, flowBytes, free); }
  }

  lemma StoredByte(r: Receiver, frame: Segment, b: nat)
    requires frame.End() > r.recvNext
    requires var m := Trim(frame, r.recvNext); m.offset !in r.recv && Draining(Put(r, m))
    ensures HasByte(Drain(Put(r, Trim(frame, r.recvNext))), b) <==> HasByte(r, b) || frame.offset <= b < frame.End()
  {
    var m := Trim(frame, r.recvNext);
    Trimmed(r, frame);
    DrainBytes(Put(r, m), b);
    PutBytes(r, m, b);
  }

  lemma AdmittedLaw(f: Flow, frame: Segment, flowBytes: nat, free: int)
    requires f.ending.Running? && Sound(f.rcv) && Admitted(f, frame, flowBytes, free)
    ensures var g := OnData(f, frame, flowBytes, free);
            var from, end := NewFrom(f.rcv, frame), frame.offset + |frame.data|;
            && g == f.(rcv := g.rcv)
            && (forall b: nat :: HasByte(g.rcv, b) <==> HasByte(f.rcv, b) || frame.offset <= b < end)
            && g.rcv.recvBytes == f.rcv.recvBytes + (end - from) + 192
            && (frame.offset > f.rcv.recvNext ==>
                  g.rcv == f.rcv.(recv := f.rcv.recv[frame.offset := frame], recvBytes := g.rcv.recvBytes))
            && (frame.offset <= f.rcv.recvNext ==>
                  Drained(f.rcv, f.rcv.recv[from := Segment(from, frame.data[from - frame.offset..])], g.rcv))
  {
    var r, m := f.rcv, Trim(frame, f.rcv.recvNext);
    AdmittedMeans(f, frame, flowBytes, free);
    Trimmed(r, frame);
    var q := Put(r, m);
    assert forall b: nat :: HasByte(Drain(q), b) <==> HasByte(r, b) || frame.offset <= b < frame.End() by {
      forall b: nat ensures HasByte(Drain(q), b) <==> HasByte(r, b) || frame.offset <= b < frame.End() {
        StoredByte(r, frame, b);
      }
    }
    assert Drained(q, q.recv, Drain(q)) && Drain(q).recvBytes == q.recvBytes by { DrainMeans(q); }
    if frame.offset > r.recvNext {
      assert r.recvNext !in q.recv;
    } else {
      assert Drained(r, q.recv, Drain(q));
    }
  }

  // ----- ACK

  predicate Increasing(ss: seq<Segment>) { forall i, j :: 0 <= i < j < |ss| ==> ss[i].offset < ss[j].offset }

  /** What is left of a list when the segments that end by an offset are dropped. */
  ghost predicate Kept(all: seq<Segment>, kept: seq<Segment>, offset: nat) {
    && (forall s :: multiset(kept)[s] == if s.offset + |s.data| > offset then multiset(all)[s] else 0)
    && (Increasing(all) ==> Increasing(kept))
  }

  /** ACK: refused when it acknowledges what was never sent or grants more than a
      flow window; else its window counts, and what it newly covers is paid back. */
  ghost predicate AckLaw(f: Flow, g: Flow, offset: nat, window: nat, flowBytes: nat) {
    if offset > f.snd.next || window < offset || window - offset > flowBytes then g == f.(ending := Closed(InvalidAck))
    else
      && g == f.(snd := g.snd)
      && g.snd == f.snd.(window := window, acked := g.snd.acked, pending := g.snd.pending, sendBytes := g.snd.sendBytes)
      && g.snd.acked == (if offset > f.snd.acked then offset else f.snd.acked)
      && g.snd.sendBytes - SeqCost(g.snd.pending) == f.snd.sendBytes - SeqCost(f.snd.pending)
      && (if offset > f.snd.acked then Kept(f.snd.pending, g.snd.pending, offset) else g.snd.pending == f.snd.pending)
  }

  lemma {:induction false} UnackedMeans(all: seq<Segment>, offset: nat)
    ensures forall s :: multiset(Unacked(all, offset))[s] == if s.End() > offset then multiset(all)[s] else 0
    ensures forall s :: s in Unacked(all, offset) ==> s in all
  {
    if all != [] {
      UnackedMeans(all[1..], offset);
      assert all == [all[0]] + all[1..];
    }
  }

  lemma {:induction false} UnackedIncreasing(all: seq<Segment>, offset: nat)
    requires Increasing(all)
    ensures Increasing(Unacked(all, offset))
  {
    if all != [] {
      UnackedIncreasing(all[1..], offset);
      UnackedMeans(all[1..], offset);
      var rest := Unacked(all[1..], offset);
      forall j | 0 <= j < |rest| ensures all[0].offset < rest[j].offset {
        assert rest[j] in all[1..];
        var k :| 0 <= k < |all[1..]| && all[1..][k] == rest[j];
        assert all[0].offset < all[k + 1].offset;
      }
    }
  }

  lemma AckMeans(f: Flow, offset: nat, window: nat, flowBytes: nat)
    requires f.ending.Running?
    ensures AckLaw(f, OnAck(f, offset, window, flowBytes), offset, window, flowBytes)
  {
    UnackedMeans(f.snd.pending, offset);
    if Increasing(f.snd.pending) { UnackedIncreasing(f.snd.pending, offset); }
  }

  // ----- credit

  /** The window granted is exact: an in-order segment that meets nothing held is
      admitted if and only if it ends within it (away from the end of the offset
      space), so it is neither too generous nor too small. */
  lemma CreditIsExact(f: Flow, m: Segment, flowBytes: nat, free: int)
    requires f.ending.Running? && f.isOpen && Sound(f.rcv) && f.rcv.consumed + flowBytes < TWO64
    requires m.offset == f.rcv.recvNext && 0 < |m.data| <= CHUNK && m.End() < TWO64
    requires f.rcv.recvFIN ==> m.End() <= f.rcv.finOffset
    requires !Overlaps(f.rcv, m.offset, m.End())
    ensures HasByte(OnData(f, m, flowBytes, free).rcv, m.offset) <==> m.End() <= ReceiveWindow(f.rcv, flowBytes, free)
  {
    CreditAdmits(f, m, flowBytes, free);
    DataMeans(f, m, flowBytes, free);
    assert !HasByte(f.rcv, m.offset);
  }

  lemma CreditAdmits(f: Flow, m: Segment, flowBytes: nat, free: int)
    requires f.isOpen && Sound(f.rcv) && f.rcv.consumed + flowBytes < TWO64
    requires m.offset == f.rcv.recvNext && 0 < |m.data| <= CHUNK && m.End() < TWO64
    requires f.rcv.recvFIN ==> m.End() <= f.rcv.finOffset
    requires !Overlaps(f.rcv, m.offset, m.End())
    ensures Admitted(f, m, flowBytes, free) <==> m.End() <= ReceiveWindow(f.rcv, flowBytes, free)
  {
    var r := f.rcv;
    BytesWithinCost(r.ready);
    RecvCostNonNegative(r);
  }

  // ----- the other reactions

  /** FIN: refused below what has arrived or when it moves an earlier finish. */
  predicate FinLaw(f: Flow, g: Flow, offset: nat) {
    if offset < f.rcv.recvNext || (f.rcv.recvFIN && f.rcv.finOffset != offset) then g == f.(ending := Closed(InvalidFinish))
    else g == f.(rcv := g.rcv) && g.rcv == f.rcv.(recvFIN := true, finOffset := offset)
  }

  /** FINACK: counts only for the end of the stream that was sent. */
  predicate FinAckLaw(f: Flow, g: Flow, offset: nat) {
    g == f.(snd := g.snd) && g.snd == f.snd.(finACK := f.snd.finACK || (f.snd.readEOF && offset == f.snd.next))
  }

  /** OPENED: taken once, by the gateway. */
  predicate OpenedLaw(f: Flow, g: Flow, gateway: bool, window: nat) {
    && g.ending == f.ending && g.rcv == f.rcv
    && g.isOpen == (f.isOpen || gateway)
    && g.snd == f.snd.(window := if gateway && !f.isOpen then window else f.snd.window)
  }

  /** A read: its bytes follow what was queued and are retained until acknowledged. */
  predicate ReadLaw(f: Flow, g: Flow, data: seq<Byte>, eof: bool) {
    && g == f.(snd := g.snd) && g.snd.next == f.snd.next + |data|
    && g.snd.pending == f.snd.pending + (if |data| == 0 then [] else [Segment(f.snd.next, data)])
    && g.snd.sendBytes == f.snd.sendBytes + (if |data| == 0 then 0 else |data| + 192)
    && g.snd.readEOF == (f.snd.readEOF || eof)
    && (g.snd.acked, g.snd.window, g.snd.finACK) == (f.snd.acked, f.snd.window, f.snd.finACK)
  }

  /** The first ready segment is handed over: nothing of the stream is forgotten but
      its bytes, which are paid back. */
  predicate HandedLaw(f: Flow, g: Flow)
    requires f.rcv.ready != []
  {
    var s := f.rcv.ready[0];
    && g == f.(rcv := g.rcv) && f.rcv.ready == [s] + g.rcv.ready
    && g.rcv.consumed == f.rcv.consumed + |s.data| && g.rcv.recvBytes == f.rcv.recvBytes - |s.data| - 192
    && g.rcv == f.rcv.(ready := g.rcv.ready, consumed := g.rcv.consumed, recvBytes := g.rcv.recvBytes)
  }

  /** Nothing is ready: the finish is applied when everything up to it has come, and
      the flow ends when both directions are done. */
  predicate IdleLaw(f: Flow, g: Flow) {
    var applied := f.rcv.finApplied || (f.rcv.recvFIN && f.rcv.recvNext == f.rcv.finOffset);
    && g == f.(rcv := g.rcv, ending := g.ending) && g.rcv == f.rcv.(finApplied := applied)
    && g.ending == if applied && f.snd.readEOF && f.snd.finACK && |f.snd.pending| == 0 then Closed(Finished) else Running
  }

  lemma OthersMean(f: Flow, offset: nat, gateway: bool, window: nat, data: seq<Byte>)
    requires f.ending.Running?
    ensures FinLaw(f, OnFin(f, offset), offset) && FinAckLaw(f, OnFinAck(f, offset), offset)
    ensures OpenedLaw(f, OnOpened(f, gateway, window), gateway, window)
    ensures ReadLaw(f, Queue(f, data), data, false)
    ensures f.rcv.ready != [] ==> HandedLaw(f, f.(rcv := Consume(f.rcv)))
    ensures f.rcv.ready == [] ==> IdleLaw(f, OnIdleWriter(f))
  {
  }
}
