/** One end of a logical TCP stream: the reactions of internal/continuity/peer.go
    to frames and to its endpoint, as functions on values.  The object that
    carries them out in place is StreamObject; runs of two ends are StreamSystem. */
module StreamFlow {
  import opened Sums

  import Wire

  type Byte = Wire.Byte

  const CHUNK: nat := 16384
  const SEGMENT_OVERHEAD: nat := 192
  const TWO64: nat := Wire.TWO64

  datatype Segment = Segment(offset: nat, data: seq<Byte>) {
    function End(): nat { offset + |data| }
    function Cost(): nat { |data| + SEGMENT_OVERHEAD }
  }

  function SeqCost(ss: seq<Segment>): nat {
    if ss == [] then 0 else ss[0].Cost() + SeqCost(ss[1..])
  }

  lemma {:induction false} SeqCostConcat(a: seq<Segment>, b: seq<Segment>)
    ensures SeqCost(a + b) == SeqCost(a) + SeqCost(b)
  {
    if a == [] {
      assert a + b == b;
    } else {
      assert (a + b)[1..] == a[1..] + b;
      SeqCostConcat(a[1..], b);
    }
  }

  /** Every way a flow stops.  The first five are the peer's protocol errors. */
  datatype Reason =
    | InvalidFrame | BeyondFinish | Overlap | InvalidAck | InvalidFinish
    | Finished | PeerClosed | Local

  datatype Ending = Running | Closed(reason: Reason)

  datatype Sender = Sender(
    next: nat, acked: nat, window: nat,
    pending: seq<Segment>, sendBytes: int,
    readEOF: bool, finACK: bool)

  datatype Receiver = Receiver(
    recv: map<nat, Segment>, ready: seq<Segment>,
    recvNext: nat, consumed: nat, recvBytes: int,
    recvFIN: bool, finOffset: nat, finApplied: bool)

  datatype Flow = Flow(isOpen: bool, ending: Ending, snd: Sender, rcv: Receiver)

  const IDLE_SENDER := Sender(0, 0, 0, [], 0, false, false)
  const IDLE_RECEIVER := Receiver(map[], [], 0, 0, 0, false, 0, false)
  const NEW_FLOW := Flow(false, Running, IDLE_SENDER, IDLE_RECEIVER)

  function Close(f: Flow, reason: Reason): Flow {
    if f.ending.Running? then f.(ending := Closed(reason)) else f
  }

  // ----- receiving

  /** Credit granted to the peer; `free` is what is left of the shared receive
      budget.  The sum is a uint64 and wraps. */
  function ReceiveWindow(r: Receiver, flowBytes: nat, free: int): nat {
    (r.recvNext + Available(r, flowBytes, free)) % TWO64
  }

  function Available(r: Receiver, flowBytes: nat, free: int): nat {
    var least := if flowBytes - r.recvBytes < free then flowBytes - r.recvBytes else free;
    if least < SEGMENT_OVERHEAD then 0 else least - SEGMENT_OVERHEAD
  }

  predicate Duplicate(r: Receiver, m: Segment) {
    m.offset in r.recv && |m.data| == |r.recv[m.offset].data|
  }

  predicate Meets(a: Segment, b: Segment) {
    a.offset < b.End() && b.offset < a.End()
  }

  predicate Conflict(r: Receiver, m: Segment) {
    exists o :: o in r.recv && Meets(m, r.recv[o])
  }

  function Trim(m: Segment, from: nat): Segment {
    if m.offset < from <= m.End() then Segment(from, m.data[from - m.offset..]) else m
  }

  /** One turn of the drain loop. */
  function DrainOne(r: Receiver): Receiver
    requires r.recvNext in r.recv
  {
    var s := r.recv[r.recvNext];
    r.(recv := r.recv - {r.recvNext}, recvNext := r.recvNext + |s.data|, ready := r.ready + [s])
  }

  /** Moves every segment that continues the stream to the ready queue. */
  function Drain(r: Receiver): Receiver
    decreases |r.recv|
  {
    if r.recvNext in r.recv then
      Drain(DrainOne(r))
    else r
  }

  /** The store with one more segment, charged. */
  function Put(r: Receiver, m: Segment): Receiver {
    r.(recv := r.recv[m.offset := m], recvBytes := r.recvBytes + m.Cost())
  }

  function Store(r: Receiver, m: Segment): Receiver { Drain(Put(r, m)) }

  function OnData(f: Flow, frame: Segment, flowBytes: nat, free: int): Flow
    requires f.ending.Running?
  {
    var r := f.rcv;
    if !f.isOpen || |frame.data| == 0 || |frame.data| > CHUNK || frame.End() >= TWO64 then
      Close(f, InvalidFrame)
    else if r.recvFIN && frame.End() > r.finOffset then
      Close(f, BeyondFinish)
    else if frame.End() <= r.recvNext then
      f
    else
      var m := Trim(frame, r.recvNext);
      if m.End() > (r.consumed + flowBytes) % TWO64 then f
      else if Duplicate(r, m) then f
      else if Conflict(r, m) then Close(f, Overlap)
      else if r.recvBytes + m.Cost() > flowBytes || m.Cost() > free then f
      else f.(rcv := Store(r, m))
  }

  function OnFin(f: Flow, offset: nat): Flow
    requires f.ending.Running?
  {
    if offset < f.rcv.recvNext || (f.rcv.recvFIN && f.rcv.finOffset != offset) then
      Close(f, InvalidFinish)
    else
      f.(rcv := f.rcv.(recvFIN := true, finOffset := offset))
  }

  // ----- sending

  function Unacked(pending: seq<Segment>, offset: nat): seq<Segment> {
    if pending == [] then []
    else if pending[0].End() <= offset then Unacked(pending[1..], offset)
    else [pending[0]] + Unacked(pending[1..], offset)
  }

  function OnAck(f: Flow, offset: nat, window: nat, flowBytes: nat): Flow
    requires f.ending.Running?
  {
    var s := f.snd;
    if offset > s.next || window < offset || window - offset > flowBytes then
      Close(f, InvalidAck)
    else if offset > s.acked then
      var keep := Unacked(s.pending, offset);
      f.(snd := s.(window := window, acked := offset, pending := keep,
                   sendBytes := s.sendBytes - (SeqCost(s.pending) - SeqCost(keep))))
    else
      f.(snd := s.(window := window))
  }

  function OnFinAck(f: Flow, offset: nat): Flow
    requires f.ending.Running?
  {
    if f.snd.readEOF && offset == f.snd.next then f.(snd := f.snd.(finACK := true)) else f
  }

  /** OPENED is honoured once and only by the gateway. */
  function OnOpened(f: Flow, gateway: bool, window: nat): Flow
    requires f.ending.Running?
  {
    if gateway && !f.isOpen then f.(isOpen := true, snd := f.snd.(window := window)) else f
  }

  // ----- the endpoint on this side

  function ReadLimit(flowBytes: nat): nat {
    if CHUNK + SEGMENT_OVERHEAD > flowBytes then
      if flowBytes < SEGMENT_OVERHEAD then 0 else flowBytes - SEGMENT_OVERHEAD
    else CHUNK
  }

  predicate MayRead(f: Flow, flowBytes: nat) {
    && f.ending.Running? && f.isOpen && !f.snd.readEOF
    && f.snd.next < f.snd.window
    && f.snd.sendBytes + ReadLimit(flowBytes) + SEGMENT_OVERHEAD <= flowBytes
  }

  function ReadSize(f: Flow, flowBytes: nat): nat
    requires MayRead(f, flowBytes)
  {
    var room := f.snd.window - f.snd.next;
    if ReadLimit(flowBytes) > room then room else ReadLimit(flowBytes)
  }

  /** Bytes read from the endpoint become one retained segment. */
  function Queue(f: Flow, data: seq<Byte>): Flow
  {
    if data == [] then f else
      var s := Segment(f.snd.next, data);
      f.(snd := f.snd.(next := f.snd.next + |data|, pending := f.snd.pending + [s],
                       sendBytes := f.snd.sendBytes + s.Cost()))
  }

  /** The first ready segment has been handed to the endpoint. */
  function Consume(r: Receiver): Receiver
    requires r.ready != []
  {
    r.(ready := r.ready[1..], recvBytes := r.recvBytes - r.ready[0].Cost(),
       consumed := r.consumed + |r.ready[0].data|)
  }

  /** The endpoint writer finds nothing ready: apply the peer's finish, then
      close when both directions are complete. */
  function OnIdleWriter(f: Flow): Flow
    requires f.ending.Running? && f.rcv.ready == []
  {
    var r := f.rcv;
    var applied := r.finApplied || (r.recvFIN && r.recvNext == r.finOffset);
    var g := f.(rcv := r.(finApplied := applied));
    if applied && f.snd.readEOF && f.snd.finACK && f.snd.pending == [] then Close(g, Finished) else g
  }

  // ----- what every reaction keeps, whatever the peer sends

  ghost predicate Held(r: Receiver) {
    && (forall o :: o in r.recv ==> r.recv[o].offset == o && r.recv[o].data != [] && o > r.recvNext)
    && Disjoint(r)
  }

  ghost predicate Disjoint(r: Receiver) {
    forall o, p :: o in r.recv && p in r.recv && o != p ==> !Meets(r.recv[o], r.recv[p])
  }

  function Bytes(ss: seq<Segment>): nat {
    if ss == [] then 0 else |ss[0].data| + Bytes(ss[1..])
  }

  lemma {:induction false} BytesConcat(a: seq<Segment>, b: seq<Segment>)
    ensures Bytes(a + b) == Bytes(a) + Bytes(b)
  {
    if a == [] {
      assert a + b == b;
    } else {
      assert (a + b)[1..] == a[1..] + b;
      BytesConcat(a[1..], b);
    }
  }

  ghost function RecvCost(r: Receiver): int {
    Total(r.recv, (s: Segment) => s.Cost())
  }

  /** The receive charge is exactly the segments still held, and the bytes in
      order but not yet handed over are exactly those of the ready queue. */
  ghost predicate Accounted(r: Receiver) {
    && r.recvBytes == SeqCost(r.ready) + RecvCost(r)
    && r.recvNext == r.consumed + Bytes(r.ready)
  }

  ghost predicate Sound(r: Receiver) {
    Held(r) && Accounted(r)
  }

  /** As Held, except that a segment may sit exactly at recvNext. */
  ghost predicate Draining(r: Receiver) {
    && (forall o :: o in r.recv ==> r.recv[o].offset == o && r.recv[o].data != [] && o >= r.recvNext)
    && Disjoint(r)
    && Accounted(r)
  }

  lemma DrainOneAccounted(r: Receiver)
    requires Accounted(r) && r.recvNext in r.recv
    ensures Accounted(DrainOne(r))
  {
    var s := r.recv[r.recvNext];
    SeqCostConcat(r.ready, [s]);
    BytesConcat(r.ready, [s]);
    Split(r.recv, (x: Segment) => x.Cost(), r.recvNext);
  }

  lemma DrainOneDraining(r: Receiver)
    requires Draining(r) && r.recvNext in r.recv
    ensures Draining(DrainOne(r))
  {
    DrainOneAccounted(r);
    var s, q := r.recv[r.recvNext], DrainOne(r);
    forall o | o in q.recv ensures o >= q.recvNext {
      assert !Meets(r.recv[o], s);
    }
  }

  lemma {:induction false} DrainSound(r: Receiver)
    requires Draining(r)
    ensures Sound(Drain(r))
    ensures Drain(r).recvNext >= r.recvNext
    ensures Drain(r).recvBytes == r.recvBytes && Drain(r).consumed == r.consumed
    decreases |r.recv|
  {
    if r.recvNext in r.recv {
      DrainOneDraining(r);
      DrainSound(DrainOne(r));
    }
  }

  /** Storing an admissible segment keeps the receiver sound, charges exactly
      its cost, and an in-order segment always advances the stream. */
  lemma StoreSound(r: Receiver, m: Segment)
    requires Sound(r) && m.data != [] && m.offset >= r.recvNext
    requires !Conflict(r, m)
    ensures Sound(Store(r, m))
    ensures Store(r, m).recvBytes == r.recvBytes + m.Cost()
    ensures m.offset == r.recvNext ==> Store(r, m).recvNext >= m.End()
  {
    var q := Put(r, m);
    assert Draining(q) by { PutDraining(r, m); }
    DrainSound(q);
    if m.offset == r.recvNext {
      DrainGrows(DrainOne(q));
    }
  }

  lemma PutDraining(r: Receiver, m: Segment)
    requires Sound(r) && m.data != [] && m.offset >= r.recvNext && !Conflict(r, m)
    ensures Draining(Put(r, m))
  {
    var q := Put(r, m);
    assert m.offset in r.recv ==> Meets(m, r.recv[m.offset]);
    assert Accounted(q) by { Insert(r.recv, (s: Segment) => s.Cost(), m.offset, m); }
    forall o, p | o in q.recv && p in q.recv && o != p ensures !Meets(q.recv[o], q.recv[p]) {
      if o == m.offset { assert !Meets(m, r.recv[p]); }
      if p == m.offset { assert !Meets(m, r.recv[o]); }
    }
  }

  lemma {:induction false} DrainGrows(r: Receiver)
    ensures Drain(r).recvNext >= r.recvNext
    decreases |r.recv|
  {
    if r.recvNext in r.recv {
      DrainGrows(DrainOne(r));
    }
  }

  /** A held segment that meets the frame without being its duplicate rules out
      a duplicate elsewhere, so the order of the scan does not matter. */
  lemma ConflictIsNoDuplicate(r: Receiver, m: Segment, o: nat)
    requires Held(r) && o in r.recv && Meets(m, r.recv[o])
    requires !(m.offset == o && |m.data| == |r.recv[o].data|)
    ensures !Duplicate(r, m) && Conflict(r, m)
  {
    assert m.offset in r.recv && m.offset != o ==> !Meets(r.recv[m.offset], r.recv[o]);
  }

  /** Any DATA frame at all, from a correct peer or not, leaves a sound receiver
      that never holds more than one flow window. */
  lemma DataKeepsSound(f: Flow, frame: Segment, flowBytes: nat, free: int)
    requires f.ending.Running? && Sound(f.rcv) && f.rcv.recvBytes <= flowBytes
    ensures Sound(OnData(f, frame, flowBytes, free).rcv)
    ensures OnData(f, frame, flowBytes, free).rcv.recvBytes <= flowBytes
    ensures OnData(f, frame, flowBytes, free).rcv.recvNext >= f.rcv.recvNext
  {
    var r := f.rcv;
    if f.isOpen && 0 < |frame.data| && frame.End() > r.recvNext {
      var m := Trim(frame, r.recvNext);
      if !Conflict(r, m) {
        assert Sound(Store(r, m)) && Store(r, m).recvBytes == r.recvBytes + m.Cost() by { StoreSound(r, m); }
        assert Store(r, m).recvNext >= r.recvNext by { DrainGrows(Put(r, m)); }
      }
    }
  }

  lemma ConsumeKeepsSound(r: Receiver)
    requires Sound(r) && r.ready != []
    ensures Sound(Consume(r))
  {
    assert r.ready == [r.ready[0]] + r.ready[1..];
  }

  /** Unread in-order bytes never exceed the charge for them. */
  lemma {:induction false} BytesWithinCost(ss: seq<Segment>)
    ensures Bytes(ss) <= SeqCost(ss)
  {
    if ss != [] { BytesWithinCost(ss[1..]); }
  }

  lemma RecvCostNonNegative(r: Receiver)
    ensures RecvCost(r) >= 0
  {
    NonNegative(r.recv, (s: Segment) => s.Cost());
  }

  /** Credit is sound: an in-order frame that fits the window just granted, and
      meets no segment already held out of order, is always taken in.  The one
      exception is a stream so long that the admission bound itself wraps. */
  lemma CreditIsHonoured(f: Flow, m: Segment, flowBytes: nat, free: int)
    requires f.ending.Running? && f.isOpen && Sound(f.rcv) && flowBytes <= TWO64 / 2
    requires m.offset == f.rcv.recvNext && 0 < |m.data| <= CHUNK
    requires m.End() <= ReceiveWindow(f.rcv, flowBytes, free)
    requires f.rcv.recvFIN ==> m.End() <= f.rcv.finOffset
    requires !Conflict(f.rcv, m)
    ensures var g := OnData(f, m, flowBytes, free);
            && g.ending.Running?
            && (g.rcv.recvNext >= m.End() <==> f.rcv.consumed + flowBytes < TWO64)
            && (g.rcv.recvNext >= m.End() ==>
                  g.rcv.recvBytes == f.rcv.recvBytes + m.Cost() <= flowBytes && m.Cost() <= free)
  {
    var r := f.rcv;
    BytesWithinCost(r.ready);
    RecvCostNonNegative(r);
    var a := Available(r, flowBytes, free);
    assert r.recvNext + a <= r.consumed + flowBytes || a == 0;
    assert ReceiveWindow(r, flowBytes, free) == r.recvNext + a;
    StoreSound(r, m);
  }
}
