/** Two ends of one logical TCP stream over a network that may lose, repeat,
    reorder and re-route every frame.  The network is the set of all frames ever
    emitted; each end keeps, beside its flow, a log of what was read from and
    written to its socket. */
module StreamSystem {
  import opened StreamFlow
  import opened DatagramWindow

  /** The bytes an end has queued for the peer and the segments it cut them into. */
  datatype Log = Log(bytes: seq<Byte>, segs: seq<Segment>) {

    /** Segment i is not empty and starts where the one before it ends. */
    ghost predicate Linked(i: nat)
      requires i < |segs|
    {
      && 0 < |segs[i].data| <= CHUNK
      && segs[i].offset == (if i == 0 then 0 else segs[i - 1].End())
    }

    ghost predicate Valid() {
      && (forall i {:trigger Linked(i)} :: 0 <= i < |segs| ==> Linked(i))
      && (if segs == [] then bytes == [] else segs[|segs| - 1].End() == |bytes|)
    }

    /** Segment i carries the bytes of its own place. */
    ghost predicate Carries(i: nat)
      requires i < |segs|
    {
      segs[i].End() <= |bytes| && segs[i].data == bytes[segs[i].offset..segs[i].End()]
    }

    ghost predicate Faithful() {
      forall i {:trigger Carries(i)} :: 0 <= i < |segs| ==> Carries(i)
    }

    /** Where segment i starts; the end of the stream when i is the count. */
    ghost function Cut(i: nat): nat
      requires i <= |segs|
    {
      if i < |segs| then segs[i].offset else |bytes|
    }

    function Append(data: seq<Byte>): Log {
      if data == [] then this else Log(bytes + data, segs + [Segment(|bytes|, data)])
    }
  }

  datatype Msg =
    | Open | Opened(credit: nat) | Data(seg: Segment) | Ack(offset: nat, window: nat)
    | Fin(offset: nat) | FinAck(offset: nat) | CloseMsg | ClosedMsg

  /** One end.  `reading` is the size reserved by a read in progress, `writing`
      a ready segment in the writer's hand of which `written` bytes are out. */
  datatype End = End(
    flow: Flow,
    reading: nat, writing: bool, written: nat,
    done: nat,
    log: Log, source: seq<Byte>, delivered: seq<Byte>)

  const NEW_END := End(NEW_FLOW, 0, false, 0, 0, Log([], []), [], [])

  datatype Sys = Sys(
    id: nat, flowBytes: nat,
    gateway: End, relay: End,
    relayMade: bool, seen: Seen,
    toRelay: set<Msg>, toGateway: set<Msg>)

  /** One locked region, or one socket call between two of them, at one end. */
  datatype Action =
    | Deliver(msg: Msg, free: int, admit: bool)
    | Emit(frame: Msg, credit: int)
    | StartRead
    | FinishRead(data: seq<Byte>, eof: bool, failed: bool)
    | StartWrite
    | Write(n: nat)
    | FinishWrite(broken: bool)
    | IdleWriter
    | Stop

  datatype Step = At(gateway: bool, action: Action) | TargetOpened | OtherFlow(other: nat)

  // ----- one end

  function Receive(e: End, gateway: bool, m: Msg, flowBytes: nat, free: int): End {
    if !e.flow.ending.Running? then e else
      match m
      case Opened(w) => e.(flow := OnOpened(e.flow, gateway, w))
      case Data(seg) => e.(flow := OnData(e.flow, seg, flowBytes, free))
      case Ack(o, w) => e.(flow := OnAck(e.flow, o, w, flowBytes))
      case Fin(o) => e.(flow := OnFin(e.flow, o))
      case FinAck(o) => e.(flow := OnFinAck(e.flow, o))
      case CloseMsg => e.(flow := Close(e.flow, PeerClosed))
      case Open => e
      case ClosedMsg => e
  }

  /** What an end may put on a carrier: retained segments within the window,
      its own credit, its finish once the endpoint reached the end of input. */
  predicate MayEmit(e: End, gateway: bool, m: Msg, flowBytes: nat, free: int) {
    var f := e.flow;
    match m
    case Open => gateway && f.ending.Running? && !f.isOpen
    case Opened(w) => !gateway && f.ending.Running? && f.isOpen && w == flowBytes
    case Data(seg) => f.ending.Running? && f.isOpen && seg in f.snd.pending && seg.End() <= f.snd.window
    case Ack(o, w) =>
      f.ending.Running? && f.isOpen && o == f.rcv.recvNext && w == ReceiveWindow(f.rcv, flowBytes, free)
    case Fin(o) => f.ending.Running? && f.isOpen && f.snd.readEOF && !f.snd.finACK && o == f.snd.next
    case FinAck(o) => f.ending.Running? && f.rcv.recvFIN && o == f.rcv.finOffset
    case CloseMsg => true
    case ClosedMsg => true
  }

  /** The read returns.  A flow closed meanwhile drops the bytes. */
  function EndRead(e: End, data: seq<Byte>, eof: bool, failed: bool): End {
    var idle := e.(reading := 0, source := e.source + data);
    if !e.flow.ending.Running? then idle
    else
      var f := Queue(e.flow, data);
      var g := if eof then f.(snd := f.snd.(readEOF := true))
               else if failed then Close(f, Local) else f;
      idle.(flow := g, log := e.log.Append(data))
  }

  function EndWrite(e: End, failed: bool): End
    requires e.flow.rcv.ready != []
  {
    if !e.flow.ending.Running? then e.(writing := false, written := 0)
    else
      var f := e.flow.(rcv := Consume(e.flow.rcv));
      e.(writing := false, written := 0, done := e.done + 1,
         flow := if failed then Close(f, Local) else f)
  }

  predicate MayAct(e: End, a: Action, gateway: bool, flowBytes: nat) {
    match a
    case Deliver(_, _, _) => true
    case Emit(m, free) => MayEmit(e, gateway, m, flowBytes, free)
    case StartRead => e.reading == 0 && MayRead(e.flow, flowBytes)
    case FinishRead(data, eof, failed) => e.reading > 0 && |data| <= e.reading
    case StartWrite => e.flow.ending.Running? && !e.writing && e.flow.rcv.ready != []
    case Write(n) => e.writing && e.flow.rcv.ready != [] && e.written + n <= |e.flow.rcv.ready[0].data|
    case FinishWrite(broken) =>
      && e.writing && e.flow.rcv.ready != []
      && (broken || !e.flow.ending.Running? || e.written == |e.flow.rcv.ready[0].data|)
    case IdleWriter => e.flow.ending.Running? && !e.writing && e.flow.rcv.ready == []
    case Stop => true
  }

  function Act(e: End, a: Action, gateway: bool, flowBytes: nat): End
    requires MayAct(e, a, gateway, flowBytes)
  {
    match a
    case Deliver(m, free, _) => Receive(e, gateway, m, flowBytes, free)
    case Emit(_, _) => e
    case StartRead => e.(reading := ReadSize(e.flow, flowBytes))
    case FinishRead(data, eof, failed) => EndRead(e, data, eof, failed)
    case StartWrite => e.(writing := true, written := 0)
    case Write(n) =>
      e.(written := e.written + n,
         delivered := e.delivered + e.flow.rcv.ready[0].data[e.written..e.written + n])
    case FinishWrite(broken) => EndWrite(e, broken)
    case IdleWriter => e.(flow := OnIdleWriter(e.flow))
    case Stop => e.(flow := Close(e.flow, Local))
  }

  // ----- the whole system

  predicate Enabled(s: Sys, step: Step) {
    match step
    case TargetOpened => s.relayMade && s.relay.flow.ending.Running? && !s.relay.flow.isOpen
    case OtherFlow(n) => n != s.id && !s.seen.Contains(n)
    case At(gateway, a) =>
      && MayAct(if gateway then s.gateway else s.relay, a, gateway, s.flowBytes)
      && (a.Deliver? ==> a.msg in if gateway then s.toGateway else s.toRelay)
      && (gateway || s.relayMade || a.Deliver? || (a.Emit? && (a.frame.CloseMsg? || a.frame.ClosedMsg?)))
  }

  /** An OPEN frame at the relay: an unknown identity must pass the duplicate
      filter and the capacity checks before a flow is made.  Before that the
      relay's side is a fresh end that nothing touches. */
  function OnOpen(s: Sys, admit: bool): Sys {
    if s.relayMade && s.relay.flow.ending.Running? then s
    else if s.seen.Contains(s.id) || !admit then s
    else s.(relay := if s.relayMade then NEW_END else s.relay, relayMade := true, seen := s.seen.Add(s.id))
  }

  function Next(s: Sys, step: Step): Sys
    requires Enabled(s, step)
  {
    match step
    case TargetOpened =>
      var f := s.relay.flow;
      s.(relay := s.relay.(flow := f.(isOpen := true, snd := f.snd.(window := s.flowBytes))))
    case OtherFlow(n) => s.(seen := s.seen.Add(n))
    case At(gateway, a) =>
      if a.Emit? then
        if gateway then s.(toRelay := s.toRelay + {a.frame}) else s.(toGateway := s.toGateway + {a.frame})
      else if gateway then s.(gateway := Act(s.gateway, a, true, s.flowBytes))
      else if a.Deliver? && a.msg.Open? then OnOpen(s, a.admit)
      else if !s.relayMade then s
      else s.(relay := Act(s.relay, a, false, s.flowBytes))
  }

  /** An end as newFlow makes it. */
  ghost predicate Fresh(e: End) {
    && !e.flow.isOpen && e.flow.ending.Running?
    && e.flow.snd.next == e.flow.snd.acked == e.flow.snd.window == 0
    && |e.flow.snd.pending| == 0 && e.flow.snd.sendBytes == 0
    && !e.flow.snd.readEOF && !e.flow.snd.finACK
    && |e.flow.rcv.recv| == 0 && |e.flow.rcv.ready| == 0
    && e.flow.rcv.recvNext == e.flow.rcv.consumed == 0 && e.flow.rcv.recvBytes == 0
    && !e.flow.rcv.recvFIN && !e.flow.rcv.finApplied
    && e.reading == 0 && !e.writing && e.written == 0 && e.done == 0
    && |e.log.bytes| == 0 && |e.log.segs| == 0 && |e.source| == 0 && |e.delivered| == 0
  }

  ghost predicate Init(s: Sys) {
    && CHUNK <= s.flowBytes <= 16 * 1024 * 1024
    && Fresh(s.gateway) && Fresh(s.relay) && !s.relayMade
    && s.toRelay == {} && s.toGateway == {}
  }

  ghost predicate Run(states: seq<Sys>, steps: seq<Step>) {
    && |states| == |steps| + 1
    && Init(states[0])
    && forall i :: 0 <= i < |steps| ==> Enabled(states[i], steps[i]) && states[i + 1] == Next(states[i], steps[i])
  }

  // ----- the invariant

  /** seg is one of the log's segments, numbered `from` or later. */
  ghost predicate Known(log: Log, seg: Segment, from: nat)
  {
    exists i :: from <= i < |log.segs| && seg == log.segs[i]
  }

  ghost predicate IsCut(log: Log, offset: nat, upto: nat)
    requires upto <= |log.segs|
  {
    exists i :: 0 <= i <= upto && offset == log.Cut(i)
  }

  /** The retained segments are the last ones of the log, from `acked` on. */
  ghost predicate Retains(log: Log, snd: Sender)
  {
    && |snd.pending| <= |log.segs|
    && snd.pending == log.segs[|log.segs| - |snd.pending|..]
    && snd.acked == log.Cut(|log.segs| - |snd.pending|)
  }

  ghost predicate SenderOk(e: End, flowBytes: nat) {
    var snd := e.flow.snd;
    && e.log.Valid()
    && snd.next == |e.log.bytes| < TWO64 && snd.window < TWO64
    && Retains(e.log, snd)
    && snd.sendBytes == SeqCost(snd.pending)
    && snd.sendBytes + (if e.reading > 0 then e.reading + SEGMENT_OVERHEAD else 0) <= flowBytes
    && (e.reading > 0 ==> !snd.readEOF && e.reading <= CHUNK && snd.next + e.reading < TWO64)
    && e.log.Faithful()
    && e.log.bytes <= e.source
    && (e.flow.ending.Running? || snd.readEOF ==> e.source == e.log.bytes)
    && (e.reading > 0 || e.log.bytes != [] || snd.readEOF ==> e.flow.isOpen)
  }

  /** The ready queue is the run of the peer's segments from `done` on. */
  ghost predicate Queued(log: Log, done: nat, r: Receiver)
  {
    && done + |r.ready| <= |log.segs|
    && r.recvNext == log.Cut(done + |r.ready|)
    && r.consumed == log.Cut(done)
    && r.ready == log.segs[done..done + |r.ready|]
  }

  /** Segments held out of order are the peer's own, numbered k or later. */
  ghost predicate Ahead(log: Log, recv: map<nat, Segment>, k: nat)
  {
    forall o :: o in recv ==> recv[o].offset == o && Known(log, recv[o], k)
  }

  ghost predicate Placed(log: Log, done: nat, r: Receiver)
  {
    Queued(log, done, r) && Ahead(log, r.recv, done + |r.ready|)
  }

  ghost predicate Handed(log: Log, e: End)
  {
    && e.delivered <= log.bytes
    && (e.writing ==> e.flow.rcv.ready != [] && e.written <= |e.flow.rcv.ready[0].data|)
    && (e.writing || e.flow.ending.Running? ==>
          e.delivered == Prefix(log.bytes, e.flow.rcv.consumed + if e.writing then e.written else 0))
  }

  ghost function Prefix(bytes: seq<Byte>, n: nat): seq<Byte> {
    if n <= |bytes| then bytes[..n] else bytes
  }

  ghost predicate ReceiverOk(peer: End, e: End, flowBytes: nat)
  {
    var r := e.flow.rcv;
    && Placed(peer.log, e.done, r)
    && Sound(r) && r.recvBytes <= flowBytes
    && Handed(peer.log, e)
    && (r.recvFIN ==> peer.flow.snd.readEOF && r.finOffset == peer.flow.snd.next)
    && (r.finApplied ==> r.recvFIN && r.recvNext == r.finOffset)
  }

  ghost predicate ForwardOk(e: End, frames: set<Msg>)
  {
    && (forall m :: m in frames && m.Data? ==> Known(e.log, m.seg, 0))
    && (forall m :: m in frames && m.Fin? ==> e.flow.snd.readEOF && m.offset == e.flow.snd.next)
  }

  /** Frames about e's stream that came back from the peer. */
  ghost predicate BackwardOk(e: End, peer: End, frames: set<Msg>, flowBytes: nat)
  {
    var k := peer.done + |peer.flow.rcv.ready|;
    && k <= |e.log.segs|
    && |e.log.segs| - |e.flow.snd.pending| <= k
    && (forall m :: m in frames && m.Ack? ==> IsCut(e.log, m.offset, k) && Credited(m, flowBytes))
    && (forall m :: m in frames && m.FinAck? ==> peer.flow.rcv.recvFIN && m.offset == peer.flow.rcv.finOffset)
    && (e.flow.snd.finACK ==> e.flow.snd.readEOF && peer.flow.rcv.recvFIN)
  }

  /** Every window granted is within one flow window of its offset, modulo 2^64. */
  ghost predicate Credited(m: Msg, flowBytes: nat)
    requires m.Ack?
  {
    && m.window < TWO64
    && (|| m.offset <= m.window <= m.offset + flowBytes
        || (m.window < m.offset && m.offset + flowBytes >= TWO64))
  }

  ghost predicate Direction(e: End, peer: End, out: set<Msg>, back: set<Msg>, flowBytes: nat) {
    && SenderOk(e, flowBytes)
    && ReceiverOk(e, peer, flowBytes)
    && ForwardOk(e, out)
    && BackwardOk(e, peer, back, flowBytes)
  }

  /** Which endings a correct pair can reach. */
  ghost predicate EndingOk(e: End, gateway: bool, flowBytes: nat) {
    match e.flow.ending
    case Running => true
    case Closed(InvalidFrame) => gateway && !e.flow.isOpen
    case Closed(InvalidAck) => e.flow.snd.next + flowBytes >= TWO64
    case Closed(BeyondFinish) => false
    case Closed(Overlap) => false
    case Closed(InvalidFinish) => false
    case Closed(Finished) => Complete(e)
    case Closed(PeerClosed) => true
    case Closed(Local) => true
  }

  /** The state in which the endpoint writer closes a flow by itself. */
  ghost predicate Complete(e: End) {
    && e.flow.rcv.finApplied && e.flow.rcv.ready == [] && !e.writing
    && |e.delivered| == e.flow.rcv.consumed
    && e.flow.snd.readEOF && e.flow.snd.finACK && e.flow.snd.pending == []
  }

  ghost predicate Inv(s: Sys) {
    && CHUNK <= s.flowBytes <= 16 * 1024 * 1024
    && Direction(s.gateway, s.relay, s.toRelay, s.toGateway, s.flowBytes)
    && Direction(s.relay, s.gateway, s.toGateway, s.toRelay, s.flowBytes)
    && EndingOk(s.gateway, true, s.flowBytes)
    && EndingOk(s.relay, false, s.flowBytes)
    && (s.relayMade ==> s.seen.Contains(s.id))
    && (s.gateway.flow.isOpen ==> s.relay.flow.isOpen)
    && (forall m :: m in s.toGateway && m.Opened? ==> s.relay.flow.isOpen && m.credit == s.flowBytes)
  }

  // ----- facts about logs

  /** Cuts are strictly increasing, one segment apart. */
  lemma {:induction false} CutsOrdered(log: Log, i: int, j: int)
    requires log.Valid() && 0 <= i < j <= |log.segs|
    ensures log.Cut(i) < log.segs[i].End() == log.Cut(i + 1) <= log.Cut(j) <= |log.bytes|
    ensures 0 < |log.segs[i].data| <= CHUNK
    decreases |log.segs| - i
  {
    assert log.Linked(i);
    if i + 1 < |log.segs| { assert log.Linked(i + 1); }
    if i + 1 < j {
      CutsOrdered(log, i + 1, j);
    } else if j < |log.segs| {
      CutsOrdered(log, j, |log.segs|);
    }
  }

  lemma Apart(log: Log, i: int, j: int)
    requires log.Valid() && 0 <= i < |log.segs| && 0 <= j < |log.segs|
    ensures i != j ==> !Meets(log.segs[i], log.segs[j])
  {
    if i < j { CutsOrdered(log, i, j); }
    if j < i { CutsOrdered(log, j, i); }
  }

  lemma AppendKeeps(log: Log, data: seq<Byte>)
    requires log.Valid() && log.Faithful() && |data| <= CHUNK
    ensures log.Append(data).Valid() && log.Append(data).Faithful()
    ensures forall i :: 0 <= i <= |log.segs| ==> log.Append(data).Cut(i) == log.Cut(i)
  {
    var l := log.Append(data);
    if data != [] {
      forall i | 0 <= i < |l.segs| ensures l.Linked(i) {
        if i < |log.segs| { assert log.Linked(i); }
      }
      forall i | 0 <= i < |l.segs| ensures l.Carries(i) {
        if i < |log.segs| {
          assert log.Carries(i);
          assert l.bytes[l.segs[i].offset..l.segs[i].End()] == log.bytes[log.segs[i].offset..log.segs[i].End()];
        }
      }
    }
  }

  lemma KnownKept(log: Log, data: seq<Byte>, seg: Segment, from: nat)
    requires Known(log, seg, from)
    ensures Known(log.Append(data), seg, from)
  {
    var i :| from <= i < |log.segs| && seg == log.segs[i];
    assert seg == log.Append(data).segs[i];
  }
}
