/** Around a stream: the resource limits each side starts with, the flow window
    the two sides agree on although hellos and welcomes may be delayed, and the
    bytes that carry every message of a run (internal/continuity: types.go,
    gateway.go connect, relay.go accept, wire.go). */
module Session {
  import opened StreamFlow
  import opened StreamSystem
  import StreamProofs
  import PeerBudget
  import opened Intent
  import Wire

  // ----- limits

  /** A resource profile as configured, 0 for a default.  Times in milliseconds. */
  datatype Profile = Profile(buffer: int, udpReserve: int, flow: int, control: int, maxTCP: int, maxUDP: int,
                             grace: int, udpIdle: int, udpReplay: int)

  const DEFAULTS := Profile(0x200_0000, 0x40_0000, 0x20_0000, 0x4_0000, 512, 256, 30000, 120000, 100)

  function Or(value: int, default: int): int { if value == 0 then default else value }

  predicate Within(l: Profile) {
    && 0x8_0000 <= l.buffer <= 0x4000_0000 && 0x4_0000 <= l.udpReserve < l.buffer
    && 0x4000 <= l.flow <= 0x100_0000 && 0x1_0000 <= l.control <= 0x40_0000
    && 1 <= l.maxTCP <= 4096 && 1 <= l.maxUDP <= 4096
    && 1000 <= l.grace <= 300000 && 1000 <= l.udpIdle <= 3600000 && 1 <= l.udpReplay <= 1000
  }

  function Normalized(l: Profile): Option<Profile> {
    var n := Profile(Or(l.buffer, DEFAULTS.buffer), Or(l.udpReserve, DEFAULTS.udpReserve), Or(l.flow, DEFAULTS.flow),
                    Or(l.control, DEFAULTS.control), Or(l.maxTCP, DEFAULTS.maxTCP), Or(l.maxUDP, DEFAULTS.maxUDP),
                    Or(l.grace, DEFAULTS.grace), Or(l.udpIdle, DEFAULTS.udpIdle), Or(l.udpReplay, DEFAULTS.udpReplay));
    if Within(n) then Some(n) else None
  }

  /** An empty profile gets the documented defaults, and what is accepted lies within
      the documented bounds. */
  lemma NormalizedMeans(l: Profile)
    ensures Normalized(Profile(0, 0, 0, 0, 0, 0, 0, 0, 0)) ==
            Some(Profile(33554432, 4194304, 2097152, 262144, 512, 256, 30000, 120000, 100))
    ensures Normalized(l).Some? ==>
              var n := Normalized(l).value;
              && 524288 <= n.buffer <= 1073741824 && 262144 <= n.udpReserve < n.buffer && 16384 <= n.flow <= 16777216
              && 65536 <= n.control <= 4194304 && 1 <= n.maxTCP <= 4096 && 1 <= n.maxUDP <= 4096
              && 1000 <= n.grace <= 300000 && 1000 <= n.udpIdle <= 3600000 && 1 <= n.udpReplay <= 1000
              && (l.buffer != 0 ==> n.buffer == l.buffer) && (l.flow != 0 ==> n.flow == l.flow) && (l.control != 0 ==> n.control == l.control)
  {
  }

  /** What was normalized once is left alone by the peer's check of it, also after
      its flow window has been narrowed by an agreement. */
  lemma NormalizedStays(l: Profile, flow: int)
    requires Normalized(l).Some? && 0x4000 <= flow <= Normalized(l).value.flow
    ensures Normalized(Normalized(l).value.(flow := flow)) == Some(Normalized(l).value.(flow := flow))
  {
  }

  /** The limits that the byte budgets of a peer work with. */
  function Budget(l: Profile): PeerBudget.Limits
    requires Within(l)
  {
    PeerBudget.Limits(l.buffer, l.udpReserve, l.flow, l.control, l.maxTCP, l.maxUDP)
  }

  /** A normalized profile always leaves a peer's datagram pools room for a flow
      and a whole chunk; its stream pools exactly when the datagram reserve leaves
      enough of the buffer, which nothing checks. */
  lemma NormalizedBudgets(l: Profile, p: PeerBudget.Pool)
    requires Normalized(l).Some?
    ensures var b := Budget(Normalized(l).value);
            && b.udpReserve <= b.buffer
            && (PeerBudget.FLOW_OVERHEAD + CHUNK + SEGMENT_OVERHEAD <= PeerBudget.Share(b, p) <==> p.udp || b.buffer - b.udpReserve >= 37248)
  {
  }

  /** A profile that is accepted and can never carry a stream. */
  lemma NoStreamFits()
    ensures var l := DEFAULTS.(udpReserve := DEFAULTS.buffer - 1);
            && Normalized(l) == Some(l)
            && PeerBudget.Share(Budget(l), PeerBudget.Pool(false, false)) < PeerBudget.FLOW_OVERHEAD
  {
  }

  // ----- agreeing on a flow window

  /** `generation` 0: none known yet. */
  datatype Hello = Hello(flow: nat, generation: nat)
  datatype Welcome = Welcome(flow: nat, generation: nat)

  /** `offered` and `allowed` are the configured windows of gateway and relay.  A
      relay that restarts has a new generation and forgets its session. */
  datatype Agreement = Agreement(
    offered: nat, flow: nat, joined: nat,
    allowed: map<nat, nat>, generation: nat, session: Option<nat>,
    hellos: set<Hello>, welcomes: set<Welcome>)

  datatype Move =
    | SendHello | Accept(hello: Hello) | Refuse(hello: Hello) | Expire
    | Receive(welcome: Welcome) | Restart(allowed: nat)

  function Smaller(a: nat, b: nat): nat { if a < b then a else b }

  predicate WindowOk(w: nat) { 0x4000 <= w <= 0x100_0000 }

  predicate Begins(a: Agreement) {
    && WindowOk(a.offered) && a.flow == a.offered && a.joined == 0 && a.generation == 1
    && 1 in a.allowed && WindowOk(a.allowed[1]) && a.session.None?
    && a.hellos == {} && a.welcomes == {}
  }

  /** Whether the gateway takes a welcome. */
  predicate Takes(a: Agreement, w: Welcome) {
    && 0x4000 <= w.flow <= a.flow && (a.joined != 0 ==> w.flow == a.flow)
    && (a.joined != 0 ==> w.generation == a.joined)
  }

  predicate May(a: Agreement, m: Move) {
    match m
    case SendHello => true
    case Accept(h) =>
      && h in a.hellos && (h.generation == 0 || h.generation == a.generation)
      && (a.session.None? ==> h.generation == 0) && a.generation in a.allowed
    case Refuse(h) => h in a.hellos
    case Expire => true
    case Receive(w) => w in a.welcomes
    case Restart(r) => WindowOk(r)
  }

  function Moved(a: Agreement, m: Move): Agreement
    requires May(a, m)
  {
    match m
    case SendHello => a.(hellos := a.hellos + {Hello(a.flow, a.joined)})
    case Accept(h) =>
      var flow := if a.session.Some? then a.session.value else Smaller(a.allowed[a.generation], h.flow);
      a.(session := Some(flow), welcomes := a.welcomes + {Welcome(flow, a.generation)})
    case Refuse(h) => a
    case Expire => a.(session := None)
    case Receive(w) =>
      if Takes(a, w) then a.(flow := w.flow, joined := w.generation) else a
    case Restart(r) => a.(generation := a.generation + 1, session := None, allowed := a.allowed[a.generation + 1 := r])
  }

  /** The window of a generation is the smaller of what the two sides configured,
      whichever message carries it. */
  ghost predicate Agreed(a: Agreement, generation: nat, flow: nat) {
    generation in a.allowed && flow == Smaller(a.allowed[generation], a.offered)
  }

  ghost predicate AgreementOk(a: Agreement) {
    && WindowOk(a.offered) && a.generation >= 1
    && (forall g :: g in a.allowed <==> 1 <= g <= a.generation)
    && (forall g :: g in a.allowed ==> WindowOk(a.allowed[g]))
    && (if a.joined == 0 then a.flow == a.offered else Agreed(a, a.joined, a.flow))
    && (a.session.Some? ==> Agreed(a, a.generation, a.session.value))
    && (forall h :: h in a.hellos ==> if h.generation == 0 then h.flow == a.offered else Agreed(a, h.generation, h.flow))
    && (forall w :: w in a.welcomes ==> Agreed(a, w.generation, w.flow))
  }

  lemma MoveKeeps(a: Agreement, m: Move)
    requires AgreementOk(a) && May(a, m)
    ensures AgreementOk(Moved(a, m))
  {
  }

  ghost predicate Moves(states: seq<Agreement>, moves: seq<Move>) {
    && |states| == |moves| + 1 && Begins(states[0]) && states[0].allowed.Keys == {1}
    && forall i :: 0 <= i < |moves| ==> May(states[i], moves[i]) && states[i + 1] == Moved(states[i], moves[i])
  }

  lemma {:induction false} MovesKeep(states: seq<Agreement>, moves: seq<Move>, n: nat)
    requires Moves(states, moves) && n < |states|
    ensures AgreementOk(states[n])
  {
    if n > 0 {
      MovesKeep(states, moves, n - 1);
      MoveKeeps(states[n - 1], moves[n - 1]);
    }
  }

  /** In every run of hellos and welcomes, delayed, repeated or lost, across
      expired sessions and relay restarts: once the gateway has joined, its window
      is the window of the relay's session of that generation, and a welcome of
      its own generation is never refused. */
  lemma WindowsAgree(states: seq<Agreement>, moves: seq<Move>, n: nat)
    requires Moves(states, moves) && n < |states|
    ensures var a := states[n];
            && WindowOk(a.flow)
            && (a.joined == a.generation && a.session.Some? ==> a.session.value == a.flow)
            && (forall w :: w in a.welcomes && (a.joined == 0 || a.joined == w.generation) ==> Takes(a, w))
            && (a.joined != 0 ==> Agreed(a, a.joined, a.flow))
            && (a.joined != 0 ==> a.flow <= a.offered && a.flow <= a.allowed[a.joined] && (a.flow == a.offered || a.flow == a.allowed[a.joined]))
  {
    MovesKeep(states, moves, n);
  }

  // ----- messages as frames

  /** `target` is the destination named by the opening frame. */
  function FrameOf(m: Msg, id: nat, target: seq<Byte>): Wire.Frame {
    match m
    case Open => Wire.Frame(1, id, 0, 0, target)
    case Opened(w) => Wire.Frame(2, id, 0, w, [])
    case Data(seg) => Wire.Frame(3, id, seg.offset, 0, seg.data)
    case Ack(o, w) => Wire.Frame(4, id, o, w, [])
    case Fin(o) => Wire.Frame(5, id, o, 0, [])
    case FinAck(o) => Wire.Frame(6, id, o, 0, [])
    case CloseMsg => Wire.Frame(7, id, 0, 0, [])
    case ClosedMsg => Wire.Frame(13, id, 0, 0, [])
  }

  function MsgOf(f: Wire.Frame): Option<Msg> {
    if f.kind == 1 then Some(Open)
    else if f.kind == 2 then Some(Opened(f.value))
    else if f.kind == 3 then Some(Data(Segment(f.offset, f.data)))
    else if f.kind == 4 then Some(Ack(f.offset, f.value))
    else if f.kind == 5 then Some(Fin(f.offset))
    else if f.kind == 6 then Some(FinAck(f.offset))
    else if f.kind == 7 then Some(CloseMsg)
    else if f.kind == 13 then Some(ClosedMsg)
    else None
  }

  /** Offsets and windows of everything on the network fit 64 bits. */
  ghost predicate Fits(m: Msg) {
    match m
    case Opened(w) => w < TWO64
    case Data(seg) => seg.offset < TWO64 && |seg.data| <= CHUNK
    case Ack(o, w) => o < TWO64 && w < TWO64
    case Fin(o) => o < TWO64
    case FinAck(o) => o < TWO64
    case Open => true
    case CloseMsg => true
    case ClosedMsg => true
  }

  lemma SentFits(e: End, p: End, out: set<Msg>, back: set<Msg>, fb: nat, m: Msg)
    requires Direction(e, p, out, back, fb)
    ensures m in out && (m.Data? || m.Fin?) ==> Fits(m)
    ensures m in back && (m.Ack? || m.FinAck?) ==> Fits(m)
  {
    if m in out && m.Data? {
      var i :| 0 <= i < |e.log.segs| && m.seg == e.log.segs[i];
      CutsOrdered(e.log, i, |e.log.segs|);
    }
    if m in back && m.Ack? {
      var i :| 0 <= i <= |e.log.segs| && m.offset == e.log.Cut(i);
      assert |e.log.bytes| < TWO64;
      if i < |e.log.segs| {
        CutsOrdered(e.log, i, |e.log.segs|);
        assert m.offset < |e.log.bytes|;
      } else {
        assert i == |e.log.segs| && e.log.Cut(|e.log.segs|) == |e.log.bytes|;
        assert m.offset == |e.log.bytes|;
      }
    }
  }

  /** Only the relay says that a flow is open. */
  lemma {:induction false} OpenedComesFromRelay(states: seq<Sys>, steps: seq<Step>, n: nat)
    requires Run(states, steps) && n < |states|
    ensures forall m :: m in states[n].toRelay ==> !m.Opened?
  {
    if n > 0 {
      OpenedComesFromRelay(states, steps, n - 1);
      assert Enabled(states[n - 1], steps[n - 1]) && states[n] == Next(states[n - 1], steps[n - 1]);
    }
  }

  lemma RunFits(s: Sys, m: Msg)
    requires Inv(s) && (m in s.toRelay || m in s.toGateway) && (m.Opened? ==> m in s.toGateway)
    ensures Fits(m)
  {
    SentFits(s.gateway, s.relay, s.toRelay, s.toGateway, s.flowBytes, m);
    SentFits(s.relay, s.gateway, s.toGateway, s.toRelay, s.flowBytes, m);
  }

  lemma FrameKeeps(m: Msg, id: nat, target: seq<Byte>)
    requires Fits(m) && id < TWO64 && |target| <= Wire.MAX_PAYLOAD
    ensures var f := FrameOf(m, id, target); f.Valid() && f.flow == id && MsgOf(f) == Some(m)
  {
  }

  /** Every message that either end of a run ever emits is a valid frame, and the
      reader of a carrier gets that message back from its bytes, whatever
      follows. */
  lemma MessagesSurviveTheWire(states: seq<Sys>, steps: seq<Step>, n: nat, m: Msg, target: seq<Byte>, rest: seq<Byte>)
    requires Run(states, steps) && n < |states| && states[n].id < TWO64 && |target| <= Wire.MAX_PAYLOAD
    requires m in states[n].toGateway || m in states[n].toRelay
    ensures var f := FrameOf(m, states[n].id, target);
            && f.Valid() && Wire.Decode(Wire.Encode(f) + rest) == Wire.Ok(f, rest)
            && f.flow == states[n].id && MsgOf(f) == Some(m)
  {
    var f := FrameOf(m, states[n].id, target);
    assert Fits(m) by {
      StreamProofs.RunKeepsInv(states, steps, n);
      OpenedComesFromRelay(states, steps, n);
      RunFits(states[n], m);
    }
    FrameKeeps(m, states[n].id, target);
    Wire.DecodeEncode(f, rest);
  }
}
