/** Runs that end badly although both ends are correct, and exactly when they do:
    what a plain reading of internal/continuity/peer.go would not expect. */
module StreamWitness {
  import opened StreamFlow
  import opened StreamSystem
  import opened StreamProofs
  import opened DatagramWindow

  // ----- building runs

  lemma Extended(states: seq<Sys>, steps: seq<Step>, step: Step)
    requires Run(states, steps) && Enabled(states[|steps|], step)
    ensures Run(states + [Next(states[|steps|], step)], steps + [step])
  {
  }

  /** Some run reaches the state. */
  ghost predicate Reachable(s: Sys) {
    exists states: seq<Sys>, steps: seq<Step> :: Run(states, steps) && states[|steps|] == s
  }

  lemma Reaches(s: Sys, step: Step)
    requires Reachable(s) && Enabled(s, step)
    ensures Reachable(Next(s, step))
  {
    var states: seq<Sys>, steps: seq<Step> :| Run(states, steps) && states[|steps|] == s;
    Extended(states, steps, step);
    var longer, more := states + [Next(s, step)], steps + [step];
    assert longer[|more|] == Next(s, step);
  }

  lemma Then(s: Sys, step: Step, t: Sys)
    requires Reachable(s) && Enabled(s, step) && Next(s, step) == t
    ensures Reachable(t)
  {
    Reaches(s, step);
  }

  // ----- an open stream

  const FB: nat := 32768

  function First(): Sys { Sys(1, FB, NEW_END, NEW_END, false, Seen(0, {}), {}, {}) }

  /** An end whose flow is open with a full window. */
  function OpenEnd(): End { NEW_END.(flow := NEW_FLOW.(isOpen := true, snd := IDLE_SENDER.(window := FB))) }

  /** The relay has opened its target and told the gateway, which has not heard. */
  function Unheard(): Sys {
    Sys(1, FB, NEW_END, OpenEnd(), true, Seen(0, {}).Add(1), {Open}, {Opened(FB)})
  }

  function Ready(): Sys { Unheard().(gateway := OpenEnd()) }

  lemma FirstReached()
    ensures Reachable(First())
  {
    assert Fresh(NEW_END);
    assert Run([First()], []) && [First()][0] == First();
  }

  /** The relay has made the flow and not yet reached its target. */
  function Made(): Sys { First().(toRelay := {Open}, relayMade := true, seen := Seen(0, {}).Add(1)) }

  lemma MadeReached()
    ensures Reachable(Made())
  {
    FirstReached();
    var s1 := First().(toRelay := {Open});
    Then(First(), At(true, Emit(Open, 0)), s1);
    Then(s1, At(false, Deliver(Open, 0, true)), Made());
  }

  lemma UnheardReached()
    ensures Reachable(Unheard())
  {
    MadeReached();
    var s3 := Made().(relay := OpenEnd());
    Then(Made(), TargetOpened, s3);
    Then(s3, At(false, Emit(Opened(FB), 0)), Unheard());
  }

  lemma OpenedReached()
    ensures Reachable(Ready())
  {
    UnheardReached();
    Then(Unheard(), At(true, Deliver(Opened(FB), 0, true)), Ready());
  }

  // ----- one byte

  const BYTE: seq<Byte> := [7]

  function Seg(): Segment { Segment(0, BYTE) }

  /** An open end that has read one byte, and maybe the end of input. */
  function Sent(eof: bool): End {
    OpenEnd().(flow := OpenEnd().flow.(snd := Sender(1, 0, FB, [Seg()], 193, eof, false)), log := Log(BYTE, [Seg()]), source := BYTE)
  }

  lemma ReadsByte(eof: bool)
    ensures MayAct(OpenEnd(), StartRead, true, FB) && MayAct(OpenEnd(), StartRead, false, FB)
    ensures ReadSize(OpenEnd().flow, FB) == CHUNK
    ensures EndRead(OpenEnd().(reading := CHUNK), BYTE, eof, false) == Sent(eof)
  {
    var e := OpenEnd().(reading := CHUNK);
    assert e.log.bytes + BYTE == BYTE && e.log.segs + [Seg()] == [Seg()] && e.source + BYTE == BYTE;
    assert IDLE_SENDER.pending + [Seg()] == [Seg()];
  }

  // ----- DATA overtakes OPENED

  /** The relay's first bytes reach the gateway before its OPENED does, and the
      gateway closes its flow although nobody has done anything wrong. */
  lemma DataOvertakesOpened()
    ensures exists s :: Reachable(s) && s.gateway.flow.ending == Closed(InvalidFrame) && s.relay == Sent(false)
  {
    SpeaksFirst();
    var s2 := Unheard().(relay := Sent(false));
    var s3 := s2.(toGateway := {Opened(FB), Data(Seg())});
    Then(s2, At(false, Emit(Data(Seg()), 0)), s3);
    var s4 := s3.(gateway := NEW_END.(flow := Close(NEW_FLOW, InvalidFrame)));
    Then(s3, At(true, Deliver(Data(Seg()), 0, true)), s4);
  }

  lemma SpeaksFirst()
    ensures Reachable(Unheard().(relay := Sent(false)))
  {
    UnheardReached();
    ReadsByte(false);
    var s1 := Unheard().(relay := OpenEnd().(reading := CHUNK));
    Then(Unheard(), At(false, StartRead), s1);
    var s2 := Unheard().(relay := Sent(false));
    Then(s1, At(false, FinishRead(BYTE, false, false)), s2);
  }

  /** It is closed in this way exactly when DATA arrives before OPENED. */
  lemma OvertakenExactly(states: seq<Sys>, steps: seq<Step>, n: nat, m: Msg, free: int)
    requires Run(states, steps) && n < |states| && m in states[n].toGateway && m.Data? && states[n].gateway.flow.ending.Running?
    ensures Receive(states[n].gateway, true, m, states[n].flowBytes, free).flow.ending == Closed(InvalidFrame)
            <==> !states[n].gateway.flow.isOpen
  {
    RunKeepsInv(states, steps, n);
    var s := states[n];
    var i :| 0 <= i < |s.relay.log.segs| && m.seg == s.relay.log.segs[i];
    CutsOrdered(s.relay.log, i, |s.relay.log.segs|);
  }

  // ----- the second segment overtakes the first

  function Second(): Segment { Segment(1, BYTE) }

  /** An end that has read one byte twice. */
  function SentTwo(): End {
    OpenEnd().(flow := OpenEnd().flow.(snd := Sender(2, 0, FB, [Seg(), Second()], 386, false, false)),
               log := Log(BYTE + BYTE, [Seg(), Second()]), source := BYTE + BYTE)
  }

  function Two(): Sys { Ready().(gateway := SentTwo()) }

  lemma TwoReached()
    ensures Reachable(Two())
  {
    OpenedReached();
    ReadsByte(false);
    var s1 := Ready().(gateway := OpenEnd().(reading := CHUNK));
    Then(Ready(), At(true, StartRead), s1);
    var s2 := Ready().(gateway := Sent(false));
    Then(s1, At(true, FinishRead(BYTE, false, false)), s2);
    ReadsAgain();
    var s3 := Ready().(gateway := Sent(false).(reading := ReadSize(Sent(false).flow, FB)));
    Then(s2, At(true, StartRead), s3);
    Then(s3, At(true, FinishRead(BYTE, false, false)), Two());
  }

  lemma ReadsAgain()
    ensures MayAct(Sent(false), StartRead, true, FB) && ReadSize(Sent(false).flow, FB) >= 1
    ensures EndRead(Sent(false).(reading := ReadSize(Sent(false).flow, FB)), BYTE, false, false) == SentTwo()
  {
    assert [Seg()] + [Second()] == [Seg(), Second()];
  }

  /** The relay that holds the second byte ahead of the first. */
  function HoldsAhead(): End {
    OpenEnd().(flow := OpenEnd().flow.(rcv := IDLE_RECEIVER.(recv := map[1 := Second()], recvBytes := 193)))
  }

  lemma HeldAhead()
    ensures OnData(OpenEnd().flow, Second(), FB, 1000) == HoldsAhead().flow
  {
    var q := Put(IDLE_RECEIVER, Second());
    assert map[][1 := Second()] == map[1 := Second()];
    assert Drain(q) == q;
  }

  lemma BothDrained()
    ensures var r := OnData(HoldsAhead().flow, Seg(), FB, 1000).rcv;
            r.ready == [Seg(), Second()] && r.recvNext == 2 && r.recv == map[]
  {
    var r := HoldsAhead().flow.rcv;
    var q := Put(r, Seg());
    assert Trim(Seg(), 0) == Seg() && !Conflict(r, Seg());
    var q1 := DrainOne(q);
    assert q1.recv == map[1 := Second()] && q1.ready == [Seg()];
    var q2 := DrainOne(q1);
    assert q2.recv == map[] && q2.ready == [Seg(), Second()];
    assert Drain(q) == Drain(q1) == Drain(q2) == q2;
  }

  /** In a run the second segment overtakes the first, is held, and both become
      ready in order when the first arrives. */
  lemma ReorderedIsReassembled()
    ensures exists s, t :: Reachable(s) && Reachable(t)
              && s.relay.flow.rcv.recv == map[1 := Second()] && s.relay.flow.rcv.ready == []
              && t.relay.flow.rcv.ready == [Seg(), Second()] && t.relay.flow.rcv.recv == map[]
  {
    TwoReached();
    HeldAhead();
    BothDrained();
    var s1 := Two().(toRelay := {Open, Data(Second())});
    Then(Two(), At(true, Emit(Data(Second()), 0)), s1);
    var s2 := s1.(relay := HoldsAhead());
    Then(s1, At(false, Deliver(Data(Second()), 1000, true)), s2);
    var s3 := s2.(toRelay := {Open, Data(Second()), Data(Seg())});
    Then(s2, At(true, Emit(Data(Seg()), 0)), s3);
    var s4 := s3.(relay := HoldsAhead().(flow := OnData(HoldsAhead().flow, Seg(), FB, 1000)));
    Then(s3, At(false, Deliver(Data(Seg()), 1000, true)), s4);
  }

  // ----- the window falls

  function Small(): Msg { Ack(0, 8) }
  function Large(): Msg { Ack(0, 808) }

  /** Two acknowledgements change places on the way, and the sender is left with
      less than it was last granted. */
  lemma WindowFalls()
    ensures exists s, t :: Reachable(s) && Reachable(t) && t == Late(s) && t.gateway.flow.snd.window < s.gateway.flow.snd.window
  {
    BothGranted();
    var s2 := Ready().(toGateway := {Opened(FB), Small(), Large()});
    var wide := OpenEnd().(flow := OpenEnd().flow.(snd := IDLE_SENDER.(window := 808)));
    var s3 := s2.(gateway := wide);
    Then(s2, At(true, Deliver(Large(), 0, true)), s3);
    var narrow := OpenEnd().(flow := OpenEnd().flow.(snd := IDLE_SENDER.(window := 8)));
    var s4 := s3.(gateway := narrow);
    Then(s3, At(true, Deliver(Small(), 0, true)), s4);
    assert s4 == Late(s3);
  }

  lemma BothGranted()
    ensures Reachable(Ready().(toGateway := {Opened(FB), Small(), Large()}))
  {
    SmallGranted();
    var s1 := Ready().(toGateway := {Opened(FB), Small()});
    Then(s1, At(false, Emit(Large(), 1000)), s1.(toGateway := {Opened(FB), Small(), Large()}));
  }

  lemma SmallGranted()
    ensures Reachable(Ready().(toGateway := {Opened(FB), Small()}))
  {
    OpenedReached();
    Then(Ready(), At(false, Emit(Small(), 200)), Ready().(toGateway := {Opened(FB), Small()}));
  }

  /** The delivery of the acknowledgement that comes late. */
  function Late(s: Sys): Sys { s.(gateway := Receive(s.gateway, true, Small(), s.flowBytes, 0)) }

  /** What an acknowledgement does to the window in any run: it is refused when its
      own window has wrapped, and otherwise its window is taken as it is, whether it
      grants more than the last one or less. */
  lemma WindowFallsExactly(states: seq<Sys>, steps: seq<Step>, n: nat, gateway: bool, m: Msg, free: int)
    requires Run(states, steps) && n < |states| && m.Ack? && m in (if gateway then states[n].toGateway else states[n].toRelay)
    requires (if gateway then states[n].gateway else states[n].relay).flow.ending.Running?
    ensures var e := if gateway then states[n].gateway else states[n].relay;
            var f := Receive(e, gateway, m, states[n].flowBytes, free).flow;
            && (f.ending == Closed(InvalidAck) <==> m.window < m.offset)
            && (f.ending.Running? ==> f.snd.window == m.window)
            && (f.ending.Running? && m.offset <= e.flow.snd.acked ==> f == e.flow.(snd := e.flow.snd.(window := m.window)))
  {
    RunKeepsInv(states, steps, n);
    var s := states[n];
    var e := if gateway then s.gateway else s.relay;
    var i :| 0 <= i <= |e.log.segs| && m.offset == e.log.Cut(i);
    CutBound(e.log, i);
  }

  // ----- a wrapped window

  /** A receiver a hundred bytes short of 2^64 grants a window that has wrapped,
      and its correct sender closes the flow. */
  lemma WrappedWindowCloses()
    ensures var r := IDLE_RECEIVER.(recvNext := TWO64 - 100, consumed := TWO64 - 100);
            var f := NEW_FLOW.(isOpen := true, snd := IDLE_SENDER.(next := TWO64 - 100, acked := TWO64 - 100));
            var w := ReceiveWindow(r, FB, FB);
            w == 32476 && OnAck(f, r.recvNext, w, FB).ending == Closed(InvalidAck)
  {
  }

  // ----- a clean close that does not reach the socket

  function Keeping(fin: bool): Receiver { Receiver(map[], [Seg()], 1, 0, 193, fin, if fin then 1 else 0, false) }

  /** The relay with the byte in its ready queue, its own input open or at its end. */
  function Holding(fin: bool, eof: bool): End {
    OpenEnd().(flow := Flow(true, Running, IDLE_SENDER.(window := FB, readEOF := eof), Keeping(fin)))
  }

  lemma StoresByte(free: int)
    requires free >= 1000
    ensures OnData(OpenEnd().flow, Seg(), FB, free) == Holding(false, false).flow
  {
    var r := IDLE_RECEIVER;
    var held := r.(recv := r.recv[0 := Seg()], recvBytes := 193);
    assert Trim(Seg(), 0) == Seg();
    assert held.recv - {0} == map[] && r.ready + [Seg()] == [Seg()];
    assert Drain(held) == Drain(DrainOne(held));
    assert DrainOne(held) == Keeping(false);
    assert Drain(Keeping(false)) == Keeping(false);
  }

  /** The gateway whose byte is acknowledged; its finish may be, too. */
  function Told(ack: bool, fin: bool): End {
    Sent(true).(flow := Flow(true, Running, Sender(1, 1, 809, [], 0, true, ack),
                             IDLE_RECEIVER.(recvFIN := fin)))
  }

  lemma AckTaken()
    ensures OnAck(Sent(true).flow, 1, 809, FB) == Told(false, false).flow
    ensures ReceiveWindow(Keeping(false), FB, 1000) == 809
  {
    assert Unacked([Seg()], 1) == [] by { assert [Seg()][1..] == []; }
    assert SeqCost([Seg()]) == 193 by { assert [Seg()][1..] == []; }
  }

  function S1(): Sys { Ready().(gateway := Sent(true)) }
  function S2(): Sys { S1().(relay := Holding(false, false), toRelay := {Open, Data(Seg())}) }
  function S3(): Sys { S2().(gateway := Told(false, false), toGateway := {Opened(FB), Ack(1, 809)}) }
  function S4(): Sys { S3().(relay := Holding(true, false), toRelay := {Open, Data(Seg()), Fin(1)}) }
  function S5(): Sys { S4().(gateway := Told(true, false), toGateway := {Opened(FB), Ack(1, 809), FinAck(1)}) }
  function S6(): Sys { S5().(relay := Holding(true, true)) }
  function S7(): Sys { S6().(gateway := Told(true, true), toGateway := {Opened(FB), Ack(1, 809), FinAck(1), Fin(0)}) }

  lemma S1Reached()
    ensures Reachable(S1())
  {
    OpenedReached();
    ReadsByte(true);
    var s := Ready().(gateway := OpenEnd().(reading := CHUNK));
    Then(Ready(), At(true, StartRead), s);
    Then(s, At(true, FinishRead(BYTE, true, false)), S1());
  }

  lemma S2Reached()
    ensures Reachable(S2())
  {
    S1Reached();
    StoresByte(1000);
    var s := S1().(toRelay := {Open, Data(Seg())});
    Then(S1(), At(true, Emit(Data(Seg()), 0)), s);
    Then(s, At(false, Deliver(Data(Seg()), 1000, true)), S2());
  }

  lemma S3Reached()
    ensures Reachable(S3())
  {
    S2Reached();
    AckTaken();
    var s := S2().(toGateway := {Opened(FB), Ack(1, 809)});
    Then(S2(), At(false, Emit(Ack(1, 809), 1000)), s);
    Then(s, At(true, Deliver(Ack(1, 809), 0, true)), S3());
  }

  lemma S4Reached()
    ensures Reachable(S4())
  {
    S3Reached();
    var s := S3().(toRelay := {Open, Data(Seg()), Fin(1)});
    Then(S3(), At(true, Emit(Fin(1), 0)), s);
    Then(s, At(false, Deliver(Fin(1), 0, true)), S4());
  }

  lemma S5Reached()
    ensures Reachable(S5())
  {
    S4Reached();
    var s := S4().(toGateway := {Opened(FB), Ack(1, 809), FinAck(1)});
    Then(S4(), At(false, Emit(FinAck(1), 0)), s);
    Then(s, At(true, Deliver(FinAck(1), 0, true)), S5());
  }

  lemma S6Reached()
    ensures Reachable(S6())
  {
    S5Reached();
    var e := Holding(true, false).(reading := CHUNK);
    var s := S5().(relay := e);
    assert ReadSize(Holding(true, false).flow, FB) == CHUNK;
    Then(S5(), At(false, StartRead), s);
    assert e.source + [] == e.source;
    assert EndRead(e, [], true, false) == Holding(true, true);
    Then(s, At(false, FinishRead([], true, false)), S6());
  }

  lemma S7Reached()
    ensures Reachable(S7())
  {
    S6Reached();
    var s := S6().(toGateway := {Opened(FB), Ack(1, 809), FinAck(1), Fin(0)});
    Then(S6(), At(false, Emit(Fin(0), 0)), s);
    Then(s, At(true, Deliver(Fin(0), 0, true)), S7());
  }

  /** The gateway after the finish handshake. */
  function Gone(): End { Told(true, true).(flow := OnIdleWriter(Told(true, true).flow)) }

  lemma GoneReached()
    ensures Reachable(S7().(gateway := Gone()))
    ensures Gone().flow.ending == Closed(Finished) && Gone().source == BYTE
  {
    S7Reached();
    Then(S7(), At(true, IdleWriter), S7().(gateway := Gone()));
  }

  /** The gateway has closed through the finish handshake and answers a late frame
      with CLOSE; that closes the relay's flow before its writer has taken up the
      byte, which by ClosedStays its socket will never be given. */
  lemma CleanCloseFallsShort()
    ensures exists s ::
              && Reachable(s) && s.gateway.flow.ending == Closed(Finished) && s.gateway.source == BYTE
              && s.relay.flow.ending == Closed(PeerClosed) && !Acting(s.relay) && s.relay.delivered == []
  {
    GoneReached();
    var s := S7().(gateway := Gone());
    var t := s.(toRelay := s.toRelay + {CloseMsg});
    Then(s, At(true, Emit(CloseMsg, 0)), t);
    var u := t.(relay := t.relay.(flow := Close(t.relay.flow, PeerClosed)));
    Then(t, At(false, Deliver(CloseMsg, 0, true)), u);
    assert !Acting(u.relay);
  }

  /** A broken write loses bytes that are no longer in the ready queue. */
  lemma BrokenWriteFallsShort()
    ensures exists s ::
              && Reachable(s) && s.gateway.flow.ending == Closed(Finished) && s.gateway.source == BYTE
              && !Acting(s.relay) && Unwritten(s.relay) == 0 && s.relay.delivered == []
  {
    GoneReached();
    var s := S7().(gateway := Gone());
    var t := s.(relay := s.relay.(writing := true));
    Then(s, At(false, StartWrite), t);
    var u := t.(relay := EndWrite(t.relay, true));
    Then(t, At(false, FinishWrite(true)), u);
    assert u.relay.flow.rcv.ready == [];
  }

  // ----- how far a clean close reaches

  /** The flow runs or its writer is in a write. */
  predicate Acting(e: End) { e.flow.ending.Running? || e.writing }

  /** What an end still has to write, the bytes of the segment in hand that are out
      not counted. */
  function Unwritten(e: End): int { Bytes(e.flow.rcv.ready) - if e.writing then e.written else 0 }

  function Side(s: Sys, gateway: bool): End { if gateway then s.gateway else s.relay }

  /** What a step leaves of an end whose flow is closed. */
  predicate Stays(a: End, b: End) {
    && b.flow == a.flow && (b.writing ==> a.writing)
    && (!a.writing ==> b.delivered == a.delivered)
  }

  lemma ClosedStep(s: Sys, step: Step, gateway: bool)
    requires Inv(s) && Enabled(s, step) && !Side(s, gateway).flow.ending.Running?
    ensures Stays(Side(s, gateway), Side(Next(s, step), gateway))
  {
    if step.At? && step.gateway == gateway && !step.action.Emit? {
      if !gateway && step.action.Deliver? && step.action.msg.Open? {
        RelayOpensOnce(s, step.action.admit);
      } else if gateway || s.relayMade {
        ClosedAct(Side(s, gateway), step.action, gateway, s.flowBytes);
      }
    }
  }

  lemma ClosedAct(e: End, a: Action, gateway: bool, fb: nat)
    requires MayAct(e, a, gateway, fb) && !e.flow.ending.Running?
    ensures Stays(e, Act(e, a, gateway, fb))
  {
  }

  /** In every run a closed flow never changes again, no write is begun for it, and
      once no write is under way its socket is given nothing more. */
  lemma {:induction false} ClosedStays(states: seq<Sys>, steps: seq<Step>, j: nat, n: nat, gateway: bool)
    requires Run(states, steps) && j <= n < |states| && !Side(states[j], gateway).flow.ending.Running?
    ensures Stays(Side(states[j], gateway), Side(states[n], gateway))
    decreases n
  {
    if j < n {
      ClosedStays(states, steps, j, n - 1, gateway);
      RunKeepsInv(states, steps, n - 1);
      ClosedStep(states[n - 1], steps[n - 1], gateway);
    }
  }

  /** The last moment up to n at which an end ran or was in a write. */
  ghost function LastActing(states: seq<Sys>, n: nat, gateway: bool): (i: nat)
    requires n < |states|
    ensures i <= n
  {
    if n == 0 || Acting(Side(states[n], gateway)) then n else LastActing(states, n - 1, gateway)
  }

  lemma {:induction false} LastActingMeans(states: seq<Sys>, steps: seq<Step>, n: nat, gateway: bool)
    requires Run(states, steps) && n < |states|
    ensures var i := LastActing(states, n, gateway);
            Acting(Side(states[i], gateway)) && forall k :: i < k <= n ==> !Acting(Side(states[k], gateway))
  {
    if !Acting(Side(states[n], gateway)) { LastActingMeans(states, steps, n - 1, gateway); }
  }

  /** Once an end has stopped for good, that moment is fixed. */
  lemma {:induction false} StoppedAt(states: seq<Sys>, steps: seq<Step>, j: nat, n: nat, gateway: bool)
    requires Run(states, steps) && 0 < j <= n < |states|
    requires Acting(Side(states[j - 1], gateway)) && !Acting(Side(states[j], gateway))
    ensures LastActing(states, n, gateway) == j - 1
    decreases n
  {
    if j < n {
      ClosedStays(states, steps, j, n, gateway);
      StoppedAt(states, steps, j, n - 1, gateway);
    }
  }

  /** Accounts for every byte taken in: it was given to the socket, or was still to
      be written when the end last ran or wrote. */
  ghost predicate Accounted(last: End, now: End) {
    |now.delivered| + Unwritten(last) == now.flow.rcv.recvNext
  }

  lemma ActingAccounted(e: End, p: End, out: set<Msg>, back: set<Msg>, fb: nat)
    requires Direction(e, p, out, back, fb) && Acting(p)
    ensures Accounted(p, p)
  {
    ReadySpan(e.log, p.done, |p.flow.rcv.ready|);
    CutBound(e.log, p.done);
    if p.writing { CutsOrdered(e.log, p.done, p.done + 1); }
  }

  lemma SideAccounted(s: Sys, gateway: bool)
    requires Inv(s) && Acting(Side(s, gateway))
    ensures Accounted(Side(s, gateway), Side(s, gateway))
  {
    if gateway {
      ActingAccounted(s.relay, s.gateway, s.toGateway, s.toRelay, s.flowBytes);
    } else {
      ActingAccounted(s.gateway, s.relay, s.toRelay, s.toGateway, s.flowBytes);
    }
  }

  /** The bytes of a run of segments reach from its first cut to its last. */
  lemma {:induction false} ReadySpan(log: Log, from: nat, count: nat)
    requires log.Valid() && from + count <= |log.segs|
    ensures log.Cut(from) + Bytes(log.segs[from..from + count]) == log.Cut(from + count)
    decreases count
  {
    if count > 0 {
      CutsOrdered(log, from, from + 1);
      ReadySpan(log, from + 1, count - 1);
      assert log.segs[from..from + count][1..] == log.segs[from + 1..from + count];
    }
  }

  /** Nothing was given to the socket, and nothing taken in. */
  predicate Still(a: End, b: End) { b.delivered == a.delivered && b.flow.rcv.recvNext == a.flow.rcv.recvNext }

  lemma StopAct(e: End, a: Action, gateway: bool, fb: nat)
    requires MayAct(e, a, gateway, fb) && !Acting(Act(e, a, gateway, fb))
    ensures Still(e, Act(e, a, gateway, fb))
  {
    match a
    case Deliver(m, free, _) => if e.flow.ending.Running? && m.Data? { RefusedData(e.flow, m.seg, fb, free); }
    case Emit(_, _) =>
    case StartRead =>
    case FinishRead(_, _, _) =>
    case StartWrite =>
    case Write(_) =>
    case FinishWrite(_) =>
    case IdleWriter =>
    case Stop =>
  }

  /** DATA that closes a flow leaves nothing behind. */
  lemma RefusedData(f: Flow, seg: Segment, fb: nat, free: int)
    requires f.ending.Running? && !OnData(f, seg, fb, free).ending.Running?
    ensures OnData(f, seg, fb, free).rcv == f.rcv
  {
  }

  /** The step after which an end neither runs nor writes. */
  lemma StopStep(s: Sys, step: Step, gateway: bool)
    requires Inv(s) && Enabled(s, step) && !Acting(Side(Next(s, step), gateway))
    ensures Still(Side(s, gateway), Side(Next(s, step), gateway))
  {
    if step.At? && step.gateway == gateway && !step.action.Emit? {
      if !gateway && step.action.Deliver? && step.action.msg.Open? {
        RelayOpensOnce(s, step.action.admit);
      } else if gateway || s.relayMade {
        StopAct(Side(s, gateway), step.action, gateway, s.flowBytes);
      }
    }
  }

  lemma {:induction false} AlwaysAccounted(states: seq<Sys>, steps: seq<Step>, n: nat, gateway: bool)
    requires Run(states, steps) && n < |states|
    ensures Accounted(Side(states[LastActing(states, n, gateway)], gateway), Side(states[n], gateway))
  {
    if Acting(Side(states[n], gateway)) {
      assert Inv(states[n]) by { RunKeepsInv(states, steps, n); }
      SideAccounted(states[n], gateway);
    } else {
      AlwaysAccounted(states, steps, n - 1, gateway);
      assert Inv(states[n - 1]) by { RunKeepsInv(states, steps, n - 1); }
      StopStep(states[n - 1], steps[n - 1], gateway);
    }
  }

  /** For an end that closed cleanly, at any moment of any run and however the other
      end fared: the other socket has everything if and only if the other end had
      nothing left to write when it last ran or was in a write. */
  lemma CleanCloseReachesExactly(states: seq<Sys>, steps: seq<Step>, n: nat, gateway: bool)
    requires Run(states, steps) && n < |states| && Side(states[n], gateway).flow.ending == Closed(Finished)
    ensures Side(states[n], !gateway).delivered == Side(states[n], gateway).source
            <==> Unwritten(Side(states[LastActing(states, n, !gateway)], !gateway)) == 0
  {
    AlwaysAccounted(states, steps, n, !gateway);
    CleanCloseIsComplete(states, steps, n, gateway);
    DeliveredIsPrefix(states, steps, n);
  }

  /** When the other end's flow closes with a write in hand, that is: the segment in
      hand is the last one, and the write gets all of it out. */
  lemma CloseInWrite(states: seq<Sys>, steps: seq<Step>, j: nat, i: nat, gateway: bool)
    requires Run(states, steps) && j <= i < |states|
    requires var p := Side(states[j], gateway); !p.flow.ending.Running? && p.writing
    requires Side(states[i], gateway).writing
    ensures var p := Side(states[j], gateway);
            && p.flow.rcv.ready != []
            && (Unwritten(Side(states[i], gateway)) == 0
                <==> |p.flow.rcv.ready| == 1 && Side(states[i], gateway).written == |p.flow.rcv.ready[0].data|)
  {
    ClosedStays(states, steps, j, i, gateway);
    RunKeepsInv(states, steps, i);
    var s := states[i];
    if gateway {
      InHand(s.relay, s.gateway, s.flowBytes);
    } else {
      InHand(s.gateway, s.relay, s.flowBytes);
    }
  }

  lemma InHand(e: End, p: End, fb: nat)
    requires SenderOk(e, fb) && ReceiverOk(e, p, fb) && p.writing
    ensures p.flow.rcv.ready != []
    ensures Unwritten(p) == 0 <==> |p.flow.rcv.ready| == 1 && p.written == |p.flow.rcv.ready[0].data|
  {
    var ready := p.flow.rcv.ready;
    assert Bytes(ready) == |ready[0].data| + Bytes(ready[1..]);
    if |ready| > 1 {
      assert ready[1] == e.log.segs[p.done + 1];
      CutsOrdered(e.log, p.done + 1, p.done + 2);
      assert Bytes(ready[1..]) == |ready[1..][0].data| + Bytes(ready[1..][1..]);
    }
  }

  /** An end that closed cleanly, too, has written everything. */
  lemma BothClosedCleanly(states: seq<Sys>, steps: seq<Step>, n: nat)
    requires Run(states, steps) && n < |states|
    requires states[n].gateway.flow.ending == Closed(Finished) && states[n].relay.flow.ending == Closed(Finished)
    ensures states[n].relay.delivered == states[n].gateway.source && states[n].gateway.delivered == states[n].relay.source
  {
    CleanCloseIsComplete(states, steps, n, true);
    CleanCloseIsComplete(states, steps, n, false);
  }
}
