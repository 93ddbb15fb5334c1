/** Nothing that was read is ever stuck: wherever a run has got to, as long as both
    ends run, some continuation hands every byte over. */
module StreamProgress {
  import opened Sums
  import opened StreamFlow
  import opened StreamSystem
  import opened StreamProofs
  import opened StreamWitness

  // ----- continuations

  ghost predicate Leads(s: Sys, steps: seq<Step>, t: Sys)
    decreases |steps|
  {
    if steps == [] then s == t else Enabled(s, steps[0]) && Leads(Next(s, steps[0]), steps[1..], t)
  }

  lemma {:induction false} Chained(s: Sys, a: seq<Step>, t: Sys, b: seq<Step>, u: Sys)
    requires Leads(s, a, t) && Leads(t, b, u)
    ensures Leads(s, a + b, u)
    decreases |a|
  {
    if a == [] {
      assert a + b == b;
    } else {
      assert (a + b)[1..] == a[1..] + b;
      Chained(Next(s, a[0]), a[1..], t, b, u);
    }
  }

  lemma One(s: Sys, step: Step)
    requires Enabled(s, step)
    ensures Leads(s, [step], Next(s, step))
  {
    assert [step][1..] == [];
  }

  /** Both ends run and are open, away from the end of the offset space. */
  ghost predicate Going(s: Sys, gateway: bool) {
    && Inv(s) && s.relayMade
    && s.gateway.flow.ending.Running? && s.gateway.flow.isOpen && s.relay.flow.ending.Running? && s.relay.flow.isOpen
    && |Side(s, gateway).log.bytes| + s.flowBytes < TWO64
  }

  /** The frames on their way to an end. */
  function Inbox(s: Sys, gateway: bool): set<Msg> { if gateway then s.toGateway else s.toRelay }

  lemma Streams(s: Sys, gateway: bool)
    requires Inv(s)
    ensures Direction(Side(s, gateway), Side(s, !gateway), Inbox(s, !gateway), Inbox(s, gateway), s.flowBytes)
  {
  }

  /** A frame is sent to one end and arrives there. */
  lemma Exchange(s: Sys, to: bool, m: Msg, credit: int, free: int) returns (steps: seq<Step>, t: Sys)
    requires Inv(s) && s.relayMade && MayEmit(Side(s, !to), !to, m, s.flowBytes, credit) && !m.Open?
    ensures Leads(s, steps, t) && Inv(t) && t.relayMade && t.flowBytes == s.flowBytes
    ensures Side(t, !to) == Side(s, !to) && Side(t, to) == Receive(Side(s, to), to, m, s.flowBytes, free)
  {
    var emit, take := At(!to, Emit(m, credit)), At(to, Deliver(m, free, true));
    One(s, emit);
    StepKeepsInv(s, emit);
    var s1 := Next(s, emit);
    assert Enabled(s1, take);
    StepKeepsInv(s1, take);
    One(s1, take);
    t := Next(s1, take);
    Chained(s, [emit], s1, [take], t);
    steps := [emit] + [take];
  }

  /** The flow window is agreed once and for all. */
  lemma {:induction false} SameWindow(s: Sys, steps: seq<Step>, t: Sys)
    requires Leads(s, steps, t)
    ensures t.flowBytes == s.flowBytes
    decreases |steps|
  {
    if steps != [] { SameWindow(Next(s, steps[0]), steps[1..], t); }
  }

  // ----- the receiver hands over what is ready

  /** Only what an end knows about acknowledgements and credit differs. */
  predicate Alike(a: End, b: End) {
    && (b.done, b.log, b.source, b.delivered, b.writing, b.written) == (a.done, a.log, a.source, a.delivered, a.writing, a.written)
    && b.flow.rcv == a.flow.rcv && b.flow.snd.readEOF == a.flow.snd.readEOF
  }

  /** What an end sends is as it was. */
  predicate SameSending(a: End, b: End) { b.log == a.log && b.source == a.source && b.flow.snd == a.flow.snd }

  /** What the sender has not handed to the other socket, in segments. */
  ghost function Left(s: Sys, gateway: bool): int { |Side(s, gateway).log.segs| - Side(s, !gateway).done }

  lemma TakeUp(s: Sys, gateway: bool) returns (steps: seq<Step>, t: Sys)
    requires Going(s, gateway) && Side(s, !gateway).flow.rcv.ready != []
    ensures Leads(s, steps, t) && Going(t, gateway) && Side(t, gateway) == Side(s, gateway)
    ensures Side(t, !gateway).writing && Side(t, !gateway).flow == Side(s, !gateway).flow && Side(t, !gateway).done == Side(s, !gateway).done
    ensures SameSending(Side(s, !gateway), Side(t, !gateway))
  {
    if Side(s, !gateway).writing {
      steps, t := [], s;
    } else {
      var step := At(!gateway, StartWrite);
      One(s, step);
      StepKeepsInv(s, step);
      steps, t := [step], Next(s, step);
    }
  }

  lemma WriteAll(s: Sys, gateway: bool) returns (step: Step, t: Sys)
    requires Going(s, gateway) && Side(s, !gateway).writing
    ensures Enabled(s, step) && t == Next(s, step) && Going(t, gateway) && Side(t, gateway) == Side(s, gateway)
    ensures var p := Side(t, !gateway);
            && p.writing && p.flow == Side(s, !gateway).flow && p.done == Side(s, !gateway).done
            && p.flow.rcv.ready != [] && p.written == |p.flow.rcv.ready[0].data|
            && SameSending(Side(s, !gateway), p)
  {
    Streams(s, gateway);
    var p := Side(s, !gateway);
    step := At(!gateway, Write(|p.flow.rcv.ready[0].data| - p.written));
    StepKeepsInv(s, step);
    t := Next(s, step);
  }

  lemma HandOver(s: Sys, gateway: bool) returns (step: Step, t: Sys)
    requires Going(s, gateway) && Side(s, !gateway).writing && Side(s, !gateway).flow.rcv.ready != []
    requires Side(s, !gateway).written == |Side(s, !gateway).flow.rcv.ready[0].data|
    ensures Enabled(s, step) && t == Next(s, step) && Going(t, gateway) && Side(t, gateway) == Side(s, gateway)
    ensures Side(t, !gateway).done == Side(s, !gateway).done + 1 && SameSending(Side(s, !gateway), Side(t, !gateway))
  {
    step := At(!gateway, FinishWrite(false));
    StepKeepsInv(s, step);
    t := Next(s, step);
  }

  lemma DeliverOne(s: Sys, gateway: bool) returns (steps: seq<Step>, t: Sys)
    requires Going(s, gateway) && Side(s, !gateway).flow.rcv.ready != []
    ensures Leads(s, steps, t) && Going(t, gateway) && Side(t, gateway) == Side(s, gateway)
    ensures Side(t, !gateway).done == Side(s, !gateway).done + 1 && SameSending(Side(s, !gateway), Side(t, !gateway))
  {
    var first, t1 := TakeUp(s, gateway);
    var second, t2 := WriteAll(t1, gateway);
    var third;
    third, t := HandOver(t2, gateway);
    One(t1, second);
    One(t2, third);
    Chained(t1, [second], t2, [third], t);
    Chained(s, first, t1, [second] + [third], t);
    steps := first + ([second] + [third]);
  }

  // ----- there is room for the next segment

  /** Segments held ahead cost no more than the sender retains for them. */
  lemma {:induction false} HeldWithin(log: Log, recv: map<nat, Segment>, k: nat)
    requires log.Valid() && k <= |log.segs| && Ahead(log, recv, k)
    ensures Total(recv, (s: Segment) => s.Cost()) <= SeqCost(log.segs[k..])
    decreases |log.segs| - k
  {
    if k == |log.segs| {
      assert recv == map[];
    } else {
      var s := log.segs[k];
      assert log.segs[k..][0] == s && log.segs[k..][1..] == log.segs[k + 1..];
      var rest := recv - {s.offset};
      RestAhead(log, recv, k);
      HeldWithin(log, rest, k + 1);
      if s.offset in recv {
        KeyIsSegment(log, recv, k);
        Split(recv, (x: Segment) => x.Cost(), s.offset);
      } else {
        assert rest == recv;
      }
    }
  }

  lemma KeyIsSegment(log: Log, recv: map<nat, Segment>, k: nat)
    requires log.Valid() && k < |log.segs| && Ahead(log, recv, k) && log.segs[k].offset in recv
    ensures recv[log.segs[k].offset] == log.segs[k]
  {
    var o := log.segs[k].offset;
    var j :| k <= j < |log.segs| && recv[o] == log.segs[j];
    if k < j { CutsOrdered(log, k, j); }
  }

  lemma RestAhead(log: Log, recv: map<nat, Segment>, k: nat)
    requires log.Valid() && k < |log.segs| && Ahead(log, recv, k)
    ensures Ahead(log, recv - {log.segs[k].offset}, k + 1)
  {
    var rest := recv - {log.segs[k].offset};
    forall o | o in rest ensures Known(log, rest[o], k + 1) {
      var j :| k <= j < |log.segs| && recv[o] == log.segs[j];
    }
  }

  /** The flow window of the sender leaves the receiver room for the next segment,
      however much it holds ahead. */
  lemma NextHasRoom(e: End, p: End, out: set<Msg>, back: set<Msg>, fb: nat)
    requires Direction(e, p, out, back, fb) && p.flow.rcv.ready == [] && p.done < |e.log.segs|
    ensures p.flow.rcv.recvBytes + e.log.segs[p.done].Cost() <= fb
    ensures e.log.segs[p.done] in e.flow.snd.pending && e.log.segs[p.done].offset == p.flow.rcv.recvNext
  {
    var log, k := e.log, p.done;
    var first := |log.segs| - |e.flow.snd.pending|;
    assert SeqCost(log.segs[k..]) <= SeqCost(e.flow.snd.pending) by { SuffixCost(log.segs, first, k); }
    assert p.flow.rcv.recvBytes + log.segs[k].Cost() <= SeqCost(log.segs[k..]) by { HeldAndNext(log, p.flow.rcv, k); }
    assert e.flow.snd.pending[k - first] == log.segs[k];
  }

  lemma SuffixCost(segs: seq<Segment>, i: nat, k: nat)
    requires i <= k <= |segs|
    ensures SeqCost(segs[k..]) <= SeqCost(segs[i..])
  {
    assert segs[i..] == segs[i..k] + segs[k..];
    SeqCostConcat(segs[i..k], segs[k..]);
  }

  lemma HeldAndNext(log: Log, r: Receiver, k: nat)
    requires log.Valid() && k < |log.segs| && Ahead(log, r.recv, k) && Sound(r) && r.ready == [] && r.recvNext == log.Cut(k)
    ensures r.recvBytes + log.segs[k].Cost() <= SeqCost(log.segs[k..])
  {
    assert log.segs[k..][0] == log.segs[k] && log.segs[k..][1..] == log.segs[k + 1..];
    NotHeld(log, r, k);
    HeldWithin(log, r.recv, k + 1);
  }

  /** The segment at the next byte is not among those held ahead. */
  lemma NotHeld(log: Log, r: Receiver, k: nat)
    requires log.Valid() && k < |log.segs| && Ahead(log, r.recv, k) && Held(r) && r.recvNext == log.Cut(k)
    ensures Ahead(log, r.recv, k + 1)
  {
    RestAhead(log, r.recv, k);
    assert log.segs[k].offset !in r.recv;
    assert r.recv - {log.segs[k].offset} == r.recv;
  }

  // ----- the sender gets credit and sends the next segment

  /** More than any flow window. */
  const PLENTY: int := 0x200_0000

  /** With the budgets free the credit covers the next segment, and is taken. */
  lemma CreditCovers(e: End, p: End, out: set<Msg>, back: set<Msg>, fb: nat)
    requires Direction(e, p, out, back, fb) && Fits(fb) && p.flow.rcv.ready == [] && p.done < |e.log.segs|
    requires e.flow.ending.Running? && e.flow.isOpen && |e.log.bytes| + fb < TWO64
    ensures var r := p.flow.rcv;
            var w := ReceiveWindow(r, fb, PLENTY);
            var g := OnAck(e.flow, r.recvNext, w, fb);
            && g.ending.Running? && g.isOpen && g.rcv == e.flow.rcv && g.snd.readEOF == e.flow.snd.readEOF
            && g.snd.window == w >= e.log.segs[p.done].End()
  {
    var r := p.flow.rcv;
    NextHasRoom(e, p, out, back, fb);
    CutBound(e.log, p.done);
    RecvCostNonNegative(r);
    assert ReceiveWindow(r, fb, PLENTY) == r.recvNext + (fb - r.recvBytes - SEGMENT_OVERHEAD);
  }

  lemma Granted(s: Sys, gateway: bool) returns (steps: seq<Step>, t: Sys)
    requires Going(s, gateway) && Side(s, !gateway).flow.rcv.ready == [] && Left(s, gateway) > 0
    ensures Leads(s, steps, t) && Going(t, gateway) && Side(t, !gateway) == Side(s, !gateway)
    ensures Alike(Side(s, gateway), Side(t, gateway)) && Side(t, gateway).log == Side(s, gateway).log
    ensures Side(t, gateway).flow.snd.window >= Side(s, gateway).log.segs[Side(s, !gateway).done].End()
  {
    var e, p := Side(s, gateway), Side(s, !gateway);
    var m := Ack(p.flow.rcv.recvNext, ReceiveWindow(p.flow.rcv, s.flowBytes, PLENTY));
    assert p.done < |e.log.segs| by { Streams(s, gateway); }
    assert var g := OnAck(e.flow, m.offset, m.window, s.flowBytes);
           && g.ending.Running? && g.isOpen && g.rcv == e.flow.rcv && g.snd.readEOF == e.flow.snd.readEOF
           && g.snd.window == m.window >= e.log.segs[p.done].End() by {
      Streams(s, gateway);
      CreditCovers(e, p, Inbox(s, !gateway), Inbox(s, gateway), s.flowBytes);
    }
    steps, t := Exchange(s, gateway, m, PLENTY, 0);
  }

  lemma SendNext(s: Sys, gateway: bool) returns (steps: seq<Step>, t: Sys)
    requires Going(s, gateway) && Side(s, !gateway).flow.rcv.ready == [] && Left(s, gateway) > 0
    requires Side(s, gateway).flow.snd.window >= Side(s, gateway).log.segs[Side(s, !gateway).done].End()
    ensures Leads(s, steps, t) && Going(t, gateway) && Side(t, gateway) == Side(s, gateway)
    ensures Side(t, !gateway).done == Side(s, !gateway).done && Side(t, !gateway).flow.rcv.ready != []
    ensures SameSending(Side(s, !gateway), Side(t, !gateway))
  {
    var e, p := Side(s, gateway), Side(s, !gateway);
    var seg := e.log.segs[p.done];
    assert MayEmit(e, gateway, Data(seg), s.flowBytes, 0) by {
      Streams(s, gateway);
      NextHasRoom(e, p, Inbox(s, !gateway), Inbox(s, gateway), s.flowBytes);
    }
    assert var g := OnData(p.flow, seg, s.flowBytes, PLENTY);
           g.ending.Running? && g.isOpen && g.rcv.ready != [] && g.snd == p.flow.snd by {
      Streams(s, gateway);
      Arrives(e, p, Inbox(s, !gateway), Inbox(s, gateway), s.flowBytes);
    }
    steps, t := Exchange(s, !gateway, Data(seg), 0, PLENTY);
  }

  lemma Arrives(e: End, p: End, out: set<Msg>, back: set<Msg>, fb: nat)
    requires Direction(e, p, out, back, fb) && Fits(fb) && p.flow.rcv.ready == [] && p.done < |e.log.segs|
    requires p.flow.ending.Running? && p.flow.isOpen && |e.log.bytes| + fb < TWO64
    ensures var g := OnData(p.flow, e.log.segs[p.done], fb, PLENTY);
            g.ending.Running? && g.isOpen && g.rcv.ready != [] && g.snd == p.flow.snd
  {
    var seg, r := e.log.segs[p.done], p.flow.rcv;
    NextHasRoom(e, p, out, back, fb);
    assert Known(e.log, seg, 0);
    NextIsAdmissible(e, p, fb, seg);
    RecvCostNonNegative(r);
    assert seg.End() <= ReceiveWindow(r, fb, PLENTY);
    CreditIsHonoured(p.flow, seg, fb, PLENTY);
    DataKeepsSound(p.flow, seg, fb, PLENTY);
    var g := OnData(p.flow, seg, fb, PLENTY);
    assert g.rcv.recvNext > r.recvNext && g.rcv.consumed == r.consumed by { DataConsumes(p.flow, seg, fb, PLENTY); }
  }

  lemma DataConsumes(f: Flow, m: Segment, fb: nat, free: int)
    requires f.ending.Running? && Sound(f.rcv)
    ensures OnData(f, m, fb, free).rcv.consumed == f.rcv.consumed && OnData(f, m, fb, free).isOpen == f.isOpen
  {
    DrainConsumes(Put(f.rcv, Trim(m, f.rcv.recvNext)));
  }

  lemma {:induction false} DrainConsumes(r: Receiver)
    ensures Drain(r).consumed == r.consumed
    decreases |r.recv|
  {
    if r.recvNext in r.recv { DrainConsumes(DrainOne(r)); }
  }

  // ----- everything

  /** From any state in which both ends run: a continuation after which the other
      socket has been given every byte read so far. */
  lemma {:induction false} AllDelivered(s: Sys, gateway: bool) returns (steps: seq<Step>, t: Sys)
    requires Going(s, gateway)
    ensures Leads(s, steps, t) && Going(t, gateway)
    ensures Side(t, gateway).source == Side(s, gateway).source && Side(t, !gateway).delivered == Side(s, gateway).source
    ensures Left(t, gateway) == 0 && Alike(Side(s, gateway), Side(t, gateway)) && SameSending(Side(s, !gateway), Side(t, !gateway))
    decreases Left(s, gateway), if Side(s, !gateway).flow.rcv.ready == [] then 1 else 0
  {
    Streams(s, gateway);
    if Side(s, !gateway).flow.rcv.ready != [] {
      var a, s1 := DeliverOne(s, gateway);
      var b;
      b, t := AllDelivered(s1, gateway);
      Chained(s, a, s1, b, t);
      steps := a + b;
    } else if Left(s, gateway) > 0 {
      var a, s1 := Granted(s, gateway);
      var b, s2 := SendNext(s1, gateway);
      var c;
      c, t := AllDelivered(s2, gateway);
      Chained(s1, b, s2, c, t);
      Chained(s, a, s1, b + c, t);
      steps := a + (b + c);
    } else {
      steps, t := [], s;
      Done(Side(s, gateway), Side(s, !gateway), Inbox(s, !gateway), Inbox(s, gateway), s.flowBytes);
    }
  }

  lemma Done(e: End, p: End, out: set<Msg>, back: set<Msg>, fb: nat)
    requires Direction(e, p, out, back, fb) && p.done == |e.log.segs| && e.flow.ending.Running? && p.flow.ending.Running?
    ensures p.delivered == e.source
  {
    assert e.log.bytes[..|e.log.bytes|] == e.log.bytes;
  }

  lemma {:induction false} OpenMeansMade(states: seq<Sys>, steps: seq<Step>, n: nat)
    requires Run(states, steps) && n < |states|
    ensures states[n].relay.flow.isOpen ==> states[n].relayMade
  {
    if n > 0 {
      OpenMeansMade(states, steps, n - 1);
      assert Enabled(states[n - 1], steps[n - 1]) && states[n] == Next(states[n - 1], steps[n - 1]);
    }
  }

  /** No run gets stuck: whatever was lost, repeated, reordered or held ahead, as
      long as both flows run and are open everything read at either end can still
      reach the other socket. */
  lemma NeverStuck(states: seq<Sys>, steps: seq<Step>, n: nat, gateway: bool) returns (more: seq<Step>, t: Sys)
    requires Run(states, steps) && n < |states|
    requires var s := states[n];
             && s.gateway.flow.ending.Running? && s.gateway.flow.isOpen && s.relay.flow.ending.Running? && s.relay.flow.isOpen
             && |Side(s, gateway).source| + s.flowBytes < TWO64
    ensures Leads(states[n], more, t)
    ensures Side(t, gateway).source == Side(states[n], gateway).source && Side(t, !gateway).delivered == Side(t, gateway).source
  {
    RunKeepsInv(states, steps, n);
    OpenMeansMade(states, steps, n);
    more, t := AllDelivered(states[n], gateway);
  }

  // ----- and both ends can finish

  /** Everything sent was handed over, acknowledged and finished. */
  ghost predicate Through(s: Sys, gateway: bool) {
    var e, p := Side(s, gateway), Side(s, !gateway);
    && e.flow.snd.readEOF && e.flow.snd.finACK && e.flow.snd.pending == []
    && Left(s, gateway) == 0 && p.delivered == e.source && p.flow.rcv.recvFIN
  }

  lemma Acknowledged(s: Sys, gateway: bool) returns (steps: seq<Step>, t: Sys)
    requires Going(s, gateway) && Left(s, gateway) == 0
    ensures Leads(s, steps, t) && Going(t, gateway) && Side(t, !gateway) == Side(s, !gateway)
    ensures Alike(Side(s, gateway), Side(t, gateway)) && Side(t, gateway).flow.snd.pending == []
  {
    var r := Side(s, !gateway).flow.rcv;
    var m := Ack(r.recvNext, ReceiveWindow(r, s.flowBytes, PLENTY));
    assert
      var e := Side(s, gateway);
      var g := OnAck(e.flow, m.offset, m.window, s.flowBytes);
      g.ending.Running? && g.isOpen && g.snd.pending == [] && g.snd.readEOF == e.flow.snd.readEOF && g.rcv == e.flow.rcv by {
      Streams(s, gateway);
      AllAcked(Side(s, gateway), Side(s, !gateway), Inbox(s, !gateway), Inbox(s, gateway), s.flowBytes);
    }
    steps, t := Exchange(s, gateway, m, PLENTY, 0);
  }

  lemma AllAcked(e: End, p: End, out: set<Msg>, back: set<Msg>, fb: nat)
    requires Direction(e, p, out, back, fb) && Fits(fb) && p.done == |e.log.segs|
    requires e.flow.ending.Running? && e.flow.isOpen && |e.log.bytes| + fb < TWO64
    ensures var r := p.flow.rcv;
            var g := OnAck(e.flow, r.recvNext, ReceiveWindow(r, fb, PLENTY), fb);
            g.ending.Running? && g.isOpen && g.snd.pending == [] && g.snd.readEOF == e.flow.snd.readEOF && g.rcv == e.flow.rcv
  {
    var r := p.flow.rcv;
    RecvCostNonNegative(r);
    assert r.recvNext == |e.log.bytes| == e.log.Cut(|e.log.segs|);
    if r.recvNext > e.flow.snd.acked {
      AckAdvances(e.log, e.flow.snd, |e.log.segs|);
    } else {
      NothingRetained(e, fb);
    }
  }

  lemma NothingRetained(e: End, fb: nat)
    requires SenderOk(e, fb) && e.flow.snd.acked >= |e.log.bytes|
    ensures e.flow.snd.pending == []
  {
    var i := |e.log.segs| - |e.flow.snd.pending|;
    if i < |e.log.segs| { CutsOrdered(e.log, i, |e.log.segs|); }
  }

  lemma FinKnown(s: Sys, gateway: bool) returns (steps: seq<Step>, t: Sys)
    requires Going(s, gateway) && Left(s, gateway) == 0 && Side(s, gateway).flow.snd.readEOF
    ensures Leads(s, steps, t) && Going(t, gateway) && Side(t, gateway) == Side(s, gateway)
    ensures var p, q := Side(s, !gateway), Side(t, !gateway);
            && q.flow.rcv.recvFIN && q.flow.rcv.ready == p.flow.rcv.ready && SameSending(p, q)
            && (q.done, q.delivered, q.writing) == (p.done, p.delivered, p.writing)
  {
    Streams(s, gateway);
    if Side(s, gateway).flow.snd.finACK {
      steps, t := [], s;
    } else {
      CutBound(Side(s, gateway).log, Side(s, !gateway).done);
      var m := Fin(Side(s, gateway).flow.snd.next);
      steps, t := Exchange(s, !gateway, m, 0, 0);
    }
  }

  lemma FinHeard(s: Sys, gateway: bool) returns (steps: seq<Step>, t: Sys)
    requires Going(s, gateway) && Side(s, gateway).flow.snd.readEOF && Side(s, !gateway).flow.rcv.recvFIN
    ensures Leads(s, steps, t) && Going(t, gateway) && Side(t, !gateway) == Side(s, !gateway)
    ensures Alike(Side(s, gateway), Side(t, gateway)) && Side(t, gateway).flow.snd.finACK
    ensures Side(t, gateway).flow.snd.pending == Side(s, gateway).flow.snd.pending
  {
    Streams(s, gateway);
    var m := FinAck(Side(s, !gateway).flow.rcv.finOffset);
    steps, t := Exchange(s, gateway, m, 0, 0);
  }

  /** One direction is carried through to its end. */
  lemma Finishes(s: Sys, gateway: bool) returns (steps: seq<Step>, t: Sys)
    requires Going(s, gateway) && Side(s, gateway).flow.snd.readEOF
    ensures Leads(s, steps, t) && Going(t, gateway) && Through(t, gateway)
    ensures Side(t, gateway).source == Side(s, gateway).source && Alike(Side(s, gateway), Side(t, gateway))
    ensures SameSending(Side(s, !gateway), Side(t, !gateway))
  {
    var a, s1 := AllDelivered(s, gateway);
    var b, s2 := Acknowledged(s1, gateway);
    var c, s3 := FinKnown(s2, gateway);
    var d;
    d, t := FinHeard(s3, gateway);
    Chained(s2, c, s3, d, t);
    Chained(s1, b, s2, c + d, t);
    Chained(s, a, s1, b + (c + d), t);
    steps := a + (b + (c + d));
  }

  lemma Closes(s: Sys, gateway: bool) returns (step: Step, t: Sys)
    requires Inv(s) && s.relayMade && Side(s, gateway).flow.ending.Running?
    requires Through(s, gateway) && Through(s, !gateway)
    ensures Enabled(s, step) && t == Next(s, step) && Inv(t) && Side(t, !gateway) == Side(s, !gateway)
    ensures Side(t, gateway).flow.ending == Closed(Finished) && Through(t, gateway) && Through(t, !gateway)
    ensures Side(t, gateway).source == Side(s, gateway).source
  {
    Streams(s, !gateway);
    step := At(gateway, IdleWriter);
    StepKeepsInv(s, step);
    t := Next(s, step);
  }

  /** No run is kept from ending well: whenever both flows run and both inputs have
      ended, some continuation closes both ends cleanly with everything delivered. */
  lemma CanFinish(states: seq<Sys>, steps: seq<Step>, n: nat) returns (more: seq<Step>, t: Sys)
    requires Run(states, steps) && n < |states|
    requires var s := states[n];
             && s.gateway.flow.ending.Running? && s.gateway.flow.isOpen && s.relay.flow.ending.Running? && s.relay.flow.isOpen
             && s.gateway.flow.snd.readEOF && s.relay.flow.snd.readEOF
             && |s.gateway.source| + s.flowBytes < TWO64 && |s.relay.source| + s.flowBytes < TWO64
    ensures Leads(states[n], more, t)
    ensures t.gateway.flow.ending == Closed(Finished) && t.relay.flow.ending == Closed(Finished)
    ensures t.relay.delivered == states[n].gateway.source && t.gateway.delivered == states[n].relay.source
  {
    RunKeepsInv(states, steps, n);
    OpenMeansMade(states, steps, n);
    var s := states[n];
    var a, s1 := Finishes(s, true);
    SameWindow(s, a, s1);
    var b, s2 := Finishes(s1, false);
    var c, s3 := Closes(s2, true);
    var d;
    d, t := Closes(s3, false);
    One(s2, c);
    One(s3, d);
    Chained(s2, [c], s3, [d], t);
    Chained(s1, b, s2, [c] + [d], t);
    Chained(s, a, s1, b + ([c] + [d]), t);
    more := a + (b + ([c] + [d]));
  }

  /** What an end owes it may send at any time: each retained segment within the
      window, its credit, its finish until that is acknowledged, and the peer's. */
  lemma OwedCanBeSent(s: Sys, gateway: bool, seg: Segment, free: int)
    requires Side(s, gateway).flow.ending.Running? && Side(s, gateway).flow.isOpen && (gateway || s.relayMade)
    ensures var f := Side(s, gateway).flow;
            && (seg in f.snd.pending && seg.End() <= f.snd.window ==> Enabled(s, At(gateway, Emit(Data(seg), 0))))
            && Enabled(s, At(gateway, Emit(Ack(f.rcv.recvNext, ReceiveWindow(f.rcv, s.flowBytes, free)), free)))
            && (f.snd.readEOF && !f.snd.finACK ==> Enabled(s, At(gateway, Emit(Fin(f.snd.next), 0))))
            && (f.rcv.recvFIN ==> Enabled(s, At(gateway, Emit(FinAck(f.rcv.finOffset), 0))))
  {
  }
}
