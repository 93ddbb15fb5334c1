/** What the selective tables do to packets: synthetic destinations never leave
    the router, DNS goes to the local front and everything else that can be
    dispatched goes to the dispatcher. */
module SelectiveProofs {
  import opened Addresses
  import opened Intent
  import opened Packets
  import opened Tables
  import opened DataplaneProofs

  predicate ToFake(p: Packet) {
    (p.family.V4? && Fake4 in p.dst) || (p.family.V6? && Fake6 in p.dst)
  }

  lemma SyntheticRun(t: Table, p: Packet, depth: nat)
    ensures Run(t, Synthetic(Drop), p, depth) == if ToFake(p) then Dropped else Going(p)
  {
    var four, six := Rule([Daddr(V4, Fake4)], 0, 0, Drop), Rule([Daddr(V6, Fake6)], 0, 0, Drop);
    assert Synthetic(Drop) == [four] + [six];
    RunConcat(t, [four], [six], p, depth);
    RunOne(t, four, p, depth);
    RunOne(t, six, p, depth);
    Hit1(Daddr(V4, Fake4), p);
    Hit1(Daddr(V6, Fake6), p);
  }

  /** The packet as the dispatcher receives it. */
  function ToDispatcher(s: Selective, p: Packet): Packet {
    var o := Owner(s.path.slot);
    p.(ct := p.ct.(owner := o), meta := p.meta.(owner := o), listener := s.path.port)
  }

  predicate Dispatchable(d: Desired, p: Packet) {
    !p.proto.OtherProto? && (p.family.V4? || d.network.ipv6.ProxyV6?)
  }

  lemma TproxyRun(t: Table, s: Selective, f: Family, p: Packet, depth: nat)
    ensures var o := Owner(s.path.slot);
            Run(t, [Rule([OfFamily(f), TcpUdp], o, o, TproxyTo(s.path.port))], p, depth) ==
            if p.family == f && !p.proto.OtherProto? then Accepted(ToDispatcher(s, p)) else Going(p)
  {
    var o := Owner(s.path.slot);
    RunOne(t, Rule([OfFamily(f), TcpUdp], o, o, TproxyTo(s.path.port)), p, depth);
    Hit2(OfFamily(f), TcpUdp, p);
  }

  function Dispatched(d: Desired, p: Packet): Outcome
    requires d.selective.Some?
  {
    if Dispatchable(d, p) then Accepted(ToDispatcher(d.selective.value, p))
    else if ToFake(p) then Dropped
    else Going(p)
  }

  lemma DispatchRun(t: Table, d: Desired, p: Packet, depth: nat)
    requires d.selective.Some?
    ensures Run(t, DispatchChain(d), p, depth) ==
            Dispatched(d, p)
  {
    var s := d.selective.value;
    var o := Owner(s.path.slot);
    var four := [Rule([OfFamily(V4), TcpUdp], o, o, TproxyTo(s.path.port))];
    var six := if d.network.ipv6.ProxyV6? then [Rule([OfFamily(V6), TcpUdp], o, o, TproxyTo(s.path.port))] else [];
    assert DispatchChain(d) == four + (six + Synthetic(Drop));
    RunConcat(t, four, six + Synthetic(Drop), p, depth);
    TproxyRun(t, s, V4, p, depth);
    RunConcat(t, six, Synthetic(Drop), p, depth);
    TproxyRun(t, s, V6, p, depth);
    SyntheticRun(t, p, depth);
  }

  lemma JumpRun(d: Desired, ms: seq<Match>, p: Packet, depth: nat)
    requires d.selective.Some? && depth > 0
    ensures Run(SelectiveLive(d), [Rule(ms, 0, 0, Jump(Dispatch))], p, depth) ==
            if HitsAll(ms, p) then Dispatched(d, p) else Going(p)
  {
    var t := SelectiveLive(d);
    RunOne(t, Rule(ms, 0, 0, Jump(Dispatch)), p, depth);
    DispatchRun(t, d, p, depth - 1);
    assert t[Dispatch] == DispatchChain(d);
  }

  /** The three rules that come before every exception. */
  function FakeGate(d: Desired): seq<Rule> {
    [Rule([Daddr(V4, Fake4)], 0, 0, Jump(Dispatch))]
    + ([Rule([Daddr(V6, Fake6)], 0, 0, if d.network.ipv6.BlockV6? then Drop else Jump(Dispatch))]
    + [Rule([Dns], 0, 0, Return)])
  }

  lemma FakeGateRun(d: Desired, p: Packet, depth: nat)
    requires d.selective.Some? && depth > 0 && !d.network.ipv6.UnknownV6?
    ensures Run(SelectiveLive(d), FakeGate(d), p, depth) ==
            if ToFake(p) then (if Dispatchable(d, p) then Accepted(ToDispatcher(d.selective.value, p)) else Dropped)
            else if DnsPacket(p) then Back(p)
            else Going(p)
  {
    var t := SelectiveLive(d);
    var four := Rule([Daddr(V4, Fake4)], 0, 0, Jump(Dispatch));
    var six := Rule([Daddr(V6, Fake6)], 0, 0, if d.network.ipv6.BlockV6? then Drop else Jump(Dispatch));
    var dns := Rule([Dns], 0, 0, Return);
    RunConcat(t, [four], [six] + [dns], p, depth);
    RunConcat(t, [six], [dns], p, depth);
    JumpRun(d, four.matches, p, depth);
    JumpRun(d, six.matches, p, depth);
    RunOne(t, six, p, depth);
    RunOne(t, dns, p, depth);
    Hit1(Daddr(V4, Fake4), p);
    Hit1(Daddr(V6, Fake6), p);
    Hit1(Dns, p);
  }

  lemma SelectiveProtectSplit(d: Desired)
    requires d.selective.Some?
    ensures SelectiveProtect(d) ==
            FakeGate(d) + (Exceptions(d.network.prefixes) + (V6Part(d) + [Rule([], 0, 0, Jump(Dispatch))]))
  {
  }

  lemma ProtectFakeRun(d: Desired, p: Packet, depth: nat)
    requires d.selective.Some? && depth > 0 && !d.network.ipv6.UnknownV6? && ToFake(p)
    ensures Run(SelectiveLive(d), SelectiveProtect(d), p, depth) ==
            if Dispatchable(d, p) then Accepted(ToDispatcher(d.selective.value, p)) else Dropped
  {
    SelectiveProtectSplit(d);
    RunConcat(SelectiveLive(d), FakeGate(d), Exceptions(d.network.prefixes) + (V6Part(d) + [Rule([], 0, 0, Jump(Dispatch))]), p, depth);
    FakeGateRun(d, p, depth);
  }

  lemma ProtectExternalRun(d: Desired, p: Packet, depth: nat)
    requires d.selective.Some? && depth > 0 && !d.network.ipv6.UnknownV6?
    requires !ToFake(p) && !DnsPacket(p) && External(d.network, p.dst)
    ensures Run(SelectiveLive(d), SelectiveProtect(d), p, depth) ==
            if p.family.V6? && d.network.ipv6.BlockV6? then Dropped
            else if p.proto.OtherProto? then Going(p)
            else Accepted(ToDispatcher(d.selective.value, p))
  {
    var t := SelectiveLive(d);
    var last := [Rule([], 0, 0, Jump(Dispatch))];
    SelectiveProtectSplit(d);
    RunConcat(t, FakeGate(d), Exceptions(d.network.prefixes) + (V6Part(d) + last), p, depth);
    FakeGateRun(d, p, depth);
    RunConcat(t, Exceptions(d.network.prefixes), V6Part(d) + last, p, depth);
    ExceptionRun(t, d.network, p, depth);
    RunConcat(t, V6Part(d), last, p, depth);
    RunOne(t, Rule([OfFamily(V6)], 0, 0, Drop), p, depth);
    Hit1(OfFamily(V6), p);
    JumpRun(d, [], p, depth);
  }

  /** What was redirected to the router itself meets the router exception. */
  lemma ProtectRouterRun(d: Desired, p: Packet, depth: nat)
    requires d.selective.Some? && depth > 0 && !d.network.ipv6.UnknownV6?
    requires !ToFake(p) && !DnsPacket(p) && Router in p.dst
    ensures Run(SelectiveLive(d), SelectiveProtect(d), p, depth) == Back(p)
  {
    var t := SelectiveLive(d);
    var rest := V6Part(d) + [Rule([], 0, 0, Jump(Dispatch))];
    var four, six := Rule([Daddr(V4, Router)], 0, 0, Return), Rule([Daddr(V6, Router)], 0, 0, Return);
    SelectiveProtectSplit(d);
    RunConcat(t, FakeGate(d), Exceptions(d.network.prefixes) + rest, p, depth);
    FakeGateRun(d, p, depth);
    RunConcat(t, Exceptions(d.network.prefixes), rest, p, depth);
    var others := Exceptions(d.network.prefixes)[2..];
    assert Exceptions(d.network.prefixes) == [four] + ([six] + others);
    RunConcat(t, [four], [six] + others, p, depth);
    RunConcat(t, [six], others, p, depth);
    RunOne(t, four, p, depth);
    RunOne(t, six, p, depth);
    Hit1(Daddr(V4, Router), p);
    Hit1(Daddr(V6, Router), p);
  }

  // ----- the hooks

  lemma SelectiveClassifyHook(d: Desired, p: Packet)
    requires d.selective.Some?
    ensures Hook(SelectiveLive(d), DnsClassify, p) ==
            Passed(if p.iif in d.network.lan && DnsPacket(p) then p.(ct := p.ct.(owner := Owner(d.selective.value.path.slot))) else p)
  {
    Hit2(Iif(d.network.lan), Dns, p);
    RunOne(SelectiveLive(d), Rule([Iif(d.network.lan), Dns], Owner(d.selective.value.path.slot), 0, NoVerdict), p, JUMPS);
  }

  lemma SelectiveNatHook(d: Desired, p: Packet)
    requires d.selective.Some?
    ensures Hook(SelectiveLive(d), DnsNat, p) ==
            Passed(if p.iif in d.network.lan && DnsPacket(p)
                   then p.(listener := d.selective.value.front, rewritten := true, dns := false) else p)
  {
    Hit2(Iif(d.network.lan), Dns, p);
    RunOne(SelectiveLive(d), Rule([Iif(d.network.lan), Dns], 0, 0, Redirect(d.selective.value.front)), p, JUMPS);
  }

  lemma SelectivePreroutingHook(d: Desired, p: Packet)
    requires d.selective.Some?
    ensures Hook(SelectiveLive(d), Prerouting, p) ==
            if p.iif !in d.network.lan then Passed(p)
            else
              match Run(SelectiveLive(d), SelectiveProtect(d), p, JUMPS - 1)
              case Dropped => Lost
              case Going(q) => Passed(q)
              case Back(q) => Passed(q)
              case Accepted(q) => Passed(q)
  {
    var t := SelectiveLive(d);
    Hit1(Iif(d.network.lan), p);
    RunOne(t, Rule([Iif(d.network.lan)], 0, 0, Jump(Protect)), p, JUMPS);
    assert t[Protect] == SelectiveProtect(d);
  }

  lemma DropsFake(t: Table, c: Chain, rest: seq<Rule>, p: Packet)
    requires c in t && t[c] == Synthetic(Drop) + rest && ToFake(p)
    ensures Hook(t, c, p) == Lost
  {
    RunConcat(t, Synthetic(Drop), rest, p, JUMPS);
    SyntheticRun(t, p, JUMPS);
  }

  // ----- main results

  /** The tables that selective routing can have installed. */
  datatype Phase = LivePhase | GuardPhase

  function TableOf(phase: Phase, d: Desired): Table
    requires d.selective.Some?
  {
    if phase.LivePhase? then SelectiveLive(d) else SelectiveGuard()
  }

  /** The whole way of a packet that the router did not send itself: prerouting,
      then local delivery if some listener has it, else out by `oif`. */
  function Journey(t: Table, p: Packet, dst: set<Range>, oif: string): Fate {
    match Prerouted(t, p, dst)
    case Lost => Lost
    case Passed(q) => if q.listener != 0 then Passed(q) else Hook(t, Forward, q.(oif := oif))
  }

  predicate LocalAddress(dst: set<Range>) { Router in dst && Fake4 !in dst && Fake6 !in dst }

  /** Synthetic quarantine: under the live, guard and emergency tables a packet
      to a synthetic address is never forwarded and never sent by the router.  It
      is dropped, or a local listener has it: the DNS front when it is DNS from
      the LAN, the dispatcher otherwise. */
  lemma SyntheticQuarantine(phase: Phase, d: Desired, p: Packet, dst: set<Range>, oif: string)
    requires Accepts(d) && d.selective.Some?
    requires ToFake(p) && p.listener == 0 && !p.rewritten && LocalAddress(dst)
    ensures Hook(TableOf(phase, d), Output, p) == Lost
    ensures match Journey(TableOf(phase, d), p, dst, oif)
            case Lost => true
            case Passed(q) =>
              && phase.LivePhase? && p.iif in d.network.lan
              && q.ct.owner == Owner(d.selective.value.path.slot)
              && q.listener == if DnsPacket(p) then d.selective.value.front else d.selective.value.path.port
  {
    var t := TableOf(phase, d);
    if phase.GuardPhase? {
      assert Synthetic(Drop) == Synthetic(Drop) + [];
      DropsFake(t, Prerouting, [], p);
      DropsFake(t, Output, [], p);
    } else {
      DropsFake(t, Output, ForPaths(d.paths, OutputRule()), p);
      LiveFakeJourney(d, p, dst, oif);
    }
  }

  lemma LiveFakeJourney(d: Desired, p: Packet, dst: set<Range>, oif: string)
    requires Accepts(d) && d.selective.Some?
    requires ToFake(p) && p.listener == 0 && !p.rewritten && LocalAddress(dst)
    ensures match Journey(SelectiveLive(d), p, dst, oif)
            case Lost => true
            case Passed(q) =>
              && p.iif in d.network.lan
              && q.ct.owner == Owner(d.selective.value.path.slot)
              && q.listener == if DnsPacket(p) then d.selective.value.front else d.selective.value.path.port
  {
    var t := SelectiveLive(d);
    if p.iif in d.network.lan && DnsPacket(p) {
      DnsReachesFront(d, p, dst);
    } else {
      SelectiveClassifyHook(d, p);
      SelectiveNatHook(d, p);
      SelectivePreroutingHook(d, p);
      if p.iif in d.network.lan {
        ProtectFakeRun(d, p, JUMPS - 1);
      } else {
        DropsFake(t, Forward, [Rule([Iif(d.network.lan), CtOwner(Owner(d.selective.value.path.slot))], 0, 0, Drop)], p.(oif := oif));
      }
    }
  }

  /** Whatever its destination, DNS from the LAN reaches the front, on a
      connection that the dispatcher owns. */
  lemma DnsReachesFront(d: Desired, p: Packet, dst: set<Range>)
    requires Accepts(d) && d.selective.Some?
    requires p.iif in d.network.lan && DnsPacket(p) && !p.rewritten && LocalAddress(dst)
    ensures var q := p.(ct := p.ct.(owner := Owner(d.selective.value.path.slot)),
                        listener := d.selective.value.front, rewritten := true, dns := false, dst := dst);
            Prerouted(SelectiveLive(d), p, dst) == Passed(q) && q.listener != 0
  {
    SelectiveClassifyHook(d, p);
    var c := p.(ct := p.ct.(owner := Owner(d.selective.value.path.slot)));
    SelectiveNatHook(d, c);
    var q := c.(listener := d.selective.value.front, rewritten := true, dns := false, dst := dst);
    SelectivePreroutingHook(d, q);
    ProtectRouterRun(d, q, JUMPS - 1);
  }

  /** Every external TCP or UDP packet from the LAN goes to the dispatcher, marked
      as its own, except that blocked IPv6 is dropped; other protocols keep the
      direct way, and never carry the dispatcher's marks by this table. */
  lemma ExternalDispatch(d: Desired, p: Packet, dst: set<Range>)
    requires Accepts(d) && d.selective.Some?
    requires p.iif in d.network.lan && !ToFake(p) && !DnsPacket(p) && External(d.network, p.dst) && !p.rewritten
    ensures Prerouted(SelectiveLive(d), p, dst) ==
            if p.family.V6? && d.network.ipv6.BlockV6? then Lost
            else Passed(if p.proto.OtherProto? then p else ToDispatcher(d.selective.value, p))
  {
    SelectiveClassifyHook(d, p);
    SelectiveNatHook(d, p);
    SelectivePreroutingHook(d, p);
    ProtectExternalRun(d, p, JUMPS - 1);
  }

  /** Should the local route of the dispatcher vanish, its LAN flows are dropped
      in the forward hook; every other non-synthetic packet passes unchanged. */
  lemma DispatchedNeverForwarded(d: Desired, p: Packet)
    requires d.selective.Some?
    ensures Hook(SelectiveLive(d), Forward, p) ==
            if ToFake(p) || (p.iif in d.network.lan && p.ct.owner == Owner(d.selective.value.path.slot)) then Lost
            else Passed(p)
  {
    var t := SelectiveLive(d);
    var r := Rule([Iif(d.network.lan), CtOwner(Owner(d.selective.value.path.slot))], 0, 0, Drop);
    RunConcat(t, Synthetic(Drop), [r], p, JUMPS);
    SyntheticRun(t, p, JUMPS);
    RunOne(t, r, p, JUMPS);
    Hit2(Iif(d.network.lan), CtOwner(Owner(d.selective.value.path.slot)), p);
  }

  /** One path's output rules. */
  lemma OutputFire(t: Table, path: Path, p: Packet, depth: nat)
    ensures var o := Run(t, OutputRule()(path), p, depth);
            && (p.meta.owner != Owner(path.slot) ==> o == Going(p))
            && (p.meta.owner == Owner(path.slot) && path.kind.Interface? ==> o == if p.oif == path.device then Going(p) else Dropped)
  {
    var o := Owner(path.slot);
    RunOne(t, Rule([MetaOwner(o), OifNot(path.device)], 0, 0, Drop), p, depth);
    RunOne(t, Rule([MetaOwner(o), EngineClear, TcpUdp], 0, 0, Enqueue(21000 + path.slot, true)), p, depth);
    Hit2(MetaOwner(o), OifNot(path.device), p);
    Hit3(MetaOwner(o), EngineClear, TcpUdp, p);
  }

  lemma {:induction false} OthersOutput(t: Table, paths: seq<Path>, p: Packet, depth: nat)
    requires forall j :: 0 <= j < |paths| ==> p.meta.owner != Owner(paths[j].slot)
    ensures Run(t, ForPaths(paths, OutputRule()), p, depth) == Going(p)
  {
    if paths != [] {
      RunConcat(t, OutputRule()(paths[0]), ForPaths(paths[1..], OutputRule()), p, depth);
      OutputFire(t, paths[0], p, depth);
      OthersOutput(t, paths[1..], p, depth);
    }
  }

  lemma {:induction false} OneOutput(t: Table, paths: seq<Path>, i: nat, p: Packet, depth: nat)
    requires i < |paths| && paths[i].kind.Interface? && p.meta.owner == Owner(paths[i].slot)
    requires forall j :: 0 <= j < |paths| && j != i ==> paths[j].slot != paths[i].slot
    ensures Run(t, ForPaths(paths, OutputRule()), p, depth) == if p.oif == paths[i].device then Going(p) else Dropped
  {
    RunConcat(t, OutputRule()(paths[0]), ForPaths(paths[1..], OutputRule()), p, depth);
    OutputFire(t, paths[0], p, depth);
    if i == 0 {
      OthersOutput(t, paths[1..], p, depth);
    } else {
      assert paths[0].slot != paths[i].slot;
      OneOutput(t, paths[1..], i - 1, p, depth);
    }
  }

  /** A tunnel path's own traffic leaves by its device and by no other. */
  lemma TunnelNeverLeaks(d: Desired, p: Packet, i: nat)
    requires Accepts(d) && d.selective.Some?
    requires i < |d.paths| && d.paths[i].kind.Interface? && p.meta.owner == Owner(d.paths[i].slot)
    ensures Hook(SelectiveLive(d), Output, p) == if !ToFake(p) && p.oif == d.paths[i].device then Passed(p) else Lost
  {
    var t := SelectiveLive(d);
    RunConcat(t, Synthetic(Drop), ForPaths(d.paths, OutputRule()), p, JUMPS);
    SyntheticRun(t, p, JUMPS);
    var slots := Slots(Normalized(d).paths);
    forall j | 0 <= j < |d.paths| && j != i ensures d.paths[j].slot != d.paths[i].slot {
      assert slots[j] == d.paths[j].slot && slots[i] == d.paths[i].slot;
    }
    OneOutput(t, d.paths, i, p, JUMPS);
  }
}
