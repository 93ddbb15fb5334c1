/** What the tables leave alone: exempt destinations, traffic that does not come
    from the LAN, and everything but synthetic addresses once selective routing has
    gone direct. */
module ReachProofs {
  import opened Arithmetic
  import opened Addresses
  import opened Intent
  import opened Packets
  import opened Tables
  import opened DataplaneProofs
  import opened PathProofs
  import opened SelectiveProofs
  import opened JourneyProofs

  // ----- exempt destinations

  /** The router, link-local multicast and discovery, and the declared prefixes. */
  predicate Exempt(prefixes: seq<Prefix>, p: Packet) {
    || Router in p.dst || (p.family.V4? && Multicast4 in p.dst)
    || (p.family.V6? && (Multicast6 in p.dst || LinkLocal6 in p.dst))
    || exists i :: 0 <= i < |prefixes| && prefixes[i].family == p.family && Local(prefixes[i]) in p.dst
  }

  /** A list of returns returns when one of them matches. */
  lemma {:induction false} HitReturns(t: Table, ms: seq<Match>, k: nat, p: Packet, depth: nat)
    requires k < |ms| && Hits(ms[k], p)
    ensures Run(t, Returns(ms), p, depth) == Back(p)
  {
    Hit1(ms[0], p);
    RunConcat(t, [Rule([ms[0]], 0, 0, Return)], Returns(ms[1..]), p, depth);
    RunOne(t, Rule([ms[0]], 0, 0, Return), p, depth);
    if k > 0 { HitReturns(t, ms[1..], k - 1, p, depth); }
  }

  lemma ExemptRun(t: Table, prefixes: seq<Prefix>, rest: seq<Rule>, p: Packet, depth: nat)
    requires Exempt(prefixes, p)
    ensures Run(t, Exceptions(prefixes) + rest, p, depth) == Back(p)
  {
    var ms := [Daddr(V4, Router), Daddr(V6, Router), Daddr(V4, Multicast4), Daddr(V6, Multicast6), Daddr(V6, LinkLocal6)];
    if exists i :: 0 <= i < |prefixes| && prefixes[i].family == p.family && Local(prefixes[i]) in p.dst {
      var i :| 0 <= i < |prefixes| && prefixes[i].family == p.family && Local(prefixes[i]) in p.dst;
      LocalException(t, prefixes, i, rest, p, depth);
    } else {
      assert Exceptions(prefixes) == Returns(ms) + PrefixRules(prefixes);
      RunConcat(t, Exceptions(prefixes), rest, p, depth);
      RunConcat(t, Returns(ms), PrefixRules(prefixes), p, depth);
      var k := if Router in p.dst then (if p.family.V4? then 0 else 1)
               else if p.family.V4? then 2 else if Multicast6 in p.dst then 3 else 4;
      HitReturns(t, ms, k, p, depth);
    }
  }

  lemma LiveExempt(e: Desired, p: Packet, dst: set<Range>)
    requires p.iif in e.network.lan && !DnsPacket(p) && Exempt(e.network.prefixes, p)
    ensures Prerouted(Live(e), p, dst) == Passed(p)
  {
    var t := Live(e);
    PlainHooks(e, p, dst);
    ProtectHook(e, p);
    RunConcat(t, DnsPart(e), Exceptions(e.network.prefixes) + (V6Part(e) + PathPart(e)), p, JUMPS - 1);
    PastDnsPart(t, e, p, JUMPS - 1);
    ExemptRun(t, e.network.prefixes, V6Part(e) + PathPart(e), p, JUMPS - 1);
  }

  lemma GuardExempt(e: Desired, p: Packet)
    requires p.iif in e.network.lan && !DnsPacket(p) && Exempt(e.network.prefixes, p)
    ensures Hook(Guard(e), Prerouting, p) == Passed(p)
  {
    var t := Guard(e);
    Hit1(Iif(e.network.lan), p);
    RunOne(t, Rule([Iif(e.network.lan)], 0, 0, Jump(Protect)), p, JUMPS);
    var dns := if e.network.dns.BlockDns? then [Rule([Dns], 0, 0, Drop)] else [];
    Hit1(Dns, p);
    RunConcat(t, dns, Exceptions(e.network.prefixes) + [DROP_REST], p, JUMPS - 1);
    RunOne(t, Rule([Dns], 0, 0, Drop), p, JUMPS - 1);
    ExemptRun(t, e.network.prefixes, [DROP_REST], p, JUMPS - 1);
  }

  /** Exempt destinations stay reachable from the LAN, unchanged, under the live and
      the guard table alike. */
  lemma ExemptPasses(d: Desired, p: Packet, dst: set<Range>)
    requires Accepts(d) && d.selective.None?
    requires p.iif in d.network.lan && !DnsPacket(p) && Exempt(d.network.prefixes, p)
    ensures Prerouted(Live(Materialized(d)), p, dst) == Passed(p)
    ensures Hook(Guard(Materialized(d)), Prerouting, p) == Passed(p)
  {
    LiveExempt(Materialized(d), p, dst);
    GuardExempt(Materialized(d), p);
  }

  /** So they do under selective routing, unless they are synthetic. */
  lemma SelectiveExemptPasses(d: Desired, p: Packet, dst: set<Range>)
    requires Accepts(d) && d.selective.Some?
    requires p.iif in d.network.lan && !ToFake(p) && !DnsPacket(p) && Exempt(d.network.prefixes, p)
    ensures Prerouted(SelectiveLive(d), p, dst) == Passed(p)
  {
    var t, rest := SelectiveLive(d), V6Part(d) + [Rule([], 0, 0, Jump(Dispatch))];
    SelectiveClassifyHook(d, p);
    SelectiveNatHook(d, p);
    SelectivePreroutingHook(d, p);
    SelectiveProtectSplit(d);
    RunConcat(t, FakeGate(d), Exceptions(d.network.prefixes) + rest, p, JUMPS - 1);
    FakeGateRun(d, p, JUMPS - 1);
    ExemptRun(t, d.network.prefixes, rest, p, JUMPS - 1);
  }

  // ----- traffic from elsewhere

  /** What does not come from the LAN passes every hook of the tables untouched, but
      for the engines' queues. */
  lemma OutsidersUntouched(e: Desired, p: Packet, dst: set<Range>)
    requires p.iif !in e.network.lan
    ensures Prerouted(Live(e), p, dst) == Passed(p) && Hook(Live(e), Forward, p) == Passed(p)
    ensures Hook(Guard(e), Prerouting, p) == Passed(p)
  {
    var t := Live(e);
    assert Hook(t, DnsClassify, p) == Passed(p) by {
      Hit2(Iif(e.network.lan), Dns, p);
      RunOne(t, Rule([Iif(e.network.lan), Dns], 0, 0, Jump(SelectFlow)), p, JUMPS);
    }
    assert Hook(t, DnsNat, p) == Passed(p) by { NoNat(t, e.network, e.paths, p, JUMPS); }
    assert Hook(t, Prerouting, p) == Passed(p) by { OutsideGate(t, e.network, Protect, p); }
    assert Hook(t, Forward, p) == Passed(p) by { OutsideGate(t, e.network, ForwardCheck, p); }
    assert Hook(Guard(e), Prerouting, p) == Passed(p) by { OutsideGate(Guard(e), e.network, Protect, p); }
  }

  /** The gate of a base chain lets only LAN traffic in. */
  lemma OutsideGate(t: Table, n: Network, c: Chain, p: Packet)
    requires p.iif !in n.lan
    ensures Run(t, [Rule([Iif(n.lan)], 0, 0, Jump(c))], p, JUMPS) == Going(p)
  {
    Hit1(Iif(n.lan), p);
    RunOne(t, Rule([Iif(n.lan)], 0, 0, Jump(c)), p, JUMPS);
  }

  lemma SelectiveOutsiders(d: Desired, p: Packet, dst: set<Range>)
    requires d.selective.Some? && p.iif !in d.network.lan && !ToFake(p)
    ensures Prerouted(SelectiveLive(d), p, dst) == Passed(p) && Hook(SelectiveLive(d), Forward, p) == Passed(p)
  {
    SelectiveClassifyHook(d, p);
    SelectiveNatHook(d, p);
    SelectivePreroutingHook(d, p);
    DispatchedNeverForwarded(d, p);
  }

  // ----- gone direct

  /** The guard and emergency tables of selective routing restore direct access:
      whatever is not synthetic passes every hook, DNS included. */
  lemma EmergencyIsDirect(p: Packet, c: Chain)
    requires !ToFake(p)
    ensures Hook(SelectiveGuard(), c, p) == Passed(p)
  {
    SyntheticRun(SelectiveGuard(), p, JUMPS);
  }

  // ----- what the router sends

  lemma EngineFire(t: Table, path: Path, p: Packet, depth: nat)
    requires path.kind.PacketEngine?
    ensures Run(t, OutputRule()(path), p, depth) == if EngineTakes(path, p) then Accepted(Engaged(path, p)) else Going(p)
  {
    var o := Owner(path.slot);
    var r := Rule([MetaOwner(o), EngineClear, TcpUdp], 0, 0, Enqueue(21000 + path.slot, true));
    assert OutputRule()(path) == [r];
    RunOne(t, r, p, depth);
    assert HitsAll(r.matches, p) == EngineTakes(path, p) by { Hit3(MetaOwner(o), EngineClear, TcpUdp, p); }
    if EngineTakes(path, p) { TagIsNew(p.meta.low); }
  }

  lemma TagIsNew(low: nat)
    requires low / 0x4000 % 4 == 0
    ensures Tagged(low) == low + 0x4000
  {
    Even(low / 0x4000);
  }

  lemma Even(q: nat)
    requires q % 4 == 0
    ensures q % 2 == 0
  {
    Unique(q, 2, 2 * (q / 4), 0);
  }

  /** In the engine's own queue, with the bit that says it has been there. */
  function Engaged(path: Path, p: Packet): Packet {
    p.(queue := 21000 + path.slot, meta := p.meta.(low := p.meta.low + 0x4000))
  }

  lemma {:induction false} OneEngine(t: Table, paths: seq<Path>, i: nat, p: Packet, depth: nat)
    requires i < |paths| && paths[i].kind.PacketEngine? && p.meta.owner == Owner(paths[i].slot)
    requires forall j :: 0 <= j < |paths| && j != i ==> paths[j].slot != paths[i].slot
    ensures Run(t, ForPaths(paths, OutputRule()), p, depth) ==
            if EngineTakes(paths[i], p) then Accepted(Engaged(paths[i], p)) else Going(p)
  {
    RunConcat(t, OutputRule()(paths[0]), ForPaths(paths[1..], OutputRule()), p, depth);
    if i == 0 {
      EngineFire(t, paths[0], p, depth);
      OthersOutput(t, paths[1..], p, depth);
    } else {
      assert paths[0].slot != paths[i].slot;
      OutputFire(t, paths[0], p, depth);
      OneEngine(t, paths[1..], i - 1, p, depth);
    }
  }

  /** Under selective routing the router's own traffic for an engine goes to that
      engine's queue once, tagged. */
  lemma EngineOutput(d: Desired, p: Packet, i: nat)
    requires Accepts(d) && d.selective.Some? && !ToFake(p)
    requires i < |d.paths| && d.paths[i].kind.PacketEngine? && p.meta.owner == Owner(d.paths[i].slot)
    ensures Hook(SelectiveLive(d), Output, p) == Passed(if EngineTakes(d.paths[i], p) then Engaged(d.paths[i], p) else p)
  {
    var t := SelectiveLive(d);
    RunConcat(t, Synthetic(Drop), ForPaths(d.paths, OutputRule()), p, JUMPS);
    SyntheticRun(t, p, JUMPS);
    var slots := Slots(Normalized(d).paths);
    forall j | 0 <= j < |d.paths| && j != i ensures d.paths[j].slot != d.paths[i].slot {
      assert slots[j] == d.paths[j].slot && slots[i] == d.paths[i].slot;
    }
    OneEngine(t, d.paths, i, p, JUMPS);
  }

  /** What the router sends for nobody's path leaves as it is. */
  lemma OutputUntouched(d: Desired, p: Packet)
    requires d.selective.Some? && !ToFake(p) && forall i :: 0 <= i < |d.paths| ==> p.meta.owner != Owner(d.paths[i].slot)
    ensures Hook(SelectiveLive(d), Output, p) == Passed(p)
  {
    var t := SelectiveLive(d);
    RunConcat(t, Synthetic(Drop), ForPaths(d.paths, OutputRule()), p, JUMPS);
    SyntheticRun(t, p, JUMPS);
    OthersOutput(t, d.paths, p, JUMPS);
  }
}
