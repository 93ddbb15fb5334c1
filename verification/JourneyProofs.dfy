/** The whole way of a LAN packet through the router, and which destinations the
    guarantee covers. */
module JourneyProofs {
  import opened Addresses
  import opened Intent
  import opened Packets
  import opened Tables
  import opened Compiler
  import opened DataplaneProofs
  import opened PathProofs
  import opened SelectiveProofs

  // ----- routing by mark

  /** The policy route that looks at a packet's mark, if there is one. */
  function FindRoute(routes: seq<Route>, owner: nat, f: Family): Option<Route> {
    if routes == [] then None
    else if routes[0].owner == owner && routes[0].family == f then Some(routes[0])
    else FindRoute(routes[1..], owner, f)
  }

  lemma {:induction false} FoundRoute(routes: seq<Route>, r: Route)
    requires r in routes && forall x :: x in routes && x.owner == r.owner && x.family == r.family ==> x == r
    ensures FindRoute(routes, r.owner, r.family) == Some(r)
  {
    if !(routes[0].owner == r.owner && routes[0].family == r.family) {
      assert r in routes[1..];
      FoundRoute(routes[1..], r);
    } else {
      assert routes[0] in routes;
    }
  }

  /** The default route of a table: the first that was put there. */
  function FindTable(routes: seq<Route>, table: nat, f: Family): Option<Route> {
    if routes == [] then None
    else if routes[0].table == table && routes[0].family == f then Some(routes[0])
    else FindTable(routes[1..], table, f)
  }

  /** The only route of its table. */
  lemma {:induction false} FoundTable(routes: seq<Route>, r: Route)
    requires r in routes && forall x :: x in routes && x.table == r.table && x.family == r.family ==> x == r
    ensures FindTable(routes, r.table, r.family) == Some(r)
  {
    if !(routes[0].table == r.table && routes[0].family == r.family) {
      assert r in routes[1..];
      FoundTable(routes[1..], r);
    } else {
      assert routes[0] in routes;
    }
  }

  /** The device a packet leaves by: the rule for its mark names a table, and that
      table a device; without a rule, and for the main table, what that table says. */
  function Way(routes: seq<Route>, p: Packet, main: string): string {
    var r := FindRoute(routes, p.meta.owner, p.family);
    if r.None? || r.value.table == 254 then main
    else
      var x := FindTable(routes, r.value.table, p.family);
      if x.None? then main else x.value.device
  }

  lemma OwnWay(e: Desired, i: nat, p: Packet, main: string)
    requires PlainOk(e) && i < |e.paths| && p.meta.owner == Owner(e.paths[i].slot) && Routed(p.family, e.network.ipv6)
    ensures Way(Routes(e.paths, e.network.ipv6), p, main) ==
            match e.paths[i].kind
            case Interface => e.paths[i].device
            case Tproxy => "lo"
            case _ => main
  {
    var routes, r := Routes(e.paths, e.network.ipv6), RouteOf(e.paths[i], p.family);
    RouteIsOwn(e, i, p.family, r);
    forall x | x in routes && x.owner == r.owner && x.family == r.family ensures x == r {
      RouteIsOwn(e, i, p.family, x);
    }
    FoundRoute(routes, r);
    assert PathOk(e.paths[i], e);
    if r.table != 254 {
      RoutesMean(e);
      FoundTable(routes, r);
    }
  }

  // ----- what no rule changes

  predicate SameTravel(p: Packet, q: Packet) {
    (q.dst, q.family, q.iif, q.oif) == (p.dst, p.family, p.iif, p.oif)
  }

  predicate Carries(p: Packet, o: Outcome) { o.Dropped? || SameTravel(p, o.p) }

  lemma {:induction false} RunCarries(t: Table, rules: seq<Rule>, p: Packet, depth: nat)
    ensures Carries(p, Run(t, rules, p, depth))
    decreases depth, |rules|
  {
    if rules != [] {
      if HitsAll(rules[0].matches, p) {
        FireCarries(t, rules[0], p, depth);
        if Fire(t, rules[0], p, depth).Going? {
          RunCarries(t, rules[1..], Fire(t, rules[0], p, depth).p, depth);
        }
      } else {
        RunCarries(t, rules[1..], p, depth);
      }
    }
  }

  lemma {:induction false} FireCarries(t: Table, r: Rule, p: Packet, depth: nat)
    ensures Carries(p, Fire(t, r, p, depth))
    decreases depth, 0
  {
    if r.verdict.Jump? && depth > 0 && r.verdict.chain in t {
      RunCarries(t, t[r.verdict.chain], Marked(r, p), depth - 1);
    }
  }

  lemma HookCarries(t: Table, c: Chain, p: Packet)
    ensures Hook(t, c, p).Passed? ==> SameTravel(p, Hook(t, c, p).p)
  {
    if c in t { RunCarries(t, t[c], p, JUMPS); }
  }

  lemma PreroutedCarries(t: Table, p: Packet, dst: set<Range>)
    ensures Prerouted(t, p, dst).Passed? ==>
              SameTravel(p, Prerouted(t, p, dst).p) || SameTravel(p.(dst := dst), Prerouted(t, p, dst).p)
  {
    HookCarries(t, DnsClassify, p);
    match Hook(t, DnsClassify, p)
    case Lost =>
    case Passed(q) =>
      HookCarries(t, DnsNat, q);
      match Hook(t, DnsNat, q)
      case Lost =>
      case Passed(r) => HookCarries(t, Prerouting, if r.rewritten && !q.rewritten then r.(dst := dst) else r);
  }

  // ----- the journey

  /** Prerouting, then a local listener if one has the packet, else the way its
      mark is routed, the forward chain and the postrouting queues. */
  function Journey(e: Desired, p: Packet, dst: set<Range>, main: string): Fate {
    match Prerouted(Live(e), p, dst)
    case Lost => Lost
    case Passed(q) =>
      if q.listener != 0 then Passed(q)
      else
        match Hook(Live(e), Forward, q.(oif := Way(Routes(e.paths, e.network.ipv6), q, main)))
        case Lost => Lost
        case Passed(r) => Hook(Live(e), Postrouting, r)
  }

  /** How a path lets a packet go on: to its own listener, to its own queue, by its
      own device, or, when it is direct, by the main table. */
  predicate LeavesOn(path: Path, p: Packet, q: Packet, main: string) {
    && q.ct.owner == q.meta.owner == Owner(path.slot)
    && match path.kind
       case Tproxy => q.listener != 0 && (q.listener == path.port || q.listener == path.dnsPort)
       case Interface => q.listener == 0 && q.oif == path.device
       case PacketEngine => q.listener == 0 && q.oif == main && (Hits(EngineClear, p) ==> q.queue == 21000 + path.slot)
       case Direct => q.listener == 0 && q.oif == main
       case UnknownKind => false
  }

  ghost predicate LeavesOnOne(paths: seq<Path>, p: Packet, q: Packet, main: string) {
    exists i :: 0 <= i < |paths| && LeavesOn(paths[i], p, q, main)
  }

  predicate LocalTo(n: Network, dst: set<Range>) {
    exists i :: 0 <= i < |n.prefixes| && Local(n.prefixes[i]) in dst
  }

  /** From the path that was handed the packet to the world outside. */
  lemma OutOfRouter(e: Desired, i: nat, p: Packet, q: Packet, main: string)
    requires PlainOk(e) && i < |e.paths| && q.listener == 0 && q.meta.low == p.meta.low
    requires q.ct.owner == q.meta.owner == Owner(e.paths[i].slot) && (e.paths[i].kind.PacketEngine? ==> !q.proto.OtherProto?)
    requires q.iif in e.network.lan && !LocalTo(e.network, q.dst) && Routed(q.family, e.network.ipv6)
    ensures match Hook(Live(e), Forward, q.(oif := Way(Routes(e.paths, e.network.ipv6), q, main)))
            case Lost => true
            case Passed(r) =>
              match Hook(Live(e), Postrouting, r)
              case Lost => true
              case Passed(x) => LeavesOn(e.paths[i], p, x, main)
  {
    var out := q.(oif := Way(Routes(e.paths, e.network.ipv6), q, main));
    assert Hook(Live(e), Forward, out) == if MayLeave(e.paths[i], out) then Passed(out) else Lost by { OwnForward(e, i, out); }
    assert Hook(Live(e), Postrouting, out) == Passed(Taken(e.paths[i], out)) by { OwnQueue(e, i, out); }
    if MayLeave(e.paths[i], out) { OwnLeaves(e, i, p, q, main); }
  }

  /** The packet as the owner's queue leaves it. */
  function Taken(path: Path, p: Packet): Packet {
    if EngineTakes(path, p) then p.(queue := 21000 + path.slot) else p
  }

  lemma OwnLeaves(e: Desired, i: nat, p: Packet, q: Packet, main: string)
    requires PlainOk(e) && i < |e.paths| && q.listener == 0 && q.meta.low == p.meta.low
    requires q.ct.owner == q.meta.owner == Owner(e.paths[i].slot) && (e.paths[i].kind.PacketEngine? ==> !q.proto.OtherProto?)
    requires Routed(q.family, e.network.ipv6)
    requires MayLeave(e.paths[i], q.(oif := Way(Routes(e.paths, e.network.ipv6), q, main)))
    ensures LeavesOn(e.paths[i], p, Taken(e.paths[i], q.(oif := Way(Routes(e.paths, e.network.ipv6), q, main))), main)
  {
    OwnWay(e, i, q, main);
  }

  /** Only the owner's queue can take a packet. */
  lemma OwnQueue(e: Desired, i: nat, p: Packet)
    requires PlainOk(e) && i < |e.paths| && p.meta.owner == Owner(e.paths[i].slot)
    ensures Hook(Live(e), Postrouting, p) == Passed(Taken(e.paths[i], p))
  {
    QueueIsOwn(e, p, i);
    NotOthers(e, p, i);
  }

  /** Only the owner decides in the forward hook. */
  lemma OwnForward(e: Desired, i: nat, p: Packet)
    requires PlainOk(e) && i < |e.paths| && p.ct.owner == Owner(e.paths[i].slot)
    requires p.iif in e.network.lan && !LocalTo(e.network, p.dst)
    ensures Hook(Live(e), Forward, p) == if MayLeave(e.paths[i], p) then Passed(p) else Lost
  {
    ForwardHook(e, p);
    Unshared(e, i);
  }

  /** No engine but the owner's takes a packet. */
  lemma NotOthers(e: Desired, p: Packet, i: nat)
    requires PlainOk(e) && i < |e.paths| && p.meta.owner == Owner(e.paths[i].slot)
    ensures (forall j :: 0 <= j < |e.paths| ==> !EngineTakes(e.paths[j], p)) || EngineTakes(e.paths[i], p)
  {
    Unshared(e, i);
    forall j | 0 <= j < |e.paths| ensures EngineTakes(e.paths[j], p) ==> j == i {
    }
  }

  /** No escape, from end to end: a LAN packet to an external destination that
      carries none of our packet marks is lost, or the one path that owns its
      connection has it, on its listener, in its queue or through its device. */
  lemma NoEscapeAnywhere(d: Desired, p: Packet, dst: set<Range>, main: string)
    requires Accepts(d) && d.selective.None?
    requires p.iif in d.network.lan && Foreign(p.meta) && External(d.network, p.dst) && External(d.network, dst)
    requires !p.rewritten && p.listener == 0
    ensures match Journey(Materialized(d), p, dst, main)
            case Lost => true
            case Passed(q) => LeavesOnOne(Materialized(d).paths, p, q, main)
  {
    var e := Materialized(d);
    NoEscape(d, p, dst);
    match Prerouted(Live(e), p, dst)
    case Lost =>
    case Passed(q) =>
      var i :| 0 <= i < |e.paths| && HandedTo(e.paths[i], e, p, q);
      PreroutedCarries(Live(e), p, dst);
      PreroutedFamily(d, p, dst);
      if q.listener == 0 {
        OutOfRouter(e, i, p, q, main);
      } else {
        assert LeavesOn(e.paths[i], p, q, main);
      }
  }

  /** What passes prerouting is of a family that is let through. */
  lemma PreroutedFamily(d: Desired, p: Packet, dst: set<Range>)
    requires Accepts(d) && d.selective.None?
    requires p.iif in d.network.lan && Foreign(p.meta) && External(d.network, p.dst) && !p.rewritten
    ensures Prerouted(Live(Materialized(d)), p, dst).Passed? && Prerouted(Live(Materialized(d)), p, dst).p.listener == 0 ==>
              Routed(p.family, d.network.ipv6)
  {
    var e := Materialized(d);
    var owner := Classified(e, p).ct.owner;
    if Owned(e.paths, owner) {
      var i :| 0 <= i < |e.paths| && owner == Owner(e.paths[i].slot);
      OwnedFamily(d, p, i, dst);
    } else {
      UnownedIsLost(d, p, dst);
    }
  }

  lemma OwnedFamily(d: Desired, p: Packet, i: nat, dst: set<Range>)
    requires Accepts(d) && d.selective.None? && i < |Materialized(d).paths|
    requires p.iif in d.network.lan && External(d.network, p.dst) && !p.rewritten
    requires Classified(Materialized(d), p).ct.owner == Owner(Materialized(d).paths[i].slot)
    ensures Prerouted(Live(Materialized(d)), p, dst).Passed? && Prerouted(Live(Materialized(d)), p, dst).p.listener == 0 ==>
              Routed(p.family, d.network.ipv6)
  {
    var e := Materialized(d);
    if DnsPacket(p) && d.network.dns.SelectedDns? {
      SelectedDnsVerdict(d, p, i, dst);
    } else if PastDns(e, Entered(e, p)) {
      OwnedVerdict(d, p, i, dst);
    } else {
      BlockedDnsIsLost(d, p, dst);
    }
  }

  // ----- which destinations are external

  predicate LinkScope(f: Family, a: nat) {
    if f.V4? then 0xe000_0000 <= a < 0xe000_0100
    else 0xff02_0000_0000_0000_0000_0000_0000_0000 <= a < 0xff03_0000_0000_0000_0000_0000_0000_0000
  }

  predicate LinkLocal(f: Family, a: nat) {
    f.V6? && 0xfe80_0000_0000_0000_0000_0000_0000_0000 <= a < 0xfec0_0000_0000_0000_0000_0000_0000_0000
  }

  /** The ranges that an address lies in; `router`: it is one of the router's. */
  function RangesOf(n: Network, f: Family, a: nat, router: bool): set<Range> {
    (if router then {Router} else {})
    + (if LinkScope(f, a) then {if f.V4? then Multicast4 else Multicast6} else {})
    + (if LinkLocal(f, a) then {LinkLocal6} else {})
    + (if FakePool(f).Has(a) then {if f.V4? then Fake4 else Fake6} else {})
    + set i | 0 <= i < |n.prefixes| && n.prefixes[i].Parsed() && n.prefixes[i].family == f && n.prefixes[i].Contains(a) :: Local(n.prefixes[i])
  }

  /** An address of nobody on this site: not the router's, not link scope, and
      neither private nor link-local. */
  predicate Outside(f: Family, a: nat) { !Internal(f, a) && !LinkScope(f, a) }

  lemma LinkLocalIsInternal(f: Family, a: nat)
    requires LinkLocal(f, a)
    ensures Internal(f, a)
  {
    assert Blocks(f)[1].Has(a);
  }

  /** A narrow prefix takes in no outside address. */
  lemma NarrowTakesNone(n: Network, f: Family, a: nat)
    requires NetworkOk(n) && Outside(f, a) && forall i :: 0 <= i < |n.prefixes| ==> Narrow(n.prefixes[i])
    ensures External(n, RangesOf(n, f, a, false))
  {
    if LinkLocal(f, a) { LinkLocalIsInternal(f, a); }
    forall i | 0 <= i < |n.prefixes| ensures Local(n.prefixes[i]) !in RangesOf(n, f, a, false) {
      ReachExact(n.prefixes[i]);
    }
  }

  lemma WideTakesOne(n: Network, i: nat) returns (a: nat)
    requires NetworkOk(n) && i < |n.prefixes| && !Narrow(n.prefixes[i])
    ensures Outside(n.prefixes[i].family, a) && n.prefixes[i].Contains(a)
    ensures !External(n, RangesOf(n, n.prefixes[i].family, a, false))
  {
    var p := n.prefixes[i];
    var k :| 0 <= k < |Blocks(p.family)| && Blocks(p.family)[k].Has(p.base);
    a := Blocks(p.family)[k].hi;
    BlockAligned(p.family, k);
    BlockEnds(p.family, k);
    WideLeaves(p, Blocks(p.family)[k]);
    assert Local(p) in RangesOf(n, p.family, a, false);
  }

  /** The guarantee covers every outside address if and only if every declared
      prefix is at least as long as the block of its base. */
  lemma CoversExactly(n: Network)
    requires NetworkOk(n)
    ensures (forall f: Family, a: nat :: Outside(f, a) ==> External(n, RangesOf(n, f, a, false)))
            <==> forall i :: 0 <= i < |n.prefixes| ==> Narrow(n.prefixes[i])
  {
    if forall i :: 0 <= i < |n.prefixes| ==> Narrow(n.prefixes[i]) {
      forall f: Family, a: nat | Outside(f, a) ensures External(n, RangesOf(n, f, a, false)) {
        NarrowTakesNone(n, f, a);
      }
    } else {
      var i :| 0 <= i < |n.prefixes| && !Narrow(n.prefixes[i]);
      var a := WideTakesOne(n, i);
    }
  }

  // ----- what a wide prefix lets out

  lemma {:induction false} LocalRun(t: Table, prefixes: seq<Prefix>, i: nat, p: Packet, depth: nat)
    requires i < |prefixes| && prefixes[i].family == p.family && Local(prefixes[i]) in p.dst
    ensures Run(t, PrefixRules(prefixes), p, depth) == Back(p)
  {
    var m := Daddr(prefixes[0].family, Local(prefixes[0]));
    RunConcat(t, [Rule([m], 0, 0, Return)], PrefixRules(prefixes[1..]), p, depth);
    RunOne(t, Rule([m], 0, 0, Return), p, depth);
    Hit1(m, p);
    if i > 0 { LocalRun(t, prefixes[1..], i - 1, p, depth); }
  }

  /** Only the exceptions can be met before the local prefixes, and all return. */
  lemma {:induction false} ReturnsRun(t: Table, ms: seq<Match>, p: Packet, depth: nat)
    ensures Run(t, Returns(ms), p, depth) == Going(p) || Run(t, Returns(ms), p, depth) == Back(p)
  {
    if ms != [] {
      Hit1(ms[0], p);
      RunConcat(t, [Rule([ms[0]], 0, 0, Return)], Returns(ms[1..]), p, depth);
      RunOne(t, Rule([ms[0]], 0, 0, Return), p, depth);
      ReturnsRun(t, ms[1..], p, depth);
    }
  }

  lemma LocalException(t: Table, prefixes: seq<Prefix>, i: nat, rest: seq<Rule>, p: Packet, depth: nat)
    requires i < |prefixes| && prefixes[i].family == p.family && Local(prefixes[i]) in p.dst
    ensures Run(t, Exceptions(prefixes) + rest, p, depth) == Back(p)
  {
    var ms := [Daddr(V4, Router), Daddr(V6, Router), Daddr(V4, Multicast4), Daddr(V6, Multicast6), Daddr(V6, LinkLocal6)];
    assert Exceptions(prefixes) == Returns(ms) + PrefixRules(prefixes);
    RunConcat(t, Exceptions(prefixes), rest, p, depth);
    RunConcat(t, Returns(ms), PrefixRules(prefixes), p, depth);
    ReturnsRun(t, ms, p, depth);
    LocalRun(t, prefixes, i, p, depth);
  }

  /** A packet to a declared local prefix goes through untouched, wherever it is
      routed: under a wide prefix that is where protection ends. */
  lemma LocalPasses(d: Desired, i: nat, p: Packet, dst: set<Range>)
    requires Accepts(d) && d.selective.None? && i < |d.network.prefixes|
    requires p.iif in d.network.lan && !DnsPacket(p) && p.family == d.network.prefixes[i].family && Local(d.network.prefixes[i]) in p.dst
    ensures Prerouted(Live(Materialized(d)), p, dst) == Passed(p)
    ensures Hook(Live(Materialized(d)), Forward, p) == Passed(p)
  {
    var e := Materialized(d);
    LocalPrerouted(e, i, p, dst);
    LocalForwarded(e, i, p);
  }

  lemma LocalPrerouted(e: Desired, i: nat, p: Packet, dst: set<Range>)
    requires i < |e.network.prefixes| && p.iif in e.network.lan && !DnsPacket(p)
    requires p.family == e.network.prefixes[i].family && Local(e.network.prefixes[i]) in p.dst
    ensures Prerouted(Live(e), p, dst) == Passed(p)
  {
    var t := Live(e);
    PlainHooks(e, p, dst);
    ProtectHook(e, p);
    RunConcat(t, DnsPart(e), Exceptions(e.network.prefixes) + (V6Part(e) + PathPart(e)), p, JUMPS - 1);
    PastDnsPart(t, e, p, JUMPS - 1);
    LocalException(t, e.network.prefixes, i, V6Part(e) + PathPart(e), p, JUMPS - 1);
  }

  lemma LocalForwarded(e: Desired, i: nat, p: Packet)
    requires i < |e.network.prefixes| && p.iif in e.network.lan
    requires p.family == e.network.prefixes[i].family && Local(e.network.prefixes[i]) in p.dst
    ensures Hook(Live(e), Forward, p) == Passed(p)
  {
    var t := Live(e);
    Hit1(Iif(e.network.lan), p);
    RunOne(t, Rule([Iif(e.network.lan)], 0, 0, Jump(ForwardCheck)), p, JUMPS);
    RunConcat(t, PrefixRules(e.network.prefixes), ForPaths(e.paths, ForwardRule()) + [DROP_REST], p, JUMPS - 1);
    LocalRun(t, e.network.prefixes, i, p, JUMPS - 1);
  }

  /** The smallest intent with 10.0.0.0/7 declared local. */
  function WideIntent(): Desired {
    Desired(Network(true, ["br-lan"], "wan", [Prefix(V4, 0x0a00_0000, 7)], BlockV6, BlockDns, Resolver(V4, 0)),
            [], [], "", ClosedFallback, false, None, None)
  }

  lemma WideIntentAccepted()
    ensures Accepts(WideIntent())
  {
    WidePrefixAccepted();
    var d := WideIntent();
    assert NetworkOk(d.network);
    assert Slots(d.paths) == [] && Sources(d.paths) == [] && Listeners(d.paths) == [];
  }

  /** It is accepted, 11.0.0.1 is outside, and a LAN packet to it leaves the router
      unowned and unchanged. */
  lemma WidePrefixEscapes(p: Packet, dst: set<Range>)
    requires p.iif == "br-lan" && !DnsPacket(p) && p.family == V4
    requires p.dst == RangesOf(WideIntent().network, V4, 0x0b00_0001, false)
    ensures Accepts(WideIntent()) && Outside(V4, 0x0b00_0001)
    ensures Prerouted(Live(WideIntent()), p, dst) == Passed(p) && Hook(Live(WideIntent()), Forward, p) == Passed(p)
  {
    WidePrefixAccepted();
    WideIntentAccepted();
    LocalPasses(WideIntent(), 0, p, dst);
  }

  // ----- what selective routing lets out

  function Digest(): string { seq(64, _ => '0') }

  /** The smallest selective intent. */
  function SelectiveIntent(): Desired {
    Desired(Network(true, ["br-lan"], "wan", [Prefix(V4, 0xc0a8_0000, 16)], BlockV6, BlockDns, Resolver(V4, 0)),
            [], [], "", ClosedFallback, false, None,
            Some(Selective(0, Path(SELECTIVE, Tproxy, 250, 20000, 0, "", false, true), 20001, true, FAKE4, FAKE6, Digest(), 1, Digest())))
  }

  lemma SelectiveNetworkSound()
    ensures NetworkOk(SelectiveIntent().network) && !MeetsPool(SelectiveIntent().network.prefixes[0])
  {
    Powers4();
    assert Blocks(V4)[2].Has(0xc0a8_0000);
    assert Sound(Prefix(V4, 0xc0a8_0000, 16));
  }

  lemma SelectiveIntentAccepted()
    ensures Accepts(SelectiveIntent())
  {
    assert SelectiveOk(SelectiveIntent()) by { SelectiveIntentSound(); }
    assert PlainOk(Normalized(SelectiveIntent())) by { SelectivePathsSound(); }
  }

  lemma SelectiveIntentSound()
    ensures SelectiveOk(SelectiveIntent())
  {
    SelectiveNetworkSound();
    assert AllPaths(SelectiveIntent()) == [];
  }

  lemma SelectivePathsSound()
    ensures PlainOk(Normalized(SelectiveIntent()))
  {
    SelectiveNetworkSound();
    var n := Normalized(SelectiveIntent());
    assert n.paths == [SelectiveIntent().selective.value.path] && n.paths[1..] == [];
    assert Sources(n.paths)[0] == SELECTIVE;
    assert PathOk(n.paths[0], n);
  }

  lemma PublicIsUnlisted()
    ensures RangesOf(SelectiveIntent().network, V4, 0x0808_0808, false) == {} && Outside(V4, 0x0808_0808)
  {
    Powers4();
  }

  /** What the dispatcher cannot take passes, unless it is IPv6 and that is blocked. */
  lemma UndispatchedPasses(d: Desired, p: Packet, dst: set<Range>)
    requires Accepts(d) && d.selective.Some?
    requires p.iif in d.network.lan && p.proto.OtherProto? && !ToFake(p) && External(d.network, p.dst)
    requires Foreign(p.ct) && !p.rewritten && !(p.family.V6? && d.network.ipv6.BlockV6?)
    ensures Prerouted(SelectiveLive(d), p, dst) == Passed(p) && Hook(SelectiveLive(d), Forward, p) == Passed(p)
  {
    assert Prerouted(SelectiveLive(d), p, dst) == Passed(p) by { ExternalDispatch(d, p, dst); }
    DispatchedNeverForwarded(d, p);
  }

  /** It is accepted, 8.8.8.8 is outside, and a LAN packet to it that is neither TCP
      nor UDP leaves the router unowned and unchanged. */
  lemma OtherProtocolsGoDirect(p: Packet, dst: set<Range>)
    requires p.iif == "br-lan" && p.proto.OtherProto? && p.family == V4 && Foreign(p.ct) && !p.rewritten
    requires p.dst == RangesOf(SelectiveIntent().network, V4, 0x0808_0808, false)
    ensures Accepts(SelectiveIntent()) && Outside(V4, 0x0808_0808)
    ensures Prerouted(SelectiveLive(SelectiveIntent()), p, dst) == Passed(p)
    ensures Hook(SelectiveLive(SelectiveIntent()), Forward, p) == Passed(p)
  {
    var d := SelectiveIntent();
    assert p.dst == {} && Outside(V4, 0x0808_0808) by { PublicIsUnlisted(); }
    assert External(d.network, p.dst) && !ToFake(p);
    assert Accepts(d) by { SelectiveIntentAccepted(); }
    assert Prerouted(SelectiveLive(d), p, dst) == Passed(p) && Hook(SelectiveLive(d), Forward, p) == Passed(p) by {
      UndispatchedPasses(d, p, dst);
    }
  }

  // ----- an intent with every kind of path

  function FullPaths(): seq<Path> {
    [Path("wan", Direct, 1, 0, 0, "", false, true), Path("proxy", Tproxy, 2, 20000, 20001, "", false, false),
     Path("tunnel", Interface, 3, 0, 0, "tun0", false, true), Path("engine", PacketEngine, 4, 0, 0, "", false, true)]
  }

  /** DNS through 9.9.9.9 on the selected path, direct when all else fails. */
  function FullIntent(): Desired {
    Desired(Network(true, ["br-lan"], "wan", [Prefix(V4, 0xc0a8_0000, 16)], BlockV6, SelectedDns, Resolver(V4, 0x0909_0909)),
            FullPaths(), ["old"], "tunnel", DirectFallback, false, None, None)
  }

  lemma ResolverIsPublic()
    ensures Public(V4, 0x0909_0909)
  {
    Powers4();
    assert Power2(17) == 0x2_0000 && Power2(22) == 0x40_0000 && Power2(28) == 0x1000_0000 && Power2(8) == 0x100;
  }

  lemma FullNetworkSound()
    ensures NetworkOk(FullIntent().network)
  {
    Powers4();
    ResolverIsPublic();
    assert Blocks(V4)[2].Has(0xc0a8_0000);
    assert Sound(Prefix(V4, 0xc0a8_0000, 16));
  }

  lemma FullPathsApart()
    ensures Distinct(Slots(FullPaths())) && Distinct(Sources(FullPaths())) && Distinct(Listeners(FullPaths()))
  {
    var ps := FullPaths();
    assert Slots(ps) == [1, 2, 3, 4];
    assert Sources(ps) == ["wan", "proxy", "tunnel", "engine"];
    assert |"wan"| == 3 && |"proxy"| == 5 && "tunnel"[0] == 't' && "engine"[0] == 'e';
    assert Listeners(ps[2..]) == [] by { assert Listeners(ps[3..]) == []; }
    assert ps[1..][1..] == ps[2..] && ps[2..][1..] == ps[3..] && ps[3..][1..] == [];
    assert Listeners(ps) == [20000, 20001];
  }

  /** Every kind of path can be accepted side by side. */
  lemma FullIntentAccepted()
    ensures Accepts(FullIntent())
  {
    var d := FullIntent();
    assert NetworkOk(d.network) by { FullNetworkSound(); }
    assert Distinct(Slots(d.paths)) && Distinct(Sources(d.paths)) && Distinct(Listeners(d.paths)) by { FullPathsApart(); }
    forall i | 0 <= i < |d.paths| ensures PathOk(d.paths[i], d) && d.paths[i].source !in d.unavailable {
      FullPathOk(i);
    }
    assert SelectionOk(d) by { assert Sources(d.paths)[2] == d.selected; }
    assert UnavailableOk(d);
  }

  lemma FullPathOk(i: nat)
    requires i < 4
    ensures PathOk(FullPaths()[i], FullIntent()) && FullPaths()[i].source !in ["old"]
  {
    assert FullPaths()[i].source[0] != 'o';
  }
}
