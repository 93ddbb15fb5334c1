/** The exact fate of LAN packets under a live table: which path gets them, what
    is blocked, what stays reachable, and which queue an engine reads. */
module PathProofs {
  import opened Addresses
  import opened Intent
  import opened Packets
  import opened Tables
  import opened DataplaneProofs

  // ----- one path among many

  predicate Supports(path: Path, p: Packet) {
    match path.kind
    case Direct => true
    case Interface => true
    case PacketEngine => !p.proto.OtherProto?
    case Tproxy => if path.udp then !p.proto.OtherProto? else p.proto.TCP?
    case UnknownKind => false
  }

  function Carry(path: Path, p: Packet): Packet {
    if path.kind.Tproxy? then p.(listener := path.port) else p
  }

  /** A path takes the packets that carry its mark and that it supports. */
  lemma TakenBy(t: Table, path: Path, p: Packet, depth: nat)
    ensures Run(t, PathRule()(path), p, depth) ==
            if p.meta.owner != Owner(path.slot) || !Supports(path, p) then Going(p)
            else if path.kind.Tproxy? then Accepted(Carry(path, p))
            else Back(p)
  {
    var o := Owner(path.slot);
    var m := if path.udp then TcpUdp else TcpOnly;
    RunOne(t, Rule([MetaOwner(o)], 0, 0, Return), p, depth);
    RunOne(t, Rule([MetaOwner(o), TcpUdp], 0, 0, Return), p, depth);
    RunOne(t, Rule([MetaOwner(o), m], 0, 0, TproxyTo(path.port)), p, depth);
    Hit1(MetaOwner(o), p);
    Hit2(MetaOwner(o), TcpUdp, p);
    Hit2(MetaOwner(o), m, p);
  }

  predicate OnlyOwner(paths: seq<Path>, i: nat)
    requires i < |paths|
  {
    forall j :: 0 <= j < |paths| && j != i ==> paths[j].slot != paths[i].slot
  }

  lemma {:induction false} NotTaken(t: Table, paths: seq<Path>, p: Packet, depth: nat)
    requires forall j :: 0 <= j < |paths| ==> p.meta.owner != Owner(paths[j].slot)
    ensures Run(t, ForPaths(paths, PathRule()), p, depth) == Going(p)
  {
    if paths != [] {
      RunConcat(t, PathRule()(paths[0]), ForPaths(paths[1..], PathRule()), p, depth);
      TakenBy(t, paths[0], p, depth);
      NotTaken(t, paths[1..], p, depth);
    }
  }

  lemma {:induction false} TakenByOne(t: Table, paths: seq<Path>, i: nat, p: Packet, depth: nat)
    requires i < |paths| && p.meta.owner == Owner(paths[i].slot) && OnlyOwner(paths, i)
    ensures Run(t, ForPaths(paths, PathRule()), p, depth) ==
            if !Supports(paths[i], p) then Going(p)
            else if paths[i].kind.Tproxy? then Accepted(Carry(paths[i], p))
            else Back(p)
  {
    RunConcat(t, PathRule()(paths[0]), ForPaths(paths[1..], PathRule()), p, depth);
    TakenBy(t, paths[0], p, depth);
    if i == 0 {
      NotTaken(t, paths[1..], p, depth);
    } else {
      assert paths[0].slot != paths[i].slot;
      TakenByOne(t, paths[1..], i - 1, p, depth);
    }
  }

  lemma Unshared(d: Desired, i: nat)
    requires PathsOk(d) && i < |d.paths|
    ensures OnlyOwner(d.paths, i)
  {
    var slots := Slots(d.paths);
    forall j | 0 <= j < |d.paths| && j != i ensures d.paths[j].slot != d.paths[i].slot {
      assert slots[i] == d.paths[i].slot && slots[j] == d.paths[j].slot;
    }
  }

  // ----- being handed to a path

  /** The packet has been handed to a prepared path whose slot is in both its
      connection mark and its packet mark. */
  ghost predicate Handed(d: Desired, p: Packet, q: Packet) {
    exists i :: 0 <= i < |d.paths| && HandedTo(d.paths[i], d, p, q)
  }

  /** p arrived and q is what leaves prerouting on the path. */
  predicate HandedTo(path: Path, d: Desired, p: Packet, q: Packet) {
    && q.ct == Mark(Owner(path.slot), p.ct.low) && q.meta == Mark(Owner(path.slot), p.meta.low)
    && (!Foreign(p.ct) ==> q.ct == p.ct)
    && (q.family, q.proto, q.dns, q.iif, q.oif) == (p.family, p.proto, p.dns, p.iif, p.oif)
    && (match path.kind
        case Tproxy =>
          if q.dns && d.network.dns.SelectedDns? && !q.proto.OtherProto? then q.listener == path.dnsPort != 0
          else q.listener == path.port && (if path.udp then !q.proto.OtherProto? else q.proto.TCP?)
        case Direct => q.listener == p.listener
        case Interface => q.listener == p.listener
        case PacketEngine => q.listener == p.listener && !q.proto.OtherProto?
        case UnknownKind => false)
  }

  /** The path a handed packet is on is unique: no two share a slot. */
  lemma HandedToOne(d: Desired, p: Packet, q: Packet, i: nat, j: nat)
    requires PlainOk(d) && i < |d.paths| && j < |d.paths|
    requires HandedTo(d.paths[i], d, p, q) && HandedTo(d.paths[j], d, p, q)
    ensures i == j
  {
    assert Slots(d.paths)[i] == d.paths[i].slot && Slots(d.paths)[j] == d.paths[j].slot;
  }

  // ----- the path part, exactly

  /** A classified packet of a path's connection, after its mark has followed. */
  function Bound(path: Path, c: Packet): Packet { c.(meta := c.meta.(owner := Owner(path.slot))) }

  lemma OwnedPart(t: Table, d: Desired, i: nat, c: Packet, depth: nat)
    requires PathsOk(d) && i < |d.paths| && c.ct.owner == Owner(d.paths[i].slot)
    ensures Run(t, ForPaths(d.paths, OwnerRule()) + (ForPaths(d.paths, PathRule()) + [DROP_REST]), c, depth) ==
            if !Supports(d.paths[i], c) then Dropped
            else if d.paths[i].kind.Tproxy? then Accepted(Carry(d.paths[i], Bound(d.paths[i], c)))
            else Back(Bound(d.paths[i], c))
  {
    var owners, ways := ForPaths(d.paths, OwnerRule()), ForPaths(d.paths, PathRule());
    RunConcat(t, owners, ways + [DROP_REST], c, depth);
    OwnerRun(t, d.paths, c, depth);
    var f := Bound(d.paths[i], c);
    assert Followed(d.paths, c) == f;
    RunConcat(t, ways, [DROP_REST], f, depth);
    Unshared(d, i);
    TakenByOne(t, d.paths, i, f, depth);
    RunOne(t, DROP_REST, f, depth);
  }

  lemma UnownedPart(t: Table, d: Desired, c: Packet, depth: nat)
    requires PathsOk(d) && !Owned(d.paths, c.ct.owner) && Foreign(c.meta)
    ensures Run(t, ForPaths(d.paths, OwnerRule()) + (ForPaths(d.paths, PathRule()) + [DROP_REST]), c, depth) == Dropped
  {
    var owners, ways := ForPaths(d.paths, OwnerRule()), ForPaths(d.paths, PathRule());
    RunConcat(t, owners, ways + [DROP_REST], c, depth);
    OwnerRun(t, d.paths, c, depth);
    RunConcat(t, ways, [DROP_REST], c, depth);
    forall j | 0 <= j < |d.paths| ensures c.meta.owner != Owner(d.paths[j].slot) {
      assert PathOk(d.paths[j], d);
    }
    NotTaken(t, d.paths, c, depth);
    RunOne(t, DROP_REST, c, depth);
  }

  // ----- the protect chain, exactly

  lemma {:induction false} SelectedIsOurs(paths: seq<Path>, selected: string, d: Desired)
    requires forall i :: 0 <= i < |paths| ==> PathOk(paths[i], d)
    ensures var o := SelectedOwner(paths, selected); o == 0 || o / 256 == NAMESPACE
  {
    if paths != [] && paths[0].source != selected {
      SelectedIsOurs(paths[1..], selected, d);
    }
  }

  lemma SelectedPart(t: Table, d: Desired, p: Packet, depth: nat)
    requires SelectFlow in t && t[SelectFlow] == SelectionRules(d) && depth > 0
    ensures Run(t, PathPart(d), p, depth) ==
            Run(t, ForPaths(d.paths, OwnerRule()) + (ForPaths(d.paths, PathRule()) + [DROP_REST]), Classified(d, p), depth)
  {
    var jump := Rule([], 0, 0, Jump(SelectFlow));
    var rest := ForPaths(d.paths, OwnerRule()) + (ForPaths(d.paths, PathRule()) + [DROP_REST]);
    assert PathPart(d) == [jump] + rest;
    RunConcat(t, [jump], rest, p, depth);
    RunOne(t, jump, p, depth);
    SelectRun(t, d.paths, d.selected, p, depth - 1);
    assert Run(t, [jump], p, depth) == Going(Classified(d, p));
  }

  /** Past the DNS rules: not DNS, or blocked DNS that a direct path owns. */
  predicate PastDns(e: Desired, c: Packet) {
    !DnsPacket(c) || (e.network.dns.BlockDns? && DirectOwned(e.paths, c.ct.owner))
  }

  lemma {:induction false} NoDnsRules(t: Table, n: Network, paths: seq<Path>, p: Packet, depth: nat)
    requires !DnsPacket(p)
    ensures Run(t, ForPaths(paths, DnsRule(n)), p, depth) == Going(p)
  {
    if paths != [] {
      RunConcat(t, DnsRule(n)(paths[0]), ForPaths(paths[1..], DnsRule(n)), p, depth);
      NotDns(t, n, paths[0], p, depth);
      NoDnsRules(t, n, paths[1..], p, depth);
    }
  }

  lemma NotDns(t: Table, n: Network, path: Path, p: Packet, depth: nat)
    requires !DnsPacket(p)
    ensures Run(t, DnsRule(n)(path), p, depth) == Going(p)
  {
    var rules := DnsRule(n)(path);
    forall i | 0 <= i < |rules| ensures Dns in rules[i].matches {
    }
    Missed(t, rules, Dns, p, depth);
  }

  /** Rules that all ask for something a packet has not. */
  lemma {:induction false} Missed(t: Table, rules: seq<Rule>, m: Match, p: Packet, depth: nat)
    requires !Hits(m, p) && forall i :: 0 <= i < |rules| ==> m in rules[i].matches
    ensures Run(t, rules, p, depth) == Going(p)
    decreases |rules|
  {
    if rules != [] {
      var i :| 0 <= i < |rules[0].matches| && rules[0].matches[i] == m;
      Missed(t, rules[1..], m, p, depth);
    }
  }

  lemma PastDnsPart(t: Table, e: Desired, c: Packet, depth: nat)
    requires DnsBlock in t && depth > 0 && PastDns(e, c)
    requires e.network.dns.BlockDns? ==> t[DnsBlock] == ForPaths(e.paths, BlockRule()) + [Rule([Dns], 0, 0, Drop)]
    ensures Run(t, DnsPart(e), c, depth) == Going(c)
  {
    var drop := Rule([Dns], 0, 0, Drop);
    Hit1(Dns, c);
    if e.network.dns.BlockDns? {
      RunOne(t, Rule([Dns], 0, 0, Jump(DnsBlock)), c, depth);
      RunConcat(t, ForPaths(e.paths, BlockRule()), [drop], c, depth - 1);
      BlockExact(t, e.paths, c, depth - 1);
    } else if e.network.dns.SelectedDns? {
      RunConcat(t, ForPaths(e.paths, DnsRule(e.network)), [drop], c, depth);
      NoDnsRules(t, e.network, e.paths, c, depth);
      RunOne(t, drop, c, depth);
    }
  }

  lemma PastDnsProtect(e: Desired, c: Packet, depth: nat)
    requires PastDns(e, c) && External(e.network, c.dst) && depth > 0
    ensures Run(Live(e), ProtectChain(e), c, depth) ==
            if c.family.V6? && e.network.ipv6.BlockV6? then Dropped
            else Run(Live(e), PathPart(e), c, depth)
  {
    var t := Live(e);
    var tail := V6Part(e) + PathPart(e);
    RunConcat(t, DnsPart(e), Exceptions(e.network.prefixes) + tail, c, depth);
    PastDnsPart(t, e, c, depth);
    RunConcat(t, Exceptions(e.network.prefixes), tail, c, depth);
    ExceptionRun(t, e.network, c, depth);
    RunConcat(t, V6Part(e), PathPart(e), c, depth);
    V6PartRun(t, e, c, depth);
  }

  /** What reaches the protect chain: DNS has been classified on the way. */
  function Entered(e: Desired, p: Packet): Packet { if DnsPacket(p) then Classified(e, p) else p }

  lemma ClassifiedTwice(e: Desired, p: Packet)
    requires PathsOk(e)
    ensures Classified(e, Entered(e, p)) == Classified(e, p)
  {
    SelectedIsOurs(e.paths, e.selected, e);
  }

  lemma NoTranslation(e: Desired, c: Packet)
    requires !DnsPacket(c) || !e.network.dns.SelectedDns?
    ensures Hook(Live(e), DnsNat, c) == Passed(c)
  {
    if e.network.dns.SelectedDns? { NoNat(Live(e), e.network, e.paths, c, JUMPS); }
  }

  /** The base chain's jump and its policy. */
  lemma ProtectHook(e: Desired, c: Packet)
    requires c.iif in e.network.lan
    ensures Hook(Live(e), Prerouting, c) ==
            match Run(Live(e), ProtectChain(e), c, JUMPS - 1)
            case Dropped => Lost
            case Going(q) => Passed(q)
            case Back(q) => Passed(q)
            case Accepted(q) => Passed(q)
  {
    var r := Rule([Iif(e.network.lan)], 0, 0, Jump(Protect));
    Hit1(Iif(e.network.lan), c);
    RunOne(Live(e), r, c, JUMPS);
    assert Live(e)[Protect] == ProtectChain(e);
  }

  lemma PlainHooks(e: Desired, p: Packet, dst: set<Range>)
    requires p.iif in e.network.lan && (!DnsPacket(p) || !e.network.dns.SelectedDns?)
    ensures Prerouted(Live(e), p, dst) == Hook(Live(e), Prerouting, Entered(e, p))
  {
    ClassifyHook(e, p);
    NoTranslation(e, Entered(e, p));
  }

  // ----- main results

  /** The exact fate of an ordinary packet whose connection a prepared path owns,
      or gets to own because the path is selected: that path has it, marked as its
      own, unless it cannot carry the protocol or IPv6 is blocked; then it is
      lost.  Blocked DNS of a direct path is ordinary. */
  lemma OwnedVerdict(d: Desired, p: Packet, i: nat, dst: set<Range>)
    requires Accepts(d) && d.selective.None? && i < |Materialized(d).paths|
    requires p.iif in d.network.lan && External(d.network, p.dst) && PastDns(Materialized(d), Entered(Materialized(d), p))
    requires Classified(Materialized(d), p).ct.owner == Owner(Materialized(d).paths[i].slot)
    ensures var path := Materialized(d).paths[i];
            Prerouted(Live(Materialized(d)), p, dst) ==
            if (p.family.V6? && d.network.ipv6.BlockV6?) || !Supports(path, p) then Lost
            else Passed(Carry(path, Bound(path, Classified(Materialized(d), p))))
  {
    var e := Materialized(d);
    OwnedVerdictAt(e, p, i, dst);
  }

  lemma OwnedVerdictAt(e: Desired, p: Packet, i: nat, dst: set<Range>)
    requires PathsOk(e) && i < |e.paths|
    requires p.iif in e.network.lan && External(e.network, p.dst) && PastDns(e, Entered(e, p))
    requires Classified(e, p).ct.owner == Owner(e.paths[i].slot)
    ensures var path := e.paths[i];
            Prerouted(Live(e), p, dst) ==
            if (p.family.V6? && e.network.ipv6.BlockV6?) || !Supports(path, p) then Lost
            else Passed(Carry(path, Bound(path, Classified(e, p))))
  {
    var c := Entered(e, p);
    PlainHooks(e, p, dst);
    ProtectHook(e, c);
    PastDnsProtect(e, c, JUMPS - 1);
    SelectedPart(Live(e), e, c, JUMPS - 1);
    ClassifiedTwice(e, p);
    OwnedPart(Live(e), e, i, Classified(e, p), JUMPS - 1);
  }

  /** Fail closed: when no prepared path owns the connection, not even after
      classification, the packet is lost. */
  lemma UnownedVerdict(d: Desired, p: Packet, dst: set<Range>)
    requires Accepts(d) && d.selective.None?
    requires p.iif in d.network.lan && !DnsPacket(p) && External(d.network, p.dst) && Foreign(p.meta)
    requires !Owned(Materialized(d).paths, Classified(Materialized(d), p).ct.owner)
    ensures Prerouted(Live(Materialized(d)), p, dst) == Lost
  {
    var e := Materialized(d);
    PlainHooks(e, p, dst);
    ProtectHook(e, p);
    PastDnsProtect(e, p, JUMPS - 1);
    SelectedPart(Live(e), e, p, JUMPS - 1);
    UnownedPart(Live(e), e, Classified(e, p), JUMPS - 1);
  }

  lemma {:induction false} SelectedIs(paths: seq<Path>, selected: string, i: nat)
    requires i < |paths| && paths[i].source == selected && forall j :: 0 <= j < i ==> paths[j].source != selected
    ensures SelectedOwner(paths, selected) == Owner(paths[i].slot)
  {
    if i > 0 { SelectedIs(paths[1..], selected, i - 1); }
  }

  lemma {:induction false} SelectedNone(paths: seq<Path>, selected: string)
    requires forall j :: 0 <= j < |paths| ==> paths[j].source != selected
    ensures SelectedOwner(paths, selected) == 0
  {
    if paths != [] { SelectedNone(paths[1..], selected); }
  }

  /** A connection nobody owns goes to the selected path; one that has an owner
      stays with it; without a selection nobody gets it. */
  lemma SelectionRulesNewFlows(d: Desired, p: Packet, i: nat)
    requires Accepts(d) && d.selective.None?
    ensures var e := Materialized(d);
            && (!Foreign(p.ct) ==> Classified(e, p) == p)
            && (Foreign(p.ct) && i < |e.paths| && e.paths[i].source == e.selected ==>
                  Classified(e, p) == p.(ct := Mark(Owner(e.paths[i].slot), p.ct.low)))
            && (e.selected == "" ==> Classified(e, p) == p)
  {
    var e := Materialized(d);
    var sources := Sources(e.paths);
    if i < |e.paths| && e.paths[i].source == e.selected {
      forall j | 0 <= j < i ensures e.paths[j].source != e.selected {
        assert sources[j] == e.paths[j].source && sources[i] == e.paths[i].source;
      }
      SelectedIs(e.paths, e.selected, i);
    }
    if e.selected == "" {
      forall j | 0 <= j < |e.paths| ensures e.paths[j].source != "" {
        assert PathOk(e.paths[j], e);
      }
      SelectedNone(e.paths, "");
    }
  }

  // ----- DNS

  predicate DirectOwned(paths: seq<Path>, owner: nat) {
    exists i :: 0 <= i < |paths| && paths[i].kind.Direct? && owner == Owner(paths[i].slot)
  }

  lemma {:induction false} BlockExact(t: Table, paths: seq<Path>, p: Packet, depth: nat)
    ensures Run(t, ForPaths(paths, BlockRule()), p, depth) == if DirectOwned(paths, p.ct.owner) then Back(p) else Going(p)
  {
    if paths != [] {
      var r := Rule([CtOwner(Owner(paths[0].slot))], 0, 0, Return);
      RunConcat(t, BlockRule()(paths[0]), ForPaths(paths[1..], BlockRule()), p, depth);
      RunOne(t, r, p, depth);
      Hit1(CtOwner(Owner(paths[0].slot)), p);
      BlockExact(t, paths[1..], p, depth);
      DirectSplit(paths, p.ct.owner);
    }
  }

  lemma DirectSplit(paths: seq<Path>, owner: nat)
    requires paths != []
    ensures DirectOwned(paths, owner) <==> (paths[0].kind.Direct? && owner == Owner(paths[0].slot)) || DirectOwned(paths[1..], owner)
  {
    if DirectOwned(paths[1..], owner) {
      var i :| 0 <= i < |paths[1..]| && paths[1..][i].kind.Direct? && owner == Owner(paths[1..][i].slot);
      assert paths[i + 1] == paths[1..][i];
    }
    if DirectOwned(paths, owner) && !(paths[0].kind.Direct? && owner == Owner(paths[0].slot)) {
      var i :| 0 <= i < |paths| && paths[i].kind.Direct? && owner == Owner(paths[i].slot);
      assert paths[1..][i - 1] == paths[i];
    }
  }

  /** With DNS blocked, plain DNS from the LAN is lost whatever its destination,
      the router included, unless a direct path owns the connection. */
  lemma BlockedDnsIsLost(d: Desired, p: Packet, dst: set<Range>)
    requires Accepts(d) && d.selective.None? && d.network.dns.BlockDns?
    requires p.iif in d.network.lan && DnsPacket(p)
    requires !DirectOwned(Materialized(d).paths, Classified(Materialized(d), p).ct.owner)
    ensures Prerouted(Live(Materialized(d)), p, dst) == Lost
  {
    var e := Materialized(d);
    PlainHooks(e, p, dst);
    ProtectHook(e, Entered(e, p));
    BlockedChain(e, Entered(e, p), JUMPS - 1);
  }

  lemma BlockedChain(e: Desired, c: Packet, depth: nat)
    requires e.network.dns.BlockDns? && DnsPacket(c) && !DirectOwned(e.paths, c.ct.owner) && depth > 0
    ensures Run(Live(e), ProtectChain(e), c, depth) == Dropped
  {
    var t := Live(e);
    var drop := Rule([Dns], 0, 0, Drop);
    RunConcat(t, DnsPart(e), Exceptions(e.network.prefixes) + (V6Part(e) + PathPart(e)), c, depth);
    RunOne(t, Rule([Dns], 0, 0, Jump(DnsBlock)), c, depth);
    Hit1(Dns, c);
    RunConcat(t, ForPaths(e.paths, BlockRule()), [drop], c, depth - 1);
    BlockExact(t, e.paths, c, depth - 1);
    RunOne(t, drop, c, depth - 1);
    assert t[DnsBlock] == ForPaths(e.paths, BlockRule()) + [drop];
  }

  // ----- DNS on the selected path

  predicate Translates(n: Network, path: Path, p: Packet) {
    !path.kind.Tproxy? && p.iif in n.lan && p.ct.owner == Owner(path.slot) && p.family == n.resolver.family && DnsPacket(p)
  }

  lemma NatFire(t: Table, n: Network, path: Path, p: Packet, depth: nat)
    ensures Run(t, NatRule(n)(path), p, depth) ==
            if Translates(n, path, p) then Accepted(p.(rewritten := true)) else Going(p)
  {
    var ms := [Iif(n.lan), CtOwner(Owner(path.slot)), OfFamily(n.resolver.family), Dns];
    RunOne(t, Rule(ms, 0, 0, Dnat), p, depth);
    assert HitsAll(ms, p) <==> Hits(ms[0], p) && Hits(ms[1], p) && Hits(ms[2], p) && Hits(ms[3], p);
  }

  lemma {:induction false} NoNat(t: Table, n: Network, paths: seq<Path>, p: Packet, depth: nat)
    requires forall j :: 0 <= j < |paths| ==> !Translates(n, paths[j], p)
    ensures Run(t, ForPaths(paths, NatRule(n)), p, depth) == Going(p)
  {
    if paths != [] {
      RunConcat(t, NatRule(n)(paths[0]), ForPaths(paths[1..], NatRule(n)), p, depth);
      NatFire(t, n, paths[0], p, depth);
      NoNat(t, n, paths[1..], p, depth);
    }
  }

  lemma {:induction false} OneNat(t: Table, n: Network, paths: seq<Path>, i: nat, p: Packet, depth: nat)
    requires i < |paths| && Translates(n, paths[i], p) && OnlyOwner(paths, i)
    ensures Run(t, ForPaths(paths, NatRule(n)), p, depth) == Accepted(p.(rewritten := true))
  {
    RunConcat(t, NatRule(n)(paths[0]), ForPaths(paths[1..], NatRule(n)), p, depth);
    NatFire(t, n, paths[0], p, depth);
    if i > 0 {
      assert paths[0].slot != paths[i].slot;
      OneNat(t, n, paths[1..], i - 1, p, depth);
    }
  }

  /** What a path's own DNS rules do with a DNS packet of its connection. */
  function DnsAnswer(n: Network, path: Path, p: Packet): Outcome {
    if path.kind.Tproxy? then
      (if path.dnsPort == 0 then Going(p) else Accepted(Bound(path, p).(listener := path.dnsPort)))
    else if p.family != n.resolver.family || (p.family.V6? && n.ipv6.BlockV6?) then Dropped
    else Back(Bound(path, p))
  }

  lemma PlainDnsExact(t: Table, n: Network, path: Path, p: Packet, depth: nat)
    requires DnsPacket(p) && !path.kind.Tproxy?
    ensures Run(t, DnsRule(n)(path), p, depth) == if p.ct.owner == Owner(path.slot) then DnsAnswer(n, path, p) else Going(p)
  {
    var o := Owner(path.slot);
    var a := Rule([CtOwner(o), OfFamily(Other(n.resolver.family)), Dns], 0, 0, Drop);
    var b := Rule([CtOwner(o), OfFamily(V6), Dns], 0, 0, Drop);
    var c := Rule([CtOwner(o), Dns], 0, o, Return);
    var mid := if n.ipv6.BlockV6? then [b] else [];
    Hit2(CtOwner(o), Dns, p);
    Hit3(CtOwner(o), OfFamily(Other(n.resolver.family)), Dns, p);
    Hit3(CtOwner(o), OfFamily(V6), Dns, p);
    assert DnsRule(n)(path) == [a] + (mid + [c]);
    RunConcat(t, [a], mid + [c], p, depth);
    RunConcat(t, mid, [c], p, depth);
    RunOne(t, a, p, depth);
    RunOne(t, b, p, depth);
    RunOne(t, c, p, depth);
  }

  lemma DnsRuleExact(t: Table, n: Network, path: Path, p: Packet, depth: nat)
    requires DnsPacket(p)
    ensures Run(t, DnsRule(n)(path), p, depth) == if p.ct.owner == Owner(path.slot) then DnsAnswer(n, path, p) else Going(p)
  {
    if path.kind.Tproxy? {
      Hit2(CtOwner(Owner(path.slot)), Dns, p);
      RunOne(t, Rule([CtOwner(Owner(path.slot)), Dns], 0, Owner(path.slot), TproxyTo(path.dnsPort)), p, depth);
    } else {
      PlainDnsExact(t, n, path, p, depth);
    }
  }

  lemma {:induction false} NoDns(t: Table, n: Network, paths: seq<Path>, p: Packet, depth: nat)
    requires DnsPacket(p) && forall j :: 0 <= j < |paths| ==> p.ct.owner != Owner(paths[j].slot)
    ensures Run(t, ForPaths(paths, DnsRule(n)), p, depth) == Going(p)
  {
    if paths != [] {
      RunConcat(t, DnsRule(n)(paths[0]), ForPaths(paths[1..], DnsRule(n)), p, depth);
      DnsRuleExact(t, n, paths[0], p, depth);
      NoDns(t, n, paths[1..], p, depth);
    }
  }

  lemma {:induction false} OneDns(t: Table, n: Network, paths: seq<Path>, i: nat, p: Packet, depth: nat)
    requires DnsPacket(p) && i < |paths| && p.ct.owner == Owner(paths[i].slot) && OnlyOwner(paths, i)
    ensures Run(t, ForPaths(paths, DnsRule(n)), p, depth) == DnsAnswer(n, paths[i], p)
  {
    RunConcat(t, DnsRule(n)(paths[0]), ForPaths(paths[1..], DnsRule(n)), p, depth);
    DnsRuleExact(t, n, paths[0], p, depth);
    if i == 0 {
      NoDns(t, n, paths[1..], p, depth);
    } else {
      assert paths[0].slot != paths[i].slot;
      OneDns(t, n, paths[1..], i - 1, p, depth);
    }
  }

  lemma SelectedDnsNat(e: Desired, c: Packet, i: nat)
    requires PathsOk(e) && e.network.dns.SelectedDns? && i < |e.paths| && c.ct.owner == Owner(e.paths[i].slot)
    requires c.iif in e.network.lan && DnsPacket(c)
    ensures Hook(Live(e), DnsNat, c) == Passed(if Translates(e.network, e.paths[i], c) then c.(rewritten := true) else c)
  {
    Unshared(e, i);
    if Translates(e.network, e.paths[i], c) {
      OneNat(Live(e), e.network, e.paths, i, c, JUMPS);
    } else {
      forall j | 0 <= j < |e.paths| ensures !Translates(e.network, e.paths[j], c) {
        if j != i { assert e.paths[j].slot != e.paths[i].slot; }
      }
      NoNat(Live(e), e.network, e.paths, c, JUMPS);
    }
  }

  lemma SelectedDnsProtect(e: Desired, c: Packet, i: nat)
    requires PathsOk(e) && e.network.dns.SelectedDns? && i < |e.paths| && c.ct.owner == Owner(e.paths[i].slot)
    requires c.iif in e.network.lan && DnsPacket(c)
    ensures Hook(Live(e), Prerouting, c) ==
            match DnsAnswer(e.network, e.paths[i], c)
            case Going(_) => Lost
            case Dropped => Lost
            case Back(q) => Passed(q)
            case Accepted(q) => Passed(q)
  {
    var t := Live(e);
    var drop := Rule([Dns], 0, 0, Drop);
    Hit1(Dns, c);
    ProtectHook(e, c);
    RunConcat(t, DnsPart(e), Exceptions(e.network.prefixes) + (V6Part(e) + PathPart(e)), c, JUMPS - 1);
    RunConcat(t, ForPaths(e.paths, DnsRule(e.network)), [drop], c, JUMPS - 1);
    assert Run(t, ForPaths(e.paths, DnsRule(e.network)), c, JUMPS - 1) == DnsAnswer(e.network, e.paths[i], c) by {
      Unshared(e, i);
      OneDns(t, e.network, e.paths, i, c, JUMPS - 1);
    }
    RunOne(t, drop, c, JUMPS - 1);
  }

  /** The exact fate of a LAN DNS query, to any destination, when DNS follows the
      selected path: a transparent path answers it on its own DNS listener, any
      other path carries it translated to the public resolver, and what the path
      cannot carry is lost.  No query keeps the destination it came with. */
  lemma SelectedDnsVerdict(d: Desired, p: Packet, i: nat, dst: set<Range>)
    requires Accepts(d) && d.selective.None? && d.network.dns.SelectedDns? && i < |Materialized(d).paths|
    requires p.iif in d.network.lan && DnsPacket(p) && !p.rewritten
    requires Classified(Materialized(d), p).ct.owner == Owner(Materialized(d).paths[i].slot)
    ensures var e := Materialized(d);
            var path := e.paths[i];
            var c := Classified(e, p);
            Prerouted(Live(e), p, dst) ==
            if path.kind.Tproxy? then
              (if path.dnsPort == 0 then Lost else Passed(Bound(path, c).(listener := path.dnsPort)))
            else if p.family != d.network.resolver.family || (p.family.V6? && d.network.ipv6.BlockV6?) then Lost
            else Passed(Bound(path, c.(rewritten := true, dst := dst)))
  {
    var e := Materialized(d);
    var c := Classified(e, p);
    ClassifyHook(e, p);
    SelectedDnsNat(e, c, i);
    var moved := Translates(e.network, e.paths[i], c);
    SelectedDnsProtect(e, if moved then c.(rewritten := true, dst := dst) else c, i);
  }

  /** DNS on the selected path that no prepared path owns is lost. */
  lemma UnownedDnsIsLost(d: Desired, p: Packet, dst: set<Range>)
    requires Accepts(d) && d.selective.None? && d.network.dns.SelectedDns?
    requires p.iif in d.network.lan && DnsPacket(p) && !p.rewritten
    requires !Owned(Materialized(d).paths, Classified(Materialized(d), p).ct.owner)
    ensures Prerouted(Live(Materialized(d)), p, dst) == Lost
  {
    var e := Materialized(d);
    var c := Classified(e, p);
    assert Hook(Live(e), DnsClassify, p) == Passed(c) by { ClassifyHook(e, p); }
    assert Hook(Live(e), DnsNat, c) == Passed(c) by { UnownedNat(e, c); }
    assert Hook(Live(e), Prerouting, c) == Lost by { UnownedDnsProtect(e, c); }
  }

  lemma UnownedNat(e: Desired, c: Packet)
    requires !Owned(e.paths, c.ct.owner)
    ensures Hook(Live(e), DnsNat, c) == Passed(c)
  {
    if e.network.dns.SelectedDns? { NoNat(Live(e), e.network, e.paths, c, JUMPS); }
  }

  lemma UnownedDnsProtect(e: Desired, c: Packet)
    requires e.network.dns.SelectedDns? && DnsPacket(c) && !Owned(e.paths, c.ct.owner) && c.iif in e.network.lan
    ensures Hook(Live(e), Prerouting, c) == Lost
  {
    ProtectHook(e, c);
    UnownedDnsChain(e, c, JUMPS - 1);
  }

  lemma UnownedDnsChain(e: Desired, c: Packet, depth: nat)
    requires e.network.dns.SelectedDns? && DnsPacket(c) && !Owned(e.paths, c.ct.owner) && depth > 0
    ensures Run(Live(e), ProtectChain(e), c, depth) == Dropped
  {
    var t := Live(e);
    var drop := Rule([Dns], 0, 0, Drop);
    Hit1(Dns, c);
    RunConcat(t, DnsPart(e), Exceptions(e.network.prefixes) + (V6Part(e) + PathPart(e)), c, depth);
    RunConcat(t, ForPaths(e.paths, DnsRule(e.network)), [drop], c, depth);
    NoDns(t, e.network, e.paths, c, depth);
    RunOne(t, drop, c, depth);
  }

  // ----- no escape

  lemma ClassifiedKeeps(e: Desired, p: Packet)
    ensures Classified(e, p) == p.(ct := Classified(e, p).ct) && Classified(e, p).ct.low == p.ct.low
    ensures !Foreign(p.ct) ==> Classified(e, p) == p
  {
  }

  lemma OwnedIsHanded(d: Desired, p: Packet, i: nat, dst: set<Range>)
    requires Accepts(d) && d.selective.None? && i < |Materialized(d).paths|
    requires p.iif in d.network.lan && External(d.network, p.dst) && !p.rewritten
    requires Classified(Materialized(d), p).ct.owner == Owner(Materialized(d).paths[i].slot)
    ensures match Prerouted(Live(Materialized(d)), p, dst)
            case Lost => true
            case Passed(q) => HandedTo(Materialized(d).paths[i], Materialized(d), p, q)
  {
    var e := Materialized(d);
    ClassifiedKeeps(e, p);
    if DnsPacket(p) && d.network.dns.SelectedDns? {
      SelectedDnsVerdict(d, p, i, dst);
    } else if PastDns(e, Entered(e, p)) {
      OwnedVerdict(d, p, i, dst);
      assert PathOk(e.paths[i], e);
    } else {
      BlockedDnsIsLost(d, p, dst);
    }
  }

  /** No escape: a LAN packet to an external destination that carries none of our
      packet marks is dropped, or handed to exactly the prepared path whose slot is
      in its connection mark. */
  lemma NoEscape(d: Desired, p: Packet, dst: set<Range>)
    requires Accepts(d) && d.selective.None?
    requires p.iif in d.network.lan && Foreign(p.meta) && External(d.network, p.dst) && !p.rewritten
    ensures match Prerouted(Live(Materialized(d)), p, dst)
            case Lost => true
            case Passed(q) => Handed(Materialized(d), p, q)
  {
    var e := Materialized(d);
    var owner := Classified(e, p).ct.owner;
    if Owned(e.paths, owner) {
      var i :| 0 <= i < |e.paths| && owner == Owner(e.paths[i].slot);
      OwnedIsHanded(d, p, i, dst);
    } else {
      UnownedIsLost(d, p, dst);
    }
  }

  lemma UnownedIsLost(d: Desired, p: Packet, dst: set<Range>)
    requires Accepts(d) && d.selective.None?
    requires p.iif in d.network.lan && Foreign(p.meta) && External(d.network, p.dst) && !p.rewritten
    requires !Owned(Materialized(d).paths, Classified(Materialized(d), p).ct.owner)
    ensures Prerouted(Live(Materialized(d)), p, dst) == Lost
  {
    if !DnsPacket(p) {
      UnownedVerdict(d, p, dst);
    } else if d.network.dns.SelectedDns? {
      UnownedDnsIsLost(d, p, dst);
    } else {
      BlockedDnsIsLost(d, p, dst);
    }
  }

  // ----- queues

  predicate EngineTakes(path: Path, p: Packet) {
    path.kind.PacketEngine? && p.meta.owner == Owner(path.slot) && Hits(EngineClear, p) && !p.proto.OtherProto?
  }

  lemma QueueFire(t: Table, path: Path, p: Packet, depth: nat)
    ensures Run(t, QueueRule()(path), p, depth) ==
            if EngineTakes(path, p) then Accepted(p.(queue := 21000 + path.slot)) else Going(p)
  {
    var o := Owner(path.slot);
    RunOne(t, Rule([MetaOwner(o), EngineClear, TcpUdp], 0, 0, Enqueue(21000 + path.slot, false)), p, depth);
    Hit3(MetaOwner(o), EngineClear, TcpUdp, p);
  }

  lemma {:induction false} QueueRun(t: Table, paths: seq<Path>, i: nat, p: Packet, depth: nat)
    requires i < |paths| && EngineTakes(paths[i], p) && OnlyOwner(paths, i)
    ensures Run(t, ForPaths(paths, QueueRule()), p, depth) == Accepted(p.(queue := 21000 + paths[i].slot))
  {
    RunConcat(t, QueueRule()(paths[0]), ForPaths(paths[1..], QueueRule()), p, depth);
    QueueFire(t, paths[0], p, depth);
    if i > 0 {
      assert paths[0].slot != paths[i].slot;
      QueueRun(t, paths[1..], i - 1, p, depth);
    }
  }

  lemma {:induction false} NoQueueRun(t: Table, paths: seq<Path>, p: Packet, depth: nat)
    requires forall j :: 0 <= j < |paths| ==> !EngineTakes(paths[j], p)
    ensures Run(t, ForPaths(paths, QueueRule()), p, depth) == Going(p)
  {
    if paths != [] {
      RunConcat(t, QueueRule()(paths[0]), ForPaths(paths[1..], QueueRule()), p, depth);
      QueueFire(t, paths[0], p, depth);
      NoQueueRun(t, paths[1..], p, depth);
    }
  }

  /** An engine's traffic goes to its own queue, once; all other traffic leaves
      the router as it is. */
  lemma QueueIsOwn(d: Desired, p: Packet, i: nat)
    requires PlainOk(d) && i < |d.paths|
    ensures EngineTakes(d.paths[i], p) ==> Hook(Live(d), Postrouting, p) == Passed(p.(queue := 21000 + d.paths[i].slot))
    ensures (forall j :: 0 <= j < |d.paths| ==> !EngineTakes(d.paths[j], p)) ==> Hook(Live(d), Postrouting, p) == Passed(p)
  {
    if EngineTakes(d.paths[i], p) {
      Unshared(d, i);
      QueueRun(Live(d), d.paths, i, p, JUMPS);
    } else if forall j :: 0 <= j < |d.paths| ==> !EngineTakes(d.paths[j], p) {
      NoQueueRun(Live(d), d.paths, p, JUMPS);
    }
  }
}
