/** The nftables tables rendered for an accepted intent (internal/dataplane:
    render, selectionRules, SelectionNFT, renderSelective, EmergencyDirectNFT). */
module Tables {
  import opened Addresses
  import opened Intent
  import opened Packets

  function ForPaths(paths: seq<Path>, f: Path -> seq<Rule>): seq<Rule> {
    if paths == [] then [] else f(paths[0]) + ForPaths(paths[1..], f)
  }

  lemma {:induction false} ForPathsSnoc(paths: seq<Path>, p: Path, f: Path -> seq<Rule>)
    ensures ForPaths(paths + [p], f) == ForPaths(paths, f) + f(p)
  {
    if paths == [] {
      assert paths + [p] == [p] && [p][1..] == [];
    } else {
      assert (paths + [p])[1..] == paths[1..] + [p];
      ForPathsSnoc(paths[1..], p, f);
    }
  }

  /** The loop that writes one group of rules for each path. */
  method Emit(paths: seq<Path>, f: Path -> seq<Rule>) returns (rules: seq<Rule>)
    ensures rules == ForPaths(paths, f)
  {
    rules := [];
    for i := 0 to |paths|
      invariant rules == ForPaths(paths[..i], f)
    {
      assert paths[..i + 1] == paths[..i] + [paths[i]];
      ForPathsSnoc(paths[..i], paths[i], f);
      rules := rules + f(paths[i]);
    }
    assert paths[..|paths|] == paths;
  }

  // ----- select_flow

  /** Only connections without an owner are classified. */
  function SelectRule(slot: nat): Rule {
    Rule([CtForeign], Owner(slot), 0, NoVerdict)
  }

  function SelectionRules(d: Desired): seq<Rule> {
    Selection(d.paths, d.selected)
  }

  function Selection(paths: seq<Path>, selected: string): seq<Rule> {
    if paths == [] then []
    else if paths[0].source == selected then [SelectRule(paths[0].slot)]
    else Selection(paths[1..], selected)
  }

  // ----- groups of rules, one path at a time

  function NatRule(n: Network): Path -> seq<Rule> {
    (p: Path) => if p.kind.Tproxy? then []
                 else [Rule([Iif(n.lan), CtOwner(Owner(p.slot)), OfFamily(n.resolver.family), Dns], 0, 0, Dnat)]
  }

  function Other(f: Family): Family { if f.V4? then V6 else V4 }

  function DnsRule(n: Network): Path -> seq<Rule> {
    (p: Path) =>
      var o := Owner(p.slot);
      if p.kind.Tproxy? then
        if p.dnsPort == 0 then [] else [Rule([CtOwner(o), Dns], 0, o, TproxyTo(p.dnsPort))]
      else
        [Rule([CtOwner(o), OfFamily(Other(n.resolver.family)), Dns], 0, 0, Drop)]
        + (if n.ipv6.BlockV6? then [Rule([CtOwner(o), OfFamily(V6), Dns], 0, 0, Drop)] else [])
        + [Rule([CtOwner(o), Dns], 0, o, Return)]
  }

  function OwnerRule(): Path -> seq<Rule> {
    (p: Path) => [Rule([CtOwner(Owner(p.slot))], 0, Owner(p.slot), NoVerdict)]
  }

  function PathRule(): Path -> seq<Rule> {
    (p: Path) =>
      var o := Owner(p.slot);
      match p.kind
      case Direct => [Rule([MetaOwner(o)], 0, 0, Return)]
      case PacketEngine => [Rule([MetaOwner(o), TcpUdp], 0, 0, Return)]
      case Interface => [Rule([MetaOwner(o)], 0, 0, Return)]
      case Tproxy => [Rule([MetaOwner(o), if p.udp then TcpUdp else TcpOnly], 0, 0, TproxyTo(p.port))]
      case UnknownKind => []
  }

  function BlockRule(): Path -> seq<Rule> {
    (p: Path) => if p.kind.Direct? then [Rule([CtOwner(Owner(p.slot))], 0, 0, Return)] else []
  }

  function ForwardRule(): Path -> seq<Rule> {
    (p: Path) =>
      match p.kind
      case Direct => [Rule([CtOwner(Owner(p.slot))], 0, 0, Return)]
      case PacketEngine => [Rule([CtOwner(Owner(p.slot))], 0, 0, Return)]
      case Interface => [Rule([CtOwner(Owner(p.slot)), Oif(p.device)], 0, 0, Return)]
      case Tproxy => []
      case UnknownKind => []
  }

  function QueueRule(): Path -> seq<Rule> {
    (p: Path) =>
      if p.kind.PacketEngine? then [Rule([MetaOwner(Owner(p.slot)), EngineClear, TcpUdp], 0, 0, Enqueue(21000 + p.slot, false))]
      else []
  }

  // ----- chains

  function PrefixRules(prefixes: seq<Prefix>): seq<Rule> {
    if prefixes == [] then []
    else [Rule([Daddr(prefixes[0].family, Local(prefixes[0]))], 0, 0, Return)] + PrefixRules(prefixes[1..])
  }

  /** Destinations that are never protected: the router's own addresses (put in
      by the helper), link-local multicast and discovery, the local prefixes. */
  function Exceptions(prefixes: seq<Prefix>): seq<Rule> {
    [Rule([Daddr(V4, Router)], 0, 0, Return), Rule([Daddr(V6, Router)], 0, 0, Return),
     Rule([Daddr(V4, Multicast4)], 0, 0, Return), Rule([Daddr(V6, Multicast6)], 0, 0, Return),
     Rule([Daddr(V6, LinkLocal6)], 0, 0, Return)] + PrefixRules(prefixes)
  }

  function DnsPart(d: Desired): seq<Rule> {
    if d.network.dns.BlockDns? then [Rule([Dns], 0, 0, Jump(DnsBlock))]
    else if d.network.dns.SelectedDns? then ForPaths(d.paths, DnsRule(d.network)) + [Rule([Dns], 0, 0, Drop)]
    else []
  }

  function V6Part(d: Desired): seq<Rule> {
    if d.network.ipv6.BlockV6? then [Rule([OfFamily(V6)], 0, 0, Drop)] else []
  }

  const DROP_REST := Rule([], 0, 0, Drop)

  function PathPart(d: Desired): seq<Rule> {
    [Rule([], 0, 0, Jump(SelectFlow))]
    + ForPaths(d.paths, OwnerRule()) + ForPaths(d.paths, PathRule()) + [DROP_REST]
  }

  function ProtectChain(d: Desired): seq<Rule> {
    DnsPart(d) + (Exceptions(d.network.prefixes) + (V6Part(d) + PathPart(d)))
  }

  function GuardProtect(d: Desired): seq<Rule> {
    (if d.network.dns.BlockDns? then [Rule([Dns], 0, 0, Drop)] else [])
    + (Exceptions(d.network.prefixes) + [DROP_REST])
  }

  function Live(d: Desired): Table {
    map[
      SelectFlow := SelectionRules(d),
      DnsClassify := [Rule([Iif(d.network.lan), Dns], 0, 0, Jump(SelectFlow))],
      DnsNat := if d.network.dns.SelectedDns? then ForPaths(d.paths, NatRule(d.network)) else [],
      Prerouting := [Rule([Iif(d.network.lan)], 0, 0, Jump(Protect))],
      Protect := ProtectChain(d),
      DnsBlock := if d.network.dns.BlockDns? then ForPaths(d.paths, BlockRule()) + [Rule([Dns], 0, 0, Drop)] else [],
      Forward := [Rule([Iif(d.network.lan)], 0, 0, Jump(ForwardCheck))],
      ForwardCheck := PrefixRules(d.network.prefixes) + (ForPaths(d.paths, ForwardRule()) + [DROP_REST]),
      Postrouting := ForPaths(d.paths, QueueRule())
    ]
  }

  function Guard(d: Desired): Table {
    map[
      Prerouting := [Rule([Iif(d.network.lan)], 0, 0, Jump(Protect))],
      Protect := GuardProtect(d)
    ]
  }

  /** The renderer: every group of rules is written by a loop over the paths. */
  method Render(d: Desired, guard: bool) returns (t: Table)
    ensures t == if guard then Guard(d) else Live(d)
  {
    if guard {
      return map[Prerouting := [Rule([Iif(d.network.lan)], 0, 0, Jump(Protect))], Protect := GuardProtect(d)];
    }
    var nat_ := Emit(d.paths, NatRule(d.network));
    var dns := Emit(d.paths, DnsRule(d.network));
    var owners := Emit(d.paths, OwnerRule());
    var dispatch := Emit(d.paths, PathRule());
    var direct := Emit(d.paths, BlockRule());
    var out := Emit(d.paths, ForwardRule());
    var queues := Emit(d.paths, QueueRule());
    var dnsPart := if d.network.dns.BlockDns? then [Rule([Dns], 0, 0, Jump(DnsBlock))]
                   else if d.network.dns.SelectedDns? then dns + [Rule([Dns], 0, 0, Drop)] else [];
    var protect := dnsPart + (Exceptions(d.network.prefixes) + (V6Part(d) +
                   ([Rule([], 0, 0, Jump(SelectFlow))] + owners + dispatch + [DROP_REST])));
    t := map[
      SelectFlow := SelectionRules(d),
      DnsClassify := [Rule([Iif(d.network.lan), Dns], 0, 0, Jump(SelectFlow))],
      DnsNat := if d.network.dns.SelectedDns? then nat_ else [],
      Prerouting := [Rule([Iif(d.network.lan)], 0, 0, Jump(Protect))],
      Protect := protect,
      DnsBlock := if d.network.dns.BlockDns? then direct + [Rule([Dns], 0, 0, Drop)] else [],
      Forward := [Rule([Iif(d.network.lan)], 0, 0, Jump(ForwardCheck))],
      ForwardCheck := PrefixRules(d.network.prefixes) + (out + [DROP_REST]),
      Postrouting := queues
    ];
  }

  // ----- switching the selection in place

  /** Both sides must describe the same prepared resources. */
  predicate SwitchOk(previous: Desired, candidate: Desired) {
    && !previous.breakExisting && !candidate.breakExisting
    && previous.continuity.None? && candidate.continuity.None?
    && previous.selective.None? && candidate.selective.None?
    && Accepts(previous) && Accepts(candidate)
    && previous == candidate.(selected := previous.selected)
  }

  /** Flush the classifier and add the candidate's rule. */
  function Switch(t: Table, candidate: Desired): Table {
    t[SelectFlow := SelectionRules(candidate)]
  }

  // ----- selective routing

  function Synthetic(v: Verdict): seq<Rule> {
    [Rule([Daddr(V4, Fake4)], 0, 0, v), Rule([Daddr(V6, Fake6)], 0, 0, v)]
  }

  function SelectiveProtect(d: Desired): seq<Rule>
    requires d.selective.Some?
  {
    [Rule([Daddr(V4, Fake4)], 0, 0, Jump(Dispatch)),
     Rule([Daddr(V6, Fake6)], 0, 0, if d.network.ipv6.BlockV6? then Drop else Jump(Dispatch)),
     Rule([Dns], 0, 0, Return)]
    + (Exceptions(d.network.prefixes) + (V6Part(d) + [Rule([], 0, 0, Jump(Dispatch))]))
  }

  function DispatchChain(d: Desired): seq<Rule>
    requires d.selective.Some?
  {
    var s := d.selective.value;
    var o := Owner(s.path.slot);
    [Rule([OfFamily(V4), TcpUdp], o, o, TproxyTo(s.path.port))]
    + (if d.network.ipv6.ProxyV6? then [Rule([OfFamily(V6), TcpUdp], o, o, TproxyTo(s.path.port))] else [])
    + Synthetic(Drop)
  }

  function OutputRule(): Path -> seq<Rule> {
    (p: Path) =>
      var o := Owner(p.slot);
      (if p.kind.Interface? then [Rule([MetaOwner(o), OifNot(p.device)], 0, 0, Drop)] else [])
      + (if p.kind.PacketEngine? then [Rule([MetaOwner(o), EngineClear, TcpUdp], 0, 0, Enqueue(21000 + p.slot, true))] else [])
  }

  function SelectiveLive(d: Desired): Table
    requires d.selective.Some?
  {
    var s := d.selective.value;
    var o := Owner(s.path.slot);
    map[
      DnsClassify := [Rule([Iif(d.network.lan), Dns], o, 0, NoVerdict)],
      DnsNat := [Rule([Iif(d.network.lan), Dns], 0, 0, Redirect(s.front))],
      Prerouting := [Rule([Iif(d.network.lan)], 0, 0, Jump(Protect))],
      Protect := SelectiveProtect(d),
      Dispatch := DispatchChain(d),
      Output := Synthetic(Drop) + ForPaths(d.paths, OutputRule()),
      Forward := Synthetic(Drop) + [Rule([Iif(d.network.lan), CtOwner(o)], 0, 0, Drop)]
    ]
  }

  method RenderSelective(d: Desired) returns (t: Table)
    requires d.selective.Some?
    ensures t == SelectiveLive(d)
  {
    var s := d.selective.value;
    var o := Owner(s.path.slot);
    var out := Emit(d.paths, OutputRule());
    t := map[
      DnsClassify := [Rule([Iif(d.network.lan), Dns], o, 0, NoVerdict)],
      DnsNat := [Rule([Iif(d.network.lan), Dns], 0, 0, Redirect(s.front))],
      Prerouting := [Rule([Iif(d.network.lan)], 0, 0, Jump(Protect))],
      Protect := SelectiveProtect(d),
      Dispatch := DispatchChain(d),
      Output := Synthetic(Drop) + out,
      Forward := Synthetic(Drop) + [Rule([Iif(d.network.lan), CtOwner(o)], 0, 0, Drop)]
    ];
  }

  /** The guard and the emergency table differ only in name and priority. */
  function SelectiveGuard(): Table {
    map[Prerouting := Synthetic(Drop), Output := Synthetic(Drop)]
  }
}
