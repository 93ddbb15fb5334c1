/** What the rendered tables do to packets: nothing from the LAN escapes, flows
    stay on the path that owns them, a switch equals a full render, and synthetic
    addresses never leave the router. */
module DataplaneProofs {
  import opened Addresses
  import opened Intent
  import opened Packets
  import opened Tables

  // ----- the prerouting hooks in priority order

  /** dns_classify (-156), the NAT chain (-155), prerouting (-150).  A rewritten
      destination lies in the ranges `dst`. */
  function Prerouted(t: Table, p: Packet, dst: set<Range>): Fate {
    match Hook(t, DnsClassify, p)
    case Lost => Lost
    case Passed(q) =>
      match Hook(t, DnsNat, q)
      case Lost => Lost
      case Passed(r) => Hook(t, Prerouting, if r.rewritten && !q.rewritten then r.(dst := dst) else r)
  }

  predicate DnsPacket(p: Packet) { !p.proto.OtherProto? && p.dns }

  /** Neither the router itself nor a local or link-local destination. */
  predicate External(n: Network, dst: set<Range>) {
    && Router !in dst && Multicast4 !in dst && Multicast6 !in dst && LinkLocal6 !in dst
    && forall i :: 0 <= i < |n.prefixes| ==> Local(n.prefixes[i]) !in dst
  }

  // ----- single rules

  lemma Hit1(a: Match, p: Packet)
    ensures HitsAll([a], p) == Hits(a, p)
  {
    assert [a][0] == a;
  }

  lemma Hit2(a: Match, b: Match, p: Packet)
    ensures HitsAll([a, b], p) == (Hits(a, p) && Hits(b, p))
  {
    assert [a, b][0] == a && [a, b][1] == b;
  }

  lemma Hit3(a: Match, b: Match, c: Match, p: Packet)
    ensures HitsAll([a, b, c], p) == (Hits(a, p) && Hits(b, p) && Hits(c, p))
  {
    assert [a, b, c][0] == a && [a, b, c][1] == b && [a, b, c][2] == c;
  }

  // ----- classification

  /** The owner that select_flow gives to new connections, 0 for none. */
  function SelectedOwner(paths: seq<Path>, selected: string): nat {
    if paths == [] then 0
    else if paths[0].source == selected then Owner(paths[0].slot)
    else SelectedOwner(paths[1..], selected)
  }

  function Classified(d: Desired, p: Packet): Packet {
    var o := SelectedOwner(d.paths, d.selected);
    if o != 0 && Foreign(p.ct) then p.(ct := p.ct.(owner := o)) else p
  }

  lemma {:induction false} SelectRun(t: Table, paths: seq<Path>, selected: string, p: Packet, depth: nat)
    ensures var o := SelectedOwner(paths, selected);
            Run(t, Selection(paths, selected), p, depth) ==
            Going(if o != 0 && Foreign(p.ct) then p.(ct := p.ct.(owner := o)) else p)
  {
    if paths != [] {
      if paths[0].source == selected {
        var r := SelectRule(paths[0].slot);
        RunOne(t, r, p, depth);
        Hit1(CtForeign, p);
      } else {
        SelectRun(t, paths[1..], selected, p, depth);
      }
    }
  }

  // ----- the groups of rules

  predicate Owned(paths: seq<Path>, owner: nat) {
    exists i :: 0 <= i < |paths| && owner == Owner(paths[i].slot)
  }

  /** The packet mark follows the connection mark when a path owns it. */
  function Followed(paths: seq<Path>, p: Packet): Packet {
    if Owned(paths, p.ct.owner) then p.(meta := p.meta.(owner := p.ct.owner)) else p
  }

  lemma {:induction false} OwnerRun(t: Table, paths: seq<Path>, p: Packet, depth: nat)
    ensures Run(t, ForPaths(paths, OwnerRule()), p, depth) == Going(Followed(paths, p))
  {
    if paths != [] {
      var o := Owner(paths[0].slot);
      var r := Rule([CtOwner(o)], 0, o, NoVerdict);
      assert OwnerRule()(paths[0]) == [r];
      RunConcat(t, [r], ForPaths(paths[1..], OwnerRule()), p, depth);
      RunOne(t, r, p, depth);
      Hit1(CtOwner(o), p);
      var q := if p.ct.owner == o then p.(meta := p.meta.(owner := o)) else p;
      OwnerRun(t, paths[1..], q, depth);
      OwnedSplit(paths, p.ct.owner);
    }
  }

  lemma OwnedSplit(paths: seq<Path>, owner: nat)
    requires paths != []
    ensures Owned(paths, owner) <==> owner == Owner(paths[0].slot) || Owned(paths[1..], owner)
  {
    if Owned(paths[1..], owner) {
      var i :| 0 <= i < |paths[1..]| && owner == Owner(paths[1..][i].slot);
      assert paths[i + 1] == paths[1..][i];
    }
    if Owned(paths, owner) && owner != Owner(paths[0].slot) {
      var i :| 0 <= i < |paths| && owner == Owner(paths[i].slot);
      assert paths[1..][i - 1] == paths[i];
    }
  }

  lemma {:induction false} PrefixRun(t: Table, prefixes: seq<Prefix>, p: Packet, depth: nat)
    ensures match Run(t, PrefixRules(prefixes), p, depth)
            case Going(q) => q == p
            case Dropped => false
            case Accepted(_) => false
            case Back(q) => q == p && exists i :: 0 <= i < |prefixes| && Local(prefixes[i]) in p.dst
  {
    if prefixes != [] {
      var m := Daddr(prefixes[0].family, Local(prefixes[0]));
      RunConcat(t, [Rule([m], 0, 0, Return)], PrefixRules(prefixes[1..]), p, depth);
      RunOne(t, Rule([m], 0, 0, Return), p, depth);
      Hit1(m, p);
      PrefixRun(t, prefixes[1..], p, depth);
      assert forall i :: 0 <= i < |prefixes[1..]| ==> prefixes[1..][i] == prefixes[i + 1];
    }
  }

  /** An external packet meets no exception. */
  lemma ExceptionRun(t: Table, n: Network, p: Packet, depth: nat)
    requires External(n, p.dst)
    ensures Run(t, Exceptions(n.prefixes), p, depth) == Going(p)
  {
    Fixed(t, [Daddr(V4, Router), Daddr(V6, Router), Daddr(V4, Multicast4), Daddr(V6, Multicast6), Daddr(V6, LinkLocal6)], p, depth);
    var five := Returns([Daddr(V4, Router), Daddr(V6, Router), Daddr(V4, Multicast4), Daddr(V6, Multicast6), Daddr(V6, LinkLocal6)]);
    assert Exceptions(n.prefixes) == five + PrefixRules(n.prefixes);
    RunConcat(t, five, PrefixRules(n.prefixes), p, depth);
    PrefixRun(t, n.prefixes, p, depth);
  }

  function Returns(ms: seq<Match>): seq<Rule> {
    if ms == [] then [] else [Rule([ms[0]], 0, 0, Return)] + Returns(ms[1..])
  }

  lemma {:induction false} Fixed(t: Table, ms: seq<Match>, p: Packet, depth: nat)
    requires forall i :: 0 <= i < |ms| ==> !Hits(ms[i], p)
    ensures Run(t, Returns(ms), p, depth) == Going(p)
  {
    if ms != [] {
      Hit1(ms[0], p);
      assert Returns(ms)[1..] == Returns(ms[1..]);
      Fixed(t, ms[1..], p, depth);
    }
  }

  lemma V6PartRun(t: Table, d: Desired, p: Packet, depth: nat)
    ensures Run(t, V6Part(d), p, depth) == if d.network.ipv6.BlockV6? && p.family.V6? then Dropped else Going(p)
  {
    Hit1(OfFamily(V6), p);
    RunOne(t, Rule([OfFamily(V6)], 0, 0, Drop), p, depth);
  }

  lemma ClassifyHook(d: Desired, p: Packet)
    requires p.iif in d.network.lan
    ensures Hook(Live(d), DnsClassify, p) == Passed(if DnsPacket(p) then Classified(d, p) else p)
  {
    var r := Rule([Iif(d.network.lan), Dns], 0, 0, Jump(SelectFlow));
    Hit2(Iif(d.network.lan), Dns, p);
    RunOne(Live(d), r, p, JUMPS);
    SelectRun(Live(d), d.paths, d.selected, p, JUMPS - 1);
  }

  // ----- the forward hook

  /** A forwarded packet's path lets it out through this device. */
  predicate MayLeave(path: Path, p: Packet) {
    && p.ct.owner == Owner(path.slot)
    && (path.kind.Direct? || path.kind.PacketEngine? || (path.kind.Interface? && p.oif == path.device))
  }

  ghost predicate MayLeaveBy(paths: seq<Path>, p: Packet) {
    exists i :: 0 <= i < |paths| && MayLeave(paths[i], p)
  }

  lemma ForwardFire(t: Table, path: Path, p: Packet, depth: nat)
    ensures Run(t, ForwardRule()(path), p, depth) == if MayLeave(path, p) then Back(p) else Going(p)
  {
    var o := Owner(path.slot);
    Hit1(CtOwner(o), p);
    Hit2(CtOwner(o), Oif(path.device), p);
    RunOne(t, Rule([CtOwner(o)], 0, 0, Return), p, depth);
    RunOne(t, Rule([CtOwner(o), Oif(path.device)], 0, 0, Return), p, depth);
  }

  lemma LeaveSplit(paths: seq<Path>, p: Packet)
    requires paths != []
    ensures MayLeaveBy(paths, p) <==> MayLeave(paths[0], p) || MayLeaveBy(paths[1..], p)
  {
    if MayLeaveBy(paths[1..], p) {
      var i :| 0 <= i < |paths[1..]| && MayLeave(paths[1..][i], p);
      assert paths[i + 1] == paths[1..][i];
    }
    if MayLeaveBy(paths, p) && !MayLeave(paths[0], p) {
      var i :| 0 <= i < |paths| && MayLeave(paths[i], p);
      assert paths[1..][i - 1] == paths[i];
    }
  }

  lemma {:induction false} ForwardRun(t: Table, paths: seq<Path>, p: Packet, depth: nat)
    ensures Run(t, ForPaths(paths, ForwardRule()), p, depth) == if MayLeaveBy(paths, p) then Back(p) else Going(p)
  {
    if paths != [] {
      RunConcat(t, ForwardRule()(paths[0]), ForPaths(paths[1..], ForwardRule()), p, depth);
      ForwardFire(t, paths[0], p, depth);
      ForwardRun(t, paths[1..], p, depth);
      LeaveSplit(paths, p);
    }
  }

  lemma ForwardCheckRun(t: Table, e: Desired, p: Packet, depth: nat)
    requires forall i :: 0 <= i < |e.network.prefixes| ==> Local(e.network.prefixes[i]) !in p.dst
    ensures Run(t, PrefixRules(e.network.prefixes) + (ForPaths(e.paths, ForwardRule()) + [DROP_REST]), p, depth) ==
            if MayLeaveBy(e.paths, p) then Back(p) else Dropped
  {
    var ways := ForPaths(e.paths, ForwardRule());
    RunConcat(t, PrefixRules(e.network.prefixes), ways + [DROP_REST], p, depth);
    PrefixRun(t, e.network.prefixes, p, depth);
    RunConcat(t, ways, [DROP_REST], p, depth);
    ForwardRun(t, e.paths, p, depth);
    RunOne(t, DROP_REST, p, depth);
  }

  lemma ForwardHook(e: Desired, p: Packet)
    requires p.iif in e.network.lan
    requires forall i :: 0 <= i < |e.network.prefixes| ==> Local(e.network.prefixes[i]) !in p.dst
    ensures Hook(Live(e), Forward, p) == if MayLeaveBy(e.paths, p) then Passed(p) else Lost
  {
    var t := Live(e);
    var r := Rule([Iif(e.network.lan)], 0, 0, Jump(ForwardCheck));
    Hit1(Iif(e.network.lan), p);
    RunOne(t, r, p, JUMPS);
    ForwardCheckRun(t, e, p, JUMPS - 1);
  }

  /** Even if a route or a tunnel has vanished, a LAN packet to a destination
      outside the local prefixes is forwarded if and only if the path that owns
      its connection lets it out, and by a tunnel path only through its device. */
  lemma NoForwardEscape(d: Desired, p: Packet)
    requires Accepts(d) && d.selective.None?
    requires p.iif in d.network.lan
    requires forall i :: 0 <= i < |d.network.prefixes| ==> Local(d.network.prefixes[i]) !in p.dst
    ensures Hook(Live(Materialized(d)), Forward, p) == if MayLeaveBy(Materialized(d).paths, p) then Passed(p) else Lost
  {
    ForwardHook(Materialized(d), p);
  }

  /** While the guard table is up, every external LAN packet is dropped. */
  lemma GuardDropsAll(d: Desired, p: Packet)
    requires p.iif in d.network.lan && External(d.network, p.dst)
    ensures Hook(Guard(d), Prerouting, p) == Lost
  {
    var t := Guard(d);
    var r := Rule([Iif(d.network.lan)], 0, 0, Jump(Protect));
    Hit1(Iif(d.network.lan), p);
    RunOne(t, r, p, JUMPS);
    var dns := if d.network.dns.BlockDns? then [Rule([Dns], 0, 0, Drop)] else [];
    RunConcat(t, dns, Exceptions(d.network.prefixes) + [DROP_REST], p, JUMPS - 1);
    RunOne(t, Rule([Dns], 0, 0, Drop), p, JUMPS - 1);
    RunConcat(t, Exceptions(d.network.prefixes), [DROP_REST], p, JUMPS - 1);
    ExceptionRun(t, d.network, p, JUMPS - 1);
    RunOne(t, DROP_REST, p, JUMPS - 1);
  }

  // ----- switching the selection

  lemma OnlySelectionDiffers(previous: Desired, candidate: Desired)
    requires previous == candidate.(selected := previous.selected)
    ensures Switch(Live(previous), candidate) == Live(candidate)
  {
    assert candidate.paths == previous.paths && candidate.network == previous.network;
    assert ProtectChain(candidate) == ProtectChain(previous);
  }

  /** The incremental script gives the table a full render would give. */
  lemma SwitchEqualsRender(previous: Desired, candidate: Desired)
    requires SwitchOk(previous, candidate)
    ensures Switch(Live(previous), candidate) == Live(candidate)
  {
    OnlySelectionDiffers(previous, candidate);
  }

  /** A rule that can change a connection mark only when nobody owns it. */
  predicate KeepsOwner(r: Rule) { r.setCt == 0 || CtForeign in r.matches }

  predicate AllKeep(rs: seq<Rule>) { forall i :: 0 <= i < |rs| ==> KeepsOwner(rs[i]) }

  ghost predicate Sticky(t: Table) { forall c :: c in t ==> AllKeep(t[c]) }

  predicate OnlyForeign(rs: seq<Rule>) { forall i :: 0 <= i < |rs| ==> CtForeign in rs[i].matches }

  lemma OwnedMisses(ms: seq<Match>, p: Packet)
    ensures CtForeign in ms && !Foreign(p.ct) ==> !HitsAll(ms, p)
  {
    if CtForeign in ms && !Foreign(p.ct) {
      var i :| 0 <= i < |ms| && ms[i] == CtForeign;
      assert !Hits(ms[i], p);
    }
  }

  lemma {:induction false} ForeignRun(t: Table, rules: seq<Rule>, p: Packet, depth: nat)
    requires OnlyForeign(rules) && !Foreign(p.ct)
    ensures Run(t, rules, p, depth) == Going(p)
    decreases |rules|
  {
    if rules != [] {
      OwnedMisses(rules[0].matches, p);
      ForeignRun(t, rules[1..], p, depth);
    }
  }

  ghost predicate SameButSelect(t: Table, u: Table) {
    && SelectFlow in t && SelectFlow in u && t.Keys == u.Keys
    && (forall c :: c in t && c != SelectFlow ==> t[c] == u[c])
    && OnlyForeign(t[SelectFlow]) && OnlyForeign(u[SelectFlow])
  }

  /** An owned packet runs the same whatever the classifier says, and keeps its
      owner all the way. */
  lemma {:induction false} StickyRun(t: Table, u: Table, rules: seq<Rule>, p: Packet, depth: nat)
    requires SameButSelect(t, u) && Sticky(t) && AllKeep(rules) && !Foreign(p.ct)
    ensures Run(t, rules, p, depth) == Run(u, rules, p, depth)
    ensures !Run(t, rules, p, depth).Dropped? ==> Run(t, rules, p, depth).p.ct == p.ct
    decreases depth, |rules|
  {
    if rules != [] {
      if HitsAll(rules[0].matches, p) {
        StickyFire(t, u, rules[0], p, depth);
        if Fire(t, rules[0], p, depth).Going? {
          StickyRun(t, u, rules[1..], Fire(t, rules[0], p, depth).p, depth);
        }
      } else {
        StickyRun(t, u, rules[1..], p, depth);
      }
    }
  }

  lemma {:induction false} StickyFire(t: Table, u: Table, r: Rule, p: Packet, depth: nat)
    requires SameButSelect(t, u) && Sticky(t) && KeepsOwner(r) && !Foreign(p.ct) && HitsAll(r.matches, p)
    ensures Fire(t, r, p, depth) == Fire(u, r, p, depth)
    ensures !Fire(t, r, p, depth).Dropped? ==> Fire(t, r, p, depth).p.ct == p.ct
    decreases depth, 0
  {
    OwnedMisses(r.matches, p);
    var q := Marked(r, p);
    if r.verdict.Jump? && depth > 0 && r.verdict.chain in t {
      if r.verdict.chain == SelectFlow {
        ForeignRun(t, t[SelectFlow], q, depth - 1);
        ForeignRun(u, u[SelectFlow], q, depth - 1);
      } else {
        StickyRun(t, u, t[r.verdict.chain], q, depth - 1);
      }
    }
  }

  lemma {:induction false} ForPathsKeep(paths: seq<Path>, f: Path -> seq<Rule>)
    requires forall p :: AllKeep(f(p))
    ensures AllKeep(ForPaths(paths, f))
  {
    if paths != [] { ForPathsKeep(paths[1..], f); }
  }

  lemma {:induction false} SelectionForeign(paths: seq<Path>, selected: string)
    ensures OnlyForeign(Selection(paths, selected)) && AllKeep(Selection(paths, selected))
  {
    if paths != [] && paths[0].source != selected { SelectionForeign(paths[1..], selected); }
  }

  lemma {:induction false} PrefixKeep(prefixes: seq<Prefix>)
    ensures AllKeep(PrefixRules(prefixes))
  {
    if prefixes != [] { PrefixKeep(prefixes[1..]); }
  }

  lemma ProtectKeep(d: Desired)
    ensures AllKeep(ProtectChain(d))
  {
    PrefixKeep(d.network.prefixes);
    ForPathsKeep(d.paths, DnsRule(d.network));
    ForPathsKeep(d.paths, OwnerRule());
    ForPathsKeep(d.paths, PathRule());
    assert AllKeep(DnsPart(d));
    assert AllKeep(Exceptions(d.network.prefixes));
    assert AllKeep(V6Part(d) + PathPart(d));
  }

  lemma OtherChainsKeep(d: Desired)
    ensures AllKeep(ForPaths(d.paths, NatRule(d.network)))
    ensures AllKeep(ForPaths(d.paths, BlockRule()) + [Rule([Dns], 0, 0, Drop)])
    ensures AllKeep(PrefixRules(d.network.prefixes) + (ForPaths(d.paths, ForwardRule()) + [DROP_REST]))
    ensures AllKeep(ForPaths(d.paths, QueueRule()))
  {
    PrefixKeep(d.network.prefixes);
    ForPathsKeep(d.paths, NatRule(d.network));
    ForPathsKeep(d.paths, BlockRule());
    ForPathsKeep(d.paths, ForwardRule());
    ForPathsKeep(d.paths, QueueRule());
  }

  /** Only the classifier of a live table touches connection marks, and only of
      connections without an owner. */
  lemma LiveIsSticky(d: Desired)
    ensures Sticky(Live(d)) && OnlyForeign(Live(d)[SelectFlow])
  {
    SelectionForeign(d.paths, d.selected);
    ProtectKeep(d);
    OtherChainsKeep(d);
  }

  lemma StickyHook(previous: Desired, candidate: Desired, c: Chain, p: Packet)
    requires SwitchOk(previous, candidate) && !Foreign(p.ct) && c != SelectFlow
    ensures Hook(Live(previous), c, p) == Hook(Live(candidate), c, p)
    ensures Hook(Live(previous), c, p).Passed? ==> Hook(Live(previous), c, p).p.ct == p.ct
  {
    SwitchEqualsRender(previous, candidate);
    LiveIsSticky(previous);
    LiveIsSticky(candidate);
    var t, u := Live(previous), Live(candidate);
    assert u == t[SelectFlow := u[SelectFlow]];
    assert SameButSelect(t, u);
    if c in t { StickyRun(t, u, t[c], p, JUMPS); }
  }

  lemma SwitchKeepsPrerouted(previous: Desired, candidate: Desired, p: Packet, dst: set<Range>)
    requires SwitchOk(previous, candidate) && !Foreign(p.ct)
    ensures Prerouted(Live(previous), p, dst) == Prerouted(Live(candidate), p, dst)
    ensures Prerouted(Live(previous), p, dst).Passed? ==> Prerouted(Live(previous), p, dst).p.ct == p.ct
  {
    var t, u := Live(previous), Live(candidate);
    assert SameFate(t, u, DnsClassify, p) by { StickyHook(previous, candidate, DnsClassify, p); }
    match Hook(t, DnsClassify, p)
    case Lost =>
    case Passed(q) =>
      assert SameFate(t, u, DnsNat, q) by { StickyHook(previous, candidate, DnsNat, q); }
      match Hook(t, DnsNat, q)
      case Lost =>
      case Passed(r) =>
        var x := if r.rewritten && !q.rewritten then r.(dst := dst) else r;
        assert SameFate(t, u, Prerouting, x) by { StickyHook(previous, candidate, Prerouting, x); }
  }

  /** Two tables do the same with a packet at a hook and leave its owner. */
  predicate SameFate(t: Table, u: Table, c: Chain, p: Packet) {
    Hook(t, c, p) == Hook(u, c, p) && (Hook(t, c, p).Passed? ==> Hook(t, c, p).p.ct == p.ct)
  }

  /** A switch moves no existing connection: packets whose connection already
      has an owner meet the same fate at every hook before and after. */
  lemma SwitchKeepsFlows(previous: Desired, candidate: Desired, p: Packet, dst: set<Range>)
    requires SwitchOk(previous, candidate) && !Foreign(p.ct)
    ensures Prerouted(Live(previous), p, dst) == Prerouted(Live(candidate), p, dst)
    ensures Hook(Live(previous), Forward, p) == Hook(Live(candidate), Forward, p)
    ensures Hook(Live(previous), Postrouting, p) == Hook(Live(candidate), Postrouting, p)
    ensures Prerouted(Live(previous), p, dst).Passed? ==> Prerouted(Live(previous), p, dst).p.ct == p.ct
  {
    SwitchKeepsPrerouted(previous, candidate, p, dst);
    StickyHook(previous, candidate, Forward, p);
    StickyHook(previous, candidate, Postrouting, p);
  }
}
