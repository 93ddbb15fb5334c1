/** Typed network intent and the checks that accept it (internal/dataplane:
    Compile, materializeContinuity, compileSelective, SafeRollback).  Prefixes and
    addresses are numbers, hashes and pins the text they are given as. */
module Intent {
  import opened Addresses

  datatype Option<T> = None | Some(value: T)

  const MAX_PATHS: nat := 250
  const CONTINUITY: string := "__continuity"
  const SELECTIVE: string := "__selective"

  datatype Kind = Direct | Tproxy | Interface | PacketEngine | UnknownKind
  datatype V6Mode = BlockV6 | ProxyV6 | UnknownV6
  datatype DnsMode = BlockDns | SelectedDns | UnknownDns
  datatype Fallback = ClosedFallback | DirectFallback | UnknownFallback

  datatype Path = Path(
    source: string, kind: Kind, slot: nat, port: nat, dnsPort: nat,
    device: string, ipv6: bool, udp: bool)

  datatype Resolver = Resolver(family: Family, address: nat)

  datatype Network = Network(
    enabled: bool, lan: seq<string>, wan: string, prefixes: seq<Prefix>,
    ipv6: V6Mode, dns: DnsMode, resolver: Resolver)

  /** Digits of a hexadecimal text, `n` of them. */
  predicate Hex(t: string, n: nat) {
    |t| == n && forall i :: 0 <= i < |t| ==> '0' <= t[i] <= '9' || 'a' <= t[i] <= 'f' || 'A' <= t[i] <= 'F'
  }

  predicate LowerHex(t: string, n: nat) {
    |t| == n && forall i :: 0 <= i < |t| ==> '0' <= t[i] <= '9' || 'a' <= t[i] <= 'f'
  }

  /** The relay a gateway is told to trust, with the fingerprint of its key. */
  datatype Continuity = Continuity(enabled: bool, relay: Resolver, relayPort: nat, pin: string, path: Path) {
    predicate Trusted() {
      enabled && 0 < relayPort < 0x1_0000 && PublicUnmapped(relay.family, relay.address) && Hex(pin, 64)
    }
  }

  const FAKE4: string := "198.18.0.0/15"
  const FAKE6: string := "fd66:6f70:656e::/48"

  datatype Selective = Selective(fakePool: nat, path: Path, front: nat, failDirect: bool, fake4: string, fake6: string,
                                 policyHash: string, generation: nat, snapshot: string) {
    predicate Pools() { fake4 == FAKE4 && fake6 == FAKE6 }
    predicate Digests() { LowerHex(policyHash, 64) && generation != 0 && Hex(snapshot, 64) }
  }

  datatype Desired = Desired(
    network: Network, paths: seq<Path>, unavailable: seq<string>,
    selected: string, fallback: Fallback, breakExisting: bool,
    continuity: Option<Continuity>, selective: Option<Selective>)

  // ----- names

  predicate NameChar(c: char) {
    'a' <= c <= 'z' || 'A' <= c <= 'Z' || '0' <= c <= '9' || c == '-' || c == '_'
  }

  predicate ValidID(s: string) {
    0 < |s| <= 80 && forall i :: 0 <= i < |s| ==> NameChar(s[i])
  }

  predicate ValidDevice(s: string) {
    && 0 < |s| <= 15 && s != "." && s != ".." && s[0] != '-'
    && forall i :: 0 <= i < |s| ==> NameChar(s[i]) || s[i] == '.'
  }

  predicate Distinct<T(==)>(s: seq<T>) {
    forall i, j :: 0 <= i < j < |s| ==> s[i] != s[j]
  }

  lemma DistinctSnoc<T>(s: seq<T>, x: T)
    ensures Distinct(s + [x]) <==> Distinct(s) && x !in s
  {
    var t := s + [x];
    if Distinct(t) {
      forall i, j | 0 <= i < j < |s| ensures s[i] != s[j] {
        assert t[i] != t[j];
      }
      forall i | 0 <= i < |s| ensures s[i] != x {
        assert t[i] != t[|s|];
      }
    }
  }

  // ----- what is accepted

  predicate NetworkOk(n: Network) {
    && n.enabled
    && 0 < |n.lan| <= 32 && Distinct(n.lan) && ValidDevice(n.wan)
    && (forall i :: 0 <= i < |n.lan| ==> ValidDevice(n.lan[i]) && n.lan[i] != n.wan && n.lan[i] != "lo")
    && !n.ipv6.UnknownV6? && !n.dns.UnknownDns?
    && (n.dns.SelectedDns? ==> Public(n.resolver.family, n.resolver.address))
    && 0 < |n.prefixes| <= 64
    && (forall i :: 0 <= i < |n.prefixes| ==> Sound(n.prefixes[i]))
  }

  predicate UnavailableOk(d: Desired) {
    && |d.unavailable| <= 250 && Distinct(d.unavailable)
    && forall i :: 0 <= i < |d.unavailable| ==> ValidID(d.unavailable[i]) && d.unavailable[i] != d.selected
  }

  /** The checks on one path that do not look at the others. */
  predicate PathOk(p: Path, d: Desired) {
    && ValidID(p.source) && 0 < p.slot <= MAX_PATHS
    && (p.device != "" ==> ValidDevice(p.device))
    && (match p.kind
        case Direct => p.port == 0 && p.dnsPort == 0 && p.device == ""
        case Tproxy => p.port >= 1024 && p.device == "" && (p.dnsPort != 0 ==> p.dnsPort >= 1024)
        case Interface =>
          && p.port == 0 && p.dnsPort == 0 && p.device != "" && p.device != "lo"
          && p.device != d.network.wan && p.device !in d.network.lan
        case PacketEngine => p.port == 0 && p.dnsPort == 0 && p.device == "" && p.udp
        case UnknownKind => false)
    && (!p.kind.Direct? && d.network.ipv6.ProxyV6? && Carries(p, d) ==> p.ipv6)
    && (p.kind.Tproxy? && d.network.dns.SelectedDns? && Carries(p, d) ==> p.dnsPort != 0)
  }

  /** With continuity only the stable path carries LAN traffic itself. */
  predicate Carries(p: Path, d: Desired) {
    d.continuity.None? || p.source == CONTINUITY
  }

  function Listeners(paths: seq<Path>): seq<nat> {
    if paths == [] then []
    else
      (if !paths[0].kind.Tproxy? then []
       else if paths[0].dnsPort == 0 then [paths[0].port]
       else [paths[0].port, paths[0].dnsPort]) + Listeners(paths[1..])
  }

  function Slots(paths: seq<Path>): seq<nat> { seq(|paths|, i requires 0 <= i < |paths| => paths[i].slot) }
  function Sources(paths: seq<Path>): seq<string> { seq(|paths|, i requires 0 <= i < |paths| => paths[i].source) }

  predicate PathsOk(d: Desired) {
    && |d.paths| <= MAX_PATHS
    && (forall i :: 0 <= i < |d.paths| ==> PathOk(d.paths[i], d) && d.paths[i].source !in d.unavailable)
    && Distinct(Slots(d.paths)) && Distinct(Sources(d.paths)) && Distinct(Listeners(d.paths))
  }

  predicate SelectionOk(d: Desired) {
    && (d.selected == "" || d.selected in Sources(d.paths))
    && !d.fallback.UnknownFallback?
    && (d.selected == "" ==> !d.fallback.DirectFallback?)
  }

  /** Compile after continuity and selective routing have been unfolded. */
  predicate PlainOk(d: Desired) {
    NetworkOk(d.network) && UnavailableOk(d) && PathsOk(d) && SelectionOk(d)
  }

  predicate ContinuityOk(d: Desired)
    requires d.continuity.Some?
  {
    var c := d.continuity.value;
    var p := c.path;
    && c.Trusted() && d.fallback.ClosedFallback? && !d.breakExisting
    && p.source == CONTINUITY && p.kind.Tproxy? && p.udp && p.device == ""
    && 0 < p.slot <= MAX_PATHS && p.port >= 1024
    && (d.network.ipv6.ProxyV6? ==> p.ipv6)
    && (d.network.dns.SelectedDns? ==> p.dnsPort >= 1024)
    && CONTINUITY !in Sources(d.paths) && p.slot !in Slots(d.paths)
    && CONTINUITY !in d.unavailable
    && (d.selected != "" ==> d.selected in Sources(d.paths))
  }

  /** The stable path joins the sources and takes the selection. */
  function Materialized(d: Desired): Desired {
    if d.continuity.None? then d
    else d.(paths := d.paths + [d.continuity.value.path], selected := CONTINUITY)
  }

  function AllPaths(d: Desired): seq<Path> {
    if d.continuity.None? then d.paths else d.paths + [d.continuity.value.path]
  }

  predicate SelectiveOk(d: Desired)
    requires d.selective.Some?
  {
    var s := d.selective.value;
    var p := s.path;
    && d.fallback.ClosedFallback? && !d.network.dns.UnknownDns? && !d.breakExisting
    && s.fakePool <= 1 && s.Pools() && s.Digests() && s.failDirect
    && p.source == SELECTIVE && p.kind.Tproxy? && 0 < p.slot <= MAX_PATHS && p.port >= 1024
    && p.device == "" && p.udp && s.front >= 1024 && s.front != p.port
    && (d.network.ipv6.ProxyV6? ==> p.ipv6)
    && (forall i :: 0 <= i < |d.network.prefixes| ==> !MeetsPool(d.network.prefixes[i]))
    && (d.continuity.Some? ==> ContinuityOk(d))
    && (forall i :: 0 <= i < |AllPaths(d)| ==>
          && AllPaths(d)[i].source != SELECTIVE && AllPaths(d)[i].slot != p.slot
          && AllPaths(d)[i].port != s.front && AllPaths(d)[i].dnsPort != s.front
          && (AllPaths(d)[i].source == d.selected && AllPaths(d)[i].kind.Direct? ==> d.continuity.Some?))
    && (d.selected == "" || d.selected in Sources(AllPaths(d)))
  }

  /** What the shared checks see of a selective intent: the dispatcher is one
      more transparent path, and the selected one. */
  function Normalized(d: Desired): Desired
    requires d.selective.Some?
  {
    d.(paths := AllPaths(d) + [d.selective.value.path], selected := SELECTIVE, fallback := ClosedFallback,
       network := d.network.(dns := BlockDns), continuity := None, selective := None)
  }

  predicate Accepts(d: Desired) {
    if d.selective.Some? then SelectiveOk(d) && PlainOk(Normalized(d))
    else if d.continuity.Some? then ContinuityOk(d) && PlainOk(Materialized(d))
    else PlainOk(d)
  }

  // ----- rolling back

  /** Never reopens direct access after a strict transaction. */
  function SafeRollback(candidate: Desired, previous: Option<Desired>): Desired {
    if (candidate.fallback.DirectFallback? || candidate.selective.Some?) && previous.Some? then previous.value
    else candidate.(paths := [], continuity := None, selective := None, selected := "",
                    fallback := ClosedFallback, network := candidate.network.(dns := BlockDns))
  }

  /** An accepted intent's network is sound whatever its routing looks like. */
  lemma AcceptedNetwork(d: Desired)
    requires Accepts(d)
    ensures NetworkOk(d.network.(dns := BlockDns))
    ensures |d.unavailable| <= 250 && Distinct(d.unavailable)
    ensures forall i :: 0 <= i < |d.unavailable| ==> ValidID(d.unavailable[i])
  {
  }

  /** The rollback chosen for an accepted candidate is itself accepted. */
  lemma RollbackAccepted(candidate: Desired, previous: Option<Desired>)
    requires Accepts(candidate) && (previous.Some? ==> Accepts(previous.value))
    ensures Accepts(SafeRollback(candidate, previous))
  {
    AcceptedNetwork(candidate);
    var r := SafeRollback(candidate, previous);
    if !(previous.Some? && r == previous.value) {
      assert |r.paths| == 0;
      assert Slots(r.paths) == [] && Sources(r.paths) == [] && Listeners(r.paths) == [];
    }
  }

  /** Under a maintenance hold the rollback also selects nothing. */
  function HeldRollback(candidate: Desired, previous: Option<Desired>): Desired {
    if candidate.selective.Some? then
      SafeRollback(Desired(candidate.network, [], [], "", ClosedFallback, false, None, None), None)
    else SafeRollback(candidate, previous).(selected := "", fallback := ClosedFallback)
  }

  // What a rollback may be, in plain fields.

  /** Direct access was neither asked for as a fallback nor as a failure policy. */
  predicate Strict(d: Desired) { !d.fallback.DirectFallback? && d.selective.None? }

  /** Nothing routed, nothing selected, no DNS: the network and no more. */
  predicate Shut(d: Desired, n: Network) {
    && d.paths == [] && d.selected == "" && d.continuity.None? && d.selective.None?
    && d.fallback.ClosedFallback? && d.network == n.(dns := BlockDns)
  }

  /** After a strict candidate, or without anything to go back to, everything is
      shut; otherwise the previous intent is restored.  Under a maintenance hold a
      selective candidate is shut, too, and nothing is selected or direct. */
  predicate RollbackLaw(r: Desired, candidate: Desired, previous: Option<Desired>, held: bool) {
    && (Strict(candidate) || previous.None? || (held && candidate.selective.Some?) ==> Shut(r, candidate.network))
    && (!Strict(candidate) && previous.Some? && !held ==> r == previous.value)
    && (!Strict(candidate) && previous.Some? && held && candidate.selective.None? ==>
          r.selected == "" && r.fallback.ClosedFallback? && r == previous.value.(selected := "", fallback := ClosedFallback))
  }

  /** The rollback that is chosen never reopens direct access after a strict
      transaction. */
  lemma RollbackMeans(candidate: Desired, previous: Option<Desired>)
    ensures RollbackLaw(SafeRollback(candidate, previous), candidate, previous, false)
    ensures RollbackLaw(HeldRollback(candidate, previous), candidate, previous, true)
  {
  }

  /** Deselecting keeps an intent acceptable, with any kind of routing. */
  lemma DeselectedAccepted(d: Desired)
    requires Accepts(d)
    ensures Accepts(d.(selected := "", fallback := ClosedFallback))
  {
    var e := d.(selected := "", fallback := ClosedFallback);
    if d.selective.Some? {
      assert AllPaths(e) == AllPaths(d);
      assert Normalized(e) == Normalized(d);
      forall i | 0 <= i < |AllPaths(d)| ensures AllPaths(d)[i].source != "" {
        assert Normalized(d).paths[i] == AllPaths(d)[i];
      }
      assert SelectiveOk(e);
    } else if d.continuity.Some? {
      assert Materialized(e).paths == Materialized(d).paths;
      assert PathsOk(Materialized(e));
    } else {
      assert PathsOk(e);
    }
  }

  lemma HeldRollbackAccepted(candidate: Desired, previous: Option<Desired>)
    requires Accepts(candidate) && (previous.Some? ==> Accepts(previous.value))
    ensures Accepts(HeldRollback(candidate, previous))
  {
    if candidate.selective.Some? {
      AcceptedNetwork(candidate);
      var r := HeldRollback(candidate, previous);
      assert |r.paths| == 0;
      assert Slots(r.paths) == [] && Sources(r.paths) == [] && Listeners(r.paths) == [];
    } else {
      RollbackAccepted(candidate, previous);
      DeselectedAccepted(SafeRollback(candidate, previous));
    }
  }
}
