/** The compiler of network intent (internal/dataplane: Compile,
    materializeContinuity, compileSelective): loops with seen-sets that accept
    exactly the sound intents, and the policy routes they produce. */
module Compiler {
  import opened Addresses
  import opened Intent
  import opened Packets
  import opened Tables

  // ----- policy routes

  /** `owner` is the upper half of the packet mark the rule looks at. */
  datatype Route = Route(family: Family, table: nat, priority: nat, owner: nat, device: string, local: bool)

  function RouteOf(p: Path, f: Family): Route {
    if p.kind.Direct? || p.kind.PacketEngine? then Route(f, 254, 22000 + p.slot, Owner(p.slot), "", false)
    else Route(f, 20000 + p.slot, 22000 + p.slot, Owner(p.slot), if p.kind.Tproxy? then "lo" else p.device, p.kind.Tproxy?)
  }

  function RoutesOf(p: Path, v6: V6Mode): seq<Route> {
    [RouteOf(p, V4)] + if v6.BlockV6? then [] else [RouteOf(p, V6)]
  }

  function Routes(paths: seq<Path>, v6: V6Mode): seq<Route> {
    if paths == [] then [] else Routes(paths[..|paths| - 1], v6) + RoutesOf(paths[|paths| - 1], v6)
  }

  predicate Routed(f: Family, v6: V6Mode) { f.V4? || !v6.BlockV6? }

  lemma RoutesOfMembers(p: Path, v6: V6Mode, r: Route)
    ensures r in RoutesOf(p, v6) <==> Routed(r.family, v6) && r == RouteOf(p, r.family)
  {
    var four, six := RouteOf(p, V4), RouteOf(p, V6);
    assert four.family == V4 && six.family == V6;
    if r.family.V4? { assert r.family == V4; } else { assert r.family == V6; }
    if v6.BlockV6? {
      assert RoutesOf(p, v6) == [four];
    } else {
      assert RoutesOf(p, v6) == [four, six];
    }
  }

  /** The routes are those of the paths in each family that is let through. */
  lemma {:induction false} RoutesMembers(paths: seq<Path>, v6: V6Mode, r: Route)
    ensures r in Routes(paths, v6) <==> exists i :: 0 <= i < |paths| && Routed(r.family, v6) && r == RouteOf(paths[i], r.family)
  {
    if paths != [] {
      var front, last := paths[..|paths| - 1], paths[|paths| - 1];
      RoutesMembers(front, v6, r);
      assert forall i :: 0 <= i < |front| ==> front[i] == paths[i];
      RoutesOfMembers(last, v6, r);
      if r in RoutesOf(last, v6) { assert r == RouteOf(paths[|paths| - 1], r.family); }
    }
  }

  /** Marked traffic of a path is routed by that path's own route and no other:
      one route for each family let through, none for a blocked one. */
  lemma RouteIsOwn(d: Desired, i: nat, f: Family, r: Route)
    requires PlainOk(d) && i < |d.paths|
    ensures r.owner == Owner(d.paths[i].slot) && r.family == f ==>
              (r in Routes(d.paths, d.network.ipv6) <==> Routed(f, d.network.ipv6) && r == RouteOf(d.paths[i], f))
  {
    RoutesMembers(d.paths, d.network.ipv6, r);
    forall j | 0 <= j < |d.paths| && r == RouteOf(d.paths[j], f) && r.owner == Owner(d.paths[i].slot) ensures i == j {
      assert Slots(d.paths)[i] == d.paths[i].slot && Slots(d.paths)[j] == d.paths[j].slot;
    }
  }

  /** What the route of a path must say: its mark, a priority of its own, the main
      table for what leaves as usual, else a table of its own with its device. */
  predicate RouteFits(r: Route, p: Path) {
    && r.owner == 0x4f00 + p.slot && r.priority == 22000 + p.slot
    && match p.kind
       case Direct => r.table == 254 && !r.local && r.device == ""
       case PacketEngine => r.table == 254 && !r.local && r.device == ""
       case Tproxy => r.table == 20000 + p.slot && r.local && r.device == "lo"
       case Interface => r.table == 20000 + p.slot && !r.local && r.device == p.device
       case UnknownKind => false
  }

  ghost predicate FitsOne(r: Route, paths: seq<Path>) { exists i :: 0 <= i < |paths| && RouteFits(r, paths[i]) }

  ghost predicate HasRoute(routes: seq<Route>, p: Path, f: Family) { exists r :: r in routes && r.family == f && RouteFits(r, p) }

  /** The policy routes of a plan: one for each path and each family let through and
      no others, and those of different paths share neither priority nor, outside
      the main table, a table. */
  ghost predicate RoutesLaw(routes: seq<Route>, paths: seq<Path>, v6: V6Mode) {
    && (forall r :: r in routes ==> Routed(r.family, v6) && FitsOne(r, paths))
    && (forall i, f :: 0 <= i < |paths| && Routed(f, v6) ==> HasRoute(routes, paths[i], f))
    && (forall r, s :: r in routes && s in routes ==> RoutesApart(r, s))
  }

  predicate RoutesApart(r: Route, s: Route) {
    && (r.owner == s.owner && r.family == s.family ==> r == s)
    && (r.owner != s.owner ==> r.priority != s.priority && (r.table == s.table ==> r.table == 254))
  }

  lemma FittingRoute(d: Desired, r: Route) returns (i: nat)
    requires PlainOk(d) && r in Routes(d.paths, d.network.ipv6)
    ensures i < |d.paths| && Routed(r.family, d.network.ipv6) && r == RouteOf(d.paths[i], r.family)
    ensures RouteFits(r, d.paths[i]) && d.paths[i].slot > 0
  {
    RoutesMembers(d.paths, d.network.ipv6, r);
    i :| 0 <= i < |d.paths| && Routed(r.family, d.network.ipv6) && r == RouteOf(d.paths[i], r.family);
    assert PathOk(d.paths[i], d);
  }

  lemma RoutesMean(d: Desired)
    requires PlainOk(d)
    ensures RoutesLaw(Routes(d.paths, d.network.ipv6), d.paths, d.network.ipv6)
  {
    var routes := Routes(d.paths, d.network.ipv6);
    forall r | r in routes ensures Routed(r.family, d.network.ipv6) && FitsOne(r, d.paths) {
      var i := FittingRoute(d, r);
    }
    forall i, f | 0 <= i < |d.paths| && Routed(f, d.network.ipv6) ensures HasRoute(routes, d.paths[i], f) {
      PathHasRoute(d, i, f);
    }
    forall r, s | r in routes && s in routes ensures RoutesApart(r, s) {
      ApartRoutes(d, r, s);
    }
  }

  lemma PathHasRoute(d: Desired, i: nat, f: Family)
    requires PlainOk(d) && i < |d.paths| && Routed(f, d.network.ipv6)
    ensures HasRoute(Routes(d.paths, d.network.ipv6), d.paths[i], f)
  {
    var r := RouteOf(d.paths[i], f);
    assert PathOk(d.paths[i], d);
    assert r in Routes(d.paths, d.network.ipv6) by { RoutesMembers(d.paths, d.network.ipv6, r); }
    assert RouteFits(r, d.paths[i]);
  }

  lemma ApartRoutes(d: Desired, r: Route, s: Route)
    requires PlainOk(d) && r in Routes(d.paths, d.network.ipv6) && s in Routes(d.paths, d.network.ipv6)
    ensures RoutesApart(r, s)
  {
    var i := FittingRoute(d, r);
    var j := FittingRoute(d, s);
    assert Slots(d.paths)[i] == d.paths[i].slot && Slots(d.paths)[j] == d.paths[j].slot;
  }

  // ----- distinctness

  lemma DistinctPrefix<T>(a: seq<T>, b: seq<T>)
    ensures Distinct(a + b) ==> Distinct(a)
  {
    if Distinct(a + b) {
      assert forall i, j :: 0 <= i < j < |a| ==> (a + b)[i] == a[i] && (a + b)[j] == a[j];
    }
  }

  function SetOf<T>(s: seq<T>): set<T> { set x | x in s }

  // ----- network

  predicate LanOk(lan: seq<string>, wan: string) {
    Distinct(lan) && forall i :: 0 <= i < |lan| ==> ValidDevice(lan[i]) && lan[i] != wan && lan[i] != "lo"
  }

  method CheckLan(lan: seq<string>, wan: string) returns (ok: bool, seen: set<string>)
    ensures ok <==> LanOk(lan, wan)
    ensures ok ==> seen == SetOf(lan)
  {
    seen := {};
    for i := 0 to |lan|
      invariant seen == SetOf(lan[..i]) && LanOk(lan[..i], wan)
    {
      assert lan[..i + 1] == lan[..i] + [lan[i]];
      assert lan == lan[..i + 1] + lan[i + 1..];
      DistinctSnoc(lan[..i], lan[i]);
      DistinctPrefix(lan[..i + 1], lan[i + 1..]);
      if !ValidDevice(lan[i]) || lan[i] == wan || lan[i] == "lo" || lan[i] in seen { return false, seen; }
      seen := seen + {lan[i]};
    }
    assert lan[..|lan|] == lan;
    return true, seen;
  }

  method CheckNetwork(n: Network) returns (ok: bool, seen: set<string>)
    ensures ok <==> NetworkOk(n)
    ensures ok ==> seen == SetOf(n.lan)
  {
    seen := {};
    if !n.enabled || |n.lan| == 0 || |n.lan| > 32 || !ValidDevice(n.wan) { return false, seen; }
    ok, seen := CheckLan(n.lan, n.wan);
    if !ok || n.ipv6.UnknownV6? { return false, seen; }
    if n.dns.SelectedDns? && !Public(n.resolver.family, n.resolver.address) { return false, seen; }
    if n.dns.UnknownDns? { return false, seen; }
    if |n.prefixes| == 0 || |n.prefixes| > 64 { return false, seen; }
    for i := 0 to |n.prefixes|
      invariant forall j :: 0 <= j < i ==> Sound(n.prefixes[j])
    {
      if !Sound(n.prefixes[i]) { return false, seen; }
    }
    return true, seen;
  }

  // ----- identities and paths

  method CheckUnavailable(d: Desired) returns (ok: bool, ids: set<string>)
    ensures ok <==> UnavailableOk(d)
    ensures ok ==> ids == SetOf(d.unavailable)
  {
    ids := {};
    var u := d.unavailable;
    if |u| > 250 { return false, ids; }
    for i := 0 to |u|
      invariant ids == SetOf(u[..i]) && Distinct(u[..i])
      invariant forall j :: 0 <= j < i ==> ValidID(u[j]) && u[j] != d.selected
    {
      assert u[..i + 1] == u[..i] + [u[i]];
      assert u == u[..i + 1] + u[i + 1..];
      DistinctSnoc(u[..i], u[i]);
      DistinctPrefix(u[..i + 1], u[i + 1..]);
      if !ValidID(u[i]) || u[i] in ids || u[i] == d.selected { return false, ids; }
      ids := ids + {u[i]};
    }
    assert u[..|u|] == u;
    return true, ids;
  }

  predicate Apart(paths: seq<Path>) {
    Distinct(Slots(paths)) && Distinct(Sources(paths)) && Distinct(Listeners(paths))
  }

  function Ports(p: Path): seq<nat> {
    if !p.kind.Tproxy? then [] else if p.dnsPort == 0 then [p.port] else [p.port, p.dnsPort]
  }

  lemma {:induction false} ListenersSnoc(paths: seq<Path>, p: Path)
    ensures Listeners(paths + [p]) == Listeners(paths) + Ports(p)
  {
    if paths == [] {
      assert paths + [p] == [p] && [p][1..] == [];
    } else {
      assert (paths + [p])[1..] == paths[1..] + [p];
      ListenersSnoc(paths[1..], p);
    }
  }

  /** One more path is as good as the ones before if nothing of it was seen. */
  predicate Unseen(paths: seq<Path>, p: Path) {
    && p.slot !in Slots(paths) && p.source !in Sources(paths)
    && (p.kind.Tproxy? ==> p.port !in Listeners(paths))
    && (p.kind.Tproxy? && p.dnsPort != 0 ==> p.dnsPort !in Listeners(paths) && p.dnsPort != p.port)
  }

  lemma ApartSnoc(paths: seq<Path>, p: Path)
    ensures Apart(paths + [p]) <==> Apart(paths) && Unseen(paths, p)
  {
    assert Slots(paths + [p]) == Slots(paths) + [p.slot];
    assert Sources(paths + [p]) == Sources(paths) + [p.source];
    DistinctSnoc(Slots(paths), p.slot);
    DistinctSnoc(Sources(paths), p.source);
    ListenersSnoc(paths, p);
    PortsSnoc(Listeners(paths), p);
  }

  lemma PortsSnoc(ports: seq<nat>, p: Path)
    ensures Distinct(ports + Ports(p)) <==>
            Distinct(ports) && (p.kind.Tproxy? ==> p.port !in ports)
            && (p.kind.Tproxy? && p.dnsPort != 0 ==> p.dnsPort !in ports && p.dnsPort != p.port)
  {
    if !p.kind.Tproxy? {
      assert ports + Ports(p) == ports;
    } else {
      DistinctSnoc(ports, p.port);
      DistinctSnoc(ports + [p.port], p.dnsPort);
      assert p.dnsPort != 0 ==> ports + Ports(p) == ports + [p.port] + [p.dnsPort];
    }
  }

  lemma {:induction false} ApartPrefix(paths: seq<Path>, n: nat)
    requires n <= |paths|
    ensures Apart(paths) ==> Apart(paths[..n])
    decreases |paths|
  {
    if n == |paths| {
      assert paths[..n] == paths;
    } else {
      var front := paths[..|paths| - 1];
      assert paths == front + [paths[|paths| - 1]];
      ApartSnoc(front, paths[|paths| - 1]);
      ApartPrefix(front, n);
      assert front[..n] == paths[..n];
    }
  }

  /** The sets that the loop over the paths keeps. */
  datatype Seen = Seen(slots: set<nat>, ids: set<string>, ports: set<nat>)

  ghost predicate Tracks(seen: Seen, paths: seq<Path>, unavailable: seq<string>) {
    && seen.slots == SetOf(Slots(paths)) && seen.ids == SetOf(unavailable) + SetOf(Sources(paths))
    && seen.ports == SetOf(Listeners(paths))
  }

  /** One turn of the loop. */
  method CheckPath(p: Path, d: Desired, lan: set<string>, seen: Seen, ghost paths: seq<Path>) returns (ok: bool, next: Seen)
    requires lan == SetOf(d.network.lan) && Tracks(seen, paths, d.unavailable)
    ensures ok <==> PathOk(p, d) && p.source !in d.unavailable && Unseen(paths, p)
    ensures ok ==> Tracks(next, paths + [p], d.unavailable)
  {
    next := seen;
    if !ValidID(p.source) || p.slot == 0 || p.slot > MAX_PATHS || p.slot in seen.slots || p.source in seen.ids { return false, next; }
    if p.device != "" && !ValidDevice(p.device) { return false, next; }
    match p.kind {
      case Direct => if p.port != 0 || p.dnsPort != 0 || p.device != "" { return false, next; }
      case Tproxy =>
        if p.port < 1024 || p.port in seen.ports || p.device != "" { return false, next; }
        if p.dnsPort != 0 && (p.dnsPort < 1024 || p.dnsPort in seen.ports + {p.port}) { return false, next; }
      case Interface =>
        if p.port != 0 || p.dnsPort != 0 || p.device == "" || p.device in lan || p.device == d.network.wan || p.device == "lo" {
          return false, next;
        }
      case PacketEngine => if p.port != 0 || p.dnsPort != 0 || p.device != "" || !p.udp { return false, next; }
      case UnknownKind => return false, next;
    }
    if !p.kind.Direct? && d.network.ipv6.ProxyV6? && !p.ipv6 && Carries(p, d) { return false, next; }
    if p.kind.Tproxy? && d.network.dns.SelectedDns? && p.dnsPort == 0 && Carries(p, d) { return false, next; }
    next := Seen(seen.slots + {p.slot}, seen.ids + {p.source}, seen.ports + set x | x in Ports(p));
    TracksSnoc(seen, paths, p, d.unavailable);
    return true, next;
  }

  lemma TracksSnoc(seen: Seen, paths: seq<Path>, p: Path, unavailable: seq<string>)
    requires Tracks(seen, paths, unavailable)
    ensures Tracks(Seen(seen.slots + {p.slot}, seen.ids + {p.source}, seen.ports + SetOf(Ports(p))), paths + [p], unavailable)
  {
    assert Slots(paths + [p]) == Slots(paths) + [p.slot];
    assert Sources(paths + [p]) == Sources(paths) + [p.source];
    ListenersSnoc(paths, p);
  }

  /** The checks on the first n paths. */
  predicate GoodTo(d: Desired, n: nat)
    requires n <= |d.paths|
  {
    && (forall i :: 0 <= i < n ==> PathOk(d.paths[i], d) && d.paths[i].source !in d.unavailable)
    && Apart(d.paths[..n])
  }

  lemma GoodStep(d: Desired, n: nat)
    requires n < |d.paths| && GoodTo(d, n)
    ensures GoodTo(d, n + 1) <==>
            PathOk(d.paths[n], d) && d.paths[n].source !in d.unavailable && Unseen(d.paths[..n], d.paths[n])
    ensures GoodTo(d, |d.paths|) ==> GoodTo(d, n + 1)
    ensures d.paths[..n + 1] == d.paths[..n] + [d.paths[n]]
  {
    assert d.paths[..n + 1] == d.paths[..n] + [d.paths[n]];
    ApartSnoc(d.paths[..n], d.paths[n]);
    assert d.paths[..|d.paths|] == d.paths;
    ApartPrefix(d.paths, n + 1);
  }

  method CheckPaths(d: Desired, lan: set<string>, ids: set<string>) returns (ok: bool, found: bool, routes: seq<Route>)
    requires lan == SetOf(d.network.lan) && ids == SetOf(d.unavailable)
    ensures ok <==> PathsOk(d)
    ensures ok ==> routes == Routes(d.paths, d.network.ipv6) && (found <==> d.selected == "" || d.selected in Sources(d.paths))
  {
    found, routes := d.selected == "", [];
    if |d.paths| > MAX_PATHS { return false, found, routes; }
    var seen := Seen({}, ids, {});
    assert GoodTo(d, 0) by { assert Slots([]) == [] && Sources([]) == []; }
    for i := 0 to |d.paths|
      invariant GoodTo(d, i) && Tracks(seen, d.paths[..i], d.unavailable)
      invariant routes == Routes(d.paths[..i], d.network.ipv6)
      invariant found <==> d.selected == "" || d.selected in Sources(d.paths[..i])
    {
      var p := d.paths[i];
      GoodStep(d, i);
      ok, seen := CheckPath(p, d, lan, seen, d.paths[..i]);
      if !ok {
        assert !PathsOk(d) by { if PathsOk(d) { assert d.paths[..|d.paths|] == d.paths; assert GoodTo(d, |d.paths|); } }
        return false, found, routes;
      }
      assert Sources(d.paths[..i + 1]) == Sources(d.paths[..i]) + [p.source];
      if p.source == d.selected { found := true; }
      assert d.paths[..i + 1][..i] == d.paths[..i];
      routes := routes + RoutesOf(p, d.network.ipv6);
    }
    assert d.paths[..|d.paths|] == d.paths;
    return true, found, routes;
  }

  /** The shared checks, after continuity and selective routing are unfolded. */
  method CompilePlain(d: Desired) returns (ok: bool, routes: seq<Route>)
    ensures ok <==> PlainOk(d)
    ensures ok ==> routes == Routes(d.paths, d.network.ipv6)
  {
    routes := [];
    var lan, ids, found;
    ok, lan := CheckNetwork(d.network);
    if !ok || d.fallback.UnknownFallback? { return false, routes; }
    ok, ids := CheckUnavailable(d);
    if !ok { return false, routes; }
    ok, found, routes := CheckPaths(d, lan, ids);
    if !ok || !found { return false, routes; }
    return !(d.selected == "" && d.fallback.DirectFallback?), routes;
  }

  // ----- continuity

  method CheckContinuity(d: Desired) returns (ok: bool)
    requires d.continuity.Some?
    ensures ok <==> ContinuityOk(d)
  {
    var c := d.continuity.value;
    var p := c.path;
    if !c.Trusted() || !d.fallback.ClosedFallback? || d.breakExisting { return false; }
    if p.source != CONTINUITY || !p.kind.Tproxy? || !p.udp || p.device != "" || p.slot == 0 || p.slot > MAX_PATHS || p.port < 1024
       || (d.network.ipv6.ProxyV6? && !p.ipv6) || (d.network.dns.SelectedDns? && p.dnsPort < 1024) { return false; }
    var found := false;
    for i := 0 to |d.paths|
      invariant forall j :: 0 <= j < i ==> d.paths[j].source != CONTINUITY && d.paths[j].slot != p.slot
      invariant found <==> exists j :: 0 <= j < i && d.paths[j].source == d.selected
    {
      assert Sources(d.paths)[i] == d.paths[i].source && Slots(d.paths)[i] == d.paths[i].slot;
      if d.paths[i].source == CONTINUITY || d.paths[i].slot == p.slot { return false; }
      if d.paths[i].source == d.selected { found := true; }
    }
    assert CONTINUITY !in Sources(d.paths) && p.slot !in Slots(d.paths);
    assert found <==> d.selected in Sources(d.paths) by {
      assert forall j :: 0 <= j < |d.paths| ==> Sources(d.paths)[j] == d.paths[j].source;
    }
    for i := 0 to |d.unavailable|
      invariant forall j :: 0 <= j < i ==> d.unavailable[j] != CONTINUITY
    {
      if d.unavailable[i] == CONTINUITY { return false; }
    }
    return d.selected == "" || found;
  }

  // ----- selective routing

  method CheckDispatcher(d: Desired) returns (ok: bool)
    requires d.selective.Some?
    ensures var s := d.selective.value;
            ok <==>
            && (forall i :: 0 <= i < |AllPaths(d)| ==>
                  && AllPaths(d)[i].source != SELECTIVE && AllPaths(d)[i].slot != s.path.slot
                  && AllPaths(d)[i].port != s.front && AllPaths(d)[i].dnsPort != s.front
                  && (AllPaths(d)[i].source == d.selected && AllPaths(d)[i].kind.Direct? ==> d.continuity.Some?))
            && (d.selected == "" || d.selected in Sources(AllPaths(d)))
  {
    var s := d.selective.value;
    var paths := d.paths;
    if d.continuity.Some? { paths := paths + [d.continuity.value.path]; }
    var selected := d.selected == "";
    for i := 0 to |paths|
      invariant forall j :: 0 <= j < i ==>
                  && paths[j].source != SELECTIVE && paths[j].slot != s.path.slot
                  && paths[j].port != s.front && paths[j].dnsPort != s.front
                  && (paths[j].source == d.selected && paths[j].kind.Direct? ==> d.continuity.Some?)
      invariant selected <==> d.selected == "" || exists j :: 0 <= j < i && paths[j].source == d.selected
    {
      var p := paths[i];
      assert AllPaths(d) == paths && AllPaths(d)[i] == p;
      if p.source == SELECTIVE || p.slot == s.path.slot || p.port == s.front || p.dnsPort == s.front { return false; }
      if p.source == d.selected {
        selected := true;
        if p.kind.Direct? && d.continuity.None? { return false; }
      }
    }
    assert forall j :: 0 <= j < |paths| ==> Sources(paths)[j] == paths[j].source;
    return selected;
  }

  method CheckSelective(d: Desired) returns (ok: bool)
    requires d.selective.Some?
    ensures ok <==> SelectiveOk(d)
  {
    var s := d.selective.value;
    var p := s.path;
    if !d.fallback.ClosedFallback? || d.network.dns.UnknownDns? { return false; }
    if s.fakePool > 1 || p.source != SELECTIVE || !p.kind.Tproxy? || p.slot == 0 || p.slot > MAX_PATHS || p.port < 1024
       || p.device != "" || !p.udp || s.front < 1024 || s.front == p.port || !s.failDirect || !s.Pools() { return false; }
    if !s.Digests() { return false; }
    if d.network.ipv6.ProxyV6? && !p.ipv6 { return false; }
    if d.breakExisting { return false; }
    for i := 0 to |d.network.prefixes|
      invariant forall j :: 0 <= j < i ==> !MeetsPool(d.network.prefixes[j])
    {
      if MeetsPool(d.network.prefixes[i]) { return false; }
    }
    if d.continuity.Some? {
      ok := CheckContinuity(d);
      if !ok { return; }
    }
    ok := CheckDispatcher(d);
  }

  // ----- the compiler

  datatype Plan = Plan(live: Table, guard: Table, routes: seq<Route>)

  /** What the shared checks and the routes see. */
  function Unfolded(d: Desired): Desired {
    if d.selective.Some? then Normalized(d) else Materialized(d)
  }

  /** What acceptance promises of every path, in plain fields: an identity and a slot
      of its own, a device that is none of the router's for a tunnel, listeners that
      nobody shares, and nothing that its kind has no use for. */
  predicate PathPromise(p: Path, d: Desired) {
    && 0 < |p.source| <= 80 && 1 <= p.slot <= 250
    && (p.kind.Interface? ==> p.device != "" && p.device != "lo" && p.device != d.network.wan && p.device !in d.network.lan)
    && (!p.kind.Interface? ==> p.device == "")
    && (if p.kind.Tproxy? then p.port >= 1024 && (p.dnsPort == 0 || p.dnsPort >= 1024) else p.port == 0 && p.dnsPort == 0)
    && (p.kind.PacketEngine? ==> p.udp) && !p.kind.UnknownKind?
  }

  lemma AcceptedMeans(d: Desired)
    requires PlainOk(d)
    ensures forall i :: 0 <= i < |d.paths| ==> PathPromise(d.paths[i], d) && d.paths[i].source !in d.unavailable
    ensures forall i, j :: 0 <= i < j < |d.paths| ==> d.paths[i].slot != d.paths[j].slot && d.paths[i].source != d.paths[j].source
    ensures forall i, j :: 0 <= i < j < |d.paths| && d.paths[i].kind.Tproxy? && d.paths[j].kind.Tproxy? ==> Unheard(d.paths[i], d.paths[j])
    ensures d.selected == "" || exists i :: 0 <= i < |d.paths| && d.paths[i].source == d.selected
    ensures d.fallback.DirectFallback? ==> d.selected != ""
    ensures d.network.wan !in d.network.lan && "lo" !in d.network.lan && 1 <= |d.network.lan| <= 32
  {
    forall i, j | 0 <= i < j < |d.paths| ensures d.paths[i].slot != d.paths[j].slot && d.paths[i].source != d.paths[j].source {
      assert Slots(d.paths)[i] == d.paths[i].slot && Slots(d.paths)[j] == d.paths[j].slot;
      assert Sources(d.paths)[i] == d.paths[i].source && Sources(d.paths)[j] == d.paths[j].source;
    }
    forall i, j | 0 <= i < j < |d.paths| && d.paths[i].kind.Tproxy? && d.paths[j].kind.Tproxy? ensures Unheard(d.paths[i], d.paths[j]) {
      ListenersApart(d.paths, i, j);
    }
    if d.selected != "" {
      var i :| 0 <= i < |Sources(d.paths)| && Sources(d.paths)[i] == d.selected;
      assert d.paths[i].source == d.selected;
    }
  }

  /** What acceptance promises of continuity: a relay that is enabled, public and
      pinned, a closed policy, and a stable endpoint that can carry what it must. */
  lemma AcceptedRelay(d: Desired)
    requires Accepts(d) && d.continuity.Some?
    ensures var c := d.continuity.value;
            && c.enabled && 0 < c.relayPort < 65536 && !Internal(c.relay.family, c.relay.address) && |c.pin| == 64
            && d.fallback.ClosedFallback? && !d.breakExisting
            && c.path.kind.Tproxy? && c.path.udp && c.path.port >= 1024
            && (d.network.ipv6.ProxyV6? ==> c.path.ipv6)
            && forall i :: 0 <= i < |d.paths| ==> d.paths[i].slot != c.path.slot && d.paths[i].source != c.path.source
  {
    var c := d.continuity.value;
    PublicIsOutside(c.relay.family, c.relay.address);
    forall i | 0 <= i < |d.paths| ensures d.paths[i].slot != c.path.slot && d.paths[i].source != c.path.source {
      assert Slots(d.paths)[i] == d.paths[i].slot && Sources(d.paths)[i] == d.paths[i].source;
    }
  }

  /** And of selective routing: no declared prefix holds a synthetic address, the
      dispatcher shares neither slot nor listener, and its content is verified. */
  lemma AcceptedDispatcher(d: Desired)
    requires Accepts(d) && d.selective.Some?
    ensures var s := d.selective.value;
            && d.fallback.ClosedFallback? && !d.breakExisting && s.failDirect
            && s.path.kind.Tproxy? && s.path.udp && s.path.port >= 1024 && s.front >= 1024 && s.front != s.path.port
            && |s.policyHash| == 64 && |s.snapshot| == 64 && s.generation > 0
            && (forall i :: 0 <= i < |d.paths| ==> d.paths[i].slot != s.path.slot && d.paths[i].port != s.front && d.paths[i].dnsPort != s.front)
    ensures forall i, a :: 0 <= i < |d.network.prefixes| && FakePool(d.network.prefixes[i].family).Has(a) ==>
              d.network.prefixes[i].Parsed() && !d.network.prefixes[i].Contains(a)
  {
    forall i, a | 0 <= i < |d.network.prefixes| && FakePool(d.network.prefixes[i].family).Has(a)
      ensures d.network.prefixes[i].Parsed() && !d.network.prefixes[i].Contains(a)
    {
      assert Sound(Normalized(d).network.prefixes[i]);
      PoolApart(d.network.prefixes[i], a);
    }
    assert forall i :: 0 <= i < |d.paths| ==> AllPaths(d)[i] == d.paths[i];
  }

  /** Two transparent paths listen on different ports, for traffic and for DNS. */
  predicate Unheard(p: Path, q: Path) {
    p.port != q.port && p.port != q.dnsPort && p.dnsPort != q.port && (p.dnsPort != 0 ==> p.dnsPort != q.dnsPort)
  }

  lemma OwnPorts(p: Path)
    requires p.kind.Tproxy?
    ensures p.port in Ports(p) && (p.dnsPort != 0 ==> p.dnsPort in Ports(p))
  {
    assert Ports(p)[0] == p.port;
    if p.dnsPort != 0 { assert Ports(p)[1] == p.dnsPort; }
  }

  lemma {:induction false} ListenerAt(paths: seq<Path>, i: nat, x: nat)
    requires i < |paths| && paths[i].kind.Tproxy? && x in Ports(paths[i])
    ensures x in Listeners(paths)
  {
    if i > 0 { ListenerAt(paths[1..], i - 1, x); }
  }

  lemma {:induction false} ListenersApart(paths: seq<Path>, i: nat, j: nat)
    requires i < j < |paths| && paths[i].kind.Tproxy? && paths[j].kind.Tproxy? && Distinct(Listeners(paths))
    requires paths[i].port != 0 && paths[j].port != 0
    ensures Unheard(paths[i], paths[j])
  {
    DistinctParts(Ports(paths[0]), Listeners(paths[1..]));
    if i == 0 {
      OwnPorts(paths[0]);
      OwnPorts(paths[j]);
      ListenerAt(paths[1..], j - 1, paths[j].port);
      if paths[j].dnsPort != 0 { ListenerAt(paths[1..], j - 1, paths[j].dnsPort); }
    } else {
      ListenersApart(paths[1..], i - 1, j - 1);
    }
  }

  lemma DistinctParts<T>(a: seq<T>, b: seq<T>)
    requires Distinct(a + b)
    ensures Distinct(b) && forall x, y :: x in a && y in b ==> x != y
  {
    var s := a + b;
    forall i, j | 0 <= i < j < |b| ensures b[i] != b[j] { assert s[|a| + i] != s[|a| + j]; }
    forall x, y | x in a && y in b ensures x != y {
      var i :| 0 <= i < |a| && a[i] == x;
      var j :| 0 <= j < |b| && b[j] == y;
      assert s[i] != s[|a| + j];
    }
  }

  /** Accepts exactly the sound intents and renders their tables and routes. */
  method Compile(d: Desired) returns (plan: Option<Plan>)
    ensures plan.Some? <==> Accepts(d)
    ensures plan.Some? ==>
              && plan.value.live == (if d.selective.Some? then SelectiveLive(d) else Live(Materialized(d)))
              && plan.value.guard == (if d.selective.Some? then SelectiveGuard() else Guard(Materialized(d)))
              && plan.value.routes == Routes(Unfolded(d).paths, Unfolded(d).network.ipv6)
              && RoutesLaw(plan.value.routes, Unfolded(d).paths, Unfolded(d).network.ipv6)
  {
    var ok, routes, live, guard;
    if d.selective.Some? {
      ok := CheckSelective(d);
      if !ok { return None; }
    } else if d.continuity.Some? {
      ok := CheckContinuity(d);
      if !ok { return None; }
    }
    ok, routes := CompilePlain(Unfolded(d));
    if !ok { return None; }
    RoutesMean(Unfolded(d));
    if d.selective.Some? {
      live := RenderSelective(d);
      guard := SelectiveGuard();
    } else {
      live := Render(Materialized(d), false);
      guard := Render(Materialized(d), true);
    }
    return Some(Plan(live, guard, routes));
  }
}
