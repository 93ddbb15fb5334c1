/** The routing-slot allocator shared by sources, the continuity endpoint and
    dispatchers (internal/adapter: prepare, stop, RestoreAllocations,
    ConfigureNetwork, ReserveContinuity, ReserveDispatcherFor,
    ForgetDispatcherFor). */
module Slots {
  import opened Intent

  const MAX_SLOT: nat := 250

  /** What an owner holds.  Port 0 and device "" stand for none. */
  datatype Place = Place(
    id: string, kind: string, slot: int, port: nat, dnsPort: nat, device: string,
    ipv6: bool, udp: bool, mark: nat, queue: nat)

  /** A place with the settings it was prepared for. */
  datatype Prepared = Prepared(place: Place, settings: string)

  predicate InRange(slot: int) { 1 <= slot <= 250 }

  function SlotMark(slot: nat): nat { 0x4f00_0000 + 0x1_0000 * slot }
  function SlotQueue(slot: nat): nat { 21000 + slot }

  /** Mark and queue follow from the slot. */
  predicate Numbered(p: Place) { InRange(p.slot) && p.mark == SlotMark(p.slot) && p.queue == SlotQueue(p.slot) }

  /** Prepared owners and owners whose recorded slot is kept for them hold
      different slots; a prepared owner may also be a restored one.  The continuity
      endpoint keeps the mark and queue it was recorded with. */
  predicate Exclusive(paths: map<string, Prepared>, restored: map<string, Place>) {
    && (forall a :: a in paths ==> InRange(paths[a].place.slot) && (a != CONTINUITY ==> Numbered(paths[a].place)))
    && (forall a :: a in restored ==> Numbered(restored[a]))
    && (forall a, b :: a in paths && b in paths && a != b ==> paths[a].place.slot != paths[b].place.slot)
    && (forall a, b :: a in restored && b in restored && a != b ==> restored[a].slot != restored[b].slot)
    && (forall a, b :: a in paths && b in restored && a != b ==> paths[a].place.slot != restored[b].slot)
  }

  predicate Taken(paths: map<string, Prepared>, restored: map<string, Place>, slot: int) {
    (exists a :: a in paths && paths[a].place.slot == slot) || (exists a :: a in restored && restored[a].slot == slot)
  }

  /** No slot is left for anybody. */
  ghost predicate Exhausted(paths: map<string, Prepared>, restored: map<string, Place>) {
    forall k :: 1 <= k <= MAX_SLOT ==> Taken(paths, restored, k)
  }

  /** What could be had for an owner besides its slot. */
  datatype Inputs = Inputs(port: nat, dnsPort: nat, device: string, ipv6: bool, udp: bool)

  function PlaceOf(id: string, kind: string, slot: nat, i: Inputs): Place {
    Place(id, kind, slot, i.port, i.dnsPort, i.device, i.ipv6, i.udp, SlotMark(slot), SlotQueue(slot))
  }

  // ----- what may be restored

  /** A source as configured: `engine`: it runs behind local inputs. */
  datatype Source = Source(kind: string, engine: bool, device: string, udp: bool)

  predicate PortOk(port: nat) { 1024 <= port <= 65535 }

  /** The checks on one recorded allocation that do not look at the others. */
  predicate PlaceOk(p: Place, sources: map<string, Source>, ipv6: bool) {
    && p.id in sources && p.kind == sources[p.id].kind && InRange(p.slot)
    && (if sources[p.id].engine then PortOk(p.port) && (p.dnsPort != 0 ==> PortOk(p.dnsPort)) else p.port == 0 && p.dnsPort == 0)
    && p.device == (if p.kind == "interface" then sources[p.id].device else "")
    && (p.mark == 0 || p.mark == SlotMark(p.slot)) && (p.queue == 0 || p.queue == SlotQueue(p.slot))
    && p.ipv6 == ipv6 && p.udp == sources[p.id].udp
  }

  function PortsOf(p: Place): seq<nat> {
    (if p.port == 0 then [] else [p.port]) + (if p.dnsPort == 0 then [] else [p.dnsPort])
  }

  function AllPorts(ps: seq<Place>): seq<nat> {
    if ps == [] then [] else AllPorts(ps[..|ps| - 1]) + PortsOf(ps[|ps| - 1])
  }

  predicate Separate(ps: seq<Place>) {
    && (forall i, j :: 0 <= i < j < |ps| ==> ps[i].id != ps[j].id && ps[i].slot != ps[j].slot)
    && Distinct(AllPorts(ps))
  }

  /** What the restore loop accepts. */
  predicate Recordable(ps: seq<Place>, sources: map<string, Source>, ipv6: bool) {
    (forall i :: 0 <= i < |ps| ==> PlaceOk(ps[i], sources, ipv6)) && Separate(ps)
  }

  function Renumbered(p: Place): Place
    requires p.slot >= 0
  {
    p.(mark := SlotMark(p.slot), queue := SlotQueue(p.slot))
  }

  predicate HasSlot(ps: seq<Place>, s: int) { exists j :: 0 <= j < |ps| && ps[j].slot == s }
  predicate HasId(ps: seq<Place>, a: string) { exists j :: 0 <= j < |ps| && ps[j].id == a }

  lemma HasSnoc(ps: seq<Place>, p: Place, s: int, a: string)
    ensures HasSlot(ps + [p], s) <==> HasSlot(ps, s) || p.slot == s
    ensures HasId(ps + [p], a) <==> HasId(ps, a) || p.id == a
  {
    var longer := ps + [p];
    assert longer[|ps|] == p;
    if HasSlot(ps, s) {
      var j :| 0 <= j < |ps| && ps[j].slot == s;
      assert longer[j].slot == s;
    }
    if HasId(ps, a) {
      var j :| 0 <= j < |ps| && ps[j].id == a;
      assert longer[j].id == a;
    }
  }

  /** The three sets the loop keeps. */
  datatype Seen = Seen(slots: set<int>, ports: set<nat>, kept: map<string, Place>)

  ghost predicate Tracks(seen: Seen, ps: seq<Place>) {
    && (forall s :: s in seen.slots <==> HasSlot(ps, s))
    && (forall x :: x in seen.ports <==> x in AllPorts(ps))
    && (forall a :: a in seen.kept <==> HasId(ps, a))
    && (forall j :: 0 <= j < |ps| ==> Keeps(seen.kept, ps[j]))
  }

  /** The map has the place, with the mark and queue of its slot. */
  predicate Keeps(kept: map<string, Place>, p: Place) {
    p.id in kept && p.slot >= 0 && kept[p.id] == Renumbered(p)
  }

  lemma PortsSnoc(s: seq<nat>, p: Place)
    ensures Distinct(s + PortsOf(p)) <==>
            && Distinct(s) && (p.port != 0 ==> p.port !in s)
            && (p.dnsPort != 0 ==> p.dnsPort !in s && (p.port != 0 ==> p.dnsPort != p.port))
  {
    var one := if p.port == 0 then s else s + [p.port];
    DistinctSnoc(s, p.port);
    DistinctSnoc(one, p.dnsPort);
    assert s + PortsOf(p) == if p.dnsPort == 0 then one else one + [p.dnsPort];
  }

  /** One more allocation is accepted if nothing of it was seen. */
  predicate Unseen(ps: seq<Place>, p: Place) {
    && !HasId(ps, p.id) && !HasSlot(ps, p.slot)
    && (p.port != 0 ==> p.port !in AllPorts(ps))
    && (p.dnsPort != 0 ==> p.dnsPort !in AllPorts(ps) && (p.port != 0 ==> p.dnsPort != p.port))
  }

  lemma SeparateSnoc(ps: seq<Place>, p: Place)
    ensures Separate(ps + [p]) <==> Separate(ps) && Unseen(ps, p)
  {
    var longer := ps + [p];
    assert longer[..|ps|] == ps;
    PortsSnoc(AllPorts(ps), p);
    assert forall i :: 0 <= i < |ps| ==> longer[i] == ps[i];
    assert longer[|ps|] == p;
  }

  lemma {:induction false} SeparatePrefix(ps: seq<Place>, n: nat)
    requires n <= |ps|
    ensures Separate(ps) ==> Separate(ps[..n])
    decreases |ps|
  {
    if n == |ps| {
      assert ps[..n] == ps;
    } else {
      var front := ps[..|ps| - 1];
      assert ps == front + [ps[|ps| - 1]];
      SeparateSnoc(front, ps[|ps| - 1]);
      SeparatePrefix(front, n);
      assert front[..n] == ps[..n];
    }
  }

  lemma TracksSnoc(seen: Seen, ps: seq<Place>, p: Place)
    requires Tracks(seen, ps) && p.slot >= 0 && p.id !in seen.kept
    ensures Tracks(Seen(seen.slots + {p.slot}, seen.ports + (set x | x in PortsOf(p)), seen.kept[p.id := Renumbered(p)]), ps + [p])
  {
    var longer := ps + [p];
    assert longer[..|ps|] == ps && longer[|ps|] == p;
    assert AllPorts(longer) == AllPorts(ps) + PortsOf(p);
    forall s: int ensures HasSlot(longer, s) <==> HasSlot(ps, s) || p.slot == s { HasSnoc(ps, p, s, p.id); }
    forall a: string ensures HasId(longer, a) <==> HasId(ps, a) || p.id == a { HasSnoc(ps, p, p.slot, a); }
    KeptSnoc(seen, ps, p);
  }

  lemma KeptSnoc(seen: Seen, ps: seq<Place>, p: Place)
    requires Tracks(seen, ps) && p.slot >= 0 && p.id !in seen.kept
    ensures forall j :: 0 <= j < |ps + [p]| ==> Keeps(seen.kept[p.id := Renumbered(p)], (ps + [p])[j])
  {
    forall j | 0 <= j < |ps + [p]| ensures Keeps(seen.kept[p.id := Renumbered(p)], (ps + [p])[j]) {
      if j < |ps| { assert (ps + [p])[j] == ps[j] && Keeps(seen.kept, ps[j]); }
    }
  }

  lemma RecordableStep(ps: seq<Place>, i: nat, sources: map<string, Source>, ipv6: bool)
    requires i < |ps| && Recordable(ps[..i], sources, ipv6)
    ensures ps[..i + 1] == ps[..i] + [ps[i]]
    ensures Recordable(ps[..i + 1], sources, ipv6) <==> PlaceOk(ps[i], sources, ipv6) && Unseen(ps[..i], ps[i])
    ensures Recordable(ps, sources, ipv6) ==> Recordable(ps[..i + 1], sources, ipv6)
  {
    var longer := ps[..i + 1];
    assert longer == ps[..i] + [ps[i]];
    assert forall j :: 0 <= j < i ==> longer[j] == ps[..i][j] == ps[j];
    assert longer[i] == ps[i];
    SeparateSnoc(ps[..i], ps[i]);
    SeparatePrefix(ps, i + 1);
  }

  lemma KeptAt(seen: Seen, ps: seq<Place>, a: string) returns (i: nat)
    requires Tracks(seen, ps) && a in seen.kept
    ensures i < |ps| && ps[i].id == a && ps[i].slot >= 0 && seen.kept[a] == Renumbered(ps[i])
  {
    var j :| 0 <= j < |ps| && ps[j].id == a;
    assert Keeps(seen.kept, ps[j]);
    i := j;
  }

  lemma KeptExclusive(seen: Seen, ps: seq<Place>, sources: map<string, Source>, ipv6: bool)
    requires Tracks(seen, ps) && Recordable(ps, sources, ipv6)
    ensures Exclusive(map[], seen.kept)
  {
    forall a | a in seen.kept ensures Numbered(seen.kept[a]) {
      var i := KeptAt(seen, ps, a);
      assert PlaceOk(ps[i], sources, ipv6);
    }
    forall a, b | a in seen.kept && b in seen.kept && a != b ensures seen.kept[a].slot != seen.kept[b].slot {
      var i := KeptAt(seen, ps, a);
      var j := KeptAt(seen, ps, b);
    }
  }

  // ----- the allocator

  class Allocator {
    var paths: map<string, Prepared>
    var restored: map<string, Place>
    var resolver: string
    var ipv6: bool

    ghost predicate Valid()
      reads this
    {
      Exclusive(paths, restored)
    }

    constructor (resolver: string, ipv6: bool)
      ensures Valid() && paths == map[] && restored == map[] && this.resolver == resolver && this.ipv6 == ipv6
    {
      paths, restored := map[], map[];
      this.resolver, this.ipv6 := resolver, ipv6;
    }

    /** The slots in use, gathered in two loops; a source's own recorded slot may
        be left out. */
    method Gather(skip: Option<string>) returns (used: set<int>)
      ensures forall s :: s in used <==>
                || (exists a :: a in paths && paths[a].place.slot == s)
                || (exists a :: a in restored && skip != Some(a) && restored[a].slot == s)
    {
      used := {};
      var left := paths.Keys;
      while left != {}
        invariant left <= paths.Keys
        invariant forall s :: s in used <==> exists a :: a in paths && a !in left && paths[a].place.slot == s
        decreases left
      {
        var a :| a in left;
        used := used + {paths[a].place.slot};
        left := left - {a};
      }
      ghost var held := used;
      left := restored.Keys;
      while left != {}
        invariant left <= restored.Keys
        invariant forall s :: s in used <==> s in held || exists a :: a in restored && a !in left && skip != Some(a) && restored[a].slot == s
        decreases left
      {
        var a :| a in left;
        if skip != Some(a) { used := used + {restored[a].slot}; }
        left := left - {a};
      }
    }

    /** The lowest free slot, possibly one past the last. */
    static method SearchUp(used: set<int>) returns (slot: nat)
      requires forall k :: k in used ==> InRange(k)
      ensures 1 <= slot <= MAX_SLOT + 1 && slot !in used
      ensures forall k :: 1 <= k < slot ==> k in used
    {
      slot := 1;
      while slot in used
        invariant 1 <= slot <= MAX_SLOT + 1
        invariant forall k :: 1 <= k < slot ==> k in used
        decreases MAX_SLOT + 1 - slot
      {
        slot := slot + 1;
      }
    }

    /** The highest free slot, 0 for none. */
    static method SearchDown(used: set<int>) returns (slot: nat)
      ensures slot <= MAX_SLOT && (slot > 0 ==> slot !in used)
      ensures forall k :: slot < k <= MAX_SLOT ==> k in used
    {
      slot := MAX_SLOT;
      while slot > 0 && slot in used
        invariant slot <= MAX_SLOT
        invariant forall k :: slot < k <= MAX_SLOT ==> k in used
      {
        slot := slot - 1;
      }
    }

    /** A source that is already prepared is left alone, and refused when its
        settings changed.  Another gets its recorded slot if it has one, else the
        lowest free one.  `inputs`: the listeners, files and probes it needs, None
        when they could not be had. */
    method Prepare(id: string, kind: string, settings: string, inputs: Option<Inputs>) returns (ok: bool)
      requires Valid()
      modifies this`paths
      ensures Valid()
      ensures id in old(paths) ==> paths == old(paths) && (ok <==> paths[id].place.kind == kind && paths[id].settings == settings)
      ensures ok && id !in old(paths) ==>
                && inputs.Some? && id in paths && paths[id].place.slot >= 0
                && paths == old(paths)[id := Prepared(PlaceOf(id, kind, paths[id].place.slot, inputs.value), settings)]
      ensures ok && id !in old(paths) && id in restored ==> paths[id].place.slot == restored[id].slot
      ensures ok && id !in old(paths) && id !in restored ==>
                && !Taken(old(paths), restored, paths[id].place.slot)
                && forall k :: 1 <= k < paths[id].place.slot ==> Taken(old(paths), restored, k)
      ensures !ok ==> paths == old(paths)
      ensures !ok && id !in paths && inputs.Some? ==> id !in restored && Exhausted(paths, restored)
    {
      if id in paths { return paths[id].place.kind == kind && paths[id].settings == settings; }
      var used := Gather(Some(id));
      assert forall k :: k in used ==> Taken(paths, restored, k);
      var slot := SearchUp(used);
      if id in restored { slot := restored[id].slot; }
      if slot > MAX_SLOT || inputs.None? { return false; }
      paths := paths[id := Prepared(PlaceOf(id, kind, slot, inputs.value), settings)];
      return true;
    }

    method Stop(id: string)
      requires Valid()
      modifies this`paths, this`restored
      ensures Valid() && paths == old(paths) - {id} && restored == old(restored) - {id}
    {
      if id in paths { paths := paths - {id}; }
      restored := restored - {id};
    }

    /** Continuity endpoint or dispatcher: the recorded slot exactly, or the
        highest free one.  `wanted` is not renumbered when it is taken. */
    method Reserve(key: string, id: string, kind: string, wanted: Option<int>, inputs: Option<Inputs>) returns (ok: bool)
      requires Valid()
      modifies this`paths
      ensures Valid()
      ensures ok ==>
                && key !in old(paths) && key in paths && inputs.Some? && paths[key].place.slot >= 0
                && paths == old(paths)[key := Prepared(PlaceOf(id, kind, paths[key].place.slot, inputs.value), "")]
                && !Taken(old(paths), restored, paths[key].place.slot)
      ensures ok && wanted.Some? ==> paths[key].place.slot == wanted.value
      ensures ok && wanted.None? ==> forall k :: paths[key].place.slot < k <= MAX_SLOT ==> Taken(old(paths), restored, k)
      ensures !ok ==> paths == old(paths)
      ensures !ok && inputs.Some? && key !in paths ==>
                if wanted.Some? then !InRange(wanted.value) || Taken(paths, restored, wanted.value) else Exhausted(paths, restored)
    {
      if key in paths { return false; }
      var used := Gather(None);
      assert forall k :: k in used ==> Taken(paths, restored, k);
      var slot: int := SearchDown(used);
      if wanted.Some? { slot := wanted.value; }
      if slot < 1 || slot > MAX_SLOT || slot in used || inputs.None? { return false; }
      paths := paths[key := Prepared(PlaceOf(id, kind, slot, inputs.value), "")];
      return true;
    }

    /** The continuity endpoint keeps what it has as long as it is asked for the
        same again; a recorded place must be its own to be restored, and is then
        taken as it is, mark and queue unchecked.  `inputs` has the ports of the
        recorded place, or new ones. */
    method ReserveContinuity(recorded: Option<Place>, ipv6: bool, dns: bool, inputs: Option<Inputs>) returns (ok: bool)
      requires Valid()
      requires inputs.Some? ==> inputs.value.ipv6 == ipv6 && inputs.value.udp && inputs.value.device == "" && (inputs.value.dnsPort != 0 <==> dns)
      requires inputs.Some? && recorded.Some? ==> inputs.value.port == recorded.value.port && (dns ==> inputs.value.dnsPort == recorded.value.dnsPort)
      modifies this`paths
      ensures Valid()
      ensures CONTINUITY in old(paths) ==>
                && paths == old(paths)
                && (ok <==> var had := paths[CONTINUITY].place;
                            && (recorded.Some? ==> had == recorded.value)
                            && had.kind == "continuity" && had.ipv6 == ipv6 && (had.dnsPort != 0 <==> dns))
      ensures ok ==> CONTINUITY in paths && (recorded.Some? ==> paths[CONTINUITY].place.slot == recorded.value.slot)
      ensures ok && CONTINUITY !in old(paths) && recorded.Some? ==>
                OwnContinuity(recorded.value, ipv6, dns) && paths[CONTINUITY].place == recorded.value
      ensures ok && CONTINUITY !in old(paths) ==>
                (Numbered(paths[CONTINUITY].place) <==> recorded.Some? ==> Numbered(recorded.value))
      ensures forall a :: a != CONTINUITY ==> (a in paths <==> a in old(paths)) && (a in paths ==> paths[a] == old(paths)[a])
    {
      if CONTINUITY in paths {
        var had := paths[CONTINUITY].place;
        return (recorded.Some? ==> had == recorded.value) && had.kind == "continuity" && had.ipv6 == ipv6 && (had.dnsPort != 0 <==> dns);
      }
      if recorded.Some? && !OwnContinuity(recorded.value, ipv6, dns) { return false; }
      ok := Reserve(CONTINUITY, CONTINUITY, "continuity", if recorded.Some? then Some(recorded.value.slot) else None, inputs);
      if ok && recorded.Some? { paths := paths[CONTINUITY := Prepared(recorded.value, "")]; }
    }

    method ForgetDispatcher(key: string)
      requires Valid()
      modifies this`paths
      ensures Valid() && paths == old(paths) - {key}
    {
      paths := paths - {key};
    }

    /** One turn of the restore loop. */
    static method RecordOne(p: Place, sources: map<string, Source>, ipv6: bool, seen: Seen, ghost done: seq<Place>) returns (ok: bool, next: Seen)
      requires Tracks(seen, done)
      ensures ok <==> PlaceOk(p, sources, ipv6) && Unseen(done, p)
      ensures ok ==> Tracks(next, done + [p])
    {
      next := seen;
      var good := CheckPlace(p, sources, ipv6);
      if !good || p.slot in seen.slots || p.id in seen.kept { return false, next; }
      if p.port != 0 && p.port in seen.ports { return false, next; }
      if p.dnsPort != 0 && (p.dnsPort in seen.ports || p.dnsPort == p.port) { return false, next; }
      TracksSnoc(seen, done, p);
      next := Seen(seen.slots + {p.slot}, seen.ports + (set x | x in PortsOf(p)), seen.kept[p.id := Renumbered(p)]);
      return true, next;
    }

    static method CheckPlace(p: Place, sources: map<string, Source>, ipv6: bool) returns (ok: bool)
      ensures ok <==> PlaceOk(p, sources, ipv6)
    {
      if p.id !in sources || p.kind != sources[p.id].kind || p.slot < 1 || p.slot > MAX_SLOT { return false; }
      var engine := sources[p.id].engine;
      if engine && (!PortOk(p.port) || (p.dnsPort != 0 && !PortOk(p.dnsPort))) { return false; }
      if !engine && (p.port != 0 || p.dnsPort != 0) { return false; }
      if p.device != (if p.kind == "interface" then sources[p.id].device else "") { return false; }
      if (p.mark != 0 && p.mark != SlotMark(p.slot)) || (p.queue != 0 && p.queue != SlotQueue(p.slot)) { return false; }
      return p.ipv6 == ipv6 && p.udp == sources[p.id].udp;
    }

    /** The recorded places of the confirmed sources, checked one by one. */
    static method Record(ps: seq<Place>, sources: map<string, Source>, ipv6: bool) returns (ok: bool, kept: map<string, Place>)
      ensures ok <==> Recordable(ps, sources, ipv6)
      ensures ok ==> Exclusive(map[], kept) && forall a :: a in kept <==> HasId(ps, a)
      ensures ok ==> forall i :: 0 <= i < |ps| ==> Keeps(kept, ps[i])
    {
      var seen := Seen({}, {}, map[]);
      kept := map[];
      for i := 0 to |ps|
        invariant Recordable(ps[..i], sources, ipv6) && Tracks(seen, ps[..i])
      {
        RecordableStep(ps, i, sources, ipv6);
        ok, seen := RecordOne(ps[i], sources, ipv6, seen, ps[..i]);
        if !ok { return false, kept; }
      }
      assert ps[..|ps|] == ps;
      KeptExclusive(seen, ps, sources, ipv6);
      return true, seen.kept;
    }

    /** Recorded places can be restored only before anything is prepared; they are
        then prepared in order.  When the inputs of one cannot be had, everything
        prepared so far is dropped. */
    method Restore(sources: map<string, Source>, settings: map<string, string>, ps: seq<Place>, ready: seq<bool>) returns (ok: bool)
      requires Valid() && |ready| == |ps| && (forall a :: a in sources ==> a in settings)
      modifies this`paths, this`restored
      ensures Valid()
      ensures ok ==> old(paths) == map[] && Recordable(ps, sources, ipv6)
      ensures ok ==> forall i :: 0 <= i < |ps| ==> Holds(paths, ps[i])
      ensures old(paths) == map[] && Recordable(ps, sources, ipv6) && (forall i :: 0 <= i < |ready| ==> ready[i]) ==> ok
      ensures !ok ==> (paths, restored) == (old(paths), old(restored)) || paths == map[]
    {
      var good, kept := Record(ps, sources, ipv6);
      if !good || paths != map[] { return false; }
      restored := kept;
      forall i | 0 <= i < |ps| ensures Restorable(ps, i, settings.Keys, restored) { RestorableAt(ps, i, sources, settings.Keys, ipv6, restored); }
      ok := PrepareAll(settings, ps, ready);
    }

    /** Every recorded source is prepared in its own place, or none is. */
    method PrepareAll(settings: map<string, string>, ps: seq<Place>, ready: seq<bool>) returns (ok: bool)
      requires Valid() && |ready| == |ps| && paths == map[]
      requires forall i :: 0 <= i < |ps| ==> Restorable(ps, i, settings.Keys, restored)
      modifies this`paths
      ensures Valid() && (!ok ==> paths == map[])
      ensures ok ==> forall i :: 0 <= i < |ps| ==> Holds(paths, ps[i])
      ensures (forall i :: 0 <= i < |ready| ==> ready[i]) ==> ok
    {
      for i := 0 to |ps|
        invariant Valid() && PreparedTo(paths, ps, i)
      {
        assert Restorable(ps, i, settings.Keys, restored);
        ok := PrepareNext(settings[ps[i].id], ps, i, ready[i]);
        if !ok {
          Clear();
          return;
        }
      }
      return true;
    }

    method PrepareNext(settings: string, ps: seq<Place>, i: nat, ready: bool) returns (ok: bool)
      requires Valid() && i < |ps| && PreparedTo(paths, ps, i)
      requires !HasId(ps[..i], ps[i].id) && Keeps(restored, ps[i]) && InRange(ps[i].slot)
      modifies this`paths
      ensures Valid() && (ok <==> ready) && (ok ==> PreparedTo(paths, ps, i + 1))
    {
      ghost var before := paths;
      ok := RestoreOne(ps[i], settings, ready);
      if ok { RestoredStep(before, paths, ps, i); }
    }

    /** Nothing is prepared any more. */
    method Clear()
      requires Valid()
      modifies this`paths
      ensures Valid() && paths == map[]
    {
      paths := map[];
    }

    method RestoreOne(p: Place, settings: string, ready: bool) returns (ok: bool)
      requires Valid() && Keeps(restored, p) && p.id !in paths && InRange(p.slot)
      modifies this`paths
      ensures Valid() && (ok <==> ready)
      ensures paths == if ok then old(paths)[p.id := Prepared(Renumbered(p), settings)] else old(paths)
    {
      ok := Prepare(p.id, p.kind, settings, if ready then Some(Inputs(p.port, p.dnsPort, p.device, p.ipv6, p.udp)) else None);
    }

    /** New input requirements: nothing happens when they are the old ones; else
        everything prepared is stopped and nothing is kept for anybody.  A stop may
        fail after it has freed its slot, and then the rest is left as it is. */
    method Configure(resolver: string, ipv6: bool) returns (ok: bool)
      requires Valid()
      modifies this
      ensures Valid()
      ensures old(this.resolver) == resolver && old(this.ipv6) == ipv6 ==> ok && paths == old(paths) && restored == old(restored)
      ensures ok && !(old(this.resolver) == resolver && old(this.ipv6) == ipv6) ==> paths == map[] && restored == map[]
      ensures ok ==> this.resolver == resolver && this.ipv6 == ipv6
      ensures !ok ==> paths.Keys < old(paths).Keys && this.resolver == old(this.resolver) && this.ipv6 == old(this.ipv6)
      ensures forall a :: a in paths ==> a in old(paths) && paths[a] == old(paths)[a]
    {
      if this.resolver == resolver && this.ipv6 == ipv6 { return true; }
      var left := paths.Keys;
      while left != {}
        invariant Valid() && paths.Keys == left && left <= old(paths).Keys
        invariant this.resolver == old(this.resolver) && this.ipv6 == old(this.ipv6)
        invariant forall a :: a in paths ==> a in old(paths) && paths[a] == old(paths)[a]
        decreases left
      {
        var id :| id in left;
        Stop(id);
        left := left - {id};
        var failed: bool := *;
        if failed { return false; }
      }
      this.resolver, this.ipv6, restored := resolver, ipv6, map[];
      return true;
    }
  }

  /** The owner of a recorded place holds it. */
  predicate Holds(paths: map<string, Prepared>, p: Place) {
    p.id in paths && p.slot >= 0 && paths[p.id].place == Renumbered(p)
  }

  /** A known source's place, kept for it, that no earlier one shares. */
  predicate Restorable(ps: seq<Place>, i: nat, known: set<string>, restored: map<string, Place>)
    requires i < |ps|
  {
    !HasId(ps[..i], ps[i].id) && ps[i].id in known && Keeps(restored, ps[i]) && InRange(ps[i].slot)
  }

  lemma RestorableAt(ps: seq<Place>, i: nat, sources: map<string, Source>, known: set<string>, ipv6: bool, restored: map<string, Place>)
    requires i < |ps| && Recordable(ps, sources, ipv6) && sources.Keys <= known && Keeps(restored, ps[i])
    ensures Restorable(ps, i, known, restored)
  {
    assert PlaceOk(ps[i], sources, ipv6);
    forall j | 0 <= j < i ensures ps[..i][j].id != ps[i].id {
    }
  }

  /** The first n places are prepared, and nothing else is. */
  ghost predicate PreparedTo(paths: map<string, Prepared>, ps: seq<Place>, n: nat)
    requires n <= |ps|
  {
    (forall a :: a in paths ==> HasId(ps[..n], a)) && forall j :: 0 <= j < n ==> Holds(paths, ps[j])
  }

  lemma RestoredStep(before: map<string, Prepared>, after: map<string, Prepared>, ps: seq<Place>, i: nat)
    requires i < |ps| && ps[i].slot >= 0 && ps[i].id !in before && ps[i].id in after
    requires after == before[ps[i].id := after[ps[i].id]] && after[ps[i].id].place == Renumbered(ps[i])
    requires PreparedTo(before, ps, i)
    ensures PreparedTo(after, ps, i + 1)
  {
    assert ps[..i + 1] == ps[..i] + [ps[i]];
    forall a | a in after ensures HasId(ps[..i + 1], a) {
      HasSnoc(ps[..i], ps[i], 0, a);
    }
    forall j | 0 <= j < i + 1 ensures Holds(after, ps[j]) {
      if j < i { assert Holds(before, ps[j]); }
    }
  }

  /** A recorded place that the continuity endpoint may take again. */
  predicate OwnContinuity(p: Place, ipv6: bool, dns: bool) {
    && p.id == CONTINUITY && p.kind == "continuity" && p.ipv6 == ipv6 && p.udp
    && p.port >= 1024 && (p.dnsPort != 0 <==> dns)
  }
}
