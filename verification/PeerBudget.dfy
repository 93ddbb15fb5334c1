/** The shared budgets of a continuity peer (internal/continuity/peer.go): four
    byte pools charged by flows, by segments that several holders may share, and
    by reads in progress; and one control budget charged by flows, carriers and
    queued frames.  Segments, flows and carriers are named by handles. */
module PeerBudget {
  import opened Sums
  import opened DatagramWindow
  import StreamFlow

  const SEGMENT_OVERHEAD: nat := StreamFlow.SEGMENT_OVERHEAD
  const FLOW_OVERHEAD: nat := 2048
  const CONTROL_OVERHEAD: nat := 96
  const CARRIER_BYTES: nat := 4096
  const FLOW_RECORD: nat := 128
  const CONTROL_SLOTS: nat := 16
  const DATA_SLOTS: nat := 32

  datatype Limits = Limits(buffer: nat, udpReserve: nat, flow: nat, control: nat, maxTCP: nat, maxUDP: nat)

  /** A direction (receive or send) and a class (TCP or UDP). */
  datatype Pool = Pool(send: bool, udp: bool)

  function Share(l: Limits, p: Pool): nat {
    if p.udp then l.udpReserve / 2
    else if l.buffer < l.udpReserve then 0 else (l.buffer - l.udpReserve) / 2
  }

  datatype Segment = Segment(cost: nat, pool: Pool, owned: bool, refs: nat, home: nat)

  /** A frame on a carrier; it may pin a segment. */
  datatype Queued = Plain(cost: nat) | Pinning(cost: nat, seg: nat)

  datatype Carrier = Carrier(closed: bool, exited: bool, control: seq<Queued>, data: seq<Queued>, hand: seq<Queued>)

  const IDLE := Carrier(false, false, [], [], [])

  datatype Flow = Flow(udp: bool, pending: seq<nat>, recv: set<nat>, ready: seq<nat>) {
    predicate Lists(sid: nat) { sid in pending || sid in recv || sid in ready }
  }

  datatype Read = Read(udp: bool, cost: nat)

  // ----- what each object is charged

  function OfSegment(p: Pool): Segment -> int { (s: Segment) => if s.pool == p then s.cost else 0 }
  function OfFlow(p: Pool): Flow -> int { (f: Flow) => if p == Pool(false, f.udp) then FLOW_OVERHEAD else 0 }
  function OfRead(p: Pool): Read -> int { (r: Read) => if p == Pool(true, r.udp) then r.cost else 0 }

  function CostOf(qs: seq<Queued>): nat {
    if qs == [] then 0 else qs[0].cost + CostOf(qs[1..])
  }

  function Pins(qs: seq<Queued>, sid: nat): nat {
    if qs == [] then 0 else (if qs[0].Pinning? && qs[0].seg == sid then 1 else 0) + Pins(qs[1..], sid)
  }

  lemma {:induction false} Append(a: seq<Queued>, q: Queued, sid: nat)
    ensures CostOf(a + [q]) == CostOf(a) + q.cost
    ensures Pins(a + [q], sid) == Pins(a, sid) + Pins([q], sid)
  {
    if a == [] {
      assert a + [q] == [q];
    } else {
      assert (a + [q])[1..] == a[1..] + [q];
      Append(a[1..], q, sid);
    }
  }

  lemma One(qs: seq<Queued>, sid: nat)
    requires |qs| == 1
    ensures CostOf(qs) == qs[0].cost
    ensures Pins(qs, sid) == if qs[0].Pinning? && qs[0].seg == sid then 1 else 0
  {
    assert qs[1..] == [];
  }

  function CarrierCharge(): Carrier -> int {
    (c: Carrier) => if c.exited then 0 else CARRIER_BYTES + CostOf(c.control) + CostOf(c.data) + CostOf(c.hand)
  }

  function CarrierPins(sid: nat): Carrier -> int {
    (c: Carrier) => Pins(c.control, sid) + Pins(c.data, sid) + Pins(c.hand, sid)
  }

  function WriterPins(sid: nat): nat -> int { (held: nat) => if held == sid then 1 else 0 }

  // ----- the books

  /** What the four pools are charged for. */
  datatype Ledger = Ledger(used: map<Pool, int>, segs: map<nat, Segment>, flows: map<nat, Flow>, inflight: map<nat, Read>)

  ghost function Charged(b: Ledger, p: Pool): int {
    Total(b.segs, OfSegment(p)) + Total(b.flows, OfFlow(p)) + Total(b.inflight, OfRead(p))
  }

  /** A pool counter is the sum of what its holders cost, within its share. */
  ghost predicate Balanced(b: Ledger, p: Pool, l: Limits) {
    p in b.used && b.used[p] == Charged(b, p) && b.used[p] <= Share(l, p)
  }

  predicate HasRoom(used: map<Pool, int>, l: Limits, p: Pool, n: nat) {
    p in used && used[p] + n <= Share(l, p)
  }

  /** When one more flow of a class is taken on. */
  predicate MayMake(flows: map<nat, Flow>, closing: set<nat>, control: int, used: map<Pool, int>, l: Limits, udp: bool) {
    && |set f | f in flows && flows[f].udp == udp| < (if udp then l.maxUDP else l.maxTCP)
    && |flows| + |closing| < l.maxTCP + l.maxUDP && control + FLOW_RECORD <= l.control
    && HasRoom(used, l, Pool(false, udp), FLOW_OVERHEAD)
  }

  ghost predicate BufferOk(b: Ledger, l: Limits) {
    forall p: Pool {:trigger Balanced(b, p, l)} :: Balanced(b, p, l)
  }

  function Refs(segs: map<nat, Segment>, sid: nat): nat {
    if sid in segs then segs[sid].refs else 0
  }

  /** The reference count of a segment is the number of frames and writers that
      hold it. */
  ghost predicate Counted(segs: map<nat, Segment>, carriers: map<nat, Carrier>, writers: map<nat, nat>, sid: nat) {
    Refs(segs, sid) == Total(carriers, CarrierPins(sid)) + Total(writers, WriterPins(sid))
  }

  ghost predicate RefsOk(segs: map<nat, Segment>, carriers: map<nat, Carrier>, writers: map<nat, nat>) {
    forall sid: nat {:trigger Counted(segs, carriers, writers, sid)} :: Counted(segs, carriers, writers, sid)
  }

  /** A segment nobody holds and no flow owns has been paid back. */
  predicate Settled(s: Segment) {
    !s.owned && s.refs == 0 ==> s.cost == 0
  }

  ghost predicate SettledOk(segs: map<nat, Segment>) {
    forall sid {:trigger Settled(segs[sid])} :: sid in segs ==> Settled(segs[sid])
  }

  ghost predicate ControlOk(control: int, flows: map<nat, Flow>, closing: set<nat>, carriers: map<nat, Carrier>, l: Limits) {
    && control == FLOW_RECORD * |flows| + FLOW_RECORD * |closing| + Total(carriers, CarrierCharge())
    && control <= l.control
  }

  ghost predicate Home(segs: map<nat, Segment>, flows: map<nat, Flow>, sid: nat)
    requires sid in segs
  {
    segs[sid].owned ==> segs[sid].home in flows && flows[segs[sid].home].Lists(sid)
  }

  /** An owned segment is on a list of its flow. */
  ghost predicate OwnedOk(segs: map<nat, Segment>, flows: map<nat, Flow>) {
    forall sid {:trigger Home(segs, flows, sid)} :: sid in segs ==> Home(segs, flows, sid)
  }

  ghost predicate Listed(segs: map<nat, Segment>, flows: map<nat, Flow>, id: nat)
    requires id in flows
  {
    forall sid :: flows[id].Lists(sid) ==> sid in segs && segs[sid].home == id
  }

  ghost predicate AllListed(segs: map<nat, Segment>, flows: map<nat, Flow>) {
    forall id {:trigger Listed(segs, flows, id)} :: id in flows ==> Listed(segs, flows, id)
  }

  /** How identities are spent: below the gateway's counter, or held by the
      relay's duplicate filter. */
  datatype Names = Gateway(last: nat) | Relay(seen: Seen) {
    predicate Spent(id: nat) {
      match this
      case Gateway(last) => id <= last
      case Relay(seen) => seen.Contains(id)
    }
  }

  ghost predicate IdsOk(names: Names, flows: set<nat>, closing: set<nat>, inflight: set<nat>, writers: set<nat>) {
    && flows !! closing
    && (forall id {:trigger names.Spent(id)} :: id in flows || id in closing || id in inflight || id in writers ==> names.Spent(id))
  }

  predicate Tidy(c: Carrier) {
    && |c.hand| <= 1
    && (c.exited ==> c.closed && c.control == [] && c.data == [] && c.hand == [])
  }

  predicate CarrierOk(carriers: map<nat, Carrier>, cid: nat, next: nat)
    requires cid in carriers
  {
    cid < next && Tidy(carriers[cid])
  }

  ghost predicate CarriersOk(carriers: map<nat, Carrier>, next: nat) {
    forall cid {:trigger CarrierOk(carriers, cid, next)} :: cid in carriers ==> CarrierOk(carriers, cid, next)
  }

  ghost predicate Below(ids: set<nat>, next: nat) {
    forall id :: id in ids ==> id < next
  }

  /** The segment in an endpoint writer's hand heads its flow's ready queue, and
      a read in progress was reserved for the class of its flow. */
  predicate Working(inflight: map<nat, Read>, writers: map<nat, nat>, flows: map<nat, Flow>, id: nat)
    requires id in flows
  {
    && (id in writers ==> flows[id].ready != [] && flows[id].ready[0] == writers[id])
    && (id in inflight ==> inflight[id].udp == flows[id].udp)
  }

  ghost predicate WorkersOk(inflight: map<nat, Read>, writers: map<nat, nat>, flows: map<nat, Flow>) {
    forall id {:trigger Working(inflight, writers, flows, id)} :: id in flows ==> Working(inflight, writers, flows, id)
  }

  /** Workers of other flows are not concerned by a change at one flow. */
  lemma WorkersKept(inflight: map<nat, Read>, writers: map<nat, nat>, flows: map<nat, Flow>,
                    inflight': map<nat, Read>, writers': map<nat, nat>, flows': map<nat, Flow>, id: nat)
    requires WorkersOk(inflight, writers, flows)
    requires id in flows' ==> Working(inflight', writers', flows', id)
    requires forall i :: i in flows' && i != id ==> i in flows && flows'[i] == flows[i]
    requires forall i :: i in inflight' && i != id ==> i in inflight && inflight'[i] == inflight[i]
    requires forall i :: i in writers' && i != id ==> i in writers && writers'[i] == writers[i]
    ensures WorkersOk(inflight', writers', flows')
  {
    forall i | i in flows' ensures Working(inflight', writers', flows', i) {
      if i != id { assert Working(inflight, writers, flows, i); }
    }
  }

  // ----- the books stay balanced: one lemma for each kind of change

  /** A segment's own charge moves by the same amount as its pool counter. */
  lemma SegmentChanged(b: Ledger, l: Limits, sid: nat, s: Segment)
    requires BufferOk(b, l) && sid in b.segs && s.pool == b.segs[sid].pool && s.cost <= b.segs[sid].cost
    ensures s.pool in b.used
    ensures BufferOk(b.(segs := b.segs[sid := s], used := b.used[s.pool := b.used[s.pool] - b.segs[sid].cost + s.cost]), l)
  {
    assert Balanced(b, s.pool, l);
    var b' := b.(segs := b.segs[sid := s], used := b.used[s.pool := b.used[s.pool] - b.segs[sid].cost + s.cost]);
    forall p: Pool ensures Balanced(b', p, l) {
      assert Balanced(b, p, l);
      Update(b.segs, OfSegment(p), sid, s);
    }
  }

  lemma SegmentKept(b: Ledger, l: Limits, sid: nat, s: Segment)
    requires BufferOk(b, l) && sid in b.segs && s.pool == b.segs[sid].pool && s.cost == b.segs[sid].cost
    ensures BufferOk(b.(segs := b.segs[sid := s]), l)
  {
    var b' := b.(segs := b.segs[sid := s]);
    forall p: Pool ensures Balanced(b', p, l) {
      assert Balanced(b, p, l);
      Update(b.segs, OfSegment(p), sid, s);
    }
  }

  lemma SegmentAdded(b: Ledger, l: Limits, sid: nat, s: Segment)
    requires BufferOk(b, l) && sid !in b.segs
    requires s.pool in b.used && b.used[s.pool] + s.cost <= Share(l, s.pool)
    ensures BufferOk(b.(segs := b.segs[sid := s], used := b.used[s.pool := b.used[s.pool] + s.cost]), l)
  {
    var b' := b.(segs := b.segs[sid := s], used := b.used[s.pool := b.used[s.pool] + s.cost]);
    forall p: Pool ensures Balanced(b', p, l) {
      assert Balanced(b, p, l);
      Insert(b.segs, OfSegment(p), sid, s);
    }
  }

  lemma FlowAdded(b: Ledger, l: Limits, id: nat, f: Flow)
    requires BufferOk(b, l) && id !in b.flows
    requires Pool(false, f.udp) in b.used && b.used[Pool(false, f.udp)] + FLOW_OVERHEAD <= Share(l, Pool(false, f.udp))
    ensures BufferOk(b.(flows := b.flows[id := f], used := b.used[Pool(false, f.udp) := b.used[Pool(false, f.udp)] + FLOW_OVERHEAD]), l)
  {
    var b' := b.(flows := b.flows[id := f], used := b.used[Pool(false, f.udp) := b.used[Pool(false, f.udp)] + FLOW_OVERHEAD]);
    forall p: Pool ensures Balanced(b', p, l) {
      assert Balanced(b, p, l);
      Insert(b.flows, OfFlow(p), id, f);
    }
  }

  lemma FlowChanged(b: Ledger, l: Limits, id: nat, f: Flow)
    requires BufferOk(b, l) && id in b.flows && f.udp == b.flows[id].udp
    ensures BufferOk(b.(flows := b.flows[id := f]), l)
  {
    var b' := b.(flows := b.flows[id := f]);
    forall p: Pool ensures Balanced(b', p, l) {
      assert Balanced(b, p, l);
      Update(b.flows, OfFlow(p), id, f);
    }
  }

  lemma FlowRemoved(b: Ledger, l: Limits, id: nat)
    requires BufferOk(b, l) && id in b.flows
    ensures var q := Pool(false, b.flows[id].udp);
            && q in b.used
            && BufferOk(b.(flows := b.flows - {id}, used := b.used[q := b.used[q] - FLOW_OVERHEAD]), l)
  {
    var q := Pool(false, b.flows[id].udp);
    assert Balanced(b, q, l);
    var b' := b.(flows := b.flows - {id}, used := b.used[q := b.used[q] - FLOW_OVERHEAD]);
    forall p: Pool ensures Balanced(b', p, l) {
      assert Balanced(b, p, l);
      Split(b.flows, OfFlow(p), id);
    }
  }

  lemma ReadAdded(b: Ledger, l: Limits, id: nat, r: Read)
    requires BufferOk(b, l) && id !in b.inflight
    requires Pool(true, r.udp) in b.used && b.used[Pool(true, r.udp)] + r.cost <= Share(l, Pool(true, r.udp))
    ensures BufferOk(b.(inflight := b.inflight[id := r], used := b.used[Pool(true, r.udp) := b.used[Pool(true, r.udp)] + r.cost]), l)
  {
    var b' := b.(inflight := b.inflight[id := r], used := b.used[Pool(true, r.udp) := b.used[Pool(true, r.udp)] + r.cost]);
    forall p: Pool ensures Balanced(b', p, l) {
      assert Balanced(b, p, l);
      Insert(b.inflight, OfRead(p), id, r);
    }
  }

  lemma ReadRemoved(b: Ledger, l: Limits, id: nat)
    requires BufferOk(b, l) && id in b.inflight
    ensures var q := Pool(true, b.inflight[id].udp);
            && q in b.used
            && BufferOk(b.(inflight := b.inflight - {id}, used := b.used[q := b.used[q] - b.inflight[id].cost]), l)
  {
    var q := Pool(true, b.inflight[id].udp);
    assert Balanced(b, q, l);
    var b' := b.(inflight := b.inflight - {id}, used := b.used[q := b.used[q] - b.inflight[id].cost]);
    forall p: Pool ensures Balanced(b', p, l) {
      assert Balanced(b, p, l);
      Split(b.inflight, OfRead(p), id);
    }
  }

  lemma EmptyBooks(used: map<Pool, int>, l: Limits)
    requires forall p: Pool :: p in used && used[p] == 0
    ensures BufferOk(Ledger(used, map[], map[], map[]), l)
    ensures RefsOk(map[], map[], map[])
  {
    var b := Ledger(used, map[], map[], map[]);
    forall p: Pool ensures Balanced(b, p, l) {
    }
    var none: map<nat, Segment>, quiet: map<nat, Carrier>, idle: map<nat, nat> := map[], map[], map[];
    forall sid: nat ensures Counted(none, quiet, idle, sid) {
    }
  }

  /** No pool counter is ever negative, and together they fit the buffer. */
  lemma PoolsBounded(b: Ledger, l: Limits)
    requires BufferOk(b, l) && l.udpReserve <= l.buffer
    ensures forall p: Pool :: p in b.used && 0 <= b.used[p] <= Share(l, p)
    ensures b.used[Pool(false, false)] + b.used[Pool(false, true)] + b.used[Pool(true, false)] + b.used[Pool(true, true)] <= l.buffer
  {
    forall p: Pool ensures p in b.used && 0 <= b.used[p] <= Share(l, p) {
      assert Balanced(b, p, l);
      NonNegative(b.segs, OfSegment(p));
      NonNegative(b.flows, OfFlow(p));
      NonNegative(b.inflight, OfRead(p));
    }
  }

  // ----- reference counts

  /** A carrier's queues changed by one pin on sid, up or down, or not at all. */
  lemma PinsMoved(segs: map<nat, Segment>, carriers: map<nat, Carrier>, writers: map<nat, nat>, cid: nat, c: Carrier, segs': map<nat, Segment>)
    requires RefsOk(segs, carriers, writers) && cid in carriers
    requires forall sid: nat :: Refs(segs', sid) - Refs(segs, sid) == CarrierPins(sid)(c) - CarrierPins(sid)(carriers[cid])
    ensures RefsOk(segs', carriers[cid := c], writers)
  {
    var cs' := carriers[cid := c];
    forall sid: nat ensures Counted(segs', cs', writers, sid) {
      assert Counted(segs, carriers, writers, sid);
      Update(carriers, CarrierPins(sid), cid, c);
    }
  }

  lemma CarrierAdded(segs: map<nat, Segment>, carriers: map<nat, Carrier>, writers: map<nat, nat>, cid: nat)
    requires RefsOk(segs, carriers, writers) && cid !in carriers
    ensures RefsOk(segs, carriers[cid := IDLE], writers)
    ensures Total(carriers[cid := IDLE], CarrierCharge()) == Total(carriers, CarrierCharge()) + CARRIER_BYTES
  {
    var c := IDLE;
    var cs' := carriers[cid := c];
    Insert(carriers, CarrierCharge(), cid, c);
    forall sid: nat ensures Counted(segs, cs', writers, sid) {
      assert Counted(segs, carriers, writers, sid);
      Insert(carriers, CarrierPins(sid), cid, c);
    }
  }

  lemma WriterAdded(segs: map<nat, Segment>, carriers: map<nat, Carrier>, writers: map<nat, nat>, id: nat, held: nat, segs': map<nat, Segment>)
    requires RefsOk(segs, carriers, writers) && id !in writers
    requires forall sid: nat :: Refs(segs', sid) == Refs(segs, sid) + WriterPins(sid)(held)
    ensures RefsOk(segs', carriers, writers[id := held])
  {
    var ws' := writers[id := held];
    forall sid: nat ensures Counted(segs', carriers, ws', sid) {
      assert Counted(segs, carriers, writers, sid);
      Insert(writers, WriterPins(sid), id, held);
    }
  }

  lemma WriterRemoved(segs: map<nat, Segment>, carriers: map<nat, Carrier>, writers: map<nat, nat>, id: nat, segs': map<nat, Segment>)
    requires RefsOk(segs, carriers, writers) && id in writers
    requires forall sid: nat :: Refs(segs', sid) == Refs(segs, sid) - WriterPins(sid)(writers[id])
    ensures RefsOk(segs', carriers, writers - {id})
  {
    var ws' := writers - {id};
    forall sid: nat ensures Counted(segs', carriers, ws', sid) {
      assert Counted(segs, carriers, writers, sid);
      Split(writers, WriterPins(sid), id);
    }
  }

  /** The same counts under another map that agrees on them. */
  lemma SameRefs(segs: map<nat, Segment>, carriers: map<nat, Carrier>, writers: map<nat, nat>, segs': map<nat, Segment>)
    requires RefsOk(segs, carriers, writers)
    requires forall sid: nat :: Refs(segs', sid) == Refs(segs, sid)
    ensures RefsOk(segs', carriers, writers)
  {
    forall sid: nat ensures Counted(segs', carriers, writers, sid) {
      assert Counted(segs, carriers, writers, sid);
    }
  }

  lemma {:induction false} PinPositive(qs: seq<Queued>, i: nat)
    requires i < |qs| && qs[i].Pinning?
    ensures Pins(qs, qs[i].seg) > 0
  {
    if i > 0 { PinPositive(qs[1..], i - 1); }
  }

  /** What a writer or a queued frame holds is a known segment still counted. */
  lemma PinnedIsCounted(segs: map<nat, Segment>, carriers: map<nat, Carrier>, writers: map<nat, nat>, cid: nat, sid: nat)
    requires RefsOk(segs, carriers, writers) && cid in carriers && CarrierPins(sid)(carriers[cid]) > 0
    ensures sid in segs && segs[sid].refs > 0
  {
    assert Counted(segs, carriers, writers, sid);
    NonNegative(carriers, CarrierPins(sid));
    NonNegative(writers, WriterPins(sid));
  }

  lemma HeldIsCounted(segs: map<nat, Segment>, carriers: map<nat, Carrier>, writers: map<nat, nat>, id: nat)
    requires RefsOk(segs, carriers, writers) && id in writers
    ensures writers[id] in segs && segs[writers[id]].refs > 0
  {
    var sid := writers[id];
    assert Counted(segs, carriers, writers, sid);
    NonNegative(carriers, CarrierPins(sid));
    NonNegative(writers, WriterPins(sid));
  }

  // ----- lists

  /** s became t: same holders and place, perhaps no longer owned. */
  predicate SameBut(s: Segment, t: Segment, dropped: bool) {
    && t.refs == s.refs && t.home == s.home && t.pool == s.pool
    && t.owned == (s.owned && !dropped)
  }

  ghost predicate Dropped(segs: map<nat, Segment>, segs': map<nat, Segment>, f: Flow) {
    && segs'.Keys == segs.Keys
    && (forall sid :: sid in segs ==> SameBut(segs[sid], segs'[sid], f.Lists(sid)))
  }

  /** Removing a flow whose lists were discarded orphans no owned segment. */
  lemma FlowGone(segs: map<nat, Segment>, segs': map<nat, Segment>, flows: map<nat, Flow>, id: nat)
    requires OwnedOk(segs, flows) && AllListed(segs, flows)
    requires id in flows && Dropped(segs, segs', flows[id])
    ensures OwnedOk(segs', flows - {id}) && AllListed(segs', flows - {id})
    ensures |flows| == |flows - {id}| + 1
  {
    var fs' := flows - {id};
    forall sid | sid in segs' ensures Home(segs', fs', sid) {
      assert Home(segs, flows, sid);
    }
    forall i | i in fs' ensures Listed(segs', fs', i) {
      assert Listed(segs, flows, i);
    }
    assert flows.Keys == fs'.Keys + {id};
  }

  lemma FlowNew(segs: map<nat, Segment>, flows: map<nat, Flow>, id: nat, udp: bool)
    requires OwnedOk(segs, flows) && AllListed(segs, flows) && id !in flows
    ensures OwnedOk(segs, flows[id := Flow(udp, [], {}, [])]) && AllListed(segs, flows[id := Flow(udp, [], {}, [])])
    ensures |flows[id := Flow(udp, [], {}, [])]| == |flows| + 1
  {
    var fs' := flows[id := Flow(udp, [], {}, [])];
    forall sid | sid in segs ensures Home(segs, fs', sid) {
      assert Home(segs, flows, sid);
    }
    forall i | i in fs' ensures Listed(segs, fs', i) {
      if i != id { assert Listed(segs, flows, i); }
    }
    assert fs'.Keys == flows.Keys + {id};
  }

  /** A flow's lists changed: what it still owns is still on one of them. */
  lemma ListsChanged(segs: map<nat, Segment>, segs': map<nat, Segment>, flows: map<nat, Flow>, id: nat, f: Flow)
    requires OwnedOk(segs, flows) && AllListed(segs, flows) && id in flows
    requires forall sid :: sid in segs ==> sid in segs' && segs'[sid].home == segs[sid].home
    requires forall sid :: sid in segs' && segs'[sid].owned ==>
               (f.Lists(sid) && segs'[sid].home == id)
               || (sid in segs && segs[sid].owned && segs[sid].home != id)
    requires forall sid :: f.Lists(sid) ==> sid in segs' && segs'[sid].home == id
    ensures OwnedOk(segs', flows[id := f]) && AllListed(segs', flows[id := f])
  {
    var fs' := flows[id := f];
    forall sid | sid in segs' ensures Home(segs', fs', sid) {
      if sid in segs { assert Home(segs, flows, sid); }
    }
    forall i | i in fs' ensures Listed(segs', fs', i) {
      if i != id { assert Listed(segs, flows, i); }
    }
  }

  /** Only the count or the charge of one segment changed. */
  lemma HolderChanged(segs: map<nat, Segment>, flows: map<nat, Flow>, sid: nat, s: Segment)
    requires OwnedOk(segs, flows) && AllListed(segs, flows)
    requires sid in segs && s.home == segs[sid].home && (s.owned ==> segs[sid].owned)
    ensures OwnedOk(segs[sid := s], flows) && AllListed(segs[sid := s], flows)
  {
    var segs' := segs[sid := s];
    forall x | x in segs' ensures Home(segs', flows, x) {
      assert Home(segs, flows, x);
    }
    forall i | i in flows ensures Listed(segs', flows, i) {
      assert Listed(segs, flows, i);
    }
  }

  // ----- queues

  function Queue(c: Carrier, q: Queued): Carrier {
    if q.Pinning? then c.(data := c.data + [q]) else c.(control := c.control + [q])
  }

  /** A segment whose count follows a frame that pins it. */
  function Pin(segs: map<nat, Segment>, q: Queued): map<nat, Segment> {
    if q.Pinning? && q.seg in segs then segs[q.seg := segs[q.seg].(refs := segs[q.seg].refs + 1)] else segs
  }

  lemma FrameQueued(segs: map<nat, Segment>, carriers: map<nat, Carrier>, writers: map<nat, nat>, cid: nat, q: Queued)
    requires RefsOk(segs, carriers, writers) && cid in carriers && !carriers[cid].exited
    requires q.Pinning? ==> q.seg in segs
    ensures RefsOk(Pin(segs, q), carriers[cid := Queue(carriers[cid], q)], writers)
    ensures Total(carriers[cid := Queue(carriers[cid], q)], CarrierCharge()) == Total(carriers, CarrierCharge()) + q.cost
  {
    var c := carriers[cid];
    var d := Queue(c, q);
    forall x: nat ensures CarrierPins(x)(d) == CarrierPins(x)(c) + Pins([q], x) {
      if q.Pinning? { Append(c.data, q, x); } else { Append(c.control, q, x); }
    }
    if q.Pinning? { Append(c.data, q, 0); } else { Append(c.control, q, 0); }
    Update(carriers, CarrierCharge(), cid, d);
    forall x: nat ensures Refs(Pin(segs, q), x) == Refs(segs, x) + Pins([q], x) {
    }
    PinsMoved(segs, carriers, writers, cid, d, Pin(segs, q));
  }

  lemma CarrierSet(carriers: map<nat, Carrier>, next: nat, cid: nat, c: Carrier, next': nat)
    requires CarriersOk(carriers, next) && Tidy(c) && next <= next' && cid < next'
    ensures CarriersOk(carriers[cid := c], next')
  {
    var cs' := carriers[cid := c];
    forall i | i in cs' ensures CarrierOk(cs', i, next') {
      if i != cid { assert CarrierOk(carriers, i, next); }
    }
  }

  lemma NewCarrier(carriers: map<nat, Carrier>, next: nat)
    requires CarriersOk(carriers, next)
    ensures next !in carriers && CarriersOk(carriers[next := IDLE], next + 1)
  {
    assert next in carriers ==> CarrierOk(carriers, next, next);
    CarrierSet(carriers, next, next, IDLE, next + 1);
  }

  lemma IdsOpened(seen: Seen, flows: set<nat>, closing: set<nat>, inflight: set<nat>, writers: set<nat>, id: nat)
    requires IdsOk(Relay(seen), flows, closing, inflight, writers) && id !in closing
    ensures IdsOk(Relay(seen.Add(id)), flows + {id}, closing, inflight, writers)
    ensures forall i :: seen.Contains(i) ==> seen.Add(id).Contains(i)
  {
    var n, n' := Relay(seen), Relay(seen.Add(id));
    forall i | i in flows + {id} || i in closing || i in inflight || i in writers ensures n'.Spent(i) {
      if i != id { assert n.Spent(i); }
    }
  }

  /** A new carrier is charged for its queues. */
  lemma ControlCarrier(control: int, flows: map<nat, Flow>, closing: set<nat>, carriers: map<nat, Carrier>, l: Limits,
                       segs: map<nat, Segment>, writers: map<nat, nat>, cid: nat)
    requires ControlOk(control, flows, closing, carriers, l) && RefsOk(segs, carriers, writers)
    requires cid !in carriers && control + CARRIER_BYTES <= l.control
    ensures ControlOk(control + CARRIER_BYTES, flows, closing, carriers[cid := IDLE], l)
    ensures RefsOk(segs, carriers[cid := IDLE], writers)
  {
    CarrierAdded(segs, carriers, writers, cid);
  }

  /** A queued frame is charged what it costs. */
  lemma ControlQueued(control: int, flows: map<nat, Flow>, closing: set<nat>, carriers: map<nat, Carrier>, l: Limits, cid: nat, q: Queued)
    requires ControlOk(control, flows, closing, carriers, l) && cid in carriers && !carriers[cid].exited && control + q.cost <= l.control
    ensures ControlOk(control + q.cost, flows, closing, carriers[cid := Queue(carriers[cid], q)], l)
  {
    var c := carriers[cid];
    if q.Pinning? { Append(c.data, q, 0); } else { Append(c.control, q, 0); }
    Update(carriers, CarrierCharge(), cid, Queue(c, q));
  }

  lemma CarrierKept(carriers: map<nat, Carrier>, next: nat, cid: nat, c: Carrier)
    requires CarriersOk(carriers, next) && cid in carriers && Tidy(c)
    ensures CarriersOk(carriers[cid := c], next)
  {
    assert CarrierOk(carriers, cid, next);
    CarrierSet(carriers, next, cid, c, next);
  }

  lemma CarrierLive(carriers: map<nat, Carrier>, next: nat, cid: nat)
    requires CarriersOk(carriers, next) && cid in carriers
    ensures Tidy(carriers[cid])
  {
    assert CarrierOk(carriers, cid, next);
  }

  /** The oldest frame of a queue moves to the writer's hand. */
  function Taken(c: Carrier, fromControl: bool): Carrier
    requires if fromControl then c.control != [] else c.data != []
  {
    if fromControl then c.(control := c.control[1..], hand := [c.control[0]])
    else c.(data := c.data[1..], hand := [c.data[0]])
  }

  lemma FrameTaken(segs: map<nat, Segment>, carriers: map<nat, Carrier>, writers: map<nat, nat>, cid: nat, fromControl: bool)
    requires RefsOk(segs, carriers, writers) && cid in carriers && carriers[cid].hand == []
    requires if fromControl then carriers[cid].control != [] else carriers[cid].data != []
    ensures RefsOk(segs, carriers[cid := Taken(carriers[cid], fromControl)], writers)
    ensures Total(carriers[cid := Taken(carriers[cid], fromControl)], CarrierCharge()) == Total(carriers, CarrierCharge())
  {
    var c := carriers[cid];
    var d := Taken(c, fromControl);
    forall x: nat ensures CarrierPins(x)(d) == CarrierPins(x)(c) {
      One(d.hand, x);
    }
    One(d.hand, 0);
    Update(carriers, CarrierCharge(), cid, d);
    PinsMoved(segs, carriers, writers, cid, d, segs);
  }

  lemma HandIsCounted(segs: map<nat, Segment>, carriers: map<nat, Carrier>, writers: map<nat, nat>, cid: nat)
    requires RefsOk(segs, carriers, writers) && cid in carriers && carriers[cid].hand != [] && carriers[cid].hand[0].Pinning?
    ensures carriers[cid].hand[0].seg in segs && segs[carriers[cid].hand[0].seg].refs > 0
  {
    var sid := carriers[cid].hand[0].seg;
    PinPositive(carriers[cid].hand, 0);
    PinnedIsCounted(segs, carriers, writers, cid, sid);
  }

  lemma FrameReleased(segs: map<nat, Segment>, segs': map<nat, Segment>, carriers: map<nat, Carrier>, writers: map<nat, nat>, cid: nat)
    requires RefsOk(segs, carriers, writers) && cid in carriers && |carriers[cid].hand| == 1 && !carriers[cid].exited
    requires forall x: nat :: Refs(segs', x) == Refs(segs, x) - Pins(carriers[cid].hand, x)
    ensures RefsOk(segs', carriers[cid := carriers[cid].(hand := [])], writers)
    ensures Total(carriers[cid := carriers[cid].(hand := [])], CarrierCharge()) == Total(carriers, CarrierCharge()) - carriers[cid].hand[0].cost
  {
    var c := carriers[cid];
    var d := c.(hand := []);
    forall x: nat ensures CarrierPins(x)(d) == CarrierPins(x)(c) - Pins(c.hand, x) {
    }
    One(c.hand, 0);
    Update(carriers, CarrierCharge(), cid, d);
    PinsMoved(segs, carriers, writers, cid, d, segs');
  }

  // ----- where a new segment goes

  datatype Place = Pending | Held | Ready

  function Put(f: Flow, sid: nat, place: Place): Flow {
    match place
    case Pending => f.(pending := f.pending + [sid])
    case Held => f.(recv := f.recv + {sid})
    case Ready => f.(ready := f.ready + [sid])
  }

  lemma SegmentListed(segs: map<nat, Segment>, flows: map<nat, Flow>, id: nat, sid: nat, s: Segment, place: Place)
    requires OwnedOk(segs, flows) && AllListed(segs, flows) && id in flows && sid !in segs && s.home == id
    ensures OwnedOk(segs[sid := s], flows[id := Put(flows[id], sid, place)])
    ensures AllListed(segs[sid := s], flows[id := Put(flows[id], sid, place)])
  {
    var f := Put(flows[id], sid, place);
    assert forall x :: f.Lists(x) <==> x == sid || flows[id].Lists(x);
    assert Listed(segs, flows, id);
    forall x | x in segs && segs[x].owned ensures segs[x].home == id ==> f.Lists(x) {
      assert Home(segs, flows, x);
    }
    ListsChanged(segs, segs[sid := s], flows, id, f);
  }

  /** The same segments, with one holder fewer of sid. */
  ghost predicate OneFewer(segs: map<nat, Segment>, segs': map<nat, Segment>, sid: nat) {
    && segs'.Keys == segs.Keys && sid in segs && segs[sid].refs > 0
    && forall x :: x in segs ==> segs'[x].refs == segs[x].refs - if x == sid then 1 else 0
  }

  lemma HandDropped(segs: map<nat, Segment>, segs': map<nat, Segment>, hand: seq<Queued>)
    requires |hand| == 1
    requires hand[0].Plain? ==> segs' == segs
    requires hand[0].Pinning? ==> OneFewer(segs, segs', hand[0].seg)
    ensures forall x: nat :: Refs(segs', x) == Refs(segs, x) - Pins(hand, x)
  {
    forall x: nat ensures Refs(segs', x) == Refs(segs, x) - Pins(hand, x) {
      One(hand, x);
    }
  }

  /** The flow after its first ready segment was handed over. */
  function Popped(f: Flow): Flow {
    if f.ready == [] then f else f.(ready := f.ready[1..])
  }

  function Without(list: seq<nat>, gone: set<nat>): seq<nat> {
    if list == [] then [] else (if list[0] in gone then [] else [list[0]]) + Without(list[1..], gone)
  }

  lemma {:induction false} WithoutSnoc(list: seq<nat>, sid: nat, gone: set<nat>)
    ensures Without(list + [sid], gone) == Without(list, gone) + if sid in gone then [] else [sid]
  {
    if list == [] {
      assert list + [sid] == [sid] && [sid][1..] == [];
    } else {
      assert (list + [sid])[1..] == list[1..] + [sid];
      WithoutSnoc(list[1..], sid, gone);
    }
  }

  lemma {:induction false} Sifted(list: seq<nat>, gone: set<nat>, sid: nat)
    ensures sid in Without(list, gone) <==> sid in list && sid !in gone
  {
    if list != [] { Sifted(list[1..], gone, sid); }
  }

  /** A flow's lists shrank to those that still hold everything it owns. */
  lemma ListsShrunk(segs: map<nat, Segment>, segs': map<nat, Segment>, flows: map<nat, Flow>, id: nat, f: Flow)
    requires OwnedOk(segs, flows) && AllListed(segs, flows) && id in flows && segs'.Keys == segs.Keys
    requires forall sid :: sid in segs' ==> segs'[sid].home == segs[sid].home && (segs'[sid].owned ==> segs[sid].owned)
    requires forall sid :: sid in segs' && segs'[sid].owned && flows[id].Lists(sid) ==> f.Lists(sid)
    requires forall sid :: f.Lists(sid) ==> flows[id].Lists(sid)
    ensures OwnedOk(segs', flows[id := f]) && AllListed(segs', flows[id := f])
  {
    assert Listed(segs, flows, id);
    forall sid | sid in segs' && segs'[sid].owned
      ensures (f.Lists(sid) && segs'[sid].home == id) || (segs[sid].owned && segs[sid].home != id)
    {
      assert Home(segs, flows, sid);
    }
    ListsChanged(segs, segs', flows, id, f);
  }
}
