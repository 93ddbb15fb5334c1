/** The continuity peer as an object: every locked region that reserves, shares,
    queues or pays back bytes.  Valid() says that both budgets balance. */
module PeerObject {
  import opened Sums
  import opened DatagramWindow
  import opened PeerBudget

  class Peer {
    const limits: Limits
    var used: map<Pool, int>
    var control: int
    var segs: map<nat, Segment>
    var nextSeg: nat
    var flows: map<nat, Flow>
    var closing: set<nat>
    var carriers: map<nat, Carrier>
    var nextCarrier: nat
    /** Reads in progress and segments in an endpoint writer's hand, by flow. */
    var inflight: map<nat, Read>
    var writers: map<nat, nat>
    var names: Names
    var closed: bool
    /** The relay has another generation: nothing new is taken on. */
    var terminal: bool

    ghost function Book(): Ledger
      reads this
    {
      Ledger(used, segs, flows, inflight)
    }

    ghost predicate Valid()
      reads this
    {
      && limits.udpReserve <= limits.buffer
      && BufferOk(Book(), limits)
      && RefsOk(segs, carriers, writers) && SettledOk(segs)
      && ControlOk(control, flows, closing, carriers, limits)
      && OwnedOk(segs, flows) && AllListed(segs, flows)
      && IdsOk(names, flows.Keys, closing, inflight.Keys, writers.Keys)
      && WorkersOk(inflight, writers, flows)
      && Below(segs.Keys, nextSeg) && CarriersOk(carriers, nextCarrier)
      && (closed ==> flows == map[] && closing == {})
    }

    constructor (limits: Limits, server: bool)
      requires limits.udpReserve <= limits.buffer
      ensures Valid() && !closed && flows == map[] && carriers == map[]
      ensures this.limits == limits && names.Relay? == server
    {
      this.limits := limits;
      used := map[Pool(false, false) := 0, Pool(false, true) := 0, Pool(true, false) := 0, Pool(true, true) := 0];
      control, segs, nextSeg, flows, closing := 0, map[], 0, map[], {};
      carriers, nextCarrier, inflight, writers := map[], 0, map[], map[];
      names := if server then Relay(Seen(0, {})) else Gateway(0);
      closed, terminal := false, false;
      new;
      forall p: Pool ensures p in used && used[p] == 0 {
        match p
        case Pool(send, udp) => if send { if udp {} else {} } else { if udp {} else {} }
      }
      EmptyBooks(used, limits);
    }

    // ----- pools

    method Reserve(send: bool, udp: bool, n: int) returns (ok: bool)
      requires BufferOk(Book(), limits) && limits.udpReserve <= limits.buffer
      modifies this`used
      ensures Pool(send, udp) in old(used)
      ensures ok == (n >= 0 && old(used)[Pool(send, udp)] + n <= Share(limits, Pool(send, udp)))
      ensures used == if ok then old(used)[Pool(send, udp) := old(used)[Pool(send, udp)] + n] else old(used)
    {
      assert Balanced(Book(), Pool(send, udp), limits);
      var limit := (limits.buffer - limits.udpReserve) / 2;
      if udp {
        limit := limits.udpReserve / 2;
      }
      if n < 0 || used[Pool(send, udp)] + n > limit {
        return false;
      }
      used := used[Pool(send, udp) := used[Pool(send, udp)] + n];
      return true;
    }

    static function Paid(s: Segment): Segment {
      if s.owned || s.refs > 0 then s else s.(cost := 0)
    }

    /** Pays a segment back once nobody owns or holds it; again is harmless. */
    method Release(sid: nat)
      requires sid in segs && BufferOk(Book(), limits)
      modifies this`used, this`segs
      ensures BufferOk(Book(), limits)
      ensures segs == old(segs)[sid := Paid(old(segs)[sid])]
      ensures old(segs)[sid].owned || old(segs)[sid].refs > 0 ==> segs == old(segs) && used == old(used)
      ensures !old(segs)[sid].owned && old(segs)[sid].refs == 0 ==>
                && segs == old(segs)[sid := old(segs)[sid].(cost := 0)] && old(segs)[sid].pool in old(used)
                && used == old(used)[old(segs)[sid].pool := old(used)[old(segs)[sid].pool] - old(segs)[sid].cost]
    {
      var s := segs[sid];
      assert Balanced(Book(), s.pool, limits);
      if s.owned || s.refs > 0 {
        assert segs == segs[sid := s];
        return;
      }
      SegmentChanged(Book(), limits, sid, s.(cost := 0));
      used := used[s.pool := used[s.pool] - s.cost];
      segs := segs[sid := s.(cost := 0)];
    }

    method Discard(sid: nat)
      requires sid in segs && BufferOk(Book(), limits)
      modifies this`used, this`segs
      ensures BufferOk(Book(), limits)
      ensures segs == old(segs)[sid := Paid(old(segs)[sid].(owned := false))]
      ensures old(segs)[sid].refs > 0 ==> segs[sid] == old(segs)[sid].(owned := false) && used == old(used)
      ensures old(segs)[sid].refs == 0 ==> segs[sid] == old(segs)[sid].(owned := false, cost := 0)
    {
      SegmentKept(Book(), limits, sid, segs[sid].(owned := false));
      segs := segs[sid := segs[sid].(owned := false)];
      Release(sid);
    }

    /** Discards a whole list; whatever was on it is owned by nobody after. */
    method DiscardAll(list: seq<nat>)
      requires BufferOk(Book(), limits) && SettledOk(segs)
      requires forall i :: 0 <= i < |list| ==> list[i] in segs
      modifies this`used, this`segs
      ensures BufferOk(Book(), limits) && SettledOk(segs)
      ensures segs.Keys == old(segs).Keys
      ensures forall sid :: sid in segs ==> SameBut(old(segs)[sid], segs[sid], sid in list)
    {
      for i := 0 to |list|
        invariant BufferOk(Book(), limits) && SettledOk(segs)
        invariant segs.Keys == old(segs).Keys
        invariant forall sid :: sid in segs ==> SameBut(old(segs)[sid], segs[sid], sid in list[..i])
      {
        Discard(list[i]);
        assert list[..i + 1] == list[..i] + [list[i]];
      }
      assert list[..|list|] == list;
    }

    // ----- flows

    /** The flow gets its record and overhead, or nothing changes. */
    method NewFlow(id: nat, udp: bool) returns (ok: bool)
      requires Valid() && !closed && id !in flows && id !in closing && id !in inflight && id !in writers
      modifies this`used, this`control, this`flows
      ensures BufferOk(Book(), limits) && ControlOk(control, flows, closing, carriers, limits) && OwnedOk(segs, flows) && AllListed(segs, flows)
      ensures WorkersOk(inflight, writers, flows)
      ensures ok <==> MayMake(old(flows), closing, old(control), old(used), limits, udp)
      ensures Pool(false, udp) in old(used)
      ensures ok <==>
                && |set f | f in old(flows) && old(flows)[f].udp == udp| < (if udp then limits.maxUDP else limits.maxTCP)
                && |old(flows)| + |closing| < limits.maxTCP + limits.maxUDP && old(control) + 128 <= limits.control
                && old(used)[Pool(false, udp)] + 2048 <= (if udp then limits.udpReserve / 2 else (limits.buffer - limits.udpReserve) / 2)
      ensures flows == if ok then old(flows)[id := Flow(udp, [], {}, [])] else old(flows)
      ensures ok ==> control == old(control) + 128 && used == old(used)[Pool(false, udp) := old(used)[Pool(false, udp)] + 2048]
      ensures !ok ==> used == old(used) && control == old(control)
    {
      assert Balanced(Book(), Pool(false, udp), limits);
      ok := MakeFlow(id, udp);
    }

    method MakeFlow(id: nat, udp: bool) returns (ok: bool)
      requires Valid() && !closed && id !in flows && id !in closing && id !in inflight && id !in writers
      requires Pool(false, udp) in used
      modifies this`used, this`control, this`flows
      ensures BufferOk(Book(), limits) && ControlOk(control, flows, closing, carriers, limits) && OwnedOk(segs, flows) && AllListed(segs, flows)
      ensures WorkersOk(inflight, writers, flows)
      ensures ok <==> MayMake(old(flows), closing, old(control), old(used), limits, udp)
      ensures flows == if ok then old(flows)[id := Flow(udp, [], {}, [])] else old(flows)
      ensures ok ==> control == old(control) + 128 && used == old(used)[Pool(false, udp) := old(used)[Pool(false, udp)] + 2048]
      ensures !ok ==> used == old(used) && control == old(control)
    {
      var n := |set f | f in flows && flows[f].udp == udp|;
      var limit := if udp then limits.maxUDP else limits.maxTCP;
      if n >= limit || |flows| + |closing| >= limits.maxTCP + limits.maxUDP || control + FLOW_RECORD > limits.control {
        return false;
      }
      ghost var b := Book();
      ok := Reserve(false, udp, FLOW_OVERHEAD);
      if !ok {
        return;
      }
      FlowAdded(b, limits, id, Flow(udp, [], {}, []));
      control := control + FLOW_RECORD;
      flows := flows[id := Flow(udp, [], {}, [])];
      FlowNew(segs, old(flows), id, udp);
      WorkersKept(inflight, writers, old(flows), inflight, writers, flows, id);
    }

    /** The gateway numbers its flows; a number is used up even when refused. */
    method Serve(udp: bool) returns (ok: bool)
      requires Valid() && names.Gateway?
      modifies this`used, this`control, this`flows, this`names
      ensures Valid() && names.Gateway? && names.last >= old(names).last
      ensures ok <==> !closed && !terminal && MayMake(old(flows), closing, old(control), old(used), limits, udp)
      ensures ok ==> flows == old(flows)[names.last := Flow(udp, [], {}, [])] && names.last !in old(flows)
      ensures !ok ==> flows == old(flows)
    {
      if closed || terminal {
        return false;
      }
      var id := names.last + 1;
      assert forall i :: i in flows || i in closing || i in inflight || i in writers ==> names.Spent(i);
      names := Gateway(id);
      ok := NewFlow(id, udp);
    }

    /** OPEN at the relay: known, spent or refused identities make no flow. */
    method Open(id: nat, udp: bool) returns (made: bool)
      requires Valid() && names.Relay?
      modifies this`used, this`control, this`flows, this`names
      ensures Valid() && names.Relay?
      ensures made <==> !closed && id != 0 && id !in old(flows) && !old(names).seen.Contains(id)
                        && MayMake(old(flows), closing, old(control), old(used), limits, udp)
      ensures made ==> flows == old(flows)[id := Flow(udp, [], {}, [])] && !old(names).Spent(id)
      ensures names == if made then Relay(old(names).seen.Add(id)) else old(names)
      ensures !made ==> flows == old(flows)
    {
      if closed || id == 0 || id in flows || names.seen.Contains(id) {
        return false;
      }
      made := Admit(id, udp);
    }

    method Admit(id: nat, udp: bool) returns (made: bool)
      requires Valid() && names.Relay? && !closed && id !in flows && !names.seen.Contains(id)
      modifies this`used, this`control, this`flows, this`names
      ensures Valid()
      ensures made <==> MayMake(old(flows), closing, old(control), old(used), limits, udp)
      ensures flows == if made then old(flows)[id := Flow(udp, [], {}, [])] else old(flows)
      ensures names == if made then Relay(old(names).seen.Add(id)) else old(names)
    {
      assert id !in closing && id !in inflight && id !in writers by { assert !names.Spent(id); }
      made := NewFlow(id, udp);
      if !made { return; }
      Spend(id, old(flows), Flow(udp, [], {}, []));
    }

    /** The duplicate filter learns the identity of the flow just made. */
    method Spend(id: nat, ghost before: map<nat, Flow>, ghost f: Flow)
      requires names.Relay? && IdsOk(names, before.Keys, closing, inflight.Keys, writers.Keys)
      requires id !in closing && flows == before[id := f]
      modifies this`names
      ensures names == Relay(old(names).seen.Add(id))
      ensures IdsOk(names, flows.Keys, closing, inflight.Keys, writers.Keys)
    {
      assert flows.Keys == before.Keys + {id};
      IdsOpened(names.seen, before.Keys, closing, inflight.Keys, writers.Keys, id);
      names := Relay(names.seen.Add(id));
    }

    /** Discards the three lists of a flow. */
    method GiveUp(f: Flow)
      requires BufferOk(Book(), limits) && SettledOk(segs)
      requires forall sid :: f.Lists(sid) ==> sid in segs
      modifies this`used, this`segs
      ensures BufferOk(Book(), limits) && SettledOk(segs)
      ensures Dropped(old(segs), segs, f)
    {
      DiscardAll(f.pending);
      DiscardHeld(f.recv);
      DiscardAll(f.ready);
    }

    method RemoveFlow(id: nat)
      requires BufferOk(Book(), limits) && RefsOk(segs, carriers, writers) && SettledOk(segs) && OwnedOk(segs, flows) && AllListed(segs, flows)
      requires id in flows
      modifies this`used, this`segs, this`flows
      ensures BufferOk(Book(), limits) && RefsOk(segs, carriers, writers) && SettledOk(segs) && OwnedOk(segs, flows) && AllListed(segs, flows)
      ensures flows == old(flows) - {id} && |old(flows)| == |flows| + 1
      ensures segs.Keys == old(segs).Keys
    {
      var f := flows[id];
      assert Listed(segs, flows, id);
      GiveUp(f);
      SameRefs(old(segs), carriers, writers, segs);
      FlowGone(old(segs), segs, flows, id);
      FlowRemoved(Book(), limits, id);
      var q := Pool(false, f.udp);
      used := used[q := used[q] - FLOW_OVERHEAD];
      flows := flows - {id};
    }

    /** Everything a flow owns is given up; holders still sharing a segment keep
        it charged until they let go. */
    method CloseFlow(id: nat, notify: bool)
      requires Valid() && id in flows
      modifies this`used, this`segs, this`control, this`flows, this`closing
      ensures Valid()
      ensures flows == old(flows) - {id}
      ensures closing == if notify then old(closing) + {id} else old(closing)
      ensures control == if notify then old(control) else old(control) - FLOW_RECORD
    {
      RemoveFlow(id);
      assert WorkersOk(inflight, writers, flows) by { WorkersKept(inflight, writers, old(flows), inflight, writers, flows, id); }
      if notify {
        closing := closing + {id};
      } else {
        control := control - FLOW_RECORD;
      }
    }

    /** The map of out-of-order segments is visited in no fixed order. */
    method DiscardHeld(held: set<nat>)
      requires BufferOk(Book(), limits) && SettledOk(segs)
      requires forall sid :: sid in held ==> sid in segs
      modifies this`used, this`segs
      ensures BufferOk(Book(), limits) && SettledOk(segs)
      ensures segs.Keys == old(segs).Keys
      ensures forall sid :: sid in segs ==> SameBut(old(segs)[sid], segs[sid], sid in held)
    {
      var rest := held;
      while rest != {}
        invariant rest <= held
        invariant BufferOk(Book(), limits) && SettledOk(segs)
        invariant segs.Keys == old(segs).Keys
        invariant forall sid :: sid in segs ==> SameBut(old(segs)[sid], segs[sid], sid in held - rest)
        decreases |rest|
      {
        var sid :| sid in rest;
        Discard(sid);
        rest := rest - {sid};
      }
    }

    // ----- carriers and their queues

    /** Writes one carrier record back; the caller has shown it fits the books. */
    method SetCarrier(cid: nat, c: Carrier, delta: int, next: nat)
      modifies this`control, this`carriers, this`nextCarrier
      ensures carriers == old(carriers)[cid := c] && control == old(control) + delta && nextCarrier == next
    {
      carriers := carriers[cid := c];
      nextCarrier := next;
      control := control + delta;
    }

    /** A new carrier takes the place of the one on its lane, if there is one
        (`previous`, negative for none).  `crowded`: it is for a third path. */
    method AddCarrier(crowded: bool, previous: int) returns (ok: bool)
      requires Valid()
      modifies this`control, this`carriers, this`nextCarrier
      ensures Valid()
      ensures ok <==> !closed && !terminal && !crowded && old(control) + 4096 <= limits.control
      ensures ok ==> old(nextCarrier) !in old(carriers) && carriers == Replaced(old(carriers), previous)[old(nextCarrier) := IDLE]
      ensures ok ==> control == old(control) + 4096
      ensures !ok ==> carriers == old(carriers) && control == old(control)
    {
      if closed || terminal || crowded || control + CARRIER_BYTES > limits.control {
        return false;
      }
      if previous >= 0 && previous in carriers {
        CloseCarrier(previous);
      }
      PutCarrier();
      return true;
    }

    static function Replaced(carriers: map<nat, Carrier>, previous: int): map<nat, Carrier> {
      if previous >= 0 && previous in carriers then carriers[previous := carriers[previous].(closed := true)] else carriers
    }

    method PutCarrier()
      requires Valid() && control + CARRIER_BYTES <= limits.control && !closed
      modifies this`control, this`carriers, this`nextCarrier
      ensures Valid()
      ensures old(nextCarrier) !in old(carriers) && carriers == old(carriers)[old(nextCarrier) := IDLE]
      ensures control == old(control) + CARRIER_BYTES
    {
      NewCarrier(carriers, nextCarrier);
      SetCarrier(nextCarrier, IDLE, CARRIER_BYTES, nextCarrier + 1);
      assert ControlOk(control, flows, closing, carriers, limits) && RefsOk(segs, carriers, writers) by {
        ControlCarrier(old(control), flows, closing, old(carriers), limits, segs, writers, old(nextCarrier));
      }
    }

    method CloseCarrier(cid: nat)
      requires Valid() && cid in carriers
      modifies this`control, this`carriers, this`nextCarrier
      ensures Valid()
      ensures carriers == old(carriers)[cid := old(carriers)[cid].(closed := true)] && control == old(control) && nextCarrier == old(nextCarrier)
    {
      CarrierLive(carriers, nextCarrier, cid);
      var c := carriers[cid].(closed := true);
      SetCarrier(cid, c, 0, nextCarrier);
      assert CarriersOk(carriers, nextCarrier) by { CarrierKept(old(carriers), nextCarrier, cid, c); }
      assert RefsOk(segs, carriers, writers) by { PinsMoved(segs, old(carriers), writers, cid, c, segs); }
      assert ControlOk(control, flows, closing, carriers, limits) by { Update(old(carriers), CarrierCharge(), cid, c); }
    }

    /** A control frame: charged for its header and payload. */
    method EnqueueControl(cid: nat, payload: nat) returns (ok: bool)
      requires Valid() && cid in carriers
      modifies this`control, this`carriers, this`nextCarrier
      ensures Valid()
      ensures ok <==> var c := old(carriers)[cid];
                      !c.closed && |c.control| < 16 && old(control) + 96 + payload <= limits.control
      ensures !ok ==> carriers == old(carriers) && control == old(control)
      ensures ok ==> control == old(control) + CONTROL_OVERHEAD + payload
      ensures ok ==> carriers == old(carriers)[cid := Queue(old(carriers)[cid], Plain(CONTROL_OVERHEAD + payload))]
      ensures ok ==> carriers[cid] == old(carriers)[cid].(control := old(carriers)[cid].control + [Plain(96 + payload)])
    {
      var c := carriers[cid];
      var q := Plain(CONTROL_OVERHEAD + payload);
      if c.closed || control + q.cost > limits.control || |c.control| >= CONTROL_SLOTS {
        return false;
      }
      CarrierLive(carriers, nextCarrier, cid);
      SetCarrier(cid, Queue(c, q), q.cost, nextCarrier);
      assert CarriersOk(carriers, nextCarrier) by { CarrierKept(old(carriers), nextCarrier, cid, Queue(c, q)); }
      FrameQueued(segs, old(carriers), writers, cid, q);
      return true;
    }

    /** A data frame: its bytes are charged to its segment, which it pins. */
    method EnqueueData(cid: nat, sid: nat) returns (ok: bool)
      requires Valid() && cid in carriers && sid in segs
      modifies this`control, this`carriers, this`segs, this`nextCarrier
      ensures Valid()
      ensures ok <==> var c := old(carriers)[cid];
                      !c.closed && |c.data| < 32 && old(control) + 96 <= limits.control
      ensures !ok ==> carriers == old(carriers) && control == old(control) && segs == old(segs)
      ensures ok ==> carriers == old(carriers)[cid := Queue(old(carriers)[cid], Pinning(CONTROL_OVERHEAD, sid))]
      ensures ok ==> carriers[cid] == old(carriers)[cid].(data := old(carriers)[cid].data + [Pinning(96, sid)])
      ensures ok ==> control == old(control) + CONTROL_OVERHEAD
      ensures ok ==> segs == old(segs)[sid := old(segs)[sid].(refs := old(segs)[sid].refs + 1)]
    {
      var c := carriers[cid];
      if c.closed || control + CONTROL_OVERHEAD > limits.control || |c.data| >= DATA_SLOTS {
        return false;
      }
      CarrierLive(carriers, nextCarrier, cid);
      PushData(cid, sid);
      var q := Pinning(CONTROL_OVERHEAD, sid);
      assert CarriersOk(carriers, nextCarrier) by { CarrierKept(old(carriers), nextCarrier, cid, Queue(c, q)); }
      assert ControlOk(control, flows, closing, carriers, limits) by { ControlQueued(old(control), flows, closing, old(carriers), limits, cid, q); }
      assert segs.Keys == old(segs).Keys;
      return true;
    }

    method PushData(cid: nat, sid: nat)
      requires cid in carriers && sid in segs && !carriers[cid].exited && RefsOk(segs, carriers, writers)
      requires BufferOk(Book(), limits) && SettledOk(segs) && OwnedOk(segs, flows) && AllListed(segs, flows)
      modifies this`control, this`carriers, this`segs, this`nextCarrier
      ensures RefsOk(segs, carriers, writers)
      ensures BufferOk(Book(), limits) && SettledOk(segs) && OwnedOk(segs, flows) && AllListed(segs, flows)
      ensures control == old(control) + CONTROL_OVERHEAD && nextCarrier == old(nextCarrier)
      ensures carriers == old(carriers)[cid := Queue(old(carriers)[cid], Pinning(CONTROL_OVERHEAD, sid))]
      ensures segs == old(segs)[sid := old(segs)[sid].(refs := old(segs)[sid].refs + 1)]
    {
      var c, q := carriers[cid], Pinning(CONTROL_OVERHEAD, sid);
      Hold(sid);
      SetCarrier(cid, Queue(c, q), q.cost, nextCarrier);
      assert segs == Pin(old(segs), q);
      FrameQueued(old(segs), old(carriers), writers, cid, q);
    }

    /** One more holder of a segment. */
    method Hold(sid: nat)
      requires sid in segs && BufferOk(Book(), limits) && SettledOk(segs)
      requires OwnedOk(segs, flows) && AllListed(segs, flows)
      modifies this`segs
      ensures BufferOk(Book(), limits) && SettledOk(segs)
      ensures OwnedOk(segs, flows) && AllListed(segs, flows)
      ensures segs == old(segs)[sid := old(segs)[sid].(refs := old(segs)[sid].refs + 1)]
    {
      var s := segs[sid].(refs := segs[sid].refs + 1);
      SegmentKept(Book(), limits, sid, s);
      HolderChanged(segs, flows, sid, s);
      segs := segs[sid := s];
    }

    /** One holder fewer; the last one out pays the segment back. */
    method Drop(sid: nat)
      requires sid in segs && segs[sid].refs > 0 && BufferOk(Book(), limits) && SettledOk(segs)
      requires OwnedOk(segs, flows) && AllListed(segs, flows)
      modifies this`segs, this`used
      ensures BufferOk(Book(), limits) && SettledOk(segs)
      ensures OwnedOk(segs, flows) && AllListed(segs, flows)
      ensures segs == old(segs)[sid := Paid(old(segs)[sid].(refs := old(segs)[sid].refs - 1))]
      ensures OneFewer(old(segs), segs, sid)
    {
      var s := segs[sid].(refs := segs[sid].refs - 1);
      SegmentKept(Book(), limits, sid, s);
      HolderChanged(segs, flows, sid, s);
      HolderChanged(segs, flows, sid, Paid(s));
      segs := segs[sid := s];
      Release(sid);
      assert segs == old(segs)[sid := Paid(s)];
    }

    /** The writer goroutine takes the oldest frame of one queue in hand. */
    method Take(cid: nat, fromControl: bool)
      requires Valid() && cid in carriers && carriers[cid].hand == []
      requires if fromControl then carriers[cid].control != [] else carriers[cid].data != []
      modifies this`control, this`carriers, this`nextCarrier
      ensures Valid() && control == old(control)
      ensures carriers == old(carriers)[cid := Taken(old(carriers)[cid], fromControl)]
      ensures var c := old(carriers)[cid];
              carriers[cid] == if fromControl then c.(control := c.control[1..], hand := [c.control[0]])
                               else c.(data := c.data[1..], hand := [c.data[0]])
    {
      var c := carriers[cid];
      CarrierLive(carriers, nextCarrier, cid);
      SetCarrier(cid, Taken(c, fromControl), 0, nextCarrier);
      assert CarriersOk(carriers, nextCarrier) by { CarrierKept(old(carriers), nextCarrier, cid, Taken(c, fromControl)); }
      FrameTaken(segs, old(carriers), writers, cid, fromControl);
    }

    /** The frame in hand was written, or its carrier is gone. */
    method ReleaseQueued(cid: nat)
      requires Valid() && cid in carriers && carriers[cid].hand != []
      modifies this`control, this`carriers, this`nextCarrier, this`segs, this`used
      ensures Valid() && control == old(control) - old(carriers)[cid].hand[0].cost
      ensures carriers == old(carriers)[cid := old(carriers)[cid].(hand := [])]
    {
      assert Tidy(carriers[cid]) by { CarrierLive(carriers, nextCarrier, cid); }
      PayFrame(cid);
    }

    method PayFrame(cid: nat)
      requires cid in carriers && |carriers[cid].hand| == 1 && Tidy(carriers[cid])
      requires RefsOk(segs, carriers, writers) && CarriersOk(carriers, nextCarrier)
      requires ControlOk(control, flows, closing, carriers, limits)
      requires BufferOk(Book(), limits) && SettledOk(segs) && OwnedOk(segs, flows) && AllListed(segs, flows)
      modifies this`control, this`carriers, this`nextCarrier, this`segs, this`used
      ensures RefsOk(segs, carriers, writers) && CarriersOk(carriers, nextCarrier)
      ensures ControlOk(control, flows, closing, carriers, limits)
      ensures BufferOk(Book(), limits) && SettledOk(segs) && OwnedOk(segs, flows) && AllListed(segs, flows)
      ensures segs.Keys == old(segs).Keys && control == old(control) - old(carriers)[cid].hand[0].cost
      ensures carriers == old(carriers)[cid := old(carriers)[cid].(hand := [])]
    {
      LetGo(cid);
      EmptyHand(cid, old(segs));
    }

    /** The segment pinned by the frame in hand has one holder fewer. */
    method LetGo(cid: nat)
      requires cid in carriers && |carriers[cid].hand| == 1 && RefsOk(segs, carriers, writers)
      requires BufferOk(Book(), limits) && SettledOk(segs) && OwnedOk(segs, flows) && AllListed(segs, flows)
      modifies this`segs, this`used
      ensures BufferOk(Book(), limits) && SettledOk(segs) && OwnedOk(segs, flows) && AllListed(segs, flows)
      ensures segs.Keys == old(segs).Keys
      ensures carriers[cid].hand[0].Plain? ==> segs == old(segs)
      ensures carriers[cid].hand[0].Pinning? ==> OneFewer(old(segs), segs, carriers[cid].hand[0].seg)
    {
      var q := carriers[cid].hand[0];
      if q.Pinning? {
        HandIsCounted(segs, carriers, writers, cid);
        Drop(q.seg);
      }
    }

    /** Takes the frame off the books once its segment's count is adjusted. */
    method EmptyHand(cid: nat, ghost before: map<nat, Segment>)
      requires cid in carriers && |carriers[cid].hand| == 1 && Tidy(carriers[cid])
      requires RefsOk(before, carriers, writers) && CarriersOk(carriers, nextCarrier)
      requires ControlOk(control, flows, closing, carriers, limits)
      requires carriers[cid].hand[0].Plain? ==> segs == before
      requires carriers[cid].hand[0].Pinning? ==> OneFewer(before, segs, carriers[cid].hand[0].seg)
      modifies this`control, this`carriers, this`nextCarrier
      ensures RefsOk(segs, carriers, writers) && CarriersOk(carriers, nextCarrier)
      ensures ControlOk(control, flows, closing, carriers, limits)
      ensures control == old(control) - old(carriers)[cid].hand[0].cost
      ensures carriers == old(carriers)[cid := old(carriers)[cid].(hand := [])]
    {
      var c := carriers[cid];
      HandDropped(before, segs, c.hand);
      SetCarrier(cid, c.(hand := []), 0 - c.hand[0].cost, nextCarrier);
      assert CarriersOk(carriers, nextCarrier) by { CarrierKept(old(carriers), nextCarrier, cid, c.(hand := [])); }
      FrameReleased(before, segs, old(carriers), writers, cid);
    }

    /** The writer goroutine leaves: what is still queued is released, frame by
        frame, and the carrier's own charge is returned. */
    method WriterExit(cid: nat)
      requires Valid() && cid in carriers && carriers[cid].closed && !carriers[cid].exited && carriers[cid].hand == []
      modifies this`control, this`carriers, this`nextCarrier, this`segs, this`used
      ensures Valid() && carriers.Keys == old(carriers).Keys
      ensures carriers[cid].exited
      ensures forall i :: i in carriers && i != cid ==> carriers[i] == old(carriers)[i]
    {
      while carriers[cid].control != [] || carriers[cid].data != []
        invariant Valid() && cid in carriers && carriers[cid].closed && !carriers[cid].exited && carriers[cid].hand == []
        invariant carriers.Keys == old(carriers).Keys
        invariant forall i :: i in carriers && i != cid ==> carriers[i] == old(carriers)[i]
        decreases |carriers[cid].control| + |carriers[cid].data|
      {
        Take(cid, carriers[cid].control != []);
        ReleaseQueued(cid);
      }
      Retire(cid);
    }

    method Retire(cid: nat)
      requires Valid() && cid in carriers && carriers[cid].closed && !carriers[cid].exited
      requires carriers[cid].control == carriers[cid].data == carriers[cid].hand == []
      modifies this`control, this`carriers, this`nextCarrier
      ensures Valid() && carriers == old(carriers)[cid := old(carriers)[cid].(exited := true)]
      ensures control == old(control) - CARRIER_BYTES
    {
      var d := carriers[cid].(exited := true);
      SetCarrier(cid, d, 0 - CARRIER_BYTES, nextCarrier);
      assert CarriersOk(carriers, nextCarrier) by { CarrierKept(old(carriers), nextCarrier, cid, d); }
      assert RefsOk(segs, carriers, writers) by { PinsMoved(segs, old(carriers), writers, cid, d, segs); }
      assert ControlOk(control, flows, closing, carriers, limits) by { Update(old(carriers), CarrierCharge(), cid, d); }
    }

    // ----- endpoint reads

    method StartRead(id: nat, size: nat) returns (ok: bool)
      requires Valid() && id in flows && id !in inflight
      modifies this`used, this`inflight
      ensures Valid()
      ensures ok <==> HasRoom(old(used), limits, Pool(true, flows[id].udp), size + SEGMENT_OVERHEAD)
      ensures inflight == if ok then old(inflight)[id := Read(flows[id].udp, size + SEGMENT_OVERHEAD)] else old(inflight)
    {
      var udp, cost := flows[id].udp, size + SEGMENT_OVERHEAD;
      ghost var b := Book();
      ok := Reserve(true, udp, cost);
      if ok {
        inflight := inflight[id := Read(udp, cost)];
        assert WorkersOk(inflight, writers, flows) by {
          assert Working(old(inflight), writers, flows, id);
          WorkersKept(old(inflight), writers, flows, inflight, writers, flows, id);
        }
        assert BufferOk(Book(), limits) by { ReadAdded(b, limits, id, Read(udp, cost)); }
        assert IdsOk(names, flows.Keys, closing, inflight.Keys, writers.Keys) by {
          assert IdsOk(names, flows.Keys, closing, old(inflight).Keys, writers.Keys);
          assert inflight.Keys == old(inflight).Keys + {id};
        }
      }
    }

    /** The read returned n bytes.  What was reserved beyond them goes back; all
        of it does when nothing was read or the flow is gone. */
    method FinishRead(id: nat, n: nat)
      requires Valid() && id in inflight && n + SEGMENT_OVERHEAD <= inflight[id].cost
      modifies this`used, this`inflight, this`segs, this`nextSeg, this`flows
      ensures Valid() && inflight == old(inflight) - {id}
      ensures n == 0 || id !in old(flows) ==> segs == old(segs) && flows == old(flows)
      ensures n > 0 && id in old(flows) ==>
                && segs == old(segs)[old(nextSeg) := Segment(n + SEGMENT_OVERHEAD, Pool(true, old(inflight)[id].udp), true, 0, id)]
                && flows == old(flows)[id := old(flows)[id].(pending := old(flows)[id].pending + [old(nextSeg)])]
    {
      var r := inflight[id];
      var q := Pool(true, r.udp);
      assert id in flows ==> Working(inflight, writers, flows, id);
      ReadRemoved(Book(), limits, id);
      assert Balanced(Book(), q, limits);
      used := used[q := used[q] - r.cost];
      inflight := inflight - {id};
      assert WorkersOk(inflight, writers, flows) by {
        WorkersKept(old(inflight), writers, flows, inflight, writers, flows, id);
      }
      assert IdsOk(names, flows.Keys, closing, inflight.Keys, writers.Keys) by {
        assert IdsOk(names, flows.Keys, closing, old(inflight).Keys, writers.Keys);
      }
      assert Valid();
      if n > 0 && id in flows {
        AddSegment(id, Segment(n + SEGMENT_OVERHEAD, q, true, 0, id), Pending);
      }
    }

    /** A new segment, charged and put on one list of its flow. */
    method AddSegment(id: nat, s: Segment, place: Place)
      requires Valid() && id in flows && s.owned && s.refs == 0 && s.home == id
      requires s.pool in used && used[s.pool] + s.cost <= Share(limits, s.pool)
      modifies this`used, this`segs, this`nextSeg, this`flows
      ensures Valid() && segs == old(segs)[old(nextSeg) := s] && nextSeg == old(nextSeg) + 1
      ensures flows == old(flows)[id := Put(old(flows)[id], old(nextSeg), place)]
      ensures used == old(used)[s.pool := old(used)[s.pool] + s.cost]
    {
      var sid, f := nextSeg, Put(flows[id], nextSeg, place);
      assert sid !in segs.Keys;
      ghost var b := Book();
      used := used[s.pool := used[s.pool] + s.cost];
      segs := segs[sid := s];
      nextSeg := nextSeg + 1;
      flows := flows[id := f];
      assert WorkersOk(inflight, writers, flows) by {
        assert Working(inflight, writers, old(flows), id);
        WorkersKept(inflight, writers, old(flows), inflight, writers, flows, id);
      }
      assert BufferOk(Book(), limits) by {
        SegmentAdded(b, limits, sid, s);
        FlowChanged(Ledger(used, segs, old(flows), inflight), limits, id, f);
      }
      assert RefsOk(segs, carriers, writers) by { SameRefs(old(segs), carriers, writers, segs); }
      assert OwnedOk(segs, flows) && AllListed(segs, flows) by { SegmentListed(old(segs), old(flows), id, sid, s, place); }
      assert flows.Keys == old(flows).Keys;
      assert segs.Keys == old(segs).Keys + {sid};
    }

    // ----- segments that arrive, wait and leave

    /** Bytes for a flow of this peer: a stream segment held out of order, a
        datagram ready at once, or a datagram to send.  Refused when the pool
        has no room. */
    method Charge(id: nat, n: nat, send: bool, place: Place) returns (ok: bool)
      requires Valid() && id in flows
      modifies this`used, this`segs, this`nextSeg, this`flows
      ensures Valid()
      ensures Pool(send, old(flows)[id].udp) in old(used)
      ensures ok <==> old(used)[Pool(send, old(flows)[id].udp)] + n + SEGMENT_OVERHEAD <= Share(limits, Pool(send, old(flows)[id].udp))
      ensures ok ==> flows == old(flows)[id := Put(old(flows)[id], old(nextSeg), place)]
      ensures ok ==> segs == old(segs)[old(nextSeg) := Segment(n + SEGMENT_OVERHEAD, Pool(send, old(flows)[id].udp), true, 0, id)]
      ensures ok ==> var f := old(flows)[id];
                     flows[id] == match place
                                  case Pending => f.(pending := f.pending + [old(nextSeg)])
                                  case Held => f.(recv := f.recv + {old(nextSeg)})
                                  case Ready => f.(ready := f.ready + [old(nextSeg)])
      ensures !ok ==> flows == old(flows) && segs == old(segs) && used == old(used)
    {
      var q := Pool(send, flows[id].udp);
      assert Balanced(Book(), q, limits);
      var cost := n + SEGMENT_OVERHEAD;
      if used[q] + cost > Share(limits, q) {
        return false;
      }
      AddSegment(id, Segment(cost, q, true, 0, id), place);
      return true;
    }

    /** Replaces the lists of one flow, whose segments are already adjusted. */
    method SetLists(id: nat, f: Flow, ghost before: map<nat, Segment>)
      requires id in flows && f.udp == flows[id].udp && BufferOk(Book(), limits)
      requires OwnedOk(before, flows) && AllListed(before, flows) && before.Keys == segs.Keys
      requires forall sid :: sid in segs ==> segs[sid].home == before[sid].home && (segs[sid].owned ==> before[sid].owned)
      requires forall sid :: sid in segs && segs[sid].owned && flows[id].Lists(sid) ==> f.Lists(sid)
      requires forall sid :: f.Lists(sid) ==> flows[id].Lists(sid)
      requires WorkersOk(inflight, writers, flows) && (f.ready == flows[id].ready || id !in writers || flows[id].ready <= f.ready)
      modifies this`flows
      ensures flows == old(flows)[id := f] && flows.Keys == old(flows).Keys && WorkersOk(inflight, writers, flows)
      ensures BufferOk(Book(), limits) && OwnedOk(segs, flows) && AllListed(segs, flows)
    {
      FlowChanged(Book(), limits, id, f);
      ListsShrunk(before, segs, flows, id, f);
      assert Working(inflight, writers, flows, id);
      flows := flows[id := f];
      WorkersKept(inflight, writers, old(flows), inflight, writers, flows, id);
    }

    /** A segment that now continues the stream moves to the ready queue. */
    method MoveReady(id: nat, sid: nat)
      requires Valid() && id in flows && sid in flows[id].recv
      modifies this`flows
      ensures Valid()
      ensures flows == old(flows)[id := old(flows)[id].(recv := old(flows)[id].recv - {sid}, ready := old(flows)[id].ready + [sid])]
    {
      var f := flows[id];
      SetLists(id, f.(recv := f.recv - {sid}, ready := f.ready + [sid]), segs);
    }

    /** Splits a list in place of the filter loop: what is gone is discarded. */
    method Sift(list: seq<nat>, gone: set<nat>) returns (keep: seq<nat>)
      requires BufferOk(Book(), limits) && SettledOk(segs)
      requires forall i :: 0 <= i < |list| ==> list[i] in segs
      modifies this`used, this`segs
      ensures BufferOk(Book(), limits) && SettledOk(segs) && segs.Keys == old(segs).Keys
      ensures keep == Without(list, gone)
      ensures forall sid :: sid in segs ==> SameBut(old(segs)[sid], segs[sid], sid in list && sid in gone)
    {
      keep := [];
      var done: seq<nat> := [];
      for i := 0 to |list|
        invariant BufferOk(Book(), limits) && SettledOk(segs) && segs.Keys == old(segs).Keys
        invariant keep == Without(list[..i], gone) && done == list[..i]
        invariant forall sid :: sid in segs ==> SameBut(old(segs)[sid], segs[sid], sid in done && sid in gone)
      {
        WithoutSnoc(list[..i], list[i], gone);
        assert list[..i + 1] == list[..i] + [list[i]];
        done := done + [list[i]];
        if list[i] in gone {
          Discard(list[i]);
        } else {
          keep := keep + [list[i]];
        }
      }
      assert list[..|list|] == list;
    }

    /** Acknowledged or expired segments leave the retained list. */
    method Forget(id: nat, gone: set<nat>)
      requires Valid() && id in flows
      modifies this`used, this`segs, this`flows
      ensures Valid()
      ensures flows == old(flows)[id := old(flows)[id].(pending := Without(old(flows)[id].pending, gone))]
      ensures forall sid :: sid in flows[id].pending <==> sid in old(flows)[id].pending && sid !in gone
    {
      var f := flows[id];
      assert Listed(segs, flows, id);
      var keep := Sift(f.pending, gone);
      assert forall sid :: sid in keep <==> sid in f.pending && sid !in gone by {
        forall sid ensures sid in keep <==> sid in f.pending && sid !in gone { Sifted(f.pending, gone, sid); }
      }
      SetLists(id, f.(pending := keep), old(segs));
      assert RefsOk(segs, carriers, writers) by { SameRefs(old(segs), carriers, writers, segs); }
    }

    /** The endpoint writer takes the first ready segment in hand. */
    method TakeReady(id: nat)
      requires Valid() && id in flows && flows[id].ready != [] && id !in writers
      modifies this`segs, this`writers
      ensures Valid() && writers == old(writers)[id := flows[id].ready[0]]
    {
      var sid := flows[id].ready[0];
      assert Listed(segs, flows, id) && flows[id].Lists(sid);
      Hold(sid);
      writers := writers[id := sid];
      assert RefsOk(segs, carriers, writers) by { WriterAdded(old(segs), carriers, old(writers), id, sid, segs); }
      assert WorkersOk(inflight, writers, flows) by {
        assert Working(inflight, old(writers), flows, id);
        WorkersKept(inflight, old(writers), flows, inflight, writers, flows, id);
      }
      assert writers.Keys == old(writers).Keys + {id};
      assert IdsOk(names, flows.Keys, closing, inflight.Keys, writers.Keys) by {
        assert IdsOk(names, flows.Keys, closing, inflight.Keys, old(writers).Keys);
      }
      assert segs.Keys == old(segs).Keys;
    }

    /** The write returned.  The segment leaves the ready queue, or, when the
        flow was closed meanwhile, this was its last holder. */
    method FinishWrite(id: nat)
      requires Valid() && id in writers
      modifies this`used, this`segs, this`flows, this`writers
      ensures Valid() && writers == old(writers) - {id}
      ensures flows == if id in old(flows) then old(flows)[id := Popped(old(flows)[id])] else old(flows)
    {
      var sid := writers[id];
      HeldIsCounted(segs, carriers, writers, id);
      Drop(sid);
      assert segs.Keys == old(segs).Keys;
      assert id in flows ==> Working(inflight, writers, flows, id);
      writers := writers - {id};
      assert WorkersOk(inflight, writers, flows) by {
        WorkersKept(inflight, old(writers), flows, inflight, writers, flows, id);
      }
      assert RefsOk(segs, carriers, writers) by { WriterRemoved(old(segs), carriers, old(writers), id, segs); }
      assert IdsOk(names, flows.Keys, closing, inflight.Keys, writers.Keys) by {
        assert IdsOk(names, flows.Keys, closing, inflight.Keys, old(writers).Keys);
      }
      assert Valid();
      if id in flows {
        PopReady(id);
      }
    }

    method PopReady(id: nat)
      requires Valid() && id in flows && flows[id].ready != [] && id !in writers
      modifies this`used, this`segs, this`flows
      ensures Valid() && flows == old(flows)[id := Popped(old(flows)[id])]
    {
      var f := flows[id];
      assert Listed(segs, flows, id) && f.Lists(f.ready[0]);
      DiscardAll([f.ready[0]]);
      SetLists(id, f.(ready := f.ready[1..]), old(segs));
      assert RefsOk(segs, carriers, writers) by { SameRefs(old(segs), carriers, writers, segs); }
    }

    // ----- the end

    /** CLOSED arrived, or the closing notice expired. */
    method EndClosing(id: nat)
      requires Valid()
      modifies this`closing, this`control
      ensures Valid() && closing == old(closing) - {id}
      ensures control == old(control) - if id in old(closing) then FLOW_RECORD else 0
    {
      if id in closing {
        closing := closing - {id};
        control := control - FLOW_RECORD;
      }
    }

    method CloseFlows()
      requires Valid()
      modifies this`used, this`segs, this`control, this`flows, this`closing
      ensures Valid() && flows == map[] && closing == old(closing)
    {
      while flows.Keys != {}
        invariant Valid() && closing == old(closing)
        decreases |flows.Keys|
      {
        var id :| id in flows.Keys;
        CloseFlow(id, false);
      }
      assert flows == map[];
    }

    static predicate AllClosed(was: map<nat, Carrier>, now: map<nat, Carrier>) {
      now.Keys == was.Keys && forall cid :: cid in now ==> now[cid] == was[cid].(closed := true)
    }

    static predicate Shutting(was: map<nat, Carrier>, now: map<nat, Carrier>, cid: nat, waits: bool) {
      cid in was && cid in now && now[cid] == if waits then was[cid] else was[cid].(closed := true)
    }

    method CloseCarriers()
      requires Valid()
      modifies this`control, this`carriers, this`nextCarrier
      ensures Valid() && control == old(control) && AllClosed(old(carriers), carriers)
    {
      var left := carriers.Keys;
      while left != {}
        invariant Valid() && control == old(control) && left <= carriers.Keys == old(carriers).Keys
        invariant forall cid :: cid in carriers ==> Shutting(old(carriers), carriers, cid, cid in left)
        decreases |left|
      {
        var cid :| cid in left;
        CloseCarrier(cid);
        left := left - {cid};
      }
    }

    /** The relay has lost the session: every flow and carrier is closed, and from
        now on nothing new is taken on. */
    method LoseGeneration()
      requires Valid() && names.Gateway?
      modifies this`used, this`segs, this`control, this`flows, this`closing, this`carriers, this`nextCarrier, this`terminal
      ensures Valid() && terminal && flows == map[] && closing == old(closing)
      ensures AllClosed(old(carriers), carriers)
    {
      CloseFlows();
      CloseCarriers();
      terminal := true;
    }

    /** close(): carriers and flows are closed, closing notices dropped; what workers
        still hold stays charged until they let go. */
    method Shut()
      requires Valid()
      modifies this`used, this`segs, this`control, this`flows, this`closing, this`carriers, this`nextCarrier, this`closed
      ensures Valid() && closed && flows == map[] && closing == {}
      ensures AllClosed(old(carriers), carriers)
    {
      CloseCarriers();
      CloseFlows();
      control := control - FLOW_RECORD * |closing|;
      closing := {};
      closed := true;
    }
  }

  /** Once a peer is closed and its workers are done, nothing is left charged:
      every pool and the control budget are back at zero. */
  lemma QuietPeerOwesNothing(p: Peer)
    requires p.Valid() && p.closed
    requires p.inflight == map[] && p.writers == map[]
    requires forall cid :: cid in p.carriers ==> p.carriers[cid].exited
    ensures forall q: Pool :: q in p.used && p.used[q] == 0
    ensures p.control == 0
  {
    forall cid | cid in p.carriers ensures p.carriers[cid].control == p.carriers[cid].data == p.carriers[cid].hand == [] {
      assert CarrierOk(p.carriers, cid, p.nextCarrier);
    }
    Zero(p.carriers, CarrierCharge());
    forall sid | sid in p.segs ensures p.segs[sid].cost == 0 {
      assert Home(p.segs, p.flows, sid) && Settled(p.segs[sid]);
      assert Counted(p.segs, p.carriers, p.writers, sid);
      Zero(p.carriers, CarrierPins(sid));
    }
    forall q: Pool ensures q in p.used && p.used[q] == 0 {
      assert Balanced(p.Book(), q, p.limits);
      Zero(p.segs, OfSegment(q));
    }
  }

  /** In every valid state each pool is between zero and its share and the four
      together fit the configured buffer; so does the control budget. */
  lemma BudgetsHold(p: Peer)
    requires p.Valid()
    ensures forall q: Pool :: q in p.used && 0 <= p.used[q] <= Share(p.limits, q)
    ensures p.used[Pool(false, false)] + p.used[Pool(false, true)] + p.used[Pool(true, false)] + p.used[Pool(true, true)] <= p.limits.buffer
    ensures 0 <= p.control <= p.limits.control
  {
    PoolsBounded(p.Book(), p.limits);
    NonNegative(p.carriers, CarrierCharge());
  }
}
