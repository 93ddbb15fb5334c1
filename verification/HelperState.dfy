/** The durable state of the privileged helper (internal/helper: State,
    Transaction), what the next read demands of it, and the states that its
    operations write. */
module HelperState {
  import opened Intent
  import opened Tables

  // ----- what is on disk

  datatype TxState = Prepared | Applying | Applied | Confirmed | RollingBack | RolledBack | Failed
  datatype Reset = NoReset | PendingReset | CompletedReset | FailedReset

  datatype Txn = Txn(
    id: string, selection: bool, state: TxState, deadline: nat,
    candidate: Desired, rollback: Desired, previous: Option<Desired>,
    wasEmergency: bool, reset: Reset)

  datatype State = State(
    job: string, lastJob: string, hold: bool,
    pending: bool, emergency: bool, guarded: bool,
    committed: Option<Desired>, txn: Option<Txn>)

  const BLANK := State("", "", false, false, false, false, None, None)

  // ----- what is in the kernel

  datatype Overlay = NoOverlay | PartOverlay | FullOverlay

  /** `policy`: the intent whose tables and routes are completely installed; a
      failed change leaves `torn`.  Over it may lie the quarantine guard and the
      emergency tables.  `removing`: a removal has begun since the last change. */
  datatype Net = Net(policy: Option<Desired>, torn: bool, guard: bool, emergency: Overlay, removing: bool)

  function Clean(d: Desired): Net { Net(Some(d), false, false, NoOverlay, false) }

  // ----- reading a journal back

  predicate ValidTxn(id: string) {
    |id| == 32 && forall i :: 0 <= i < |id| ==> '0' <= id[i] <= '9' || 'a' <= id[i] <= 'f' || 'A' <= id[i] <= 'F'
  }

  function SlotOf(paths: seq<Path>, source: string): nat {
    if paths == [] then 0 else if paths[0].source == source then paths[0].slot else SlotOf(paths[1..], source)
  }

  /** The slot whose connections a confirmed change must end, 0 for none. */
  function ResetSlot(t: Txn): nat {
    if !t.candidate.breakExisting || t.previous.None? || t.previous.value.selected == ""
       || t.previous.value.selected == t.candidate.selected then 0
    else SlotOf(t.previous.value.paths, t.previous.value.selected)
  }

  /** A confirmed change ends the connections of the source it moves away from. */
  predicate EndsOldFlows(candidate: Desired, previous: Option<Desired>) {
    && candidate.breakExisting && previous.Some? && previous.value.selected != "" && previous.value.selected != candidate.selected
    && exists i :: 0 <= i < |previous.value.paths| && previous.value.paths[i].source == previous.value.selected
  }

  lemma {:induction false} SlotOfMeans(paths: seq<Path>, source: string)
    ensures (exists i :: 0 <= i < |paths| && paths[i].source == source) ==>
              exists i :: 0 <= i < |paths| && paths[i].source == source && paths[i].slot == SlotOf(paths, source)
    ensures !(exists i :: 0 <= i < |paths| && paths[i].source == source) ==> SlotOf(paths, source) == 0
  {
    if paths != [] && paths[0].source != source {
      SlotOfMeans(paths[1..], source);
      assert forall i :: 1 <= i < |paths| ==> paths[i] == paths[1..][i - 1];
    }
  }

  predicate TxnOk(t: Txn) {
    && ValidTxn(t.id) && Accepts(t.candidate) && Accepts(t.rollback)
    && (t.previous.Some? ==> Accepts(t.previous.value))
    && (t.selection ==> t.previous.Some? && SwitchOk(t.previous.value, t.candidate) && t.reset.NoReset?)
    && (!t.reset.NoReset? ==> t.state.Confirmed? && ResetSlot(t) != 0)
  }

  /** The manager refuses to work on a journal that fails this. */
  predicate ReadOk(s: State) {
    && (s.job != "" ==> ValidTxn(s.job) && s.hold)
    && (s.lastJob != "" ==> ValidTxn(s.lastJob))
    && (s.committed.Some? ==> Accepts(s.committed.value))
    && (s.txn.Some? ==> TxnOk(s.txn.value))
  }

  // ----- transactions

  predicate IdIn(t: Option<Txn>, id: string) { t.Some? && t.value.id == id }

  predicate Active(t: Option<Txn>) {
    t.Some? && (t.value.state.Prepared? || t.value.state.Applying? || t.value.state.Applied? || t.value.state.RollingBack?)
  }

  predicate Undone(t: Option<Txn>) { t.Some? && (t.value.state.RollingBack? || t.value.state.RolledBack?) }
  predicate Kept(t: Option<Txn>) { t.Some? && t.value.state.Confirmed? }

  /** The network may be neither side's: recovery has something to undo. */
  predicate Changing(t: Option<Txn>) {
    t.Some? && (t.value.state.Applying? || t.value.state.RollingBack?)
  }

  predicate InFlight(t: Option<Txn>) { Changing(t) || (t.Some? && t.value.state.Applied?) }

  /** What quarantine and emergency work on. */
  function Present(s: State): Option<Desired> {
    if InFlight(s.txn) then Some(s.txn.value.candidate) else s.committed
  }

  // ----- allocations

  /** Every path an intent allocates. */
  function Owners(d: Desired): seq<Path> {
    d.paths + (if d.selective.Some? then [d.selective.value.path] else [])
    + (if d.continuity.Some? then [d.continuity.value.path] else [])
  }

  predicate PairOk(was: Path, next: Path) {
    && (was.slot == next.slot ==>
          (was.source, was.kind, was.device, was.port, was.dnsPort) == (next.source, next.kind, next.device, next.port, next.dnsPort))
    && (was.source == next.source && was.source != SELECTIVE ==> was.slot == next.slot)
  }

  /** A committed slot keeps its source and listener, and a retained source its
      slot; only the dispatcher may move, and then to the other address pool. */
  predicate Compatible(was: Desired, next: Desired) {
    && was.network.lan == next.network.lan
    && (was.selective.Some? && next.selective.Some? && was.selective.value.path.slot != next.selective.value.path.slot
        ==> was.selective.value.fakePool != next.selective.value.fakePool)
    && forall i, j :: 0 <= i < |Owners(was)| && 0 <= j < |Owners(next)| ==> PairOk(Owners(was)[i], Owners(next)[j])
  }

  /** The intent allocates the path: for a source, the dispatcher or the stable
      endpoint of continuity. */
  predicate Allocates(d: Desired, p: Path) {
    || p in d.paths
    || (d.selective.Some? && p == d.selective.value.path)
    || (d.continuity.Some? && p == d.continuity.value.path)
  }

  /** No mark changes hands: equal slots belong to the same source with the same
      listener, and a source other than the dispatcher keeps its slot.  The order
      of LAN devices stays, and two dispatchers side by side use different pools. */
  ghost predicate AllocationsKept(was: Desired, next: Desired) {
    && was.network.lan == next.network.lan
    && (was.selective.Some? && next.selective.Some? && was.selective.value.fakePool == next.selective.value.fakePool ==>
          was.selective.value.path.slot == next.selective.value.path.slot)
    && (forall p, q :: Allocates(was, p) && Allocates(next, q) && p.slot == q.slot ==>
          p.source == q.source && p.kind == q.kind && p.device == q.device && p.port == q.port && p.dnsPort == q.dnsPort)
    && (forall p, q :: Allocates(was, p) && Allocates(next, q) && p.source == q.source && p.source != SELECTIVE ==> p.slot == q.slot)
  }

  lemma OwnersAllocate(d: Desired, p: Path)
    ensures p in Owners(d) <==> Allocates(d, p)
  {
  }

  lemma CompatibleMeans(was: Desired, next: Desired)
    ensures Compatible(was, next) <==> AllocationsKept(was, next)
  {
    var a, b := Owners(was), Owners(next);
    if Compatible(was, next) {
      forall p, q | Allocates(was, p) && Allocates(next, q) ensures PairOk(p, q) {
        OwnersAllocate(was, p);
        OwnersAllocate(next, q);
        var i :| 0 <= i < |a| && a[i] == p;
        var j :| 0 <= j < |b| && b[j] == q;
        assert PairOk(a[i], b[j]);
      }
    }
    if AllocationsKept(was, next) {
      forall i, j | 0 <= i < |a| && 0 <= j < |b| ensures PairOk(a[i], b[j]) {
        OwnersAllocate(was, a[i]);
        OwnersAllocate(next, b[j]);
      }
    }
  }

  // ----- the states that are written

  function WithReset(s: State, r: Reset): State
    requires s.txn.Some?
  {
    s.(txn := Some(s.txn.value.(reset := r)))
  }

  function NewTxn(s: State, d: Desired, id: string): Txn {
    Txn(id, false, Prepared, 0, d,
        if s.hold then HeldRollback(d, s.committed) else SafeRollback(d, s.committed),
        s.committed, s.emergency || s.pending, NoReset)
  }

  function InState(s: State, x: TxState): State
    requires s.txn.Some?
  {
    s.(txn := Some(s.txn.value.(state := x)))
  }

  function Started(s: State, deadline: nat): State
    requires s.txn.Some?
  {
    s.(txn := Some(s.txn.value.(state := Applying, deadline := deadline)))
  }

  /** All marks of quarantine and emergency are gone with a full apply. */
  function Cleared(s: State, guarded: bool): State { s.(guarded := guarded, emergency := false, pending := false) }

  function AppliedState(s: State): State
    requires s.txn.Some?
  {
    Cleared(InState(s, Applied), false)
  }

  function RolledTo(s: State): State
    requires s.txn.Some?
  {
    var r := s.txn.value.rollback;
    Cleared(InState(s, RolledBack), r.selected == "" && r.selective.None?).(committed := Some(r))
  }

  function ConfirmedState(s: State): State
    requires s.txn.Some?
  {
    var t := s.txn.value.(state := Confirmed);
    s.(txn := Some(if ResetSlot(t) != 0 then t.(reset := PendingReset) else t), committed := Some(t.candidate), hold := false)
  }

  function Flagged(s: State): State { s.(emergency := true, pending := true) }
  function Directed(s: State): State { s.(emergency := true, pending := false, guarded := false) }

  function SwitchTxn(s: State, d: Desired, id: string, deadline: nat): Txn {
    Txn(id, true, Applying, deadline, d, SafeRollback(d, s.committed), s.committed, false, NoReset)
  }

  function Switching(s: State, d: Desired, id: string, deadline: nat): State {
    s.(txn := Some(SwitchTxn(s, d, id, deadline)))
  }

  function Switched(s: State): State
    requires s.txn.Some?
  {
    InState(s, Confirmed).(committed := Some(s.txn.value.candidate))
  }

  /** Everything is forgotten but the maintenance gate; a hold taken for a local
      removal of selective routing is given back. */
  function Decommissioned(s: State): State
    requires s.committed.Some?
  {
    State(s.job, s.lastJob, if s.committed.value.selective.Some? && s.job == "" then false else s.hold,
          false, false, false, None, None)
  }
}
