/** The gateway's backhaul transaction (internal/coverage/transaction.go) as a
    machine: one step is a call, a save, one effect on the wireless configuration
    or on the watchdog, or a crash.  The guards are those of the code. */
module GatewayRun {
  import opened Intent

  // ----- the journal

  datatype GState = Prepared | Applying | Applied | Confirmed | Finalized | RollingBack | RolledBack | Failed

  datatype Mode = Wds | Mesh | UnknownMode

  datatype Plan = Plan(mode: Mode, section: string, network: string, peer: string, adopt: bool, preserve: bool)

  datatype GTxn = GTxn(id: string, state: GState, deadline: Option<nat>, plan: Plan)

  datatype WiFi = WiFi(ssid: string, passphrase: string, channel: int)

  /** The access point's section and the whole wireless configuration. */
  datatype Snapshot = Snapshot(section: string, config: string)

  datatype Journal = Journal(wifi: Option<WiFi>, txn: Option<GTxn>, snapshot: Option<Snapshot>, key: string, hash: string)

  const BLANK := Journal(None, None, None, "", "")

  // ----- reading it back

  predicate KeyOk(s: string) {
    16 <= |s| <= 128 && forall i :: 0 <= i < |s| ==> NameChar(s[i]) || s[i] == '.'
  }

  predicate PlanOk(p: Plan) {
    && !p.mode.UnknownMode? && ValidDevice(p.section) && ValidDevice(p.network)
    && p.network != "wan" && p.network != "wan6" && p.network != "loopback"
    && LowerHex(p.peer, 64) && p.adopt && p.preserve
  }

  predicate CleanText(s: string, min: nat, max: nat) {
    min <= |s| <= max && forall i :: 0 <= i < |s| ==> s[i] >= ' ' && !('\U{007f}' <= s[i] <= '\U{009f}')
  }

  predicate PreparedOk(snapshot: Option<Snapshot>, p: Plan, wifi: Option<WiFi>) {
    && snapshot.Some? && 0 < |snapshot.value.config| <= 0x40000 && snapshot.value.section == p.section
    && wifi.Some? && CleanText(wifi.value.ssid, 1, 32) && CleanText(wifi.value.passphrase, 8, 63)
    && 1 <= wifi.value.channel <= 233
  }

  predicate Active(t: Option<GTxn>) {
    t.Some? && (t.value.state.Prepared? || t.value.state.Applying? || t.value.state.Applied? || t.value.state.RollingBack?)
  }

  /** The change may still have to be undone. */
  predicate Holding(t: Option<GTxn>) { Active(t) || (t.Some? && t.value.state.Confirmed?) }

  predicate ReadOk(j: Journal) {
    j.txn.Some? ==>
      var t := j.txn.value;
      && LowerHex(t.id, 32) && PlanOk(t.plan) && KeyOk(j.key) && LowerHex(j.hash, 64)
      && (t.state.Applying? || t.state.Applied? ==> t.deadline.Some?)
      && (Holding(j.txn) ==> PreparedOk(j.snapshot, t.plan, j.wifi))
  }

  // ----- the journals that are written

  predicate IdIn(t: Option<GTxn>, id: string) { t.Some? && t.value.id == id }

  function NewJournal(p: Plan, id: string, key: string, hash: string, snapshot: Snapshot, wifi: WiFi): Journal {
    Journal(Some(wifi), Some(GTxn(id, Prepared, None, p)), Some(snapshot), key, hash)
  }

  function InState(j: Journal, s: GState, deadline: Option<nat>): Journal
    requires j.txn.Some?
  {
    j.(txn := Some(j.txn.value.(state := s, deadline := deadline)))
  }

  function Erased(j: Journal): Journal { j.(snapshot := None, wifi := None) }

  // ----- the machine

  /** `found`: what the backend reports of the access point, None when it refuses. */
  datatype Op =
    | Prepare(p: Plan, key: string, hash: string, id: string, found: Option<Found>)
    | Apply(id: string, timeout: nat, now: nat)
    | Confirm(id: string, now: nat)
    | Rollback(id: string)
    | Recover(now: nat)
    | Finalize(id: string)

  datatype Found = Found(snapshot: Snapshot, wifi: WiFi)

  datatype Then = Finished | ThenArm | ThenRestore

  datatype Proc = Idle | Saving(want: Journal, todo: Then) | Arming(j: Journal) | Installing(j: Journal) | Restoring(j: Journal)

  /** `air`: the wireless configuration; `base`: what it was when the transaction
      on disk was prepared; `used`: identities that have been on disk. */
  datatype World = World(disk: Journal, air: string, proc: Proc, base: string, used: set<string>)

  datatype Step =
    | Call(op: Op) | Save(ok: bool, written: bool) | Arm(armed: bool)
    | Tear(left: string) | Install(ok: bool) | Restore(ok: bool) | Leave | Crash

  function RollProc(j: Journal): Proc
    requires j.txn.Some?
  {
    Saving(InState(j, RollingBack, j.txn.value.deadline), ThenRestore)
  }

  /** Up to the first save; Idle when the call returns without one. */
  function Start(op: Op, j: Journal): Proc {
    match op
    case Prepare(p, key, hash, id, found) =>
      if !PlanOk(p) || !KeyOk(key) || j.key == key || Holding(j.txn) || found.None?
         || !PreparedOk(Some(found.value.snapshot), p, Some(found.value.wifi)) then Idle
      else Saving(NewJournal(p, id, key, hash, found.value.snapshot, found.value.wifi), Finished)
    case Apply(id, timeout, now) =>
      if timeout < 30 || timeout > 180 || !IdIn(j.txn, id) || !j.txn.value.state.Prepared? then Idle
      else Saving(InState(j, Applying, Some(now + timeout)), ThenArm)
    case Confirm(id, now) =>
      if !IdIn(j.txn, id) || !j.txn.value.state.Applied? || j.txn.value.deadline.None? then Idle
      else if now >= j.txn.value.deadline.value then RollProc(j)
      else Saving(InState(j, Confirmed, None), Finished)
    case Rollback(id) =>
      if !IdIn(j.txn, id) || j.txn.value.state.RolledBack? || j.txn.value.state.Finalized? || j.txn.value.state.Failed? then Idle
      else if j.txn.value.state.Prepared? then Saving(Erased(InState(j, RolledBack, j.txn.value.deadline)), Finished)
      else RollProc(j)
    case Recover(now) =>
      if !Active(j.txn) || j.txn.value.state.Prepared? then Idle
      else if j.txn.value.state.RollingBack? || (j.txn.value.deadline.Some? && now >= j.txn.value.deadline.value) then RollProc(j)
      else Idle
    case Finalize(id) =>
      if !IdIn(j.txn, id) || !j.txn.value.state.Confirmed? then Idle
      else Saving(Erased(InState(j, Finalized, j.txn.value.deadline)), Finished)
  }

  function Follow(j: Journal, todo: Then): Proc {
    match todo
    case Finished => Idle
    case ThenArm => Arming(j)
    case ThenRestore => Restoring(j)
  }

  predicate Enabled(w: World, step: Step) {
    match step
    case Call(op) =>
      && w.proc.Idle? && ReadOk(w.disk)
      && (op.Prepare? ==> LowerHex(op.id, 32) && op.id !in w.used && LowerHex(op.hash, 64))
      && (op.Prepare? && op.found.Some? ==> op.found.value.snapshot.config == w.air)
    case Save(ok, written) => w.proc.Saving?
    case Arm(armed) => w.proc.Arming? && w.proc.j.txn.Some?
    case Tear(left) => w.proc.Installing? || w.proc.Restoring?
    case Install(ok) => w.proc.Installing? && w.proc.j.txn.Some?
    case Restore(ok) => w.proc.Restoring? && w.proc.j.txn.Some? && w.proc.j.snapshot.Some?
    case Leave => w.proc.Saving?
    case Crash => true
  }

  function Ids(j: Journal): set<string> { if j.txn.Some? then {j.txn.value.id} else {} }

  /** A transaction that was not on disk before. */
  predicate Begun(disk: Journal, want: Journal) { want.txn.Some? && !IdIn(disk.txn, want.txn.value.id) }

  function Next(w: World, step: Step): World
    requires Enabled(w, step)
  {
    match step
    case Call(op) => w.(proc := Start(op, w.disk))
    case Save(ok, written) =>
      // The file may have been replaced although the call failed.
      var after := if ok then Follow(w.proc.want, w.proc.todo) else Idle;
      if ok || written then
        World(w.proc.want, w.air, after, if Begun(w.disk, w.proc.want) then w.air else w.base, w.used + Ids(w.proc.want))
      else w.(proc := after)
    case Arm(armed) =>
      w.(proc := if armed then Installing(w.proc.j)
                 else Saving(Erased(InState(w.proc.j, Failed, w.proc.j.txn.value.deadline)), Finished))
    case Tear(left) => w.(air := left)
    case Install(ok) =>
      w.(proc := if ok then Saving(InState(w.proc.j, Applied, w.proc.j.txn.value.deadline), Finished) else RollProc(w.proc.j))
    case Restore(ok) =>
      if ok then w.(air := w.proc.j.snapshot.value.config, proc := Saving(Erased(InState(w.proc.j, RolledBack, None)), Finished))
      else w.(proc := Saving(w.proc.j, Finished))
    case Leave => w.(proc := Idle)
    case Crash => w.(proc := Idle)
  }

  predicate Begins(w: World) {
    w.disk == BLANK && w.proc.Idle? && w.base == w.air && w.used == {}
  }

  predicate StepAt(states: seq<World>, steps: seq<Step>, i: nat)
    requires i < |steps| && |states| == |steps| + 1
  {
    Enabled(states[i], steps[i]) && states[i + 1] == Next(states[i], steps[i])
  }

  predicate Run(states: seq<World>, steps: seq<Step>) {
    && |states| == |steps| + 1 && Begins(states[0])
    && forall i {:trigger StepAt(states, steps, i)} :: 0 <= i < |steps| ==> StepAt(states, steps, i)
  }

  lemma Extended(states: seq<World>, steps: seq<Step>, step: Step)
    requires Run(states, steps) && Enabled(states[|steps|], step)
    ensures Run(states + [Next(states[|steps|], step)], steps + [step])
  {
    var ws, ss := states + [Next(states[|steps|], step)], steps + [step];
    forall i | 0 <= i < |ss| ensures StepAt(ws, ss, i) {
      if i < |steps| { assert StepAt(states, steps, i); }
    }
  }

  /** Whatever a run has reached, it has reached by a run. */
  lemma PrefixIsRun(states: seq<World>, steps: seq<Step>, n: nat)
    requires Run(states, steps) && n < |states|
    ensures Run(states[..n + 1], steps[..n])
  {
    var ws, ss := states[..n + 1], steps[..n];
    forall i | 0 <= i < |ss| ensures StepAt(ws, ss, i) {
      assert StepAt(states, steps, i);
    }
  }
}
