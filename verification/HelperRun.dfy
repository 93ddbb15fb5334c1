/** The helper as a machine.  One step is a call, a save, one effect on the
    network or on a neighbour, or a crash; between two steps the process may die
    and all that it held in memory is gone.  The guards are those of the code. */
module HelperRun {
  import opened Intent
  import opened Tables
  import opened HelperState

  datatype Op =
    | Prepare(d: Desired, automatic: bool, id: string)
    | Apply(id: string, timeout: nat, now: nat)
    | Confirm(id: string, now: nat)
    | Rollback(id: string)
    | Recover(now: nat)
    | Switch(source: string, id: string, now: nat)
    | SelectiveEmergency(transaction: string)
    | BootGuard
    | AcquireMaintenance(id: string, recovery: bool)
    | ReleaseMaintenance(id: string)
    | PreserveClosed(id: string)
    | RestoreDirect(id: string)

  /** What an operation goes on with after ending old connections. */
  datatype Goal = Return | ToPrepare(d: Desired, id: string) | ToSwitch(source: string, id: string, now: nat)

  /** What follows a save that succeeded. */
  datatype Then =
    | Finished | ThenReset(goal: Goal) | ThenFlows(goal: Goal) | ThenResume(goal: Goal)
    | ThenArm | ThenUndo | ThenDirect(d: Desired) | ThenClose(remove: bool) | ThenQuarantine(remove: bool)

  /** Where the running operation stands, with the state it has in memory. */
  datatype Proc =
    | Idle
    | Saving(want: State, todo: Then)
    | Flows(s: State, goal: Goal)
    | Arming(s: State)
    | Installing(s: State)
    | Reclassifying(s: State)
    | Undoing(s: State)
    | Directing(s: State, d: Desired)
    | Closing(s: State, remove: bool)
    | Removing(s: State)

  /** `used`: the identities that have ever been on disk. */
  datatype World = World(disk: State, net: Net, proc: Proc, used: set<string>)

  datatype Step =
    | Call(op: Op)
    | Save(ok: bool, written: bool)
    | EndFlows(gone: bool)
    | Arm(armed: bool)
    | Tear(left: Net)
    | Install(ok: bool)
    | Reclassify(ok: bool, left: Net)
    | Undo(ok: bool)
    | GoDirect(ok: bool)
    | Close(ok: bool, done: bool)
    | Remove(ok: bool)
    | Leave
    | Crash

  // ----- operations up to their first effect

  /** finishFlowReset */
  function ResetProc(s: State, goal: Goal): Proc {
    if s.txn.None? then Resume(s, goal)
    else
      var t := s.txn.value;
      if !t.state.Confirmed? || !(t.reset.PendingReset? || t.reset.FailedReset?) then Resume(s, goal)
      else if ResetSlot(t) == 0 then Idle
      else Saving(WithReset(s, PendingReset), ThenFlows(goal))
  }

  function Resume(s: State, goal: Goal): Proc {
    match goal
    case Return => Idle
    case ToPrepare(d, id) => Propose(s, d, id)
    case ToSwitch(source, id, now) => SwitchProc(s, source, id, now)
  }

  /** The second half of prepare. */
  function Propose(s: State, d: Desired, id: string): Proc {
    if Active(s.txn) || (s.committed.Some? && !Compatible(s.committed.value, d)) then Idle
    else Saving(s.(txn := Some(NewTxn(s, d, id))), Finished)
  }

  /** The second half of switchSelection. */
  function SwitchProc(s: State, source: string, id: string, now: nat): Proc {
    if s.committed.None? then Idle
    else
      var d := s.committed.value.(selected := source);
      if (source == s.committed.value.selected && s.txn.Some?) || !SwitchOk(s.committed.value, d) then Idle
      else Saving(Switching(s, d, id, now + 30), ThenArm)
  }

  predicate OldFlows(s: State) { s.txn.Some? && s.txn.value.state.Confirmed? && s.txn.value.reset.PendingReset? }

  /** rollbackLocked */
  function RollProc(s: State): Proc
    requires s.txn.Some?
  {
    Saving(InState(s, RollingBack), ThenUndo)
  }

  /** selectiveEmergencyLocked */
  function EmergencyProc(s: State, d: Desired): Proc {
    if s.hold || s.job != "" || d.selective.None? then Idle else Saving(Flagged(s), ThenDirect(d))
  }

  /** quarantineLocked */
  function QuarantineProc(s: State, remove: bool): Proc {
    if Present(s).None? then Idle
    else if Present(s).value.selective.Some? && !s.hold && s.job == "" then EmergencyProc(s, Present(s).value)
    else if s.guarded then Closing(s, remove)
    else Saving(s.(guarded := true), ThenClose(remove))
  }

  /** What a call does with the journal it has just read, up to its first save or
      effect; Idle when it returns without any. */
  function Start(op: Op, s: State): Proc {
    match op
    case Prepare(d, automatic, id) =>
      if !Accepts(d) || s.job != "" || (automatic && s.hold) then Idle
      else if OldFlows(s) then ResetProc(s, ToPrepare(d, id)) else Propose(s, d, id)
    case Apply(id, timeout, now) =>
      if timeout < 30 || timeout > 180 || s.job != "" || !IdIn(s.txn, id) || !s.txn.value.state.Prepared? then Idle
      else Saving(Started(s, now + timeout), ThenArm)
    case Confirm(id, now) =>
      if s.job != "" || !IdIn(s.txn, id) then Idle
      else if s.txn.value.state.Confirmed? then ResetProc(s, Return)
      else if !s.txn.value.state.Applied? || now >= s.txn.value.deadline then Idle
      else Saving(ConfirmedState(s), ThenReset(Return))
    case Rollback(id) =>
      if !IdIn(s.txn, id) || s.txn.value.state.RolledBack? || s.txn.value.state.Confirmed? || s.txn.value.state.Failed? then Idle
      else if s.txn.value.state.Prepared? then Saving(InState(s, RolledBack), Finished)
      else RollProc(s)
    case Recover(now) =>
      if OldFlows(s) then ResetProc(s, Return)
      else if !Active(s.txn) || s.txn.value.state.Prepared? then Idle
      else if s.txn.value.state.RollingBack? || now >= s.txn.value.deadline then RollProc(s)
      else Idle
    case Switch(source, id, now) =>
      if s.committed.None? || s.job != "" || s.hold || Active(s.txn) then Idle
      else if s.committed.value.continuity.Some? || s.committed.value.breakExisting || s.guarded then Idle
      else if OldFlows(s) then ResetProc(s, ToSwitch(source, id, now)) else SwitchProc(s, source, id, now)
    case SelectiveEmergency(transaction) =>
      if transaction != "" && (!IdIn(s.txn, transaction) || InFlight(s.txn)) then Idle
      else if transaction != "" && s.emergency && !s.pending then Idle
      else if Present(s).None? then Idle
      else EmergencyProc(s, Present(s).value)
    case BootGuard => QuarantineProc(s, false)
    case AcquireMaintenance(id, recovery) =>
      if !ValidTxn(id) || (s.job == "" && s.lastJob == id && !(recovery && s.hold)) || (s.job != "" && s.job != id) || Active(s.txn) then Idle
      else if s.job == "" then Saving(s.(job := id, hold := true), ThenQuarantine(false))
      else QuarantineProc(s, false)
    case ReleaseMaintenance(id) =>
      if !ValidTxn(id) || (s.job == "" && s.lastJob == id) || s.job != id then Idle
      else Saving(s.(job := "", lastJob := id), Finished)
    case PreserveClosed(id) =>
      if id != "" then (if s.job == id then QuarantineProc(s, false) else Idle)
      else if !AnySelective(s) then QuarantineProc(s, false)
      else if s.job != "" || Active(s.txn) then Idle
      else if s.hold then QuarantineProc(s, false)
      else Saving(s.(hold := true), ThenQuarantine(false))
    case RestoreDirect(id) =>
      if s.job != id || Active(s.txn) || s.committed.None? then Idle
      else if s.committed.value.selective.Some? && s.job == "" && !s.hold then Saving(s.(hold := true), ThenQuarantine(true))
      else QuarantineProc(s, true)
  }

  /** Selective routing is committed or about to be. */
  predicate AnySelective(s: State) {
    (s.committed.Some? && s.committed.value.selective.Some?) || (Active(s.txn) && s.txn.value.candidate.selective.Some?)
  }

  /** The identity a call draws, if it draws one. */
  function Drawn(op: Op): Option<string> {
    match op
    case Prepare(_, _, id) => Some(id)
    case Switch(_, id, _) => Some(id)
    case _ => None
  }

  // ----- after a save

  function Follow(s: State, todo: Then): Proc {
    match todo
    case Finished => Idle
    case ThenReset(goal) => ResetProc(s, goal)
    case ThenFlows(goal) => Flows(s, goal)
    case ThenResume(goal) => Resume(s, goal)
    case ThenArm => Arming(s)
    case ThenUndo => Undoing(s)
    case ThenDirect(d) => Directing(s, d)
    case ThenClose(remove) => Closing(s, remove)
    case ThenQuarantine(remove) => QuarantineProc(s, remove)
  }

  // ----- steps

  /** Going direct changes only what lies over an intent that is in force. */
  predicate DirectLeaves(net: Net, d: Desired, left: Net) {
    net.policy == Some(d) && !net.torn ==> left == net.(emergency := PartOverlay)
  }

  predicate Enabled(w: World, step: Step) {
    match step
    case Call(op) =>
      w.proc.Idle? && ReadOk(w.disk) && (Drawn(op).Some? ==> ValidTxn(Drawn(op).value) && Drawn(op).value !in w.used)
    case Save(ok, written) => w.proc.Saving?
    case EndFlows(gone) => w.proc.Flows? && w.proc.s.txn.Some?
    case Arm(armed) => w.proc.Arming? && w.proc.s.txn.Some?
    case Tear(left) =>
      || w.proc.Installing? || w.proc.Undoing?
      || (w.proc.Directing? && DirectLeaves(w.net, w.proc.d, left))
      || (w.proc.Removing? && left.removing)
    case Install(ok) => w.proc.Installing? && w.proc.s.txn.Some?
    case Reclassify(ok, left) => w.proc.Reclassifying? && w.proc.s.txn.Some?
    case Undo(ok) => w.proc.Undoing? && w.proc.s.txn.Some?
    case GoDirect(ok) => w.proc.Directing?
    case Close(ok, done) => w.proc.Closing?
    case Remove(ok) => w.proc.Removing? && w.proc.s.committed.Some?
    case Leave => w.proc.Idle? || w.proc.Saving? || w.proc.Closing?
    case Crash => true
  }

  function Ids(s: State): set<string> { if s.txn.Some? then {s.txn.value.id} else {} }

  /** After a rollback has been installed: an emergency that was in force before
      the transaction is restored with the policy it belonged to. */
  function UndoneProc(s: State): Proc
    requires s.txn.Some?
  {
    var t := s.txn.value;
    if t.wasEmergency && t.rollback.selective.Some? && !s.hold then EmergencyProc(RolledTo(s), t.rollback)
    else Saving(RolledTo(s), Finished)
  }

  function Next(w: World, step: Step): World
    requires Enabled(w, step)
  {
    match step
    case Call(op) => w.(proc := Start(op, w.disk))
    case Save(ok, written) =>
      // The file may have been replaced although the call failed.
      var after := if ok then Follow(w.proc.want, w.proc.todo) else Idle;
      if ok || written then w.(disk := w.proc.want, used := w.used + Ids(w.proc.want), proc := after)
      else w.(proc := after)
    case EndFlows(gone) =>
      w.(proc := Saving(WithReset(w.proc.s, if gone then CompletedReset else FailedReset), ThenResume(w.proc.goal)))
    case Arm(armed) =>
      w.(proc := if !armed then Saving(InState(w.proc.s, Failed), Finished)
                 else if w.proc.s.txn.value.selection then Reclassifying(w.proc.s)
                 else Installing(w.proc.s))
    case Tear(left) => w.(net := left)
    case Install(ok) =>
      if ok then w.(net := Clean(w.proc.s.txn.value.candidate), proc := Saving(AppliedState(w.proc.s), Finished))
      else w.(proc := RollProc(w.proc.s))
    case Reclassify(ok, left) =>
      if ok then w.(net := w.net.(policy := Some(w.proc.s.txn.value.candidate)), proc := Saving(Switched(w.proc.s), Finished))
      else w.(net := left, proc := RollProc(w.proc.s))
    case Undo(ok) =>
      if ok then w.(net := Clean(w.proc.s.txn.value.rollback), proc := UndoneProc(w.proc.s))
      else w.(proc := Saving(w.proc.s, Finished))
    case GoDirect(ok) =>
      if ok then w.(net := w.net.(emergency := FullOverlay, guard := false), proc := Saving(Directed(w.proc.s), Finished))
      else w.(proc := Idle)
    case Close(ok, done) =>
      var n := if ok || done then w.net.(guard := true) else w.net;
      w.(net := n, proc := if ok && w.proc.remove then Removing(w.proc.s) else Idle)
    case Remove(ok) =>
      if ok then w.(net := Net(None, false, false, NoOverlay, true), proc := Saving(Decommissioned(w.proc.s), Finished))
      else w.(proc := Idle)
    case Leave => w.(proc := Idle)
    case Crash => w.(proc := Idle)
  }

  const EMPTY_NET := Net(None, false, false, NoOverlay, false)

  /** No journal and nothing installed. */
  predicate Begins(w: World) {
    w.disk == BLANK && w.net == EMPTY_NET && w.proc.Idle? && w.used == {}
  }

  predicate StepAt(states: seq<World>, steps: seq<Step>, i: nat)
    requires i < |steps| && |states| == |steps| + 1
  {
    Enabled(states[i], steps[i]) && states[i + 1] == Next(states[i], steps[i])
  }

  predicate Run(states: seq<World>, steps: seq<Step>) {
    && |states| == |steps| + 1 && Begins(states[0])
    && forall i {:trigger StepAt(states, steps, i)} :: 0 <= i < |steps| ==> StepAt(states, steps, i)
  }

  lemma Extended(states: seq<World>, steps: seq<Step>, step: Step)
    requires Run(states, steps) && Enabled(states[|steps|], step)
    ensures Run(states + [Next(states[|steps|], step)], steps + [step])
  {
    var ws, ss := states + [Next(states[|steps|], step)], steps + [step];
    forall i | 0 <= i < |ss| ensures StepAt(ws, ss, i) {
      if i < |steps| { assert StepAt(states, steps, i); }
    }
  }

  /** Whatever a run has reached, it has reached by a run. */
  lemma PrefixIsRun(states: seq<World>, steps: seq<Step>, n: nat)
    requires Run(states, steps) && n < |states|
    ensures Run(states[..n + 1], steps[..n])
  {
    var ws, ss := states[..n + 1], steps[..n];
    forall i | 0 <= i < |ss| ensures StepAt(ws, ss, i) {
      assert StepAt(states, steps, i);
    }
  }
}
