/** What holds in every run of the helper: the journal can always be read back,
    and disk and network disagree only where the journal says so. */
module HelperProofs {
  import opened Intent
  import opened Tables
  import opened HelperState
  import opened HelperRun

  // ----- the invariant between disk and network

  predicate RollbackChosen(t: Txn) {
    t.rollback == SafeRollback(t.candidate, t.previous) || t.rollback == HeldRollback(t.candidate, t.previous)
  }

  /** An active transaction starts from what is committed, and holds the gate. */
  predicate Coupled(s: State) {
    && (s.job != "" ==> !Active(s.txn))
    && (s.txn.Some? && s.txn.value.selection ==> !s.txn.value.state.Prepared?)
    && (Kept(s.txn) ==> s.committed == Some(s.txn.value.candidate))
    && (Active(s.txn) ==>
          && s.txn.value.previous == s.committed && RollbackChosen(s.txn.value)
          && (s.committed.Some? ==> Compatible(s.committed.value, s.txn.value.candidate)))
  }

  predicate Waiting(t: Option<Txn>) { t.Some? && t.value.state.Applied? }

  /** What must be installed, unless a change is under way. */
  function Expected(s: State): Option<Desired> {
    if Waiting(s.txn) then Some(s.txn.value.candidate) else s.committed
  }

  predicate Settled(s: State, net: Net) {
    && !net.torn && net.policy == Expected(s)
    && (net.guard ==> s.guarded)
    && (net.emergency.PartOverlay? ==> s.pending)
    && (net.emergency.FullOverlay? ==> s.emergency)
  }

  /** The journal of a removal that has begun: the guard is owned, and for
      selective routing nothing will open it before a new transaction. */
  predicate Residue(s: State) {
    s.committed.Some? && s.guarded && (s.committed.value.selective.Some? ==> s.hold)
  }

  predicate Quiet(s: State, net: Net) {
    Settled(s, net) || (net.removing && Residue(s) && !Waiting(s.txn))
  }

  predicate Durable(s: State, net: Net) {
    ReadOk(s) && Coupled(s) && (Changing(s.txn) || Quiet(s, net))
  }

  // ----- one save to the next

  predicate Legal(x: TxState, y: TxState, selection: bool) {
    || x == y
    || (x.Prepared? && (y.Applying? || y.RolledBack?))
    || (x.Applying? && (y.Applied? || y.RollingBack? || y.Failed? || (selection && y.Confirmed?)))
    || (x.Applied? && (y.Confirmed? || y.RollingBack?))
    || (x.RollingBack? && y.RolledBack?)
  }

  predicate SameTxn(a: Txn, b: Txn) {
    (a.id, a.selection, a.candidate, a.rollback, a.previous) == (b.id, b.selection, b.candidate, b.rollback, b.previous)
  }

  /** The same transaction one legal step on, or a new one, or none, after a
      finished one. */
  predicate Advances(a: Option<Txn>, b: Option<Txn>) {
    || a == b
    || (a.Some? && b.Some? && SameTxn(a.value, b.value) && Legal(a.value.state, b.value.state, a.value.selection))
    || (b.Some? && !Active(a) && (a.Some? ==> a.value.id != b.value.id) && (b.value.state.Prepared? || (b.value.selection && b.value.state.Applying?)))
    || (b.None? && !Active(a))
  }

  predicate Confirms(a: State, b: State) {
    && a.txn.Some? && b.txn.Some? && a.txn.value.id == b.txn.value.id
    && Active(a.txn) && b.txn.value.state.Confirmed? && b.committed == Some(a.txn.value.candidate)
  }

  predicate Undoes(a: State, b: State) {
    && a.txn.Some? && b.txn.Some? && a.txn.value.id == b.txn.value.id
    && a.txn.value.state.RollingBack? && b.txn.value.state.RolledBack? && b.committed == Some(a.txn.value.rollback)
  }

  predicate Forgets(a: State, b: State) { !Active(a.txn) && b.txn.None? && b.committed.None? }

  /** The committed intent changes only by confirming, undoing or removing, and a
      rollback is not over before it is committed. */
  predicate Evolves(a: State, b: State) {
    && Advances(a.txn, b.txn) && (a.committed == b.committed || Confirms(a, b) || Undoes(a, b) || Forgets(a, b))
    && (a.txn.Some? && a.txn.value.state.RollingBack? && b.txn.Some? && b.txn.value.state.RolledBack? ==> Undoes(a, b))
  }

  // ----- the saves the operations make

  lemma ResetSaved(s: State, net: Net, r: Reset)
    requires Durable(s, net) && s.txn.Some? && s.txn.value.state.Confirmed? && !s.txn.value.reset.NoReset? && !r.NoReset?
    ensures Durable(WithReset(s, r), net) && Evolves(s, WithReset(s, r))
  {
  }

  lemma PrepareSaved(s: State, net: Net, d: Desired, id: string)
    requires Durable(s, net) && !Active(s.txn) && s.job == "" && Accepts(d) && ValidTxn(id) && !IdIn(s.txn, id)
    requires s.committed.Some? ==> Compatible(s.committed.value, d)
    ensures Durable(s.(txn := Some(NewTxn(s, d, id))), net) && Evolves(s, s.(txn := Some(NewTxn(s, d, id))))
  {
    NewTxnOk(s, d, id);
  }

  lemma NewTxnOk(s: State, d: Desired, id: string)
    requires (s.committed.Some? ==> Accepts(s.committed.value)) && Accepts(d) && ValidTxn(id)
    ensures TxnOk(NewTxn(s, d, id)) && RollbackChosen(NewTxn(s, d, id))
  {
    RollbackAccepted(d, s.committed);
    HeldRollbackAccepted(d, s.committed);
  }

  lemma StartSaved(s: State, net: Net, deadline: nat)
    requires Durable(s, net) && s.txn.Some? && s.txn.value.state.Prepared?
    ensures Durable(Started(s, deadline), net) && Evolves(s, Started(s, deadline))
  {
  }

  /** The watchdog could not be armed, and the network was not touched. */
  lemma FailSaved(s: State, net: Net, deadline: nat)
    requires Durable(s, net) && s.txn.Some? && s.txn.value.state.Prepared?
    ensures Durable(InState(Started(s, deadline), Failed), net)
  {
  }

  lemma AppliedSaved(s: State, net: Net)
    requires Durable(s, net) && s.txn.Some? && s.txn.value.state.Applying?
    ensures Durable(AppliedState(s), Clean(s.txn.value.candidate)) && Evolves(s, AppliedState(s))
  {
  }

  lemma RollingSaved(s: State, net: Net, other: Net)
    requires Durable(s, net) && InFlight(s.txn)
    ensures Durable(InState(s, RollingBack), other) && Evolves(s, InState(s, RollingBack))
  {
  }

  lemma RolledSaved(s: State, net: Net)
    requires Durable(s, net) && s.txn.Some? && s.txn.value.state.RollingBack?
    ensures Durable(RolledTo(s), Clean(s.txn.value.rollback)) && Evolves(s, RolledTo(s))
  {
  }

  /** A prepared transaction is dropped without touching the network. */
  lemma DroppedSaved(s: State, net: Net)
    requires Durable(s, net) && s.txn.Some? && s.txn.value.state.Prepared?
    ensures Durable(InState(s, RolledBack), net) && Evolves(s, InState(s, RolledBack))
  {
  }

  lemma ConfirmSaved(s: State, net: Net)
    requires Durable(s, net) && s.txn.Some? && s.txn.value.state.Applied?
    ensures Durable(ConfirmedState(s), net) && Evolves(s, ConfirmedState(s))
  {
    ConfirmEvolves(s);
  }

  lemma ConfirmEvolves(s: State)
    requires ReadOk(s) && Coupled(s) && s.txn.Some? && s.txn.value.state.Applied?
    ensures Evolves(s, ConfirmedState(s))
  {
  }

  lemma FlaggedSaved(s: State, net: Net)
    requires Durable(s, net)
    ensures Durable(Flagged(s), net)
  {
  }

  lemma FlagsEvolve(a: State, s: State)
    requires Evolves(a, s)
    ensures Evolves(a, Flagged(s))
  {
  }

  lemma DirectedSaved(s: State, net: Net)
    requires Durable(s, net) && (Changing(s.txn) || (Settled(s, net) && net.emergency == FullOverlay && !net.guard))
    ensures Durable(Directed(s), net) && Evolves(s, Directed(s))
  {
  }

  lemma GuardSaved(s: State, net: Net)
    requires Durable(s, net)
    ensures Durable(s.(guarded := true), net) && Evolves(s, s.(guarded := true))
  {
  }

  lemma GateSaved(s: State, net: Net, id: string)
    requires Durable(s, net) && ValidTxn(id) && !Active(s.txn)
    ensures Durable(s.(job := id, hold := true), net) && Evolves(s, s.(job := id, hold := true))
  {
  }

  lemma HoldSaved(s: State, net: Net)
    requires Durable(s, net)
    ensures Durable(s.(hold := true), net) && Evolves(s, s.(hold := true))
  {
  }

  lemma ReleaseSaved(s: State, net: Net, id: string)
    requires Durable(s, net) && ValidTxn(id)
    ensures Durable(s.(job := "", lastJob := id), net) && Evolves(s, s.(job := "", lastJob := id))
  {
  }

  /** Changing only the selection moves nothing. */
  lemma SelectionCompatible(previous: Desired, candidate: Desired)
    requires SwitchOk(previous, candidate)
    ensures Compatible(previous, candidate)
  {
    assert Owners(candidate) == candidate.paths && Owners(previous) == previous.paths && previous.paths == candidate.paths;
    var slots, sources := Slots(previous.paths), Sources(previous.paths);
    forall i, j | 0 <= i < |previous.paths| && 0 <= j < |previous.paths| ensures PairOk(previous.paths[i], candidate.paths[j]) {
      assert slots[i] == previous.paths[i].slot && slots[j] == previous.paths[j].slot;
      assert sources[i] == previous.paths[i].source && sources[j] == previous.paths[j].source;
    }
  }

  predicate MaySwitch(s: State, d: Desired, id: string) {
    && !Active(s.txn) && s.job == "" && !s.guarded && s.committed.Some? && SwitchOk(s.committed.value, d)
    && ValidTxn(id) && !IdIn(s.txn, id)
  }

  lemma SwitchSaved(s: State, net: Net, d: Desired, id: string, deadline: nat)
    requires Durable(s, net) && MaySwitch(s, d, id)
    ensures Durable(Switching(s, d, id, deadline), net) && Evolves(s, Switching(s, d, id, deadline))
  {
    RollbackAccepted(d, s.committed);
    SelectionCompatible(s.committed.value, d);
  }

  lemma SwitchFailed(s: State, net: Net, d: Desired, id: string, deadline: nat)
    requires Durable(s, net) && MaySwitch(s, d, id)
    ensures Durable(InState(Switching(s, d, id, deadline), Failed), net)
  {
    RollbackAccepted(d, s.committed);
  }

  /** A switch only replaces the classifier: the overlays are as they were. */
  lemma SwitchConfirmed(s: State, net: Net, d: Desired, id: string, deadline: nat)
    requires Durable(s, net) && MaySwitch(s, d, id)
    ensures Durable(Switched(Switching(s, d, id, deadline)), net.(policy := Some(d)))
  {
    RollbackAccepted(d, s.committed);
  }

  lemma RemovedSaved(s: State, net: Net)
    requires Durable(s, net) && Residue(s) && !Active(s.txn)
    ensures Durable(Decommissioned(s), Net(None, false, false, NoOverlay, true)) && Evolves(s, Decommissioned(s))
  {
  }

  // ----- what the running operation may rely on

  /** A save that is about to be made, seen with the journal it replaces. */
  predicate SaveOk(disk: State, net: Net, used: set<string>, want: State) {
    && Durable(want, net) && Evolves(disk, want)
    && (want.txn.Some? ==> IdIn(disk.txn, want.txn.value.id) || want.txn.value.id !in used)
    && (disk.txn.Some? && disk.txn.value.state.RollingBack? && want.txn.Some? && want.txn.value.state.RolledBack? ==> Settled(want, net))
  }

  predicate ResetOk(s: State) { s.txn.Some? && s.txn.value.state.Confirmed? && !s.txn.value.reset.NoReset? }

  predicate GoalOk(s: State, used: set<string>, goal: Goal) {
    match goal
    case Return => true
    case ToPrepare(d, id) => Accepts(d) && ValidTxn(id) && id !in used && s.job == ""
    case ToSwitch(source, id, now) => ValidTxn(id) && id !in used && s.job == "" && !s.guarded && !Active(s.txn)
  }

  /** Nothing has been touched yet, so both outcomes of arming can be saved. */
  predicate ArmOk(s: State, net: Net) {
    && s.txn.Some? && s.txn.value.state.Applying?
    && Durable(InState(s, Failed), net)
    && (s.txn.value.selection ==> Durable(Switched(s), net.(policy := Some(s.txn.value.candidate))))
  }

  predicate DirectOk(s: State, net: Net, d: Desired) {
    s.pending && s.emergency && (Changing(s.txn) || (Settled(s, net) && net.policy == Some(d)))
  }

  predicate RemoveOk(s: State) { Residue(s) && !Active(s.txn) }

  /** Before its quarantine a removal has made sure that it may close. */
  predicate Removable(s: State, remove: bool) {
    remove ==> !Active(s.txn) && s.committed.Some? && (s.committed.value.selective.Some? ==> s.hold)
  }

  predicate ThenOk(s: State, net: Net, used: set<string>, todo: Then) {
    match todo
    case Finished => true
    case ThenReset(goal) => GoalOk(s, used, goal)
    case ThenFlows(goal) => ResetOk(s) && GoalOk(s, used, goal)
    case ThenResume(goal) => GoalOk(s, used, goal)
    case ThenArm => ArmOk(s, net)
    case ThenUndo => s.txn.Some? && s.txn.value.state.RollingBack?
    case ThenDirect(d) => DirectOk(s, net, d)
    case ThenClose(remove) => s.guarded && Removable(s, remove)
    case ThenQuarantine(remove) => Removable(s, remove)
  }

  predicate ProcOk(disk: State, net: Net, used: set<string>, proc: Proc) {
    match proc
    case Idle => true
    case Saving(want, todo) => SaveOk(disk, net, used, want) && ThenOk(want, net, used + Ids(want), todo)
    case Flows(s, goal) => s == disk && ResetOk(s) && GoalOk(s, used, goal)
    case Arming(s) => s == disk && ArmOk(s, net)
    case Installing(s) => s == disk && s.txn.Some? && s.txn.value.state.Applying?
    case Reclassifying(s) => s == disk && ArmOk(s, net) && s.txn.value.selection
    case Undoing(s) => s == disk && s.txn.Some? && s.txn.value.state.RollingBack?
    case Directing(s, d) => s == disk && DirectOk(s, net, d)
    case Closing(s, remove) => s == disk && s.guarded && Removable(s, remove)
    case Removing(s) => s == disk && RemoveOk(s)
  }

  predicate DiskOk(disk: State, net: Net, used: set<string>) {
    Durable(disk, net) && (disk.txn.Some? ==> disk.txn.value.id in used)
  }

  predicate Inv(w: World) { DiskOk(w.disk, w.net, w.used) && ProcOk(w.disk, w.net, w.used, w.proc) }

  // ----- the pieces of the operations

  lemma ProposeKeeps(s: State, net: Net, used: set<string>, d: Desired, id: string)
    requires DiskOk(s, net, used) && GoalOk(s, used, ToPrepare(d, id))
    ensures ProcOk(s, net, used, Propose(s, d, id))
  {
    if Propose(s, d, id).Saving? { PrepareSaved(s, net, d, id); }
  }

  lemma SwitchKeeps(s: State, net: Net, used: set<string>, source: string, id: string, now: nat)
    requires DiskOk(s, net, used) && GoalOk(s, used, ToSwitch(source, id, now))
    ensures ProcOk(s, net, used, SwitchProc(s, source, id, now))
  {
    if SwitchProc(s, source, id, now).Saving? {
      var d := s.committed.value.(selected := source);
      SwitchSaved(s, net, d, id, now + 30);
      SwitchFailed(s, net, d, id, now + 30);
      SwitchConfirmed(s, net, d, id, now + 30);
    }
  }

  lemma ResumeKeeps(s: State, net: Net, used: set<string>, goal: Goal)
    requires DiskOk(s, net, used) && GoalOk(s, used, goal)
    ensures ProcOk(s, net, used, Resume(s, goal))
  {
    match goal
    case Return =>
    case ToPrepare(d, id) => ProposeKeeps(s, net, used, d, id);
    case ToSwitch(source, id, now) => SwitchKeeps(s, net, used, source, id, now);
  }

  lemma ResetKeeps(s: State, net: Net, used: set<string>, goal: Goal)
    requires DiskOk(s, net, used) && GoalOk(s, used, goal)
    ensures ProcOk(s, net, used, ResetProc(s, goal))
  {
    if s.txn.Some? && s.txn.value.state.Confirmed? && (s.txn.value.reset.PendingReset? || s.txn.value.reset.FailedReset?) {
      MarkKeeps(s, net, used, PendingReset);
      GoalKept(s, used, goal, PendingReset);
    } else {
      ResumeKeeps(s, net, used, goal);
    }
  }

  lemma MarkKeeps(s: State, net: Net, used: set<string>, r: Reset)
    requires DiskOk(s, net, used) && ResetOk(s) && !r.NoReset?
    ensures SaveOk(s, net, used, WithReset(s, r)) && ResetOk(WithReset(s, r)) && used + Ids(WithReset(s, r)) == used
  {
    ResetSaved(s, net, r);
  }

  lemma GoalKept(s: State, used: set<string>, goal: Goal, r: Reset)
    requires s.txn.Some? && GoalOk(s, used, goal)
    ensures GoalOk(WithReset(s, r), used, goal)
  {
  }

  /** The emergency of what is present, from the journal on disk. */
  lemma EmergencyKeeps(s: State, net: Net, used: set<string>, d: Desired)
    requires DiskOk(s, net, used) && Present(s) == Some(d)
    ensures ProcOk(s, net, used, EmergencyProc(s, d))
  {
    if EmergencyProc(s, d).Saving? {
      FlaggedSaved(s, net);
      FlagsEvolve(s, s);
      assert DirectOk(Flagged(s), net, d);
    }
  }

  lemma QuarantineKeeps(s: State, net: Net, used: set<string>, remove: bool)
    requires DiskOk(s, net, used) && Removable(s, remove)
    ensures ProcOk(s, net, used, QuarantineProc(s, remove))
  {
    if Present(s).Some? {
      if Present(s).value.selective.Some? && !s.hold && s.job == "" {
        EmergencyKeeps(s, net, used, Present(s).value);
      } else if !s.guarded {
        GuardSaved(s, net);
      }
    }
  }

  lemma RollKeeps(s: State, net: Net, used: set<string>)
    requires DiskOk(s, net, used) && InFlight(s.txn)
    ensures ProcOk(s, net, used, RollProc(s))
  {
    RollingSaved(s, net, net);
  }

  lemma FollowKeeps(s: State, net: Net, used: set<string>, todo: Then)
    requires DiskOk(s, net, used) && ThenOk(s, net, used, todo)
    ensures ProcOk(s, net, used, Follow(s, todo))
  {
    match todo
    case Finished =>
    case ThenReset(goal) => ResetKeeps(s, net, used, goal);
    case ThenFlows(goal) =>
    case ThenResume(goal) => ResumeKeeps(s, net, used, goal);
    case ThenArm =>
    case ThenUndo =>
    case ThenDirect(d) =>
    case ThenClose(remove) =>
    case ThenQuarantine(remove) => QuarantineKeeps(s, net, used, remove);
  }

  // ----- calls

  lemma ApplyKeeps(s: State, net: Net, used: set<string>, op: Op)
    requires DiskOk(s, net, used) && op.Apply?
    ensures ProcOk(s, net, used, Start(op, s))
  {
    if Start(op, s).Saving? {
      StartedKeeps(s, net, used, op.now + op.timeout);
      assert Start(op, s) == Saving(Started(s, op.now + op.timeout), ThenArm);
    }
  }

  lemma StartedKeeps(s: State, net: Net, used: set<string>, deadline: nat)
    requires DiskOk(s, net, used) && s.txn.Some? && s.txn.value.state.Prepared?
    ensures SaveOk(s, net, used, Started(s, deadline)) && ArmOk(Started(s, deadline), net)
  {
    StartSaved(s, net, deadline);
    FailSaved(s, net, deadline);
    assert !s.txn.value.selection;
  }

  lemma ConfirmKeeps(s: State, net: Net, used: set<string>, op: Op)
    requires DiskOk(s, net, used) && op.Confirm?
    ensures ProcOk(s, net, used, Start(op, s))
  {
    if s.job == "" && IdIn(s.txn, op.id) {
      if s.txn.value.state.Confirmed? {
        ResetKeeps(s, net, used, Return);
      } else if s.txn.value.state.Applied? {
        ConfirmSaved(s, net);
      }
    }
  }

  lemma RollbackKeeps(s: State, net: Net, used: set<string>, op: Op)
    requires DiskOk(s, net, used) && op.Rollback?
    ensures ProcOk(s, net, used, Start(op, s))
  {
    if IdIn(s.txn, op.id) {
      if s.txn.value.state.Prepared? {
        DroppedSaved(s, net);
      } else if InFlight(s.txn) {
        RollKeeps(s, net, used);
      }
    }
  }

  lemma RecoverKeeps(s: State, net: Net, used: set<string>, op: Op)
    requires DiskOk(s, net, used) && op.Recover?
    ensures ProcOk(s, net, used, Start(op, s))
  {
    if OldFlows(s) {
      ResetKeeps(s, net, used, Return);
    } else if InFlight(s.txn) {
      RollKeeps(s, net, used);
    }
  }

  lemma PrepareKeeps(s: State, net: Net, used: set<string>, op: Op)
    requires DiskOk(s, net, used) && op.Prepare? && ValidTxn(op.id) && op.id !in used
    ensures ProcOk(s, net, used, Start(op, s))
  {
    if Accepts(op.d) && s.job == "" {
      if OldFlows(s) {
        ResetKeeps(s, net, used, ToPrepare(op.d, op.id));
      } else {
        ProposeKeeps(s, net, used, op.d, op.id);
      }
    }
  }

  lemma SelectKeeps(s: State, net: Net, used: set<string>, op: Op)
    requires DiskOk(s, net, used) && op.Switch? && ValidTxn(op.id) && op.id !in used
    ensures ProcOk(s, net, used, Start(op, s))
  {
    if s.job == "" && !Active(s.txn) && !s.guarded {
      if OldFlows(s) {
        ResetKeeps(s, net, used, ToSwitch(op.source, op.id, op.now));
      } else {
        SwitchKeeps(s, net, used, op.source, op.id, op.now);
      }
    }
  }

  lemma MaintenanceKeeps(s: State, net: Net, used: set<string>, op: Op)
    requires DiskOk(s, net, used) && (op.AcquireMaintenance? || op.ReleaseMaintenance?)
    ensures ProcOk(s, net, used, Start(op, s))
  {
    if ValidTxn(op.id) {
      if op.ReleaseMaintenance? {
        ReleaseSaved(s, net, op.id);
      } else {
        QuarantineKeeps(s, net, used, false);
        if !Active(s.txn) { GateSaved(s, net, op.id); }
      }
    }
  }

  lemma PreserveKeeps(s: State, net: Net, used: set<string>, op: Op)
    requires DiskOk(s, net, used) && op.PreserveClosed?
    ensures ProcOk(s, net, used, Start(op, s))
  {
    QuarantineKeeps(s, net, used, false);
    HoldKeeps(s, net, used, false);
  }

  lemma RestoreKeeps(s: State, net: Net, used: set<string>, op: Op)
    requires DiskOk(s, net, used) && op.RestoreDirect?
    ensures ProcOk(s, net, used, Start(op, s))
  {
    if s.job == op.id && !Active(s.txn) && s.committed.Some? {
      HoldKeeps(s, net, used, true);
      if Removable(s, true) { QuarantineKeeps(s, net, used, true); }
    }
  }

  /** A hold that is saved before the quarantine. */
  lemma HoldKeeps(s: State, net: Net, used: set<string>, remove: bool)
    requires DiskOk(s, net, used) && (remove ==> !Active(s.txn) && s.committed.Some?)
    ensures ProcOk(s, net, used, Saving(s.(hold := true), ThenQuarantine(remove)))
  {
    HoldSaved(s, net);
  }

  lemma StartKeeps(s: State, net: Net, used: set<string>, op: Op)
    requires DiskOk(s, net, used) && (Drawn(op).Some? ==> ValidTxn(Drawn(op).value) && Drawn(op).value !in used)
    ensures ProcOk(s, net, used, Start(op, s))
  {
    match op
    case Prepare(_, _, _) => PrepareKeeps(s, net, used, op);
    case Apply(_, _, _) => ApplyKeeps(s, net, used, op);
    case Confirm(_, _) => ConfirmKeeps(s, net, used, op);
    case Rollback(_) => RollbackKeeps(s, net, used, op);
    case Recover(_) => RecoverKeeps(s, net, used, op);
    case Switch(_, _, _) => SelectKeeps(s, net, used, op);
    case SelectiveEmergency(_) =>
      if Present(s).Some? { EmergencyKeeps(s, net, used, Present(s).value); }
    case BootGuard => QuarantineKeeps(s, net, used, false);
    case AcquireMaintenance(_, _) => MaintenanceKeeps(s, net, used, op);
    case ReleaseMaintenance(_) => MaintenanceKeeps(s, net, used, op);
    case PreserveClosed(_) => PreserveKeeps(s, net, used, op);
    case RestoreDirect(_) => RestoreKeeps(s, net, used, op);
  }

  // ----- steps

  lemma SaveKeeps(w: World, ok: bool, written: bool)
    requires Inv(w) && w.proc.Saving?
    ensures Inv(Next(w, Save(ok, written)))
  {
    if ok { FollowKeeps(w.proc.want, w.net, w.used + Ids(w.proc.want), w.proc.todo); }
  }

  lemma FlowsKeep(w: World, gone: bool)
    requires Inv(w) && w.proc.Flows?
    ensures Inv(Next(w, EndFlows(gone)))
  {
    var r := if gone then CompletedReset else FailedReset;
    MarkKeeps(w.disk, w.net, w.used, r);
    GoalKept(w.disk, w.used, w.proc.goal, r);
  }

  lemma ArmKeeps(w: World, armed: bool)
    requires Inv(w) && w.proc.Arming?
    ensures Inv(Next(w, Arm(armed)))
  {
  }

  lemma TearKeeps(w: World, left: Net)
    requires Inv(w) && Enabled(w, Tear(left))
    ensures Inv(Next(w, Tear(left)))
  {
  }

  lemma InstallKeeps(w: World, ok: bool)
    requires Inv(w) && w.proc.Installing?
    ensures Inv(Next(w, Install(ok)))
  {
    if ok {
      var net := Clean(w.disk.txn.value.candidate);
      assert DiskOk(w.disk, net, w.used) && SaveOk(w.disk, net, w.used, AppliedState(w.disk)) by { AppliedKeeps(w.disk, w.net, w.used); }
      assert Next(w, Install(ok)) == World(w.disk, net, Saving(AppliedState(w.disk), Finished), w.used);
    } else {
      RollKeeps(w.disk, w.net, w.used);
    }
  }

  lemma AppliedKeeps(s: State, net: Net, used: set<string>)
    requires DiskOk(s, net, used) && s.txn.Some? && s.txn.value.state.Applying?
    ensures DiskOk(s, Clean(s.txn.value.candidate), used)
    ensures SaveOk(s, Clean(s.txn.value.candidate), used, AppliedState(s))
  {
    AppliedSaved(s, net);
  }

  lemma ReclassifyKeeps(w: World, ok: bool, left: Net)
    requires Inv(w) && w.proc.Reclassifying?
    ensures Inv(Next(w, Reclassify(ok, left)))
  {
    if !ok { RollKeeps(w.disk, left, w.used); }
  }

  lemma UndoKeeps(w: World, ok: bool)
    requires Inv(w) && w.proc.Undoing?
    ensures Inv(Next(w, Undo(ok)))
  {
    var s := w.disk;
    if ok {
      UndoneKeeps(s, w.net, w.used);
      assert Next(w, Undo(ok)) == World(s, Clean(s.txn.value.rollback), UndoneProc(s), w.used);
    } else {
      assert Next(w, Undo(ok)) == World(s, w.net, Saving(s, Finished), w.used);
      assert SaveOk(s, w.net, w.used, s);
    }
  }

  lemma UndoneKeeps(s: State, net: Net, used: set<string>)
    requires DiskOk(s, net, used) && s.txn.Some? && s.txn.value.state.RollingBack?
    ensures DiskOk(s, Clean(s.txn.value.rollback), used)
    ensures ProcOk(s, Clean(s.txn.value.rollback), used, UndoneProc(s))
  {
    var clean := Clean(s.txn.value.rollback);
    RolledSaved(s, net);
    assert SaveOk(s, clean, used, RolledTo(s));
    FlaggedKeeps(s, clean, used, RolledTo(s));
  }

  lemma FlaggedKeeps(disk: State, net: Net, used: set<string>, s: State)
    requires SaveOk(disk, net, used, s) && Settled(s, net) && net.policy.Some? && !Active(s.txn)
    ensures SaveOk(disk, net, used, Flagged(s)) && DirectOk(Flagged(s), net, net.policy.value)
  {
    FlaggedSaved(s, net);
    FlagsEvolve(disk, s);
  }

  lemma DirectKeeps(w: World, ok: bool)
    requires Inv(w) && w.proc.Directing?
    ensures Inv(Next(w, GoDirect(ok)))
  {
    if ok { DirectedSaved(w.disk, w.net.(emergency := FullOverlay, guard := false)); }
  }

  lemma ClosingKeeps(w: World, ok: bool, done: bool)
    requires Inv(w) && w.proc.Closing?
    ensures Inv(Next(w, Close(ok, done)))
  {
    var net := if ok || done then w.net.(guard := true) else w.net;
    assert DiskOk(w.disk, net, w.used) by { GuardClosed(w.disk, w.net); }
    assert Next(w, Close(ok, done)) == World(w.disk, net, if ok && w.proc.remove then Removing(w.disk) else Idle, w.used);
  }

  /** A guard that the journal owns may come up at any time. */
  lemma GuardClosed(s: State, net: Net)
    requires Durable(s, net) && s.guarded
    ensures Durable(s, net.(guard := true))
  {
  }

  lemma RemoveKeeps(w: World, ok: bool)
    requires Inv(w) && w.proc.Removing?
    ensures Inv(Next(w, Remove(ok)))
  {
    if ok { RemovedSaved(w.disk, w.net); }
  }

  lemma StepKeepsInv(w: World, step: Step)
    requires Inv(w) && Enabled(w, step)
    ensures Inv(Next(w, step))
  {
    match step
    case Call(op) => StartKeeps(w.disk, w.net, w.used, op);
    case Save(ok, written) => SaveKeeps(w, ok, written);
    case EndFlows(gone) => FlowsKeep(w, gone);
    case Arm(armed) => ArmKeeps(w, armed);
    case Tear(left) => TearKeeps(w, left);
    case Install(ok) => InstallKeeps(w, ok);
    case Reclassify(ok, left) => ReclassifyKeeps(w, ok, left);
    case Undo(ok) => UndoKeeps(w, ok);
    case GoDirect(ok) => DirectKeeps(w, ok);
    case Close(ok, done) => ClosingKeeps(w, ok, done);
    case Remove(ok) => RemoveKeeps(w, ok);
    case Leave =>
    case Crash =>
  }

  lemma {:induction false} RunKeepsInv(states: seq<World>, steps: seq<Step>, n: nat)
    requires Run(states, steps) && n < |states|
    ensures Inv(states[n])
  {
    if n > 0 {
      RunKeepsInv(states, steps, n - 1);
      assert StepAt(states, steps, n - 1);
      StepKeepsInv(states[n - 1], steps[n - 1]);
    }
  }

  /** Whatever a step does to the disk is one save of a legal kind. */
  lemma StepEvolves(w: World, step: Step)
    requires Inv(w) && Enabled(w, step)
    ensures var n := Next(w, step);
            && Evolves(w.disk, n.disk) && w.used <= n.used
            && (n.disk.txn.Some? && n.disk.txn.value.id in w.used ==> IdIn(w.disk.txn, n.disk.txn.value.id))
  {
    if step.Save? {
      assert SaveOk(w.disk, w.net, w.used, w.proc.want);
    }
  }

  // ----- main results

  /** Crash safety.  In every run, at every step of every operation and after a
      crash at any of them, the journal can be read back, and either the installed
      policy is the committed one, with guard and emergency journaled, or the
      durable transaction is applying, applied or rolling back, or a removal has
      begun and the guard is owned by the journal. */
  lemma CrashSafe(states: seq<World>, steps: seq<Step>, n: nat)
    requires Run(states, steps) && n < |states|
    ensures var s, net := states[n].disk, states[n].net;
            && ReadOk(s)
            && (net.torn || net.policy != s.committed ==> InFlight(s.txn) || (net.removing && s.guarded && s.committed.Some?))
            && (net.guard && !s.guarded ==> Changing(s.txn))
            && (net.emergency != NoOverlay && !s.pending && !s.emergency ==> Changing(s.txn) || (net.removing && s.guarded))
            && (s.job != "" ==> !Active(s.txn))
            && (Active(s.txn) ==> s.txn.value.previous == s.committed)
  {
    RunKeepsInv(states, steps, n);
  }

  lemma RunEvolves(states: seq<World>, steps: seq<Step>, n: nat)
    requires Run(states, steps) && n + 1 < |states|
    ensures var a, b := states[n], states[n + 1];
            && Evolves(a.disk, b.disk) && a.used <= b.used && Coupled(a.disk)
            && (b.disk.txn.Some? && b.disk.txn.value.id in a.used ==> IdIn(a.disk.txn, b.disk.txn.value.id))
            && (a.disk.txn.Some? ==> a.disk.txn.value.id in a.used)
  {
    RunKeepsInv(states, steps, n);
    assert StepAt(states, steps, n);
    StepEvolves(states[n], steps[n]);
  }

  /** One save changes neither fate of a transaction. */
  lemma FateStep(a: State, b: State)
    requires Evolves(a, b) && a.txn.Some? && b.txn.Some? && a.txn.value.id == b.txn.value.id
    ensures Kept(a.txn) ==> Kept(b.txn)
    ensures Undone(a.txn) ==> Undone(b.txn)
  {
  }

  /** Confirmed stays confirmed, and undone stays undone: an identity that has
      left the disk never comes back. */
  lemma {:induction false} FateIsFinal(states: seq<World>, steps: seq<Step>, j: nat, k: nat)
    requires Run(states, steps) && j <= k < |states| && states[j].disk.txn.Some?
    ensures states[j].disk.txn.value.id in states[k].used
    ensures IdIn(states[k].disk.txn, states[j].disk.txn.value.id) && Kept(states[j].disk.txn) ==> Kept(states[k].disk.txn)
    ensures IdIn(states[k].disk.txn, states[j].disk.txn.value.id) && Undone(states[j].disk.txn) ==> Undone(states[k].disk.txn)
    decreases k
  {
    if j == k {
      RunKeepsInv(states, steps, j);
    } else {
      FateIsFinal(states, steps, j, k - 1);
      RunEvolves(states, steps, k - 1);
      if IdIn(states[k].disk.txn, states[j].disk.txn.value.id) {
        FateStep(states[k - 1].disk, states[k].disk);
      }
    }
  }

  /** No transaction is both confirmed and rolled back in a run. */
  lemma NeverBoth(states: seq<World>, steps: seq<Step>, j: nat, k: nat)
    requires Run(states, steps) && j < |states| && k < |states|
    requires states[j].disk.txn.Some? && IdIn(states[k].disk.txn, states[j].disk.txn.value.id)
    ensures !(Kept(states[j].disk.txn) && Undone(states[k].disk.txn))
  {
    if j <= k { FateIsFinal(states, steps, j, k); } else { FateIsFinal(states, steps, k, j); }
  }

  /** When the committed intent changes, everything was removed, a rollback was
      completed, or the change leaves every committed slot and retained source
      where it was. */
  lemma ConfirmKeepsAllocations(states: seq<World>, steps: seq<Step>, n: nat)
    requires Run(states, steps) && n + 1 < |states| && states[n].disk.committed.Some?
    requires states[n + 1].disk.committed != states[n].disk.committed
    ensures var a, b := states[n].disk, states[n + 1].disk;
            || (b.committed.None? && b.txn.None? && !Active(a.txn))
            || (b.txn.Some? && b.txn.value.state.RolledBack? && b.committed == Some(b.txn.value.rollback))
            || (b.committed.Some? && Kept(b.txn) && AllocationsKept(a.committed.value, b.committed.value))
  {
    RunEvolves(states, steps, n);
    if states[n + 1].disk.committed.Some? { CompatibleMeans(states[n].disk.committed.value, states[n + 1].disk.committed.value); }
  }

  // ----- what is gone back to

  /** In every run the rollback of an active transaction is what the rule for it
      says, and so shut for a strict candidate. */
  lemma RollbackIsSafe(states: seq<World>, steps: seq<Step>, n: nat)
    requires Run(states, steps) && n < |states| && Active(states[n].disk.txn)
    ensures var s := states[n].disk;
            var t := s.txn.value;
            && t.previous == s.committed
            && (RollbackLaw(t.rollback, t.candidate, s.committed, false) || RollbackLaw(t.rollback, t.candidate, s.committed, true))
            && (Strict(t.candidate) ==> Shut(t.rollback, t.candidate.network))
  {
    RunKeepsInv(states, steps, n);
    RollbackMeans(states[n].disk.txn.value.candidate, states[n].disk.txn.value.previous);
  }

  /** Whenever in a run a strict change is undone, what becomes committed lets
      nothing out, whatever was committed before. */
  lemma StrictUndoneIsShut(states: seq<World>, steps: seq<Step>, n: nat)
    requires Run(states, steps) && n + 1 < |states|
    requires states[n].disk.txn.Some? && states[n].disk.txn.value.state.RollingBack? && Strict(states[n].disk.txn.value.candidate)
    requires states[n + 1].disk.txn.Some? && states[n + 1].disk.txn.value.state.RolledBack?
    ensures states[n + 1].disk.committed.Some? && Shut(states[n + 1].disk.committed.value, states[n].disk.txn.value.candidate.network)
    ensures states[n + 1].net.policy == states[n + 1].disk.committed && !states[n + 1].net.torn
  {
    RollbackIsSafe(states, steps, n);
    assert Inv(states[n]) by { RunKeepsInv(states, steps, n); }
    assert StepAt(states, steps, n);
    UndoneStep(states[n], steps[n]);
  }

  /** The save that ends a rollback. */
  lemma UndoneStep(w: World, step: Step)
    requires Inv(w) && Enabled(w, step) && w.disk.txn.Some? && w.disk.txn.value.state.RollingBack?
    requires var s := Next(w, step).disk; s.txn.Some? && s.txn.value.state.RolledBack?
    ensures var v := Next(w, step);
            v.disk.committed == Some(w.disk.txn.value.rollback) && v.net.policy == v.disk.committed && !v.net.torn
  {
  }

  // ----- recovery

  /** The recorded rollback is committed and is what is installed; nothing of the
      candidate is left, and an emergency in force is journaled. */
  predicate RolledBackTo(s: State, net: Net, d: Desired) {
    && s.txn.Some? && s.txn.value.state.RolledBack? && s.committed == Some(d)
    && net.policy == Some(d) && !net.torn && !net.guard
    && s.guarded == (d.selected == "" && d.selective.None?)
    && (if s.txn.value.wasEmergency && d.selective.Some? && !s.hold then net.emergency == FullOverlay && s.emergency && !s.pending
        else net.emergency == NoOverlay && !s.emergency && !s.pending)
  }

  predicate Due(s: State, now: nat) {
    InFlight(s.txn) && (s.txn.value.state.RollingBack? || now >= s.txn.value.deadline)
  }

  /** Recovery after the network has been put back: the last save, or the restored
      emergency with its two. */
  function LastSteps(s: State): seq<Step>
    requires s.txn.Some?
  {
    if UndoneProc(s).Saving? && UndoneProc(s).todo.Finished? then [Save(true, true)]
    else [Save(true, true), GoDirect(true), Save(true, true)]
  }

  function Recovery(s: State, now: nat): seq<Step>
    requires s.txn.Some?
  {
    [Crash] + ([Call(Recover(now))] + ([Save(true, true)] + ([Undo(true)] + LastSteps(InState(s, RollingBack)))))
  }

  ghost predicate Leads(w: World, steps: seq<Step>, end: World)
    decreases |steps|
  {
    if steps == [] then w == end else Enabled(w, steps[0]) && Leads(Next(w, steps[0]), steps[1..], end)
  }

  lemma Led(w: World, step: Step, steps: seq<Step>, end: World)
    requires Enabled(w, step) && Leads(Next(w, step), steps, end)
    ensures Leads(w, [step] + steps, end)
  {
    assert ([step] + steps)[1..] == steps;
  }

  /** The emergency in force before the transaction comes back with its policy. */
  predicate Redirected(s: State)
    requires s.txn.Some?
  {
    s.txn.value.wasEmergency && s.txn.value.rollback.selective.Some? && !s.hold
  }

  lemma LastSave(w: World, s: State) returns (end: World)
    requires s.txn.Some? && w.proc == Saving(RolledTo(s), Finished) && w.net == Clean(s.txn.value.rollback) && !Redirected(s)
    ensures Leads(w, [Save(true, true)], end) && end.proc.Idle? && RolledBackTo(end.disk, end.net, s.txn.value.rollback)
  {
    end := Next(w, Save(true, true));
    Led(w, Save(true, true), [], end);
  }

  lemma LastEmergency(w: World, s: State) returns (end: World)
    requires s.txn.Some? && w.proc == Saving(Flagged(RolledTo(s)), ThenDirect(s.txn.value.rollback)) && w.net == Clean(s.txn.value.rollback)
    requires Redirected(s)
    ensures Leads(w, [Save(true, true), GoDirect(true), Save(true, true)], end) && end.proc.Idle?
    ensures RolledBackTo(end.disk, end.net, s.txn.value.rollback)
  {
    var w1 := Next(w, Save(true, true));
    var w2 := Next(w1, GoDirect(true));
    end := Next(w2, Save(true, true));
    Led(w2, Save(true, true), [], end);
    Led(w1, GoDirect(true), [Save(true, true)], end);
    Led(w, Save(true, true), [GoDirect(true)] + [Save(true, true)], end);
    assert [Save(true, true)] + ([GoDirect(true)] + [Save(true, true)]) == [Save(true, true), GoDirect(true), Save(true, true)];
  }

  lemma LastSaves(w: World, s: State) returns (end: World)
    requires s.txn.Some? && s.job == "" && w.proc == UndoneProc(s) && w.net == Clean(s.txn.value.rollback)
    ensures Leads(w, LastSteps(s), end) && end.proc.Idle? && RolledBackTo(end.disk, end.net, s.txn.value.rollback)
  {
    if UndoneProc(s).todo.Finished? { end := LastSave(w, s); } else { end := LastEmergency(w, s); }
  }

  /** Wherever a run has got to, in the middle of whatever operation, a crash and
      one recovery that meets no further failure end with the rollback that was
      recorded installed and committed. */
  lemma RecoveryRestores(states: seq<World>, steps: seq<Step>, n: nat, now: nat) returns (end: World)
    requires Run(states, steps) && n < |states| && Due(states[n].disk, now)
    ensures Leads(states[n], Recovery(states[n].disk, now), end) && end.proc.Idle?
    ensures RolledBackTo(end.disk, end.net, states[n].disk.txn.value.rollback)
  {
    assert ReadOk(states[n].disk) && states[n].disk.job == "" by { RunKeepsInv(states, steps, n); }
    end := RecoveryFrom(states[n], now);
  }

  /** After the recovery of a strict change no direct fallback is installed. */
  lemma StrictNeverReopens(states: seq<World>, steps: seq<Step>, n: nat, now: nat) returns (end: World)
    requires Run(states, steps) && n < |states| && Due(states[n].disk, now) && Strict(states[n].disk.txn.value.candidate)
    ensures Leads(states[n], Recovery(states[n].disk, now), end) && end.proc.Idle?
    ensures end.net.policy.Some? && Shut(end.net.policy.value, states[n].disk.txn.value.candidate.network)
    ensures end.net.emergency == NoOverlay && !end.net.torn
  {
    RollbackIsSafe(states, steps, n);
    end := RecoveryRestores(states, steps, n, now);
  }

  lemma RecoveryFrom(w: World, now: nat) returns (end: World)
    requires ReadOk(w.disk) && w.disk.job == "" && Due(w.disk, now)
    ensures Leads(w, Recovery(w.disk, now), end) && end.proc.Idle?
    ensures RolledBackTo(end.disk, end.net, w.disk.txn.value.rollback)
  {
    var s := InState(w.disk, RollingBack);
    var last := LastSteps(s);
    end := LastSaves(World(s, Clean(s.txn.value.rollback), UndoneProc(s), w.used + Ids(s)), s);
    RecoverStarts(w.disk, now);
    UndoLeads(w.disk, w.net, w.used, last, end);
    CallLeads(w, now, [Save(true, true)] + ([Undo(true)] + last), end);
  }

  lemma RecoverStarts(s: State, now: nat)
    requires Due(s, now)
    ensures Start(Recover(now), s) == Saving(InState(s, RollingBack), ThenUndo)
  {
    assert !OldFlows(s);
  }

  lemma UndoLeads(disk: State, net: Net, used: set<string>, last: seq<Step>, end: World)
    requires disk.txn.Some?
    requires var s := InState(disk, RollingBack);
             Leads(World(s, Clean(s.txn.value.rollback), UndoneProc(s), used + Ids(s)), last, end)
    ensures Leads(World(disk, net, Saving(InState(disk, RollingBack), ThenUndo), used), [Save(true, true)] + ([Undo(true)] + last), end)
  {
    var s := InState(disk, RollingBack);
    var w2 := World(disk, net, Saving(s, ThenUndo), used);
    var w3 := World(s, net, Undoing(s), used + Ids(s));
    assert Next(w3, Undo(true)) == World(s, Clean(s.txn.value.rollback), UndoneProc(s), used + Ids(s));
    assert Next(w2, Save(true, true)) == w3;
    Led(w3, Undo(true), last, end);
    Led(w2, Save(true, true), [Undo(true)] + last, end);
  }

  lemma CallLeads(w: World, now: nat, rest: seq<Step>, end: World)
    requires ReadOk(w.disk) && Leads(World(w.disk, w.net, Start(Recover(now), w.disk), w.used), rest, end)
    ensures Leads(w, [Crash] + ([Call(Recover(now))] + rest), end)
  {
    var w1 := World(w.disk, w.net, Idle, w.used);
    Led(w1, Call(Recover(now)), rest, end);
    Led(w, Crash, [Call(Recover(now))] + rest, end);
  }

  /** A removal cut short leaves the committed policy on disk, its guard owned and,
      for selective routing, held: neither a switch nor an emergency goes on from
      there. */
  lemma RemovalIsOwned(states: seq<World>, steps: seq<Step>, n: nat)
    requires Run(states, steps) && n < |states|
    requires var s, net := states[n].disk, states[n].net;
             !InFlight(s.txn) && (net.torn || net.policy != s.committed)
    ensures states[n].net.removing && Residue(states[n].disk)
    ensures forall op: Op :: op.Switch? || op.SelectiveEmergency? ==> Start(op, states[n].disk) == Idle
  {
    RunKeepsInv(states, steps, n);
  }
}
