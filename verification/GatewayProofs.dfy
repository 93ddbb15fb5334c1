/** What holds in every run of the gateway's transaction: its journal can be read
    back, it keeps private material exactly while it may be needed, and the old
    configuration is in force or can be put back. */
module GatewayProofs {
  import opened Intent
  import opened GatewayRun

  /** Private material exists exactly while it is needed. */
  predicate MaterialKept(j: Journal) {
    && (j.snapshot.Some? <==> Holding(j.txn)) && (j.wifi.Some? <==> Holding(j.txn))
    && (j.key != "" ==> j.txn.Some?)
  }

  predicate Settled(t: Option<GTxn>) {
    t.None? || t.value.state.Prepared? || t.value.state.RolledBack? || t.value.state.Failed?
  }

  predicate Restorable(j: Journal, air: string, base: string) {
    && (Holding(j.txn) ==> j.snapshot.Some? && j.snapshot.value.config == base)
    && (j.txn.Some? && Settled(j.txn) ==> air == base)
  }

  predicate Durable(j: Journal, air: string, base: string) {
    ReadOk(j) && MaterialKept(j) && Restorable(j, air, base)
  }

  predicate Legal(x: GState, y: GState) {
    || x == y
    || (x.Prepared? && (y.Applying? || y.RolledBack?))
    || (x.Applying? && (y.Applied? || y.RollingBack? || y.Failed?))
    || (x.Applied? && (y.Confirmed? || y.RollingBack?))
    || (x.Confirmed? && (y.Finalized? || y.RollingBack?))
    || (x.RollingBack? && y.RolledBack?)
  }

  /** The same transaction a legal step on, or a new one after one that holds
      nothing. */
  predicate Evolves(a: Journal, b: Journal) {
    || a == b
    || (a.txn.Some? && b.txn.Some? && a.txn.value.id == b.txn.value.id
        && a.txn.value.plan == b.txn.value.plan && Legal(a.txn.value.state, b.txn.value.state))
    || (b.txn.Some? && b.txn.value.state.Prepared? && !Holding(a.txn) && !IdIn(a.txn, b.txn.value.id))
  }

  // ----- what the running operation may rely on

  function BaseAfter(disk: Journal, want: Journal, air: string, base: string): string {
    if Begun(disk, want) then air else base
  }

  predicate SaveOk(w: World, want: Journal) {
    && Durable(want, w.air, BaseAfter(w.disk, want, w.air, w.base)) && Evolves(w.disk, want)
    && (Begun(w.disk, want) ==> want.txn.value.id !in w.used)
  }

  predicate ArmOk(j: Journal, air: string, base: string) { j.txn.Some? && j.txn.value.state.Applying? && air == base }

  predicate ThenOk(j: Journal, air: string, base: string, todo: Then) {
    match todo
    case Finished => true
    case ThenArm => ArmOk(j, air, base)
    case ThenRestore => j.txn.Some? && j.txn.value.state.RollingBack?
  }

  predicate ProcOk(w: World) {
    match w.proc
    case Idle => true
    case Saving(want, todo) => SaveOk(w, want) && ThenOk(want, w.air, BaseAfter(w.disk, want, w.air, w.base), todo)
    case Arming(j) => j == w.disk && ArmOk(j, w.air, w.base)
    case Installing(j) => j == w.disk && j.txn.Some? && j.txn.value.state.Applying?
    case Restoring(j) => j == w.disk && j.txn.Some? && j.txn.value.state.RollingBack?
  }

  predicate Inv(w: World) {
    Durable(w.disk, w.air, w.base) && (w.disk.txn.Some? ==> w.disk.txn.value.id in w.used) && ProcOk(w)
  }

  // ----- saves

  lemma StepSaved(w: World, s: GState, deadline: Option<nat>)
    requires Durable(w.disk, w.air, w.base) && Holding(w.disk.txn) && Legal(w.disk.txn.value.state, s)
    requires s.Applying? || s.Applied? || s.Confirmed? || s.RollingBack?
    requires s.Applying? || s.Applied? ==> deadline.Some?
    ensures SaveOk(w, InState(w.disk, s, deadline))
  {
  }

  lemma EndSaved(w: World, s: GState, deadline: Option<nat>)
    requires Durable(w.disk, w.air, w.base) && Holding(w.disk.txn) && Legal(w.disk.txn.value.state, s) && Terminal(s)
    requires s.Finalized? || w.air == w.base
    ensures SaveOk(w, Erased(InState(w.disk, s, deadline)))
  {
  }

  lemma PrepareSaved(w: World, op: Op)
    requires Inv(w) && w.proc.Idle? && op.Prepare? && Enabled(w, Call(op)) && Start(op, w.disk).Saving?
    ensures ProcOk(Next(w, Call(op)))
  {
  }

  predicate Terminal(s: GState) { s.Finalized? || s.RolledBack? || s.Failed? }

  // ----- steps

  lemma CallKeeps(w: World, op: Op)
    requires Inv(w) && Enabled(w, Call(op))
    ensures Inv(Next(w, Call(op)))
  {
    if Start(op, w.disk).Saving? {
      match op
      case Prepare(_, _, _, _, _) => PrepareSaved(w, op);
      case Apply(_, timeout, now) => StepSaved(w, Applying, Some(now + timeout));
      case Confirm(_, _) =>
        StepSaved(w, Confirmed, None);
        StepSaved(w, RollingBack, w.disk.txn.value.deadline);
      case Rollback(_) =>
        if w.disk.txn.value.state.Prepared? {
          EndSaved(w, RolledBack, w.disk.txn.value.deadline);
        } else {
          StepSaved(w, RollingBack, w.disk.txn.value.deadline);
        }
      case Recover(_) => StepSaved(w, RollingBack, w.disk.txn.value.deadline);
      case Finalize(_) => EndSaved(w, Finalized, w.disk.txn.value.deadline);
    }
  }

  lemma EffectKeeps(w: World, step: Step)
    requires Inv(w) && Enabled(w, step) && (step.Arm? || step.Install? || step.Restore?)
    ensures Inv(Next(w, step))
  {
    var t := w.disk.txn.value;
    match step
    case Arm(armed) => if !armed { EndSaved(w, Failed, t.deadline); }
    case Install(ok) =>
      if ok { StepSaved(w, Applied, t.deadline); } else { StepSaved(w, RollingBack, t.deadline); }
    case Restore(ok) =>
      if ok {
        EndSaved(w.(air := w.base), RolledBack, None);
      } else {
        StepSaved(w, RollingBack, t.deadline);
        assert InState(w.disk, RollingBack, t.deadline) == w.disk;
      }
  }

  lemma StepKeepsInv(w: World, step: Step)
    requires Inv(w) && Enabled(w, step)
    ensures Inv(Next(w, step))
  {
    match step
    case Call(op) => CallKeeps(w, op);
    case Save(ok, written) =>
    case Arm(_) => EffectKeeps(w, step);
    case Tear(left) =>
    case Install(_) => EffectKeeps(w, step);
    case Restore(_) => EffectKeeps(w, step);
    case Leave =>
    case Crash =>
  }

  lemma {:induction false} RunKeepsInv(states: seq<World>, steps: seq<Step>, n: nat)
    requires Run(states, steps) && n < |states|
    ensures Inv(states[n])
  {
    if n > 0 {
      RunKeepsInv(states, steps, n - 1);
      assert StepAt(states, steps, n - 1);
      StepKeepsInv(states[n - 1], steps[n - 1]);
    }
  }

  lemma RunEvolves(states: seq<World>, steps: seq<Step>, n: nat)
    requires Run(states, steps) && n + 1 < |states|
    ensures var a, b := states[n], states[n + 1];
            && Evolves(a.disk, b.disk) && a.used <= b.used
            && (b.disk.txn.Some? && b.disk.txn.value.id in a.used ==> IdIn(a.disk.txn, b.disk.txn.value.id) && a.base == b.base)
            && (a.disk.txn.Some? ==> a.disk.txn.value.id in a.used)
  {
    RunKeepsInv(states, steps, n);
    assert StepAt(states, steps, n);
  }

  // ----- main results

  /** At every step of every run, and so after a crash at any of them, the journal
      can be read back, the snapshot and the Wi-Fi material exist exactly in
      active and confirmed states, and the configuration from before the change is
      in force or in the snapshot. */
  lemma AlwaysRestorable(states: seq<World>, steps: seq<Step>, n: nat)
    requires Run(states, steps) && n < |states|
    ensures var w := states[n];
            && ReadOk(w.disk)
            && (w.disk.snapshot.Some? <==> Holding(w.disk.txn)) && (w.disk.wifi.Some? <==> Holding(w.disk.txn))
            && (Holding(w.disk.txn) ==> w.disk.snapshot.value.config == w.base)
            && (w.disk.txn.Some? && !Holding(w.disk.txn) && !w.disk.txn.value.state.Finalized? ==> w.air == w.base)
  {
    RunKeepsInv(states, steps, n);
  }

  /** A transaction that has ended never changes again: what is finalized is not
      rolled back and what is rolled back is not confirmed. */
  lemma {:induction false} EndIsFinal(states: seq<World>, steps: seq<Step>, j: nat, k: nat)
    requires Run(states, steps) && j <= k < |states| && states[j].disk.txn.Some? && Terminal(states[j].disk.txn.value.state)
    ensures states[j].disk.txn.value.id in states[k].used
    ensures IdIn(states[k].disk.txn, states[j].disk.txn.value.id) ==> states[k].disk.txn.value.state == states[j].disk.txn.value.state
    decreases k
  {
    if j == k {
      RunKeepsInv(states, steps, j);
    } else {
      EndIsFinal(states, steps, j, k - 1);
      RunEvolves(states, steps, k - 1);
    }
  }

  /** The configuration a transaction goes back to is fixed when it is prepared. */
  lemma {:induction false} BaseIsFixed(states: seq<World>, steps: seq<Step>, j: nat, k: nat)
    requires Run(states, steps) && j <= k < |states| && states[j].disk.txn.Some?
    ensures states[j].disk.txn.value.id in states[k].used
    ensures IdIn(states[k].disk.txn, states[j].disk.txn.value.id) ==> states[k].base == states[j].base
    decreases k
  {
    if j == k {
      RunKeepsInv(states, steps, j);
    } else {
      BaseIsFixed(states, steps, j, k - 1);
      RunEvolves(states, steps, k - 1);
    }
  }

  // ----- recovery

  /** Undone: the old configuration is in force and no material is left. */
  predicate RestoredTo(j: Journal, air: string, base: string) {
    j.txn.Some? && j.txn.value.state.RolledBack? && air == base && j.snapshot.None? && j.wifi.None?
  }

  predicate Due(j: Journal, now: nat) {
    && Active(j.txn) && !j.txn.value.state.Prepared?
    && (j.txn.value.state.RollingBack? || (j.txn.value.deadline.Some? && now >= j.txn.value.deadline.value))
  }

  /** Wherever a run has got to, a crash and one recovery that meets no further
      failure put the old configuration back and erase the material. */
  lemma RecoveryRestores(states: seq<World>, steps: seq<Step>, n: nat, now: nat) returns (end: World)
    requires Run(states, steps) && n < |states| && Due(states[n].disk, now)
    ensures var w1 := Next(states[n], Crash);
            && Enabled(w1, Call(Recover(now)))
            && var w2 := Next(w1, Call(Recover(now)));
            && Enabled(w2, Save(true, true))
            && var w3 := Next(w2, Save(true, true));
            && Enabled(w3, Restore(true))
            && var w4 := Next(w3, Restore(true));
            && Enabled(w4, Save(true, true)) && end == Next(w4, Save(true, true))
    ensures end.proc.Idle? && RestoredTo(end.disk, end.air, states[n].base)
  {
    RunKeepsInv(states, steps, n);
    var j := InState(states[n].disk, RollingBack, states[n].disk.txn.value.deadline);
    var w4 := World(j, states[n].base, Saving(Erased(InState(j, RolledBack, None)), Finished), states[n].base, states[n].used + Ids(j));
    end := Next(w4, Save(true, true));
    assert !Begun(states[n].disk, j) && !Begun(j, Erased(InState(j, RolledBack, None)));
  }
}
