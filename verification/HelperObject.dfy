/** The privileged helper's transaction manager (internal/helper/manager.go and
    its neighbours): prepare, apply, confirm, roll back, recover, switch, the
    maintenance gate, quarantine and removal.  Every call is a run of the machine
    in HelperRun, step by step; `states` and `steps` record it. */
module HelperObject {
  import opened Intent
  import opened Tables
  import opened HelperState
  import R = HelperRun
  import opened HelperProofs

  datatype Reply =
    | Done | Refused | MaintenanceActive | Busy | NotFound | InvalidState | Expired
    | NotSaved | Unavailable | ApplyFailed | RollbackPending | FullApply

  class Helper {
    var disk: State
    var net: Net
    ghost var proc: R.Proc
    ghost var used: set<string>
    ghost var states: seq<R.World>
    ghost var steps: seq<R.Step>

    ghost function Here(): R.World
      reads this
    {
      R.World(disk, net, proc, used)
    }

    ghost predicate Recorded()
      reads this
    {
      R.Run(states, steps) && states[|steps|] == Here()
    }

    /** Between two calls. */
    ghost predicate Valid()
      reads this
    {
      Recorded() && proc == R.Idle
    }

    /** No journal and nothing installed. */
    constructor ()
      ensures Valid() && disk == BLANK && net == R.EMPTY_NET && used == {} && |states| == 1
    {
      disk, net, proc, used := BLANK, R.EMPTY_NET, R.Idle, {};
      states, steps := [R.World(BLANK, R.EMPTY_NET, R.Idle, {})], [];
    }

    /** A new process over what a crash left behind, at any step of any run: what
        it held in memory is gone, disk and network are as they were. */
    constructor Restarted(ghost before: seq<R.World>, ghost done: seq<R.Step>, ghost n: nat, disk: State, net: Net)
      requires R.Run(before, done) && n < |before| && before[n].disk == disk && before[n].net == net
      ensures Valid() && this.disk == disk && this.net == net && used == before[n].used && before[..n + 1] <= states
    {
      this.disk, this.net, proc, used := disk, net, R.Idle, before[n].used;
      R.PrefixIsRun(before, done, n);
      R.Extended(before[..n + 1], done[..n], R.Crash);
      states, steps := before[..n + 1] + [before[n].(proc := R.Idle)], done[..n] + [R.Crash];
    }

    lemma Now()
      requires Recorded()
      ensures DiskOk(disk, net, used) && ProcOk(disk, net, used, proc)
    {
      RunKeepsInv(states, steps, |steps|);
    }

    // ----- the steps

    /** A call reads the journal under the lock; it would refuse one that cannot
        be read, and there is none. */
    method Enter(ghost op: R.Op)
      requires Valid() && (R.Drawn(op).Some? ==> ValidTxn(R.Drawn(op).value) && R.Drawn(op).value !in used)
      modifies this`proc, this`states, this`steps
      ensures Recorded() && proc == R.Start(op, disk) && old(states) <= states
    {
      Now();
      R.Extended(states, steps, R.Call(op));
      states, steps, proc := states + [R.Next(Here(), R.Call(op))], steps + [R.Call(op)], R.Start(op, disk);
    }

    /** The call returns before its next save or before the guard goes up. */
    method Leave()
      requires Recorded() && (proc.Idle? || proc.Saving? || proc.Closing?)
      modifies this`proc, this`states, this`steps
      ensures Valid() && old(states) <= states
    {
      R.Extended(states, steps, R.Leave);
      states, steps, proc := states + [R.Next(Here(), R.Leave)], steps + [R.Leave], R.Idle;
    }

    /** The file may have been replaced although the call failed. */
    method Save(s: State) returns (ok: bool)
      requires Recorded() && proc.Saving? && proc.want == s
      modifies this`disk, this`proc, this`used, this`states, this`steps
      ensures Recorded() && old(states) <= states
      ensures proc == if ok then R.Follow(s, old(proc).todo) else R.Idle
      ensures disk == s || (disk == old(disk) && !ok)
      ensures old(used) <= used <= old(used) + R.Ids(s)
    {
      var written: bool;
      ok, written := *, *;
      ghost var w := R.Next(Here(), R.Save(ok, written));
      R.Extended(states, steps, R.Save(ok, written));
      states, steps := states + [w], steps + [R.Save(ok, written)];
      if ok || written { disk := s; }
      proc, used := w.proc, w.used;
    }

    method EndFlows(ghost s: State) returns (gone: bool)
      requires Recorded() && proc.Flows? && proc.s == s && s.txn.Some?
      modifies this`proc, this`states, this`steps
      ensures Recorded() && old(states) <= states
      ensures proc == R.Saving(WithReset(s, if gone then CompletedReset else FailedReset), R.ThenResume(old(proc).goal))
    {
      gone := *;
      ghost var w := R.Next(Here(), R.EndFlows(gone));
      R.Extended(states, steps, R.EndFlows(gone));
      states, steps, proc := states + [w], steps + [R.EndFlows(gone)], w.proc;
    }

    method Arm(s: State) returns (armed: bool)
      requires Recorded() && proc == R.Arming(s) && s.txn.Some?
      modifies this`proc, this`states, this`steps
      ensures Recorded() && old(states) <= states
      ensures proc == if !armed then R.Saving(InState(s, Failed), R.Finished)
                      else if s.txn.value.selection then R.Reclassifying(s) else R.Installing(s)
    {
      armed := *;
      ghost var w := R.Next(Here(), R.Arm(armed));
      R.Extended(states, steps, R.Arm(armed));
      states, steps, proc := states + [w], steps + [R.Arm(armed)], w.proc;
    }

    /** Part of a change has happened. */
    method Tear(left: Net)
      requires Recorded() && R.Enabled(Here(), R.Tear(left))
      modifies this`net, this`states, this`steps
      ensures Recorded() && net == left && old(states) <= states
    {
      R.Extended(states, steps, R.Tear(left));
      states, steps, net := states + [R.Next(Here(), R.Tear(left))], steps + [R.Tear(left)], left;
    }

    /** Backend.Apply of the candidate: anything may be left when it fails. */
    method Install(s: State) returns (ok: bool)
      requires Recorded() && proc == R.Installing(s) && s.txn.Some?
      modifies this`net, this`proc, this`states, this`steps
      ensures Recorded() && old(states) <= states
      ensures ok ==> net == Clean(s.txn.value.candidate) && proc == R.Saving(AppliedState(s), R.Finished)
      ensures !ok ==> proc == R.RollProc(s)
    {
      var left: Net := *;
      Tear(left);
      ok := *;
      ghost var w := R.Next(Here(), R.Install(ok));
      R.Extended(states, steps, R.Install(ok));
      states, steps, proc := states + [w], steps + [R.Install(ok)], w.proc;
      if ok { net := Clean(s.txn.value.candidate); }
    }

    /** The classifier is replaced in one transaction of the kernel; when the call
        fails nobody knows what is in force. */
    method Reclassify(s: State) returns (ok: bool)
      requires Recorded() && proc == R.Reclassifying(s) && s.txn.Some?
      modifies this`net, this`proc, this`states, this`steps
      ensures Recorded() && old(states) <= states
      ensures ok ==> net == old(net).(policy := Some(s.txn.value.candidate)) && proc == R.Saving(Switched(s), R.Finished)
      ensures !ok ==> proc == R.RollProc(s)
    {
      var left: Net := *;
      ok := *;
      ghost var w := R.Next(Here(), R.Reclassify(ok, left));
      R.Extended(states, steps, R.Reclassify(ok, left));
      states, steps, proc := states + [w], steps + [R.Reclassify(ok, left)], w.proc;
      net := if ok then net.(policy := Some(s.txn.value.candidate)) else left;
    }

    /** Backend.Apply of the rollback. */
    method Undo(s: State) returns (ok: bool)
      requires Recorded() && proc == R.Undoing(s) && s.txn.Some?
      modifies this`net, this`proc, this`states, this`steps
      ensures Recorded() && old(states) <= states
      ensures ok ==> net == Clean(s.txn.value.rollback) && proc == R.UndoneProc(s)
      ensures !ok ==> proc == R.Saving(s, R.Finished)
    {
      var left: Net := *;
      Tear(left);
      ok := *;
      ghost var w := R.Next(Here(), R.Undo(ok));
      R.Extended(states, steps, R.Undo(ok));
      states, steps, proc := states + [w], steps + [R.Undo(ok)], w.proc;
      if ok { net := Clean(s.txn.value.rollback); }
    }

    /** Backend.EmergencyDirect: over an intent that is in force only what lies
        over it changes. */
    method GoDirect(ghost s: State, d: Desired) returns (ok: bool)
      requires Recorded() && proc == R.Directing(s, d)
      modifies this`net, this`proc, this`states, this`steps
      ensures Recorded() && old(states) <= states
      ensures old(net).policy == Some(d) && !old(net).torn ==> net == old(net).(guard := net.guard, emergency := net.emergency)
      ensures ok ==> net.emergency == FullOverlay && !net.guard && proc == R.Saving(Directed(s), R.Finished)
      ensures !ok ==> proc == R.Idle
    {
      var left: Net := *;
      left := if net.policy == Some(d) && !net.torn then net.(emergency := PartOverlay) else left;
      Tear(left);
      ok := *;
      ghost var w := R.Next(Here(), R.GoDirect(ok));
      R.Extended(states, steps, R.GoDirect(ok));
      states, steps, proc := states + [w], steps + [R.GoDirect(ok)], w.proc;
      if ok { net := net.(emergency := FullOverlay, guard := false); }
    }

    /** Backend.Quarantine: closes ingress over whatever is installed. */
    method Close(ghost s: State, remove: bool) returns (ok: bool)
      requires Recorded() && proc == R.Closing(s, remove)
      modifies this`net, this`proc, this`states, this`steps
      ensures Recorded() && old(states) <= states
      ensures net == old(net).(guard := net.guard) && (ok ==> net.guard)
      ensures proc == if ok && remove then R.Removing(s) else R.Idle
    {
      var done: bool;
      ok, done := *, *;
      ghost var w := R.Next(Here(), R.Close(ok, done));
      R.Extended(states, steps, R.Close(ok, done));
      states, steps, proc := states + [w], steps + [R.Close(ok, done)], w.proc;
      if ok || done { net := net.(guard := true); }
    }

    /** Backend.Remove: anything may be left when it fails. */
    method Remove(s: State) returns (ok: bool)
      requires Recorded() && proc == R.Removing(s) && s.committed.Some?
      modifies this`net, this`proc, this`states, this`steps
      ensures Recorded() && old(states) <= states
      ensures ok ==> net == Net(None, false, false, NoOverlay, true) && proc == R.Saving(Decommissioned(s), R.Finished)
      ensures !ok ==> proc == R.Idle
    {
      var left: Net := *;
      Tear(left.(removing := true));
      ok := *;
      ghost var w := R.Next(Here(), R.Remove(ok));
      R.Extended(states, steps, R.Remove(ok));
      states, steps, proc := states + [w], steps + [R.Remove(ok)], w.proc;
      if ok { net := Net(None, false, false, NoOverlay, true); }
    }

    // ----- flow reset

    /** The reset itself, its intent saved before and its result after. */
    method ResetFlows(s: State, ghost goal: R.Goal) returns (end: Reset, ok: bool)
      requires Recorded() && s == disk && s.txn.Some? && proc == R.Saving(WithReset(s, PendingReset), R.ThenFlows(goal))
      modifies this`disk, this`proc, this`used, this`states, this`steps
      ensures Recorded() && old(states) <= states && used <= old(used) + R.Ids(s)
      ensures disk == s || disk == WithReset(s, PendingReset) || disk == WithReset(s, end)
      ensures !end.NoReset?
      ensures ok ==> disk == WithReset(s, end) && (end.CompletedReset? || end.FailedReset?) && proc == R.Resume(disk, goal)
      ensures !ok ==> proc == R.Idle
    {
      end := PendingReset;
      var marked := WithReset(s, PendingReset);
      ok := Save(marked);
      if !ok { return; }
      var gone := EndFlows(marked);
      end := if gone then CompletedReset else FailedReset;
      assert WithReset(marked, end) == WithReset(s, end);
      ok := Save(WithReset(s, end));
    }

    /** Ends the previous source's connections after a confirmed change; failure
        is journaled and never undoes the change. */
    method FinishReset(s: State, ghost goal: R.Goal) returns (r: State, reply: Reply)
      requires Recorded() && disk == s && s.txn.Some? && proc == R.ResetProc(s, goal)
      modifies this`disk, this`proc, this`used, this`states, this`steps
      ensures Recorded() && old(states) <= states && used <= old(used) + R.Ids(s)
      ensures r.txn.Some? && r == WithReset(s, r.txn.value.reset)
      ensures disk.txn.Some? && disk == WithReset(s, disk.txn.value.reset)
      ensures reply == Done ==> disk == r && proc == R.Resume(r, goal)
      ensures reply == Done ==> r.txn.value.state.Confirmed? ==> !r.txn.value.reset.PendingReset?
      ensures reply != Done ==> proc == R.Idle
      ensures !s.txn.value.state.Confirmed? ==> r == disk == s && reply == Done
      ensures r.txn.value.reset.NoReset? == s.txn.value.reset.NoReset? && Attempted(reply) && reply != MaintenanceActive
    {
      var t := s.txn.value;
      assert s == WithReset(s, t.reset);
      if !t.state.Confirmed? || !(t.reset.PendingReset? || t.reset.FailedReset?) { return s, Done; }
      if ResetSlot(t) == 0 { return s, Refused; }
      var end, ok := ResetFlows(s, goal);
      r, reply := WithReset(s, end), if ok then Done else NotSaved;
      assert disk.txn.Some? && disk == WithReset(s, disk.txn.value.reset);
    }

    // ----- prepare

    /** The nested search for an allocation conflict. */
    method CheckAllocations(was: seq<Path>, next: seq<Path>) returns (ok: bool)
      ensures ok <==> forall i, j :: 0 <= i < |was| && 0 <= j < |next| ==> PairOk(was[i], next[j])
      ensures (exists i, j :: 0 <= i < |was| && 0 <= j < |next| && was[i].slot == next[j].slot && was[i].source != next[j].source) ==> !ok
    {
      for i := 0 to |was|
        invariant forall a, b :: 0 <= a < i && 0 <= b < |next| ==> PairOk(was[a], next[b])
      {
        for j := 0 to |next|
          invariant forall b :: 0 <= b < j ==> PairOk(was[i], next[b])
        {
          if !PairOk(was[i], next[j]) { return false; }
        }
      }
      return true;
    }

    method CheckCompatible(was: Desired, next: Desired) returns (ok: bool)
      ensures ok <==> Compatible(was, next)
      ensures ok <==> AllocationsKept(was, next)
    {
      CompatibleMeans(was, next);
      if was.network.lan != next.network.lan { return false; }
      if was.selective.Some? && next.selective.Some? && was.selective.value.path.slot != next.selective.value.path.slot
         && was.selective.value.fakePool == next.selective.value.fakePool { return false; }
      ok := CheckAllocations(Owners(was), Owners(next));
    }

    method Prepare(d: Desired, automatic: bool, id: string) returns (reply: Reply)
      requires Valid() && ValidTxn(id) && id !in used
      modifies this
      ensures Valid() && net == old(net) && old(states) <= states
      ensures reply == Done ==>
                && disk == old(disk).(txn := Some(NewTxn(old(disk), d, id)))
                && !old(Active(disk.txn)) && old(disk.job) == "" && Accepts(d)
                && (disk.committed.Some? ==> AllocationsKept(disk.committed.value, d))
      ensures reply == Done ==> NewTxnLaw(old(disk), disk.txn, d, id)
      ensures reply == Busy <==> Accepts(d) && old(disk.job) == "" && !(automatic && old(disk.hold)) && old(Active(disk.txn))
      ensures reply == MaintenanceActive <==> Accepts(d) && (old(disk.job) != "" || (automatic && old(disk.hold)))
      ensures reply == Refused && !old(R.OldFlows(disk)) ==>
                !Accepts(d) || (old(disk).committed.Some? && !AllocationsKept(old(disk).committed.value, d))
      ensures !Accepts(d) ==> reply == Refused && disk == old(disk)
      ensures Accepts(d) && (old(disk.job) != "" || (automatic && old(disk.hold))) ==> reply == MaintenanceActive && disk == old(disk)
      ensures old(Active(disk.txn)) ==> reply != Done && disk == old(disk)
    {
      Enter(R.Prepare(d, automatic, id));
      if !Accepts(d) { return Refused; }
      var s := disk;
      if s.job != "" || (automatic && s.hold) { return MaintenanceActive; }
      reply := PrepareLocked(s, d, id);
      NewTxnMeans(s, d, id);
    }

    /** Past the maintenance gate. */
    method PrepareLocked(s: State, d: Desired, id: string) returns (reply: Reply)
      requires Recorded() && s == disk
      requires proc == if R.OldFlows(s) then R.ResetProc(s, R.ToPrepare(d, id)) else R.Propose(s, d, id)
      modifies this
      ensures Valid() && net == old(net) && old(states) <= states
      ensures reply == Done ==> disk == s.(txn := Some(NewTxn(s, d, id))) && (s.committed.Some? ==> AllocationsKept(s.committed.value, d))
      ensures (reply == Busy <==> Active(s.txn)) && (reply == Busy ==> disk == s) && reply != MaintenanceActive
      ensures reply == Refused && !R.OldFlows(s) ==> s.committed.Some? && !AllocationsKept(s.committed.value, d)
    {
      var t;
      t, reply := ResetFirst(s, d, id);
      if reply != Done { return; }
      if Active(t.txn) { return Busy; }
      reply := Propose(t, d, id);
    }

    /** What a prepared transaction records. */
    static predicate NewTxnLaw(s: State, txn: Option<Txn>, d: Desired, id: string) {
      && txn.Some? && txn.value.id == id && !txn.value.selection && txn.value.state.Prepared? && txn.value.reset.NoReset?
      && txn.value.candidate == d && txn.value.previous == s.committed
      && txn.value.wasEmergency == (s.emergency || s.pending)
      && RollbackLaw(txn.value.rollback, d, s.committed, s.hold)
    }

    static lemma NewTxnMeans(s: State, d: Desired, id: string)
      ensures NewTxnLaw(s, Some(NewTxn(s, d, id)), d, id)
    {
      RollbackMeans(d, s.committed);
    }

    /** Old connections that a confirmed change has still to end are ended first. */
    method ResetFirst(s: State, d: Desired, id: string) returns (r: State, reply: Reply)
      requires Recorded() && s == disk
      requires proc == if R.OldFlows(s) then R.ResetProc(s, R.ToPrepare(d, id)) else R.Propose(s, d, id)
      modifies this
      ensures Recorded() && old(states) <= states && net == old(net)
      ensures (reply != Done ==> proc == R.Idle) && (!R.OldFlows(s) ==> reply == Done && disk == s)
      ensures Attempted(reply) && reply != MaintenanceActive
      ensures reply == Done ==>
                && r == disk && Active(r.txn) == Active(s.txn) && proc == R.Propose(r, d, id)
                && r == s.(txn := r.txn) && NewTxn(r, d, id) == NewTxn(s, d, id)
    {
      r, reply := s, Done;
      if R.OldFlows(s) {
        r, reply := FinishReset(s, R.ToPrepare(d, id));
      }
    }

    /** The checks against what is committed and against the system, then the
        journal entry with the rollback chosen for it. */
    method Propose(s: State, d: Desired, id: string) returns (reply: Reply)
      requires Recorded() && s == disk && !Active(s.txn) && proc == R.Propose(s, d, id)
      modifies this
      ensures Valid() && net == old(net) && old(states) <= states
      ensures reply == Done ==> disk == s.(txn := Some(NewTxn(s, d, id))) && (s.committed.Some? ==> AllocationsKept(s.committed.value, d))
      ensures reply == Refused ==> s.committed.Some? && !AllocationsKept(s.committed.value, d)
      ensures Attempted(reply) && reply != MaintenanceActive
    {
      if s.committed.Some? {
        var fits := CheckCompatible(s.committed.value, d);
        if !fits { return Refused; }
      }
      var usable: bool := *;
      if !usable {
        Leave();
        return Unavailable;
      }
      var ok := Save(s.(txn := Some(NewTxn(s, d, id))));
      return if ok then Done else NotSaved;
    }

    // ----- apply

    /** On success the candidate alone is installed and waits to be confirmed
        before its deadline; on a failed installation the recorded rollback has
        been installed and committed, or is known to be pending. */
    method Apply(id: string, timeout: nat, now: nat) returns (reply: Reply)
      requires Valid()
      modifies this
      ensures Valid() && old(states) <= states
      ensures reply == Done ==> IdIn(disk.txn, id) && (disk.txn.value.state.Applied? || disk.txn.value.state.Confirmed?)
      ensures reply == Done ==> old(disk.txn.Some?) && !old(Undone(disk.txn)) && disk.committed == old(disk.committed)
      ensures reply == Done && old(disk.txn.Some? && disk.txn.value.state.Prepared?) ==>
                && disk.txn == Some(old(disk.txn.value).(state := Applied, deadline := now + timeout))
                && disk == old(disk).(txn := disk.txn, guarded := false, emergency := false, pending := false)
                && net == Net(Some(disk.txn.value.candidate), false, false, NoOverlay, false)
      ensures reply == ApplyFailed ==> old(disk.txn.Some?) && RolledBackTo(disk, net, old(disk.txn.value.rollback))
      ensures reply == RollbackPending ==> InFlight(disk.txn) || Undone(disk.txn)
      ensures reply == Refused <==> !(30 <= timeout <= 180)
      ensures reply == MaintenanceActive <==> 30 <= timeout <= 180 && old(disk.job) != ""
      ensures reply == NotFound <==> 30 <= timeout <= 180 && old(disk.job) == "" && !old(IdIn(disk.txn, id))
      ensures reply == InvalidState <==>
                && 30 <= timeout <= 180 && old(disk.job) == "" && old(IdIn(disk.txn, id))
                && !old(disk.txn.value.state.Prepared? || disk.txn.value.state.Applied? || disk.txn.value.state.Confirmed?)
      ensures !(30 <= timeout <= 180) || old(disk.job) != "" || !IdIn(old(disk.txn), id) ==> reply != Done && disk == old(disk) && net == old(net)
    {
      Enter(R.Apply(id, timeout, now));
      if timeout < 30 || timeout > 180 { return Refused; }
      var s := disk;
      if s.job != "" { return MaintenanceActive; }
      if !IdIn(s.txn, id) { return NotFound; }
      if s.txn.value.state.Applied? || s.txn.value.state.Confirmed? { return Done; }
      if !s.txn.value.state.Prepared? { return InvalidState; }
      assert !s.txn.value.selection by { Now(); }
      var usable: bool := *;
      if !usable {
        Leave();
        return Unavailable;
      }
      reply := Change(s, now + timeout);
    }

    /** The change is journaled and the watchdog armed before anything is touched. */
    method Change(s: State, deadline: nat) returns (reply: Reply)
      requires Recorded() && s == disk && s.txn.Some? && s.txn.value.state.Prepared? && !s.txn.value.selection && s.job == ""
      requires proc == R.Saving(Started(s, deadline), R.ThenArm)
      modifies this
      ensures Valid() && old(states) <= states
      ensures reply == Done ==>
                && disk == s.(txn := Some(s.txn.value.(state := Applied, deadline := deadline)), guarded := false, emergency := false, pending := false)
                && net == Clean(s.txn.value.candidate)
      ensures reply == ApplyFailed ==> RolledBackTo(disk, net, s.txn.value.rollback)
      ensures reply == RollbackPending ==> InFlight(disk.txn) || Undone(disk.txn)
      ensures Attempted(reply) && reply != MaintenanceActive && reply != Refused
    {
      var t := Started(s, deadline);
      var ok := Save(t);
      if !ok { return NotSaved; }
      var armed := Arm(t);
      if !armed {
        ok := Save(InState(t, Failed));
        return Unavailable;
      }
      ok := Install(t);
      if !ok {
        reply := RollbackLocked(t);
        return if reply == Done then ApplyFailed else RollbackPending;
      }
      ok := Save(AppliedState(t));
      return if ok then Done else NotSaved;
    }

    // ----- roll back

    method RollbackLocked(s: State) returns (reply: Reply)
      requires Recorded() && s == disk && InFlight(s.txn) && s.job == "" && proc == R.RollProc(s)
      modifies this
      ensures Valid() && old(states) <= states
      ensures reply == Done ==> RolledBackTo(disk, net, s.txn.value.rollback)
      ensures InFlight(disk.txn) || Undone(disk.txn)
      ensures IdIn(disk.txn, s.txn.value.id) && Attempted(reply)
    {
      var t := InState(s, RollingBack);
      var ok := Save(t);
      if !ok { return NotSaved; }
      ok := Undo(t);
      if !ok {
        ok := Save(t);
        return RollbackPending;
      }
      reply := EndRollback(t);
    }

    /** The last save, or the emergency that was in force before. */
    method EndRollback(t: State) returns (reply: Reply)
      requires Recorded() && t == disk && t.txn.Some? && t.txn.value.state.RollingBack? && t.job == ""
      requires proc == R.UndoneProc(t) && net == Clean(t.txn.value.rollback)
      modifies this
      ensures Valid() && old(states) <= states
      ensures reply == Done ==> RolledBackTo(disk, net, t.txn.value.rollback)
      ensures Undone(disk.txn) && IdIn(disk.txn, t.txn.value.id) && Attempted(reply)
    {
      if t.txn.value.wasEmergency && t.txn.value.rollback.selective.Some? && !t.hold {
        reply := EmergencyLocked(RolledTo(t), t.txn.value.rollback);
        return;
      }
      var ok := Save(RolledTo(t));
      return if ok then Done else NotSaved;
    }

    method Rollback(id: string) returns (reply: Reply)
      requires Valid()
      modifies this
      ensures Valid() && old(states) <= states
      ensures reply == Done ==> IdIn(disk.txn, id) && disk.txn.value.state.RolledBack?
      ensures reply == Done && old(InFlight(disk.txn)) ==> RolledBackTo(disk, net, old(disk.txn.value.rollback))
      ensures reply == Done && !old(InFlight(disk.txn)) ==>
                old(disk.txn.Some?) && net == old(net) && disk == old(disk).(txn := Some(old(disk.txn.value).(state := RolledBack)))
      ensures reply == NotFound <==> !old(IdIn(disk.txn, id))
      ensures reply == NotFound ==> disk == old(disk) && net == old(net)
      ensures reply == InvalidState <==> old(IdIn(disk.txn, id)) && old(disk.txn.value.state.Confirmed? || disk.txn.value.state.Failed?)
      ensures old(Kept(disk.txn)) ==> reply != Done && disk == old(disk) && net == old(net)
    {
      Enter(R.Rollback(id));
      var s := disk;
      if !IdIn(s.txn, id) { return NotFound; }
      var t := s.txn.value;
      if t.state.RolledBack? { return Done; }
      if t.state.Prepared? {
        var ok := Save(InState(s, RolledBack));
        return if ok then Done else NotSaved;
      }
      if t.state.Confirmed? || t.state.Failed? { return InvalidState; }
      assert s.job == "" by { Now(); }
      reply := RollbackLocked(s);
    }

    /** What the watchdog or another process does after a crash: an unfinished
        change that is due is undone, and nothing in flight is reported done. */
    method Recover(now: nat) returns (done: bool, reply: Reply)
      requires Valid()
      modifies this
      ensures Valid() && old(states) <= states
      ensures done && reply == Done ==> !InFlight(disk.txn)
      ensures reply == Done ==> !R.OldFlows(disk)
      ensures Due(old(disk), now) && reply == Done ==> done && RolledBackTo(disk, net, old(disk.txn.value.rollback))
      ensures old(InFlight(disk.txn)) && !Due(old(disk), now) ==> !done && disk == old(disk) && net == old(net)
    {
      Enter(R.Recover(now));
      var s := disk;
      done := true;
      if s.txn.Some? && s.txn.value.state.Confirmed? && s.txn.value.reset.PendingReset? {
        s, reply := FinishReset(s, R.Return);
        return;
      }
      if !Active(s.txn) || s.txn.value.state.Prepared? { return true, Done; }
      if s.txn.value.state.RollingBack? || now >= s.txn.value.deadline {
        assert s.job == "" by { Now(); }
        reply := RollbackLocked(s);
        return reply == Done, reply;
      }
      return false, Done;
    }

    // ----- emergency

    /** Both saves around the switch to direct access: the authorization before,
        the completion after. */
    method EmergencyLocked(s: State, d: Desired) returns (reply: Reply)
      requires Recorded() && proc == R.EmergencyProc(s, d)
      modifies this
      ensures Valid() && old(states) <= states
      ensures disk == old(disk) || disk == Flagged(s) || disk == Directed(s)
      ensures disk == old(disk) || disk == s.(emergency := true, pending := true) || disk == s.(emergency := true, pending := false, guarded := false)
      ensures reply == Done ==>
                disk == s.(emergency := true, pending := false, guarded := false) && net.emergency == FullOverlay && !net.guard
      ensures old(net).policy == Some(d) && !old(net).torn ==> net == old(net).(guard := net.guard, emergency := net.emergency)
      ensures s.hold || s.job != "" || d.selective.None? ==> reply != Done && disk == old(disk) && net == old(net)
      ensures Attempted(reply)
    {
      if s.hold || s.job != "" { return MaintenanceActive; }
      if d.selective.None? { return Refused; }
      var ok := Save(Flagged(s));
      if !ok { return NotSaved; }
      ok := GoDirect(Flagged(s), d);
      if !ok { return Unavailable; }
      assert Directed(Flagged(s)) == Directed(s);
      ok := Save(Directed(s));
      return if ok then Done else NotSaved;
    }

    /** The watchdog's or an operator's request; one that names a transaction
        does nothing when another has taken its place. */
    method SelectiveEmergency(transaction: string) returns (reply: Reply)
      requires Valid()
      modifies this
      ensures Valid() && old(states) <= states
      ensures transaction != "" && !IdIn(old(disk.txn), transaction) ==> reply == Done && disk == old(disk) && net == old(net)
      ensures SamePolicy(old(disk), disk)
      ensures transaction != "" && (old(InFlight(disk.txn)) || (old(disk.emergency) && !old(disk.pending))) ==> disk == old(disk) && net == old(net)
      ensures old(disk.hold) || old(disk.job) != "" ==> disk == old(disk) && net == old(net)
      ensures transaction == "" && reply == Done && (old(InFlight(disk.txn)) || old(disk.committed.Some?)) ==>
                disk.emergency && !disk.pending && !disk.guarded && net.emergency == FullOverlay && !net.guard
    {
      Enter(R.SelectiveEmergency(transaction));
      var s := disk;
      if transaction != "" && (!IdIn(s.txn, transaction) || InFlight(s.txn)) { return Done; }
      if transaction != "" && s.emergency && !s.pending {
        return if s.hold || s.job != "" then MaintenanceActive else Done;
      }
      if Present(s).None? { return Done; }
      reply := EmergencyLocked(s, Present(s).value);
    }

    // ----- quarantine

    /** Closes ingress, or, for selective routing that no maintenance holds, goes
        direct.  Ownership of the guard is saved before the guard is installed. */
    method QuarantineLocked(s: State, remove: bool) returns (reply: Reply)
      requires Recorded() && s == disk && proc == R.QuarantineProc(s, remove)
      modifies this
      ensures Recorded() && old(states) <= states
      ensures SamePolicy(s, disk)
      ensures s.hold || s.job != "" ==> disk == s || disk == s.(guarded := true)
      ensures Closes(s, disk, net, reply)
      ensures reply == Done && (s.hold || s.job != "") && s.committed.Some? && !Active(s.txn) ==> net.guard && disk.guarded
      ensures reply == Done && remove && s.committed.Some? && !Active(s.txn) && (s.hold || s.job != "" || s.committed.value.selective.None?) ==>
                disk == s.(guarded := true) && proc == R.Removing(disk)
      ensures !remove || reply != Done ==> proc == R.Idle
      ensures Attempted(reply) && (s.hold || s.job != "" ==> reply != Refused && reply != MaintenanceActive)
    {
      if Present(s).None? { return Done; }
      if Present(s).value.selective.Some? && !s.hold && s.job == "" {
        reply := EmergencyLocked(s, Present(s).value);
        return;
      }
      reply := RaiseGuard(s, remove);
    }

    /** Ownership of the guard is saved, then the guard goes up. */
    method RaiseGuard(s: State, remove: bool) returns (reply: Reply)
      requires Recorded() && s == disk
      requires proc == if s.guarded then R.Closing(s, remove) else R.Saving(s.(guarded := true), R.ThenClose(remove))
      modifies this
      ensures Recorded() && old(states) <= states
      ensures disk == s || disk == s.(guarded := true)
      ensures reply == Done ==> disk == s.(guarded := true) && net.guard && proc == if remove then R.Removing(disk) else R.Idle
      ensures reply != Done ==> proc == R.Idle
      ensures reply == Done || reply == NotSaved || reply == Unavailable
    {
      var usable: bool := *;
      if !usable {
        Leave();
        return Unavailable;
      }
      var ok := true;
      var t := s.(guarded := true);
      if !s.guarded { ok := Save(t); }
      if !ok { return NotSaved; }
      assert disk == t;
      ok := Close(t, remove);
      return if ok then Done else Unavailable;
    }

    method BootGuard() returns (reply: Reply)
      requires Valid()
      modifies this
      ensures Valid() && old(states) <= states
      ensures SamePolicy(old(disk), disk)
      ensures Closes(old(disk), disk, net, reply)
    {
      Enter(R.BootGuard);
      reply := QuarantineLocked(disk, false);
    }

    // ----- maintenance

    /** When it succeeds the job owns the gate, no transaction is active and what
        is committed lies behind the guard. */
    method AcquireMaintenance(id: string, checked: bool, recovery: bool) returns (reply: Reply)
      requires Valid()
      modifies this
      ensures Valid() && old(states) <= states
      ensures SamePolicy(old(disk).(job := disk.job, hold := disk.hold), disk)
      ensures reply == Done ==>
                && disk.job == id && disk.hold && !Active(disk.txn)
                && (disk.committed.Some? ==> net.guard && disk.guarded)
      ensures reply != Done ==> disk.job == old(disk.job) || (disk.job == id && disk.hold)
      ensures reply == Busy ==> old(Active(disk.txn))
      ensures reply == Refused && checked && ValidTxn(id) ==>
                old(disk.job) == "" && old(disk.lastJob) == id && !(recovery && old(disk.hold))
      ensures old(Active(disk.txn)) || (old(disk.job) != "" && old(disk.job) != id) ==> reply != Done && disk == old(disk)
      ensures old(disk.job) == "" && old(disk.lastJob) == id && !(recovery && old(disk.hold)) ==> reply != Done && disk == old(disk)
    {
      Enter(R.AcquireMaintenance(id, recovery));
      if !ValidTxn(id) { return Refused; }
      var s := disk;
      assert s.job != "" ==> s.hold by { Now(); }
      if s.job == "" && s.lastJob == id && !(recovery && s.hold) { return Refused; }
      if s.job != "" && s.job != id { return MaintenanceActive; }
      if Active(s.txn) { return Busy; }
      if !checked {
        Leave();
        return Refused;
      }
      if s.job == "" {
        s := s.(job := id, hold := true);
        var ok := Save(s);
        if !ok { return NotSaved; }
      }
      reply := QuarantineLocked(s, false);
    }

    /** Opens the gate for a new explicit transaction; the hold stays. */
    method ReleaseMaintenance(id: string) returns (reply: Reply)
      requires Valid()
      modifies this
      ensures Valid() && old(states) <= states && net == old(net)
      ensures reply == Done ==> disk == old(disk).(job := "", lastJob := id)
      ensures SamePolicy(old(disk).(job := disk.job), disk)
      ensures old(disk.job) != id && !(old(disk.job) == "" && old(disk.lastJob) == id) ==> reply != Done && disk == old(disk)
      ensures reply == MaintenanceActive ==> old(disk.job) != id
      ensures reply == Refused <==> !ValidTxn(id)
      ensures |id| != 32 || (exists i :: 0 <= i < |id| && !('0' <= id[i] <= '9' || 'a' <= id[i] <= 'f' || 'A' <= id[i] <= 'F')) ==> reply == Refused
    {
      Enter(R.ReleaseMaintenance(id));
      if !ValidTxn(id) { return Refused; }
      var s := disk;
      if s.job == "" && s.lastJob == id { return Done; }
      if s.job != id { return MaintenanceActive; }
      var ok := Save(s.(job := "", lastJob := id));
      return if ok then Done else NotSaved;
    }

    // ----- decommission

    /** Decommissioning that preserves the closed state, by the local command or,
        with its identity, by the package job that owns the gate. */
    method PreserveClosed(id: string) returns (reply: Reply)
      requires Valid()
      modifies this
      ensures Valid() && old(states) <= states
      ensures SamePolicy(old(disk).(hold := disk.hold), disk)
      ensures id != "" && old(disk.job) != id ==> reply != Done && disk == old(disk) && net == old(net)
      ensures id == "" && old(R.AnySelective(disk)) && (old(disk.job) != "" || old(Active(disk.txn))) ==>
                reply != Done && disk == old(disk) && net == old(net)
      ensures reply == Done && old(disk.committed.Some?) && !old(Active(disk.txn)) ==> net.guard && disk.guarded
    {
      Enter(R.PreserveClosed(id));
      var s := disk;
      if id != "" {
        if s.job != id { return MaintenanceActive; }
        reply := QuarantineLocked(s, false);
        return;
      }
      if R.AnySelective(s) {
        if s.job != "" { return MaintenanceActive; }
        if Active(s.txn) { return Busy; }
        if !s.hold {
          s := s.(hold := true);
          var ok := Save(s);
          if !ok { return NotSaved; }
        }
      }
      reply := QuarantineLocked(s, false);
    }

    /** Decommissioning that restores direct access.  On success nothing is
        installed and nothing is remembered but the gate; cut short, the journal
        still owns the guard. */
    method RestoreDirect(id: string) returns (reply: Reply)
      requires Valid()
      modifies this
      ensures Valid() && old(states) <= states
      ensures reply == Done && old(disk.committed.Some?) ==>
                && disk == State(old(disk.job), old(disk.lastJob), disk.hold, false, false, false, None, None)
                && disk.hold == (old(disk.hold) && !(old(disk.committed.value.selective.Some?) && old(disk.job) == ""))
                && net.policy.None? && !net.torn && !net.guard && net.emergency == NoOverlay
      ensures reply != Done ==> disk.committed == old(disk.committed) || (disk.committed.None? && net.policy.None? && !net.torn)
      ensures old(disk.job) != id || old(Active(disk.txn)) ==> reply != Done && disk == old(disk) && net == old(net)
      ensures reply == Busy <==> old(disk.job) == id && old(Active(disk.txn))
    {
      Enter(R.RestoreDirect(id));
      var s := disk;
      assert s.job != "" ==> s.hold by { Now(); }
      if s.job != id { return MaintenanceActive; }
      if Active(s.txn) { return Busy; }
      if s.committed.None? { return Done; }
      if s.committed.value.selective.Some? && s.job == "" && !s.hold {
        s := s.(hold := true);
        var ok := Save(s);
        if !ok { return NotSaved; }
      }
      reply := Dismantle(s);
    }

    /** Quarantine, then removal. */
    method Dismantle(s: State) returns (reply: Reply)
      requires Recorded() && s == disk && proc == R.QuarantineProc(s, true)
      requires s.committed.Some? && !Active(s.txn) && (s.hold || s.job != "" || s.committed.value.selective.None?)
      modifies this
      ensures Valid() && old(states) <= states
      ensures disk.committed == s.committed || (disk == Decommissioned(s.(guarded := true)) && net == Net(None, false, false, NoOverlay, true))
      ensures reply == Done ==> disk == Decommissioned(s.(guarded := true))
      ensures Attempted(reply)
    {
      reply := QuarantineLocked(s, true);
      if reply != Done { return; }
      reply := Takedown(s.(guarded := true));
    }

    method Takedown(s: State) returns (reply: Reply)
      requires Recorded() && s == disk && s.committed.Some? && proc == R.Removing(s)
      modifies this
      ensures Valid() && old(states) <= states
      ensures disk == s || (disk == Decommissioned(s) && net == Net(None, false, false, NoOverlay, true))
      ensures reply == Done ==> disk == Decommissioned(s)
      ensures Attempted(reply)
    {
      var ok := Remove(s);
      if !ok { return Unavailable; }
      ok := Save(Decommissioned(s));
      return if ok then Done else NotSaved;
    }

    // ----- confirm

    /** What was installed becomes what is committed, and no allocation of the
        intent it replaces has moved. */
    method Confirm(id: string, now: nat) returns (reply: Reply)
      requires Valid()
      modifies this
      ensures Valid() && old(states) <= states && net == old(net)
      ensures reply == Done ==> IdIn(disk.txn, id) && disk.txn.value.state.Confirmed? && disk.committed == Some(disk.txn.value.candidate)
      ensures reply == Done ==> !disk.txn.value.reset.PendingReset?
      ensures reply == Done && !old(Kept(disk.txn)) ==>
                && old(disk.txn.Some?) && now < old(disk.txn.value.deadline)
                && disk == old(disk).(txn := disk.txn, committed := Some(old(disk.txn.value.candidate)), hold := false)
                && disk.txn == Some(old(disk.txn.value).(state := Confirmed, reset := disk.txn.value.reset))
                && (disk.txn.value.reset.NoReset? <==> !EndsOldFlows(disk.txn.value.candidate, disk.txn.value.previous))
                && (old(disk.committed.Some?) ==> AllocationsKept(old(disk.committed.value), disk.committed.value))
      ensures !old(Kept(disk.txn)) && !old(disk.txn.Some? && disk.txn.value.state.Applied?) ==> reply != Done && disk == old(disk)
      ensures reply == MaintenanceActive <==> old(disk.job) != ""
      ensures reply == MaintenanceActive ==> disk == old(disk)
      ensures reply == NotFound <==> old(disk.job) == "" && !old(IdIn(disk.txn, id))
      ensures reply == InvalidState <==>
                old(disk.job) == "" && old(IdIn(disk.txn, id)) && !old(disk.txn.value.state.Applied? || disk.txn.value.state.Confirmed?)
      ensures reply == Expired <==>
                old(disk.job) == "" && old(IdIn(disk.txn, id)) && old(disk.txn.value.state.Applied?) && now >= old(disk.txn.value.deadline)
    {
      Enter(R.Confirm(id, now));
      var s := disk;
      if s.job != "" { return MaintenanceActive; }
      if !IdIn(s.txn, id) { return NotFound; }
      if s.txn.value.state.Confirmed? {
        assert s.committed == Some(s.txn.value.candidate) by { Now(); }
        s, reply := FinishReset(s, R.Return);
        return;
      }
      if !s.txn.value.state.Applied? { return InvalidState; }
      if now >= s.txn.value.deadline { return Expired; }
      assert s.committed.Some? ==> Compatible(s.committed.value, s.txn.value.candidate) by { Now(); }
      if s.committed.Some? { CompatibleMeans(s.committed.value, s.txn.value.candidate); }
      reply := Commit(s);
    }

    /** What is installed becomes what is committed, then old connections end. */
    method Commit(s: State) returns (reply: Reply)
      requires Recorded() && s == disk && s.txn.Some? && s.txn.value.state.Applied?
      requires proc == R.Saving(ConfirmedState(s), R.ThenReset(R.Return))
      modifies this
      ensures Valid() && old(states) <= states && net == old(net)
      ensures reply == Done ==>
                && disk.txn.Some? && disk.txn == Some(s.txn.value.(state := Confirmed, reset := disk.txn.value.reset))
                && disk == s.(txn := disk.txn, committed := Some(s.txn.value.candidate), hold := false)
                && (disk.txn.value.reset.NoReset? <==> !EndsOldFlows(s.txn.value.candidate, s.txn.value.previous))
                && !disk.txn.value.reset.PendingReset?
      ensures Attempted(reply) && reply != MaintenanceActive
    {
      var t := ConfirmedState(s);
      assert s.txn.value.reset.NoReset? && (t.txn.value.reset.NoReset? <==> !EndsOldFlows(s.txn.value.candidate, s.txn.value.previous)) by {
        Now();
        ResetSlotMeans(s.txn.value);
      }
      var ok := Save(t);
      if !ok { return NotSaved; }
      t, reply := FinishReset(t, R.Return);
    }

    // ----- switching the selection

    static lemma SwitchMeans(s: State, d: Desired, id: string, deadline: nat)
      ensures SwitchLaw(s, Switched(Switching(s, d, id, deadline)), d, id, deadline)
    {
      RollbackMeans(d, s.committed);
    }

    method SwitchLocked(s: State, d: Desired, id: string, deadline: nat) returns (reply: Reply)
      requires Recorded() && s == disk && s.job == "" && proc == R.Saving(Switching(s, d, id, deadline), R.ThenArm)
      modifies this
      ensures Valid() && old(states) <= states
      ensures reply == Done ==> net == old(net).(policy := Some(d)) && SwitchLaw(s, disk, d, id, deadline)
      ensures reply == ApplyFailed ==> RolledBackTo(disk, net, SafeRollback(d, s.committed))
      ensures reply == RollbackPending ==> InFlight(disk.txn) || Undone(disk.txn)
      ensures Attempted(reply) && reply != Refused && reply != MaintenanceActive
    {
      reply := SwitchSteps(s, d, id, deadline);
      SwitchMeans(s, d, id, deadline);
    }

    /** From the snapshot to the commit of a switch. */
    method SwitchSteps(s: State, d: Desired, id: string, deadline: nat) returns (reply: Reply)
      requires Recorded() && s == disk && s.job == "" && proc == R.Saving(Switching(s, d, id, deadline), R.ThenArm)
      modifies this
      ensures Valid() && old(states) <= states
      ensures reply == Done ==> disk == Switched(Switching(s, d, id, deadline)) && net == old(net).(policy := Some(d))
      ensures Attempted(reply) && reply != Refused && reply != MaintenanceActive
      ensures reply == ApplyFailed ==> RolledBackTo(disk, net, SafeRollback(d, s.committed))
      ensures reply == RollbackPending ==> InFlight(disk.txn) || Undone(disk.txn)
    {
      var t := Switching(s, d, id, deadline);
      var ok := Save(t);
      if !ok { return NotSaved; }
      var armed := Arm(t);
      if !armed {
        ok := Save(InState(t, Failed));
        return Unavailable;
      }
      ok := Reclassify(t);
      if !ok {
        reply := RollbackLocked(t);
        return if reply == Done then ApplyFailed else RollbackPending;
      }
      ok := Save(Switched(t));
      return if ok then Done else NotSaved;
    }

    /** Selecting another prepared source without touching routes or flows.
        `FullApply`: an ordinary transaction must do it. */
    method SwitchSelection(source: string, id: string, now: nat) returns (reply: Reply)
      requires Valid() && ValidTxn(id) && id !in used
      modifies this
      ensures Valid() && old(states) <= states
      ensures reply == Done ==> old(disk).committed.Some? && disk.committed == Some(old(disk).committed.value.(selected := source))
      ensures reply == Done && IdIn(disk.txn, id) && !old(IdIn(disk.txn, id)) ==>
                && net == old(net).(policy := disk.committed)
                && SwitchLaw(old(disk), disk, old(disk).committed.value.(selected := source), id, now + 30)
      ensures reply == MaintenanceActive <==> old(disk).committed.Some? && (old(disk.job) != "" || old(disk.hold))
      ensures reply == Busy <==> old(disk).committed.Some? && old(disk.job) == "" && !old(disk.hold) && old(Active(disk.txn))
      ensures reply == FullApply <==>
                && old(disk).committed.Some? && old(disk.job) == "" && !old(disk.hold) && !old(Active(disk.txn))
                && old(disk).committed.value.continuity.None? && (old(disk).committed.value.breakExisting || old(disk.guarded))
      ensures reply == Refused && !old(R.OldFlows(disk)) ==>
                var c := old(disk).committed;
                c.None? || c.value.continuity.Some? || c.value.selective.Some? || !Accepts(c.value.(selected := source))
      ensures old(disk.job) != "" || old(disk.hold) || old(Active(disk.txn)) || old(disk.committed.None?) ==>
                reply != Done && disk == old(disk) && net == old(net)
    {
      Enter(R.Switch(source, id, now));
      var s := disk;
      if s.committed.None? { return Refused; }
      assert Accepts(s.committed.value) by { Now(); }
      if s.job != "" || s.hold { return MaintenanceActive; }
      if Active(s.txn) { return Busy; }
      if s.committed.value.continuity.Some? { return Refused; }
      if s.committed.value.breakExisting || s.guarded { return FullApply; }
      reply := ResetThenSwitch(s, source, id, now);
    }

    /** Old connections that a confirmed change has still to end are ended first. */
    method ResetThenSwitch(s: State, source: string, id: string, now: nat) returns (reply: Reply)
      requires Recorded() && s == disk && s.committed.Some? && s.job == ""
      requires proc == if R.OldFlows(s) then R.ResetProc(s, R.ToSwitch(source, id, now)) else R.SwitchProc(s, source, id, now)
      modifies this
      ensures Valid() && old(states) <= states
      ensures reply == Done ==> disk.committed == Some(s.committed.value.(selected := source))
      ensures reply == Done && !IdIn(s.txn, id) && IdIn(disk.txn, id) ==>
                && net == old(net).(policy := disk.committed)
                && SwitchLaw(s, disk, s.committed.value.(selected := source), id, now + 30)
      ensures reply == Refused && !R.OldFlows(s) ==> !SwitchOk(s.committed.value, s.committed.value.(selected := source))
      ensures Attempted(reply) && reply != MaintenanceActive
    {
      var t := s;
      if R.OldFlows(s) {
        t, reply := FinishReset(s, R.ToSwitch(source, id, now));
        if reply != Done { return; }
      }
      reply := SwitchFrom(t, source, id, now);
    }

    method SwitchFrom(s: State, source: string, id: string, now: nat) returns (reply: Reply)
      requires Recorded() && s == disk && s.committed.Some? && s.job == "" && proc == R.SwitchProc(s, source, id, now)
      modifies this
      ensures Valid() && old(states) <= states
      ensures reply == Done ==> disk.committed == Some(s.committed.value.(selected := source))
      ensures reply == Done && !IdIn(s.txn, id) && IdIn(disk.txn, id) ==>
                && net == old(net).(policy := disk.committed)
                && SwitchLaw(s, disk, s.committed.value.(selected := source), id, now + 30)
      ensures reply == Refused ==> !SwitchOk(s.committed.value, s.committed.value.(selected := source))
      ensures Attempted(reply) && reply != MaintenanceActive
    {
      var d := s.committed.value.(selected := source);
      if source == s.committed.value.selected && s.txn.Some? { return Done; }
      if !SwitchOk(s.committed.value, d) { return Refused; }
      var usable: bool := *;
      if !usable {
        Leave();
        return Unavailable;
      }
      reply := SwitchLocked(s, d, id, now + 30);
    }
  }

  /** A confirmed switch: only the selection is new, with the rollback the rule
      for it gives. */
  predicate SwitchLaw(s: State, disk: State, d: Desired, id: string, deadline: nat) {
    && disk.txn.Some? && disk == s.(txn := disk.txn, committed := Some(d))
    && var t := disk.txn.value;
    && t.id == id && t.selection && t.state.Confirmed? && t.deadline == deadline && t.candidate == d && t.previous == s.committed
    && !t.wasEmergency && t.reset.NoReset? && RollbackLaw(t.rollback, d, s.committed, false)
  }

  lemma ResetSlotMeans(t: Txn)
    requires TxnOk(t)
    ensures ResetSlot(t.(state := Confirmed)) != 0 <==> EndsOldFlows(t.candidate, t.previous)
  {
    if t.previous.Some? {
      SlotOfMeans(t.previous.value.paths, t.previous.value.selected);
      forall i | 0 <= i < |t.previous.value.paths| ensures t.previous.value.paths[i].slot > 0 {
        SlotsPositive(t.previous.value, i);
      }
    }
  }

  lemma SlotsPositive(d: Desired, i: nat)
    requires Accepts(d) && i < |d.paths|
    ensures d.paths[i].slot > 0
  {
    if d.selective.Some? {
      assert Normalized(d).paths[i] == d.paths[i];
      assert PathOk(Normalized(d).paths[i], Normalized(d));
    } else {
      assert Materialized(d).paths[i] == d.paths[i];
      assert PathOk(Materialized(d).paths[i], Materialized(d));
    }
  }

  /** The reply of an operation that was let through: it succeeded or met a failure. */
  predicate Attempted(r: Reply) { r != InvalidState && r != NotFound && r != Busy && r != Expired && r != FullApply }

  /** What a successful quarantine leaves: direct access for selective routing that
      no maintenance holds, the guard, owned on disk, for everything else. */
  predicate Closes(was: State, disk: State, net: Net, reply: Reply) {
    var d := if InFlight(was.txn) then Some(was.txn.value.candidate) else was.committed;
    reply == Done && d.Some? ==>
      if d.value.selective.Some? && !was.hold && was.job == "" then
        disk.emergency && !disk.pending && !disk.guarded && net.emergency == FullOverlay && !net.guard
      else disk == was.(guarded := true) && net.guard
  }

  /** Only journal marks differ, not the transaction nor what is committed. */
  predicate SamePolicy(a: State, b: State) {
    a.txn == b.txn && a.committed == b.committed && a.job == b.job && a.hold == b.hold
  }
}
