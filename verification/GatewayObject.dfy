/** The manager of the gateway's backhaul transaction
    (internal/coverage/transaction.go).  Every call is a run of the machine in
    GatewayRun, step by step; `states` and `steps` record it. */
module GatewayObject {
  import opened Intent
  import R = GatewayRun
  import opened GatewayProofs

  datatype Reply =
    | Done | Existing | Refused | Conflict | Busy | NotFound | InvalidState | Expired
    | NotSaved | Unavailable | ApplyFailed | RollbackFailed

  class Gateway {
    var disk: R.Journal
    var air: string
    ghost var proc: R.Proc
    ghost var base: string
    ghost var used: set<string>
    ghost var states: seq<R.World>
    ghost var steps: seq<R.Step>

    ghost function Here(): R.World
      reads this
    {
      R.World(disk, air, proc, base, used)
    }

    ghost predicate Recorded()
      reads this
    {
      R.Run(states, steps) && states[|steps|] == Here()
    }

    /** Between two calls. */
    ghost predicate Valid()
      reads this
    {
      Recorded() && proc == R.Idle
    }

    constructor (config: string)
      ensures Valid() && disk == R.BLANK && air == config && used == {}
    {
      disk, air, proc, base, used := R.BLANK, config, R.Idle, config, {};
      states, steps := [R.World(R.BLANK, config, R.Idle, config, {})], [];
    }

    /** A new process over what a crash left behind, at any step of any run. */
    constructor Restarted(ghost before: seq<R.World>, ghost done: seq<R.Step>, ghost n: nat, disk: R.Journal, air: string)
      requires R.Run(before, done) && n < |before| && before[n].disk == disk && before[n].air == air
      ensures Valid() && this.disk == disk && this.air == air && base == before[n].base && before[..n + 1] <= states
    {
      this.disk, this.air, proc, base, used := disk, air, R.Idle, before[n].base, before[n].used;
      R.PrefixIsRun(before, done, n);
      R.Extended(before[..n + 1], done[..n], R.Crash);
      states, steps := before[..n + 1] + [before[n].(proc := R.Idle)], done[..n] + [R.Crash];
    }

    lemma Now()
      requires Recorded()
      ensures Inv(Here())
    {
      RunKeepsInv(states, steps, |steps|);
    }

    // ----- the steps

    method Enter(ghost op: R.Op)
      requires Valid()
      requires op.Prepare? ==> LowerHex(op.id, 32) && op.id !in used && LowerHex(op.hash, 64)
      requires op.Prepare? && op.found.Some? ==> op.found.value.snapshot.config == air
      modifies this`proc, this`states, this`steps
      ensures Recorded() && proc == R.Start(op, disk) && old(states) <= states
    {
      Now();
      R.Extended(states, steps, R.Call(op));
      states, steps, proc := states + [R.Next(Here(), R.Call(op))], steps + [R.Call(op)], R.Start(op, disk);
    }

    /** The call returns before its save. */
    method Leave()
      requires Recorded() && proc.Saving?
      modifies this`proc, this`states, this`steps
      ensures Valid() && old(states) <= states
    {
      R.Extended(states, steps, R.Leave);
      states, steps, proc := states + [R.Next(Here(), R.Leave)], steps + [R.Leave], R.Idle;
    }

    /** The file may have been replaced although the call failed. */
    method Save(j: R.Journal) returns (ok: bool)
      requires Recorded() && proc.Saving? && proc.want == j
      modifies this`disk, this`proc, this`base, this`used, this`states, this`steps
      ensures Recorded() && old(states) <= states
      ensures proc == if ok then R.Follow(j, old(proc).todo) else R.Idle
      ensures disk == j || (disk == old(disk) && !ok)
      ensures !R.Begun(old(disk), j) ==> base == old(base)
    {
      var written: bool;
      ok, written := *, *;
      ghost var w := R.Next(Here(), R.Save(ok, written));
      R.Extended(states, steps, R.Save(ok, written));
      states, steps := states + [w], steps + [R.Save(ok, written)];
      if ok || written { disk := j; }
      proc, base, used := w.proc, w.base, w.used;
    }

    method Arm(j: R.Journal) returns (armed: bool)
      requires Recorded() && proc == R.Arming(j) && j.txn.Some?
      modifies this`proc, this`states, this`steps
      ensures Recorded() && old(states) <= states
      ensures proc == if armed then R.Installing(j)
                      else R.Saving(R.Erased(R.InState(j, R.Failed, j.txn.value.deadline)), R.Finished)
    {
      armed := *;
      ghost var w := R.Next(Here(), R.Arm(armed));
      R.Extended(states, steps, R.Arm(armed));
      states, steps, proc := states + [w], steps + [R.Arm(armed)], w.proc;
    }

    method Tear(left: string)
      requires Recorded() && (proc.Installing? || proc.Restoring?)
      modifies this`air, this`states, this`steps
      ensures Recorded() && air == left && old(states) <= states
    {
      R.Extended(states, steps, R.Tear(left));
      states, steps, air := states + [R.Next(Here(), R.Tear(left))], steps + [R.Tear(left)], left;
    }

    /** Backend.Apply: what it makes of the configuration is its own affair, and
        when it fails anything may be left. */
    method Install(j: R.Journal) returns (ok: bool)
      requires Recorded() && proc == R.Installing(j) && j.txn.Some?
      modifies this`air, this`proc, this`states, this`steps
      ensures Recorded() && old(states) <= states
      ensures proc == if ok then R.Saving(R.InState(j, R.Applied, j.txn.value.deadline), R.Finished) else R.RollProc(j)
    {
      var left: string := *;
      Tear(left);
      ok := *;
      ghost var w := R.Next(Here(), R.Install(ok));
      R.Extended(states, steps, R.Install(ok));
      states, steps, proc := states + [w], steps + [R.Install(ok)], w.proc;
    }

    /** Backend.Restore */
    method Restore(j: R.Journal) returns (ok: bool)
      requires Recorded() && proc == R.Restoring(j) && j.txn.Some? && j.snapshot.Some?
      modifies this`air, this`proc, this`states, this`steps
      ensures Recorded() && old(states) <= states
      ensures ok ==> air == j.snapshot.value.config && proc == R.Saving(R.Erased(R.InState(j, R.RolledBack, None)), R.Finished)
      ensures !ok ==> proc == R.Saving(j, R.Finished)
    {
      var left: string := *;
      Tear(left);
      ok := *;
      ghost var w := R.Next(Here(), R.Restore(ok));
      R.Extended(states, steps, R.Restore(ok));
      states, steps, proc := states + [w], steps + [R.Restore(ok)], w.proc;
      if ok { air := j.snapshot.value.config; }
    }

    // ----- the operations

    /** The same key and request give the same transaction again. */
    method Prepare(p: R.Plan, key: string, hash: string, id: string, found: Option<R.Found>) returns (reply: Reply)
      requires Valid() && LowerHex(id, 32) && id !in used && LowerHex(hash, 64)
      requires found.Some? ==> found.value.snapshot.config == air
      modifies this
      ensures Valid() && air == old(air) && old(states) <= states
      ensures reply == Existing ==> disk == old(disk) && disk.txn.Some? && disk.key == key && disk.hash == hash
      ensures reply == Conflict ==> disk == old(disk) && disk.key == key && disk.hash != hash
      ensures reply == Done ==>
                && found.Some? && !old(R.Holding(disk.txn)) && R.PlanOk(p)
                && disk.txn == Some(R.GTxn(id, R.Prepared, None, p)) && disk.key == key && disk.hash == hash
                && disk.snapshot == Some(found.value.snapshot) && disk.wifi == Some(found.value.wifi)
      ensures R.PlanOk(p) && R.KeyOk(key) && old(disk).key == key ==> reply == (if old(disk).hash == hash then Existing else Conflict)
      ensures old(R.Holding(disk.txn)) && R.PlanOk(p) && R.KeyOk(key) && old(disk).key != key ==> reply == Busy && disk == old(disk)
    {
      Enter(R.Prepare(p, key, hash, id, found));
      if !R.PlanOk(p) || !R.KeyOk(key) { return Refused; }
      assert disk.key != "" ==> disk.txn.Some? by { Now(); }
      if disk.key == key {
        return if disk.hash != hash then Conflict else Existing;
      }
      if R.Holding(disk.txn) { return Busy; }
      if found.None? { return Unavailable; }
      if !R.PreparedOk(Some(found.value.snapshot), p, Some(found.value.wifi)) { return Refused; }
      var ok := Save(R.NewJournal(p, id, key, hash, found.value.snapshot, found.value.wifi));
      return if ok then Done else NotSaved;
    }

    method Apply(id: string, timeout: nat, now: nat) returns (reply: Reply)
      requires Valid()
      modifies this
      ensures Valid() && old(states) <= states
      ensures reply == Done ==> R.IdIn(disk.txn, id) && (disk.txn.value.state.Applied? || disk.txn.value.state.Confirmed?)
      ensures reply == Done && old(disk.txn.Some? && disk.txn.value.state.Prepared?) ==>
                && disk == old(disk).(txn := Some(old(disk.txn.value).(state := R.Applied, deadline := Some(now + timeout))))
                && base == old(base)
      ensures reply == ApplyFailed ==> RestoredTo(disk, air, old(base))
      ensures !(30 <= timeout <= 180) || !R.IdIn(old(disk.txn), id) ==> reply != Done && disk == old(disk) && air == old(air)
      ensures reply == Refused <==> !(30 <= timeout <= 180)
      ensures reply == NotFound <==> 30 <= timeout <= 180 && !R.IdIn(old(disk.txn), id)
      ensures reply == InvalidState <==>
                && 30 <= timeout <= 180 && R.IdIn(old(disk.txn), id)
                && !old(disk.txn.value.state.Prepared? || disk.txn.value.state.Applied? || disk.txn.value.state.Confirmed?)
    {
      Enter(R.Apply(id, timeout, now));
      if timeout < 30 || timeout > 180 { return Refused; }
      if !R.IdIn(disk.txn, id) { return NotFound; }
      if disk.txn.value.state.Applied? || disk.txn.value.state.Confirmed? { return Done; }
      if !disk.txn.value.state.Prepared? { return InvalidState; }
      var current: bool := *;
      if !current {
        Leave();
        return Unavailable;
      }
      var j := R.InState(disk, R.Applying, Some(now + timeout));
      var ok := Save(j);
      if !ok { return NotSaved; }
      reply := Change(j);
    }

    method Change(j: R.Journal) returns (reply: Reply)
      requires Recorded() && j == disk && j.txn.Some? && j.txn.value.state.Applying? && proc == R.Arming(j)
      modifies this
      ensures Valid() && old(states) <= states && base == old(base)
      ensures reply == Done ==> disk == R.InState(j, R.Applied, j.txn.value.deadline)
      ensures reply == ApplyFailed ==> RestoredTo(disk, air, base)
      ensures reply != Refused && reply != NotFound && reply != InvalidState
      ensures reply == Unavailable ==> disk == j || (disk.txn == Some(j.txn.value.(state := R.Failed)) && disk.snapshot.None? && disk.wifi.None? && air == old(air))
    {
      var armed := Arm(j);
      if !armed {
        var failed := Save(R.Erased(R.InState(j, R.Failed, j.txn.value.deadline)));
        return Unavailable;
      }
      var ok := Install(j);
      if !ok {
        reply := RollBack(j);
        return if reply == Done then ApplyFailed else reply;
      }
      ok := Save(R.InState(j, R.Applied, j.txn.value.deadline));
      return if ok then Done else NotSaved;
    }

    /** Journaled, undone, journaled again; the material goes with the last save. */
    method RollBack(j: R.Journal) returns (reply: Reply)
      requires Recorded() && j == disk && j.txn.Some? && proc == R.RollProc(j)
      modifies this
      ensures Valid() && base == old(base) && old(states) <= states
      ensures R.IdIn(disk.txn, j.txn.value.id)
      ensures reply == Done ==> RestoredTo(disk, air, base)
      ensures reply == Done || reply == NotSaved || reply == RollbackFailed
      ensures reply == Done ==>
                && disk.txn == Some(j.txn.value.(state := R.RolledBack, deadline := None)) && disk.key == j.key && disk.hash == j.hash
    {
      var t := R.InState(j, R.RollingBack, j.txn.value.deadline);
      var ok := Save(t);
      if !ok { return NotSaved; }
      assert t.snapshot.Some? && t.snapshot.value.config == base by { Now(); }
      ok := Restore(t);
      if !ok {
        ok := Save(t);
        return if ok then RollbackFailed else NotSaved;
      }
      ok := Save(R.Erased(R.InState(t, R.RolledBack, None)));
      return if ok then Done else NotSaved;
    }

    /** A confirmation that comes too late undoes the change itself. */
    method Confirm(id: string, now: nat) returns (reply: Reply)
      requires Valid()
      modifies this
      ensures Valid() && old(states) <= states
      ensures reply == Done ==> R.IdIn(disk.txn, id) && (disk.txn.value.state.Confirmed? || disk.txn.value.state.Finalized?)
      ensures reply == Done && old(disk.txn.Some? && disk.txn.value.state.Applied?) ==>
                && old(disk.txn.value.deadline).Some? && now < old(disk.txn.value.deadline).value
                && disk == old(disk).(txn := Some(old(disk.txn.value).(state := R.Confirmed, deadline := None))) && air == old(air)
      ensures reply == Expired ==> RestoredTo(disk, air, old(base))
      ensures reply == NotFound <==> !R.IdIn(old(disk.txn), id)
      ensures reply == InvalidState <==>
                R.IdIn(old(disk.txn), id) && !old(disk.txn.value.state.Applied? || disk.txn.value.state.Confirmed? || disk.txn.value.state.Finalized?)
    {
      Enter(R.Confirm(id, now));
      if !R.IdIn(disk.txn, id) { return NotFound; }
      if disk.txn.value.state.Confirmed? || disk.txn.value.state.Finalized? { return Done; }
      if !disk.txn.value.state.Applied? { return InvalidState; }
      assert disk.txn.value.deadline.Some? by { Now(); }
      if now >= disk.txn.value.deadline.value {
        reply := RollBack(disk);
        return if reply == Done then Expired else reply;
      }
      var current: bool := *;
      if !current {
        Leave();
        return Unavailable;
      }
      var ok := Save(R.InState(disk, R.Confirmed, None));
      return if ok then Done else NotSaved;
    }

    /** Even a confirmed change can be undone, until it is finalized. */
    method Rollback(id: string) returns (reply: Reply)
      requires Valid()
      modifies this
      ensures Valid() && old(states) <= states
      ensures reply == Done ==> R.IdIn(disk.txn, id) && RestoredTo(disk, air, old(base))
      ensures old(disk.txn.Some? && (disk.txn.value.state.Finalized? || disk.txn.value.state.Failed?)) ==> reply != Done && disk == old(disk)
      ensures reply == NotFound <==> !R.IdIn(old(disk.txn), id)
      ensures reply == InvalidState <==> R.IdIn(old(disk.txn), id) && old(disk.txn.value.state.Finalized? || disk.txn.value.state.Failed?)
    {
      Enter(R.Rollback(id));
      if !R.IdIn(disk.txn, id) { return NotFound; }
      assert Durable(disk, air, base) by { Now(); }
      if disk.txn.value.state.RolledBack? { return Done; }
      if disk.txn.value.state.Finalized? || disk.txn.value.state.Failed? { return InvalidState; }
      if disk.txn.value.state.Prepared? {
        var ok := Save(R.Erased(R.InState(disk, R.RolledBack, disk.txn.value.deadline)));
        return if ok then Done else NotSaved;
      }
      reply := RollBack(disk);
    }

    method Recover(now: nat) returns (done: bool, reply: Reply)
      requires Valid()
      modifies this
      ensures Valid() && old(states) <= states
      ensures done ==> reply == Done && !(R.Active(disk.txn) && !disk.txn.value.state.Prepared?)
      ensures Due(old(disk), now) && reply == Done ==> done && RestoredTo(disk, air, old(base))
      ensures old(R.Active(disk.txn) && !disk.txn.value.state.Prepared?) && !Due(old(disk), now) ==> !done && disk == old(disk) && air == old(air)
    {
      Enter(R.Recover(now));
      if !R.Active(disk.txn) || disk.txn.value.state.Prepared? { return true, Done; }
      if disk.txn.value.state.RollingBack? || (disk.txn.value.deadline.Some? && now >= disk.txn.value.deadline.value) {
        reply := RollBack(disk);
        return reply == Done, reply;
      }
      return false, Done;
    }

    method Finalize(id: string) returns (reply: Reply)
      requires Valid()
      modifies this
      ensures Valid() && air == old(air) && old(states) <= states
      ensures reply == Done ==> R.IdIn(disk.txn, id) && disk.txn.value.state.Finalized? && disk.snapshot.None? && disk.wifi.None?
      ensures old(disk.txn.Some?) && !old(disk.txn.value.state.Confirmed? || disk.txn.value.state.Finalized?) ==> reply != Done && disk == old(disk)
      ensures reply == InvalidState <==>
                R.IdIn(old(disk.txn), id) && !old(disk.txn.value.state.Confirmed? || disk.txn.value.state.Finalized?)
      ensures reply == Done && old(disk.txn.Some? && disk.txn.value.state.Confirmed?) ==>
                disk == old(disk).(txn := Some(old(disk.txn.value).(state := R.Finalized)), snapshot := None, wifi := None)
    {
      Enter(R.Finalize(id));
      if !R.IdIn(disk.txn, id) { return NotFound; }
      assert Durable(disk, air, base) by { Now(); }
      if disk.txn.value.state.Finalized? { return Done; }
      if !disk.txn.value.state.Confirmed? { return InvalidState; }
      var ok := Save(R.Erased(R.InState(disk, R.Finalized, disk.txn.value.deadline)));
      return if ok then Done else NotSaved;
    }
  }
}
