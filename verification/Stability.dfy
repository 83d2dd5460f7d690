/** The facts each thread relies on survive the steps of the others. */
module Stability {
  import opened Model
  import opened Protocol
  import opened Invariant

  lemma SnapsStable(w: World, w': World, todo: map<Id, Job>)
    requires SnapsOk(w, todo) && Evolves(w, w')
    ensures SnapsOk(w', todo)
  {
    forall i | i in todo ensures SnapOk(w', i, todo[i]) {
      assert SnapOk(w, i, todo[i]);
      assert RowEvolves(w, w', i);
    }
  }

  lemma ScanStable(w: World, w': World, e: Expiry)
    requires ScanOk(w, e) && Evolves(w, w')
    ensures ScanOk(w', e)
  {
    match e
    case Snapshot =>
    case Loop(todo) => SnapsStable(w, w', todo);
    case Mark(row, rest) =>
      SnapsStable(w, w', rest);
      assert RowEvolves(w, w', row.id);
  }

  /** Operations of a job that cannot be running stay clean. */
  lemma CleanStable(w: World, w': World, id: Id)
    requires CleanOps(w, id) && Evolves(w, w')
    requires id in w.db.jobs && w.db.jobs[id].state != Running
    ensures CleanOps(w', id)
  {
  }

  /** A confirmation keeps what it has established while any other step happens. */
  lemma ConfirmStable(w: World, w': World, cf: Confirmation)
    requires ConfirmOk(w, cf) && Evolves(w, w')
    ensures ConfirmOk(w', cf)
  {
    assert RowEvolves(w, w', cf.id);
    CleanStable(w, w', cf.id);
    if cf.stage.ConfirmExpire? {
      ScanStable(w, w', cf.stage.e);
    }
  }

  lemma LiveStable(w: World, w': World)
    requires Env(w, w')
    ensures forall i :: i in w'.db.jobs && Live(w'.db.jobs[i]) ==> i in w.db.jobs && Live(w.db.jobs[i])
  {
    forall i | i in w'.db.jobs && Live(w'.db.jobs[i]) ensures i in w.db.jobs && Live(w.db.jobs[i]) {
      if i in w.db.jobs {
        assert RowEvolves(w, w', i);
      }
    }
  }

  lemma RunStable(w: World, w': World, id: Id, st: State)
    requires RunOk(w, id, st) && Active(st) && Env(w, w')
    ensures RunOk(w', id, st) && RowUndisturbed(w, w', id)
  {
    LiveStable(w, w');
    assert RowUndisturbed(w, w', id);
  }

  lemma PassStable(w: World, w': World, id: Id, pass: Pass)
    requires PassOk(w, id, pass) && w'.db.ops == w.db.ops && w'.hist.dirty <= w.hist.dirty
    ensures PassOk(w', id, pass)
  {
  }

  lemma DesiredStable(w: World, w': World, id: Id, desired: State)
    requires DesiredOk(w, id, desired) && RunOk(w, id, Cleaning) && Env(w, w')
    ensures DesiredOk(w', id, desired)
  {
    assert RowEvolves(w, w', id);
    assert RowUndisturbed(w, w', id);
  }

  lemma AttemptStable(w: World, w': World, pc: Pc)
    requires Attempting(pc) && AttemptInv(w, pc) && Env(w, w')
    ensures AttemptInv(w', pc)
  {
    RunStable(w, w', pc.id, Running);
    if pc.CleanRetry? {
      PassStable(w, w', pc.id, pc.pass);
    }
  }

  lemma PublicationStable(c: Config, w: World, w': World, pc: Pc)
    requires Publication(pc) && PublicationInv(c, w, pc) && Env(w, w')
    ensures PublicationInv(c, w', pc)
  {
    RunStable(w, w', pc.id, if pc.Settle? || pc.ToVerifying? then Running else Verifying);
  }

  lemma FinishingStable(w: World, w': World, pc: Pc)
    requires pc.Finishing? && EndingInv(w, pc) && Env(w, w')
    ensures EndingInv(w', pc)
  {
    RunStable(w, w', pc.id, w.db.jobs[pc.id].state);
    assert RowEvolves(w, w', pc.id);
  }

  lemma CleaningStable(w: World, w': World, pc: Pc)
    requires pc.Sweep? || pc.CleanFinish? || pc.Deciding? || pc.Closing?
    requires EndingInv(w, pc) && Env(w, w')
    ensures EndingInv(w', pc)
  {
    RunStable(w, w', pc.id, Cleaning);
    DesiredStable(w, w', pc.id, pc.desired);
    if pc.CleanFinish? {
      PassStable(w, w', pc.id, pc.pass);
    }
  }

  lemma FinishedStable(w: World, w': World, pc: Pc)
    requires pc.FinishExpire? || pc.Reading? || pc.Releasing?
    requires EndingInv(w, pc) && Env(w, w')
    ensures EndingInv(w', pc)
  {
    LiveStable(w, w');
    if !pc.Releasing? {
      RunStable(w, w', pc.id, Cleaning);
    }
    if pc.FinishExpire? {
      ScanStable(w, w', pc.e);
    }
  }

  lemma SchedulerStable(w: World, w': World, pc: Pc)
    requires pc.Idle? || pc.SchedulerExpire? || pc.Claiming? || pc.Stopped?
    requires SchedulerInv(w, pc) && Env(w, w')
    ensures SchedulerInv(w', pc)
  {
    LiveStable(w, w');
    if pc.SchedulerExpire? {
      ScanStable(w, w', pc.e);
    }
  }

  /** The other threads never invalidate what the scheduler thread has established. */
  lemma PcStable(c: Config, w: World, w': World, pc: Pc)
    requires PcInv(c, w, pc) && Env(w, w') && Serving(pc)
    ensures PcInv(c, w', pc)
  {
    if Attempting(pc) {
      AttemptStable(w, w', pc);
    } else if Publication(pc) {
      PublicationStable(c, w, w', pc);
    } else if pc.Finishing? {
      FinishingStable(w, w', pc);
    } else if pc.FinishExpire? || pc.Reading? || pc.Releasing? {
      FinishedStable(w, w', pc);
    } else if Ending(pc) {
      CleaningStable(w, w', pc);
    } else {
      SchedulerStable(w, w', pc);
    }
  }
}
