/** The steps that end a job: the cancellation cut-off, the removal of its files,
    device cleanup, and either its terminal state or quarantine. */
module EndingSteps {
  import opened Model
  import opened Transactions
  import opened Protocol
  import opened Invariant
  import opened Stability
  import opened Frames
  import opened Effects
  import opened WorkerSteps

  lemma BeginCleanupEffect(c: Config, w: World, id: Id, desired: State, code: Code, review: bool)
    requires WorldInv(c, w) && EndingInv(w, Finishing(id, desired, code, review))
    ensures BeginCleanupTx(w.db, id, desired, code).Ok?
    ensures var w' := w.(db := BeginCleanupTx(w.db, id, desired, code).value);
      WorldInv(c, w') && Evolves(w, w') && RunOk(w', id, Cleaning)
      && DesiredOk(w', id, Committed(w.db.jobs[id], desired))
  {
    var j := BeginCleanupTx(w.db, id, desired, code).value.jobs[id];
    assert RowOk(w.db.jobs[id], id, w.now) && FileOk(c, w, id) && DeviceOk(w);
    hide WorldInv, RowsOk, FilesOk, OpsOk, DeviceOk, Evolves;
    SameReview(w, id, j);
    OneRow(c, w, id, j, w.db.device);
  }

  lemma QuarantineDevice(w: World, id: Id, reason: Note, desired: State)
    requires RunOk(w, id, Cleaning) && reason != Clear
    ensures DeviceOk(w.(db := QuarantineTx(w.db, id, reason, desired)))
  {
    var w' := w.(db := QuarantineTx(w.db, id, reason, desired));
    assert id in w'.db.jobs && Unresolved(w'.db.jobs[id]);
  }

  lemma QuarantineEffect(c: Config, w: World, id: Id, reason: Note, desired: State)
    requires WorldInv(c, w) && RunOk(w, id, Cleaning) && DesiredOk(w, id, desired) && reason != Clear
    ensures var w' := w.(db := QuarantineTx(w.db, id, reason, desired));
      WorldInv(c, w') && Evolves(w, w') && NoLive(w') && w'.db.device.owner == None
  {
    var db := QuarantineTx(w.db, id, reason, desired);
    assert w.(db := db) == WithRow(w, id, db.jobs[id], db.device);
    assert RowOk(w.db.jobs[id], id, w.now) && FileOk(c, w, id);
    QuarantineDevice(w, id, reason, desired);
    OneRow(c, w, id, db.jobs[id], db.device);
  }

  lemma NoneLive(w: World, id: Id, j: Job)
    requires RunOk(w, id, Cleaning) && Terminal(j.state)
    ensures NoLive(WithRow(w, id, j, w.db.device))
  {
  }

  lemma CloseEffect(c: Config, w: World, id: Id, desired: State)
    requires WorldInv(c, w) && EndingInv(w, Closing(id, desired))
    ensures ChangeTx(w.db, id, desired).Ok?
    ensures var w' := w.(db := ChangeTx(w.db, id, desired).value);
      WorldInv(c, w') && Evolves(w, w') && NoLive(w') && w'.db.device.owner == Some(id)
  {
    var j := w.db.jobs[id].(state := desired);
    assert RowOk(w.db.jobs[id], id, w.now) && FileOk(c, w, id) && DeviceOk(w);
    assert w.(db := ChangeTx(w.db, id, desired).value) == WithRow(w, id, j, w.db.device);
    NoneLive(w, id, j);
    hide WorldInv, RowsOk, FilesOk, OpsOk, DeviceOk, Evolves, RunOk, NoLive, ChangeTx;
    SameReview(w, id, j);
    OneRow(c, w, id, j, w.db.device);
  }

  lemma ReleaseEffect(c: Config, w: World, id: Id)
    requires WorldInv(c, w)
    ensures var w' := w.(db := ReleaseTx(w.db, id)); WorldInv(c, w') && Evolves(w, w')
  {
    var w' := w.(db := ReleaseTx(w.db, id));
    forall i | i in w'.db.jobs ensures RowOk(w'.db.jobs[i], i, w'.now) && RowEvolves(w, w', i) {
      RowReflexive(w, w', i);
    }
    forall i ensures FileOk(c, w', i) {
      FileFrame(c, w, w', i);
    }
    assert DeviceOk(w') && OpsOk(w');
    assert RowsEvolve(w, w') && FilesEvolve(w, w') && OpsEvolve(w, w');
  }

  lemma FinishingSteps(c: Config, w: World, id: Id, desired: State, code: Code, review: bool, o: Oracle)
    requires WorldInv(c, w) && EndingInv(w, Finishing(id, desired, code, review))
    ensures var (w', pc') := EndingStep(w, Finishing(id, desired, code, review), o); Legal(c, w, w', pc')
  {
    hide WorldInv, Evolves, Legal;
    BeginCleanupEffect(c, w, id, desired, code, review);
    if o.ok {
      var w' := w.(db := BeginCleanupTx(w.db, id, desired, code).value);
      ToEnding(c, w, w', Sweep(id, Committed(w.db.jobs[id], desired), review, SweepWork, false));
    } else {
      TickEnv(w, 0);
      ToEnding(c, w, w, Releasing(id, true));
    }
  }

  /** File removals leave the database and the job's claims on it alone. */
  lemma SweepKeeps(w: World, w': World, id: Id, desired: State)
    requires RunOk(w, id, Cleaning) && DesiredOk(w, id, desired) && w' == w.(fs := w'.fs)
    ensures RunOk(w', id, Cleaning) && DesiredOk(w', id, desired)
    ensures CleanOps(w, id) ==> CleanOps(w', id)
  {
  }

  lemma AfterSweepLegal(c: Config, w: World, w': World, id: Id, desired: State, review: bool, bad: bool)
    requires WorldInv(c, w') && Evolves(w, w') && RunOk(w', id, Cleaning) && DesiredOk(w', id, desired)
    requires (!bad ==> Swept(w', id)) && (review || CleanOps(w', id))
    ensures Legal(c, w, w', AfterSweep(id, desired, review, bad))
  {
    hide WorldInv, Evolves, Legal;
    ToEnding(c, w, w', AfterSweep(id, desired, review, bad));
  }

  lemma SweepFiles(c: Config, w: World, id: Id, desired: State, review: bool, stage: Stage, bad: bool, o: Oracle)
    requires WorldInv(c, w) && EndingInv(w, Sweep(id, desired, review, stage, bad))
    requires stage == SweepWork || stage == SweepInput
    ensures var (w', pc') := EndingStep(w, Sweep(id, desired, review, stage, bad), o); Legal(c, w, w', pc')
  {
    hide WorldInv, Evolves, Legal;
    var w' := EndingStep(w, Sweep(id, desired, review, stage, bad), o).0;
    SweepKeeps(w, w', id, desired);
    if stage == SweepWork {
      RemoveWorkEffect(c, w, id);
      SpoilWorkEffect(c, w, id, o.alt);
      ToEnding(c, w, w', Sweep(id, desired, review, SweepInput, bad || !o.ok));
    } else {
      TickEnv(w, 0);
      RemoveInputEffect(c, w, id);
      ToEnding(c, w, w', Sweep(id, desired, review, SweepTemp, bad || !o.ok));
    }
  }

  lemma SweepArtifactEffect(c: Config, w: World, id: Id, desired: State)
    requires WorldInv(c, w) && RunOk(w, id, Cleaning) && DesiredOk(w, id, desired) && desired != Completed
    ensures WorldInv(c, RemoveArtifact(w, id)) && Evolves(w, RemoveArtifact(w, id))
  {
    RemoveArtifactEffect(c, w, id);
  }

  lemma SweepRest(c: Config, w: World, id: Id, desired: State, review: bool, stage: Stage, bad: bool, o: Oracle)
    requires WorldInv(c, w) && EndingInv(w, Sweep(id, desired, review, stage, bad))
    requires stage == SweepTemp || stage == SweepArtifact
    ensures var (w', pc') := EndingStep(w, Sweep(id, desired, review, stage, bad), o); Legal(c, w, w', pc')
  {
    hide WorldInv, Evolves, Legal;
    TickEnv(w, 0);
    if stage == SweepTemp && desired != Completed {
      ToEnding(c, w, w, Sweep(id, desired, review, SweepArtifact, bad || !o.ok));
    } else if stage == SweepTemp {
      AfterSweepLegal(c, w, w, id, desired, review, bad || !o.ok);
    } else {
      SweepArtifactEffect(c, w, id, desired);
      var w' := if o.ok then RemoveArtifact(w, id) else w;
      SweepKeeps(w, w', id, desired);
      AfterSweepLegal(c, w, w', id, desired, review, bad || !o.ok);
    }
  }

  lemma CleanFinishSteps(c: Config, w: World, id: Id, desired: State, bad: bool, pass: Pass, o: Oracle)
    requires WorldInv(c, w) && EndingInv(w, CleanFinish(id, desired, bad, pass))
    ensures var (w', pc') := EndingStep(w, CleanFinish(id, desired, bad, pass), o); Legal(c, w, w', pc')
  {
    hide WorldInv, Evolves, Legal, PassNext;
    PassEffect(c, w, id, pass, o);
    var m := PassNext(w, id, pass, o).w;
    RunStable(w, m, id, Cleaning);
    DesiredStable(w, m, id, desired);
    match PassNext(w, id, pass, o)
    case PassMore(w', pass') => ToEnding(c, w, w', CleanFinish(id, desired, bad, pass'));
    case PassDone(w', confirmed) => ToEnding(c, w, w', Deciding(id, desired, bad, !confirmed));
  }

  lemma DecidingSteps(c: Config, w: World, id: Id, desired: State, bad: bool, review: bool, o: Oracle)
    requires WorldInv(c, w) && EndingInv(w, Deciding(id, desired, bad, review))
    ensures var (w', pc') := EndingStep(w, Deciding(id, desired, bad, review), o); Legal(c, w, w', pc')
  {
    hide WorldInv, Evolves, Legal;
    if (bad || review) && o.ok {
      var reason := if bad then ServerCleanupFailed else DeviceUnconfirmed;
      QuarantineEffect(c, w, id, reason, desired);
      ToEnding(c, w, w.(db := QuarantineTx(w.db, id, reason, desired)), Releasing(id, false));
    } else {
      TickEnv(w, 0);
      ToEnding(c, w, w, if bad || review then Releasing(id, true) else FinishExpire(id, Snapshot));
    }
  }

  lemma FinishExpireSteps(c: Config, w: World, id: Id, e: Expiry, o: Oracle)
    requires WorldInv(c, w) && EndingInv(w, FinishExpire(id, e))
    ensures var (w', pc') := EndingStep(w, FinishExpire(id, e), o); Legal(c, w, w', pc')
  {
    hide WorldInv, Evolves, Legal, ExpiryNext;
    ExpiryEffect(c, w, e, o);
    RunStable(w, ExpiryNext(w, e, o).w, id, Cleaning);
    match ExpiryNext(w, e, o)
    case ExpiryMore(w', e') => ToEnding(c, w, w', FinishExpire(id, e'));
    case ExpiryDone(w') => ToEnding(c, w, w', Reading(id));
    case ExpiryFailed(w') => ToEnding(c, w, w', Releasing(id, true));
  }

  /** The outcome a job in cleanup is committed to. */
  lemma CleaningRow(c: Config, w: World, id: Id)
    requires WorldInv(c, w) && id in w.db.jobs && w.db.jobs[id].state == Cleaning
    ensures w.db.jobs[id].pending.Some? && DesiredOk(w, id, w.db.jobs[id].pending.value)
  {
    hide FilesOk, DeviceOk, OpsOk;
    assert RowOk(w.db.jobs[id], id, w.now);
  }

  lemma ReadingRow(w: World, id: Id)
    requires EndingInv(w, Reading(id))
    ensures id in w.db.jobs && w.db.jobs[id].state == Cleaning
  {
  }

  lemma ReadingNext(w: World, id: Id, o: Oracle)
    requires EndingInv(w, Reading(id)) && id in w.db.jobs
    requires w.db.jobs[id].pending.Some? ==> DesiredOk(w, id, w.db.jobs[id].pending.value)
    ensures var (w', pc') := EndingStep(w, Reading(id), o); w' == w && Ending(pc') && EndingInv(w, pc')
  {
    hide RunOk, DesiredOk, CleanOps;
  }

  lemma ReadingSteps(c: Config, w: World, id: Id, o: Oracle)
    requires WorldInv(c, w) && EndingInv(w, Reading(id))
    ensures var (w', pc') := EndingStep(w, Reading(id), o); Legal(c, w, w', pc')
  {
    hide WorldInv, Evolves, Legal, EndingInv, EndingStep;
    ReadingRow(w, id);
    CleaningRow(c, w, id);
    ReadingNext(w, id, o);
    TickEnv(w, 0);
    ToEnding(c, w, w, EndingStep(w, Reading(id), o).1);
  }

  lemma ClosingSteps(c: Config, w: World, id: Id, desired: State, o: Oracle)
    requires WorldInv(c, w) && EndingInv(w, Closing(id, desired))
    ensures var (w', pc') := EndingStep(w, Closing(id, desired), o); Legal(c, w, w', pc')
  {
    hide WorldInv, Evolves, Legal;
    CloseEffect(c, w, id, desired);
    if o.ok {
      ToEnding(c, w, w.(db := ChangeTx(w.db, id, desired).value), Releasing(id, false));
    } else {
      TickEnv(w, 0);
      ToEnding(c, w, w, Releasing(id, true));
    }
  }

  lemma ReleasingSteps(c: Config, w: World, id: Id, failed: bool, o: Oracle)
    requires WorldInv(c, w) && EndingInv(w, Releasing(id, failed))
    ensures var (w', pc') := EndingStep(w, Releasing(id, failed), o); Legal(c, w, w', pc')
  {
    hide WorldInv, Evolves, Legal;
    if o.ok {
      ReleaseEffect(c, w, id);
      ToScheduler(c, w, w.(db := ReleaseTx(w.db, id)), if failed then Stopped else Idle);
    } else {
      TickEnv(w, 0);
      ToScheduler(c, w, w, Stopped);
    }
  }

  lemma EndingSteps(c: Config, w: World, pc: Pc, o: Oracle)
    requires Ending(pc) && WorldInv(c, w) && EndingInv(w, pc)
    ensures var (w', pc') := EndingStep(w, pc, o); Legal(c, w, w', pc')
  {
    hide WorldInv, EndingInv, Legal, EndingStep;
    match pc
    case Finishing(id, desired, code, review) => FinishingSteps(c, w, id, desired, code, review, o);
    case Sweep(id, desired, review, stage, bad) =>
      if stage == SweepWork || stage == SweepInput {
        SweepFiles(c, w, id, desired, review, stage, bad, o);
      } else {
        SweepRest(c, w, id, desired, review, stage, bad, o);
      }
    case CleanFinish(id, desired, bad, pass) => CleanFinishSteps(c, w, id, desired, bad, pass, o);
    case Deciding(id, desired, bad, review) => DecidingSteps(c, w, id, desired, bad, review, o);
    case FinishExpire(id, e) => FinishExpireSteps(c, w, id, e, o);
    case Reading(id) => ReadingSteps(c, w, id, o);
    case Closing(id, desired) => ClosingSteps(c, w, id, desired, o);
    case Releasing(id, failed) => ReleasingSteps(c, w, id, failed, o);
  }
}
