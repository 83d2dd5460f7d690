/** The steps of the scheduler thread while it serves: admission, the attempts of a
    job, verification and publication, and the end of the job. */
module WorkerSteps {
  import opened Model
  import opened Transactions
  import opened Protocol
  import opened Invariant
  import opened Stability
  import opened Frames
  import opened Effects
  import Engine

  /** The obligations of one step of the scheduler thread. */
  ghost predicate Legal(c: Config, w: World, w': World, pc': Pc) {
    WorldInv(c, w') && Evolves(w, w') && PcInv(c, w', pc')
  }

  predicate AtScheduler(pc: Pc) {
    pc.Idle? || pc.SchedulerExpire? || pc.Claiming? || pc.Stopped?
  }

  lemma ToScheduler(c: Config, w: World, w': World, pc': Pc)
    requires WorldInv(c, w') && Evolves(w, w') && AtScheduler(pc') && SchedulerInv(w', pc')
    ensures Legal(c, w, w', pc')
  {
    hide WorldInv, Evolves, RecoveryInv, AttemptInv, PublicationInv, EndingInv, SchedulerInv;
  }

  lemma ToAttempt(c: Config, w: World, w': World, pc': Pc)
    requires WorldInv(c, w') && Evolves(w, w') && Attempting(pc') && AttemptInv(w', pc')
    ensures Legal(c, w, w', pc')
  {
    hide WorldInv, Evolves, RecoveryInv, AttemptInv, PublicationInv, EndingInv, SchedulerInv;
  }

  lemma ToPublication(c: Config, w: World, w': World, pc': Pc)
    requires WorldInv(c, w') && Evolves(w, w') && Publication(pc') && PublicationInv(c, w', pc')
    ensures Legal(c, w, w', pc')
  {
    hide WorldInv, Evolves, RecoveryInv, AttemptInv, PublicationInv, EndingInv, SchedulerInv;
  }

  lemma ToEnding(c: Config, w: World, w': World, pc': Pc)
    requires WorldInv(c, w') && Evolves(w, w') && Ending(pc') && EndingInv(w', pc')
    ensures Legal(c, w, w', pc')
  {
    hide WorldInv, Evolves, RecoveryInv, AttemptInv, PublicationInv, EndingInv, SchedulerInv;
  }

  // ---- Admission ----

  /** With no job needing the lease and no review open, nothing is outstanding. */
  lemma NothingOutstanding(c: Config, w: World)
    requires WorldInv(c, w) && NoLive(w) && !w.db.device.quarantined
    ensures w.hist.dirty == {}
    ensures forall i :: i in w.db.jobs ==> !Active(w.db.jobs[i].state)
  {
    forall i | i in w.db.jobs ensures !Active(w.db.jobs[i].state) {
      assert !Live(w.db.jobs[i]) && !Unresolved(w.db.jobs[i]);
    }
    forall op ensures op !in w.hist.dirty {
    }
  }

  lemma ClaimDevice(w: World, id: Id)
    requires DeviceOk(w) && LeaseFree(w.db) && id in w.db.jobs && w.db.jobs[id].state == Queued
    ensures DeviceOk(w.(db := ClaimTx(w.db, id)))
  {
    var w' := w.(db := ClaimTx(w.db, id));
    forall i | i in w'.db.jobs ensures !Unresolved(w'.db.jobs[i]) {
      assert i != id ==> !Unresolved(w.db.jobs[i]);
    }
  }

  lemma ClaimEffect(c: Config, w: World, id: Id)
    requires WorldInv(c, w) && NoLive(w) && LeaseFree(w.db) && IsFirst(w.db, w.now, id)
    ensures var w' := w.(db := ClaimTx(w.db, id));
      && WorldInv(c, w') && Evolves(w, w')
      && RunOk(w', id, Running) && w'.hist.dirty == {} && id !in w'.fs.work
  {
    var w' := w.(db := ClaimTx(w.db, id));
    var j := w'.db.jobs[id];
    NothingOutstanding(c, w);
    assert RowOk(w.db.jobs[id], id, w.now) && FileOk(c, w, id);
    assert w' == WithRow(w, id, j, w'.db.device);
    ClaimDevice(w, id);
    OneRow(c, w, id, j, w'.db.device);
  }

  lemma ClaimSteps(c: Config, w: World, o: Oracle)
    requires WorldInv(c, w) && SchedulerInv(w, Claiming)
    ensures var (w', pc') := SchedulerStep(w, Claiming, o); Legal(c, w, w', pc')
  {
    hide WorldInv, Evolves, Legal;
    TickEnv(w, 0);
    if !o.ok {
      ToScheduler(c, w, w, Stopped);
    } else if !LeaseFree(w.db) || (forall i :: !Claimable(w.db, w.now, i)) {
      ToScheduler(c, w, w, Idle);
    } else if !IsFirst(w.db, w.now, o.id) {
      ToScheduler(c, w, w, Claiming);
    } else {
      assert Claimable(w.db, w.now, o.id);
      ClaimEffect(c, w, o.id);
      var w' := w.(db := ClaimTx(w.db, o.id));
      if w.db.jobs[o.id].cancelRequested {
        ToEnding(c, w, w', Finishing(o.id, Cancelled, NoCode, false));
      } else {
        ToAttempt(c, w, w', MakeWorkspace(o.id));
      }
    }
  }

  lemma SchedulerExpireSteps(c: Config, w: World, e: Expiry, o: Oracle)
    requires WorldInv(c, w) && SchedulerInv(w, SchedulerExpire(e))
    ensures var (w', pc') := SchedulerStep(w, SchedulerExpire(e), o); Legal(c, w, w', pc')
  {
    hide WorldInv, Evolves, Legal, ExpiryNext;
    ExpiryEffect(c, w, e, o);
    LiveStable(w, ExpiryNext(w, e, o).w);
    match ExpiryNext(w, e, o)
    case ExpiryMore(w', e') => ToScheduler(c, w, w', SchedulerExpire(e'));
    case ExpiryDone(w') => ToScheduler(c, w, w', Claiming);
    case ExpiryFailed(w') => ToScheduler(c, w, w', Stopped);
  }

  lemma SchedulerSteps(c: Config, w: World, pc: Pc, o: Oracle)
    requires AtScheduler(pc) && WorldInv(c, w) && SchedulerInv(w, pc)
    ensures var (w', pc') := SchedulerStep(w, pc, o); Legal(c, w, w', pc')
  {
    hide WorldInv, Evolves, Legal;
    TickEnv(w, 0);
    if pc.SchedulerExpire? {
      SchedulerExpireSteps(c, w, pc.e, o);
    } else if pc.Claiming? {
      ClaimSteps(c, w, o);
    } else {
      ToScheduler(c, w, w, SchedulerStep(w, pc, o).1);
    }
  }

  // ---- Attempts ----

  lemma MakeWorkspaceEffect(c: Config, w: World, id: Id)
    requires WorldInv(c, w) && RunOk(w, id, Running) && id !in w.fs.work
    ensures var w' := w.(fs := w.fs.(work := w.fs.work[id := None])); WorldInv(c, w') && Evolves(w, w')
  {
    assert FileOk(c, w, id);
    OneFile(c, w, w.(fs := w.fs.(work := w.fs.work[id := None])), id);
  }

  lemma OutputEffect(c: Config, w: World, id: Id, content: Option<Bytes>)
    requires WorldInv(c, w) && id in w.fs.work
    ensures var w' := w.(fs := w.fs.(work := w.fs.work[id := content])); WorldInv(c, w') && Evolves(w, w')
  {
    assert FileOk(c, w, id);
    OneFile(c, w, w.(fs := w.fs.(work := w.fs.work[id := content])), id);
  }

  lemma BookkeepingEffect(c: Config, w: World, calls: map<Id, nat>, waited: map<Id, nat>)
    requires WorldInv(c, w)
    ensures var w' := w.(hist := w.hist.(calls := calls, waited := waited)); WorldInv(c, w') && Evolves(w, w')
  {
    OnlyHistory(c, w, w.hist.(calls := calls, waited := waited));
  }

  /** With the job's own operations clean, the whole device is. */
  lemma OwnerClean(c: Config, w: World, id: Id, st: State)
    requires WorldInv(c, w) && RunOk(w, id, st) && CleanOps(w, id)
    ensures w.hist.dirty == {}
  {
    forall op ensures op !in w.hist.dirty {
    }
  }

  /** The world after the engine was called and its operation recorded. */
  function Started(w: World, id: Id, op: OpId): World {
    var w' := Called(w, id);
    w'.(db := w.db.(ops := w.db.ops[op := id]), hist := w'.hist.(dirty := w'.hist.dirty + {op}))
  }

  lemma StartedEvolves(w: World, id: Id, op: OpId)
    requires RunOk(w, id, Running) && op !in w.db.ops && w.hist.dirty == {}
    ensures Evolves(w, Started(w, id, op))
  {
    var w' := Started(w, id, op);
    forall i | i in w.db.jobs ensures RowEvolves(w, w', i) {
      RowReflexive(w, w', i);
    }
    assert RowsEvolve(w, w') && FilesEvolve(w, w') && OpsEvolve(w, w');
  }

  lemma StartedEffect(c: Config, w: World, id: Id, op: OpId)
    requires WorldInv(c, w) && RunOk(w, id, Running) && CleanOps(w, id) && op !in w.db.ops
    ensures WorldInv(c, Started(w, id, op)) && Evolves(w, Started(w, id, op)) && w.hist.dirty == {}
  {
    var w' := Started(w, id, op);
    OwnerClean(c, w, id, Running);
    StartedEvolves(w, id, op);
    forall i ensures FileOk(c, w', i) {
      FileFrame(c, w, w', i);
    }
    assert OpsOk(w');
  }

  /** A write that keeps the job running where it was keeps its hold on the lease. */
  lemma RunRow(w: World, id: Id, j: Job, st: State)
    requires RunOk(w, id, st) && j.state == st && j.cleanupError == Clear
    ensures RunOk(WithRow(w, id, j, w.db.device), id, st)
  {
  }

  lemma RetryEffect(c: Config, w: World, id: Id)
    requires WorldInv(c, w) && RunOk(w, id, Running)
    ensures var w' := w.(db := RetryTx(w.db, id));
      WorldInv(c, w') && Evolves(w, w') && RunOk(w', id, Running)
  {
    var j := w.db.jobs[id].(attempts := w.db.jobs[id].attempts + 1);
    assert RowOk(w.db.jobs[id], id, w.now) && FileOk(c, w, id) && DeviceOk(w);
    assert w.(db := RetryTx(w.db, id)) == WithRow(w, id, j, w.db.device);
    RunRow(w, id, j, Running);
    hide WorldInv, RowsOk, FilesOk, OpsOk, DeviceOk, Evolves, RunOk, RetryTx;
    SameReview(w, id, j);
    OneRow(c, w, id, j, w.db.device);
  }

  lemma MakeWorkspaceSteps(c: Config, w: World, id: Id, o: Oracle)
    requires WorldInv(c, w) && AttemptInv(w, MakeWorkspace(id))
    ensures var (w', pc') := AttemptStep(c, w, MakeWorkspace(id), o); Legal(c, w, w', pc')
  {
    hide WorldInv, Evolves, Legal;
    TickEnv(w, 0);
    if o.ok {
      MakeWorkspaceEffect(c, w, id);
      ToAttempt(c, w, w.(fs := w.fs.(work := w.fs.work[id := None])), Calling(id, 1));
    } else {
      ToEnding(c, w, w, Releasing(id, true));
    }
  }

  lemma CallSteps(c: Config, w: World, id: Id, k: nat, o: Oracle)
    requires WorldInv(c, w) && AttemptInv(w, Calling(id, k))
    ensures var (w', pc') := AttemptStep(c, w, Calling(id, k), o); Legal(c, w, w', pc')
  {
    hide WorldInv, Evolves, Legal;
    if !o.alt && o.ok && StartOperationTx(w.db, id, o.op).Ok? {
      StartedEffect(c, w, id, o.op);
      assert AttemptStep(c, w, Calling(id, k), o) == (Started(w, id, o.op), OnDevice(id, k, o.op));
      ToAttempt(c, w, Started(w, id, o.op), OnDevice(id, k, o.op));
    } else {
      var pc' := AttemptStep(c, w, Calling(id, k), o).1;
      BookkeepingEffect(c, w, w.hist.calls[id := Count(w.hist.calls, id) + 1], w.hist.waited);
      ToAttempt(c, w, Called(w, id), pc');
    }
  }

  lemma OnDeviceSteps(c: Config, w: World, id: Id, k: nat, op: OpId, o: Oracle)
    requires WorldInv(c, w) && AttemptInv(w, OnDevice(id, k, op))
    ensures var (w', pc') := AttemptStep(c, w, OnDevice(id, k, op), o); Legal(c, w, w', pc')
  {
    hide WorldInv, Evolves, Legal;
    if o.alt {
      OutputEffect(c, w, id, Some(o.bytes));
      ToAttempt(c, w, w.(fs := w.fs.(work := w.fs.work[id := Some(o.bytes)])), OnDevice(id, k, op));
    } else {
      TickEnv(w, 0);
      Engine.ClassifiedCalls(o.call, o.late);
      ToAttempt(c, w, w, Returned(id, k, Engine.Classify(o.call, o.late)));
    }
  }

  lemma ReturnedSteps(c: Config, w: World, id: Id, k: nat, reply: Engine.Reply, o: Oracle)
    requires WorldInv(c, w) && AttemptInv(w, Returned(id, k, reply))
    ensures var (w', pc') := AttemptStep(c, w, Returned(id, k, reply), o); Legal(c, w, w', pc')
  {
    hide WorldInv, Evolves, Legal;
    TickEnv(w, 0);
    if !(reply.err.Failure? && reply.err.retryable) || k >= c.maxAttempts || o.late {
      ToPublication(c, w, w, Settle(id, reply));
    } else if reply.review || reply.err.review {
      ToAttempt(c, w, w, CleanRetry(id, k, reply, Listing));
    } else {
      ToAttempt(c, w, w, Retrying(id, k, reply));
    }
  }

  lemma CleanRetrySteps(c: Config, w: World, id: Id, k: nat, reply: Engine.Reply, pass: Pass, o: Oracle)
    requires WorldInv(c, w) && AttemptInv(w, CleanRetry(id, k, reply, pass))
    ensures var (w', pc') := AttemptStep(c, w, CleanRetry(id, k, reply, pass), o); Legal(c, w, w', pc')
  {
    hide WorldInv, Evolves, Legal, PassNext;
    PassEffect(c, w, id, pass, o);
    RunStable(w, PassNext(w, id, pass, o).w, id, Running);
    match PassNext(w, id, pass, o)
    case PassMore(w', pass') => ToAttempt(c, w, w', CleanRetry(id, k, reply, pass'));
    case PassDone(w', confirmed) =>
      if confirmed {
        ToAttempt(c, w, w', Retrying(id, k, reply));
      } else {
        ToPublication(c, w, w', Settle(id, reply));
      }
  }

  /** The world after a retry and its wait were recorded. */
  function Retried(c: Config, w: World, id: Id, k: nat): World
    requires k >= 1
  {
    w.(db := RetryTx(w.db, id),
       hist := w.hist.(waited := w.hist.waited[id :=
         Count(w.hist.waited, id) + c.Delay() * Pow2(k - 1)]))
  }

  lemma RetriedEffect(c: Config, w: World, id: Id, k: nat)
    requires WorldInv(c, w) && RunOk(w, id, Running) && k >= 1
    ensures WorldInv(c, Retried(c, w, id, k)) && Evolves(w, Retried(c, w, id, k))
    ensures RunOk(Retried(c, w, id, k), id, Running)
  {
    hide WorldInv, Evolves;
    var m := w.(db := RetryTx(w.db, id));
    RetryEffect(c, w, id);
    HistoryEvolves(w, m, Retried(c, w, id, k).hist);
    OnlyHistory(c, m, Retried(c, w, id, k).hist);
    assert m.(hist := Retried(c, w, id, k).hist) == Retried(c, w, id, k);
  }

  lemma HistoryEvolves(w: World, m: World, hist: History)
    requires Evolves(w, m) && hist.dirty == m.hist.dirty && hist.passed == m.hist.passed
    ensures Evolves(w, m.(hist := hist))
  {
    var w' := m.(hist := hist);
    forall i | i in w.db.jobs ensures RowEvolves(w, w', i) {
      assert RowEvolves(w, m, i);
    }
  }

  lemma RetrySteps(c: Config, w: World, id: Id, k: nat, reply: Engine.Reply, o: Oracle)
    requires WorldInv(c, w) && AttemptInv(w, Retrying(id, k, reply))
    ensures var (w', pc') := AttemptStep(c, w, Retrying(id, k, reply), o); Legal(c, w, w', pc')
  {
    hide WorldInv, Evolves, Legal;
    if o.ok {
      RetriedEffect(c, w, id, k);
      assert AttemptStep(c, w, Retrying(id, k, reply), o).0 == Retried(c, w, id, k);
      ToAttempt(c, w, Retried(c, w, id, k), Backoff(id, k, reply));
    } else {
      TickEnv(w, 0);
      ToPublication(c, w, w, Settle(id, reply.(err := Engine.OtherError)));
    }
  }

  lemma BackoffSteps(c: Config, w: World, id: Id, k: nat, reply: Engine.Reply, o: Oracle)
    requires WorldInv(c, w) && AttemptInv(w, Backoff(id, k, reply))
    ensures var (w', pc') := AttemptStep(c, w, Backoff(id, k, reply), o); Legal(c, w, w', pc')
  {
    hide WorldInv, Evolves, Legal;
    TickEnv(w, 0);
    if o.late {
      ToPublication(c, w, w, Settle(id, if o.alt then reply else reply.(err := Engine.OtherError)));
    } else {
      ToAttempt(c, w, w, Calling(id, k + 1));
    }
  }

  lemma AttemptSteps(c: Config, w: World, pc: Pc, o: Oracle)
    requires Attempting(pc) && WorldInv(c, w) && AttemptInv(w, pc)
    ensures var (w', pc') := AttemptStep(c, w, pc, o); Legal(c, w, w', pc')
  {
    hide WorldInv, AttemptInv, Legal, AttemptStep;
    match pc
    case MakeWorkspace(id) => MakeWorkspaceSteps(c, w, id, o);
    case Calling(id, k) => CallSteps(c, w, id, k, o);
    case OnDevice(id, k, op) => OnDeviceSteps(c, w, id, k, op, o);
    case Returned(id, k, reply) => ReturnedSteps(c, w, id, k, reply, o);
    case CleanRetry(id, k, reply, pass) => CleanRetrySteps(c, w, id, k, reply, pass, o);
    case Retrying(id, k, reply) => RetrySteps(c, w, id, k, reply, o);
    case Backoff(id, k, reply) => BackoffSteps(c, w, id, k, reply, o);
  }
}
