/** What is certain at each program point: no transaction the worker makes is ever refused,
    so only the database or the file system itself can fail it. */
module Facts {
  import opened Model
  import opened Transactions
  import opened Protocol
  import opened Invariant
  import opened Safety
  import Admission
  import Engine

  predicate AtStep(s: Sys) {
    var w := s.w;
    match s.pc
    case MakeWorkspace(id) => id !in w.fs.work
    case Calling(id, _) =>
      id in w.db.jobs && w.db.jobs[id].state == Running
      && w.db.device.owner == Some(id) && !w.db.device.quarantined
    case OnDevice(id, _, _) => id in w.fs.work
    case Settle(id, _) => id in w.db.jobs
    case ToVerifying(id, _) => id in w.db.jobs && w.db.jobs[id].state == Running
    case Checking(id, _, content) => id in w.fs.work && w.fs.work[id] == Some(content)
    case Publishing(id, _) => id in w.fs.work && w.fs.work[id].Some?
    case Recording(id, _, _, _, _) => id in w.db.jobs
    case Finishing(id, _, _, _) =>
      id in w.db.jobs && (w.db.jobs[id].state == Running || w.db.jobs[id].state == Verifying)
    case Deciding(id, _, _, _) => id in w.db.jobs
    case Reading(id) => id in w.db.jobs && w.db.jobs[id].pending.Some?
    case Closing(id, desired) => id in w.db.jobs && w.db.jobs[id].state == Cleaning && Terminal(desired)
    case RecoverResolve(id, _) => Resolvable(w.db, id)
    case _ => true
  }

  lemma AttemptAt(w: World, pc: Pc)
    requires Attempting(pc) && AttemptInv(w, pc)
    ensures AtStep(Sys(w, pc, map[], NoUpload))
  {
    hide CleanOps, PassOk;
  }

  lemma PublicationAt(c: Config, w: World, pc: Pc)
    requires Publication(pc) && PublicationInv(c, w, pc)
    ensures AtStep(Sys(w, pc, map[], NoUpload))
  {
    hide CleanOps, Unpublished;
  }

  lemma EndingAt(w: World, pc: Pc)
    requires Ending(pc) && EndingInv(w, pc)
    requires pc.Reading? && pc.id in w.db.jobs ==> RowOk(w.db.jobs[pc.id], pc.id, w.now)
    ensures AtStep(Sys(w, pc, map[], NoUpload))
  {
    hide CleanOps, PassOk, ScanOk;
  }

  lemma RecoveryAt(w: World, pc: Pc)
    requires (pc.Down? || Recovering(pc)) && RecoveryInv(w, pc)
    requires pc.RecoverResolve? && pc.id in w.db.jobs ==> RowOk(w.db.jobs[pc.id], pc.id, w.now)
    ensures AtStep(Sys(w, pc, map[], NoUpload))
  {
    hide Recovered, Exact, LeftOk, ExpiredAtStart, PassOk, CleanOps, RecoveryScanOk, ReconcileOk, MidRecovery;
  }

  lemma NeverRefused(c: Config, acts: seq<Action>)
    ensures AtStep(Exec(c, Init, acts))
  {
    var s := Exec(c, Init, acts);
    Reachable(c, acts);
    hide Exec, FilesOk, DeviceOk, OpsOk, ConfirmOk, RowOk, AtStep;
    hide RecoveryInv, AttemptInv, PublicationInv, EndingInv, SchedulerInv;
    if Attempting(s.pc) {
      AttemptAt(s.w, s.pc);
    } else if Publication(s.pc) {
      PublicationAt(c, s.w, s.pc);
    } else if Ending(s.pc) {
      EndingAt(s.w, s.pc);
    } else if s.pc.Down? || Recovering(s.pc) {
      RecoveryAt(s.w, s.pc);
    }
    SamePlace(s);
  }

  lemma SamePlace(s: Sys)
    ensures AtStep(s) <==> AtStep(Sys(s.w, s.pc, map[], NoUpload))
    ensures s.pc.Idle? || s.pc.SchedulerExpire? || s.pc.Claiming? || s.pc.Stopped? ==> AtStep(s)
  {
  }

  /** Every queued job is available: its time to be claimed has come. */
  lemma AllAvailable(c: Config, acts: seq<Action>)
    ensures var w := Exec(c, Init, acts).w;
      forall i :: i in w.db.jobs ==> w.db.jobs[i].availableAt <= w.now
  {
    Reachable(c, acts);
    hide Exec, FilesOk, DeviceOk, OpsOk, ConfirmOk, PcInv;
    var w := Exec(c, Init, acts).w;
    forall i | i in w.db.jobs ensures w.db.jobs[i].availableAt <= w.now {
      assert RowOk(w.db.jobs[i], i, w.now);
    }
  }

  /** In the back-off the attempt to come is already counted. */
  lemma RetryCounted(c: Config, acts: seq<Action>)
    requires c.Valid() && Exec(c, Init, acts).pc.Backoff?
    ensures var s := Exec(c, Init, acts);
      s.pc.id in s.w.db.jobs && s.w.db.jobs[s.pc.id].attempts == s.pc.attempt + 1
  {
    Admission.CountRun(c, acts);
    hide Exec, Admission.Counted;
  }

  // ---- Review only where there is something to review ----

  predicate HasOps(w: World, id: Id) {
    exists op :: op in w.db.ops && w.db.ops[op] == id
  }

  /** Wherever the worker asks for device review, or may come to, the job has a recorded operation. */
  predicate Backed(s: Sys) {
    match s.pc
    case OnDevice(id, _, op) => op in s.w.db.ops && s.w.db.ops[op] == id
    case Returned(id, _, reply) =>
      Engine.NeedsReview(reply) || (reply.err.Failure? && reply.err.retryable) ==> HasOps(s.w, id)
    case CleanRetry(id, _, _, _) => HasOps(s.w, id)
    case Retrying(id, _, _) => HasOps(s.w, id)
    case Backoff(id, _, _) => HasOps(s.w, id)
    case Settle(id, reply) => Engine.NeedsReview(reply) ==> HasOps(s.w, id)
    case ToVerifying(id, review) => review ==> HasOps(s.w, id)
    case Validating(id, review) => review ==> HasOps(s.w, id)
    case Checking(id, review, _) => review ==> HasOps(s.w, id)
    case Publishing(id, review) => review ==> HasOps(s.w, id)
    case Recording(id, review, _, _, _) => review ==> HasOps(s.w, id)
    case Finishing(id, _, _, review) => review ==> HasOps(s.w, id)
    case Sweep(id, _, review, _, _) => review ==> HasOps(s.w, id)
    case CleanFinish(id, _, _, _) => HasOps(s.w, id)
    case Deciding(id, _, _, review) => review ==> HasOps(s.w, id)
    case _ => true
  }

  lemma OpsKept(w: World, w': World, id: Id)
    requires HasOps(w, id) && forall op :: op in w.db.ops ==> op in w'.db.ops && w'.db.ops[op] == w.db.ops[op]
    ensures HasOps(w', id)
  {
    var op :| op in w.db.ops && w.db.ops[op] == id;
    assert op in w'.db.ops;
  }

  ghost predicate OpsGrow(w: World, w': World) {
    forall op :: op in w.db.ops ==> op in w'.db.ops && w'.db.ops[op] == w.db.ops[op]
  }

  lemma BackedAttempt(c: Config, w: World, pc: Pc, o: Oracle)
    requires Attempting(pc) && Backed(Sys(w, pc, map[], NoUpload)) && OpsGrow(w, AttemptStep(c, w, pc, o).0)
    ensures var (w', pc') := AttemptStep(c, w, pc, o); Backed(Sys(w', pc', map[], NoUpload))
  {
    var w' := AttemptStep(c, w, pc, o).0;
    if HasOps(w, pc.id) {
      OpsKept(w, w', pc.id);
    }
    hide PassNext, HasOps;
    if pc.OnDevice? {
      RecordedHere(w, pc.op, pc.id);
    }
  }

  lemma RecordedHere(w: World, op: OpId, id: Id)
    ensures op in w.db.ops && w.db.ops[op] == id ==> HasOps(w, id)
  {
  }

  lemma BackedPublication(c: Config, w: World, pc: Pc, o: Oracle)
    requires Publication(pc) && Backed(Sys(w, pc, map[], NoUpload)) && OpsGrow(w, PublicationStep(c, w, pc, o).0)
    ensures var (w', pc') := PublicationStep(c, w, pc, o); Backed(Sys(w', pc', map[], NoUpload))
  {
    if HasOps(w, pc.id) {
      OpsKept(w, PublicationStep(c, w, pc, o).0, pc.id);
    }
    hide HasOps, OpsGrow, ChangeTx, RecordTx;
  }

  /** At the end of a job: review is asked for, or carried out. */
  predicate AsksAtEnd(pc: Pc) {
    ((pc.Finishing? || pc.Sweep? || pc.Deciding?) && pc.review) || pc.CleanFinish?
  }

  lemma EndingAsks(w: World, pc: Pc, o: Oracle)
    requires Ending(pc)
    ensures var pc' := EndingStep(w, pc, o).1;
      && (Ending(pc') || pc'.Idle? || pc'.Stopped?)
      && (AsksAtEnd(pc') ==> AsksAtEnd(pc) && pc'.id == pc.id)
  {
    hide PassNext, ExpiryNext, BeginCleanupTx, QuarantineTx, ChangeTx, ReleaseTx;
  }

  lemma EndBacked(w: World, pc: Pc)
    requires Ending(pc) || pc.Idle? || pc.Stopped?
    ensures Backed(Sys(w, pc, map[], NoUpload)) <==> (AsksAtEnd(pc) ==> HasOps(w, pc.id))
  {
    hide HasOps;
  }

  lemma BackedEnding(w: World, pc: Pc, o: Oracle)
    requires Ending(pc) && Backed(Sys(w, pc, map[], NoUpload)) && OpsGrow(w, EndingStep(w, pc, o).0)
    ensures var (w', pc') := EndingStep(w, pc, o); Backed(Sys(w', pc', map[], NoUpload))
  {
    var (w', pc') := EndingStep(w, pc, o);
    EndingAsks(w, pc, o);
    EndBacked(w, pc);
    EndBacked(w', pc');
    hide EndingStep, Backed, HasOps;
    if AsksAtEnd(pc) {
      OpsKept(w, w', pc.id);
    }
  }

  lemma BackedScheduler(w: World, pc: Pc, o: Oracle)
    requires pc.Idle? || pc.SchedulerExpire? || pc.Claiming? || pc.Stopped?
    ensures var (w', pc') := SchedulerStep(w, pc, o); Backed(Sys(w', pc', map[], NoUpload))
  {
    hide ExpiryNext;
  }

  lemma BackedWork(c: Config, s: Sys, o: Oracle)
    requires Backed(s) && OpsGrow(s.w, WorkerStep(c, s.w, s.pc, o).0)
    ensures Backed(Next(c, s, Work(o)))
  {
    hide RecoveryStep, AttemptStep, PublicationStep, EndingStep, SchedulerStep, OpsGrow, HasOps;
    if s.pc.Down? || Recovering(s.pc) {
      RecoveryFlow(s.w, s.pc, o);
    } else if Attempting(s.pc) {
      BackedAttempt(c, s.w, s.pc, o);
    } else if Publication(s.pc) {
      BackedPublication(c, s.w, s.pc, o);
    } else if Ending(s.pc) {
      BackedEnding(s.w, s.pc, o);
    } else {
      BackedScheduler(s.w, s.pc, o);
    }
  }

  lemma BackedOther(s: Sys, m: Sys)
    requires Backed(s) && OpsGrow(s.w, m.w) && (m.pc == s.pc || m.pc.Down?)
    ensures Backed(m)
  {
    forall id | HasOps(s.w, id) ensures HasOps(m.w, id) {
      OpsKept(s.w, m.w, id);
    }
    hide HasOps;
  }

  lemma BackedStep(c: Config, s: Sys, a: Action)
    requires Inv(c, s) && Backed(s)
    ensures Backed(Next(c, s, a))
  {
    hide Inv, Next, Backed;
    StepSafe(c, s, a);
    assert OpsGrow(s.w, Next(c, s, a).w);
    hide Evolves, OpsGrow;
    if a.Work? {
      WorkWorld(c, s, a.o);
      BackedWork(c, s, a.o);
    } else {
      OtherPc(c, s, a);
      BackedOther(s, Next(c, s, a));
    }
  }

  lemma WorkWorld(c: Config, s: Sys, o: Oracle)
    ensures Next(c, s, Work(o)).w == WorkerStep(c, s.w, s.pc, o).0
  {
    hide WorkerStep;
  }

  lemma OtherPc(c: Config, s: Sys, a: Action)
    requires !a.Work?
    ensures Next(c, s, a).pc == s.pc || Next(c, s, a).pc.Down?
  {
    hide ConfirmNext;
  }

  lemma {:induction false} BackedRun(c: Config, acts: seq<Action>)
    ensures Backed(Exec(c, Init, acts))
  {
    if acts != [] {
      hide Inv, Next, Backed;
      BackedRun(c, acts[..|acts| - 1]);
      Reachable(c, acts[..|acts| - 1]);
      BackedStep(c, Exec(c, Init, acts[..|acts| - 1]), acts[|acts| - 1]);
    }
  }
}
