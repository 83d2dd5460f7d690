/** Every step of the system keeps the invariant and is a legal step. */
module Safety {
  import opened Model
  import opened Transactions
  import opened Protocol
  import opened Invariant
  import opened Stability
  import opened Frames
  import opened Effects
  import opened WorkerSteps
  import PublicationSteps
  import EndingSteps
  import RecoverySteps

  // ---- The scheduler thread ----

  lemma WorkerLegal(c: Config, w: World, pc: Pc, o: Oracle)
    requires WorldInv(c, w) && PcInv(c, w, pc)
    ensures var (w', pc') := WorkerStep(c, w, pc, o); Legal(c, w, w', pc')
  {
    hide WorldInv, Legal, RecoveryInv, AttemptInv, PublicationInv, EndingInv, SchedulerInv;
    hide RecoveryStep, AttemptStep, PublicationStep, EndingStep, SchedulerStep;
    if pc.Down? || Recovering(pc) {
      RecoverySteps.RecoverySteps(c, w, pc, o);
    } else if Attempting(pc) {
      AttemptSteps(c, w, pc, o);
    } else if Publication(pc) {
      PublicationSteps.PublicationSteps(c, w, pc, o);
    } else if Ending(pc) {
      EndingSteps.EndingSteps(c, w, pc, o);
    } else {
      SchedulerSteps(c, w, pc, o);
    }
  }

  /** No job appears, and no input that belongs to no job disappears. */
  ghost predicate Contained(w: World, w': World) {
    w'.db.jobs.Keys == w.db.jobs.Keys
    && forall i :: i in w.fs.inputs && i !in w.db.jobs ==> i in w'.fs.inputs
  }

  lemma ExpiryContained(w: World, e: Expiry, o: Oracle)
    ensures Contained(w, ExpiryNext(w, e, o).w)
  {
  }

  lemma PassContained(w: World, id: Id, pass: Pass, o: Oracle)
    ensures Contained(w, PassNext(w, id, pass, o).w)
  {
  }

  lemma EndingContained(c: Config, w: World, pc: Pc, o: Oracle)
    requires Ending(pc) && EndingInv(w, pc)
    ensures Contained(w, EndingStep(w, pc, o).0)
  {
    if pc.FinishExpire? {
      ExpiryContained(w, pc.e, o);
    } else if pc.CleanFinish? {
      PassContained(w, pc.id, pc.pass, o);
    }
  }

  lemma AttemptContained(c: Config, w: World, pc: Pc, o: Oracle)
    requires Attempting(pc)
    ensures Contained(w, AttemptStep(c, w, pc, o).0)
  {
    if pc.CleanRetry? {
      PassContained(w, pc.id, pc.pass, o);
    }
  }

  lemma WorkerContained(c: Config, w: World, pc: Pc, o: Oracle)
    requires PcInv(c, w, pc) && Serving(pc)
    ensures Contained(w, WorkerStep(c, w, pc, o).0)
  {
    hide AttemptInv, PublicationInv, EndingInv, SchedulerInv;
    if Attempting(pc) {
      hide AttemptStep;
      AttemptContained(c, w, pc, o);
    } else if Ending(pc) {
      hide EndingStep;
      EndingContained(c, w, pc, o);
    } else if pc.SchedulerExpire? {
      ExpiryContained(w, pc.e, o);
    } else {
    }
  }

  lemma ConfirmContained(w: World, cf: Confirmation, o: Oracle)
    requires ConfirmOk(w, cf)
    ensures Contained(w, ConfirmNext(w, cf, o).w)
  {
    if cf.stage.ConfirmExpire? {
      ExpiryContained(w, cf.stage.e, o);
    }
  }

  // ---- The system ----

  ghost predicate StepOk(c: Config, s: Sys, s': Sys) {
    Inv(c, s') && Evolves(s.w, s'.w)
  }

  /** A step that another thread makes, as the remaining threads see it. */
  lemma Others(c: Config, s: Sys, w': World, upload: Incoming)
    requires Inv(c, s) && WorldInv(c, w') && Env(s.w, w') && Serving(s.pc) && UploadOk(w', upload)
    ensures StepOk(c, s, s.(w := w', upload := upload))
  {
    hide WorldInv, ConfirmOk, UploadOk;
    hide Evolves, RecoveryInv, AttemptInv, PublicationInv, EndingInv, SchedulerInv;
    PcStable(c, s.w, w', s.pc);
    forall k | k in s.confirms ensures ConfirmOk(w', s.confirms[k]) {
      ConfirmStable(s.w, w', s.confirms[k]);
    }
  }

  lemma WorkerAction(c: Config, s: Sys, o: Oracle)
    requires Inv(c, s)
    ensures StepOk(c, s, Next(c, s, Work(o)))
  {
    hide WorldInv, ConfirmOk, Evolves, PcInv, WorkerStep, Contained;
    var (w', pc') := WorkerStep(c, s.w, s.pc, o);
    WorkerLegal(c, s.w, s.pc, o);
    forall k | k in s.confirms ensures ConfirmOk(w', s.confirms[k]) {
      ConfirmStable(s.w, w', s.confirms[k]);
    }
    if Serving(s.pc) {
      WorkerContained(c, s.w, s.pc, o);
      UploadContained(s.w, w', s.upload);
      StillServing(c, s.w, s.pc, o);
    }
  }

  lemma UploadContained(w: World, w': World, u: Incoming)
    requires UploadOk(w, u) && Contained(w, w')
    ensures UploadOk(w', u)
  {
  }

  // Where each part of the scheduler thread may go next.

  lemma AttemptFlow(c: Config, w: World, pc: Pc, o: Oracle)
    requires Attempting(pc)
    ensures var pc' := AttemptStep(c, w, pc, o).1; Attempting(pc') || pc'.Settle? || pc'.Releasing?
  {
    hide PassNext;
  }

  lemma PublicationFlow(c: Config, w: World, pc: Pc, o: Oracle)
    requires Publication(pc)
    ensures var pc' := PublicationStep(c, w, pc, o).1; Publication(pc') || pc'.Finishing? || pc'.Releasing?
  {
  }

  lemma EndingFlow(w: World, pc: Pc, o: Oracle)
    requires Ending(pc)
    ensures var pc' := EndingStep(w, pc, o).1; Ending(pc') || pc'.Idle? || pc'.Stopped?
  {
    hide PassNext, ExpiryNext;
  }

  lemma SchedulerFlow(w: World, pc: Pc, o: Oracle)
    requires AtScheduler(pc)
    ensures var pc' := SchedulerStep(w, pc, o).1;
      AtScheduler(pc') || (pc.Claiming? && (pc'.Finishing? || pc'.MakeWorkspace?))
  {
    hide ExpiryNext;
  }

  lemma RecoveryFlow(w: World, pc: Pc, o: Oracle)
    requires pc.Down? || Recovering(pc)
    ensures var pc' := RecoveryStep(w, pc, o).1; pc'.Down? || Recovering(pc') || (pc.Ready? && pc'.Idle?)
  {
    hide PassNext, ExpiryNext;
  }

  /** Only a crash takes the API down, and only a claim begins an attempt. */
  lemma StillServing(c: Config, w: World, pc: Pc, o: Oracle)
    ensures Serving(pc) ==> Serving(WorkerStep(c, w, pc, o).1)
    ensures !Attempting(pc) && !pc.Claiming? ==> !Attempting(WorkerStep(c, w, pc, o).1)
  {
    hide RecoveryStep, AttemptStep, PublicationStep, EndingStep, SchedulerStep;
    if pc.Down? || Recovering(pc) {
      RecoveryFlow(w, pc, o);
    } else if Attempting(pc) {
      AttemptFlow(c, w, pc, o);
    } else if Publication(pc) {
      PublicationFlow(c, w, pc, o);
    } else if Ending(pc) {
      EndingFlow(w, pc, o);
    } else {
      SchedulerFlow(w, pc, o);
    }
  }

  lemma CrashAction(c: Config, s: Sys)
    requires Inv(c, s)
    ensures StepOk(c, s, Next(c, s, Crash))
  {
    hide WorldInv, Evolves;
    var s' := Next(c, s, Crash);
    OnlyHistory(c, s.w, s'.w.hist);
    CrashedRows(c, s.w, s.pc);
  }

  lemma CrashedRows(c: Config, w: World, pc: Pc)
    requires PcInv(c, w, pc)
    ensures if Serving(pc) then MidRecovery(w.(hist := w.hist.(boot := w.db.jobs))) else MidRecovery(w)
  {
    if Serving(pc) {
    } else if pc.Down? || pc.RecoverJobs? {
    } else {
      assert Recovered(w);
      RecoverySteps.RecoveredIsMidRecovery(w);
    }
  }

  lemma TickRecovery(w: World, pc: Pc, d: nat)
    requires (pc.Down? || Recovering(pc)) && RecoveryInv(w, pc)
    ensures RecoveryInv(w.(now := w.now + d), pc)
  {
    var w' := w.(now := w.now + d);
    TickKeeps(w, d);
    hide Recovered, MidRecovery, Exact, ExpiredAtStart, RecoveryScanOk, ReconcileOk, LeftOk, PassOk, CleanOps;
  }

  lemma TickKeeps(w: World, d: nat)
    ensures var w' := w.(now := w.now + d);
      && (Recovered(w) ==> Recovered(w')) && (MidRecovery(w) ==> MidRecovery(w'))
      && (Exact(w) ==> Exact(w')) && (ExpiredAtStart(w) ==> ExpiredAtStart(w'))
      && (forall left :: LeftOk(w, left) ==> LeftOk(w', left))
      && (forall kind, todo :: ReconcileOk(w, kind, todo) ==> ReconcileOk(w', kind, todo))
      && (forall id :: CleanOps(w, id) ==> CleanOps(w', id))
      && (forall id, pass :: PassOk(w, id, pass) ==> PassOk(w', id, pass))
      && (forall e :: RecoveryScanOk(w, e) ==> RecoveryScanOk(w', e))
  {
    var w' := w.(now := w.now + d);
    if ExpiredAtStart(w) {
      forall i ensures !DueAtStart(w', i) {
        assert !DueAtStart(w, i);
      }
    }
    forall e | RecoveryScanOk(w, e) ensures RecoveryScanOk(w', e) {
      TickScan(w, d, e);
    }
  }

  lemma TickScan(w: World, d: nat, e: Expiry)
    requires RecoveryScanOk(w, e)
    ensures RecoveryScanOk(w.(now := w.now + d), e)
  {
    TickEnv(w, d);
    ScanStable(w, w.(now := w.now + d), e);
    hide ScanOk;
    forall i | DueAtStart(w.(now := w.now + d), i) ensures DueAtStart(w, i) {
    }
  }

  lemma TickAction(c: Config, s: Sys, d: nat)
    requires Inv(c, s)
    ensures StepOk(c, s, Next(c, s, Tick(d)))
  {
    hide WorldInv, ConfirmOk, Evolves, RecoveryInv;
    TickEffect(c, s.w, d);
    if Serving(s.pc) {
      Others(c, s, s.w.(now := s.w.now + d), s.upload);
    } else {
      TickRecovery(s.w, s.pc, d);
    }
  }

  lemma SubmitAction(c: Config, s: Sys, id: Id, source: Source)
    requires Inv(c, s)
    ensures StepOk(c, s, Next(c, s, Submit(id, source)))
  {
    hide WorldInv, ConfirmOk, Evolves, PcInv;
    TickEnv(s.w, 0);
    if Serving(s.pc) && source != Upload && Fresh(s, id) {
      EnqueueEffect(c, s.w, id, source);
      Others(c, s, Admit(s.w, id, source), s.upload);
    }
  }

  lemma CancelAction(c: Config, s: Sys, id: Id)
    requires Inv(c, s)
    ensures StepOk(c, s, Next(c, s, Cancel(id)))
  {
    hide WorldInv, ConfirmOk, Evolves, PcInv;
    TickEnv(s.w, 0);
    if Serving(s.pc) && CancelTx(s.w.db, id).Ok? {
      CancelEffect(c, s.w, id);
      Others(c, s, s.w.(db := CancelTx(s.w.db, id).value), s.upload);
    }
  }

  /** One confirmation may join, move on or leave once the others are known to be stable. */
  lemma WithConfirms(c: Config, s: Sys, s': Sys, thread: nat)
    requires StepOk(c, s, s.(w := s'.w)) && Serving(s.pc)
    requires s' == s.(w := s'.w, confirms := s'.confirms)
    requires forall k :: k in s'.confirms && k != thread ==> k in s.confirms && s'.confirms[k] == s.confirms[k]
    requires thread in s'.confirms ==> ConfirmOk(s'.w, s'.confirms[thread])
    ensures StepOk(c, s, s')
  {
    hide WorldInv, ConfirmOk, Evolves, PcInv;
    forall k | k in s'.confirms ensures ConfirmOk(s'.w, s'.confirms[k]) {
      assert k != thread ==> k in s.(w := s'.w).confirms;
    }
  }

  lemma ConfirmAction(c: Config, s: Sys, thread: nat, id: Id)
    requires Inv(c, s)
    ensures StepOk(c, s, Next(c, s, Confirm(thread, id)))
  {
    hide WorldInv, Evolves, PcInv, OpsOf;
    TickEnv(s.w, 0);
    if Serving(s.pc) && thread !in s.confirms && id in s.w.db.jobs && Unresolved(s.w.db.jobs[id]) {
      AttestEffect(c, s.w, id);
      hide ConfirmOk;
      Others(c, s, Attest(s.w, id), s.upload);
      AttestedOk(s.w, id);
      WithConfirms(c, s, Next(c, s, Confirm(thread, id)), thread);
    }
  }

  lemma AttestedOk(w: World, id: Id)
    requires id in w.db.jobs && Unresolved(w.db.jobs[id]) && CleanOps(Attest(w, id), id)
    ensures ConfirmOk(Attest(w, id), Confirmation(id, ConfirmWork, false))
  {
  }

  lemma ConfirmWithAction(c: Config, s: Sys, thread: nat, o: Oracle)
    requires Inv(c, s)
    ensures StepOk(c, s, Next(c, s, ConfirmWith(thread, o)))
  {
    hide WorldInv, ConfirmOk, Evolves, PcInv, Contained, ConfirmNext;
    TickEnv(s.w, 0);
    if thread in s.confirms {
      var x := ConfirmNext(s.w, s.confirms[thread], o);
      ConfirmEffect(c, s.w, s.confirms[thread], o);
      ConfirmContained(s.w, s.confirms[thread], o);
      UploadContained(s.w, x.w, s.upload);
      Others(c, s, x.w, s.upload);
      WithConfirms(c, s, Next(c, s, ConfirmWith(thread, o)), thread);
    }
  }

  lemma InputEffect(c: Config, s: Sys, id: Id)
    requires WorldInv(c, s.w) && Fresh(s, id)
    ensures var w' := s.w.(fs := s.w.fs.(inputs := s.w.fs.inputs + {id}));
      WorldInv(c, w') && Env(s.w, w')
  {
    var w' := s.w.(fs := s.w.fs.(inputs := s.w.fs.inputs + {id}));
    assert FileOk(c, s.w, id);
    OneFile(c, s.w, w', id);
    OneFileEnv(s.w, w', id);
  }

  lemma OpenUploadAction(c: Config, s: Sys, id: Id)
    requires Inv(c, s)
    ensures StepOk(c, s, Next(c, s, OpenUpload(id)))
  {
    hide WorldInv, ConfirmOk, Evolves, PcInv;
    TickEnv(s.w, 0);
    if Serving(s.pc) && s.upload.NoUpload? && Fresh(s, id) {
      InputEffect(c, s, id);
      Others(c, s, s.w.(fs := s.w.fs.(inputs := s.w.fs.inputs + {id})), Receiving(id));
    }
  }

  lemma UploadAction(c: Config, s: Sys, o: Oracle)
    requires Inv(c, s)
    ensures StepOk(c, s, Next(c, s, UploadWith(o)))
  {
    hide WorldInv, ConfirmOk, Evolves, PcInv;
    TickEnv(s.w, 0);
    if s.upload.Receiving? {
      var id := s.upload.id;
      TickEffect(c, s.w, 0);
      if o.ok && EnqueueTx(s.w.db, id, Upload, c.queueLimit, s.w.now).Ok? {
        EnqueueEffect(c, s.w, id, Upload);
        Others(c, s, Admit(s.w, id, Upload), NoUpload);
      } else if o.alt {
        RemoveInputEffect(c, s.w, id);
        Others(c, s, RemoveInput(s.w, id), NoUpload);
      } else {
        Others(c, s, s.w, NoUpload);
      }
    }
  }

  /** Every action, from any state that satisfies the invariant. */
  lemma StepSafe(c: Config, s: Sys, a: Action)
    requires Inv(c, s)
    ensures Inv(c, Next(c, s, a)) && Evolves(s.w, Next(c, s, a).w)
  {
    hide Inv, Evolves, Next;
    match a
    case Work(o) => WorkerAction(c, s, o);
    case Crash => CrashAction(c, s);
    case Tick(d) => TickAction(c, s, d);
    case Submit(id, source) => SubmitAction(c, s, id, source);
    case Cancel(id) => CancelAction(c, s, id);
    case Confirm(thread, id) => ConfirmAction(c, s, thread, id);
    case ConfirmWith(thread, o) => ConfirmWithAction(c, s, thread, o);
    case OpenUpload(id) => OpenUploadAction(c, s, id);
    case UploadWith(o) => UploadAction(c, s, o);
  }

  /** Hence every reachable state. */
  lemma {:induction false} Reachable(c: Config, acts: seq<Action>)
    ensures Inv(c, Exec(c, Init, acts))
  {
    if acts == [] {
      InitOk(c);
    } else {
      hide Inv, Evolves;
      Reachable(c, acts[..|acts| - 1]);
      StepSafe(c, Exec(c, Init, acts[..|acts| - 1]), acts[|acts| - 1]);
    }
  }

  lemma InitOk(c: Config)
    ensures Inv(c, Init)
  {
    assert forall i :: FileOk(c, Init.w, i);
  }
}
