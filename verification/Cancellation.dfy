/** Exactly when a job whose cancellation is accepted can still end as `Failed`. */
module Cancellation {
  import opened Model
  import opened Transactions
  import opened Protocol
  import opened Execution
  import opened Invariant
  import opened Safety
  import opened Runs
  import opened Restart
  import opened Theorems
  import opened Outcomes
  import opened Stale
  import opened Boundary
  import opened Surprises

  predicate EndsFailed(w: World, i: Id) {
    i in w.db.jobs && w.db.jobs[i].state == Failed
  }

  predicate OutcomeFailed(w: World, i: Id) {
    i in w.db.jobs && Outcome(w.db.jobs[i]) == Some(Failed)
  }

  predicate HasOutput(w: World, i: Id) {
    i in w.fs.work && w.fs.work[i].Some?
  }

  /** The worker is between the settlement of job `i` and the record of its artifact, with
      an output that can pass validation, or has passed it. */
  predicate OnWay(c: Config, s: Sys, i: Id) {
    match s.pc
    case ToVerifying(id, _) => id == i && HasOutput(s.w, i) && c.accepts(s.w.fs.work[i].value)
    case Validating(id, _) => id == i && HasOutput(s.w, i) && c.accepts(s.w.fs.work[i].value)
    case Checking(id, _, _) => id == i && HasOutput(s.w, i)
    case Publishing(id, _) => id == i && HasOutput(s.w, i)
    case Recording(id, _, _, _, _) => id == i
    case _ => false
  }

  /** The artifact of the job is recorded and not marked as expired, or not recorded yet
      but on its way to that. */
  predicate CanStillFail(c: Config, s: Sys, i: Id) {
    i in s.w.db.jobs
    && if s.w.db.jobs[i].expiresAt.Some? then !s.w.db.jobs[i].artifactExpired else OnWay(c, s, i)
  }

  // ---- Nothing will be recorded ----

  predicate OffWay(c: Config, s: Sys, i: Id) {
    i in s.w.db.jobs && s.w.db.jobs[i].cancelRequested && s.w.db.jobs[i].expiresAt.None? && !OnWay(c, s, i)
  }

  lemma OffWayPublication(c: Config, s: Sys, o: Oracle, i: Id)
    requires Publication(s.pc) && OffWay(c, s, i)
    ensures var (w', pc') := PublicationStep(c, s.w, s.pc, o); OffWay(c, s.(w := w', pc := pc'), i)
  {
  }

  /** No publication is at hand, and the row keeps its cancellation and gets no expiry. */
  ghost predicate StaysOff(w: World, w': World, pc': Pc, i: Id)
    requires i in w.db.jobs
  {
    (!Publication(pc') || pc'.Settle?) && i in w'.db.jobs
    && (w.db.jobs[i].cancelRequested ==> w'.db.jobs[i].cancelRequested)
    && w'.db.jobs[i].expiresAt == w.db.jobs[i].expiresAt
  }

  lemma OffWayAttempt(c: Config, w: World, pc: Pc, o: Oracle, i: Id)
    requires Attempting(pc) && i in w.db.jobs
    ensures var (w', pc') := AttemptStep(c, w, pc, o); StaysOff(w, w', pc', i)
  {
  }

  lemma OffWayEnding(w: World, pc: Pc, o: Oracle, i: Id)
    requires Ending(pc) && i in w.db.jobs
    ensures var (w', pc') := EndingStep(w, pc, o); StaysOff(w, w', pc', i)
  {
  }

  lemma OffWayRecovery(w: World, pc: Pc, o: Oracle, i: Id)
    requires (pc.Down? || Recovering(pc)) && i in w.db.jobs
    ensures var (w', pc') := RecoveryStep(w, pc, o); StaysOff(w, w', pc', i)
  {
  }

  lemma OffWayScheduler(w: World, pc: Pc, o: Oracle, i: Id)
    requires (pc.Idle? || pc.SchedulerExpire? || pc.Claiming? || pc.Stopped?) && i in w.db.jobs
    ensures var (w', pc') := SchedulerStep(w, pc, o); StaysOff(w, w', pc', i)
  {
  }

  lemma OffWayConfirm(w: World, cf: Confirmation, o: Oracle, i: Id)
    requires i in w.db.jobs
    ensures var w' := ConfirmNext(w, cf, o).w;
      && i in w'.db.jobs && (w.db.jobs[i].cancelRequested ==> w'.db.jobs[i].cancelRequested)
      && w'.db.jobs[i].expiresAt == w.db.jobs[i].expiresAt
      && (HasOutput(w', i) ==> HasOutput(w, i) && w'.fs.work[i] == w.fs.work[i])
  {
  }

  lemma OffWayStep(c: Config, s: Sys, a: Action, i: Id)
    requires OffWay(c, s, i)
    ensures OffWay(c, Next(c, s, a), i)
  {
    match a
    case Work(o) =>
      hide RecoveryStep, AttemptStep, PublicationStep, EndingStep, SchedulerStep;
      if s.pc.Down? || Recovering(s.pc) {
        OffWayRecovery(s.w, s.pc, o, i);
      } else if Attempting(s.pc) {
        OffWayAttempt(c, s.w, s.pc, o, i);
      } else if Publication(s.pc) {
        OffWayPublication(c, s, o, i);
        hide OffWay;
      } else if Ending(s.pc) {
        OffWayEnding(s.w, s.pc, o, i);
      } else {
        OffWayScheduler(s.w, s.pc, o, i);
      }
    case ConfirmWith(thread, o) =>
      hide WorkerStep, ConfirmNext;
      if thread in s.confirms {
        OffWayConfirm(s.w, s.confirms[thread], o, i);
      }
    case _ =>
      hide WorkerStep, ConfirmNext;
  }

  lemma {:induction false} OffWayRun(c: Config, s: Sys, more: seq<Action>, i: Id)
    requires OffWay(c, s, i)
    ensures OffWay(c, Exec(c, s, more), i)
  {
    if more != [] {
      hide OffWay, Next;
      OffWayRun(c, s, more[..|more| - 1], i);
      OffWayStep(c, Exec(c, s, more[..|more| - 1]), more[|more| - 1], i);
    }
  }

  lemma OffWayNeverFails(c: Config, s: Sys, more: seq<Action>, i: Id)
    requires Inv(c, s) && OffWay(c, s, i)
    ensures !OutcomeFailed(Exec(c, s, more).w, i)
  {
    hide Inv, Exec;
    OffWayRun(c, s, more, i);
    RunLater(c, s, more);
    Invariants(c, Exec(c, s, more), i);
  }

  // ---- The mark has come and gone ----

  /** No `Expire` in progress has the mark of job `i` before it. */
  ghost predicate NoMarks(s: Sys, i: Id) {
    (InExpiry(s.pc) ==> !HasMark(s.pc.e, i))
    && forall k :: k in s.confirms && s.confirms[k].stage.ConfirmExpire? ==> !HasMark(s.confirms[k].stage.e, i)
  }

  /** Job `i` was marked before its cleanup began, and its outcome is safe since. */
  ghost predicate PastMark(s: Sys, i: Id) {
    i in s.w.db.jobs && s.w.db.jobs[i].cancelRequested && s.w.db.jobs[i].artifactExpired
    && Outcome(s.w.db.jobs[i]) != Some(Failed) && NoMarks(s, i)
  }

  lemma EarlyScan(w: World, e: Expiry, i: Id)
    requires ScanOk(w, e) && i in w.db.jobs && w.db.jobs[i].state != Cleaning && !Terminal(w.db.jobs[i].state)
    ensures !HasMark(e, i)
  {
    if e.Loop? && i in e.todo {
      assert SnapOk(w, i, e.todo[i]);
    } else if e.Mark? && i in e.rest {
      assert SnapOk(w, i, e.rest[i]);
    }
  }

  lemma PcScan(c: Config, w: World, pc: Pc)
    requires PcInv(c, w, pc) && InExpiry(pc)
    ensures ScanOk(w, pc.e)
  {
    hide ScanOk, Recovered, Exact, LeftOk, RunOk, CleanOps;
  }

  lemma ThreadScan(c: Config, s: Sys, k: nat)
    requires Inv(c, s) && k in s.confirms && s.confirms[k].stage.ConfirmExpire?
    ensures ScanOk(s.w, s.confirms[k].stage.e)
  {
    ThreadOk(c, s, k);
    hide Inv, ScanOk, CleanOps;
  }

  lemma EarlyNoMarks(c: Config, s: Sys, i: Id)
    requires Inv(c, s) && i in s.w.db.jobs && s.w.db.jobs[i].state != Cleaning && !Terminal(s.w.db.jobs[i].state)
    ensures NoMarks(s, i)
  {
    StateParts(c, s, i);
    hide Inv, PcInv, ScanOk, HasMark;
    if InExpiry(s.pc) {
      PcScan(c, s.w, s.pc);
      EarlyScan(s.w, s.pc.e, i);
    }
    forall k | k in s.confirms && s.confirms[k].stage.ConfirmExpire? ensures !HasMark(s.confirms[k].stage.e, i) {
      ThreadScan(c, s, k);
      EarlyScan(s.w, s.confirms[k].stage.e, i);
    }
  }

  /** A cancelled job is committed to `Cancelled` first of all. */
  ghost predicate FirstCancelled(w: World, w': World, i: Id)
    requires i in w.db.jobs
  {
    i in w'.db.jobs
    && (Outcome(w.db.jobs[i]).None? && Outcome(w'.db.jobs[i]).Some? ==> Outcome(w'.db.jobs[i]) == Some(Cancelled))
  }

  lemma RecoveryFirst(w: World, pc: Pc, o: Oracle, i: Id)
    requires (pc.Down? || Recovering(pc)) && i in w.db.jobs && w.db.jobs[i].cancelRequested
    requires RowOk(w.db.jobs[i], i, w.now)
    ensures FirstCancelled(w, RecoveryStep(w, pc, o).0, i)
  {
  }

  lemma AttemptFirst(c: Config, w: World, pc: Pc, o: Oracle, i: Id)
    requires Attempting(pc) && i in w.db.jobs
    ensures FirstCancelled(w, AttemptStep(c, w, pc, o).0, i)
  {
  }

  lemma PublicationFirst(c: Config, w: World, pc: Pc, o: Oracle, i: Id)
    requires Publication(pc) && i in w.db.jobs
    ensures FirstCancelled(w, PublicationStep(c, w, pc, o).0, i)
  {
  }

  lemma SchedulerFirst(w: World, pc: Pc, o: Oracle, i: Id)
    requires (pc.Idle? || pc.SchedulerExpire? || pc.Claiming? || pc.Stopped?) && i in w.db.jobs
    requires RowOk(w.db.jobs[i], i, w.now)
    ensures FirstCancelled(w, SchedulerStep(w, pc, o).0, i)
  {
  }

  lemma EndingFirst(w: World, pc: Pc, o: Oracle, i: Id)
    requires Ending(pc) && i in w.db.jobs && w.db.jobs[i].cancelRequested && EndingInv(w, pc)
    requires RowOk(w.db.jobs[i], i, w.now)
    ensures FirstCancelled(w, EndingStep(w, pc, o).0, i)
  {
    if pc.Deciding? || pc.Closing? {
      WritingRow(w, pc);
    }
    hide EndingInv;
  }

  lemma ConfirmFirst(w: World, cf: Confirmation, o: Oracle, i: Id)
    requires i in w.db.jobs && RowOk(w.db.jobs[i], i, w.now)
    ensures FirstCancelled(w, ConfirmNext(w, cf, o).w, i)
  {
  }

  lemma WorkFirst(c: Config, s: Sys, o: Oracle, i: Id)
    requires i in s.w.db.jobs && s.w.db.jobs[i].cancelRequested
    requires RowOk(s.w.db.jobs[i], i, s.w.now) && PcInv(c, s.w, s.pc)
    ensures FirstCancelled(s.w, WorkerStep(c, s.w, s.pc, o).0, i)
  {
    hide RecoveryStep, AttemptStep, PublicationStep, EndingStep, SchedulerStep, RowOk, FirstCancelled;
    hide RecoveryInv, AttemptInv, PublicationInv, EndingInv, SchedulerInv;
    if s.pc.Down? || Recovering(s.pc) {
      RecoveryFirst(s.w, s.pc, o, i);
    } else if Attempting(s.pc) {
      AttemptFirst(c, s.w, s.pc, o, i);
    } else if Publication(s.pc) {
      PublicationFirst(c, s.w, s.pc, o, i);
    } else if Ending(s.pc) {
      EndingFirst(s.w, s.pc, o, i);
    } else {
      SchedulerFirst(s.w, s.pc, o, i);
    }
  }

  lemma StepFirst(c: Config, s: Sys, a: Action, i: Id)
    requires i in s.w.db.jobs && s.w.db.jobs[i].cancelRequested
    requires RowOk(s.w.db.jobs[i], i, s.w.now) && PcInv(c, s.w, s.pc)
    ensures FirstCancelled(s.w, Next(c, s, a).w, i)
  {
    hide WorkerStep, ConfirmNext, PcInv, RowOk;
    match a
    case Work(o) => WorkFirst(c, s, o, i);
    case ConfirmWith(thread, o) =>
      if thread in s.confirms {
        ConfirmFirst(s.w, s.confirms[thread], o, i);
      }
    case _ =>
  }

  // The scans in progress, one step on.

  lemma FlowScan(c: Config, w: World, pc: Pc, o: Oracle)
    requires !InExpiry(pc)
    ensures var pc' := WorkerStep(c, w, pc, o).1; InExpiry(pc') ==> pc'.e.Snapshot?
  {
    hide RecoveryStep, AttemptStep, PublicationStep, EndingStep, SchedulerStep;
    if pc.Down? || Recovering(pc) {
      RecoveryScan(w, pc, o);
    } else if Attempting(pc) {
      AttemptFlow(c, w, pc, o);
    } else if Publication(pc) {
      PublicationFlow(c, w, pc, o);
    } else if Ending(pc) {
      EndingScan(w, pc, o);
    } else {
      SchedulerScan(w, pc, o);
    }
  }

  lemma RecoveryScan(w: World, pc: Pc, o: Oracle)
    requires (pc.Down? || Recovering(pc)) && !InExpiry(pc)
    ensures var pc' := RecoveryStep(w, pc, o).1; InExpiry(pc') ==> pc'.e.Snapshot?
  {
    hide PassNext;
  }

  lemma EndingScan(w: World, pc: Pc, o: Oracle)
    requires Ending(pc) && !InExpiry(pc)
    ensures var pc' := EndingStep(w, pc, o).1; InExpiry(pc') ==> pc'.e.Snapshot?
  {
    hide PassNext;
  }

  lemma SchedulerScan(w: World, pc: Pc, o: Oracle)
    requires pc.Idle? || pc.Claiming? || pc.Stopped?
    ensures var pc' := SchedulerStep(w, pc, o).1; InExpiry(pc') ==> pc'.e.Snapshot?
  {
  }

  lemma ExpiryFlow(c: Config, w: World, pc: Pc, o: Oracle)
    requires InExpiry(pc)
    ensures var x, pc' := ExpiryNext(w, pc.e, o), WorkerStep(c, w, pc, o).1;
      InExpiry(pc') ==> x.ExpiryMore? && pc'.e == x.e
  {
    hide ExpiryNext;
  }

  lemma NoMarksWork(c: Config, s: Sys, o: Oracle, i: Id)
    requires PcInv(c, s.w, s.pc) && i in s.w.db.jobs && s.w.db.jobs[i].artifactExpired && NoMarks(s, i)
    ensures NoMarks(Next(c, s, Work(o)), i)
  {
    hide PcInv, WorkerStep, HasMark;
    if InExpiry(s.pc) {
      PcScan(c, s.w, s.pc);
      QuietExpiry(s.w, s.pc.e, o, i);
      ExpiryFlow(c, s.w, s.pc, o);
    } else {
      FlowScan(c, s.w, s.pc, o);
      NoSnapshotMark(i);
    }
  }

  lemma NoSnapshotMark(i: Id)
    ensures !HasMark(Snapshot, i)
  {
  }

  lemma NoMarksConfirm(w: World, cf: Confirmation, o: Oracle, i: Id)
    requires ConfirmOk(w, cf) && i in w.db.jobs && w.db.jobs[i].artifactExpired
    requires cf.stage.ConfirmExpire? ==> !HasMark(cf.stage.e, i)
    ensures var x := ConfirmNext(w, cf, o);
      x.ConfirmMore? && x.cf.stage.ConfirmExpire? ==> !HasMark(x.cf.stage.e, i)
  {
    if cf.stage.ConfirmExpire? {
      QuietExpiry(w, cf.stage.e, o, i);
      hide ExpiryNext;
    }
  }

  lemma NoMarksStep(c: Config, s: Sys, a: Action, i: Id)
    requires Inv(c, s) && i in s.w.db.jobs && s.w.db.jobs[i].artifactExpired && NoMarks(s, i)
    ensures NoMarks(Next(c, s, a), i)
  {
    hide Inv, PcInv, RowOk, HasMark, WorkerStep, ConfirmNext, ConfirmOk;
    StateParts(c, s, i);
    match a
    case Work(o) =>
      hide NoMarks, Next;
      NoMarksWork(c, s, o, i);
    case ConfirmWith(thread, o) =>
      if thread in s.confirms {
        ThreadOk(c, s, thread);
        NoMarksConfirm(s.w, s.confirms[thread], o, i);
      }
    case _ =>
  }

  lemma PastMarkRow(s: Sys, w': World, i: Id)
    requires i in s.w.db.jobs && Evolves(s.w, w')
    ensures i in w'.db.jobs && (s.w.db.jobs[i].cancelRequested ==> w'.db.jobs[i].cancelRequested)
    ensures s.w.db.jobs[i].artifactExpired ==> w'.db.jobs[i].artifactExpired
  {
    assert RowEvolves(s.w, w', i);
  }

  lemma NotMarked(s: Sys, a: Action, i: Id)
    requires NoMarks(s, i)
    ensures !Marks(s, a, i)
  {
  }

  lemma PastMarkStep(c: Config, s: Sys, a: Action, i: Id)
    requires Inv(c, s) && PastMark(s, i)
    ensures PastMark(Next(c, s, a), i)
  {
    hide Inv, Next, NoMarks, RowOk, PcInv, Evolves, Marks;
    StepSafe(c, s, a);
    StateParts(c, s, i);
    PastMarkRow(s, Next(c, s, a).w, i);
    NoMarksStep(c, s, a, i);
    NotMarked(s, a, i);
    StepOutcome(c, s, a, i);
    StepFirst(c, s, a, i);
  }

  lemma {:induction false} PastMarkRun(c: Config, s: Sys, more: seq<Action>, i: Id)
    requires Inv(c, s) && PastMark(s, i)
    ensures Inv(c, Exec(c, s, more)) && PastMark(Exec(c, s, more), i)
  {
    if more != [] {
      hide Inv, PastMark, Next, Evolves;
      var init := more[..|more| - 1];
      PastMarkRun(c, s, init, i);
      PastMarkStep(c, Exec(c, s, init), more[|more| - 1], i);
      StepSafe(c, Exec(c, s, init), more[|more| - 1]);
    }
  }

  // ---- A recorded artifact can always expire in cleanup ----

  /** Startup is on its way to marking job `i` in cleanup, or has done so. */
  ghost predicate Doomed(s: Sys, i: Id) {
    && i in s.w.db.jobs && s.w.db.jobs[i].expiresAt.Some? && s.w.db.jobs[i].expiresAt.value <= s.w.now
    && (s.pc.Down? || s.w.db.jobs[i].expiresAt.value <= s.w.hist.startedAt)
    && if s.w.db.jobs[i].artifactExpired then Outcome(s.w.db.jobs[i]) == Some(Failed)
       else if s.pc.Down? || s.pc.RecoverJobs? then Active(s.w.db.jobs[i].state)
       else s.w.db.jobs[i].state == Cleaning
  }

  ghost predicate DoomedUntilServing(s: Sys, i: Id) {
    Serving(s.pc) || Doomed(s, i)
  }

  lemma DoomedExpiry(w: World, known: map<Id, Job>, e: Expiry, o: Oracle, i: Id)
    requires RecoveryScanOk(w, e) && i in w.db.jobs
    requires !w.db.jobs[i].artifactExpired ==> w.db.jobs[i].state == Cleaning
    requires w.db.jobs[i].artifactExpired ==> Outcome(w.db.jobs[i]) == Some(Failed)
    ensures var w' := ExpiryNext(w, e, o).w;
      && i in w'.db.jobs && w'.db.jobs[i].expiresAt == w.db.jobs[i].expiresAt
      && w'.now == w.now && w'.hist == w.hist
      && if w'.db.jobs[i].artifactExpired then Outcome(w'.db.jobs[i]) == Some(Failed)
         else w'.db.jobs[i].state == Cleaning
  {
  }

  lemma DoomedResolve(w: World, id: Id, i: Id)
    requires i in w.db.jobs && w.db.jobs[i].artifactExpired && Outcome(w.db.jobs[i]) == Some(Failed)
    requires ResolveTx(w.db, id).Ok?
    ensures var db := ResolveTx(w.db, id).value;
      && i in db.jobs && db.jobs[i].artifactExpired && Outcome(db.jobs[i]) == Some(Failed)
      && db.jobs[i].expiresAt == w.db.jobs[i].expiresAt
  {
  }

  lemma DoomedStep(c: Config, s: Sys, o: Oracle, i: Id)
    requires (s.pc.Down? || Recovering(s.pc)) && Doomed(s, i) && RecoveryInv(s.w, s.pc)
    requires s.pc.RecoverExpire? ==> RecoveryScanOk(s.w, s.pc.e)
    requires s.pc.RecoverResolve? ==> s.w.db.jobs[i].artifactExpired
    ensures var (w', pc') := RecoveryStep(s.w, s.pc, o); DoomedUntilServing(s.(w := w', pc := pc'), i)
  {
    hide RecoveryInv, RecoveryScanOk;
    if s.pc.RecoverExpire? {
      DoomedExpiry(s.w, s.pc.known, s.pc.e, o, i);
      hide ExpiryNext;
    } else if s.pc.RecoverResolve? {
      if ResolveTx(s.w.db, s.pc.id).Ok? {
        DoomedResolve(s.w, s.pc.id, i);
      }
      hide ResolveTx;
    } else {
      hide ExpiryNext, ResolveTx;
    }
  }

  lemma RecoveryFacts(w: World, pc: Pc)
    requires (pc.Down? || Recovering(pc)) && RecoveryInv(w, pc)
    ensures pc.RecoverExpire? ==> RecoveryScanOk(w, pc.e)
    ensures pc.RecoverResolve? || pc.Ready? ==> ExpiredAtStart(w)
  {
    hide Recovered, Exact, LeftOk, ExpiredAtStart, RecoveryScanOk, PassOk, CleanOps;
  }

  lemma DoomedWork(c: Config, s: Sys, o: Oracle, i: Id)
    requires Inv(c, s) && DoomedUntilServing(s, i)
    ensures DoomedUntilServing(Next(c, s, Work(o)), i)
  {
    hide RecoveryStep, AttemptStep, PublicationStep, EndingStep, SchedulerStep, Doomed, WorldInv, ConfirmOk;
    hide RecoveryInv;
    StillServing(c, s.w, s.pc, o);
    if !Serving(s.pc) {
      RecoveryFacts(s.w, s.pc);
      if !s.pc.Down? {
        DoomedMarked(s, i);
      }
      DoomedStep(c, s, o, i);
    }
  }

  lemma DoomedMarked(s: Sys, i: Id)
    requires Doomed(s, i) && !s.pc.Down?
    ensures i in s.w.db.jobs
    ensures ExpiredAtStart(s.w) ==> s.w.db.jobs[i].artifactExpired && Outcome(s.w.db.jobs[i]) == Some(Failed)
  {
    if ExpiredAtStart(s.w) {
      assert !DueAtStart(s.w, i);
    }
  }

  lemma {:induction false} DoomedRun(c: Config, s: Sys, more: seq<Action>, i: Id)
    requires Inv(c, s) && DoomedUntilServing(s, i) && forall k :: 0 <= k < |more| ==> more[k].Work?
    ensures Inv(c, Exec(c, s, more)) && DoomedUntilServing(Exec(c, s, more), i)
  {
    if more != [] {
      hide Inv, Next, DoomedUntilServing, Evolves;
      var init, a := more[..|more| - 1], more[|more| - 1];
      DoomedRun(c, s, init, i);
      DoomedWork(c, Exec(c, s, init), a.o, i);
      StepSafe(c, Exec(c, s, init), a);
    }
  }

  lemma CrashDooms(c: Config, s: Sys, i: Id, d: nat)
    requires i in s.w.db.jobs && s.w.db.jobs[i].expiresAt.Some? && !s.w.db.jobs[i].artifactExpired
    requires Active(s.w.db.jobs[i].state) && s.w.db.jobs[i].expiresAt.value <= s.w.now + d
    ensures var m := Next(c, Next(c, s, Crash), Tick(d)); m.pc.Down? && Doomed(m, i)
  {
    hide WorkerStep, ConfirmNext;
  }

  lemma ReadyDoomed(c: Config, s: Sys, i: Id)
    requires Inv(c, s) && s.pc.Ready? && DoomedUntilServing(s, i)
    ensures OutcomeFailed(s.w, i) && (Terminal(s.w.db.jobs[i].state) || Unresolved(s.w.db.jobs[i]))
    ensures s.confirms == map[]
  {
    RecoveryFacts(s.w, s.pc);
    DoomedMarked(s, i);
    ReadyState(c, s);
    hide Inv;
  }

  /** A job in review or finished, committed to `Failed`, can be brought to its end. */
  lemma FailedCanEnd(c: Config, s: Sys, i: Id) returns (more: seq<Action>)
    requires Inv(c, s) && s.pc.Idle? && s.confirms == map[] && OutcomeFailed(s.w, i)
    requires Terminal(s.w.db.jobs[i].state) || Unresolved(s.w.db.jobs[i])
    ensures EndsFailed(Exec(c, s, more).w, i)
  {
    if Terminal(s.w.db.jobs[i].state) {
      more := [];
      assert Exec(c, s, more) == s;
    } else {
      hide Inv, Next, Exec;
      var m, rest := Confirmed(c, s, 0, i);
      FailedStays(c, m, 0, rest, i);
      more := [Confirm(0, i)] + rest;
      ExecCons(c, s, Confirm(0, i), rest);
    }
  }

  /** Every job that is active, and whose recorded artifact is not marked, can end `Failed`:
      the process dies, and the next one starts when the artifact has expired. */
  lemma RecordedCanFail(c: Config, s: Sys, i: Id) returns (more: seq<Action>)
    requires Inv(c, s) && i in s.w.db.jobs && Active(s.w.db.jobs[i].state)
    requires s.w.db.jobs[i].expiresAt.Some? && !s.w.db.jobs[i].artifactExpired
    ensures EndsFailed(Exec(c, s, more).w, i)
  {
    var d := if s.w.now < s.w.db.jobs[i].expiresAt.value then s.w.db.jobs[i].expiresAt.value - s.w.now else 0;
    hide Inv, Exec, Next, Evolves, Doomed, DoomedUntilServing, OutcomeFailed, EndsFailed;
    StepSafe(c, s, Crash);
    var m1 := Next(c, s, Crash);
    StepSafe(c, m1, Tick(d));
    var m2 := Next(c, m1, Tick(d));
    CrashDooms(c, s, i, d);
    assert DoomedUntilServing(m2, i) by {
      StillDoomed(m2, i);
    }
    var first := FinishRecovery(c, m2);
    DoomedRun(c, m2, first, i);
    var ready := Exec(c, m2, first);
    ReadyDoomed(c, ready, i);
    var a := Work(Good);
    StepSafe(c, ready, a);
    Begins(c, ready);
    BeginsAlone(c, ready);
    assert OutcomeFailed(ready.w, i) ==> i in ready.w.db.jobs by {
      FailedRow(ready.w, i);
    }
    var rest := FailedCanEnd(c, Next(c, ready, a), i);
    more := [Crash] + ([Tick(d)] + (first + ([a] + rest)));
    ExecCons(c, ready, a, rest);
    ExecAppend(c, m2, first, [a] + rest);
    ExecCons(c, m1, Tick(d), first + ([a] + rest));
    ExecCons(c, s, Crash, [Tick(d)] + (first + ([a] + rest)));
  }

  lemma StillDoomed(s: Sys, i: Id)
    requires Doomed(s, i)
    ensures DoomedUntilServing(s, i)
  {
  }

  lemma FailedRow(w: World, i: Id)
    ensures OutcomeFailed(w, i) ==> i in w.db.jobs
  {
  }

  // ---- A job on its way will be recorded ----

  function Ahead(pc: Pc): nat {
    match pc
    case ToVerifying(_, _) => 5
    case Validating(_, _) => 4
    case Checking(_, _, _) => 3
    case Publishing(_, _) => 2
    case Recording(_, _, _, _, _) => 1
    case _ => 0
  }

  /** The artifact of the job is recorded, and the job is not yet in cleanup. */
  predicate JustRecorded(w: World, i: Id) {
    i in w.db.jobs && Active(w.db.jobs[i].state)
    && w.db.jobs[i].expiresAt.Some? && !w.db.jobs[i].artifactExpired
  }

  lemma OnWayStep(c: Config, w: World, pc: Pc, i: Id)
    requires Publication(pc) && PublicationInv(c, w, pc) && OnWay(c, Sys(w, pc, map[], NoUpload), i)
    requires i in w.db.jobs && !w.db.jobs[i].artifactExpired
    ensures var (w', pc') := PublicationStep(c, w, pc, Good);
      && i in w'.db.jobs && w'.db.jobs[i].expiresAt.None? == (w.db.jobs[i].expiresAt.None? && !pc.Recording?)
      && if pc.Recording? then JustRecorded(w', i)
         else OnWay(c, Sys(w', pc', map[], NoUpload), i) && Ahead(pc') < Ahead(pc)
  {
  }

  lemma OnWayNext(c: Config, s: Sys, i: Id)
    requires Inv(c, s) && OnWay(c, s, i) && i in s.w.db.jobs && s.w.db.jobs[i].expiresAt.None?
    ensures var m := Next(c, s, Work(Good));
      && if s.pc.Recording? then JustRecorded(m.w, i)
         else OnWay(c, m, i) && Ahead(m.pc) < Ahead(s.pc) && i in m.w.db.jobs && m.w.db.jobs[i].expiresAt.None?
  {
    hide Inv, PublicationInv, PublicationStep, RecoveryStep, AttemptStep, EndingStep, SchedulerStep;
    hide AttemptInv, EndingInv, RecoveryInv, SchedulerInv, JustRecorded;
    StateParts(c, s, i);
    OnWayStep(c, s.w, s.pc, i);
  }

  lemma {:induction false} OnWayRecords(c: Config, s: Sys, i: Id) returns (more: seq<Action>)
    requires Inv(c, s) && OnWay(c, s, i) && i in s.w.db.jobs && s.w.db.jobs[i].expiresAt.None?
    ensures Inv(c, Exec(c, s, more)) && JustRecorded(Exec(c, s, more).w, i)
    decreases Ahead(s.pc)
  {
    hide Inv, Next, Evolves, OnWay, JustRecorded;
    var a := Work(Good);
    StepSafe(c, s, a);
    OnWayNext(c, s, i);
    if s.pc.Recording? {
      more := [a];
      ExecOne(c, s, a);
    } else {
      var rest := OnWayRecords(c, Next(c, s, a), i);
      hide Exec;
      more := [a] + rest;
      ExecCons(c, s, a, rest);
    }
  }

  // ---- The exact condition ----

  lemma CanFail(c: Config, s: Sys, i: Id) returns (more: seq<Action>)
    requires Inv(c, s) && CanStillFail(c, s, i) && !Terminal(s.w.db.jobs[i].state)
    ensures EndsFailed(Exec(c, s, more).w, i)
  {
    StateParts(c, s, i);
    if s.w.db.jobs[i].expiresAt.Some? {
      hide Inv, PcInv;
      more := RecordedCanFail(c, s, i);
    } else {
      hide Inv, PcInv, Exec, OnWay, EndsFailed;
      var first := OnWayRecords(c, s, i);
      var rest := RecordedCanFail(c, Exec(c, s, first), i);
      more := first + rest;
      ExecAppend(c, s, first, rest);
    }
  }

  /** Otherwise, from a state in which the job is cancelled and its cleanup has not begun,
      it is never even committed to `Failed`. */
  lemma CannotFail(c: Config, s: Sys, more: seq<Action>, i: Id)
    requires Inv(c, s) && !CanStillFail(c, s, i) && i in s.w.db.jobs && s.w.db.jobs[i].cancelRequested
    requires s.w.db.jobs[i].state != Cleaning && !Terminal(s.w.db.jobs[i].state)
    ensures !OutcomeFailed(Exec(c, s, more).w, i)
  {
    hide Inv, Exec, OnWay, NoMarks;
    if s.w.db.jobs[i].expiresAt.None? {
      OffWayNeverFails(c, s, more, i);
    } else {
      EarlyNoMarks(c, s, i);
      PastMarkRun(c, s, more, i);
    }
  }

  lemma CancelKeepsCondition(c: Config, s: Sys, i: Id)
    requires Serving(s.pc) && CancelTx(s.w.db, i).Ok?
    ensures var m := Next(c, s, Cancel(i));
      && i in m.w.db.jobs && m.w.db.jobs[i] == s.w.db.jobs[i].(cancelRequested := true)
      && (CanStillFail(c, m, i) <==> CanStillFail(c, s, i))
  {
    hide WorkerStep, ConfirmNext;
  }

  lemma EndsCommitted(w: World, i: Id)
    requires EndsFailed(w, i)
    ensures OutcomeFailed(w, i)
  {
  }

  /** At the step that accepts the cancellation of a job: it can still end as `Failed`
      exactly when its artifact is recorded and unmarked, or is on its way to be
      recorded. In every other case it is never committed to anything but `Cancelled`. */
  lemma CancelExactly(c: Config, s: Sys, i: Id)
    requires Inv(c, s) && Serving(s.pc) && CancelTx(s.w.db, i).Ok?
    ensures (exists more: seq<Action> :: EndsFailed(Exec(c, s, [Cancel(i)] + more).w, i)) <==> CanStillFail(c, s, i)
    ensures (exists more: seq<Action> :: OutcomeFailed(Exec(c, s, [Cancel(i)] + more).w, i)) <==> CanStillFail(c, s, i)
  {
    hide Inv, Exec, Next, Evolves, CanStillFail, EndsFailed, OutcomeFailed;
    CancelKeepsCondition(c, s, i);
    StepSafe(c, s, Cancel(i));
    var m := Next(c, s, Cancel(i));
    if CanStillFail(c, s, i) {
      var more := CanFail(c, m, i);
      ExecCons(c, s, Cancel(i), more);
      EndsCommitted(Exec(c, m, more).w, i);
    } else {
      forall more: seq<Action>
        ensures !OutcomeFailed(Exec(c, s, [Cancel(i)] + more).w, i)
        ensures !EndsFailed(Exec(c, s, [Cancel(i)] + more).w, i)
      {
        ExecCons(c, s, Cancel(i), more);
        CannotFail(c, m, more, i);
        if EndsFailed(Exec(c, m, more).w, i) {
          EndsCommitted(Exec(c, m, more).w, i);
        }
      }
    }
  }
}
