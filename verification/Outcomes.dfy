/** What may still change a committed outcome, and who writes it. */
module Outcomes {
  import opened Model
  import opened Transactions
  import opened Protocol
  import opened Invariant
  import opened Safety
  import opened Traces
  import Admission

  // ---- The two ways ----

  /** The `Expire` that this step continues, in whatever thread. */
  function ExpiryAt(s: Sys, a: Action): Option<Expiry> {
    if a.Work? && InExpiry(s.pc) then Some(s.pc.e)
    else if a.ConfirmWith? && a.thread in s.confirms && s.confirms[a.thread].stage.ConfirmExpire?
    then Some(s.confirms[a.thread].stage.e)
    else None
  }

  /** `Expire` writes its mark for job `i`, which its snapshot saw in cleanup. */
  predicate Marks(s: Sys, a: Action, i: Id) {
    ExpiryAt(s, a).Some? && ExpiryAt(s, a).value.Mark?
    && ExpiryAt(s, a).value.row.id == i && ExpiryAt(s, a).value.row.state == Cleaning
  }

  /** The worker is about to write the outcome it read or committed earlier. */
  predicate Writing(pc: Pc, i: Id) {
    ((pc.Deciding? && (pc.bad || pc.review)) || pc.Closing?) && pc.id == i
  }

  /** The two ways in which one step changes a committed outcome. */
  ghost predicate Rewritten(s: Sys, a: Action, j: Job, j': Job, i: Id) {
    || (Marks(s, a, i) && Outcome(j') == Some(Failed) && j'.artifactExpired)
    || (a.Work? && Writing(s.pc, i) && Outcome(j') == Some(s.pc.desired)
        && j.artifactExpired && Outcome(j) == Some(Failed))
  }

  ghost predicate Explained(s: Sys, a: Action, w': World, i: Id)
    requires i in s.w.db.jobs
  {
    i in w'.db.jobs
    && (Outcome(s.w.db.jobs[i]).Some? && Outcome(w'.db.jobs[i]) != Outcome(s.w.db.jobs[i]) ==>
          Rewritten(s, a, s.w.db.jobs[i], w'.db.jobs[i], i))
  }

  /** The rows keep their outcome. */
  ghost predicate SameOutcome(w: World, w': World, i: Id) {
    i in w.db.jobs && i in w'.db.jobs
    && (Outcome(w.db.jobs[i]).Some? ==> Outcome(w'.db.jobs[i]) == Outcome(w.db.jobs[i]))
  }

  lemma ExpiryOutcome(w: World, e: Expiry, o: Oracle, i: Id)
    requires i in w.db.jobs
    ensures var w' := ExpiryNext(w, e, o).w;
      SameOutcome(w, w', i)
      || (e.Mark? && e.row.id == i && e.row.state == Cleaning && i in w'.db.jobs
          && Outcome(w'.db.jobs[i]) == Some(Failed) && w'.db.jobs[i].artifactExpired)
  {
  }

  lemma ResolveOutcome(w: World, id: Id, i: Id)
    requires i in w.db.jobs && ResolveTx(w.db, id).Ok?
    ensures SameOutcome(w, w.(db := ResolveTx(w.db, id).value), i)
  {
  }

  lemma RecoverOutcome(w: World, i: Id)
    requires i in w.db.jobs && RowOk(w.db.jobs[i], i, w.now)
    ensures SameOutcome(w, w.(db := RecoverTx(w.db)), i)
  {
  }

  lemma RecoveryOutcome(w: World, pc: Pc, o: Oracle, i: Id)
    requires (pc.Down? || Recovering(pc)) && !pc.RecoverExpire?
    requires i in w.db.jobs && RowOk(w.db.jobs[i], i, w.now)
    ensures SameOutcome(w, RecoveryStep(w, pc, o).0, i)
  {
    hide ResolveTx, RecoverTx;
    RecoverOutcome(w, i);
    if pc.RecoverResolve? && ResolveTx(w.db, pc.id).Ok? {
      ResolveOutcome(w, pc.id, i);
    }
  }

  lemma AttemptOutcome(c: Config, w: World, pc: Pc, o: Oracle, i: Id)
    requires Attempting(pc) && i in w.db.jobs
    ensures SameOutcome(w, AttemptStep(c, w, pc, o).0, i)
  {
  }

  lemma PublicationOutcome(c: Config, w: World, pc: Pc, o: Oracle, i: Id)
    requires Publication(pc) && i in w.db.jobs
    ensures SameOutcome(w, PublicationStep(c, w, pc, o).0, i)
  {
  }

  lemma SchedulerOutcome(w: World, pc: Pc, o: Oracle, i: Id)
    requires (pc.Idle? || pc.Claiming? || pc.Stopped?) && i in w.db.jobs
    ensures SameOutcome(w, SchedulerStep(w, pc, o).0, i)
  {
  }

  /** The row of the job that the worker is ending, at a step that writes its outcome. */
  lemma WritingRow(w: World, pc: Pc)
    requires Ending(pc) && EndingInv(w, pc) && (pc.Deciding? || pc.Closing?)
    ensures pc.id in w.db.jobs && w.db.jobs[pc.id].state == Cleaning && Terminal(pc.desired)
    ensures w.db.jobs[pc.id].cleanupError == Clear && !w.db.device.quarantined
    ensures var j := w.db.jobs[pc.id];
      j.pending == Some(pc.desired) || (j.artifactExpired && j.pending == Some(Failed))
  {
  }

  lemma EndingOutcome(w: World, pc: Pc, o: Oracle, i: Id)
    requires Ending(pc) && !pc.FinishExpire? && i in w.db.jobs && EndingInv(w, pc)
    ensures var w' := EndingStep(w, pc, o).0;
      SameOutcome(w, w', i)
      || (Writing(pc, i) && i in w'.db.jobs && Outcome(w'.db.jobs[i]) == Some(pc.desired)
          && w.db.jobs[i].artifactExpired && Outcome(w.db.jobs[i]) == Some(Failed))
  {
    if pc.Deciding? || pc.Closing? {
      WritingRow(w, pc);
    }
    hide EndingInv;
  }

  lemma WorkOutcome(c: Config, s: Sys, o: Oracle, i: Id)
    requires i in s.w.db.jobs && RowOk(s.w.db.jobs[i], i, s.w.now) && PcInv(c, s.w, s.pc)
    ensures Explained(s, Work(o), WorkerStep(c, s.w, s.pc, o).0, i)
  {
    var w, pc := s.w, s.pc;
    hide RecoveryStep, AttemptStep, PublicationStep, EndingStep, SchedulerStep, RowOk;
    hide RecoveryInv, AttemptInv, PublicationInv, EndingInv, SchedulerInv;
    if InExpiry(pc) {
      ExpiryWork(c, w, pc, o);
      ExpiryOutcome(w, pc.e, o, i);
      hide ExpiryNext;
    } else if pc.Down? || Recovering(pc) {
      RecoveryOutcome(w, pc, o, i);
    } else if Attempting(pc) {
      AttemptOutcome(c, w, pc, o, i);
    } else if Publication(pc) {
      PublicationOutcome(c, w, pc, o, i);
    } else if Ending(pc) {
      EndingOutcome(w, pc, o, i);
    } else {
      SchedulerOutcome(w, pc, o, i);
    }
  }

  lemma ExpiryWork(c: Config, w: World, pc: Pc, o: Oracle)
    requires InExpiry(pc)
    ensures WorkerStep(c, w, pc, o).0 == ExpiryNext(w, pc.e, o).w
  {
    hide ExpiryNext;
  }

  lemma ConfirmOutcome(s: Sys, thread: nat, o: Oracle, i: Id)
    requires thread in s.confirms && i in s.w.db.jobs
    ensures Explained(s, ConfirmWith(thread, o), ConfirmNext(s.w, s.confirms[thread], o).w, i)
  {
    var cf := s.confirms[thread];
    if cf.stage.ConfirmExpire? {
      ExpiryOutcome(s.w, cf.stage.e, o, i);
    } else if cf.stage.ConfirmResolve? && ResolveTx(s.w.db, cf.id).Ok? {
      ResolveOutcome(s.w, cf.id, i);
    }
    hide ExpiryNext, ResolveTx;
  }

  lemma StepOutcome(c: Config, s: Sys, a: Action, i: Id)
    requires i in s.w.db.jobs && RowOk(s.w.db.jobs[i], i, s.w.now) && PcInv(c, s.w, s.pc)
    ensures Explained(s, a, Next(c, s, a).w, i)
  {
    hide PcInv, RowOk, WorkerStep, ConfirmNext;
    match a
    case Work(o) => WorkOutcome(c, s, o, i);
    case ConfirmWith(thread, o) =>
      if thread in s.confirms {
        ConfirmOutcome(s, thread, o, i);
      }
    case _ =>
  }

  lemma StateParts(c: Config, s: Sys, i: Id)
    requires Inv(c, s) && i in s.w.db.jobs
    ensures RowOk(s.w.db.jobs[i], i, s.w.now) && PcInv(c, s.w, s.pc)
  {
  }

  /** A committed outcome changes only in two ways: `Expire` marks the job in cleanup, which
      makes it `Failed`; or the worker, at the end of that job, writes the outcome it
      read or committed before such a mark, over the mark. */
  lemma OutcomeChanges(c: Config, t: Trace, k: nat, i: Id)
    requires IsRun(c, t) && At(t, k + 1) && i in t.states[k].w.db.jobs && i in t.states[k + 1].w.db.jobs
    requires Outcome(t.states[k].w.db.jobs[i]).Some?
    requires Outcome(t.states[k + 1].w.db.jobs[i]) != Outcome(t.states[k].w.db.jobs[i])
    ensures Rewritten(t.states[k], t.acts[k], t.states[k].w.db.jobs[i], t.states[k + 1].w.db.jobs[i], i)
  {
    hide IsRun, Inv, Next, Evolves, Rewritten;
    TraceStep(c, t, k);
    StateParts(c, t.states[k], i);
    hide RowOk, PcInv;
    StepOutcome(c, t.states[k], t.acts[k], i);
  }

  // ---- When nothing is written over a mark ----

  /** No confirmation is in flight for a job that is already finished. */
  ghost predicate Timely(s: Sys) {
    forall k :: k in s.confirms ==>
      s.confirms[k].id in s.w.db.jobs && Unresolved(s.w.db.jobs[s.confirms[k].id])
  }

  /** The worker holds an outcome that it is going to write. */
  predicate Holding(pc: Pc) {
    pc.Sweep? || pc.CleanFinish? || pc.Deciding? || pc.Closing?
  }

  /** The row still says what the worker holds. */
  predicate Faithful(s: Sys) {
    Holding(s.pc) ==>
      s.pc.id in s.w.db.jobs && s.w.db.jobs[s.pc.id].pending == Some(s.pc.desired)
  }

  lemma NoReviews(w: World, id: Id, st: State)
    requires DeviceOk(w) && RunOk(w, id, st)
    ensures forall i :: i in w.db.jobs ==> !Unresolved(w.db.jobs[i])
  {
  }

  lemma HoldingRow(c: Config, w: World, pc: Pc)
    requires PcInv(c, w, pc) && Holding(pc)
    ensures RunOk(w, pc.id, Cleaning) && DesiredOk(w, pc.id, pc.desired)
  {
    hide RunOk, DesiredOk, CleanOps, PassOk, Swept;
  }

  lemma NoConfirmation(c: Config, s: Sys)
    requires Inv(c, s) && Timely(s) && Holding(s.pc)
    ensures s.confirms == map[]
    ensures forall i :: i in s.w.db.jobs ==> !Unresolved(s.w.db.jobs[i])
  {
    hide RowsOk, FilesOk, OpsOk, ConfirmOk, PcInv, DeviceOk, RunOk, DesiredOk;
    HoldingRow(c, s.w, s.pc);
    NoReviews(s.w, s.pc.id, Cleaning);
    forall k ensures k !in s.confirms {
    }
  }

  lemma FaithfulWork(c: Config, s: Sys, o: Oracle)
    requires Faithful(s)
    ensures Faithful(Next(c, s, Work(o)))
  {
    hide RecoveryStep, AttemptStep, PublicationStep, EndingStep, SchedulerStep;
    if s.pc.Down? || Recovering(s.pc) {
      RecoveryFlow(s.w, s.pc, o);
    } else if Attempting(s.pc) {
      AttemptFlow(c, s.w, s.pc, o);
    } else if Publication(s.pc) {
      PublicationFlow(c, s.w, s.pc, o);
    } else if Ending(s.pc) {
      FaithfulEnding(s, o);
    } else {
      SchedulerFlow(s.w, s.pc, o);
    }
  }

  lemma FaithfulEnding(s: Sys, o: Oracle)
    requires Ending(s.pc) && Faithful(s)
    ensures var (w', pc') := EndingStep(s.w, s.pc, o); Faithful(s.(w := w', pc := pc'))
  {
    hide ExpiryNext;
  }

  lemma FaithfulStep(c: Config, s: Sys, a: Action)
    requires Inv(c, s) && Timely(s) && Faithful(s)
    ensures Faithful(Next(c, s, a))
  {
    hide Inv;
    if Holding(s.pc) {
      NoConfirmation(c, s);
    }
    hide Timely;
    match a
    case Work(o) =>
      hide WorkerStep;
      FaithfulWork(c, s, o);
    case _ =>
      hide WorkerStep, ConfirmNext;
  }

  lemma {:induction false} FaithfulRun(c: Config, t: Trace, k: nat)
    requires IsRun(c, t) && At(t, k) && forall j :: 0 <= j < k ==> Timely(t.states[j])
    ensures Faithful(t.states[k])
  {
    hide IsRun, Inv, Next, Evolves, Timely;
    StartsDown(c, t);
    if k > 0 {
      FaithfulRun(c, t, k - 1);
      TraceStep(c, t, k - 1);
      FaithfulStep(c, t.states[k - 1], t.acts[k - 1]);
    }
  }

  lemma StartsDown(c: Config, t: Trace)
    requires IsRun(c, t)
    ensures t.states[0] == Init && Timely(t.states[0])
  {
  }

  /** As long as no confirmation was ever in flight for a finished job, a committed outcome
      changes only to `Failed`, and only by `Expire`. */
  lemma OutcomeStands(c: Config, t: Trace, k: nat, i: Id)
    requires IsRun(c, t) && At(t, k + 1) && i in t.states[k].w.db.jobs && i in t.states[k + 1].w.db.jobs
    requires forall j :: 0 <= j <= k ==> Timely(t.states[j])
    requires Outcome(t.states[k].w.db.jobs[i]).Some?
    requires Outcome(t.states[k + 1].w.db.jobs[i]) != Outcome(t.states[k].w.db.jobs[i])
    ensures Marks(t.states[k], t.acts[k], i) && Outcome(t.states[k + 1].w.db.jobs[i]) == Some(Failed)
  {
    hide IsRun, Timely, Marks;
    FaithfulRun(c, t, k);
    OutcomeChanges(c, t, k, i);
    if Writing(t.states[k].pc, i) {
      TraceInv(c, t, k);
      StateParts(c, t.states[k], i);
      hide Inv, PcInv, RowOk;
      HeldRow(c, t.states[k]);
    }
  }

  lemma HeldRow(c: Config, s: Sys)
    requires PcInv(c, s.w, s.pc) && Holding(s.pc)
    ensures s.pc.id in s.w.db.jobs && s.w.db.jobs[s.pc.id].state == Cleaning
  {
    HoldingRow(c, s.w, s.pc);
    hide PcInv;
  }

  // ---- One confirmation at a time is enough ----

  lemma EndingReviews(w: World, pc: Pc, o: Oracle, i: Id)
    requires Ending(pc) && i in w.db.jobs && Unresolved(w.db.jobs[i])
    requires !pc.Releasing? ==> pc.id in w.db.jobs && !Unresolved(w.db.jobs[pc.id])
    ensures var w' := EndingStep(w, pc, o).0; i in w'.db.jobs && Unresolved(w'.db.jobs[i])
  {
  }

  lemma EndingOwn(w: World, pc: Pc)
    requires Ending(pc) && EndingInv(w, pc) && !pc.Releasing?
    ensures pc.id in w.db.jobs && !Unresolved(w.db.jobs[pc.id])
  {
  }

  lemma WorkKeepsReviews(c: Config, s: Sys, o: Oracle, i: Id)
    requires PcInv(c, s.w, s.pc) && Serving(s.pc) && i in s.w.db.jobs && Unresolved(s.w.db.jobs[i])
    ensures var w' := WorkerStep(c, s.w, s.pc, o).0; i in w'.db.jobs && Unresolved(w'.db.jobs[i])
  {
    hide AttemptInv, PublicationInv, EndingInv, SchedulerInv, RecoveryStep;
    if Attempting(s.pc) {
      hide PublicationStep, EndingStep, SchedulerStep;
      PassDb(s.w, s.pc, o);
      hide PassNext;
    } else if Publication(s.pc) {
      hide AttemptStep, EndingStep, SchedulerStep;
    } else if Ending(s.pc) {
      hide AttemptStep, PublicationStep, EndingStep, SchedulerStep;
      if !s.pc.Releasing? {
        EndingOwn(s.w, s.pc);
      }
      EndingReviews(s.w, s.pc, o, i);
    } else {
      hide AttemptStep, PublicationStep, EndingStep;
    }
  }

  lemma PassDb(w: World, pc: Pc, o: Oracle)
    ensures InPass(pc) ==> PassNext(w, pc.id, pc.pass, o).w.db == w.db
  {
  }

  lemma ConfirmKeepsReviews(w: World, cf: Confirmation, o: Oracle, i: Id)
    requires i in w.db.jobs && Unresolved(w.db.jobs[i]) && ConfirmNext(w, cf, o).ConfirmMore?
    ensures var w' := ConfirmNext(w, cf, o).w; i in w'.db.jobs && Unresolved(w'.db.jobs[i])
    ensures ConfirmNext(w, cf, o).cf.id == cf.id
  {
  }

  lemma OneOnly(m: map<nat, Confirmation>, j: nat, k: nat)
    requires |m| <= 1 && j in m && k in m
    ensures j == k
  {
    if j != k {
      assert {j, k} <= m.Keys;
      Admission.SubsetSize({j, k}, m.Keys);
    }
  }

  lemma TimelyWork(c: Config, s: Sys, o: Oracle)
    requires PcInv(c, s.w, s.pc) && Timely(s) && (!Serving(s.pc) ==> s.confirms == map[])
    ensures Timely(Next(c, s, Work(o)))
  {
    hide PcInv, WorkerStep;
    var s' := Next(c, s, Work(o));
    forall k | k in s'.confirms
      ensures s'.confirms[k].id in s'.w.db.jobs && Unresolved(s'.w.db.jobs[s'.confirms[k].id])
    {
      WorkKeepsReviews(c, s, o, s.confirms[k].id);
    }
  }

  lemma TimelyConfirm(c: Config, s: Sys, thread: nat, o: Oracle)
    requires Timely(s) && |s.confirms| <= 1 && thread in s.confirms
    ensures Timely(Next(c, s, ConfirmWith(thread, o)))
  {
    hide WorkerStep, ConfirmNext;
    var s' := Next(c, s, ConfirmWith(thread, o));
    forall k | k in s'.confirms
      ensures s'.confirms[k].id in s'.w.db.jobs && Unresolved(s'.w.db.jobs[s'.confirms[k].id])
    {
      OneOnly(s.confirms, thread, k);
      ConfirmKeepsReviews(s.w, s.confirms[thread], o, s.confirms[thread].id);
    }
  }

  lemma TimelyStep(c: Config, s: Sys, a: Action)
    requires PcInv(c, s.w, s.pc) && (!Serving(s.pc) ==> s.confirms == map[])
    requires Timely(s) && |s.confirms| <= 1
    ensures Timely(Next(c, s, a))
  {
    hide PcInv, WorkerStep, ConfirmNext;
    match a
    case Work(o) => TimelyWork(c, s, o);
    case ConfirmWith(thread, o) =>
      if thread in s.confirms {
        TimelyConfirm(c, s, thread, o);
      }
    case _ =>
  }

  lemma ThreadParts(c: Config, s: Sys)
    requires Inv(c, s)
    ensures PcInv(c, s.w, s.pc) && (!Serving(s.pc) ==> s.confirms == map[])
  {
  }

  /** With at most one confirmation in flight at every moment so far, none is ever in
      flight for a finished job; so outcomes stand as `OutcomeStands` says. */
  lemma {:induction false} OneAtATime(c: Config, t: Trace, k: nat)
    requires IsRun(c, t) && At(t, k) && forall j :: 0 <= j <= k ==> |t.states[j].confirms| <= 1
    ensures forall j :: 0 <= j <= k ==> Timely(t.states[j])
  {
    hide IsRun, Inv, PcInv, Next, Evolves, Timely;
    StartsDown(c, t);
    if k > 0 {
      OneAtATime(c, t, k - 1);
      TraceStep(c, t, k - 1);
      ThreadParts(c, t.states[k - 1]);
      TimelyStep(c, t.states[k - 1], t.acts[k - 1]);
    }
  }
}
