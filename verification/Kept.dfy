/** When a job that is not completed ends with its artifact still stored. */
module Kept {
  import opened Model
  import opened Protocol
  import opened Execution
  import opened Invariant
  import opened Safety
  import opened Runs
  import opened Traces
  import opened Outcomes
  import opened Surprises
  import Effects

  /** The job has ended, not completed, and its artifact is there. */
  predicate KeptArtifact(w: World, i: Id) {
    i in w.db.jobs && Terminal(w.db.jobs[i].state) && w.db.jobs[i].state != Completed && i in w.fs.artifacts
  }

  predicate NotDue(w: World, i: Id) {
    i in w.db.jobs && (w.db.jobs[i].expiresAt.None? || w.now < w.db.jobs[i].expiresAt.value)
  }

  // ---- What is gone stays gone ----

  ghost predicate Gone(w: World, i: Id) {
    i in w.db.jobs && Rank(w.db.jobs[i].state) >= 3 && i !in w.fs.artifacts
  }

  lemma GoneStays(w: World, w': World, i: Id)
    requires Evolves(w, w') && Gone(w, i)
    ensures Gone(w', i)
  {
    assert RowEvolves(w, w', i);
  }

  lemma {:induction false} GoneRun(c: Config, s: Sys, more: seq<Action>, i: Id)
    requires Inv(c, s) && Gone(s.w, i)
    ensures Gone(Exec(c, s, more).w, i)
  {
    if more != [] {
      hide Inv, Next, Gone, Evolves;
      var init, a := more[..|more| - 1], more[|more| - 1];
      GoneRun(c, s, init, i);
      RunLater(c, s, init);
      StepSafe(c, Exec(c, s, init), a);
      GoneStays(Exec(c, s, init).w, Exec(c, s, more).w, i);
    }
  }

  lemma StoredUnmarked(c: Config, s: Sys, i: Id)
    requires Inv(c, s) && i in s.w.fs.artifacts
    ensures i in s.w.db.jobs && !s.w.db.jobs[i].artifactExpired
  {
    hide PcInv, ConfirmOk, RowsOk, DeviceOk, OpsOk;
    assert FileOk(c, s.w, i);
  }

  lemma NotKept(c: Config, s: Sys, more: seq<Action>, i: Id)
    requires Inv(c, s) && i in s.w.db.jobs && Rank(s.w.db.jobs[i].state) >= 3
    requires i !in s.w.fs.artifacts || Outcome(s.w.db.jobs[i]) == Some(Completed)
    ensures !KeptArtifact(Exec(c, s, more).w, i)
  {
    hide Inv, Exec;
    if i !in s.w.fs.artifacts {
      GoneRun(c, s, more, i);
    } else {
      RunLater(c, s, more);
      var m := Exec(c, s, more);
      assert RowLater(s.w.db.jobs[i], m.w.db.jobs[i]);
      if i in m.w.fs.artifacts {
        StoredUnmarked(c, m, i);
      }
    }
  }

  // ---- A confirmation before expiry leaves it ----

  predicate Stored(w: World, i: Id) {
    NotDue(w, i) && i in w.fs.artifacts
  }

  lemma ConfirmExpiry(w: World, cf: Confirmation, o: Oracle, i: Id)
    requires i in w.db.jobs
    ensures var w' := ConfirmNext(w, cf, o).w; i in w'.db.jobs && w'.db.jobs[i].expiresAt == w.db.jobs[i].expiresAt
  {
  }

  lemma StoredStep(c: Config, s: Sys, thread: nat, o: Oracle, i: Id)
    requires Inv(c, s) && Stored(s.w, i)
    ensures Stored(Next(c, s, ConfirmWith(thread, o)).w, i)
  {
    hide WorldInv, PcInv, ConfirmOk, WorkerStep, ConfirmNext, Evolves;
    if thread in s.confirms {
      Effects.ConfirmEffect(c, s.w, s.confirms[thread], o);
      ConfirmKeepsClock(s.w, s.confirms[thread], o);
      ConfirmExpiry(s.w, s.confirms[thread], o, i);
    }
  }

  lemma {:induction false} StoredRun(c: Config, s: Sys, thread: nat, more: seq<Action>, i: Id)
    requires Inv(c, s) && OfThread(more, thread) && Stored(s.w, i)
    ensures Stored(Exec(c, s, more).w, i)
  {
    if more != [] {
      hide Inv, Next, Stored;
      var init := more[..|more| - 1];
      StoredRun(c, s, thread, init, i);
      ThreadRun(c, s, thread, init);
      StoredStep(c, Exec(c, s, init), thread, more[|more| - 1].o, i);
    }
  }

  lemma CanKeep(c: Config, s: Sys, thread: nat, i: Id) returns (more: seq<Action>)
    requires Inv(c, s) && Serving(s.pc) && thread !in s.confirms && i in s.w.db.jobs && Unresolved(s.w.db.jobs[i])
    requires Stored(s.w, i) && s.w.db.jobs[i].pending != Some(Completed)
    ensures KeptArtifact(Exec(c, s, more).w, i)
  {
    hide Inv, Next, Exec;
    StateParts(c, s, i);
    hide PcInv;
    var m, rest := Confirmed(c, s, thread, i);
    StoredRun(c, m, thread, rest, i);
    RunLater(c, m, rest);
    var n := Exec(c, m, rest);
    assert RowLater(m.w.db.jobs[i], n.w.db.jobs[i]);
    StoredUnmarked(c, n, i);
    more := [Confirm(thread, i)] + rest;
    ExecCons(c, s, Confirm(thread, i), rest);
  }

  /** A job in review, before its artifact has expired, while the service is up: it can end
      with its artifact stored and not completed exactly when the artifact is there and
      the job is not committed to completion. */
  lemma KeptExactly(c: Config, s: Sys, thread: nat, i: Id)
    requires Inv(c, s) && Serving(s.pc) && thread !in s.confirms && i in s.w.db.jobs && Unresolved(s.w.db.jobs[i])
    requires NotDue(s.w, i)
    ensures (exists more: seq<Action> :: KeptArtifact(Exec(c, s, more).w, i))
            <==> i in s.w.fs.artifacts && s.w.db.jobs[i].pending != Some(Completed)
  {
    hide Inv, Exec, KeptArtifact;
    if i in s.w.fs.artifacts && s.w.db.jobs[i].pending != Some(Completed) {
      var more := CanKeep(c, s, thread, i);
    } else {
      forall more: seq<Action> ensures !KeptArtifact(Exec(c, s, more).w, i) {
        NotKept(c, s, more, i);
      }
    }
  }

  // ---- The worker's own end of a job ----

  /** If the artifact is still there, the outcome is completion or the row is marked. */
  predicate Fits(w: World, id: Id, outcome: Option<State>) {
    id in w.fs.artifacts ==>
      outcome == Some(Completed) || (id in w.db.jobs && w.db.jobs[id].artifactExpired)
  }

  function OutcomeOf(w: World, id: Id): Option<State> {
    if id in w.db.jobs then Outcome(w.db.jobs[id]) else None
  }

  /** Past the removal of a job's files, when nothing failed. */
  predicate Cleared(s: Sys) {
    match s.pc
    case CleanFinish(id, desired, bad, _) => !bad ==> Fits(s.w, id, Some(desired))
    case Deciding(id, desired, bad, _) => !bad ==> Fits(s.w, id, Some(desired))
    case FinishExpire(id, _) => Fits(s.w, id, OutcomeOf(s.w, id))
    case Reading(id) => Fits(s.w, id, OutcomeOf(s.w, id))
    case Closing(id, desired) => Fits(s.w, id, Some(desired))
    case _ => true
  }

  predicate PastSweep(pc: Pc) {
    pc.CleanFinish? || pc.Deciding? || pc.FinishExpire? || pc.Reading? || pc.Closing?
  }

  lemma FitsOn(w: World, w': World, id: Id, outcome: Option<State>)
    requires Evolves(w, w') && id in w.db.jobs && Rank(w.db.jobs[id].state) >= 3
    ensures Fits(w, id, outcome) ==> Fits(w', id, outcome)
    ensures Outcome(w.db.jobs[id]).Some? && Fits(w, id, OutcomeOf(w, id)) ==> Fits(w', id, OutcomeOf(w', id))
  {
    assert RowEvolves(w, w', id);
  }

  lemma PastSweepRow(c: Config, w: World, pc: Pc)
    requires PcInv(c, w, pc) && (PastSweep(pc) || pc.Sweep?)
    ensures pc.id in w.db.jobs && w.db.jobs[pc.id].state == Cleaning
    ensures pc.Deciding? ==> w.db.jobs[pc.id].pending == Some(pc.desired) || w.db.jobs[pc.id].artifactExpired
  {
    if Holding(pc) {
      HoldingRow(c, w, pc);
      hide PcInv, OutcomeOk;
    } else {
      FinishedRow(c, w, pc);
      hide PcInv, RunOk;
    }
  }

  lemma FinishedRow(c: Config, w: World, pc: Pc)
    requires PcInv(c, w, pc) && (pc.FinishExpire? || pc.Reading?)
    ensures pc.id in w.db.jobs && w.db.jobs[pc.id].state == Cleaning
  {
    hide ScanOk, CleanOps;
  }

  lemma SweptClear(w: World, pc: Pc, o: Oracle)
    requires pc.Sweep?
    ensures var (w', pc') := EndingStep(w, pc, o); Cleared(Sys(w', pc', map[], NoUpload))
  {
    hide PassNext, ExpiryNext;
  }

  /** Where the worker goes next, and with what. */
  lemma EndingGoes(w: World, pc: Pc, o: Oracle)
    requires Ending(pc) && !pc.Sweep?
    ensures var pc' := EndingStep(w, pc, o).1;
      PastSweep(pc') ==>
        PastSweep(pc) && pc'.id == pc.id
        && match pc'
           case CleanFinish(_, desired, bad, _) => pc.CleanFinish? && pc.desired == desired && pc.bad == bad
           case Deciding(_, desired, bad, _) => pc.CleanFinish? && pc.desired == desired && pc.bad == bad
           case FinishExpire(_, _) => (pc.Deciding? && !pc.bad && EndingStep(w, pc, o).0 == w) || pc.FinishExpire?
           case Reading(_) => pc.FinishExpire?
           case Closing(_, desired) =>
             pc.Reading? && EndingStep(w, pc, o).0 == w
             && pc.id in w.db.jobs && w.db.jobs[pc.id].pending == Some(desired)
  {
    hide PassNext, ExpiryNext;
  }

  lemma OtherGoes(c: Config, w: World, pc: Pc, o: Oracle)
    requires !Ending(pc)
    ensures !PastSweep(WorkerStep(c, w, pc, o).1)
  {
    hide RecoveryStep, AttemptStep, PublicationStep, EndingStep, SchedulerStep;
    if pc.Down? || Recovering(pc) {
      RecoveryFlow(w, pc, o);
    } else if Attempting(pc) {
      AttemptFlow(c, w, pc, o);
    } else if Publication(pc) {
      PublicationFlow(c, w, pc, o);
    } else {
      SchedulerFlow(w, pc, o);
    }
  }

  lemma ClearedWork(c: Config, s: Sys, o: Oracle)
    requires PcInv(c, s.w, s.pc) && Cleared(s)
    requires Evolves(s.w, WorkerStep(c, s.w, s.pc, o).0)
    requires PastSweep(s.pc) ==> Outcome(s.w.db.jobs[s.pc.id]).Some?
    ensures Cleared(Next(c, s, Work(o)))
  {
    hide PcInv, RecoveryStep, AttemptStep, PublicationStep, EndingStep, SchedulerStep, Evolves;
    if s.pc.Sweep? {
      SweptClear(s.w, s.pc, o);
    } else if Ending(s.pc) {
      EndingGoes(s.w, s.pc, o);
      if PastSweep(s.pc) {
        PastSweepRow(c, s.w, s.pc);
        var w' := EndingStep(s.w, s.pc, o).0;
        FitsOn(s.w, w', s.pc.id, if s.pc.CleanFinish? then Some(s.pc.desired) else None);
      }
    } else {
      OtherGoes(c, s.w, s.pc, o);
    }
  }

  lemma ClearedStep(c: Config, s: Sys, a: Action)
    requires Inv(c, s) && Cleared(s)
    ensures Cleared(Next(c, s, a))
  {
    hide Inv, PcInv, Evolves, Next, Cleared, RowOk;
    StepSafe(c, s, a);
    if PastSweep(s.pc) {
      PcPart(c, s);
      PastSweepRow(c, s.w, s.pc);
      StateParts(c, s, s.pc.id);
      CleaningOutcome(s.w, s.pc.id);
    }
    if a.Work? {
      PcPart(c, s);
      WorkNext(c, s, a.o);
      ClearedWork(c, s, a.o);
    } else {
      OtherNext(c, s, a);
      ClearedOther(s, Next(c, s, a));
    }
  }

  lemma PcPart(c: Config, s: Sys)
    requires Inv(c, s)
    ensures PcInv(c, s.w, s.pc)
  {
  }

  lemma CleaningOutcome(w: World, i: Id)
    requires i in w.db.jobs && RowOk(w.db.jobs[i], i, w.now) && w.db.jobs[i].state == Cleaning
    ensures Outcome(w.db.jobs[i]).Some?
  {
  }

  lemma WorkNext(c: Config, s: Sys, o: Oracle)
    ensures Next(c, s, Work(o)).w == WorkerStep(c, s.w, s.pc, o).0
  {
    hide WorkerStep;
  }

  lemma OtherNext(c: Config, s: Sys, a: Action)
    requires !a.Work?
    ensures Next(c, s, a).pc == s.pc || Next(c, s, a).pc.Down?
  {
    hide ConfirmNext;
  }

  lemma ClearedOther(s: Sys, m: Sys)
    requires Cleared(s) && Evolves(s.w, m.w) && (m.pc == s.pc || m.pc.Down?)
    requires PastSweep(s.pc) ==>
               && s.pc.id in s.w.db.jobs && s.w.db.jobs[s.pc.id].state == Cleaning
               && Outcome(s.w.db.jobs[s.pc.id]).Some?
    ensures Cleared(m)
  {
    hide Evolves;
    if PastSweep(s.pc) {
      FitsOn(s.w, m.w, s.pc.id,
             if s.pc.CleanFinish? || s.pc.Deciding? || s.pc.Closing? then Some(s.pc.desired) else None);
    }
  }

  lemma {:induction false} ClearedRun(c: Config, t: Trace, k: nat)
    requires IsRun(c, t) && At(t, k)
    ensures Cleared(t.states[k])
  {
    hide IsRun, Inv, Next, Evolves, Cleared;
    NothingSwept(c, t);
    if k > 0 {
      ClearedRun(c, t, k - 1);
      TraceStep(c, t, k - 1);
      ClearedStep(c, t.states[k - 1], t.acts[k - 1]);
    }
  }

  lemma NothingSwept(c: Config, t: Trace)
    requires IsRun(c, t)
    ensures Cleared(t.states[0])
  {
  }

  lemma ClosingGone(c: Config, s: Sys)
    requires Inv(c, s) && Cleared(s) && s.pc.Closing? && s.pc.desired != Completed
    ensures s.pc.id !in s.w.fs.artifacts
  {
    hide Inv;
    if s.pc.id in s.w.fs.artifacts {
      StoredUnmarked(c, s, s.pc.id);
    }
  }

  /** The step that writes a job's end, when it is the worker's own. */
  lemma CloseStep(c: Config, s: Sys, a: Action)
    requires s.pc.Closing? && s.pc.id in s.w.db.jobs && s.w.db.jobs[s.pc.id].state == Cleaning
    requires !Unresolved(s.w.db.jobs[s.pc.id])
    ensures var m := Next(c, s, a); var id := s.pc.id;
      id in m.w.db.jobs && Terminal(m.w.db.jobs[id].state) ==>
        m.w.db.jobs[id].state == s.pc.desired && (id in m.w.fs.artifacts ==> id in s.w.fs.artifacts)
  {
    match a
    case Work(o) =>
      hide RecoveryStep, AttemptStep, PublicationStep, SchedulerStep, PassNext, ExpiryNext;
    case ConfirmWith(thread, o) =>
      hide WorkerStep;
    case _ =>
      hide WorkerStep, ConfirmNext;
  }

  lemma ClosingRow(c: Config, s: Sys)
    requires Inv(c, s) && s.pc.Closing?
    ensures s.pc.id in s.w.db.jobs && s.w.db.jobs[s.pc.id].state == Cleaning
    ensures !Unresolved(s.w.db.jobs[s.pc.id])
  {
    PcPart(c, s);
    HoldingRow(c, s.w, s.pc);
    hide Inv, PcInv;
  }

  /** When the worker itself ends a job otherwise than completed, the artifact is gone:
      what is kept is kept by way of review. */
  lemma WorkerLeavesNone(c: Config, t: Trace, k: nat, id: Id)
    requires IsRun(c, t) && At(t, k + 1) && t.states[k].pc.Closing? && t.states[k].pc.id == id
    requires id in t.states[k + 1].w.db.jobs && Terminal(t.states[k + 1].w.db.jobs[id].state)
    requires t.states[k + 1].w.db.jobs[id].state != Completed
    ensures id !in t.states[k + 1].w.fs.artifacts
  {
    hide IsRun, Inv, Next, Evolves, Cleared;
    ClearedRun(c, t, k);
    TraceStep(c, t, k);
    ClosingRow(c, t.states[k]);
    CloseStep(c, t.states[k], t.acts[k]);
    ClosingGone(c, t.states[k]);
  }
}
