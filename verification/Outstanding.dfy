/** What it means for an operation to be outstanding: it is from the moment it is
    recorded until a cleanup report confirms it or the operator attests its job. */
module Outstanding {
  import opened Model
  import opened Protocol
  import opened Invariant
  import opened Traces

  /** A library call for this operation that reports it confirmed, without error. */
  predicate ReportConfirms(s: Sys, a: Action, op: OpId) {
    a.Work? && InPass(s.pc) && s.pc.pass.Asking? && op in s.pc.pass.todo
    && a.o.op == op && a.o.ok && !a.o.late
  }

  /** The operator attests the job of this operation while it is in review. */
  predicate OperatorAttests(s: Sys, a: Action, op: OpId) {
    a.Confirm? && op in s.w.db.ops && s.w.db.ops[op] == a.id
    && a.id in s.w.db.jobs && Unresolved(s.w.db.jobs[a.id])
  }

  lemma ExpiryHistory(w: World, e: Expiry, o: Oracle)
    ensures ExpiryNext(w, e, o).w.hist == w.hist && ExpiryNext(w, e, o).w.db.ops == w.db.ops
  {
  }

  lemma AttemptHistory(c: Config, w: World, pc: Pc, o: Oracle, op: OpId)
    requires Attempting(pc)
    ensures var w' := AttemptStep(c, w, pc, o).0;
      && (op in w.hist.dirty && op !in w'.hist.dirty ==>
            pc.CleanRetry? && pc.pass.Asking? && op in pc.pass.todo && o.op == op && o.ok && !o.late)
      && (op in w'.db.ops && op !in w.db.ops ==>
            op in w'.hist.dirty && AttemptStep(c, w, pc, o).1.OnDevice? && AttemptStep(c, w, pc, o).1.op == op)
  {
  }

  lemma EndingHistory(w: World, pc: Pc, o: Oracle, op: OpId)
    requires Ending(pc)
    ensures var w' := EndingStep(w, pc, o).0;
      && (op in w.hist.dirty && op !in w'.hist.dirty ==>
            pc.CleanFinish? && pc.pass.Asking? && op in pc.pass.todo && o.op == op && o.ok && !o.late)
      && w'.db.ops == w.db.ops
  {
    if pc.FinishExpire? {
      ExpiryHistory(w, pc.e, o);
    }
  }

  lemma RecoveryHistory(w: World, pc: Pc, o: Oracle, op: OpId)
    requires pc.Down? || Recovering(pc)
    ensures var w' := RecoveryStep(w, pc, o).0;
      && (op in w.hist.dirty && op !in w'.hist.dirty ==>
            pc.RecoverClean? && pc.pass.Asking? && op in pc.pass.todo && o.op == op && o.ok && !o.late)
      && w'.db.ops == w.db.ops
  {
    if pc.RecoverExpire? {
      ExpiryHistory(w, pc.e, o);
    }
  }

  lemma PublicationHistory(c: Config, w: World, pc: Pc, o: Oracle)
    requires Publication(pc)
    ensures var w' := PublicationStep(c, w, pc, o).0; w'.hist.dirty == w.hist.dirty && w'.db.ops == w.db.ops
  {
  }

  lemma SchedulerHistory(w: World, pc: Pc, o: Oracle)
    requires pc.Idle? || pc.SchedulerExpire? || pc.Claiming? || pc.Stopped?
    ensures var w' := SchedulerStep(w, pc, o).0; w'.hist.dirty == w.hist.dirty && w'.db.ops == w.db.ops
  {
    if pc.SchedulerExpire? {
      ExpiryHistory(w, pc.e, o);
    }
  }

  lemma WorkerHistory(c: Config, w: World, pc: Pc, o: Oracle, op: OpId)
    ensures var w' := WorkerStep(c, w, pc, o).0;
      && (op in w.hist.dirty && op !in w'.hist.dirty ==>
            InPass(pc) && pc.pass.Asking? && op in pc.pass.todo && o.op == op && o.ok && !o.late)
      && (op in w'.db.ops && op !in w.db.ops ==>
            op in w'.hist.dirty && WorkerStep(c, w, pc, o).1.OnDevice? && WorkerStep(c, w, pc, o).1.op == op)
  {
    hide RecoveryStep, AttemptStep, PublicationStep, EndingStep, SchedulerStep;
    if pc.Down? || Recovering(pc) {
      RecoveryHistory(w, pc, o, op);
    } else if Attempting(pc) {
      AttemptHistory(c, w, pc, o, op);
    } else if Publication(pc) {
      PublicationHistory(c, w, pc, o);
    } else if Ending(pc) {
      EndingHistory(w, pc, o, op);
    } else {
      SchedulerHistory(w, pc, o);
    }
  }

  /** Only a confirming report or an attestation ends the outstanding state of an
      operation, and every operation is outstanding as soon as it is recorded. */
  lemma OutstandingUntilConfirmed(c: Config, s: Sys, a: Action, op: OpId)
    ensures var s' := Next(c, s, a);
      && (op in s.w.hist.dirty && op !in s'.w.hist.dirty ==>
            ReportConfirms(s, a, op) || OperatorAttests(s, a, op))
      && (op in s'.w.db.ops && op !in s.w.db.ops ==>
            op in s'.w.hist.dirty && s'.pc.OnDevice? && s'.pc.op == op)
  {
    match a
    case Work(o) =>
      hide WorkerStep;
      WorkerHistory(c, s.w, s.pc, o, op);
    case ConfirmWith(thread, o) =>
      if thread in s.confirms && s.confirms[thread].stage.ConfirmExpire? {
        ExpiryHistory(s.w, s.confirms[thread].stage.e, o);
      }
    case Confirm(thread, id) =>
    case Crash =>
    case _ =>
  }

  // ---- Along a run ----

  /** The step at this moment confirms the operation or attests its job. */
  predicate ConfirmedAt(t: Trace, k: nat, op: OpId)
    requires k < |t.acts| && k < |t.states|
  {
    ReportConfirms(t.states[k], t.acts[k], op) || OperatorAttests(t.states[k], t.acts[k], op)
  }

  /** An outstanding operation that is outstanding no more was confirmed or attested in between. */
  lemma {:induction false} ConfirmedBetween(c: Config, t: Trace, j: nat, k: nat, op: OpId) returns (a: nat)
    requires IsRun(c, t) && j <= k && At(t, k)
    requires op in t.states[j].w.hist.dirty && op !in t.states[k].w.hist.dirty
    ensures j <= a < k && ConfirmedAt(t, a, op)
    decreases k
  {
    hide IsRun, Next, ReportConfirms, OperatorAttests, Inv, Evolves;
    if op in t.states[k - 1].w.hist.dirty {
      TraceStep(c, t, k - 1);
      OutstandingUntilConfirmed(c, t.states[k - 1], t.acts[k - 1], op);
      a := k - 1;
    } else {
      a := ConfirmedBetween(c, t, j, k - 1, op);
    }
  }

  lemma StepRecords(c: Config, t: Trace, r: nat, op: OpId)
    requires IsRun(c, t) && At(t, r + 1)
    requires op !in t.states[r].w.db.ops && op in t.states[r + 1].w.db.ops
    ensures t.states[r + 1].pc.OnDevice? && t.states[r + 1].pc.op == op && op in t.states[r + 1].w.hist.dirty
  {
    hide IsRun, Next, Inv, Evolves, ReportConfirms, OperatorAttests;
    TraceStep(c, t, r);
    OutstandingUntilConfirmed(c, t.states[r], t.acts[r], op);
  }

  lemma NothingAtStart(c: Config, t: Trace)
    requires IsRun(c, t)
    ensures t.states[0].w.db.ops == map[]
  {
  }

  /** Every recorded operation was recorded at some moment, by starting on the device. */
  lemma {:induction false} RecordedAt(c: Config, t: Trace, k: nat, op: OpId) returns (r: nat)
    requires IsRun(c, t) && At(t, k) && op in t.states[k].w.db.ops
    ensures r < k && op !in t.states[r].w.db.ops && op in t.states[r + 1].w.db.ops
    ensures t.states[r + 1].pc.OnDevice? && t.states[r + 1].pc.op == op && op in t.states[r + 1].w.hist.dirty
  {
    hide IsRun;
    NothingAtStart(c, t);
    if k > 0 {
      if op in t.states[k - 1].w.db.ops {
        r := RecordedAt(c, t, k - 1, op);
      } else {
        r := k - 1;
        StepRecords(c, t, r, op);
      }
    }
  }

  /** A recorded operation that is not outstanding was confirmed or attested after it started. */
  lemma ConfirmedSince(c: Config, t: Trace, k: nat, op: OpId) returns (r: nat, a: nat)
    requires IsRun(c, t) && At(t, k) && op in t.states[k].w.db.ops && op !in t.states[k].w.hist.dirty
    ensures r < a < k && ConfirmedAt(t, a, op)
    ensures op !in t.states[r].w.db.ops && op in t.states[r + 1].w.db.ops
    ensures t.states[r + 1].pc.OnDevice? && t.states[r + 1].pc.op == op
  {
    hide IsRun;
    r := RecordedAt(c, t, k, op);
    a := ConfirmedBetween(c, t, r + 1, k, op);
  }
}
