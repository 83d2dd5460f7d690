/** The retry loop: a retryable failure is retried while attempts are left, and the
    configured number of calls is reached. */
module Retries {
  import opened Model
  import opened Transactions
  import opened Protocol
  import opened Execution
  import opened Invariant
  import opened Safety
  import opened Restart
  import opened Traces
  import opened Completion
  import opened Surprises
  import Admission
  import Facts
  import Engine

  // ---- When another attempt is made ----

  /** The attempt failed in a way that may be tried again, and an attempt is left. */
  predicate Retryable(c: Config, pc: Pc) {
    pc.Returned? && pc.reply.err.Failure? && pc.reply.err.retryable && pc.attempt < c.maxAttempts
  }

  lemma AttemptNext(c: Config, s: Sys, o: Oracle)
    requires Attempting(s.pc)
    ensures Next(c, s, Work(o)) == s.(w := AttemptStep(c, s.w, s.pc, o).0, pc := AttemptStep(c, s.w, s.pc, o).1)
  {
    hide AttemptStep;
  }

  /** After an attempt the worker settles exactly when the failure is not retryable, no attempt
      is left, or the context has ended. Otherwise it goes on with the same attempt: to the
      cleanup of the device if the attempt may have touched it, else to counting the retry. */
  lemma RetryDecided(c: Config, t: Trace, k: nat)
    requires IsRun(c, t) && At(t, k + 1) && t.states[k].pc.Returned? && t.acts[k].Work?
    ensures var pc, pc' := t.states[k].pc, t.states[k + 1].pc;
      && (pc'.Settle? <==> !Retryable(c, pc) || t.acts[k].o.late)
      && (pc'.Settle? ==> pc' == Settle(pc.id, pc.reply))
      && (!pc'.Settle? ==>
            pc' == if Engine.NeedsReview(pc.reply) then CleanRetry(pc.id, pc.attempt, pc.reply, Listing)
                   else Retrying(pc.id, pc.attempt, pc.reply))
  {
    assert Leads(c, t, k);
    hide IsRun, Next;
    AttemptNext(c, t.states[k], t.acts[k].o);
  }

  /** Why a step of the retry loop gives the retry up. */
  predicate GaveUp(c: Config, pc: Pc, o: Oracle) {
    match pc
    case Returned(_, _, _) => !Retryable(c, pc) || o.late
    // the operations cannot be listed, the deadline passes, or a report, the last one
    // included, is not a confirmation
    case CleanRetry(_, _, _, pass) => !o.ok || o.late || (pass.Asking? && pass.todo == {} && !pass.ok)
    case Retrying(_, _, _) => !o.ok
    case Backoff(_, _, _) => o.late
    case _ => false
  }

  /** Settlement is reached from the retry loop in no other way; and a back-off that is not cut
      short is followed by the next attempt. */
  lemma RetryGivenUp(c: Config, t: Trace, k: nat)
    requires IsRun(c, t) && At(t, k + 1)
    ensures t.states[k + 1].pc.Settle? && !t.states[k].pc.Settle? ==>
              t.acts[k].Work? && GaveUp(c, t.states[k].pc, t.acts[k].o)
    ensures t.states[k].pc.Backoff? && t.acts[k].Work? && !t.acts[k].o.late ==>
              t.states[k + 1].pc == Calling(t.states[k].pc.id, t.states[k].pc.attempt + 1)
  {
    BackedMoment(c, t, k);
    hide IsRun, Inv, Next, Facts.Backed, GaveUp;
    if t.acts[k].Work? {
      SettledFrom(c, t.states[k], t.acts[k].o);
    } else {
      Facts.OtherPc(c, t.states[k], t.acts[k]);
    }
  }

  lemma BackedMoment(c: Config, t: Trace, k: nat)
    requires IsRun(c, t) && At(t, k + 1)
    ensures Inv(c, t.states[k]) && Facts.Backed(t.states[k])
    ensures t.states[k + 1] == Next(c, t.states[k], t.acts[k])
  {
    assert Leads(c, t, k);
    hide Next, Inv, Facts.Backed;
    TraceInv(c, t, k);
    TraceExec(c, t, k);
    Facts.BackedRun(c, t.acts[..k]);
  }

  lemma SettledFrom(c: Config, s: Sys, o: Oracle)
    requires Inv(c, s) && Facts.Backed(s)
    ensures var pc' := Next(c, s, Work(o)).pc;
      && (pc'.Settle? && !s.pc.Settle? ==> GaveUp(c, s.pc, o))
      && (s.pc.Backoff? && !o.late ==> pc' == Calling(s.pc.id, s.pc.attempt + 1))
  {
    hide RecoveryStep, AttemptStep, PublicationStep, EndingStep, SchedulerStep, WorldInv, ConfirmOk;
    hide Facts.Backed, GaveUp, AttemptInv, RecoveryInv, PublicationInv, EndingInv, SchedulerInv;
    if s.pc.Down? || Recovering(s.pc) {
      RecoveryFlow(s.w, s.pc, o);
    } else if Attempting(s.pc) {
      SettledAttempt(c, s, o);
    } else if !s.pc.Settle? {
      NotSettled(c, s.w, s.pc, o);
    }
  }

  lemma NotSettled(c: Config, w: World, pc: Pc, o: Oracle)
    requires !(pc.Down? || Recovering(pc) || Attempting(pc) || pc.Settle?)
    ensures !WorkerStep(c, w, pc, o).1.Settle?
  {
    hide PassNext, ExpiryNext;
  }

  lemma SettledAttempt(c: Config, s: Sys, o: Oracle)
    requires Attempting(s.pc) && AttemptInv(s.w, s.pc) && Facts.Backed(s)
    ensures var pc' := AttemptStep(c, s.w, s.pc, o).1;
      && (pc'.Settle? ==> GaveUp(c, s.pc, o))
      && (s.pc.Backoff? && !o.late ==> pc' == Calling(s.pc.id, s.pc.attempt + 1))
  {
    hide CleanOps, PassOk, RunOk;
    if s.pc.CleanRetry? {
      var op :| op in s.w.db.ops && s.w.db.ops[op] == s.pc.id;
      assert op in OpsOf(s.w, s.pc.id);
    }
  }

  // ---- All attempts are made ----

  /** A network failure before the device is reached. */
  const Unreachable := Engine.Call(None, Some(Engine.LibraryError(false, false, false, false, true)), false)

  /** The answers under which an attempt fails so and the next one is made. */
  ghost function Repeating(w: World, pc: Pc): Oracle {
    match pc
    case Calling(_, _) => Good.(op := FreshOp(w))
    case OnDevice(_, _, _) => Good.(call := Unreachable)
    case CleanRetry(_, _, _, pass) => Good.(op := if pass.Asking? then Any(pass.todo) else 0)
    case _ => Good
  }

  /** Attempt `k` of job `i` is about to fail, or the next one to be made. */
  ghost predicate Round(s: Sys, i: Id, k: nat) {
    match s.pc
    case OnDevice(id, n, _) => id == i && (n == k || n == k + 1)
    case Returned(id, n, reply) => id == i && n == k && reply == Engine.Classify(Unreachable, false)
    case CleanRetry(id, n, _, pass) => id == i && n == k && (pass.Asking? ==> pass.ok)
    case Retrying(id, n, _) => id == i && n == k
    case Backoff(id, n, _) => id == i && n == k
    case Calling(id, n) => id == i && n == k + 1
    case _ => false
  }

  function RoundLeg(pc: Pc, k: nat): nat {
    match pc
    case OnDevice(_, n, _) => if n == k then 7 else 0
    case Returned(_, _, _) => 6
    case CleanRetry(_, _, _, pass) => if pass.Listing? then 5 else 4
    case Retrying(_, _, _) => 3
    case Backoff(_, _, _) => 2
    case _ => 1
  }

  function RoundToDo(pc: Pc): nat {
    if pc.CleanRetry? && pc.pass.Asking? then |pc.pass.todo| else 0
  }

  /** A step nearer to the next call. */
  ghost predicate Closer(s: Sys, w': World, pc': Pc, i: Id, k: nat) {
    Round(s.(w := w', pc := pc'), i, k)
    && (RoundLeg(pc', k) < RoundLeg(s.pc, k)
        || (RoundLeg(pc', k) == RoundLeg(s.pc, k) && RoundToDo(pc') < RoundToDo(s.pc)))
  }

  lemma CallGoesOn(c: Config, s: Sys, i: Id, k: nat)
    requires s.pc.Calling? && AttemptInv(s.w, s.pc) && Round(s, i, k)
    ensures var (w', pc') := AttemptStep(c, s.w, s.pc, Repeating(s.w, s.pc)); Closer(s, w', pc', i, k)
  {
    FreshOpIsNew(s.w);
    hide FreshOp, CleanOps;
  }

  lemma PassGoesOn(c: Config, s: Sys, i: Id, k: nat)
    requires s.pc.CleanRetry? && Facts.Backed(s) && Round(s, i, k)
    ensures var (w', pc') := AttemptStep(c, s.w, s.pc, Repeating(s.w, s.pc)); Closer(s, w', pc', i, k)
  {
    var op :| op in s.w.db.ops && s.w.db.ops[op] == i;
    assert op in OpsOf(s.w, i);
    if s.pc.pass.Asking? && s.pc.pass.todo != {} {
      Smaller(s.pc.pass.todo, Any(s.pc.pass.todo));
    }
    hide Facts.Backed;
  }

  lemma RoundGoesOn(c: Config, s: Sys, i: Id, k: nat)
    requires Attempting(s.pc) && AttemptInv(s.w, s.pc) && Facts.Backed(s) && Round(s, i, k)
    requires k < c.maxAttempts && RoundLeg(s.pc, k) > 0
    ensures var (w', pc') := AttemptStep(c, s.w, s.pc, Repeating(s.w, s.pc)); Closer(s, w', pc', i, k)
  {
    if s.pc.CleanRetry? {
      hide AttemptStep, AttemptInv, Facts.Backed, Closer;
      PassGoesOn(c, s, i, k);
    } else if s.pc.Calling? {
      hide AttemptStep, AttemptInv, Facts.Backed, Closer;
      CallGoesOn(c, s, i, k);
    } else {
      hide PassNext, StartOperationTx, RetryTx, RunOk, CleanOps, Facts.Backed, FreshOp;
    }
  }

  lemma RoundStep(c: Config, s: Sys, i: Id, k: nat)
    requires Inv(c, s) && Facts.Backed(s) && Round(s, i, k) && k < c.maxAttempts && RoundLeg(s.pc, k) > 0
    ensures var m := Next(c, s, Work(Repeating(s.w, s.pc)));
      Inv(c, m) && Facts.Backed(m) && Closer(s, m.w, m.pc, i, k) && Round(m, i, k)
  {
    var a := Work(Repeating(s.w, s.pc));
    StepSafe(c, s, a);
    Facts.BackedStep(c, s, a);
    RoundAttempts(c, s, i, k);
    hide Inv, Facts.Backed, AttemptInv, Next, AttemptStep, Evolves, Round, Repeating, Closer;
    AttemptNext(c, s, a.o);
    RoundGoesOn(c, s, i, k);
    RoundHere(s, Next(c, s, a), i, k);
  }

  lemma RoundHere(s: Sys, m: Sys, i: Id, k: nat)
    requires Closer(s, m.w, m.pc, i, k)
    ensures Round(m, i, k)
  {
  }

  lemma RoundAttempts(c: Config, s: Sys, i: Id, k: nat)
    requires Inv(c, s) && Round(s, i, k)
    ensures Attempting(s.pc) && AttemptInv(s.w, s.pc)
  {
    assert Attempting(s.pc);
    hide WorldInv, AttemptInv, ConfirmOk, Round;
  }

  /** From the call of one attempt to that of the next. */
  lemma {:induction false} NextAttempt(c: Config, s: Sys, i: Id, k: nat) returns (more: seq<Action>)
    requires Inv(c, s) && Facts.Backed(s) && Round(s, i, k) && k < c.maxAttempts
    ensures var m := Exec(c, s, more);
      Inv(c, m) && Facts.Backed(m) && m.pc.OnDevice? && m.pc.id == i && m.pc.attempt == k + 1
    decreases RoundLeg(s.pc, k), RoundToDo(s.pc)
  {
    if RoundLeg(s.pc, k) == 0 {
      more := [];
      hide Inv, Next, Facts.Backed;
    } else {
      hide Inv, Next, Exec, Facts.Backed, Round, RoundLeg, RoundToDo, Repeating;
      var a := Work(Repeating(s.w, s.pc));
      RoundStep(c, s, i, k);
      var rest := NextAttempt(c, Next(c, s, a), i, k);
      more := [a] + rest;
      ExecCons(c, s, a, rest);
    }
  }

  /** From the queue to the first attempt of a job. */
  lemma FirstAttempt(c: Config) returns (acts: seq<Action>, i: Id)
    requires c.Valid()
    ensures var m := Exec(c, Init, acts); Inv(c, m) && m.pc == Calling(i, 1)
  {
    hide Inv, Next, Exec, NextUp, OnCourse, Leg;
    acts, i := RunToQueued(c);
    var s := Exec(c, Init, acts);
    NextUpLeg(c, s, i, []);
    var rest := Drive(c, s, i, [], 23);
    ExecAppend(c, Init, acts, rest);
    acts := acts + rest;
    WorkspaceLeg(c, Exec(c, Init, acts), i);
    var m;
    acts, m := Go(c, Init, acts, Work(Good));
  }

  lemma WorkspaceLeg(c: Config, s: Sys, i: Id)
    requires Inv(c, s) && OnCourse(c, s, i, []) && Leg(s, i, []) == 23
    ensures Next(c, s, Work(Good)).pc == Calling(i, 1)
  {
    assert s.pc == MakeWorkspace(i);
    hide WorldInv, ConfirmOk, OnCourse, Leg, CleanOps, RunOk;
  }

  lemma {:induction false} RunToAttempt(c: Config, k: nat) returns (acts: seq<Action>, i: Id)
    requires c.Valid() && 1 <= k <= c.maxAttempts
    ensures var m := Exec(c, Init, acts);
      Inv(c, m) && m.pc.OnDevice? && m.pc.id == i && m.pc.attempt == k
  {
    hide Inv, Next, Exec;
    if k == 1 {
      acts, i := FirstAttempt(c);
    } else {
      acts, i := RunToAttempt(c, k - 1);
    }
    Facts.BackedRun(c, acts);
    hide Facts.Backed;
    var rest := NextAttempt(c, Exec(c, Init, acts), i, k - 1);
    ExecAppend(c, Init, acts, rest);
    acts := acts + rest;
  }

  /** The bound on engine calls is reached: some run makes exactly the configured number of
      calls for one job, and records as many attempts. */
  lemma AllAttempts(c: Config) returns (acts: seq<Action>, i: Id)
    requires c.Valid()
    ensures var w := Exec(c, Init, acts).w;
      i in w.db.jobs && Count(w.hist.calls, i) == c.maxAttempts && w.db.jobs[i].attempts == c.maxAttempts
  {
    acts, i := RunToAttempt(c, c.maxAttempts);
    Admission.CountRun(c, acts);
    hide Exec, Inv, Admission.Counted;
  }
}
