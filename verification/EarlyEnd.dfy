/** Attempts that never reach the device: they ask for no review, and end their job
    without one. */
module EarlyEnd {
  import opened Model
  import opened Transactions
  import opened Protocol
  import opened Execution
  import opened Invariant
  import opened Safety
  import opened Restart
  import opened Traces
  import opened Completion
  import opened Surprises
  import Boundary
  import Retries
  import Facts
  import Engine

  // ---- Where reviews come from ----

  /** Only a job that has a recorded operation is reviewed. */
  lemma ReviewRecorded(c: Config, t: Trace, k: nat) returns (op: OpId)
    requires IsRun(c, t) && At(t, k)
    requires var pc := t.states[k].pc; ((pc.Finishing? || pc.Sweep? || pc.Deciding?) && pc.review) || pc.CleanFinish?
    ensures op in t.states[k].w.db.ops && t.states[k].w.db.ops[op] == t.states[k].pc.id
  {
    TraceExec(c, t, k);
    Facts.BackedRun(c, t.acts[..k]);
    hide IsRun, Exec;
    op :| op in t.states[k].w.db.ops && t.states[k].w.db.ops[op] == t.states[k].pc.id;
  }

  /** An attempt ends before an operation is recorded, with this code: the reply asks for
      neither review nor another attempt. */
  lemma EarlyReply(c: Config, t: Trace, k: nat)
    requires IsRun(c, t) && At(t, k + 1) && t.states[k].pc.Calling? && t.acts[k].Work?
    ensures var pc, o := t.states[k].pc, t.acts[k].o;
      && (t.states[k + 1].w.db.ops == t.states[k].w.db.ops <==> t.states[k + 1].pc.Returned?)
      && (t.states[k + 1].pc.Returned? ==>
            t.states[k + 1].pc == Returned(pc.id, pc.attempt, Engine.Reply(false,
              Engine.Failure(if o.alt then o.code else StorageFailed, false, false))))
  {
    assert Leads(c, t, k);
    hide IsRun, Next;
    Retries.AttemptNext(c, t.states[k], t.acts[k].o);
  }

  /** Something of the job could not be removed. */
  predicate Unremoved(pc: Pc, i: Id) {
    (pc.Sweep? || pc.CleanFinish? || pc.Deciding?) && pc.bad && pc.id == i
  }

  /** A local removal for job `i` fails. */
  predicate RemovalFails(s: Sys, a: Action, i: Id) {
    s.pc.Sweep? && s.pc.id == i && a.Work? && !a.o.ok
  }

  lemma UnremovedEnding(w: World, pc: Pc, o: Oracle, i: Id)
    requires Ending(pc)
    ensures Unremoved(EndingStep(w, pc, o).1, i) ==> Unremoved(pc, i) || (pc.Sweep? && pc.id == i && !o.ok)
  {
    hide PassNext, ExpiryNext;
  }

  lemma UnremovedElse(c: Config, w: World, pc: Pc, o: Oracle, i: Id)
    requires !Ending(pc)
    ensures !Unremoved(WorkerStep(c, w, pc, o).1, i)
  {
    hide PassNext, ExpiryNext;
  }

  lemma UnremovedStep(c: Config, s: Sys, a: Action, i: Id)
    ensures Unremoved(Next(c, s, a).pc, i) ==> Unremoved(s.pc, i) || RemovalFails(s, a, i)
  {
    hide EndingStep, Unremoved;
    if a.Work? {
      if Ending(s.pc) {
        UnremovedEnding(s.w, s.pc, a.o, i);
        EndingNext(c, s, a.o);
      } else {
        UnremovedElse(c, s.w, s.pc, a.o, i);
        hide WorkerStep;
      }
    } else {
      Facts.OtherPc(c, s, a);
      DownIsDone(i);
      hide Next;
    }
  }

  lemma DownIsDone(i: Id)
    ensures !Unremoved(Down, i)
  {
  }

  lemma {:induction false} WhenUnremoved(c: Config, t: Trace, k: nat, i: Id) returns (r: nat)
    requires IsRun(c, t) && At(t, k) && Unremoved(t.states[k].pc, i)
    ensures r < k && RemovalFails(t.states[r], t.acts[r], i)
  {
    assert k > 0;
    assert Leads(c, t, k - 1);
    hide IsRun, Next, Unremoved, RemovalFails;
    UnremovedStep(c, t.states[k - 1], t.acts[k - 1], i);
    r := k - 1;
    if Unremoved(t.states[k - 1].pc, i) {
      r := WhenUnremoved(c, t, k - 1, i);
    }
  }

  /** The worker puts its job in review only for a cause: a local removal failed, or the job
      has a recorded operation. */
  lemma ReviewCause(c: Config, t: Trace, k: nat) returns (r: nat)
    requires IsRun(c, t) && At(t, k + 1) && t.states[k].pc.Deciding? && t.acts[k].Work?
    requires !t.states[k + 1].pc.FinishExpire?
    ensures var s := t.states[k];
      if s.pc.bad then r < k && RemovalFails(t.states[r], t.acts[r], s.pc.id)
      else r in s.w.db.ops && s.w.db.ops[r] == s.pc.id
  {
    assert Leads(c, t, k);
    var s := t.states[k];
    hide IsRun, Next, RemovalFails;
    EndingNext(c, s, t.acts[k].o);
    if s.pc.bad {
      r := WhenUnremoved(c, t, k, s.pc.id);
    } else {
      r := ReviewRecorded(c, t, k);
    }
  }

  // ---- An early failure to its end ----

  /** The row of a job that is to end so, with nothing published. */
  predicate Doomed(w: World, i: Id, desired: State, code: Code) {
    i in w.db.jobs && w.db.jobs[i].errorCode == code && w.db.jobs[i].pending == Some(desired)
    && w.db.jobs[i].expiresAt.None?
  }

  predicate Ended(w: World, i: Id, desired: State, code: Code) {
    i in w.db.jobs && w.db.jobs[i].errorCode == code && w.db.jobs[i].state == desired
  }

  /** What an attempt that ends early with this code makes of the job. */
  function Fate(cancelled: bool, code: Code): (State, Code) {
    if cancelled then (Cancelled, CancelledCode) else (Failed, code)
  }

  predicate Fated(w: World, i: Id, code: Code, desired: State, written: Code) {
    i in w.db.jobs && (desired, written) == Fate(w.db.jobs[i].cancelRequested, code)
  }

  /** Job `i`, whose attempt ended early with `code`, on its way to this end. */
  predicate Falling(s: Sys, i: Id, code: Code, desired: State, written: Code) {
    && !s.w.db.device.quarantined
    && match s.pc
       case Calling(id, _) => id == i && Fated(s.w, i, code, desired, written)
       case Returned(id, _, reply) =>
         id == i && reply == Engine.Reply(false, Engine.Failure(code, false, false))
         && Fated(s.w, i, code, desired, written)
       case Settle(id, reply) =>
         id == i && reply == Engine.Reply(false, Engine.Failure(code, false, false))
         && Fated(s.w, i, code, desired, written)
       case Finishing(id, d, w, review) =>
         id == i && d == desired && w == written && !review && Fated(s.w, i, code, desired, written)
         && s.w.db.jobs[i].state == Running
       case Sweep(id, d, review, _, bad) =>
         id == i && d == desired && !review && !bad && Doomed(s.w, i, desired, written)
       case Deciding(id, d, bad, review) =>
         id == i && d == desired && !bad && !review && Doomed(s.w, i, desired, written)
       case FinishExpire(id, _) => id == i && Doomed(s.w, i, desired, written)
       case Reading(id) => id == i && Doomed(s.w, i, desired, written)
       case Closing(id, d) => id == i && d == desired && Doomed(s.w, i, desired, written)
       case Releasing(id, failed) => id == i && !failed && Ended(s.w, i, desired, written)
       case Idle => Ended(s.w, i, desired, written)
       case _ => false
  }

  function FallLeg(pc: Pc): nat {
    match pc
    case Calling(_, _) => 14
    case Returned(_, _, _) => 13
    case Settle(_, _) => 12
    case Finishing(_, _, _, _) => 11
    case Sweep(_, _, _, stage, _) =>
      (match stage case SweepWork => 10 case SweepInput => 9 case SweepTemp => 8 case SweepArtifact => 7)
    case Deciding(_, _, _, _) => 6
    case FinishExpire(_, e) => if e.Snapshot? then 5 else 4
    case Reading(_) => 3
    case Closing(_, _) => 2
    case Releasing(_, _) => 1
    case _ => 0
  }

  /** The attempt ends early; after that every step succeeds. */
  ghost function Dropping(pc: Pc, code: Code): Oracle {
    match pc
    case Calling(_, _) => Answer(true, false, true).(code := code)
    case FinishExpire(_, e) => Good.(id := ExpiryPick(e))
    case _ => Good
  }

  ghost predicate Lower(s: Sys, w': World, pc': Pc, i: Id, code: Code, desired: State, written: Code) {
    && Falling(s.(w := w', pc := pc'), i, code, desired, written) && w'.db.ops == s.w.db.ops
    && (FallLeg(pc') < FallLeg(s.pc) || (FallLeg(pc') == FallLeg(s.pc) && ToDo(pc') < ToDo(s.pc)))
  }

  lemma FallAttempt(c: Config, s: Sys, i: Id, code: Code, desired: State, written: Code)
    requires s.pc.Calling? || s.pc.Returned?
    requires Falling(s, i, code, desired, written)
    ensures var (w', pc') := AttemptStep(c, s.w, s.pc, Dropping(s.pc, code));
      Lower(s, w', pc', i, code, desired, written)
  {
    hide PassNext, RetryTx, StartOperationTx;
  }

  lemma FallSettle(c: Config, s: Sys, i: Id, code: Code, desired: State, written: Code)
    requires s.pc.Settle? && Falling(s, i, code, desired, written) && s.w.db.jobs[i].state == Running
    ensures var (w', pc') := PublicationStep(c, s.w, s.pc, Dropping(s.pc, code));
      Lower(s, w', pc', i, code, desired, written)
  {
  }

  lemma FallCleanup(s: Sys, i: Id, code: Code, desired: State, written: Code)
    requires s.pc.Finishing? || s.pc.Sweep? || s.pc.Deciding?
    requires Falling(s, i, code, desired, written) && desired != Completed
    requires s.pc.Finishing? ==> s.w.db.jobs[i].expiresAt.None?
    ensures var (w', pc') := EndingStep(s.w, s.pc, Dropping(s.pc, code)); Lower(s, w', pc', i, code, desired, written)
  {
    hide PassNext, ExpiryNext, QuarantineTx;
  }

  /** `Expire` passes over a job that has published nothing. */
  lemma ExpiryLeaves(w: World, e: Expiry, o: Oracle, i: Id)
    requires ScanOk(w, e) && i in w.db.jobs && w.db.jobs[i].expiresAt.None?
    ensures var w' := ExpiryNext(w, e, o).w;
      i in w'.db.jobs && w'.db.jobs[i] == w.db.jobs[i] && w'.db.device == w.db.device && w'.db.ops == w.db.ops
  {
  }

  lemma FallExpire(s: Sys, i: Id, code: Code, desired: State, written: Code)
    requires s.pc.FinishExpire? && Falling(s, i, code, desired, written) && ScanOk(s.w, s.pc.e)
    ensures var (w', pc') := EndingStep(s.w, s.pc, Dropping(s.pc, code)); Lower(s, w', pc', i, code, desired, written)
  {
    var o := Dropping(s.pc, code);
    ExpiryGoesOn(s.w, s.pc.e, o);
    ExpiryLeaves(s.w, s.pc.e, o, i);
    hide ExpiryNext, PassNext, ExpiryToDo, ScanOk;
  }

  lemma FallClose(s: Sys, i: Id, code: Code, desired: State, written: Code)
    requires s.pc.Reading? || s.pc.Closing? || s.pc.Releasing?
    requires Falling(s, i, code, desired, written) && Terminal(desired)
    requires s.pc.Closing? ==> s.w.db.jobs[i].state == Cleaning
    ensures var (w', pc') := EndingStep(s.w, s.pc, Dropping(s.pc, code)); Lower(s, w', pc', i, code, desired, written)
  {
    hide PassNext, ExpiryNext;
  }

  lemma FallStep(c: Config, s: Sys, i: Id, code: Code, desired: State, written: Code)
    requires Inv(c, s) && Falling(s, i, code, desired, written) && FallLeg(s.pc) > 0
    requires Terminal(desired) && desired != Completed
    ensures var m := Next(c, s, Work(Dropping(s.pc, code))); Lower(s, m.w, m.pc, i, code, desired, written)
  {
    var o := Dropping(s.pc, code);
    hide AttemptStep, PublicationStep, EndingStep, Lower, Dropping, ToDo;
    if s.pc.Calling? || s.pc.Returned? {
      FallAttempt(c, s, i, code, desired, written);
    } else if s.pc.Settle? {
      SettleRow(c, s);
      FallSettle(c, s, i, code, desired, written);
    } else {
      FallRow(c, s, i, code, desired, written);
      hide Inv, Falling;
      if s.pc.FinishExpire? {
        FallExpire(s, i, code, desired, written);
      } else if s.pc.Finishing? || s.pc.Sweep? || s.pc.Deciding? {
        FallCleanup(s, i, code, desired, written);
      } else {
        FallClose(s, i, code, desired, written);
      }
    }
  }

  lemma SettleRow(c: Config, s: Sys)
    requires Inv(c, s) && s.pc.Settle?
    ensures s.pc.id in s.w.db.jobs && s.w.db.jobs[s.pc.id].state == Running
  {
    hide WorldInv, CleanOps, ConfirmOk;
  }

  /** What the invariant adds at the later stages. */
  lemma FallRow(c: Config, s: Sys, i: Id, code: Code, desired: State, written: Code)
    requires Inv(c, s) && Falling(s, i, code, desired, written) && FallLeg(s.pc) > 0
    requires !(s.pc.Calling? || s.pc.Returned? || s.pc.Settle?)
    ensures Ending(s.pc) && !s.pc.CleanFinish? && s.pc.id == i
    ensures s.pc.Finishing? ==>
              i in s.w.db.jobs && s.w.db.jobs[i].expiresAt.None?
    ensures s.pc.Closing? ==> i in s.w.db.jobs && s.w.db.jobs[i].state == Cleaning
    ensures s.pc.FinishExpire? ==> ScanOk(s.w, s.pc.e)
  {
    hide FilesOk, DeviceOk, OpsOk, ConfirmOk;
    assert i in s.w.db.jobs && RowOk(s.w.db.jobs[i], i, s.w.now);
    hide WorldInv, EndingInv;
    EndingFacts(s);
  }

  lemma {:induction false} Fall(c: Config, s: Sys, i: Id, code: Code, desired: State, written: Code)
    returns (more: seq<Action>)
    requires Inv(c, s) && Falling(s, i, code, desired, written) && Terminal(desired) && desired != Completed
    ensures var m := Exec(c, s, more);
      && Inv(c, m) && m.pc.Idle? && Falling(m, i, code, desired, written) && m.w.db.ops == s.w.db.ops
      && Alone(s, m, more)
    ensures s.pc.Calling? ==> more != [] && more[0] == Work(Answer(true, false, true).(code := code))
    decreases FallLeg(s.pc), ToDo(s.pc)
  {
    hide Inv, Next, Evolves, ToDo;
    if FallLeg(s.pc) == 0 {
      more := [];
    } else {
      hide Exec;
      var a := Work(Dropping(s.pc, code));
      FallStep(c, s, i, code, desired, written);
      StepSafe(c, s, a);
      var m := Next(c, s, a);
      assert m == s.(w := m.w, pc := m.pc) by {
        WorkMoves(c, s, a.o);
      }
      var rest := Fall(c, m, i, code, desired, written);
      SameKeys(c, s, a.o);
      Boundary.ClockStep(c, s, a.o);
      more := [a] + rest;
      ExecCons(c, s, a, rest);
    }
  }

  lemma WorkMoves(c: Config, s: Sys, o: Oracle)
    ensures var m := Next(c, s, Work(o)); m.confirms == s.confirms && m.upload == s.upload
  {
    hide WorkerStep;
  }

  /** An attempt that ends before it has recorded an operation, with whatever code: when the
      local removals succeed, the job ends with that code, or as cancelled, and the device is
      free for the next job. */
  lemma EarlyFailureEnds(c: Config, s: Sys, code: Code) returns (more: seq<Action>)
    requires Inv(c, s) && s.pc.Calling?
    ensures more != [] && more[0].Work? && more[0].o.alt && more[0].o.code == code
    ensures var i, m := s.pc.id, Exec(c, s, more);
      && Alone(s, m, more) && m.w.db.ops == s.w.db.ops
      && m.pc.Idle? && !m.w.db.device.quarantined && m.w.db.device.owner == None
      && i in s.w.db.jobs && i in m.w.db.jobs
      && (m.w.db.jobs[i].state, m.w.db.jobs[i].errorCode)
         == if s.w.db.jobs[i].cancelRequested then (Cancelled, CancelledCode) else (Failed, code)
  {
    var i := s.pc.id;
    CallingRow(c, s);
    var (desired, written) := Fate(s.w.db.jobs[i].cancelRequested, code);
    hide Inv, Exec, Alone;
    more := Fall(c, s, i, code, desired, written);
    IdleLease(c, Exec(c, s, more));
  }

  lemma CallingRow(c: Config, s: Sys)
    requires Inv(c, s) && s.pc.Calling?
    ensures s.pc.id in s.w.db.jobs && !s.w.db.device.quarantined
  {
    hide WorldInv, CleanOps, ConfirmOk;
  }

  lemma IdleLease(c: Config, s: Sys)
    requires Inv(c, s) && s.pc.Idle?
    ensures s.w.db.device.owner == None
  {
    hide WorldInv, ConfirmOk, NoLive;
  }
}
