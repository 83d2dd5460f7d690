/** A run can complete a job: from every idle moment at which the lease is free, the first
    claimable job can be carried to its end by the worker's own steps. */
module Completion {
  import opened Model
  import opened Transactions
  import opened Protocol
  import opened Execution
  import opened Invariant
  import opened Safety
  import opened Restart
  import opened Theorems
  import Admission
  import Engine

  /** A library call that returns a verified result and no error. */
  const GoodCall := Engine.Call(Some(Engine.LibraryResult(true, 1, 0)), None, true)
  const GoodReply := Engine.Reply(true, Engine.NoError)

  ghost function FreshOp(w: World): OpId {
    if n: nat :| n !in w.db.ops then n else 0
  }

  lemma {:induction false} Unused(s: set<nat>) returns (n: nat)
    ensures n !in s && forall x :: x in s ==> x < n
  {
    n := 0;
    if s != {} {
      var x :| x in s;
      n := Unused(s - {x});
      n := if n <= x then x + 1 else n;
      assert s == (s - {x}) + {x};
    }
  }

  lemma FreshOpIsNew(w: World)
    ensures FreshOp(w) !in w.db.ops
  {
    var n := Unused(w.db.ops.Keys);
    assert n !in w.db.ops;
  }

  /** The answers under which job `i` succeeds with this output. */
  ghost function Helping(w: World, pc: Pc, i: Id, content: Bytes): Oracle {
    Oracle(true, false, pc.OnDevice? && !Written(w, i, content),
           match pc
           case SchedulerExpire(e) => ExpiryPick(e)
           case FinishExpire(_, e) => ExpiryPick(e)
           case _ => i,
           match pc
           case Calling(_, _) => FreshOp(w)
           case CleanFinish(_, _, _, pass) => if pass.Asking? then Any(pass.todo) else 0
           case _ => 0,
           content, NoCode, GoodCall)
  }

  predicate Written(w: World, i: Id, content: Bytes) {
    i in w.fs.work && w.fs.work[i] == Some(content)
  }

  // ---- The course of a job that succeeds ----

  /** Job `i` is the next to be claimed. */
  predicate NextUp(w: World, i: Id) {
    LeaseFree(w.db) && IsFirst(w.db, w.now, i) && !w.db.jobs[i].cancelRequested
  }

  /** The artifact is recorded, and will not expire while the clock stands still. */
  predicate Recorded(w: World, i: Id, content: Bytes) {
    i in w.db.jobs && i in w.fs.artifacts && w.fs.artifacts[i] == content
    && w.db.jobs[i].expiresAt.Some? && w.now < w.db.jobs[i].expiresAt.value && !w.db.jobs[i].artifactExpired
  }

  predicate Uncancelled(w: World, i: Id) {
    i in w.db.jobs && !w.db.jobs[i].cancelRequested
  }

  predicate Done(s: Sys, i: Id, content: Bytes) {
    s.pc.Idle? && Recorded(s.w, i, content)
    && s.w.db.jobs[i].state == Completed && s.w.db.jobs[i].pending == Some(Completed)
  }

  ghost predicate OnCourse(c: Config, s: Sys, i: Id, content: Bytes) {
    match s.pc
    case Idle => NextUp(s.w, i) || Done(s, i, content)
    case SchedulerExpire(_) => NextUp(s.w, i)
    case Claiming => NextUp(s.w, i)
    case MakeWorkspace(id) => id == i && Uncancelled(s.w, i)
    case Calling(id, k) => id == i && Uncancelled(s.w, i) && !Written(s.w, i, content)
    case OnDevice(id, k, op) => id == i && Uncancelled(s.w, i) && OpsOf(s.w, i) != {}
    case Returned(id, k, reply) =>
      id == i && reply == GoodReply && Uncancelled(s.w, i) && OpsOf(s.w, i) != {} && Written(s.w, i, content)
    case Settle(id, reply) =>
      id == i && reply == GoodReply && Uncancelled(s.w, i) && OpsOf(s.w, i) != {} && Written(s.w, i, content)
    case ToVerifying(id, review) =>
      id == i && review && Uncancelled(s.w, i) && OpsOf(s.w, i) != {} && Written(s.w, i, content)
    case Validating(id, review) =>
      id == i && review && Uncancelled(s.w, i) && OpsOf(s.w, i) != {} && Written(s.w, i, content)
    case Checking(id, review, output) =>
      id == i && review && output == content && Uncancelled(s.w, i) && OpsOf(s.w, i) != {} && Written(s.w, i, content)
    case Publishing(id, review) =>
      id == i && review && Uncancelled(s.w, i) && OpsOf(s.w, i) != {} && Written(s.w, i, content)
    case Recording(id, review, size, hash, expiry) =>
      id == i && review && Uncancelled(s.w, i) && OpsOf(s.w, i) != {}
      && i in s.w.fs.artifacts && s.w.fs.artifacts[i] == content && expiry > s.w.now
      && !s.w.db.jobs[i].artifactExpired
    case Finishing(id, desired, code, review) =>
      id == i && desired == Completed && code == NoCode && review && Uncancelled(s.w, i) && OpsOf(s.w, i) != {}
      && Recorded(s.w, i, content)
    case Sweep(id, desired, review, stage, bad) =>
      id == i && desired == Completed && review && !bad && OpsOf(s.w, i) != {} && Recorded(s.w, i, content)
      && s.w.db.jobs[i].pending == Some(Completed)
    case CleanFinish(id, desired, bad, pass) =>
      id == i && desired == Completed && !bad && Recorded(s.w, i, content)
      && s.w.db.jobs[i].pending == Some(Completed)
      && if pass.Listing? then OpsOf(s.w, i) != {} else pass.ok
    case Deciding(id, desired, bad, review) =>
      id == i && desired == Completed && !bad && !review && Recorded(s.w, i, content)
      && s.w.db.jobs[i].pending == Some(Completed)
    case FinishExpire(id, e) =>
      id == i && Recorded(s.w, i, content) && s.w.db.jobs[i].pending == Some(Completed)
    case Reading(id) =>
      id == i && Recorded(s.w, i, content) && s.w.db.jobs[i].pending == Some(Completed)
    case Closing(id, desired) =>
      id == i && desired == Completed && Recorded(s.w, i, content) && s.w.db.jobs[i].pending == Some(Completed)
    case Releasing(id, failed) =>
      id == i && !failed && Recorded(s.w, i, content) && s.w.db.jobs[i].state == Completed
      && s.w.db.jobs[i].pending == Some(Completed)
    case _ => false
  }

  /** How far the job still has to go: one less at every stage. */
  function Leg(s: Sys, i: Id, content: Bytes): nat {
    match s.pc
    case Idle => if Done(s, i, content) then 0 else 27
    case SchedulerExpire(e) => if e.Snapshot? then 26 else 25
    case Claiming => 24
    case MakeWorkspace(_) => 23
    case Calling(_, _) => 22
    case OnDevice(_, _, _) => if Written(s.w, i, content) then 20 else 21
    case Returned(_, _, _) => 19
    case Settle(_, _) => 18
    case ToVerifying(_, _) => 17
    case Validating(_, _) => 16
    case Checking(_, _, _) => 15
    case Publishing(_, _) => 14
    case Recording(_, _, _, _, _) => 13
    case Finishing(_, _, _, _) => 12
    case Sweep(_, _, _, stage, _) =>
      (match stage case SweepWork => 11 case SweepInput => 10 case _ => 9)
    case CleanFinish(_, _, _, pass) => if pass.Listing? then 8 else 7
    case Deciding(_, _, _, _) => 6
    case FinishExpire(_, e) => if e.Snapshot? then 5 else 4
    case Reading(_) => 3
    case Closing(_, _) => 2
    case Releasing(_, _) => 1
    case _ => 28
  }

  function ToDo(pc: Pc): nat {
    match pc
    case SchedulerExpire(e) => ExpiryToDo(e)
    case FinishExpire(_, e) => ExpiryToDo(e)
    case CleanFinish(_, _, _, pass) => if pass.Asking? then |pass.todo| else 0
    case _ => 0
  }

  function ExpiryToDo(e: Expiry): nat {
    match e
    case Snapshot => 0
    case Loop(todo) => 2 * |todo|
    case Mark(_, rest) => 2 * |rest| + 1
  }

  ghost predicate Further(c: Config, s: Sys, m: Sys, i: Id, content: Bytes) {
    && OnCourse(c, m, i, content) && m.w.now == s.w.now
    && (Leg(m, i, content) + 1 == Leg(s, i, content)
        || (Leg(m, i, content) == Leg(s, i, content) && ToDo(m.pc) < ToDo(s.pc)))
  }

  // ---- Stage by stage ----

  lemma ExpiryGoesOn(w: World, e: Expiry, o: Oracle)
    requires o.ok && o.id == ExpiryPick(e)
    ensures var x := ExpiryNext(w, e, o);
      && !x.ExpiryFailed? && x.w.now == w.now
      && (x.ExpiryDone? ==> !e.Snapshot?)
      && (x.ExpiryMore? ==> !x.e.Snapshot? && (e.Snapshot? || ExpiryToDo(x.e) < ExpiryToDo(e)))
  {
    if e.Loop? && e.todo != map[] {
      NonEmptyMap(e.todo);
      SmallerMap(e.todo, Any(e.todo.Keys));
    }
  }

  /** `Expire` does not touch what is queued, nor what is not yet due. */
  lemma ExpiryNextUp(w: World, e: Expiry, o: Oracle, i: Id)
    requires NextUp(w, i)
    ensures NextUp(ExpiryNext(w, e, o).w, i)
  {
  }

  lemma ExpiryRecorded(w: World, e: Expiry, o: Oracle, i: Id, content: Bytes)
    requires Recorded(w, i, content) && ScanOk(w, e)
    ensures var w' := ExpiryNext(w, e, o).w;
      Recorded(w', i, content) && w'.db.jobs[i].pending == w.db.jobs[i].pending
  {
    if e.Loop? && o.id in e.todo {
      assert SnapOk(w, o.id, e.todo[o.id]);
    }
  }

  lemma SchedulerGoesOn(c: Config, s: Sys, i: Id, content: Bytes)
    requires s.pc.Idle? || s.pc.SchedulerExpire? || s.pc.Claiming?
    requires NextUp(s.w, i) && OnCourse(c, s, i, content) && s.w.db.jobs[i].state == Queued
    ensures var (w', pc') := SchedulerStep(s.w, s.pc, Helping(s.w, s.pc, i, content));
      Further(c, s, s.(w := w', pc := pc'), i, content)
  {
    if s.pc.SchedulerExpire? {
      var o := Helping(s.w, s.pc, i, content);
      ExpiryGoesOn(s.w, s.pc.e, o);
      ExpiryNextUp(s.w, s.pc.e, o, i);
      hide ExpiryNext, NextUp, ExpiryToDo;
    }
  }

  lemma AttemptGoesOn(c: Config, s: Sys, i: Id, content: Bytes)
    requires Attempting(s.pc) && AttemptInv(s.w, s.pc) && OnCourse(c, s, i, content)
    ensures var (w', pc') := AttemptStep(c, s.w, s.pc, Helping(s.w, s.pc, i, content));
      Further(c, s, s.(w := w', pc := pc'), i, content)
  {
    FreshOpIsNew(s.w);
    hide FreshOp;
    if s.pc.Calling? {
      assert FreshOp(s.w) in OpsOf(AttemptStep(c, s.w, s.pc, Helping(s.w, s.pc, i, content)).0, i);
    }
  }

  lemma VerifyingGoesOn(c: Config, s: Sys, i: Id, content: Bytes)
    requires s.pc.Settle? || s.pc.ToVerifying? || s.pc.Validating? || s.pc.Checking?
    requires PublicationInv(c, s.w, s.pc) && OnCourse(c, s, i, content) && c.CanComplete(content)
    ensures var (w', pc') := PublicationStep(c, s.w, s.pc, Helping(s.w, s.pc, i, content));
      Further(c, s, s.(w := w', pc := pc'), i, content)
  {
  }

  lemma PublishingGoesOn(c: Config, s: Sys, i: Id, content: Bytes)
    requires s.pc.Publishing? || s.pc.Recording?
    requires OnCourse(c, s, i, content) && c.CanComplete(content) && RowOk(s.w.db.jobs[i], i, s.w.now)
    requires s.w.db.jobs[i].expiresAt.None?
    ensures var (w', pc') := PublicationStep(c, s.w, s.pc, Helping(s.w, s.pc, i, content));
      Further(c, s, s.(w := w', pc := pc'), i, content)
  {
  }

  lemma SweepGoesOn(c: Config, s: Sys, i: Id, content: Bytes)
    requires s.pc.Finishing? || s.pc.Sweep?
    requires OnCourse(c, s, i, content)
    requires s.pc.Finishing? ==> s.w.db.jobs[i].state == Running || s.w.db.jobs[i].state == Verifying
    requires s.pc.Sweep? ==> s.pc.stage != SweepArtifact
    ensures var (w', pc') := EndingStep(s.w, s.pc, Helping(s.w, s.pc, i, content));
      Further(c, s, s.(w := w', pc := pc'), i, content)
  {
    hide PassNext, ExpiryNext;
  }

  lemma PassGoesOn(c: Config, s: Sys, i: Id, content: Bytes)
    requires s.pc.CleanFinish? && OnCourse(c, s, i, content)
    ensures var (w', pc') := EndingStep(s.w, s.pc, Helping(s.w, s.pc, i, content));
      Further(c, s, s.(w := w', pc := pc'), i, content)
  {
    if s.pc.pass.Asking? && s.pc.pass.todo != {} {
      Smaller(s.pc.pass.todo, Any(s.pc.pass.todo));
    }
    hide ExpiryNext;
  }

  lemma FinalExpiryGoesOn(c: Config, s: Sys, i: Id, content: Bytes)
    requires s.pc.FinishExpire? && OnCourse(c, s, i, content) && ScanOk(s.w, s.pc.e)
    ensures var (w', pc') := EndingStep(s.w, s.pc, Helping(s.w, s.pc, i, content));
      Further(c, s, s.(w := w', pc := pc'), i, content)
  {
    var o := Helping(s.w, s.pc, i, content);
    ExpiryGoesOn(s.w, s.pc.e, o);
    ExpiryRecorded(s.w, s.pc.e, o, i, content);
    hide ExpiryNext, PassNext, Recorded, ExpiryToDo, ScanOk;
  }

  lemma ClosingGoesOn(c: Config, s: Sys, i: Id, content: Bytes)
    requires s.pc.Deciding? || s.pc.Reading? || s.pc.Closing? || s.pc.Releasing?
    requires OnCourse(c, s, i, content)
    requires s.pc.Closing? ==> s.w.db.jobs[i].state == Cleaning
    ensures var (w', pc') := EndingStep(s.w, s.pc, Helping(s.w, s.pc, i, content));
      Further(c, s, s.(w := w', pc := pc'), i, content)
  {
    hide PassNext, ExpiryNext;
  }

  // ---- The whole course ----

  /** What the invariant adds at each stage. */
  lemma CourseFacts(c: Config, s: Sys, i: Id, content: Bytes)
    requires Inv(c, s) && OnCourse(c, s, i, content)
    ensures i in s.w.db.jobs && RowOk(s.w.db.jobs[i], i, s.w.now) && PcInv(c, s.w, s.pc)
  {
    assert i in s.w.db.jobs;
    hide PcInv, OnCourse;
  }

  lemma EndingFacts(s: Sys)
    requires Ending(s.pc) && EndingInv(s.w, s.pc)
    ensures s.pc.Finishing? ==>
              s.pc.id in s.w.db.jobs
              && (s.w.db.jobs[s.pc.id].state == Running || s.w.db.jobs[s.pc.id].state == Verifying)
    ensures s.pc.Closing? ==> s.pc.id in s.w.db.jobs && s.w.db.jobs[s.pc.id].state == Cleaning
    ensures s.pc.FinishExpire? ==> ScanOk(s.w, s.pc.e)
    ensures s.pc.Sweep? && s.pc.stage == SweepArtifact ==> s.pc.desired != Completed
  {
    hide ScanOk, DesiredOk, CleanOps, PassOk;
  }

  lemma PublicationFacts(c: Config, s: Sys)
    requires Publication(s.pc) && PublicationInv(c, s.w, s.pc)
    ensures s.pc.Publishing? || s.pc.Recording? ==>
              s.pc.id in s.w.db.jobs && s.w.db.jobs[s.pc.id].expiresAt.None?
  {
    hide CleanOps;
  }

  lemma GoesOn(c: Config, s: Sys, i: Id, content: Bytes)
    requires Inv(c, s) && OnCourse(c, s, i, content) && Leg(s, i, content) > 0
    requires Leg(s, i, content) > 18 || c.CanComplete(content)
    ensures var m := Next(c, s, Work(Helping(s.w, s.pc, i, content)));
      Further(c, s, m, i, content) && m.confirms == s.confirms && m.upload == s.upload
  {
    CourseFacts(c, s, i, content);
    hide Inv, WorldInv, AttemptInv, PublicationInv, EndingInv, SchedulerInv, RecoveryInv, Further, RowOk, Helping;
    hide AttemptStep, PublicationStep, EndingStep, SchedulerStep;
    if Attempting(s.pc) {
      AttemptGoesOn(c, s, i, content);
    } else if Publication(s.pc) {
      PublicationFacts(c, s);
      if s.pc.Publishing? || s.pc.Recording? {
        PublishingGoesOn(c, s, i, content);
      } else {
        VerifyingGoesOn(c, s, i, content);
      }
    } else if Ending(s.pc) {
      EndingFacts(s);
      if s.pc.CleanFinish? {
        PassGoesOn(c, s, i, content);
      } else if s.pc.FinishExpire? {
        FinalExpiryGoesOn(c, s, i, content);
      } else if s.pc.Finishing? || s.pc.Sweep? {
        SweepGoesOn(c, s, i, content);
      } else {
        ClosingGoesOn(c, s, i, content);
      }
    } else {
      SchedulerGoesOn(c, s, i, content);
    }
  }

  /** Only worker steps, and nothing else has moved. */
  ghost predicate Alone(s: Sys, m: Sys, more: seq<Action>) {
    && (forall k :: 0 <= k < |more| ==> more[k].Work?)
    && m.w.now == s.w.now && m.confirms == s.confirms && m.upload == s.upload
    && m.w.db.jobs.Keys == s.w.db.jobs.Keys
  }

  lemma {:induction false} Drive(c: Config, s: Sys, i: Id, content: Bytes, leg: nat) returns (more: seq<Action>)
    requires Inv(c, s) && OnCourse(c, s, i, content) && leg <= Leg(s, i, content)
    requires leg >= 18 || c.CanComplete(content)
    ensures var m := Exec(c, s, more);
      Inv(c, m) && OnCourse(c, m, i, content) && Leg(m, i, content) == leg && Alone(s, m, more)
    decreases Leg(s, i, content), ToDo(s.pc)
  {
    hide Inv, Next, Evolves, OnCourse, Leg, ToDo, Helping;
    if Leg(s, i, content) == leg {
      more := [];
    } else {
      hide Exec;
      var a := Work(Helping(s.w, s.pc, i, content));
      GoesOn(c, s, i, content);
      StepSafe(c, s, a);
      SameKeys(c, s, a.o);
      var rest := Drive(c, Next(c, s, a), i, content, leg);
      more := [a] + rest;
      ExecCons(c, s, a, rest);
    }
  }

  lemma SameKeys(c: Config, s: Sys, o: Oracle)
    requires Inv(c, s)
    ensures Next(c, s, Work(o)).w.db.jobs.Keys == s.w.db.jobs.Keys
  {
    hide WorldInv, PcInv, ConfirmOk, WorkerStep;
    Admission.WorkerKeys(c, s.w, s.pc, o);
  }

  /** From every idle moment with a free lease, the first claimable job, if it is not
      cancelled, can be completed by worker steps alone: its artifact is then there,
      holds what the library put out, and passes the download check. */
  lemma FirstCompletes(c: Config, s: Sys, i: Id, content: Bytes) returns (more: seq<Action>)
    requires Inv(c, s) && s.pc.Idle? && NextUp(s.w, i) && c.CanComplete(content)
    ensures var m := Exec(c, s, more);
      && Inv(c, m) && Done(m, i, content) && DownloadGuard(m.w.db.jobs[i], m.w.now)
      && m.w.fs.artifacts[i] == content && Alone(s, m, more)
  {
    hide Inv, Exec, Next, Leg, OnCourse, NextUp;
    NextUpLeg(c, s, i, content);
    more := Drive(c, s, i, content, 0);
    LastLeg(c, Exec(c, s, more), i, content);
  }

  lemma NextUpLeg(c: Config, s: Sys, i: Id, content: Bytes)
    requires s.pc.Idle? && NextUp(s.w, i)
    ensures OnCourse(c, s, i, content) && Leg(s, i, content) == 27
  {
  }

  lemma LastLeg(c: Config, s: Sys, i: Id, content: Bytes)
    requires OnCourse(c, s, i, content) && Leg(s, i, content) == 0
    ensures Done(s, i, content)
  {
  }
}
