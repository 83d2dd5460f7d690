/** An operator's confirmation as it is written: the goroutine of one request that
    works on the two stores in place while the scheduler thread and all the other
    requests run between any two of its sections. */
module Operator {
  import opened Model
  import opened Transactions
  import opened Protocol
  import opened Invariant
  import opened Execution
  import opened Safety
  import opened Store
  import opened Storage
  import Boundary

  datatype Response = Resolved | NotFound | Conflict | Failure

  /** What may happen without this goroutine: everything but its own steps and a crash. */
  predicate Elsewhere(thread: nat, a: Action) {
    !a.Crash? && !(a.Confirm? && a.thread == thread) && !(a.ConfirmWith? && a.thread == thread)
  }

  ghost predicate Untouched(thread: nat, s: Sys, s': Sys) {
    s.w.now <= s'.w.now && (Serving(s.pc) ==> Serving(s'.pc))
    && (thread in s'.confirms <==> thread in s.confirms)
    && (thread in s.confirms ==> s'.confirms[thread] == s.confirms[thread])
  }

  lemma ElsewhereStep(c: Config, s: Sys, thread: nat, a: Action)
    requires Elsewhere(thread, a)
    ensures Untouched(thread, s, Next(c, s, a))
  {
    hide ConfirmNext, WorkerStep;
    if a.Work? {
      StillServing(c, s.w, s.pc, a.o);
      Boundary.ClockStep(c, s, a.o);
    } else {
      ApiStep(c, s, a);
    }
  }

  lemma {:induction false} ElsewhereRun(c: Config, s: Sys, thread: nat, env: seq<Action>)
    requires forall k :: 0 <= k < |env| ==> Elsewhere(thread, env[k])
    ensures Untouched(thread, s, Exec(c, s, env))
  {
    if env != [] {
      hide Next;
      var init := env[..|env| - 1];
      ElsewhereRun(c, s, thread, init);
      ElsewhereStep(c, Exec(c, s, init), thread, env[|env| - 1]);
    }
  }

  class Request {
    const c: Config
    const thread: nat
    const jobs: JobStore
    const files: FileStore
    /** The machine, of which this goroutine is one confirmation. */
    var sys: Sys
    ghost var acts: seq<Action>

    ghost predicate Valid()
      reads this, jobs, files
    {
      sys == Exec(c, Init, acts)
      && jobs.Valid() && jobs.Contents() == sys.w.db && files.Contents() == sys.w.fs
    }

    /** This goroutine is at `stage` of confirming job `id`. */
    predicate Here(id: Id, stage: ConfirmStage, bad: bool)
      reads this
    {
      thread in sys.confirms && sys.confirms[thread] == Confirmation(id, stage, bad)
    }

    /** A request joins a service that is up. */
    constructor (c: Config, thread: nat, service: Sys, ghost before: seq<Action>)
      requires service == Exec(c, Init, before)
      ensures Valid() && this.c == c && this.thread == thread && sys == service && acts == before
    {
      this.c := c;
      this.thread := thread;
      jobs := new JobStore();
      files := new FileStore();
      sys, acts := service, before;
      new;
      RunKeyed(c, before);
      jobs.Restore(service.w.db);
      files.Restore(service.w.fs);
    }

    /** Everybody else gets the processor. */
    method Others()
      requires Valid()
      modifies this, jobs, files
      ensures Valid() && old(acts) <= acts && Untouched(thread, old(sys), sys)
    {
      var env: seq<Action> := *;
      if exists k | 0 <= k < |env| :: !Elsewhere(thread, env[k]) {
        return;
      }
      ElsewhereRun(c, sys, thread, env);
      ExecAppend(c, Init, acts, env);
      sys, acts := Exec(c, sys, env), acts + env;
      RunKeyed(c, acts);
      jobs.Restore(sys.w.db);
      files.Restore(sys.w.fs);
    }

    method Took(a: Action)
      requires sys == Exec(c, Init, acts)
      modifies this
      ensures old(acts) <= acts && sys == Exec(c, Init, acts) && sys == Next(c, old(sys), a)
    {
      ExecAppend(c, Init, acts, [a]);
      ExecOne(c, sys, a);
      sys, acts := Next(c, sys, a), acts + [a];
    }

    // As in `Worker`, each section is given what its environment answers.

    /** The row is read and checked; the operator has attested what it stands for. */
    method Begin(id: Id, up: bool) returns (refused: Option<Response>)
      requires Valid() && Serving(sys.pc) && thread !in sys.confirms
      modifies this, jobs, files
      ensures Valid() && old(acts) <= acts
      ensures refused == None ==> Here(id, ConfirmWork, false)
      ensures refused != None ==> thread !in sys.confirms
      ensures refused == Some(Failure) <==> !up
      ensures refused == Some(Response.NotFound) <==> up && id !in jobs.jobs
      ensures refused == Some(Response.Conflict) <==>
              up && id in jobs.jobs && !(jobs.jobs[id].state == Cleaning && jobs.jobs[id].cleanupError != Clear)
      ensures refused != Some(Resolved)
    {
      hide Exec, WorkerStep, ConfirmNext;
      Others();
      if !up {
        return Some(Failure);
      }
      if id !in jobs.jobs {
        return Some(Response.NotFound);
      }
      if jobs.jobs[id].state != Cleaning || jobs.jobs[id].cleanupError == Clear {
        return Some(Response.Conflict);
      }
      Took(Confirm(thread, id));
      refused := None;
    }

    /** One of the three removals; all are tried before a failure counts. */
    method Remove(id: Id, stage: ConfirmStage, sofar: bool, removed: bool, lost: bool) returns (bad: bool)
      requires Valid() && Here(id, stage, sofar)
      requires stage.ConfirmWork? || stage.ConfirmInput? || stage.ConfirmTemp?
      modifies this, jobs, files
      ensures Valid() && old(acts) <= acts
      ensures bad <==> sofar || !removed
      ensures match stage
              case ConfirmWork => Here(id, ConfirmInput, bad) && (removed ==> id !in files.work)
              case ConfirmInput => Here(id, ConfirmTemp, bad) && (removed ==> id !in files.inputs)
              case _ => if bad then thread !in sys.confirms else Here(id, ConfirmExpire(Snapshot), false)
    {
      hide Exec, WorkerStep;
      Others();
      if stage.ConfirmWork? {
        files.Remove(WorkDirs, id, removed, lost);
      } else if stage.ConfirmInput? {
        files.Remove(InputFiles, id, removed, lost);
      }
      Took(ConfirmWith(thread, Answer(removed, false, lost)));
      bad := sofar || !removed;
    }

    // ---- Expire ----

    method TakeSnapshot(id: Id, up: bool) returns (rows: map<Id, Job>)
      requires Valid() && Here(id, ConfirmExpire(Snapshot), false)
      modifies this, jobs, files
      ensures Valid() && old(acts) <= acts
      ensures if up then Here(id, ConfirmExpire(Loop(rows)), false) else thread !in sys.confirms
      ensures rows == jobs.jobs
    {
      hide Exec, WorkerStep;
      Others();
      rows := jobs.jobs;
      Took(ConfirmWith(thread, Answer(up, false, false)));
    }

    /** One turn of the loop; `seen` is the time it compares with. */
    method ExpireRow(id: Id, i: Id, todo: map<Id, Job>, removable: bool, writable: bool)
      returns (ok: bool, ghost seen: Time)
      requires Valid() && Here(id, ConfirmExpire(Loop(todo)), false) && i in todo
      modifies this, jobs, files
      ensures Valid() && old(acts) <= acts
      ensures if ok then Here(id, ConfirmExpire(Loop(todo - {i})), false) else thread !in sys.confirms
      ensures old(sys).w.now <= seen <= sys.w.now
      ensures ok <==>
              todo[i].expiresAt.None? || todo[i].artifactExpired || seen < todo[i].expiresAt.value
              || (removable && writable)
    {
      hide Exec, WorkerStep;
      var row := todo[i];
      Others();
      seen := sys.w.now;
      ConfirmKeepsClock(sys.w, sys.confirms[thread], Answer(removable, false, false).(id := i));
      if !Due(row, sys.w.now) {
        Took(ConfirmWith(thread, Answer(removable, false, false).(id := i)));
        return true, seen;
      }
      files.Remove(ArtifactFiles, row.id, removable, false);
      Took(ConfirmWith(thread, Answer(removable, false, false).(id := i)));
      if removable {
        RecordExpiry(id, row, todo - {i}, writable);
      }
      ok := removable && writable;
    }

    method RecordExpiry(id: Id, row: Job, ghost rest: map<Id, Job>, up: bool)
      requires Valid() && Here(id, ConfirmExpire(Mark(row, rest)), false)
      modifies this, jobs, files
      ensures Valid() && old(acts) <= acts
      ensures if up then Here(id, ConfirmExpire(Loop(rest)), false) else thread !in sys.confirms
      ensures old(sys).w.now <= sys.w.now
      ensures up && row.id in jobs.jobs ==>
                && jobs.jobs[row.id].artifactExpired
                && (row.state == Cleaning ==>
                      jobs.jobs[row.id].pending == Some(Failed) && jobs.jobs[row.id].errorCode == ArtifactExpiredCode)
    {
      hide Exec, WorkerStep;
      Others();
      ConfirmKeepsClock(sys.w, sys.confirms[thread], Answer(up, false, false));
      if up {
        jobs.MarkExpired(row);
      }
      Took(ConfirmWith(thread, Answer(up, false, false)));
    }

    method NoRowsLeft(id: Id)
      requires Valid() && Here(id, ConfirmExpire(Loop(map[])), false)
      modifies this, jobs, files
      ensures Valid() && old(acts) <= acts && Here(id, ConfirmResolve, false)
    {
      hide Exec, WorkerStep;
      Others();
      Took(ConfirmWith(thread, Answer(true, false, false)));
    }

    method Expire(id: Id) returns (ok: bool)
      requires Valid() && Here(id, ConfirmExpire(Snapshot), false)
      modifies this, jobs, files
      ensures Valid() && old(acts) <= acts
      ensures if ok then Here(id, ConfirmResolve, false) else thread !in sys.confirms
    {
      hide Valid, Exec, Next;
      var up: bool := *;
      var todo := TakeSnapshot(id, up);
      ok := up;
      while ok && todo != map[]
        invariant Valid() && old(acts) <= acts
        invariant if ok then Here(id, ConfirmExpire(Loop(todo)), false) else thread !in sys.confirms
        decreases ok, |todo|
      {
        var i :| i in todo;
        var removable: bool, writable: bool := *, *;
        ghost var seen;
        ok, seen := ExpireRow(id, i, todo, removable, writable);
        todo := todo - {i};
      }
      if ok {
        NoRowsLeft(id);
      }
    }

    // ---- Resolve ----

    /** The last section finds the rows as in `before`. The job is in review, or another
        confirmation has finished it meanwhile: that is the only refusal. */
    method Commit(id: Id, up: bool) returns (response: Response, ghost before: Db)
      requires Valid() && Here(id, ConfirmResolve, false)
      modifies this, jobs, files
      ensures Valid() && old(acts) <= acts && thread !in sys.confirms
      ensures id in before.jobs
      ensures response == if !up then Failure
                          else if Terminal(before.jobs[id].state) then Response.Conflict
                          else Resolved
      ensures response != Resolved ==> jobs.Contents() == before
      ensures response == Resolved ==>
                && AwaitsConfirmation(before, id)
                && jobs.jobs == before.jobs[id := before.jobs[id].(
                     state := before.jobs[id].pending.value, cleanupError := Clear, pending := None)]
    {
      hide Exec, WorkerStep;
      Others();
      before := jobs.Contents();
      ConfirmedRow(c, acts, thread);
      if !up {
        Took(ConfirmWith(thread, Answer(false, false, false)));
        return Failure, before;
      }
      var refused := jobs.Resolve(id);
      Took(ConfirmWith(thread, Answer(true, false, false)));
      response := match refused
        case None => Resolved
        case Some(e) => if e == Error.NotFound then Response.NotFound else Response.Conflict;
    }

    /** `Worker.Resolve`. Whatever the others did meanwhile: it reports success exactly when its
        last section, which finds the rows as in `before`, takes the job from review to its
        outcome, and otherwise that section changes no row. The device is then quarantined
        exactly while a review is left. */
    method Resolve(id: Id) returns (response: Response, ghost before: Db)
      requires Valid() && Serving(sys.pc) && thread !in sys.confirms
      modifies this, jobs, files
      ensures Valid() && old(acts) <= acts && thread !in sys.confirms
      ensures response == Resolved <==> jobs.jobs != before.jobs
      ensures response == Resolved ==>
                && AwaitsConfirmation(before, id) && id in jobs.jobs
                && jobs.jobs[id].state == before.jobs[id].pending.value
      ensures response == Response.NotFound ==> id !in jobs.jobs
      ensures response == Response.Conflict ==> id in jobs.jobs && !AwaitsConfirmation(jobs.Contents(), id)
      ensures jobs.device.quarantined <==> exists i :: i in jobs.jobs && Unresolved(jobs.jobs[i])
    {
      hide Exec, Next;
      response, before := Confirmed(id);
      QuarantineState(c, acts);
    }

    method Confirmed(id: Id) returns (response: Response, ghost before: Db)
      requires Valid() && Serving(sys.pc) && thread !in sys.confirms
      modifies this, jobs, files
      ensures Valid() && old(acts) <= acts && thread !in sys.confirms
      ensures response == Resolved <==> jobs.jobs != before.jobs
      ensures response == Resolved ==>
                && AwaitsConfirmation(before, id) && id in jobs.jobs
                && jobs.jobs[id].state == before.jobs[id].pending.value
      ensures response == Response.NotFound ==> id !in jobs.jobs
      ensures response == Response.Conflict ==> id in jobs.jobs && !AwaitsConfirmation(jobs.Contents(), id)
    {
      hide Valid, Exec, Next;
      var up: bool, removed: bool, lost: bool := *, *, *;
      var refused := Begin(id, up);
      before := jobs.Contents();
      if refused.Some? {
        return refused.value, before;
      }
      var bad := Remove(id, ConfirmWork, false, removed, lost);
      removed := *;
      bad := Remove(id, ConfirmInput, bad, removed, false);
      removed := *;
      bad := Remove(id, ConfirmTemp, bad, removed, false);
      var ok := false;
      if !bad {
        ok := Expire(id);
      }
      if !ok {
        return Failure, jobs.Contents();
      }
      up := *;
      response, before := Commit(id, up);
    }
  }

  /** The job waits for its cleanup to be confirmed, with its outcome committed. */
  predicate AwaitsConfirmation(db: Db, id: Id) {
    id in db.jobs && db.jobs[id].state == Cleaning && db.jobs[id].cleanupError != Clear
    && (db.jobs[id].pending == Some(Completed) || db.jobs[id].pending == Some(Failed)
        || db.jobs[id].pending == Some(Cancelled))
  }

  /** The job of a confirmation is in review, or finished. */
  lemma ConfirmedRow(c: Config, acts: seq<Action>, thread: nat)
    ensures var s := Exec(c, Init, acts);
      thread in s.confirms ==>
        var id := s.confirms[thread].id;
        id in s.w.db.jobs && (Terminal(s.w.db.jobs[id].state) || AwaitsConfirmation(s.w.db, id))
  {
    Reachable(c, acts);
    var s := Exec(c, Init, acts);
    hide Exec, PcInv, FilesOk, DeviceOk, OpsOk, ScanOk, CleanOps;
    if thread in s.confirms {
      assert ConfirmOk(s.w, s.confirms[thread]);
      assert RowOk(s.w.db.jobs[s.confirms[thread].id], s.confirms[thread].id, s.w.now);
    }
  }

  lemma QuarantineState(c: Config, acts: seq<Action>)
    ensures var db := Exec(c, Init, acts).w.db;
      db.device.quarantined <==> exists i :: i in db.jobs && Unresolved(db.jobs[i])
  {
    Reachable(c, acts);
    hide Exec, PcInv, RowsOk, FilesOk, OpsOk;
  }
}
