/** The worker and the scheduler as they are written: structured code that works on
    the job store and the file store in place. The other goroutines of the process
    run before each of its sections, and everything it does is a run of the machine. */
module Service {
  import opened Model
  import opened Transactions
  import opened Protocol
  import opened Invariant
  import opened Execution
  import opened Safety
  import opened Runs
  import opened Theorems
  import opened Facts
  import Boundary
  import opened Store
  import opened Storage
  import Admission
  import Engine

  // ---- Where the shared procedures return to ----

  function WithPass(pc: Pc, pass: Pass): Pc
    requires InPass(pc)
  {
    match pc
    case CleanRetry(id, k, reply, _) => CleanRetry(id, k, reply, pass)
    case CleanFinish(id, desired, bad, _) => CleanFinish(id, desired, bad, pass)
    case RecoverClean(id, left, _) => RecoverClean(id, left, pass)
  }

  function AfterPass(pc: Pc, confirmed: bool): Pc
    requires InPass(pc)
  {
    match pc
    case CleanRetry(id, k, reply, _) => if confirmed then Retrying(id, k, reply) else Settle(id, reply)
    case CleanFinish(id, desired, bad, _) => Deciding(id, desired, bad, !confirmed)
    case RecoverClean(id, left, _) => if confirmed then RecoverResolve(id, left) else RecoverNext(left)
  }

  function WithExpiry(pc: Pc, e: Expiry): Pc
    requires InExpiry(pc)
  {
    match pc
    case SchedulerExpire(_) => SchedulerExpire(e)
    case FinishExpire(id, _) => FinishExpire(id, e)
    case RecoverExpire(known, _) => RecoverExpire(known, e)
  }

  function AfterExpiry(pc: Pc, ok: bool): Pc
    requires InExpiry(pc)
  {
    match pc
    case SchedulerExpire(_) => if ok then Claiming else Stopped
    case FinishExpire(id, _) => if ok then Reading(id) else Releasing(id, true)
    case RecoverExpire(known, _) => if ok then RecoverNext(known) else Down
  }

  /** Going round in `Expire` keeps the place it returns to. */
  lemma SameReturn(at: Pc, e: Expiry, e': Expiry, ok: bool)
    requires InExpiry(at)
    ensures var pc := WithExpiry(at, e);
      && InExpiry(pc) && pc.e == e && WithExpiry(pc, e') == WithExpiry(at, e')
      && AfterExpiry(pc, ok) == AfterExpiry(at, ok)
  {
  }

  lemma PassWork(c: Config, w: World, pc: Pc, o: Oracle)
    requires InPass(pc)
    ensures WorkerStep(c, w, pc, o) ==
            match PassNext(w, pc.id, pc.pass, o)
            case PassMore(w', pass') => (w', WithPass(pc, pass'))
            case PassDone(w', confirmed) => (w', AfterPass(pc, confirmed))
  {
    hide PassNext;
  }

  lemma ExpiryWork(c: Config, w: World, pc: Pc, o: Oracle)
    requires InExpiry(pc)
    ensures WorkerStep(c, w, pc, o) ==
            match ExpiryNext(w, pc.e, o)
            case ExpiryMore(w', e') => (w', WithExpiry(pc, e'))
            case ExpiryDone(w') => (w', AfterExpiry(pc, true))
            case ExpiryFailed(w') => (w', AfterExpiry(pc, false))
  {
    hide ExpiryNext;
  }

  /** Publication as the machine makes it. */
  lemma PublishWork(c: Config, w: World, id: Id, review: bool, o: Oracle)
    ensures var (w', pc') := WorkerStep(c, w, Publishing(id, review), o);
      && w'.db == w.db && w'.hist == w.hist && w'.now == w.now
      && (id in w.fs.work && w.fs.work[id].Some? && (o.ok || o.alt) ==>
            w'.fs == Files(w.fs.work[id := None], w.fs.inputs, w.fs.artifacts[id := w.fs.work[id].value]))
      && (!(id in w.fs.work && w.fs.work[id].Some? && (o.ok || o.alt)) ==> w'.fs == w.fs)
      && pc' == if o.ok && id in w.fs.work && w.fs.work[id].Some?
                then Recording(id, review, |w.fs.work[id].value|, c.sha(w.fs.work[id].value), w.now + c.retention)
                else ToFinish(id, Failed, StorageFailed, review, o.late)
  {
  }

  /** A job whose run has ended well is finished or in review. */
  lemma JobEnds(c: Config, before: seq<Action>, after: seq<Action>, id: Id)
    requires before <= after && Exec(c, Init, after).pc.Idle?
    requires var pc := Exec(c, Init, before).pc; (pc.MakeWorkspace? || pc.Finishing?) && pc.id == id
    ensures var w := Exec(c, Init, after).w;
      w.db.device.owner == None && NoLive(w)
      && id in w.db.jobs && (Terminal(w.db.jobs[id].state) || Unresolved(w.db.jobs[id]))
  {
    var s, s' := Exec(c, Init, before), Exec(c, Init, after);
    assert after == before + after[|before|..];
    ExecAppend(c, Init, before, after[|before|..]);
    hide Exec, Inv;
    Reachable(c, before);
    Reachable(c, after);
    LeaseState(c, s);
    LeaseState(c, s');
    RunLater(c, s, after[|before|..]);
    assert Live(s.w.db.jobs[id]);
    assert RowLater(s.w.db.jobs[id], s'.w.db.jobs[id]);
  }

  /** A pass that has ended confirmed leaves nothing of its job outstanding. */
  lemma ConfirmedClean(c: Config, acts: seq<Action>, at: Pc)
    requires InPass(at) && Exec(c, Init, acts).pc == AfterPass(at, true)
    ensures CleanOps(Exec(c, Init, acts).w, at.id)
  {
    Reachable(c, acts);
    hide Exec, WorldInv, ConfirmOk, CleanOps, RunOk, DesiredOk, Recovered, Exact, ExpiredAtStart, LeftOk;
  }

  /** The worker is about to complete a job: its artifact is on record. */
  lemma RecordedArtifact(c: Config, acts: seq<Action>, id: Id, review: bool)
    requires Exec(c, Init, acts).pc == Finishing(id, Completed, NoCode, review)
    ensures var jobs := Exec(c, Init, acts).w.db.jobs;
      id in jobs && jobs[id].expiresAt.Some? && jobs[id].sha256.Some?
  {
    Reachable(c, acts);
    var s := Exec(c, Init, acts);
    hide Exec, RowsOk, DeviceOk, OpsOk, ConfirmOk, CleanOps, RunOk;
    assert FileOk(c, s.w, id);
  }

  /** Between settlement and cleanup, content is on record exactly once it was verified. */
  lemma PassedFacts(c: Config, acts: seq<Action>, id: Id)
    ensures var s := Exec(c, Init, acts);
      && ((s.pc.Validating? || s.pc.Checking?) && s.pc.id == id ==> id !in s.w.hist.passed)
      && ((s.pc.Publishing? || s.pc.Recording?) && s.pc.id == id ==> id in s.w.hist.passed)
  {
    Reachable(c, acts);
    var s := Exec(c, Init, acts);
    hide Exec, RowsOk, DeviceOk, OpsOk, ConfirmOk, CleanOps, RunOk, AttemptInv, EndingInv, RecoveryInv, SchedulerInv;
    assert FileOk(c, s.w, id);
  }

  /** A reply that asks for review comes with an operation to review. */
  lemma ReviewRecorded(c: Config, acts: seq<Action>)
    ensures var s := Exec(c, Init, acts);
      s.pc.Returned? && Engine.NeedsReview(s.pc.reply) ==>
        exists op :: op in s.w.db.ops && s.w.db.ops[op] == s.pc.id
  {
    BackedRun(c, acts);
    hide Exec;
  }

  /** When the attempts are over, their number and that of the engine calls are bounded. */
  lemma AttemptsBounded(c: Config, acts: seq<Action>, id: Id, reply: Engine.Reply)
    requires c.Valid() && Exec(c, Init, acts).pc == Settle(id, reply)
    ensures var w := Exec(c, Init, acts).w;
      id in w.db.jobs && Count(w.hist.calls, id) <= w.db.jobs[id].attempts <= c.maxAttempts
  {
    Reachable(c, acts);
    hide Exec, WorldInv, ConfirmOk, CleanOps, AttemptInv, EndingInv, RecoveryInv, SchedulerInv;
    assert id in Exec(c, Init, acts).w.db.jobs;
    Admission.AttemptBounds(c, acts, id);
  }

  /** Every active job is in review. */
  ghost predicate NobodyRuns(jobs: map<Id, Job>) {
    forall i :: i in jobs && Active(jobs[i].state) ==> jobs[i].state == Cleaning && jobs[i].cleanupError != Clear
  }

  lemma AllTakenUp(before: map<Id, Job>, after: map<Id, Job>)
    requires before.Keys == after.Keys && forall i :: i in before ==> TakenUp(before[i], after[i])
    ensures NobodyRuns(after)
  {
  }

  class Worker {
    const c: Config
    const jobs: JobStore
    const files: FileStore
    /** The machine, of which this worker is the scheduler thread. */
    var sys: Sys
    ghost var acts: seq<Action>

    ghost predicate Valid()
      reads this, jobs, files
    {
      sys == Exec(c, Init, acts)
      && jobs.Valid() && jobs.Contents() == sys.w.db && files.Contents() == sys.w.fs
    }

    constructor (c: Config)
      ensures Valid() && this.c == c && sys == Init
      ensures fresh(jobs) && fresh(files)
    {
      this.c := c;
      jobs := new JobStore();
      files := new FileStore();
      sys, acts := Init, [];
    }

    /** The other goroutines get the processor. */
    method Others()
      requires Valid()
      modifies this, jobs, files
      ensures Valid() && old(acts) <= acts && sys.pc == old(sys).pc && old(sys).w.now <= sys.w.now
    {
      var env: seq<Action> := *;
      if exists k | 0 <= k < |env| :: !Api(env[k]) {
        return;
      }
      ApiKeepsPc(c, sys, env);
      ExecAppend(c, Init, acts, env);
      sys, acts := Exec(c, sys, env), acts + env;
      RunKeyed(c, acts);
      jobs.Restore(sys.w.db);
      files.Restore(sys.w.fs);
    }

    /** The machine makes the step that was just carried out. */
    method Took(o: Oracle)
      requires sys == Exec(c, Init, acts)
      modifies this
      ensures old(acts) <= acts && sys == Exec(c, Init, acts)
      ensures sys == old(sys).(w := WorkerStep(c, old(sys).w, old(sys).pc, o).0,
                               pc := WorkerStep(c, old(sys).w, old(sys).pc, o).1)
    {
      ExecAppend(c, Init, acts, [Work(o)]);
      ExecOne(c, sys, Work(o));
      sys, acts := Next(c, sys, Work(o)), acts + [Work(o)];
    }

    /** Content of this job is on record as validated and verified. */
    predicate HasPassed(id: Id)
      reads this
    {
      id in sys.w.hist.passed
    }

    // Each section is given what its environment answers: whether the database is up,
    // a file can be removed, a context has ended. Its contract says what it makes of the
    // answers. The procedures let the answers be anything.

    // ---- The shared procedures ----

    /** `cleanupDevice`, with the adapter's pass over the recorded operations. When it
        confirms, nothing the job did is outstanding. */
    method CleanupDevice(id: Id) returns (confirmed: bool)
      requires Valid() && InPass(sys.pc) && sys.pc.pass == Listing && sys.pc.id == id
      modifies this, jobs, files
      ensures Valid() && old(acts) <= acts
      ensures sys.pc == match old(sys).pc
                        case CleanRetry(_, k, reply, _) =>
                          if confirmed then Retrying(id, k, reply) else Settle(id, reply)
                        case CleanFinish(_, desired, bad, _) => Deciding(id, desired, bad, !confirmed)
                        case RecoverClean(_, left, _) =>
                          if confirmed then RecoverResolve(id, left) else RecoverNext(left)
      ensures confirmed ==> CleanOps(sys.w, id)
    {
      hide Exec, Next, CleanOps;
      ghost var at := sys.pc;
      confirmed := AskForCleanup(id);
      if confirmed {
        ConfirmedClean(c, acts, at);
      }
    }

    method AskForCleanup(id: Id) returns (confirmed: bool)
      requires Valid() && InPass(sys.pc) && sys.pc.pass == Listing && sys.pc.id == id
      modifies this, jobs, files
      ensures Valid() && old(acts) <= acts
      ensures sys.pc == AfterPass(old(sys).pc, confirmed)
    {
      hide Valid, PassNext, Exec, Next;
      ghost var at := sys.pc;
      var listed: bool, ended: bool, recorded: bool := *, *, *;
      var todo := ListOperations(id, at, listed);
      confirmed := true;
      var live := todo != {};
      while live && todo != {}
        invariant Valid() && old(acts) <= acts
        invariant sys.pc == if live then WithPass(at, Asking(todo, confirmed)) else AfterPass(at, false)
        decreases live, todo
      {
        var op :| op in todo;
        var report: Engine.Report := *;
        CleanUp(op, todo, confirmed, at, report);
        live, confirmed, todo := report.live, confirmed && report.confirmed && !report.failed, todo - {op};
      }
      if !live {
        return false;
      }
      confirmed := ConcludeCleanup(confirmed, at, ended, recorded);
    }

    /** No operations, or none that could be listed, cannot be confirmed. */
    method ListOperations(id: Id, ghost at: Pc, listed: bool) returns (todo: set<OpId>)
      requires Valid() && InPass(at) && sys.pc == at && at.pass == Listing && at.id == id
      modifies this, jobs, files
      ensures Valid() && old(acts) <= acts
      ensures sys.pc == if todo == {} then AfterPass(at, false) else WithPass(at, Asking(todo, true))
      ensures todo == if listed then set op | op in jobs.ops && jobs.ops[op] == id else {}
    {
      hide Exec, Next, WorkerStep;
      Others();
      todo := if listed then Operations(jobs.Contents(), id) else {};
      PassWork(c, sys.w, sys.pc, Answer(listed, false, false));
      Took(Answer(listed, false, false));
    }

    /** A deadline that passed meanwhile, or a flag that cannot be recorded, spoils the result. */
    method ConcludeCleanup(sofar: bool, ghost at: Pc, ended: bool, recorded: bool) returns (confirmed: bool)
      requires Valid() && InPass(at) && sys.pc == WithPass(at, Asking({}, sofar))
      modifies this, jobs, files
      ensures Valid() && old(acts) <= acts
      ensures sys.pc == AfterPass(at, confirmed)
      ensures confirmed <==> sofar && recorded && !ended
    {
      hide Exec, Next, WorkerStep;
      Others();
      PassWork(c, sys.w, sys.pc, Answer(recorded, ended, false));
      Took(Answer(recorded, ended, false));
      confirmed := sofar && recorded && !ended;
    }

    /** One call into the library, unless the context has ended before it. */
    method CleanUp(op: OpId, ghost todo: set<OpId>, ghost sofar: bool, ghost at: Pc, report: Engine.Report)
      requires Valid() && InPass(at) && sys.pc == WithPass(at, Asking(todo, sofar)) && op in todo
      modifies this, jobs, files
      ensures Valid() && old(acts) <= acts
      ensures sys.pc == if report.live
                        then WithPass(at, Asking(todo - {op}, sofar && report.confirmed && !report.failed))
                        else AfterPass(at, false)
    {
      hide Exec, Next, WorkerStep;
      var clean := report.confirmed && !report.failed;
      Others();
      PassWork(c, sys.w, sys.pc, Answer(clean, !report.live, false).(op := op));
      Took(Answer(clean, !report.live, false).(op := op));
    }

    /** `Expire`. An error stops the scheduler, ends the job's run, or ends recovery. */
    method Expire() returns (ok: bool)
      requires Valid() && InExpiry(sys.pc) && sys.pc.e == Snapshot
      modifies this, jobs, files
      ensures Valid() && old(acts) <= acts
      ensures sys.pc == match old(sys).pc
                        case SchedulerExpire(_) => if ok then Claiming else Stopped
                        case FinishExpire(id, _) => if ok then Reading(id) else Releasing(id, true)
                        case RecoverExpire(known, _) => if ok then RecoverNext(known) else Down
    {
      hide Valid, Exec, Next;
      ghost var at := sys.pc;
      var up: bool := *;
      var todo := TakeSnapshot(at, up);
      ok := up;
      while ok && todo != map[]
        invariant Valid() && old(acts) <= acts
        invariant sys.pc == if ok then WithExpiry(at, Loop(todo)) else AfterExpiry(at, false)
        decreases ok, |todo|
      {
        var i :| i in todo;
        var removable: bool, writable: bool := *, *;
        ghost var seen;
        ok, seen := ExpireRow(i, todo, at, removable, writable);
        todo := todo - {i};
      }
      if ok {
        NoRowsLeft(at);
      }
    }

    method TakeSnapshot(ghost at: Pc, up: bool) returns (rows: map<Id, Job>)
      requires Valid() && InExpiry(at) && sys.pc == at && at.e == Snapshot
      modifies this, jobs, files
      ensures Valid() && old(acts) <= acts
      ensures sys.pc == if up then WithExpiry(at, Loop(rows)) else AfterExpiry(at, false)
      ensures rows == jobs.jobs
    {
      hide Exec, Next, WorkerStep;
      Others();
      rows := jobs.jobs;
      ExpiryWork(c, sys.w, sys.pc, Answer(up, false, false));
      Took(Answer(up, false, false));
    }

    method NoRowsLeft(ghost at: Pc)
      requires Valid() && InExpiry(at) && sys.pc == WithExpiry(at, Loop(map[]))
      modifies this, jobs, files
      ensures Valid() && old(acts) <= acts
      ensures sys.pc == AfterExpiry(at, true)
    {
      hide Exec, Next, WorkerStep;
      Others();
      ExpiryWork(c, sys.w, sys.pc, Answer(true, false, false));
      Took(Answer(true, false, false));
    }

    /** One turn of the loop of `Expire`; `seen` is the time it compares with. */
    method ExpireRow(i: Id, todo: map<Id, Job>, ghost at: Pc, removable: bool, writable: bool)
      returns (ok: bool, ghost seen: Time)
      requires Valid() && InExpiry(at) && sys.pc == WithExpiry(at, Loop(todo)) && i in todo
      modifies this, jobs, files
      ensures Valid() && old(acts) <= acts
      ensures sys.pc == if ok then WithExpiry(at, Loop(todo - {i})) else AfterExpiry(at, false)
      ensures old(sys).w.now <= seen <= sys.w.now
      ensures ok <==>
              todo[i].expiresAt.None? || todo[i].artifactExpired || seen < todo[i].expiresAt.value
              || (removable && writable)
    {
      hide Exec, Next, WorkerStep;
      var row := todo[i];
      Others();
      SameReturn(at, Loop(todo), if Due(row, sys.w.now) then Mark(row, todo - {i}) else Loop(todo - {i}), false);
      hide WithExpiry, AfterExpiry, InExpiry;
      seen := sys.w.now;
      ExpiryWork(c, sys.w, sys.pc, Answer(removable, false, false).(id := i));
      Boundary.ExpiryClock(sys.w, sys.pc, Answer(removable, false, false).(id := i));
      if !Due(row, sys.w.now) {
        Took(Answer(removable, false, false).(id := i));
        return true, seen;
      }
      files.Remove(ArtifactFiles, row.id, removable, false);
      Took(Answer(removable, false, false).(id := i));
      if removable {
        RecordExpiry(row, todo - {i}, at, writable);
      }
      ok := removable && writable;
    }

    method RecordExpiry(row: Job, ghost rest: map<Id, Job>, ghost at: Pc, up: bool)
      requires Valid() && InExpiry(at) && sys.pc == WithExpiry(at, Mark(row, rest))
      modifies this, jobs, files
      ensures Valid() && old(acts) <= acts
      ensures sys.pc == if up then WithExpiry(at, Loop(rest)) else AfterExpiry(at, false)
      ensures old(sys).w.now <= sys.w.now
      ensures up && row.id in jobs.jobs ==>
                && jobs.jobs[row.id].artifactExpired
                && (row.state == Cleaning ==>
                      jobs.jobs[row.id].pending == Some(Failed) && jobs.jobs[row.id].errorCode == ArtifactExpiredCode)
    {
      hide Exec, Next, WorkerStep;
      Others();
      ExpiryWork(c, sys.w, sys.pc, Answer(up, false, false));
      Boundary.ExpiryClock(sys.w, sys.pc, Answer(up, false, false));
      if up {
        jobs.MarkExpired(row);
      }
      Took(Answer(up, false, false));
    }

    // ---- Engine attempts ----

    /** The adapter's call of the library, preceded by a recorded operation. Device review is
        asked for only when there is an operation to review. */
    method Decrypt(id: Id, attempt: nat) returns (reply: Engine.Reply)
      requires Valid() && sys.pc == Calling(id, attempt)
      modifies this, jobs, files
      ensures Valid() && old(acts) <= acts
      ensures sys.pc == Returned(id, attempt, reply)
      ensures Engine.NeedsReview(reply) ==> exists op :: op in jobs.ops && jobs.ops[op] == id
    {
      hide Exec, Next;
      reply := CallEngine(id, attempt);
      ReviewRecorded(c, acts);
    }

    method CallEngine(id: Id, attempt: nat) returns (reply: Engine.Reply)
      requires Valid() && sys.pc == Calling(id, attempt)
      modifies this, jobs, files
      ensures Valid() && old(acts) <= acts
      ensures sys.pc == Returned(id, attempt, reply)
    {
      hide Valid, Exec, Next;
      var early: Option<Code>, up: bool, opId: OpId := *, *, *;
      var op;
      op, reply := StartOperation(id, attempt, early, up, opId);
      if op.Some? {
        var output: Option<Bytes>, call: Engine.Call, ended: bool := *, *, *;
        WriteOutput(id, attempt, op.value, output);
        reply := Return(id, attempt, op.value, call, ended);
      }
    }

    /** `early`: the attempt ends with this code before an operation is recorded. */
    method StartOperation(id: Id, attempt: nat, early: Option<Code>, up: bool, opId: OpId)
      returns (op: Option<OpId>, reply: Engine.Reply)
      requires Valid() && sys.pc == Calling(id, attempt)
      modifies this, jobs, files
      ensures Valid() && old(acts) <= acts
      ensures sys.pc == if op.Some? then OnDevice(id, attempt, op.value) else Returned(id, attempt, reply)
      ensures early.Some? ==> op == None && reply == Engine.Reply(false, Engine.Failure(early.value, false, false))
      ensures early.None? && op == None ==>
                reply == Engine.Reply(false, Engine.Failure(StorageFailed, false, false)) && (!up || opId in jobs.ops)
      ensures op.Some? ==> up && op.value == opId && opId in jobs.ops && jobs.ops[opId] == id
    {
      hide Exec, Next, RecoveryStep, PublicationStep, EndingStep, SchedulerStep;
      Others();
      if early.Some? {
        Took(Answer(true, false, true).(code := early.value));
        return None, Engine.EarlyFailure(early.value);
      }
      NeverRefused(c, acts);
      var refused := Some(NotFound);
      if up {
        refused := jobs.StartOperation(id, opId);
      }
      Took(Answer(up, false, false).(op := opId));
      op := if refused == None then Some(opId) else None;
      reply := Engine.EarlyFailure(StorageFailed);
    }

    method WriteOutput(id: Id, attempt: nat, op: OpId, output: Option<Bytes>)
      requires Valid() && sys.pc == OnDevice(id, attempt, op)
      modifies this, jobs, files
      ensures Valid() && old(acts) <= acts
      ensures sys.pc == OnDevice(id, attempt, op)
      ensures output.Some? && id in files.work ==> files.work[id] == output
    {
      hide Exec, Next, RecoveryStep, PublicationStep, EndingStep, SchedulerStep;
      if output.Some? {
        Others();
        files.Output(id, output.value);
        Took(Answer(true, false, true).(bytes := output.value));
      }
    }

    method Return(id: Id, attempt: nat, op: OpId, call: Engine.Call, ended: bool) returns (reply: Engine.Reply)
      requires Valid() && sys.pc == OnDevice(id, attempt, op)
      modifies this, jobs, files
      ensures Valid() && old(acts) <= acts
      ensures sys.pc == Returned(id, attempt, reply)
      ensures reply == Engine.Classify(call, ended)
    {
      hide Exec, Next, RecoveryStep, PublicationStep, EndingStep, SchedulerStep;
      Others();
      Took(Answer(true, ended, false).(call := call));
      reply := Engine.Classify(call, ended);
    }

    /** The test after an attempt: another one is made exactly after a retryable failure, while
        attempts are left and the context is live. */
    method MayRetry(id: Id, attempt: nat, reply: Engine.Reply, ended: bool) returns (again: bool)
      requires Valid() && sys.pc == Returned(id, attempt, reply) && attempt <= c.maxAttempts
      modifies this, jobs, files
      ensures Valid() && old(acts) <= acts
      ensures again <==> reply.err.Failure? && reply.err.retryable && attempt < c.maxAttempts && !ended
      ensures sys.pc == if !again then Settle(id, reply)
                        else if reply.review || reply.err.review then CleanRetry(id, attempt, reply, Listing)
                        else Retrying(id, attempt, reply)
    {
      hide Exec, Next, RecoveryStep, PublicationStep, EndingStep, SchedulerStep;
      Others();
      Took(Answer(true, ended, false));
      again := reply.err.Failure? && reply.err.retryable && attempt != c.maxAttempts && !ended;
    }

    method CountRetry(id: Id, attempt: nat, reply: Engine.Reply, up: bool)
      requires Valid() && sys.pc == Retrying(id, attempt, reply) && attempt >= 1 && c.Valid()
      modifies this, jobs, files
      ensures Valid() && old(acts) <= acts
      ensures sys.pc == if up then Backoff(id, attempt, reply) else Settle(id, reply.(err := Engine.OtherError))
      ensures up ==> id in jobs.jobs && jobs.jobs[id].attempts == attempt + 1
    {
      hide Exec, Next, RecoveryStep, PublicationStep, EndingStep, SchedulerStep;
      Others();
      if up {
        jobs.Retry(id);
      }
      Took(Answer(up, false, false));
      if up {
        RetryCounted(c, acts);
      }
    }

    /** The back-off: the timer fires, or the context ends first. */
    method Wait(id: Id, attempt: nat, reply: Engine.Reply, ended: bool, fired: bool) returns (last: Engine.Reply)
      requires Valid() && sys.pc == Backoff(id, attempt, reply)
      modifies this, jobs, files
      ensures Valid() && old(acts) <= acts
      ensures sys.pc == if ended then Settle(id, last) else Calling(id, attempt + 1)
      ensures last == if fired then reply else reply.(err := Engine.OtherError)
    {
      hide Exec, Next, RecoveryStep, PublicationStep, EndingStep, SchedulerStep;
      Others();
      Took(Answer(true, ended, fired));
      last := if fired then reply else reply.(err := Engine.OtherError);
    }

    /** After an attempt: clean the device where needed, count the retry, and wait. */
    method PrepareRetry(id: Id, attempt: nat, reply: Engine.Reply) returns (ended: bool, last: Engine.Reply)
      requires Valid() && sys.pc == Returned(id, attempt, reply) && 1 <= attempt <= c.maxAttempts && c.Valid()
      modifies this, jobs, files
      ensures Valid() && old(acts) <= acts
      ensures sys.pc == if ended then Settle(id, last) else Calling(id, attempt + 1)
      ensures !ended ==> attempt < c.maxAttempts
    {
      hide Valid, Exec, Next;
      var late: bool, up: bool, fired: bool := *, *, *;
      var again := MayRetry(id, attempt, reply, late);
      if !again {
        return true, reply;
      }
      if reply.review || reply.err.review {
        var confirmed := CleanupDevice(id);
        if !confirmed {
          return true, reply;
        }
      }
      CountRetry(id, attempt, reply, up);
      if !up {
        return true, reply.(err := Engine.OtherError);
      }
      ended := *;
      last := Wait(id, attempt, reply, ended, fired);
    }

    /** The attempts of `Run`: at most as many engine calls as recorded attempts, and at
        most as many of these as configured. */
    method Attempts(id: Id) returns (reply: Engine.Reply)
      requires Valid() && sys.pc == Calling(id, 1) && c.Valid()
      modifies this, jobs, files
      ensures Valid() && old(acts) <= acts
      ensures sys.pc == Settle(id, reply)
      ensures id in jobs.jobs
      ensures Count(sys.w.hist.calls, id) <= jobs.jobs[id].attempts <= c.maxAttempts
    {
      hide Exec, Next;
      reply := AttemptLoop(id);
      AttemptsBounded(c, acts, id, reply);
    }

    method AttemptLoop(id: Id) returns (reply: Engine.Reply)
      requires Valid() && sys.pc == Calling(id, 1) && c.Valid()
      modifies this, jobs, files
      ensures Valid() && old(acts) <= acts
      ensures sys.pc == Settle(id, reply)
    {
      hide Valid, Exec, Next;
      var attempt := 1;
      while true
        invariant Valid() && old(acts) <= acts
        invariant sys.pc == Calling(id, attempt) && 1 <= attempt <= c.maxAttempts
        decreases c.maxAttempts - attempt
      {
        reply := Decrypt(id, attempt);
        var ended;
        ended, reply := PrepareRetry(id, attempt, reply);
        if ended {
          break;
        }
        attempt := attempt + 1;
      }
    }

    // ---- Verification and publication ----

    /** The outcome the attempts call for. `healthy`: the job monitor, the row and the metadata
        write do not fail; `ended`: the context has ended when the outcome is chosen;
        `late`: it has when cleanup is about to begin. */
    method Conclude(id: Id, reply: Engine.Reply, healthy: bool, ended: bool, late: bool)
      returns (verdict: Option<(State, Code)>)
      requires Valid() && sys.pc == Settle(id, reply)
      modifies this, jobs, files
      ensures Valid() && old(acts) <= acts
      ensures sys.pc == match verdict
                        case None => Releasing(id, true)
                        case Some((desired, code)) =>
                          var review := reply.review || reply.err.OtherError?
                                        || (reply.err.Failure? && reply.err.review);
                          if desired == Completed then ToVerifying(id, review)
                          else Finishing(id, desired, code, review)
      ensures verdict.None? <==> !healthy
      ensures healthy ==>
                id in jobs.jobs
                && verdict.value == if jobs.jobs[id].cancelRequested && !late then (Cancelled, CancelledCode)
                                    else if jobs.jobs[id].cancelRequested || ended then (Failed, TimeoutCode)
                                    else if reply.err.NoError? then (Completed, NoCode)
                                    else if late then (Failed, TimeoutCode)
                                    else if reply.err.Failure? then (Failed, reply.err.code)
                                    else (Failed, DecryptionFailed)
    {
      hide Exec, Next, RecoveryStep, AttemptStep, EndingStep, SchedulerStep;
      Others();
      NeverRefused(c, acts);
      if !healthy {
        Took(Answer(false, ended, late));
        return None;
      }
      var (desired, code) := Verdict(reply, jobs.jobs[id].cancelRequested, ended);
      if desired != Completed && late {
        desired, code := Failed, TimeoutCode;
      }
      Took(Answer(true, ended, late));
      verdict := Some((desired, code));
    }

    method ToVerification(id: Id, review: bool, up: bool)
      requires Valid() && sys.pc == ToVerifying(id, review)
      modifies this, jobs, files
      ensures Valid() && old(acts) <= acts
      ensures sys.pc == if up then Validating(id, review) else Releasing(id, true)
      ensures up ==> id in jobs.jobs && jobs.jobs[id].state == Verifying
    {
      hide Exec, Next, RecoveryStep, AttemptStep, EndingStep, SchedulerStep;
      Others();
      NeverRefused(c, acts);
      if up {
        var refused := jobs.Change(id, Verifying);
      }
      Took(Answer(up, false, false));
    }

    method Validate(id: Id, review: bool, readable: bool, late: bool) returns (content: Option<Bytes>, code: Code)
      requires Valid() && sys.pc == Validating(id, review)
      modifies this, jobs, files
      ensures Valid() && old(acts) <= acts
      ensures sys.pc == if content.Some? then Checking(id, review, content.value)
                        else Finishing(id, Failed, code, review)
      ensures content.Some? <==>
              readable && id in files.work && files.work[id].Some? && c.accepts(files.work[id].value)
      ensures content.Some? ==> content == files.work[id]
      ensures code == if late then TimeoutCode else VerificationFailed
      ensures !HasPassed(id)
    {
      hide Exec, Next, RecoveryStep, AttemptStep, EndingStep, SchedulerStep;
      Others();
      PassedFacts(c, acts, id);
      content := if readable && id in files.work then files.work[id] else None;
      if content.Some? && !c.accepts(content.value) {
        content := None;
      }
      Took(Answer(readable, late, false));
      code := if late then TimeoutCode else VerificationFailed;
    }

    method Check(id: Id, review: bool, content: Bytes, verified: bool, late: bool) returns (code: Code)
      requires Valid() && sys.pc == Checking(id, review, content)
      modifies this, jobs, files
      ensures Valid() && old(acts) <= acts
      ensures sys.pc == if verified then Publishing(id, review) else Finishing(id, Failed, code, review)
      ensures code == if late then TimeoutCode else VerificationFailed
      ensures HasPassed(id) == verified && (verified ==> sys.w.hist.passed[id] == content)
    {
      hide Exec, Next, RecoveryStep, AttemptStep, EndingStep, SchedulerStep;
      Others();
      PassedFacts(c, acts, id);
      NeverRefused(c, acts);
      Took(Answer(verified, late, false));
      code := if late then TimeoutCode else VerificationFailed;
    }

    /** A publication that fails may or may not have renamed the output. */
    method Publish(id: Id, review: bool, healthy: bool, renamed: bool, late: bool)
      returns (size: nat, hash: Digest, expiry: Time, code: Code)
      requires Valid() && sys.pc == Publishing(id, review)
      modifies this, jobs, files
      ensures Valid() && old(acts) <= acts
      ensures sys.pc == if healthy then Recording(id, review, size, hash, expiry)
                        else Finishing(id, Failed, code, review)
      ensures healthy ==>
                && id in files.artifacts && size == |files.artifacts[id]| && hash == c.sha(files.artifacts[id])
                && expiry == sys.w.now + c.retention
      ensures code == if late then TimeoutCode else StorageFailed
      ensures HasPassed(id)
    {
      hide Exec, Next, WorkerStep;
      Others();
      PassedFacts(c, acts, id);
      NeverRefused(c, acts);
      expiry := sys.w.now + c.retention;
      PublishWork(c, sys.w, id, review, Answer(healthy, late, renamed));
      var published := files.Publish(id, healthy, renamed);
      Took(Answer(healthy, late, renamed));
      size, hash := 0, 0;
      if published.Some? {
        size, hash := |published.value|, c.sha(published.value);
      }
      code := if late then TimeoutCode else StorageFailed;
    }

    method RecordArtifact(id: Id, review: bool, size: nat, hash: Digest, expiry: Time, up: bool, late: bool)
      returns (desired: State, code: Code)
      requires Valid() && sys.pc == Recording(id, review, size, hash, expiry)
      modifies this, jobs, files
      ensures Valid() && old(acts) <= acts
      ensures sys.pc == if up then Finishing(id, desired, code, review) else Releasing(id, true)
      ensures (desired, code) == if late then (Failed, TimeoutCode) else (Completed, NoCode)
      ensures up ==>
                && id in jobs.jobs && jobs.jobs[id].bytes == size && jobs.jobs[id].sha256 == Some(hash)
                && jobs.jobs[id].expiresAt == Some(expiry)
      ensures HasPassed(id)
    {
      hide Exec, Next, RecoveryStep, AttemptStep, EndingStep, SchedulerStep;
      Others();
      PassedFacts(c, acts, id);
      NeverRefused(c, acts);
      if up {
        jobs.Record(id, size, hash, expiry);
      }
      Took(Answer(up, late, false));
      desired, code := if late then Failed else Completed, if late then TimeoutCode else NoCode;
    }

    /** Archive validation, then independent verification. `None`: verified. */
    method Verify(id: Id, review: bool) returns (ok: bool, failure: Option<Code>)
      requires Valid() && sys.pc == ToVerifying(id, review)
      modifies this, jobs, files
      ensures Valid() && old(acts) <= acts
      ensures sys.pc == if !ok then Releasing(id, true)
                        else if failure.None? then Publishing(id, review)
                        else Finishing(id, Failed, failure.value, review)
      ensures failure.Some? ==> failure.value == VerificationFailed || failure.value == TimeoutCode
      ensures ok ==> HasPassed(id) == failure.None?
    {
      hide Valid, Exec, Next;
      var readable: bool, verified: bool, late: bool := *, *, *;
      ok, failure := *, None;
      ToVerification(id, review, ok);
      if ok {
        var content, code := Validate(id, review, readable, late);
        if content.None? {
          return true, Some(code);
        }
        code := Check(id, review, content.value, verified, late);
        if !verified {
          failure := Some(code);
        }
      }
    }

    /** Publication, and the metadata that makes it final. `None`: a database error. */
    method PublishAndRecord(id: Id, review: bool) returns (verdict: Option<(State, Code)>)
      requires Valid() && sys.pc == Publishing(id, review)
      modifies this, jobs, files
      ensures Valid() && old(acts) <= acts
      ensures sys.pc == match verdict
                        case None => Releasing(id, true)
                        case Some((desired, code)) => Finishing(id, desired, code, review)
      ensures verdict.Some? ==>
                verdict.value == (Completed, NoCode)
                || (verdict.value.0 == Failed && (verdict.value.1 == StorageFailed || verdict.value.1 == TimeoutCode))
      ensures verdict.Some? ==> HasPassed(id)
    {
      hide Valid, Exec, Next;
      var healthy: bool, renamed: bool, up: bool, late: bool := *, *, *, *;
      var size, hash, expiry, code := Publish(id, review, healthy, renamed, late);
      if !healthy {
        return Some((Failed, code));
      }
      late := *;
      var desired;
      desired, code := RecordArtifact(id, review, size, hash, expiry, up, late);
      verdict := if up then Some((desired, code)) else None;
    }

    /** The part of `Run` between the attempts and `finish`, when the outcome may be
        a completed job. `None`: a database error ends the run at once. */
    method VerifyAndPublish(id: Id, review: bool) returns (verdict: Option<(State, Code)>)
      requires Valid() && sys.pc == ToVerifying(id, review)
      modifies this, jobs, files
      ensures Valid() && old(acts) <= acts
      ensures sys.pc == match verdict
                        case None => Releasing(id, true)
                        case Some((desired, code)) => Finishing(id, desired, code, review)
      ensures verdict.Some? ==>
                (verdict.value == (Completed, NoCode) && HasPassed(id))
                || (verdict.value.0 == Failed
                    && (verdict.value.1 == TimeoutCode
                        || verdict.value.1 == if HasPassed(id) then StorageFailed else VerificationFailed))
      ensures verdict == Some((Completed, NoCode)) ==>
                id in jobs.jobs && jobs.jobs[id].expiresAt.Some? && jobs.jobs[id].sha256.Some?
    {
      hide Exec, Next;
      var ok, failure := Verify(id, review);
      if !ok {
        return None;
      }
      if failure.Some? {
        return Some((Failed, failure.value));
      }
      verdict := PublishAndRecord(id, review);
      if verdict == Some((Completed, NoCode)) {
        RecordedArtifact(c, acts, id, review);
      }
    }

    // ---- finish ----

    /** The cut-off: an accepted cancellation wins. */
    method BeginCleanup(id: Id, desired: State, code: Code, ghost review: bool, up: bool) returns (committed: State)
      requires Valid() && sys.pc == Finishing(id, desired, code, review)
      modifies this, jobs, files
      ensures Valid() && old(acts) <= acts
      ensures sys.pc == if up then Sweep(id, committed, review, SweepWork, false) else Releasing(id, true)
      ensures up ==>
                && id in jobs.jobs && jobs.jobs[id].state == Cleaning && jobs.jobs[id].pending == Some(committed)
                && (committed, jobs.jobs[id].errorCode)
                   == if jobs.jobs[id].cancelRequested then (Cancelled, CancelledCode) else (desired, code)
    {
      hide Exec, Next, RecoveryStep, AttemptStep, PublicationStep, SchedulerStep;
      committed := desired;
      Others();
      NeverRefused(c, acts);
      if up {
        var refused;
        committed, refused := jobs.BeginCleanup(id, desired, code);
      }
      Took(Answer(up, false, false));
    }

    method SweepFiles(id: Id, desired: State, ghost review: bool, stage: Stage, sofar: bool, removed: bool, lost: bool)
      returns (bad: bool)
      requires Valid() && sys.pc == Sweep(id, desired, review, stage, sofar)
      modifies this, jobs, files
      ensures Valid() && old(acts) <= acts
      ensures sys.pc == match stage
                        case SweepWork => Sweep(id, desired, review, SweepInput, bad)
                        case SweepInput => Sweep(id, desired, review, SweepTemp, bad)
                        case SweepTemp =>
                          if desired != Completed then Sweep(id, desired, review, SweepArtifact, bad)
                          else if review then CleanFinish(id, desired, bad, Listing)
                          else Deciding(id, desired, bad, false)
                        case SweepArtifact =>
                          if review then CleanFinish(id, desired, bad, Listing)
                          else Deciding(id, desired, bad, false)
      ensures bad <==> sofar || !removed
      ensures removed && stage == SweepWork ==> id !in files.work
      ensures removed && stage == SweepInput ==> id !in files.inputs
      ensures removed && stage == SweepArtifact ==> id !in files.artifacts
    {
      hide Exec, Next, RecoveryStep, AttemptStep, PublicationStep, SchedulerStep;
      Others();
      match stage {
        case SweepWork => files.Remove(WorkDirs, id, removed, lost);
        case SweepInput => files.Remove(InputFiles, id, removed, lost);
        case SweepTemp =>
        case SweepArtifact => files.Remove(ArtifactFiles, id, removed, lost);
      }
      Took(Answer(removed, false, lost));
      bad := sofar || !removed;
    }

    /** Quarantine when either side of cleanup is incomplete. */
    method Decide(id: Id, desired: State, bad: bool, review: bool, up: bool) returns (quarantined: bool)
      requires Valid() && sys.pc == Deciding(id, desired, bad, review)
      modifies this, jobs, files
      ensures Valid() && old(acts) <= acts
      ensures quarantined <==> bad || review
      ensures sys.pc == if quarantined then Releasing(id, !up) else FinishExpire(id, Snapshot)
      ensures quarantined && up ==>
                && jobs.device == Device(None, true, if bad then ServerCleanupFailed else DeviceUnconfirmed)
                && id in jobs.jobs && jobs.jobs[id].pending == Some(desired)
                && jobs.jobs[id].cleanupError == if bad then ServerCleanupFailed else DeviceUnconfirmed
    {
      hide Exec, Next, RecoveryStep, AttemptStep, PublicationStep, SchedulerStep;
      Others();
      NeverRefused(c, acts);
      quarantined := bad || review;
      if quarantined && up {
        jobs.Quarantine(id, if bad then ServerCleanupFailed else DeviceUnconfirmed, desired);
      }
      Took(Answer(up, false, false));
    }

    method ReadOutcome(id: Id, up: bool) returns (desired: State)
      requires Valid() && sys.pc == Reading(id)
      modifies this, jobs, files
      ensures Valid() && old(acts) <= acts
      ensures sys.pc == if up then Closing(id, desired) else Releasing(id, true)
      ensures up ==> id in jobs.jobs && jobs.jobs[id].pending == Some(desired)
    {
      hide Exec, Next, RecoveryStep, AttemptStep, PublicationStep, SchedulerStep;
      Others();
      NeverRefused(c, acts);
      desired := jobs.jobs[id].pending.value;
      Took(Answer(up, false, false));
    }

    method CloseJob(id: Id, desired: State, up: bool)
      requires Valid() && sys.pc == Closing(id, desired)
      modifies this, jobs, files
      ensures Valid() && old(acts) <= acts
      ensures sys.pc == Releasing(id, !up)
      ensures up ==> id in jobs.jobs && jobs.jobs[id].state == desired
    {
      hide Exec, Next, RecoveryStep, AttemptStep, PublicationStep, SchedulerStep;
      Others();
      NeverRefused(c, acts);
      if up {
        var refused := jobs.Change(id, desired);
      }
      Took(Answer(up, false, false));
    }

    /** Local removals; one that fails does not keep the others, nor the device cleanup, from
        being tried. */
    method RemoveFiles(id: Id, desired: State, ghost review: bool) returns (bad: bool)
      requires Valid() && sys.pc == Sweep(id, desired, review, SweepWork, false)
      modifies this, jobs, files
      ensures Valid() && old(acts) <= acts
      ensures sys.pc == if review then CleanFinish(id, desired, bad, Listing) else Deciding(id, desired, bad, false)
    {
      hide Valid, Exec, Next;
      var removed: bool, lost: bool := *, *;
      bad := SweepFiles(id, desired, review, SweepWork, false, removed, lost);
      removed := *;
      bad := SweepFiles(id, desired, review, SweepInput, bad, removed, false);
      removed := *;
      bad := SweepFiles(id, desired, review, SweepTemp, bad, removed, false);
      if desired != Completed {
        removed := *;
        bad := SweepFiles(id, desired, review, SweepArtifact, bad, removed, false);
      }
    }

    method Finish(id: Id, desired: State, code: Code, review: bool) returns (failed: bool)
      requires Valid() && sys.pc == Finishing(id, desired, code, review)
      modifies this, jobs, files
      ensures Valid() && old(acts) <= acts
      ensures sys.pc == Releasing(id, failed)
    {
      hide Valid, Exec, Next;
      var up: bool := *;
      var committed := BeginCleanup(id, desired, code, review, up);
      if !up {
        return true;
      }
      var bad := RemoveFiles(id, committed, review);
      var unconfirmed := review;
      if review {
        var confirmed := CleanupDevice(id);
        unconfirmed := !confirmed;
      }
      failed := DecideAndEnd(id, committed, bad, unconfirmed);
    }

    method DecideAndEnd(id: Id, desired: State, bad: bool, review: bool) returns (failed: bool)
      requires Valid() && sys.pc == Deciding(id, desired, bad, review)
      modifies this, jobs, files
      ensures Valid() && old(acts) <= acts
      ensures sys.pc == Releasing(id, failed)
    {
      hide Valid, Exec, Next;
      var up: bool := *;
      var quarantined := Decide(id, desired, bad, review, up);
      if quarantined {
        return !up;
      }
      failed := EndJob(id);
    }

    /** The last part of `finish`: retention first, then the committed outcome. */
    method EndJob(id: Id) returns (failed: bool)
      requires Valid() && sys.pc == FinishExpire(id, Snapshot)
      modifies this, jobs, files
      ensures Valid() && old(acts) <= acts
      ensures sys.pc == Releasing(id, failed)
    {
      hide Valid, Exec, Next;
      var ok := Expire();
      if !ok {
        return true;
      }
      var readable: bool, writable: bool := *, *;
      var outcome := ReadOutcome(id, readable);
      if !readable {
        return true;
      }
      CloseJob(id, outcome, writable);
      failed := !writable;
    }

    // ---- Run and the scheduler ----

    method MakeWorkspace(id: Id, healthy: bool)
      requires Valid() && sys.pc == Pc.MakeWorkspace(id)
      modifies this, jobs, files
      ensures Valid() && old(acts) <= acts
      ensures sys.pc == if healthy then Calling(id, 1) else Releasing(id, true)
      ensures healthy ==> id in files.work && files.work[id] == None
    {
      hide Exec, Next, RecoveryStep, PublicationStep, EndingStep, SchedulerStep;
      Others();
      NeverRefused(c, acts);
      var ok := files.Workspace(id, healthy);
      Took(Answer(healthy, false, false));
    }

    method Release(id: Id, failed: bool, up: bool) returns (ok: bool)
      requires Valid() && sys.pc == Releasing(id, failed)
      modifies this, jobs, files
      ensures Valid() && old(acts) <= acts
      ensures sys.pc == if ok then Idle else Stopped
      ensures ok <==> up && !failed
      ensures up ==> jobs.device.owner != Some(id)
    {
      hide Exec, Next, RecoveryStep, AttemptStep, PublicationStep, SchedulerStep;
      Others();
      if up {
        jobs.Release(id);
      }
      Took(Answer(up, false, false));
      ok := up && !failed;
    }

    method RunJob(id: Id, cancelled: bool) returns (failed: bool)
      requires Valid() && c.Valid()
      requires sys.pc == if cancelled then Finishing(id, Cancelled, NoCode, false) else Pc.MakeWorkspace(id)
      modifies this, jobs, files
      ensures Valid() && old(acts) <= acts
      ensures sys.pc == Releasing(id, failed)
    {
      hide Valid, Exec, Next;
      if cancelled {
        failed := Finish(id, Cancelled, NoCode, false);
        return;
      }
      var healthy: bool := *;
      MakeWorkspace(id, healthy);
      if !healthy {
        return true;
      }
      var reply := Attempts(id);
      failed := Settlement(id, reply);
    }

    /** `Run` after its attempts. */
    method Settlement(id: Id, reply: Engine.Reply) returns (failed: bool)
      requires Valid() && sys.pc == Settle(id, reply)
      modifies this, jobs, files
      ensures Valid() && old(acts) <= acts
      ensures sys.pc == Releasing(id, failed)
    {
      hide Valid, Exec, Next;
      var review := Engine.NeedsReview(reply);
      var healthy: bool, ended: bool, late: bool := *, *, *;
      var verdict := Conclude(id, reply, healthy, ended, late);
      if verdict.Some? && verdict.value.0 == Completed {
        verdict := VerifyAndPublish(id, review);
      }
      if verdict.None? {
        return true;
      }
      failed := Finish(id, verdict.value.0, verdict.value.1, review);
    }

    /** One job, from its claim to the release of the lease. When it ends well, the
        lease is free, nothing needs the device, and the job is finished or in review. */
    method Run(id: Id, cancelled: bool) returns (ok: bool)
      requires Valid() && c.Valid()
      requires sys.pc == if cancelled then Finishing(id, Cancelled, NoCode, false) else Pc.MakeWorkspace(id)
      modifies this, jobs, files
      ensures Valid() && old(acts) <= acts
      ensures sys.pc == if ok then Idle else Stopped
      ensures ok ==> jobs.device.owner == None && id in jobs.jobs
      ensures ok ==> forall i :: i in jobs.jobs ==> !Live(jobs.jobs[i])
      ensures ok ==> Terminal(jobs.jobs[id].state) || Unresolved(jobs.jobs[id])
    {
      hide Exec, Next;
      ghost var before := acts;
      var failed := RunJob(id, cancelled);
      var up: bool := *;
      ok := Release(id, failed, up);
      if ok {
        JobEnds(c, before, acts, id);
      }
    }

    /** `None`: the database is down, or nothing can be claimed now. */
    method Claim(up: bool) returns (claimed: Option<Job>)
      requires Valid() && sys.pc == Claiming
      modifies this, jobs, files
      ensures Valid() && old(acts) <= acts
      ensures !up ==> sys.pc == Stopped && claimed == None
      ensures up && claimed.None? ==>
                && sys.pc == Idle
                && (jobs.device.quarantined || jobs.device.owner != None
                    || forall i :: i in jobs.jobs ==> jobs.jobs[i].state != Queued)
      ensures claimed.Some? ==>
                && claimed.value.state == Running && jobs.device.owner == Some(claimed.value.id)
                && sys.pc == if claimed.value.cancelRequested then Finishing(claimed.value.id, Cancelled, NoCode, false)
                             else Pc.MakeWorkspace(claimed.value.id)
    {
      hide Exec, Next, RecoveryStep, AttemptStep, PublicationStep, EndingStep;
      claimed := None;
      Others();
      AllAvailable(c, acts);
      if up {
        claimed := jobs.Claim(sys.w.now);
      }
      Took(Answer(up, false, false).(id := if claimed.Some? then claimed.value.id else 0));
    }

    method Begin(ended: bool)
      requires Valid() && sys.pc == Idle
      modifies this, jobs, files
      ensures Valid() && old(acts) <= acts
      ensures sys.pc == if ended then Stopped else SchedulerExpire(Snapshot)
    {
      hide Exec, Next, RecoveryStep, AttemptStep, PublicationStep, EndingStep;
      Others();
      Took(Answer(true, ended, false));
    }

    /** The serial loop. Its context ends after `rounds` rounds; the first error stops it. */
    method RunScheduler(rounds: nat)
      requires Valid() && sys.pc == Idle && c.Valid()
      modifies this, jobs, files
      ensures Valid() && old(acts) <= acts
      ensures sys.pc == Stopped
    {
      hide Valid, Exec, Next;
      var left := rounds;
      while left > 0
        invariant Valid() && old(acts) <= acts && sys.pc == Idle
      {
        left := left - 1;
        Begin(false);
        var ok := Expire();
        if !ok {
          return;
        }
        var up: bool := *;
        var claimed := Claim(up);
        if !up {
          return;
        }
        if claimed.Some? {
          ok := Run(claimed.value.id, claimed.value.cancelRequested);
          if !ok {
            return;
          }
        }
      }
      Begin(true);
    }

    // ---- Startup ----

    method Start()
      requires Valid() && sys.pc == Down
      modifies this, jobs, files
      ensures Valid() && old(acts) <= acts
      ensures sys.pc == Pc.RecoverJobs
    {
      hide Exec, Next, AttemptStep, PublicationStep, EndingStep, SchedulerStep;
      Others();
      Took(Answer(true, false, false));
    }

    method RecoverRows(up: bool) returns (known: map<Id, Job>)
      requires Valid() && sys.pc == Pc.RecoverJobs
      modifies this, jobs, files
      ensures Valid() && old(acts) <= acts
      ensures sys.pc == if up then Reconcile(known, WorkDirs, files.work.Keys) else Down
      ensures known == jobs.jobs
      ensures up ==> NobodyRuns(jobs.jobs)
    {
      hide Exec, Next, AttemptStep, PublicationStep, EndingStep, SchedulerStep, TakenUp, NobodyRuns;
      Others();
      if up {
        ghost var before := jobs.jobs;
        jobs.Recover();
        AllTakenUp(before, jobs.jobs);
      }
      Took(Answer(up, false, false));
      known := jobs.jobs;
    }

    /** Removes what startup does not keep; the first failure ends recovery. */
    method ReconcileKind(known: map<Id, Job>, kind: Kind, entries: set<Id>) returns (ok: bool)
      requires Valid() && sys.pc == Reconcile(known, kind, entries)
      modifies this, jobs, files
      ensures Valid() && old(acts) <= acts
      ensures sys.pc == if !ok then Down else match kind
                        case WorkDirs => Reconcile(known, InputFiles, files.inputs)
                        case InputFiles => Reconcile(known, ArtifactFiles, files.artifacts.Keys)
                        case ArtifactFiles => RecoverTemp(known)
    {
      hide Valid, Exec, Next;
      var todo := entries;
      ok := true;
      while ok && todo != {}
        invariant Valid() && old(acts) <= acts
        invariant sys.pc == if ok then Reconcile(known, kind, todo) else Down
        decreases ok, todo
      {
        var id :| id in todo;
        var removed: bool, lost: bool := *, *;
        ok := ReconcileEntry(known, kind, id, todo, removed, lost);
        todo := todo - {id};
      }
      if ok {
        NextKind(known, kind);
      }
    }

    method ReconcileEntry(known: map<Id, Job>, kind: Kind, id: Id, ghost todo: set<Id>, removed: bool, lost: bool)
      returns (ok: bool)
      requires Valid() && sys.pc == Reconcile(known, kind, todo) && id in todo
      modifies this, jobs, files
      ensures Valid() && old(acts) <= acts
      ensures sys.pc == if ok then Reconcile(known, kind, todo - {id}) else Down
      ensures var keep :=
                id in known
                && ((kind == InputFiles && known[id].state == Queued)
                    || (kind == ArtifactFiles
                        && (known[id].state == Completed
                            || (known[id].state == Cleaning && known[id].pending == Some(Completed)))));
              && (ok <==> keep || removed)
              && (!keep && removed ==> id !in match kind
                                              case WorkDirs => files.work.Keys
                                              case InputFiles => files.inputs
                                              case ArtifactFiles => files.artifacts.Keys)
    {
      hide Exec, Next, AttemptStep, PublicationStep, EndingStep, SchedulerStep;
      Others();
      ok := removed || Keep(known, kind, id);
      if !Keep(known, kind, id) {
        files.Remove(kind, id, removed, lost);
      }
      Took(Answer(removed, false, lost).(id := id));
    }

    method NextKind(known: map<Id, Job>, kind: Kind)
      requires Valid() && sys.pc == Reconcile(known, kind, {})
      modifies this, jobs, files
      ensures Valid() && old(acts) <= acts
      ensures sys.pc == match kind
                        case WorkDirs => Reconcile(known, InputFiles, files.inputs)
                        case InputFiles => Reconcile(known, ArtifactFiles, files.artifacts.Keys)
                        case ArtifactFiles => RecoverTemp(known)
    {
      hide Exec, Next, AttemptStep, PublicationStep, EndingStep, SchedulerStep;
      Others();
      Took(Answer(true, false, false));
    }

    method CleanupTemp(known: map<Id, Job>, healthy: bool)
      requires Valid() && sys.pc == RecoverTemp(known)
      modifies this, jobs, files
      ensures Valid() && old(acts) <= acts
      ensures sys.pc == if healthy then RecoverExpire(known, Snapshot) else Down
    {
      hide Exec, Next, AttemptStep, PublicationStep, EndingStep, SchedulerStep;
      Others();
      Took(Answer(healthy, false, false));
    }

    /** One turn of the last loop: is the job in review? */
    method NextReview(left: map<Id, Job>, i: Id) returns (review: bool)
      requires Valid() && sys.pc == RecoverNext(left) && i in left
      modifies this, jobs, files
      ensures Valid() && old(acts) <= acts
      ensures review <==> left[i].state == Cleaning && left[i].cleanupError != Clear
      ensures sys.pc == if review then RecoverClean(left[i].id, left - {i}, Listing) else RecoverNext(left - {i})
    {
      hide Exec, Next, AttemptStep, PublicationStep, EndingStep, SchedulerStep;
      Others();
      Took(Answer(true, false, false).(id := i));
      review := Unresolved(left[i]);
    }

    method ResolveAutomatic(id: Id, ghost left: map<Id, Job>, up: bool)
      requires Valid() && sys.pc == RecoverResolve(id, left)
      modifies this, jobs, files
      ensures Valid() && old(acts) <= acts
      ensures sys.pc == if up then RecoverNext(left) else Down
      ensures up ==> id in jobs.jobs && Terminal(jobs.jobs[id].state)
    {
      hide Exec, Next, AttemptStep, PublicationStep, EndingStep, SchedulerStep;
      Others();
      NeverRefused(c, acts);
      if up {
        var refused := jobs.Resolve(id);
      }
      Took(Answer(up, false, false));
    }

    /** Device recovery, after storage agrees with the rows. */
    method RecoverDevices(known: map<Id, Job>) returns (ok: bool)
      requires Valid() && sys.pc == RecoverNext(known)
      modifies this, jobs, files
      ensures Valid() && old(acts) <= acts
      ensures sys.pc == if ok then Ready else Down
    {
      hide Valid, Exec, Next;
      var left := known;
      ok := true;
      while ok && left != map[]
        invariant Valid() && old(acts) <= acts
        invariant sys.pc == if ok then RecoverNext(left) else Down
        decreases ok, |left|
      {
        var i :| i in left;
        var id := left[i].id;
        var review := NextReview(left, i);
        left := left - {i};
        if review {
          ok := RecoverDevice(id, left);
        }
      }
      if ok {
        NoneLeft();
      }
    }

    /** A cleanup that is not confirmed leaves the job in review, and is no failure. */
    method RecoverDevice(id: Id, left: map<Id, Job>) returns (ok: bool)
      requires Valid() && sys.pc == RecoverClean(id, left, Listing)
      modifies this, jobs, files
      ensures Valid() && old(acts) <= acts
      ensures sys.pc == if ok then RecoverNext(left) else Down
    {
      hide Valid, Exec, Next;
      ok := true;
      var confirmed := CleanupDevice(id);
      if confirmed {
        ok := *;
        ResolveAutomatic(id, left, ok);
      }
    }

    method NoneLeft()
      requires Valid() && sys.pc == RecoverNext(map[])
      modifies this, jobs, files
      ensures Valid() && old(acts) <= acts
      ensures sys.pc == Ready
    {
      hide Exec, Next, AttemptStep, PublicationStep, EndingStep, SchedulerStep;
      Others();
      Took(Answer(true, false, false));
    }

    /** Startup recovery. When it succeeds, storage holds exactly what the rows call
        for, and nobody owns or needs the device. */
    method Recover() returns (ok: bool)
      requires Valid() && sys.pc == Down
      modifies this, jobs, files
      ensures Valid() && old(acts) <= acts
      ensures sys.pc == if ok then Ready else Down
      ensures ok ==> files.work == map[] && jobs.device.owner == None
      ensures ok ==> forall i :: i in files.inputs ==> i in jobs.jobs && jobs.jobs[i].state == Queued
      ensures ok ==> forall i :: i in files.artifacts ==> i in jobs.jobs && Outcome(jobs.jobs[i]) == Some(Completed)
      ensures ok ==> forall i :: i in jobs.jobs && jobs.jobs[i].state == Queued && jobs.jobs[i].source == Upload ==>
                           i in files.inputs
      ensures ok ==> forall i :: i in jobs.jobs ==> !Live(jobs.jobs[i])
    {
      hide Exec, Next;
      ok := Reconciliation();
      if ok {
        Reachable(c, acts);
        ReadyState(c, sys);
      }
    }

    method Reconciliation() returns (ok: bool)
      requires Valid() && sys.pc == Down
      modifies this, jobs, files
      ensures Valid() && old(acts) <= acts
      ensures sys.pc == if ok then Ready else Down
    {
      hide Valid, Exec, Next;
      ok := *;
      Start();
      var known := RecoverRows(ok);
      if ok {
        ok := ReconcileFiles(known);
      }
      if ok {
        ok := *;
        CleanupTemp(known, ok);
      }
      if ok {
        ok := Expire();
      }
      if ok {
        ok := RecoverDevices(known);
      }
    }

    method ReconcileFiles(known: map<Id, Job>) returns (ok: bool)
      requires Valid() && sys.pc == Reconcile(known, WorkDirs, files.work.Keys)
      modifies this, jobs, files
      ensures Valid() && old(acts) <= acts
      ensures sys.pc == if ok then RecoverTemp(known) else Down
    {
      hide Valid, Exec, Next;
      ok := ReconcileKind(known, WorkDirs, files.work.Keys);
      if ok {
        ok := ReconcileKind(known, InputFiles, files.inputs);
      }
      if ok {
        ok := ReconcileKind(known, ArtifactFiles, files.artifacts.Keys);
      }
    }
  }
}
