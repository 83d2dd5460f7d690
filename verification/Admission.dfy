/** Admission and attempts over every run: the queue bound, first-come order, and
    the count of engine calls and the total back-off of a job. */
module Admission {
  import opened Model
  import opened Transactions
  import opened Protocol
  import opened Invariant
  import opened Safety

  // ---- Who writes what ----

  /** No job appears, and neither attempts nor calls nor waits are counted. */
  ghost predicate Uncounted(w: World, w': World) {
    w'.db.jobs.Keys == w.db.jobs.Keys
    && w'.hist.calls == w.hist.calls && w'.hist.waited == w.hist.waited
    && forall i :: i in w.db.jobs ==>
         w'.db.jobs[i].attempts == w.db.jobs[i].attempts
         && (w.db.jobs[i].state != Queued ==> w'.db.jobs[i].state != Queued)
  }

  lemma ExpiryUncounted(w: World, e: Expiry, o: Oracle)
    ensures Uncounted(w, ExpiryNext(w, e, o).w)
  {
  }

  lemma ResolveUncounted(c: Config, w: World, id: Id)
    requires RowsOk(w) && ResolveTx(w.db, id).Ok?
    ensures Uncounted(w, w.(db := ResolveTx(w.db, id).value))
  {
  }

  lemma SameRows(w: World, w': World)
    requires w'.db.jobs == w.db.jobs && w'.hist.calls == w.hist.calls && w'.hist.waited == w.hist.waited
    ensures Uncounted(w, w')
  {
  }

  lemma OtherRow(w: World, w': World, id: Id, j: Job)
    requires id in w.db.jobs && w'.db.jobs == w.db.jobs[id := j] && w'.hist == w.hist
    requires j.attempts == w.db.jobs[id].attempts && j.state != Queued
    ensures Uncounted(w, w')
  {
  }

  lemma RecoverUncounted(w: World)
    ensures Uncounted(w, w.(db := RecoverTx(w.db)))
  {
  }

  lemma RecoveryUncounted(c: Config, w: World, pc: Pc, o: Oracle)
    requires RowsOk(w) && (pc.Down? || Recovering(pc))
    ensures Uncounted(w, RecoveryStep(w, pc, o).0)
  {
    hide Uncounted, RowsOk, ExpiryNext, RecoverTx, ResolveTx;
    SameRows(w, w);
    if pc.RecoverExpire? {
      ExpiryUncounted(w, pc.e, o);
    } else if pc.RecoverResolve? && ResolveTx(w.db, pc.id).Ok? {
      ResolveUncounted(c, w, pc.id);
    } else if pc.RecoverJobs? {
      RecoverUncounted(w);
    } else {
      SameRows(w, RecoveryStep(w, pc, o).0);
    }
  }

  lemma PublicationUncounted(c: Config, w: World, pc: Pc, o: Oracle)
    requires Publication(pc)
    ensures Uncounted(w, PublicationStep(c, w, pc, o).0)
  {
  }

  lemma EndingUncounted(c: Config, w: World, pc: Pc, o: Oracle)
    requires Ending(pc) && EndingInv(w, pc)
    ensures Uncounted(w, EndingStep(w, pc, o).0)
  {
    hide Uncounted, ExpiryNext, RunOk, DesiredOk, ScanOk, PassOk, CleanOps;
    var w' := EndingStep(w, pc, o).0;
    if pc.FinishExpire? {
      ExpiryUncounted(w, pc.e, o);
    } else if w'.db.jobs == w.db.jobs {
      SameRows(w, w');
    } else {
      EndingRow(w, pc);
      OtherRow(w, w', pc.id, w'.db.jobs[pc.id]);
    }
  }

  lemma EndingRow(w: World, pc: Pc)
    requires Ending(pc) && !pc.Releasing? && EndingInv(w, pc)
    ensures pc.id in w.db.jobs && w.db.jobs[pc.id].state != Queued
  {
  }

  lemma ConfirmUncounted(c: Config, w: World, cf: Confirmation, o: Oracle)
    requires RowsOk(w) && ConfirmOk(w, cf)
    ensures Uncounted(w, ConfirmNext(w, cf, o).w)
  {
    if cf.stage.ConfirmExpire? {
      ExpiryUncounted(w, cf.stage.e, o);
    }
  }

  lemma AttemptKeys(c: Config, w: World, pc: Pc, o: Oracle)
    requires Attempting(pc)
    ensures AttemptStep(c, w, pc, o).0.db.jobs.Keys == w.db.jobs.Keys
  {
  }

  lemma SchedulerKeys(w: World, pc: Pc, o: Oracle)
    requires pc.Idle? || pc.SchedulerExpire? || pc.Claiming? || pc.Stopped?
    ensures SchedulerStep(w, pc, o).0.db.jobs.Keys == w.db.jobs.Keys
    ensures !pc.Claiming? ==> Uncounted(w, SchedulerStep(w, pc, o).0)
  {
    if pc.SchedulerExpire? {
      ExpiryUncounted(w, pc.e, o);
    }
  }

  lemma WorkerKeys(c: Config, w: World, pc: Pc, o: Oracle)
    requires WorldInv(c, w) && PcInv(c, w, pc)
    ensures WorkerStep(c, w, pc, o).0.db.jobs.Keys == w.db.jobs.Keys
    ensures !Attempting(pc) && !pc.Claiming? ==> Uncounted(w, WorkerStep(c, w, pc, o).0)
  {
    hide RecoveryInv, AttemptInv, PublicationInv, EndingInv, SchedulerInv, RowsOk, FilesOk, DeviceOk, OpsOk;
    hide RecoveryStep, AttemptStep, PublicationStep, EndingStep, SchedulerStep;
    if pc.Down? || Recovering(pc) {
      RecoveryUncounted(c, w, pc, o);
    } else if Attempting(pc) {
      AttemptKeys(c, w, pc, o);
    } else if Publication(pc) {
      PublicationUncounted(c, w, pc, o);
    } else if Ending(pc) {
      EndingUncounted(c, w, pc, o);
    } else {
      SchedulerKeys(w, pc, o);
    }
  }

  /** A job is admitted by one enqueue transaction, or not at all. */
  lemma OneAdmission(c: Config, s: Sys, a: Action)
    requires Inv(c, s)
    ensures var w, w' := s.w, Next(c, s, a).w;
      w'.db.jobs.Keys == w.db.jobs.Keys
      || exists i, source :: EnqueueTx(w.db, i, source, c.queueLimit, w.now).Ok?
           && w'.db == EnqueueTx(w.db, i, source, c.queueLimit, w.now).value
  {
    match a
    case Work(o) =>
      hide WorldInv, PcInv, ConfirmOk, WorkerStep, Uncounted;
      WorkerKeys(c, s.w, s.pc, o);
    case ConfirmWith(thread, o) =>
      hide PcInv, ConfirmOk, ConfirmNext, RowsOk, FilesOk, DeviceOk, OpsOk;
      if thread in s.confirms {
        ConfirmUncounted(c, s.w, s.confirms[thread], o);
      }
    case _ =>
      hide WorldInv, PcInv, ConfirmOk, WorkerStep;
  }

  // ---- The queue bound ----

  lemma SubsetSize<T>(a: set<T>, b: set<T>)
    requires a <= b
    ensures |a| <= |b|
  {
    assert b == a + (b - a);
  }

  /** Queued, active and review jobs together never exceed the limit. */
  lemma {:induction false} QueueBound(c: Config, acts: seq<Action>)
    ensures |NonTerminal(Exec(c, Init, acts).w.db.jobs)| <= c.queueLimit
  {
    if acts == [] {
      assert NonTerminal(Init.w.db.jobs) == {};
    } else {
      var s := Exec(c, Init, acts[..|acts| - 1]);
      var a := acts[|acts| - 1];
      assert Exec(c, Init, acts) == Next(c, s, a);
      QueueBound(c, acts[..|acts| - 1]);
      Reachable(c, acts[..|acts| - 1]);
      QueueStep(c, s, a);
    }
  }

  lemma QueueStep(c: Config, s: Sys, a: Action)
    requires Inv(c, s) && |NonTerminal(s.w.db.jobs)| <= c.queueLimit
    ensures |NonTerminal(Next(c, s, a).w.db.jobs)| <= c.queueLimit
  {
    hide Inv, Next, Evolves, NonTerminal;
    var w, w' := s.w, Next(c, s, a).w;
    StepSafe(c, s, a);
    OneAdmission(c, s, a);
    if w'.db.jobs.Keys == w.db.jobs.Keys {
      NoneReopened(w, w');
      SubsetSize(NonTerminal(w'.db.jobs), NonTerminal(w.db.jobs));
    } else {
      var i, source :| EnqueueTx(w.db, i, source, c.queueLimit, w.now).Ok?
        && w'.db == EnqueueTx(w.db, i, source, c.queueLimit, w.now).value;
      OneMore(w.db, i, source, c.queueLimit, w.now);
    }
  }

  lemma NoneReopened(w: World, w': World)
    requires Evolves(w, w') && w'.db.jobs.Keys == w.db.jobs.Keys
    ensures NonTerminal(w'.db.jobs) <= NonTerminal(w.db.jobs)
  {
    forall i | i in NonTerminal(w'.db.jobs) ensures i in NonTerminal(w.db.jobs) {
      assert RowEvolves(w, w', i);
    }
  }

  lemma OneMore(db: Db, i: Id, source: Source, limit: nat, now: Time)
    requires EnqueueTx(db, i, source, limit, now).Ok?
    ensures var db' := EnqueueTx(db, i, source, limit, now).value; |NonTerminal(db'.jobs)| <= limit
  {
    var db' := EnqueueTx(db, i, source, limit, now).value;
    assert NonTerminal(db'.jobs) == NonTerminal(db.jobs) + {i};
  }

  // ---- First come, first served ----

  ghost predicate Ordered(w: World) {
    forall i, j ::
      i in w.db.jobs && w.db.jobs[i].state == Queued
      && j in w.db.jobs && w.db.jobs[i].createdAt < w.db.jobs[j].createdAt
      ==> w.db.jobs[j].state == Queued
  }

  lemma OrderStep(c: Config, w: World, w': World)
    requires RowsOk(w) && RowsOk(w') && Evolves(w, w') && Ordered(w)
    ensures Ordered(w')
  {
    forall k | k in w.db.jobs ensures w'.db.jobs[k].createdAt == w.db.jobs[k].createdAt <= w.now {
      assert RowEvolves(w, w', k) && RowOk(w.db.jobs[k], k, w.now);
    }
    forall i, j | i in w'.db.jobs && j in w'.db.jobs
      && w'.db.jobs[i].createdAt < w'.db.jobs[j].createdAt && w'.db.jobs[i].state == Queued
      ensures w'.db.jobs[j].state == Queued
    {
      if j in w.db.jobs && i in w.db.jobs {
        assert RowEvolves(w, w', i) && RowEvolves(w, w', j);
        assert RowOk(w.db.jobs[i], i, w.now);
        assert Claimable(w.db, w.now, i);
      }
    }
  }

  /** Jobs leave the queue in the order of their creation: while a job waits, every
      job created after it waits too. */
  lemma {:induction false} FirstComeFirstServed(c: Config, acts: seq<Action>)
    ensures Ordered(Exec(c, Init, acts).w)
  {
    if acts != [] {
      hide PcInv, Next, Evolves, Ordered, FilesOk, DeviceOk, OpsOk, RowsOk;
      var s := Exec(c, Init, acts[..|acts| - 1]);
      FirstComeFirstServed(c, acts[..|acts| - 1]);
      Reachable(c, acts[..|acts| - 1]);
      StepSafe(c, s, acts[|acts| - 1]);
      OrderStep(c, s.w, Exec(c, Init, acts).w);
    }
  }

  // ---- Attempts and back-off ----

  /** The total wait of a job after `attempts` claims and retries. */
  function TotalWait(c: Config, attempts: nat): int {
    if attempts == 0 then 0 else c.Delay() * (Pow2(attempts - 1) - 1)
  }

  ghost predicate RowCounted(c: Config, w: World, i: Id)
    requires i in w.db.jobs
  {
    var calls, attempts := Count(w.hist.calls, i), w.db.jobs[i].attempts;
    && calls <= attempts <= calls + 1 && attempts <= c.maxAttempts
    && Count(w.hist.waited, i) == TotalWait(c, attempts)
    && (w.db.jobs[i].state == Queued ==> attempts == 0)
  }

  ghost predicate Counted(c: Config, w: World) {
    (forall i :: i in w.db.jobs ==> RowCounted(c, w, i))
    && forall i :: i !in w.db.jobs ==> Count(w.hist.calls, i) == 0 && Count(w.hist.waited, i) == 0
  }

  ghost predicate PcCounted(c: Config, w: World, pc: Pc)
    requires Attempting(pc) ==> pc.id in w.db.jobs
  {
    Attempting(pc) ==>
      var calls, attempts := Count(w.hist.calls, pc.id), w.db.jobs[pc.id].attempts;
      match pc
      case MakeWorkspace(id) => calls == 0 && attempts == 1
      case Calling(id, k) => calls + 1 == attempts == k
      case OnDevice(id, k, op) => calls == attempts == k
      case Returned(id, k, reply) => calls == attempts == k
      case CleanRetry(id, k, reply, pass) => calls == attempts == k && k < c.maxAttempts
      case Retrying(id, k, reply) => calls == attempts == k && k < c.maxAttempts
      case Backoff(id, k, reply) => calls == k && attempts == k + 1
  }

  lemma NextWait(c: Config, k: nat)
    requires k >= 1
    ensures TotalWait(c, k) + c.Delay() * Pow2(k - 1) == TotalWait(c, k + 1)
  {
    var d: int, p: int := c.Delay(), Pow2(k - 1);
    assert Pow2(k) == 2 * p;
    assert d * (p - 1) + d * p == d * (2 * p - 1);
  }

  /** What one attempt step does to the counters of its own job, and of no other. */
  lemma AttemptFootprint(c: Config, w: World, pc: Pc, o: Oracle)
    requires Attempting(pc)
    ensures var w' := AttemptStep(c, w, pc, o).0;
      && (forall i :: i != pc.id ==> Count(w'.hist.calls, i) == Count(w.hist.calls, i))
      && (forall i :: i != pc.id ==> Count(w'.hist.waited, i) == Count(w.hist.waited, i))
      && (forall i :: i != pc.id && i in w.db.jobs ==> w'.db.jobs[i] == w.db.jobs[i])
  {
  }

  /** The counters of the job at hand move with the attempt. */
  ghost predicate OwnStep(c: Config, w': World, pc': Pc, id: Id) {
    id in w'.db.jobs && RowCounted(c, w', id)
    && (Attempting(pc') ==> pc'.id == id) && PcCounted(c, w', pc')
  }

  predicate AtHand(w: World, pc: Pc)
    requires Attempting(pc)
  {
    pc.id in w.db.jobs && w.db.jobs[pc.id].state == Running && (!pc.MakeWorkspace? ==> pc.attempt >= 1)
  }

  lemma RetryingOwn(c: Config, w: World, pc: Pc, o: Oracle)
    requires pc.Retrying? && AtHand(w, pc) && RowCounted(c, w, pc.id) && PcCounted(c, w, pc)
    ensures var (w', pc') := AttemptStep(c, w, pc, o); OwnStep(c, w', pc', pc.id)
  {
    NextWait(c, pc.attempt);
    hide TotalWait;
  }

  lemma AttemptOwn(c: Config, w: World, pc: Pc, o: Oracle)
    requires Attempting(pc) && AtHand(w, pc) && RowCounted(c, w, pc.id) && PcCounted(c, w, pc)
    ensures var (w', pc') := AttemptStep(c, w, pc, o); OwnStep(c, w', pc', pc.id)
  {
    hide TotalWait, Pow2;
    if pc.Retrying? {
      RetryingOwn(c, w, pc, o);
    } else {
      hide RetryTx;
    }
  }

  lemma AttemptAtHand(w: World, pc: Pc)
    requires Attempting(pc) && AttemptInv(w, pc)
    ensures AtHand(w, pc)
  {
  }

  lemma AttemptCounts(c: Config, w: World, pc: Pc, o: Oracle)
    requires Attempting(pc) && AttemptInv(w, pc) && Counted(c, w) && PcCountedAt(c, w, pc)
    ensures var (w', pc') := AttemptStep(c, w, pc, o); Counted(c, w') && PcCountedAt(c, w', pc')
  {
    hide AttemptInv, AttemptStep, RowCounted, PcCounted;
    AttemptAtHand(w, pc);
    AttemptOwn(c, w, pc, o);
    OthersCounted(c, w, pc, o);
  }

  lemma OthersCounted(c: Config, w: World, pc: Pc, o: Oracle)
    requires Attempting(pc) && AtHand(w, pc) && Counted(c, w)
    requires pc.id in AttemptStep(c, w, pc, o).0.db.jobs && RowCounted(c, AttemptStep(c, w, pc, o).0, pc.id)
    ensures Counted(c, AttemptStep(c, w, pc, o).0)
  {
    hide AttemptStep, TotalWait;
    var w' := AttemptStep(c, w, pc, o).0;
    AttemptKeys(c, w, pc, o);
    AttemptFootprint(c, w, pc, o);
    forall i | i in w'.db.jobs ensures RowCounted(c, w', i) {
      assert RowCounted(c, w, i);
    }
  }

  lemma ClaimCounts(c: Config, w: World, o: Oracle)
    requires c.Valid() && Counted(c, w)
    ensures var (w', pc') := SchedulerStep(w, Claiming, o); Counted(c, w') && PcCountedAt(c, w', pc')
  {
    var w' := SchedulerStep(w, Claiming, o).0;
    forall i | i in w'.db.jobs ensures RowCounted(c, w', i) {
      assert RowCounted(c, w, i);
    }
  }

  /** The counters of the job at hand, when an attempt is at hand. */
  ghost predicate PcCountedAt(c: Config, w: World, pc: Pc) {
    Attempting(pc) ==> pc.id in w.db.jobs && PcCounted(c, w, pc)
  }

  lemma UncountedKeeps(c: Config, w: World, w': World)
    requires Counted(c, w) && Uncounted(w, w')
    ensures Counted(c, w')
  {
    hide TotalWait;
    forall i | i in w'.db.jobs ensures RowCounted(c, w', i) {
      assert RowCounted(c, w, i);
    }
  }

  lemma WorkerCounts(c: Config, w: World, pc: Pc, o: Oracle)
    requires c.Valid() && WorldInv(c, w) && PcInv(c, w, pc) && Counted(c, w) && PcCountedAt(c, w, pc)
    ensures var (w', pc') := WorkerStep(c, w, pc, o); Counted(c, w') && PcCountedAt(c, w', pc')
  {
    hide WorldInv, Counted, Uncounted, PcCounted;
    hide RecoveryStep, AttemptStep, PublicationStep, EndingStep, SchedulerStep;
    hide RecoveryInv, AttemptInv, PublicationInv, EndingInv, SchedulerInv;
    if Attempting(pc) {
      AttemptCounts(c, w, pc, o);
    } else if pc.Claiming? {
      ClaimCounts(c, w, o);
    } else {
      WorkerKeys(c, w, pc, o);
      UncountedKeeps(c, w, WorkerStep(c, w, pc, o).0);
      StillServing(c, w, pc, o);
    }
  }

  lemma UncountedPc(c: Config, w: World, w': World, pc: Pc)
    requires PcCountedAt(c, w, pc) && Uncounted(w, w')
    ensures PcCountedAt(c, w', pc)
  {
  }

  lemma AdmittedCounts(c: Config, w: World, pc: Pc, id: Id, source: Source)
    requires Counted(c, w) && PcCountedAt(c, w, pc) && id !in w.db.jobs
    ensures var w' := w.(db := Put(w.db, NewJob(id, source, w.now))); Counted(c, w') && PcCountedAt(c, w', pc)
  {
    var w' := w.(db := Put(w.db, NewJob(id, source, w.now)));
    forall i | i in w'.db.jobs ensures RowCounted(c, w', i) {
      assert i != id ==> RowCounted(c, w, i);
    }
  }

  lemma CountStep(c: Config, s: Sys, a: Action)
    requires c.Valid() && Inv(c, s) && Counted(c, s.w) && PcCountedAt(c, s.w, s.pc)
    ensures var s' := Next(c, s, a); Counted(c, s'.w) && PcCountedAt(c, s'.w, s'.pc)
  {
    hide PcInv, ConfirmOk, ConfirmNext, WorkerStep, FilesOk, DeviceOk, OpsOk, RowsOk, Counted, PcCounted;
    var s' := Next(c, s, a);
    match a
    case Work(o) => WorkerCounts(c, s.w, s.pc, o);
    case Submit(id, source) =>
      if s' != s { AdmittedCounts(c, s.w, s.pc, id, source); }
    case UploadWith(o) =>
      if s.upload.Receiving? && o.ok && EnqueueTx(s.w.db, s.upload.id, Upload, c.queueLimit, s.w.now).Ok? {
        AdmittedCounts(c, s.w, s.pc, s.upload.id, Upload);
      } else {
        UncountedKeeps(c, s.w, s'.w);
        UncountedPc(c, s.w, s'.w, s.pc);
      }
    case ConfirmWith(thread, o) =>
      if thread in s.confirms {
        ConfirmUncounted(c, s.w, s.confirms[thread], o);
        UncountedKeeps(c, s.w, s'.w);
        UncountedPc(c, s.w, s'.w, s.pc);
      }
    case _ =>
      UncountedKeeps(c, s.w, s'.w);
      UncountedPc(c, s.w, s'.w, s.pc);
  }

  lemma {:induction false} CountRun(c: Config, acts: seq<Action>)
    requires c.Valid()
    ensures var s := Exec(c, Init, acts); Counted(c, s.w) && PcCountedAt(c, s.w, s.pc)
  {
    if acts != [] {
      hide Inv, Counted, PcCountedAt, Next;
      CountRun(c, acts[..|acts| - 1]);
      Reachable(c, acts[..|acts| - 1]);
      CountStep(c, Exec(c, Init, acts[..|acts| - 1]), acts[|acts| - 1]);
    }
  }

  lemma PowerGrows(a: nat, b: nat)
    requires a <= b
    ensures 1 <= Pow2(a) <= Pow2(b)
  {
  }

  lemma Scale(d: nat, x: int, y: int)
    requires x <= y
    ensures d * x <= d * y
  {
  }

  lemma WaitGrows(c: Config, attempts: nat)
    requires attempts <= c.maxAttempts && c.Valid()
    ensures TotalWait(c, attempts) <= c.Delay() * (Pow2(c.maxAttempts - 1) - 1)
  {
    var k := if attempts == 0 then 0 else attempts - 1;
    PowerGrows(k, c.maxAttempts - 1);
    hide Pow2;
    Scale(c.Delay(), 0, Pow2(c.maxAttempts - 1) - 1);
    Scale(c.Delay(), Pow2(k) - 1, Pow2(c.maxAttempts - 1) - 1);
  }

  lemma RowBounds(c: Config, w: World, i: Id)
    requires c.Valid() && Counted(c, w) && i in w.db.jobs
    ensures var calls, attempts, waited := Count(w.hist.calls, i), w.db.jobs[i].attempts, Count(w.hist.waited, i);
      && calls <= attempts <= calls + 1 && attempts <= c.maxAttempts
      && (attempts >= 1 ==> waited == c.Delay() * (Pow2(attempts - 1) - 1))
      && waited <= c.Delay() * (Pow2(c.maxAttempts - 1) - 1)
  {
    hide Pow2;
    assert RowCounted(c, w, i);
    WaitGrows(c, w.db.jobs[i].attempts);
  }

  /** At every point of every run: the recorded attempts bound the engine calls
      within one, neither exceeds the configured maximum, and the back-off
      scheduled so far is exactly the geometric sum of the retries recorded. */
  lemma AttemptBounds(c: Config, acts: seq<Action>, i: Id)
    requires c.Valid() && i in Exec(c, Init, acts).w.db.jobs
    ensures var w := Exec(c, Init, acts).w;
      var calls, attempts, waited := Count(w.hist.calls, i), w.db.jobs[i].attempts, Count(w.hist.waited, i);
      var delay: nat := if c.retryDelay == 0 then 1000 else c.retryDelay;
      && calls <= attempts <= calls + 1 && attempts <= c.maxAttempts
      && (attempts >= 1 ==> waited == delay * (Pow2(attempts - 1) - 1))
      && waited <= delay * (Pow2(c.maxAttempts - 1) - 1)
  {
    hide Exec, PcCountedAt, Counted, Pow2;
    CountRun(c, acts);
    RowBounds(c, Exec(c, Init, acts).w, i);
  }
}
