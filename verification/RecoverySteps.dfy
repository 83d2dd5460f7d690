/** The steps of startup recovery. */
module RecoverySteps {
  import opened Model
  import opened Transactions
  import opened Protocol
  import opened Invariant
  import opened Frames
  import opened Effects
  import opened WorkerSteps

  lemma ToRecovery(c: Config, w: World, w': World, pc': Pc)
    requires WorldInv(c, w') && Evolves(w, w') && (pc'.Down? || Recovering(pc')) && RecoveryInv(w', pc')
    ensures Legal(c, w, w', pc')
  {
    hide WorldInv, Evolves;
  }

  // ---- Jobs.Recover ----

  lemma RecoveredRowKeeps(j: Job, i: Id, now: Time)
    requires RowOk(j, i, now)
    ensures RowOk(RecoveredRow(j), i, now) && RowRecovered(j, RecoveredRow(j))
    ensures Active(j.state) ==> Unresolved(RecoveredRow(j))
  {
  }

  lemma RecoveredRowOk(c: Config, w: World, i: Id)
    requires WorldInv(c, w) && i in w.db.jobs
    ensures var w' := w.(db := RecoverTx(w.db));
      RowOk(w'.db.jobs[i], i, w.now) && FileOk(c, w', i) && RowEvolves(w, w', i)
    ensures Active(w.db.jobs[i].state) ==> Unresolved(RecoveredRow(w.db.jobs[i]))
    ensures RowRecovered(w.db.jobs[i], RecoveredRow(w.db.jobs[i]))
  {
    var w' := w.(db := RecoverTx(w.db));
    assert RowOk(w.db.jobs[i], i, w.now) && FileOk(c, w, i);
    assert w'.db.jobs[i] == RecoveredRow(w.db.jobs[i]);
    RecoveredRowKeeps(w.db.jobs[i], i, w.now);
    hide WorldInv, RowsOk, FilesOk, OpsOk, DeviceOk;
    hide RecoverTx;
  }

  lemma RecoverDevice(c: Config, w: World)
    requires WorldInv(c, w)
    ensures var w' := w.(db := RecoverTx(w.db));
      && DeviceOk(w') && w'.db.device.owner == None && NoLive(w')
      && (w'.db.device.quarantined ==> w'.db.device.reason == ReviewRequired)
  {
    var w' := w.(db := RecoverTx(w.db));
    forall i | i in w.db.jobs ensures RowEvolves(w, w', i) && !Live(w'.db.jobs[i]) {
      RecoveredRowOk(c, w, i);
    }
    if ActiveIds(w.db.jobs) != {} {
      var i :| i in ActiveIds(w.db.jobs);
      RecoveredRowOk(c, w, i);
      assert i in w'.db.jobs && Unresolved(w'.db.jobs[i]);
    } else {
      forall i | i in w.db.jobs ensures !Active(w.db.jobs[i].state) && w'.db.jobs[i] == w.db.jobs[i] {
        assert i !in ActiveIds(w.db.jobs);
      }
    }
  }

  lemma RecoverEffect(c: Config, w: World)
    requires WorldInv(c, w)
    ensures var w' := w.(db := RecoverTx(w.db)); WorldInv(c, w') && Evolves(w, w')
  {
    var w' := w.(db := RecoverTx(w.db));
    RecoverDevice(c, w);
    forall i | i in w.db.jobs ensures RowOk(w'.db.jobs[i], i, w.now) && RowEvolves(w, w', i) {
      RecoveredRowOk(c, w, i);
    }
    forall i ensures FileOk(c, w', i) {
      if i in w.db.jobs { RecoveredRowOk(c, w, i); } else { FileFrame(c, w, w', i); }
    }
    forall op | op in w.hist.dirty ensures Active(w'.db.jobs[w'.db.ops[op]].state) {
      RecoveredRowOk(c, w, w.db.ops[op]);
    }
    assert OpsOk(w') by {
      forall op | op in w.db.ops ensures w'.db.jobs[w'.db.ops[op]].state != Queued {
        RecoveredRowOk(c, w, w.db.ops[op]);
      }
    }
    assert RowsEvolve(w, w') && FilesEvolve(w, w') && OpsEvolve(w, w');
  }

  /** However often recovery was interrupted, the rows end where one pass would leave them. */
  lemma RecoverBoot(c: Config, w: World)
    requires WorldInv(c, w) && MidRecovery(w) && w.hist.startedAt <= w.now
    ensures Recovered(w.(db := RecoverTx(w.db)))
  {
    var w' := w.(db := RecoverTx(w.db));
    RecoverDevice(c, w);
    forall i | i in w.db.jobs ensures RowRecovered(w.hist.boot[i], w'.db.jobs[i]) {
      RecoveredRowOk(c, w, i);
    }
  }

  lemma RecoverJobsSteps(c: Config, w: World, o: Oracle)
    requires WorldInv(c, w) && RecoveryInv(w, RecoverJobs)
    ensures var (w', pc') := RecoveryStep(w, RecoverJobs, o); Legal(c, w, w', pc')
  {
    hide WorldInv, Evolves, Legal;
    if o.ok {
      RecoverEffect(c, w);
      RecoverBoot(c, w);
      var w' := w.(db := RecoverTx(w.db));
      ToRecovery(c, w, w', Reconcile(w'.db.jobs, WorkDirs, Listed(w'.fs, WorkDirs)));
    } else {
      TickEnv(w, 0);
      ToRecovery(c, w, w, Down);
    }
  }

  // ---- Storage reconciliation ----

  lemma RemoveKindEffect(c: Config, w: World, kind: Kind, id: Id)
    requires WorldInv(c, w) && NoLive(w) && !Keep(w.db.jobs, kind, id)
    ensures WorldInv(c, RemoveKind(w, kind, id)) && Evolves(w, RemoveKind(w, kind, id))
  {
    match kind
    case WorkDirs => RemoveWorkEffect(c, w, id);
    case InputFiles =>
      assert id in w.db.jobs ==> !Live(w.db.jobs[id]);
      RemoveInputEffect(c, w, id);
    case ArtifactFiles => RemoveArtifactEffect(c, w, id);
  }

  lemma FilesOnly(w: World, w': World)
    requires w' == w.(fs := w'.fs)
    ensures Recovered(w) ==> Recovered(w')
    ensures MidRecovery(w) ==> MidRecovery(w')
    ensures forall known :: LeftOk(w, known) ==> LeftOk(w', known)
  {
  }

  lemma RemovedExact(w: World, id: Id)
    requires Exact(w)
    ensures Exact(RemoveArtifact(w, id))
  {
  }

  lemma ExactSwept(w: World, id: Id)
    requires Exact(w) && id in w.db.jobs && w.db.jobs[id].state != Queued
    ensures Swept(w, id)
  {
    assert !Keep(w.db.jobs, WorkDirs, id) && !Keep(w.db.jobs, InputFiles, id);
    assert id !in Listed(w.fs, WorkDirs) && id !in Listed(w.fs, InputFiles);
  }

  lemma RecoveredIsMidRecovery(w: World)
    requires Recovered(w)
    ensures MidRecovery(w)
  {
  }

  lemma RecoveredNoLive(w: World)
    requires Recovered(w)
    ensures NoLive(w)
  {
  }

  lemma ReconcileSteps(c: Config, w: World, kind: Kind, todo: set<Id>, o: Oracle)
    requires WorldInv(c, w) && RecoveryInv(w, Reconcile(w.db.jobs, kind, todo))
    ensures var (w', pc') := RecoveryStep(w, Reconcile(w.db.jobs, kind, todo), o); Legal(c, w, w', pc')
  {
    hide WorldInv, Evolves, Legal, Recovered, MidRecovery;
    TickEnv(w, 0);
    RecoveredIsMidRecovery(w);
    var pc := Reconcile(w.db.jobs, kind, todo);
    if todo == {} || o.id !in todo || Keep(w.db.jobs, kind, o.id) {
      ToRecovery(c, w, w, RecoveryStep(w, pc, o).1);
    } else if !o.ok {
      SpoilWorkEffect(c, w, o.id, o.alt);
      var w' := if kind == WorkDirs then SpoilWork(w, o.id, o.alt) else w;
      FilesOnly(w, w');
      ToRecovery(c, w, w', Down);
    } else {
      RecoveredNoLive(w);
      RemoveKindEffect(c, w, kind, o.id);
      var w' := RemoveKind(w, kind, o.id);
      FilesOnly(w, w');
      ToRecovery(c, w, w', Reconcile(w.db.jobs, kind, todo - {o.id}));
    }
  }

  // ---- Expiry during recovery ----

  lemma MarkedRow(w: World, row: Job)
    requires SnapOk(w, row.id, row) && row == w.db.jobs[row.id]
    requires Recovered(w) && row.expiresAt.Some? && RowOk(row, row.id, w.now)
    ensures var w' := w.(db := ExpiredTx(w.db, row));
      && RowRecovered(w.hist.boot[row.id], w'.db.jobs[row.id])
      && w'.db.jobs[row.id].artifactExpired
      && w'.db.jobs[row.id].state == row.state && w'.db.jobs[row.id].cleanupError == row.cleanupError
  {
  }

  lemma MarkRecovered(c: Config, w: World, row: Job)
    requires WorldInv(c, w) && Recovered(w) && SnapOk(w, row.id, row) && row == w.db.jobs[row.id]
    requires row.expiresAt.Some?
    ensures Recovered(w.(db := ExpiredTx(w.db, row)))
  {
    assert RowOk(row, row.id, w.now);
    MarkedRow(w, row);
    var w' := w.(db := ExpiredTx(w.db, row));
    forall i | i in w'.db.jobs
      ensures RowRecovered(w'.hist.boot[i], w'.db.jobs[i]) && !Live(w'.db.jobs[i])
    {
      assert !Live(w.db.jobs[i]);
    }
  }

  lemma MarkExact(w: World, row: Job)
    requires Exact(w) && row.id in w.db.jobs && row == w.db.jobs[row.id] && row.id !in w.fs.artifacts
    ensures Exact(w.(db := ExpiredTx(w.db, row)))
  {
  }

  lemma MarkLeft(w: World, row: Job, known: map<Id, Job>)
    requires LeftOk(w, known)
    ensures LeftOk(w.(db := ExpiredTx(w.db, row)), known)
  {
  }

  lemma SnapshotSteps(c: Config, w: World, known: map<Id, Job>, o: Oracle)
    requires WorldInv(c, w) && RecoveryInv(w, RecoverExpire(known, Snapshot))
    ensures var (w', pc') := RecoveryStep(w, RecoverExpire(known, Snapshot), o); Legal(c, w, w', pc')
  {
    ExpiryEffect(c, w, Snapshot, o);
    hide WorldInv, Evolves, Legal;
    RecoveredIsMidRecovery(w);
    ToRecovery(c, w, w, if o.ok then RecoverExpire(known, Loop(w.db.jobs)) else Down);
  }

  lemma LoopScan(c: Config, w: World, todo: map<Id, Job>, o: Oracle)
    requires WorldInv(c, w) && RecoveryScanOk(w, Loop(todo)) && w.hist.startedAt <= w.now
    ensures var x := ExpiryNext(w, Loop(todo), o);
      (x.ExpiryMore? ==> RecoveryScanOk(x.w, x.e)) && (x.ExpiryDone? ==> ExpiredAtStart(x.w))
  {
    hide WorldInv, Env;
    ExpiryEffect(c, w, Loop(todo), o);
    var x := ExpiryNext(w, Loop(todo), o);
    hide ScanOk;
    if todo == map[] {
      forall i ensures !DueAtStart(w, i) {
      }
    } else if x.ExpiryMore? {
      forall i | DueAtStart(x.w, i) ensures DueAtStart(w, i) {
      }
      if o.id in todo {
        DueRow(w, todo, o.id);
      }
    }
  }

  lemma LoopKeeps(w: World, known: map<Id, Job>, todo: map<Id, Job>, o: Oracle)
    requires Recovered(w) && Exact(w) && LeftOk(w, known) && ScanOk(w, Loop(todo))
    ensures var x := ExpiryNext(w, Loop(todo), o);
      Recovered(x.w) && Exact(x.w) && LeftOk(x.w, known)
  {
    hide ScanOk, Recovered, MidRecovery, Exact, LeftOk;
    FilesOnly(w, ExpiryNext(w, Loop(todo), o).w);
    if todo != map[] && o.id in todo {
      DueRow(w, todo, o.id);
      RemovedExact(w, o.id);
    }
  }

  lemma LoopSteps(c: Config, w: World, known: map<Id, Job>, todo: map<Id, Job>, o: Oracle)
    requires WorldInv(c, w) && RecoveryInv(w, RecoverExpire(known, Loop(todo)))
    ensures var (w', pc') := RecoveryStep(w, RecoverExpire(known, Loop(todo)), o); Legal(c, w, w', pc')
  {
    hide WorldInv, Evolves, Legal, RecoveryScanOk, ScanOk, Recovered, MidRecovery, Exact, LeftOk, ExpiredAtStart;
    hide ExpiryNext;
    StartedBefore(w);
    LoopScanOk(w, todo);
    LoopScan(c, w, todo, o);
    ExpiryEffect(c, w, Loop(todo), o);
    LoopKeeps(w, known, todo, o);
    var w' := ExpiryNext(w, Loop(todo), o).w;
    RecoveredIsMidRecovery(w');
    match ExpiryNext(w, Loop(todo), o)
    case ExpiryMore(w1, e1) => ToRecovery(c, w, w', RecoverExpire(known, e1));
    case ExpiryDone(w1) => ToRecovery(c, w, w', RecoverNext(known));
    case ExpiryFailed(w1) => ToRecovery(c, w, w', Down);
  }

  lemma StartedBefore(w: World)
    requires Recovered(w)
    ensures w.hist.startedAt <= w.now
  {
  }

  lemma LoopScanOk(w: World, todo: map<Id, Job>)
    requires RecoveryScanOk(w, Loop(todo))
    ensures ScanOk(w, Loop(todo))
  {
  }

  lemma DueRow(w: World, todo: map<Id, Job>, id: Id)
    requires ScanOk(w, Loop(todo)) && id in todo
    ensures todo[id].id == id && id in w.db.jobs
  {
    assert SnapOk(w, id, todo[id]);
  }

  lemma MarkKeeps(c: Config, w: World, known: map<Id, Job>, row: Job, rest: map<Id, Job>)
    requires WorldInv(c, w) && Recovered(w) && Exact(w) && LeftOk(w, known)
    requires RecoveryScanOk(w, Mark(row, rest))
    ensures var w' := w.(db := ExpiredTx(w.db, row)); Recovered(w') && Exact(w') && LeftOk(w', known)
  {
    hide WorldInv, Recovered, Exact, LeftOk;
    MarkRecovered(c, w, row);
    MarkExact(w, row);
    MarkLeft(w, row, known);
  }

  lemma MarkScan(w: World, row: Job, rest: map<Id, Job>)
    requires RecoveryScanOk(w, Mark(row, rest)) && ScanOk(w.(db := ExpiredTx(w.db, row)), Loop(rest))
    ensures RecoveryScanOk(w.(db := ExpiredTx(w.db, row)), Loop(rest))
  {
    var w' := w.(db := ExpiredTx(w.db, row));
    forall i | DueAtStart(w', i) ensures i in rest {
      assert i != row.id && DueAtStart(w, i);
    }
  }

  lemma MarkSteps(c: Config, w: World, known: map<Id, Job>, row: Job, rest: map<Id, Job>, o: Oracle)
    requires WorldInv(c, w) && RecoveryInv(w, RecoverExpire(known, Mark(row, rest)))
    ensures var (w', pc') := RecoveryStep(w, RecoverExpire(known, Mark(row, rest)), o); Legal(c, w, w', pc')
  {
    hide WorldInv, Evolves, Legal, ScanOk, Recovered, MidRecovery, Exact, LeftOk, RecoveryScanOk;
    MarkScanOk(w, row, rest);
    ExpiryEffect(c, w, Mark(row, rest), o);
    RecoveredIsMidRecovery(w);
    if o.ok {
      MarkKeeps(c, w, known, row, rest);
      MarkScan(w, row, rest);
      ToRecovery(c, w, w.(db := ExpiredTx(w.db, row)), RecoverExpire(known, Loop(rest)));
    } else {
      ToRecovery(c, w, w, Down);
    }
  }

  lemma MarkScanOk(w: World, row: Job, rest: map<Id, Job>)
    requires RecoveryScanOk(w, Mark(row, rest))
    ensures ScanOk(w, Mark(row, rest))
  {
  }

  // ---- Device recovery ----

  lemma RecoverNextSteps(c: Config, w: World, left: map<Id, Job>, o: Oracle)
    requires WorldInv(c, w) && RecoveryInv(w, RecoverNext(left))
    ensures var (w', pc') := RecoveryStep(w, RecoverNext(left), o); Legal(c, w, w', pc')
  {
    hide WorldInv, Evolves, Legal, Recovered, Exact, ExpiredAtStart;
    TickEnv(w, 0);
    if left == map[] {
      ToRecovery(c, w, w, Ready);
    } else if o.id !in left {
      ToRecovery(c, w, w, RecoverNext(left));
    } else if Unresolved(left[o.id]) {
      ToRecovery(c, w, w, RecoverClean(left[o.id].id, left - {o.id}, Listing));
    } else {
      ToRecovery(c, w, w, RecoverNext(left - {o.id}));
    }
  }

  /** Confirmed operations do not disturb what recovery has established. */
  lemma HistoryOnly(w: World, w': World)
    requires w' == w.(hist := w.hist.(dirty := w'.hist.dirty))
    ensures Recovered(w) ==> Recovered(w')
    ensures Exact(w) ==> Exact(w')
    ensures ExpiredAtStart(w) ==> ExpiredAtStart(w')
    ensures forall left :: LeftOk(w, left) ==> LeftOk(w', left)
  {
    if ExpiredAtStart(w) {
      forall i ensures !DueAtStart(w', i) {
        assert !DueAtStart(w, i);
      }
    }
  }

  lemma PassDatabase(w: World, id: Id, pass: Pass, o: Oracle)
    ensures var w' := PassNext(w, id, pass, o).w; w' == w.(hist := w.hist.(dirty := w'.hist.dirty))
  {
  }

  lemma RecoverCleanSteps(c: Config, w: World, id: Id, left: map<Id, Job>, pass: Pass, o: Oracle)
    requires WorldInv(c, w) && RecoveryInv(w, RecoverClean(id, left, pass))
    ensures var (w', pc') := RecoveryStep(w, RecoverClean(id, left, pass), o); Legal(c, w, w', pc')
  {
    hide WorldInv, Evolves, Legal, PassNext, Recovered, Exact, ExpiredAtStart, LeftOk, PassOk, CleanOps;
    PassEffect(c, w, id, pass, o);
    PassDatabase(w, id, pass, o);
    HistoryOnly(w, PassNext(w, id, pass, o).w);
    match PassNext(w, id, pass, o)
    case PassMore(w', pass') => ToRecovery(c, w, w', RecoverClean(id, left, pass'));
    case PassDone(w', confirmed) =>
      ToRecovery(c, w, w', if confirmed then RecoverResolve(id, left) else RecoverNext(left));
  }

  lemma ResolveRecovered(c: Config, w: World, id: Id)
    requires WorldInv(c, w) && Recovered(w) && Exact(w) && ExpiredAtStart(w) && ReadyToResolve(w, id)
    requires ResolveTx(w.db, id).Ok?
    ensures var w' := w.(db := ResolveTx(w.db, id).value); Recovered(w') && Exact(w') && ExpiredAtStart(w')
  {
    hide WorldInv;
    var w' := w.(db := ResolveTx(w.db, id).value);
    ResolvedKeeps(w, id);
    forall i ensures !DueAtStart(w', i) {
      assert !DueAtStart(w, i);
    }
  }

  lemma ResolvedKeeps(w: World, id: Id)
    requires Recovered(w) && Exact(w) && Resolvable(w.db, id)
    ensures var w' := w.(db := ResolveTx(w.db, id).value); Recovered(w') && Exact(w')
  {
    var w' := w.(db := ResolveTx(w.db, id).value);
    forall i | i in w'.db.jobs
      ensures RowRecovered(w'.hist.boot[i], w'.db.jobs[i]) && !Live(w'.db.jobs[i])
    {
      assert RowRecovered(w.hist.boot[i], w.db.jobs[i]) && !Live(w.db.jobs[i]);
    }
  }

  lemma ResolveLeft(w: World, id: Id, left: map<Id, Job>)
    requires LeftOk(w, left) && id !in left && ResolveTx(w.db, id).Ok?
    ensures LeftOk(w.(db := ResolveTx(w.db, id).value), left)
  {
  }

  lemma RecoverResolveSteps(c: Config, w: World, id: Id, left: map<Id, Job>, o: Oracle)
    requires WorldInv(c, w) && RecoveryInv(w, RecoverResolve(id, left))
    ensures var (w', pc') := RecoveryStep(w, RecoverResolve(id, left), o); Legal(c, w, w', pc')
  {
    hide WorldInv, Evolves, Legal, Recovered, MidRecovery, Exact, ExpiredAtStart, LeftOk, CleanOps, Swept, ResolveTx;
    RecoveredIsMidRecovery(w);
    ExactSwept(w, id);
    if o.ok {
      ResolveEffect(c, w, id);
      ResolveRecovered(c, w, id);
      ResolveLeft(w, id, left);
      ToRecovery(c, w, w.(db := ResolveTx(w.db, id).value), RecoverNext(left));
    } else {
      TickEnv(w, 0);
      ToRecovery(c, w, w, Down);
    }
  }

  lemma ReadySteps(c: Config, w: World, o: Oracle)
    requires WorldInv(c, w) && RecoveryInv(w, Ready)
    ensures var (w', pc') := RecoveryStep(w, Ready, o); Legal(c, w, w', pc')
  {
    hide WorldInv, Evolves, Legal;
    TickEnv(w, 0);
    ToScheduler(c, w, w, Idle);
  }

  lemma DownSteps(c: Config, w: World, o: Oracle)
    requires WorldInv(c, w) && RecoveryInv(w, Down)
    ensures var (w', pc') := RecoveryStep(w, Down, o); Legal(c, w, w', pc')
  {
    OnlyHistory(c, w, w.hist.(startedAt := w.now));
    hide WorldInv, Evolves, Legal;
    ToRecovery(c, w, w.(hist := w.hist.(startedAt := w.now)), RecoverJobs);
  }

  lemma RecoverTempSteps(c: Config, w: World, known: map<Id, Job>, o: Oracle)
    requires WorldInv(c, w) && RecoveryInv(w, RecoverTemp(known))
    ensures var (w', pc') := RecoveryStep(w, RecoverTemp(known), o); Legal(c, w, w', pc')
  {
    assert LeftOk(w, known) by {
      forall i | i in known ensures known[i].id == i {
        assert RowOk(w.db.jobs[i], i, w.now);
      }
    }
    hide WorldInv, Evolves, Legal;
    TickEnv(w, 0);
    RecoveredIsMidRecovery(w);
    ToRecovery(c, w, w, if o.ok then RecoverExpire(known, Snapshot) else Down);
  }

  lemma KnownRows(w: World, pc: Pc)
    requires pc.Reconcile? && RecoveryInv(w, pc)
    ensures pc.known == w.db.jobs
  {
  }

  lemma RecoverySteps(c: Config, w: World, pc: Pc, o: Oracle)
    requires (pc.Down? || Recovering(pc)) && WorldInv(c, w) && RecoveryInv(w, pc)
    ensures var (w', pc') := RecoveryStep(w, pc, o); Legal(c, w, w', pc')
  {
    hide WorldInv, RecoveryInv, Legal, RecoveryStep;
    if pc.Reconcile? {
      KnownRows(w, pc);
    }
    match pc
    case Down => DownSteps(c, w, o);
    case RecoverJobs => RecoverJobsSteps(c, w, o);
    case Reconcile(known, kind, todo) => ReconcileSteps(c, w, kind, todo, o);
    case RecoverTemp(known) => RecoverTempSteps(c, w, known, o);
    case RecoverExpire(known, e) =>
      if e.Snapshot? {
        SnapshotSteps(c, w, known, o);
      } else if e.Loop? {
        LoopSteps(c, w, known, e.todo, o);
      } else {
        MarkSteps(c, w, known, e.row, e.rest, o);
      }
    case RecoverNext(left) => RecoverNextSteps(c, w, left, o);
    case RecoverClean(id, left, pass) => RecoverCleanSteps(c, w, id, left, pass, o);
    case RecoverResolve(id, left) => RecoverResolveSteps(c, w, id, left, o);
    case Ready => ReadySteps(c, w, o);
  }
}
