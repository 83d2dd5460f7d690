/** The inductive invariant of the protocol, and the two relations every proof is
    organised around: `Evolves`, what any single step may do to the world, and
    `Env`, what the other threads may do while the scheduler thread is between
    two of its steps. */
module Invariant {
  import opened Model
  import opened Transactions
  import opened Protocol
  import Engine

  // ---- The world ----

  /** `d` may become the outcome of `j`. */
  predicate OutcomeOk(j: Job, d: State) {
    Terminal(d)
    && (d == Completed ==>
          j.expiresAt.Some? && !j.cancelRequested && (!j.artifactExpired ==> j.errorCode == NoCode))
    && (j.cancelRequested ==> d == Cancelled || (d == Failed && j.artifactExpired))
  }

  predicate RowOk(j: Job, i: Id, now: Time) {
    j.id == i
    && j.availableAt <= j.createdAt <= now
    && (j.cleanupError != Clear ==> j.state == Cleaning)
    && (j.state == Cleaning ==> j.pending.Some?)
    && (j.state == Queued || j.state == Running ==> j.expiresAt.None?)
    && (j.artifactExpired ==> j.expiresAt.Some? && j.expiresAt.value <= now)
    && (Outcome(j).Some? ==> OutcomeOk(j, Outcome(j).value))
  }

  ghost predicate RowsOk(w: World) {
    forall i :: i in w.db.jobs ==> RowOk(w.db.jobs[i], i, w.now)
  }

  predicate WorkOk(w: World, i: Id) {
    i in w.fs.work ==> i in w.db.jobs && Active(w.db.jobs[i].state)
  }

  /** Until cleanup begins, an uploaded archive is still wanted. */
  predicate NeedsInput(s: State) {
    s == Queued || s == Running || s == Verifying
  }

  predicate InputOk(w: World, i: Id) {
    i in w.db.jobs ==>
      && (Terminal(w.db.jobs[i].state) ==> i !in w.fs.inputs)
      && (w.db.jobs[i].source == Upload && NeedsInput(w.db.jobs[i].state) ==> i in w.fs.inputs)
  }

  /** A stored artifact is what passed verification. */
  predicate ArtifactOk(w: World, i: Id) {
    i in w.fs.artifacts ==>
      && i in w.db.jobs && w.db.jobs[i].state != Queued && w.db.jobs[i].state != Running
      && !w.db.jobs[i].artifactExpired
      && i in w.hist.passed && w.fs.artifacts[i] == w.hist.passed[i]
  }

  /** An unexpired artifact of a completed outcome is present. */
  predicate Available(w: World, i: Id) {
    i in w.db.jobs && Outcome(w.db.jobs[i]) == Some(Completed) && !w.db.jobs[i].artifactExpired
    && w.db.jobs[i].expiresAt.Some? && w.now < w.db.jobs[i].expiresAt.value
    ==> i in w.fs.artifacts
  }

  /** Only verified content is recorded, whether or not it is still stored. */
  predicate PassedOk(c: Config, w: World, i: Id) {
    && (i in w.hist.passed ==>
          i in w.db.jobs && w.db.jobs[i].state != Queued && w.db.jobs[i].state != Running)
    && (i in w.db.jobs && w.db.jobs[i].expiresAt.Some? ==>
          && i in w.hist.passed
          && w.db.jobs[i].bytes == |w.hist.passed[i]|
          && w.db.jobs[i].sha256 == Some(c.sha(w.hist.passed[i])))
  }

  predicate FileOk(c: Config, w: World, i: Id) {
    WorkOk(w, i) && InputOk(w, i) && ArtifactOk(w, i) && Available(w, i) && PassedOk(c, w, i)
  }

  ghost predicate FilesOk(c: Config, w: World) {
    forall i :: FileOk(c, w, i)
  }

  ghost predicate DeviceOk(w: World) {
    && (w.db.device.quarantined <==> exists i :: i in w.db.jobs && Unresolved(w.db.jobs[i]))
    && (w.db.device.quarantined ==> w.db.device.owner == None)
    && (w.db.device.owner.Some? ==>
          w.db.device.owner.value in w.db.jobs && w.db.jobs[w.db.device.owner.value].state != Queued)
  }

  /** Outstanding device work belongs to active jobs. */
  ghost predicate OpsOk(w: World) {
    && (forall op :: op in w.db.ops ==>
          w.db.ops[op] in w.db.jobs && w.db.jobs[w.db.ops[op]].state != Queued)
    && (forall op :: op in w.hist.dirty ==>
          op in w.db.ops && w.db.ops[op] in w.db.jobs && Active(w.db.jobs[w.db.ops[op]].state))
  }

  ghost predicate WorldInv(c: Config, w: World) {
    RowsOk(w) && FilesOk(c, w) && DeviceOk(w) && OpsOk(w)
  }

  // ---- One step ----

  /** A committed outcome changes to `Failed` when the artifact expires in cleanup, or back
      from there. */
  predicate OutcomeRewritten(j: Job, j': Job) {
    j'.artifactExpired
    && (Outcome(j') == Some(Failed) || (j.artifactExpired && Outcome(j) == Some(Failed)))
  }

  ghost predicate RowEvolves(w: World, w': World, i: Id)
    requires i in w.db.jobs
  {
    i in w'.db.jobs
    && var j, j' := w.db.jobs[i], w'.db.jobs[i];
    && j'.id == j.id && j'.source == j.source
    && j'.createdAt == j.createdAt && j'.availableAt == j.availableAt
    && (j'.state == j.state || CanTransition(j.state, j'.state))
    && j.attempts <= j'.attempts
    && (j.cancelRequested ==> j'.cancelRequested)
    && (j'.cancelRequested && !j.cancelRequested ==> j'.state == j.state && !Terminal(j.state) && j.state != Cleaning)
    && (j.expiresAt.Some? ==> j'.expiresAt == j.expiresAt)
    && (j.artifactExpired ==> j'.artifactExpired)
    && (Outcome(j).Some? && Outcome(j') != Outcome(j) ==> OutcomeRewritten(j, j'))
    && (Terminal(j.state) ==>
          j' == j.(artifactExpired := j'.artifactExpired, pending := j'.pending, errorCode := j'.errorCode))
    && (Unresolved(j) ==> Unresolved(j') || Terminal(j'.state))
    && (j.state == Queued ==>
          if j'.state == Queued then j' == j.(cancelRequested := j'.cancelRequested)
          else j' == j.(state := Running, attempts := j.attempts + 1)
               && IsFirst(w.db, w.now, i) && LeaseFree(w.db) && w.hist.dirty == {}
               && forall k :: k in w.db.jobs ==> !Active(w.db.jobs[k].state))
  }

  ghost predicate RowsEvolve(w: World, w': World) {
    (forall i :: i in w.db.jobs ==> RowEvolves(w, w', i))
    && (forall i :: i in w'.db.jobs && i !in w.db.jobs ==>
          w'.now == w.now && w'.db.jobs[i] == NewJob(i, w'.db.jobs[i].source, w.now))
  }

  /** Workspaces appear for running jobs only, inputs before their job exists, and
      artifacts while their job verifies. Stored artifacts are never rewritten. */
  ghost predicate FilesEvolve(w: World, w': World) {
    && (forall i :: i in w'.fs.work && i !in w.fs.work ==> i in w.db.jobs && w.db.jobs[i].state == Running)
    && (forall i :: i in w'.fs.inputs && i !in w.fs.inputs ==> i !in w.db.jobs)
    && (forall i :: i in w'.fs.artifacts && i !in w.fs.artifacts ==>
          i in w.db.jobs && w.db.jobs[i].state == Verifying && w.db.jobs[i].expiresAt.None?)
    && (forall i :: i in w.fs.artifacts && i in w'.fs.artifacts ==> w'.fs.artifacts[i] == w.fs.artifacts[i])
    && (forall i :: i in w.hist.passed ==> i in w'.hist.passed && w'.hist.passed[i] == w.hist.passed[i])
  }

  /** Operations are never forgotten, and one is recorded only for a running job
      on a clean device; only a new operation becomes outstanding. */
  ghost predicate OpsEvolve(w: World, w': World) {
    && (forall op :: op in w.db.ops ==> op in w'.db.ops && w'.db.ops[op] == w.db.ops[op])
    && (forall op :: op in w'.db.ops && op !in w.db.ops ==>
          w'.db.ops[op] in w.db.jobs && w.db.jobs[w'.db.ops[op]].state == Running && w.hist.dirty == {})
    && (forall op :: op in w'.hist.dirty ==> op in w.hist.dirty || (op in w'.db.ops && op !in w.db.ops))
  }

  ghost predicate Evolves(w: World, w': World) {
    w.now <= w'.now && RowsEvolve(w, w') && FilesEvolve(w, w') && OpsEvolve(w, w')
  }

  // ---- What the other threads may do ----

  ghost predicate RowUndisturbed(w: World, w': World, i: Id)
    requires i in w.db.jobs && i in w'.db.jobs
  {
    var j, j' := w.db.jobs[i], w'.db.jobs[i];
    && j'.state == j.state && j'.cleanupError == j.cleanupError
    && j'.attempts == j.attempts && j'.expiresAt == j.expiresAt
    && j'.bytes == j.bytes && j'.sha256 == j.sha256
    && (!j'.artifactExpired ==> j'.errorCode == j.errorCode)
    && (j'.pending == j.pending || (j'.artifactExpired && j'.pending == Some(Failed)))
    && (i in w.fs.work <==> i in w'.fs.work)
    && (i in w.fs.work ==> w'.fs.work[i] == w.fs.work[i])
    && (i in w.fs.inputs <==> i in w'.fs.inputs)
  }

  ghost predicate Env(w: World, w': World) {
    && Evolves(w, w')
    && w'.db.device.owner == w.db.device.owner
    && (w'.db.device.quarantined ==> w.db.device.quarantined)
    && w'.db.ops == w.db.ops && w'.hist.dirty <= w.hist.dirty
    && w'.hist == w.hist.(dirty := w'.hist.dirty)
    && (forall i :: i in w.db.jobs && Live(w.db.jobs[i]) ==> i in w'.db.jobs && RowUndisturbed(w, w', i))
    && (forall i :: i in w.db.jobs && w.db.jobs[i].state == Queued ==>
          i in w'.db.jobs && w'.db.jobs[i].state == Queued)
    && (forall i :: i in w.fs.artifacts && i !in w'.fs.artifacts ==>
          i in w.db.jobs && w.db.jobs[i].expiresAt.Some? && w.db.jobs[i].expiresAt.value <= w'.now)
    && (forall i :: i in w'.fs.artifacts ==> i in w.fs.artifacts)
  }

  // ---- Sub-machines ----

  /** A snapshot row is never ahead of the stored row in what `Expire` relies on. */
  predicate SnapOk(w: World, i: Id, snap: Job) {
    snap.id == i && i in w.db.jobs
    && (snap.expiresAt.Some? ==> w.db.jobs[i].expiresAt == snap.expiresAt)
    && (snap.state == Cleaning ==> w.db.jobs[i].state == Cleaning || Terminal(w.db.jobs[i].state))
  }

  ghost predicate SnapsOk(w: World, todo: map<Id, Job>) {
    forall i :: i in todo ==> SnapOk(w, i, todo[i])
  }

  ghost predicate ScanOk(w: World, e: Expiry) {
    match e
    case Snapshot => true
    case Loop(todo) => SnapsOk(w, todo)
    case Mark(row, rest) =>
      SnapOk(w, row.id, row) && row.expiresAt.Some? && row.expiresAt.value <= w.now
      && row.id !in w.fs.artifacts && SnapsOk(w, rest)
  }

  /** No outstanding operation belongs to the job. */
  ghost predicate CleanOps(w: World, id: Id) {
    forall op :: op in w.hist.dirty ==> op in w.db.ops && w.db.ops[op] != id
  }

  ghost predicate PassOk(w: World, id: Id, pass: Pass) {
    pass.Asking? && pass.ok ==>
      forall op :: op in w.hist.dirty && op in w.db.ops && w.db.ops[op] == id ==> op in pass.todo
  }

  // ---- The scheduler thread ----

  ghost predicate NoLive(w: World) {
    forall i :: i in w.db.jobs ==> !Live(w.db.jobs[i])
  }

  /** The job holds the lease, and nothing else needs it. */
  ghost predicate RunOk(w: World, id: Id, st: State) {
    id in w.db.jobs && w.db.jobs[id].state == st && w.db.jobs[id].cleanupError == Clear
    && w.db.device.owner == Some(id) && !w.db.device.quarantined
    && forall i :: i in w.db.jobs && Live(w.db.jobs[i]) ==> i == id
  }

  ghost predicate Unpublished(w: World, id: Id) {
    id in w.db.jobs && w.db.jobs[id].expiresAt.None? && id !in w.fs.artifacts
  }

  ghost predicate DesiredOk(w: World, id: Id, desired: State) {
    id in w.db.jobs && OutcomeOk(w.db.jobs[id], desired)
    && (w.db.jobs[id].pending == Some(desired)
        || (w.db.jobs[id].artifactExpired && w.db.jobs[id].pending == Some(Failed)))
  }

  ghost predicate Swept(w: World, id: Id) {
    id !in w.fs.work && id !in w.fs.inputs
  }

  /** One row across a crash and whatever part of recovery has happened. */
  predicate RowRecovered(b: Job, a: Job) {
    && (b.state == Queued ==> a == b)
    && (Terminal(b.state) ==>
          a == b.(artifactExpired := a.artifactExpired, pending := a.pending, errorCode := a.errorCode))
    && (b.state == Cleaning ==> Outcome(a) == Outcome(b) || (a.artifactExpired && Outcome(a) == Some(Failed)))
    && (b.state == Running || b.state == Verifying ==>
          Outcome(a) == Some(if b.cancelRequested then Cancelled else Failed)
          || (a.artifactExpired && Outcome(a) == Some(Failed)))
    && (Active(b.state) ==> Terminal(a.state) || Unresolved(a))
  }

  ghost predicate MidRecovery(w: World) {
    w.hist.boot.Keys == w.db.jobs.Keys
    && forall i :: i in w.db.jobs ==>
         w.db.jobs[i] == w.hist.boot[i] || RowRecovered(w.hist.boot[i], w.db.jobs[i])
  }

  ghost predicate Recovered(w: World) {
    w.hist.boot.Keys == w.db.jobs.Keys
    && (forall i :: i in w.db.jobs ==> RowRecovered(w.hist.boot[i], w.db.jobs[i]))
    && w.db.device.owner == None && NoLive(w)
    && (w.db.device.quarantined ==> w.db.device.reason == ReviewRequired)
    && w.hist.startedAt <= w.now
  }

  /** Every stored entry of this kind is one that startup keeps. */
  ghost predicate Kept(w: World, kind: Kind) {
    forall i :: i in Listed(w.fs, kind) ==> Keep(w.db.jobs, kind, i)
  }

  ghost predicate Exact(w: World) {
    Kept(w, WorkDirs) && Kept(w, InputFiles) && Kept(w, ArtifactFiles)
  }

  ghost predicate ReconcileOk(w: World, kind: Kind, todo: set<Id>) {
    && (kind != WorkDirs ==> Kept(w, WorkDirs))
    && (kind == ArtifactFiles ==> Kept(w, InputFiles))
    && (forall i :: i in Listed(w.fs, kind) ==> i in todo || Keep(w.db.jobs, kind, i))
  }

  /** Rows still to be visited agree with the stored rows on who is in review. */
  ghost predicate LeftOk(w: World, left: map<Id, Job>) {
    forall i :: i in left ==>
      i in w.db.jobs && left[i].id == i
      && left[i].state == w.db.jobs[i].state && left[i].cleanupError == w.db.jobs[i].cleanupError
  }

  predicate DueAtStart(w: World, i: Id) {
    i in w.db.jobs && w.db.jobs[i].expiresAt.Some? && !w.db.jobs[i].artifactExpired
    && w.db.jobs[i].expiresAt.value <= w.hist.startedAt
  }

  ghost predicate ExpiredAtStart(w: World) {
    forall i :: !DueAtStart(w, i)
  }

  /** Nothing else writes rows during recovery, so a snapshot stays exact. */
  ghost predicate Current(w: World, todo: map<Id, Job>) {
    forall i :: i in todo ==> i in w.db.jobs && todo[i] == w.db.jobs[i]
  }

  ghost predicate RecoveryScanOk(w: World, e: Expiry) {
    ScanOk(w, e)
    && match e
       case Snapshot => true
       case Loop(todo) =>
         Current(w, todo) && forall i :: DueAtStart(w, i) ==> i in todo
       case Mark(row, rest) =>
         row.id in w.db.jobs && row == w.db.jobs[row.id] && row.id !in rest && Current(w, rest)
         && forall i :: DueAtStart(w, i) ==> i == row.id || i in rest
  }

  ghost predicate RecoveryInv(w: World, pc: Pc)
    requires pc.Down? || Recovering(pc)
  {
    match pc
    case Down => MidRecovery(w)
    case RecoverJobs => MidRecovery(w) && w.hist.startedAt <= w.now
    case Reconcile(known, kind, todo) =>
      Recovered(w) && known == w.db.jobs && ReconcileOk(w, kind, todo)
    case RecoverTemp(known) => Recovered(w) && known == w.db.jobs && Exact(w)
    case RecoverExpire(known, e) =>
      Recovered(w) && LeftOk(w, known) && Exact(w) && RecoveryScanOk(w, e)
    case RecoverNext(left) => Recovered(w) && LeftOk(w, left) && Exact(w) && ExpiredAtStart(w)
    case RecoverClean(id, left, pass) =>
      Recovered(w) && LeftOk(w, left) && Exact(w) && ExpiredAtStart(w)
      && id in w.db.jobs && Unresolved(w.db.jobs[id]) && id !in left && PassOk(w, id, pass)
    case RecoverResolve(id, left) =>
      Recovered(w) && LeftOk(w, left) && Exact(w) && ExpiredAtStart(w)
      && id in w.db.jobs && Unresolved(w.db.jobs[id]) && id !in left && CleanOps(w, id)
    case Ready => Recovered(w) && Exact(w) && ExpiredAtStart(w)
  }

  ghost predicate SchedulerInv(w: World, pc: Pc)
    requires pc.Idle? || pc.SchedulerExpire? || pc.Claiming? || pc.Stopped?
  {
    match pc
    case Idle => NoLive(w) && w.db.device.owner == None
    case SchedulerExpire(e) => NoLive(w) && w.db.device.owner == None && ScanOk(w, e)
    case Claiming => NoLive(w) && w.db.device.owner == None
    case Stopped => true
  }

  ghost predicate AttemptInv(w: World, pc: Pc)
    requires Attempting(pc)
  {
    match pc
    case MakeWorkspace(id) =>
      RunOk(w, id, Running) && id !in w.fs.work && CleanOps(w, id)
    case Calling(id, k) => RunOk(w, id, Running) && id in w.fs.work && CleanOps(w, id) && k >= 1
    case OnDevice(id, k, op) =>
      RunOk(w, id, Running) && id in w.fs.work && k >= 1 && op in w.db.ops && w.db.ops[op] == id
      && forall o :: o in w.hist.dirty ==> o == op
    case Returned(id, k, reply) =>
      RunOk(w, id, Running) && id in w.fs.work && k >= 1 && (Engine.NeedsReview(reply) || CleanOps(w, id))
    case CleanRetry(id, k, reply, pass) =>
      RunOk(w, id, Running) && id in w.fs.work && k >= 1 && Engine.NeedsReview(reply) && PassOk(w, id, pass)
    case Retrying(id, k, reply) =>
      RunOk(w, id, Running) && id in w.fs.work && k >= 1 && CleanOps(w, id)
    case Backoff(id, k, reply) =>
      RunOk(w, id, Running) && id in w.fs.work && k >= 1 && CleanOps(w, id)
  }

  ghost predicate PublicationInv(c: Config, w: World, pc: Pc)
    requires Publication(pc)
  {
    match pc
    case Settle(id, reply) =>
      RunOk(w, id, Running) && (Engine.NeedsReview(reply) || CleanOps(w, id))
    case ToVerifying(id, review) => RunOk(w, id, Running) && (review || CleanOps(w, id))
    case Validating(id, review) =>
      RunOk(w, id, Verifying) && (review || CleanOps(w, id)) && Unpublished(w, id) && id !in w.hist.passed
    case Checking(id, review, content) =>
      RunOk(w, id, Verifying) && (review || CleanOps(w, id)) && Unpublished(w, id) && id !in w.hist.passed
      && id in w.fs.work && w.fs.work[id] == Some(content)
    case Publishing(id, review) =>
      RunOk(w, id, Verifying) && (review || CleanOps(w, id)) && Unpublished(w, id) && id in w.hist.passed
      && id in w.fs.work && w.fs.work[id] == Some(w.hist.passed[id])
    case Recording(id, review, size, hash, expiry) =>
      RunOk(w, id, Verifying) && (review || CleanOps(w, id)) && w.db.jobs[id].expiresAt.None?
      && id in w.fs.artifacts && size == |w.fs.artifacts[id]| && hash == c.sha(w.fs.artifacts[id])
  }

  ghost predicate EndingInv(w: World, pc: Pc)
    requires Ending(pc)
  {
    match pc
    case Finishing(id, desired, code, review) =>
      id in w.db.jobs && (w.db.jobs[id].state == Running || w.db.jobs[id].state == Verifying)
      && RunOk(w, id, w.db.jobs[id].state) && (review || CleanOps(w, id)) && Terminal(desired)
      && (desired == Cancelled ==> w.db.jobs[id].cancelRequested)
      && (desired == Completed ==>
            w.db.jobs[id].state == Verifying && w.db.jobs[id].expiresAt.Some? && code == NoCode
            && (!w.db.jobs[id].artifactExpired && w.now < w.db.jobs[id].expiresAt.value ==> id in w.fs.artifacts))
    case Sweep(id, desired, review, stage, bad) =>
      RunOk(w, id, Cleaning) && (review || CleanOps(w, id)) && DesiredOk(w, id, desired)
      && (stage != SweepWork && !bad ==> id !in w.fs.work)
      && ((stage == SweepTemp || stage == SweepArtifact) && !bad ==> id !in w.fs.inputs)
      && (stage == SweepArtifact ==> desired != Completed)
    case CleanFinish(id, desired, bad, pass) =>
      RunOk(w, id, Cleaning) && DesiredOk(w, id, desired) && (!bad ==> Swept(w, id)) && PassOk(w, id, pass)
    case Deciding(id, desired, bad, review) =>
      RunOk(w, id, Cleaning) && DesiredOk(w, id, desired) && (!bad ==> Swept(w, id))
      && (review || CleanOps(w, id))
    case FinishExpire(id, e) => RunOk(w, id, Cleaning) && Swept(w, id) && CleanOps(w, id) && ScanOk(w, e)
    case Reading(id) => RunOk(w, id, Cleaning) && Swept(w, id) && CleanOps(w, id)
    case Closing(id, desired) =>
      RunOk(w, id, Cleaning) && Swept(w, id) && CleanOps(w, id) && DesiredOk(w, id, desired)
    case Releasing(id, failed) =>
      !failed ==> NoLive(w) && (w.db.device.owner == None || w.db.device.owner == Some(id))
  }

  ghost predicate PcInv(c: Config, w: World, pc: Pc) {
    if pc.Down? || Recovering(pc) then RecoveryInv(w, pc)
    else if Attempting(pc) then AttemptInv(w, pc)
    else if Publication(pc) then PublicationInv(c, w, pc)
    else if Ending(pc) then EndingInv(w, pc)
    else SchedulerInv(w, pc)
  }

  // ---- Confirmations, uploads, the system ----

  ghost predicate ConfirmOk(w: World, cf: Confirmation) {
    cf.id in w.db.jobs && (Unresolved(w.db.jobs[cf.id]) || Terminal(w.db.jobs[cf.id].state))
    && CleanOps(w, cf.id)
    && match cf.stage
       case ConfirmWork => true
       case ConfirmInput => !cf.bad ==> cf.id !in w.fs.work
       case ConfirmTemp => !cf.bad ==> Swept(w, cf.id)
       case ConfirmExpire(e) => Swept(w, cf.id) && ScanOk(w, e)
       case ConfirmResolve => Swept(w, cf.id)
  }

  ghost predicate UploadOk(w: World, u: Incoming) {
    u.Receiving? ==> u.id !in w.db.jobs && u.id in w.fs.inputs
  }

  ghost predicate Inv(c: Config, s: Sys) {
    && WorldInv(c, s.w)
    && PcInv(c, s.w, s.pc)
    && (forall k :: k in s.confirms ==> ConfirmOk(s.w, s.confirms[k]))
    && UploadOk(s.w, s.upload)
    && (!Serving(s.pc) ==> s.confirms == map[] && s.upload == NoUpload)
  }
}
