/** Each database transaction of the job store as a function on the database
    contents. The `Store` class carries them out in place; the protocol uses
    them as its atomic steps. */
module Transactions {
  import opened Model

  datatype Error = NotFound | Conflict | QueueFull | DuplicateId
  datatype Result<+T> = Ok(value: T) | Err(error: Error)

  function NonTerminal(jobs: map<Id, Job>): set<Id> {
    set i | i in jobs && !Terminal(jobs[i].state)
  }

  function UnresolvedIds(jobs: map<Id, Job>): set<Id> {
    set i | i in jobs && Unresolved(jobs[i])
  }

  function NewJob(id: Id, source: Source, now: Time): Job {
    Job(id, source, Queued, 0, false, NoCode, Clear, None, 0, None, now, now, None, false)
  }

  function Put(db: Db, j: Job): Db {
    db.(jobs := db.jobs[j.id := j])
  }

  /** Admission is bounded across queued, active and review jobs; the primary key is unique. */
  function EnqueueTx(db: Db, id: Id, source: Source, limit: nat, now: Time): Result<Db> {
    if |NonTerminal(db.jobs)| >= limit then Err(QueueFull)
    else if id in db.jobs then Err(DuplicateId)
    else Ok(Put(db, NewJob(id, source, now)))
  }

  predicate LeaseFree(db: Db) {
    !db.device.quarantined && db.device.owner == None
  }

  predicate Claimable(db: Db, now: Time, i: Id) {
    i in db.jobs && db.jobs[i].state == Queued && db.jobs[i].availableAt <= now
  }

  /** `i` may come first when claimable jobs are ordered by creation time; ties are free. */
  predicate IsFirst(db: Db, now: Time, i: Id) {
    Claimable(db, now, i)
    && forall k :: k in db.jobs && Claimable(db, now, k) ==> db.jobs[i].createdAt <= db.jobs[k].createdAt
  }

  function ClaimTx(db: Db, i: Id): Db
    requires i in db.jobs
  {
    var j := db.jobs[i];
    Db(db.jobs[i := j.(state := Running, attempts := j.attempts + 1)],
       db.device.(owner := Some(i)), db.ops)
  }

  function ChangeTx(db: Db, id: Id, to: State): Result<Db> {
    if id !in db.jobs then Err(NotFound)
    else if !CanTransition(db.jobs[id].state, to) then Err(Conflict)
    else Ok(db.(jobs := db.jobs[id := db.jobs[id].(state := to)]))
  }

  function CancelTx(db: Db, id: Id): Result<Db> {
    if id !in db.jobs then Err(NotFound)
    else if Terminal(db.jobs[id].state) || db.jobs[id].state == Cleaning then Err(Conflict)
    else Ok(db.(jobs := db.jobs[id := db.jobs[id].(cancelRequested := true)]))
  }

  function ReleaseTx(db: Db, id: Id): Db {
    if db.device.owner == Some(id) then db.(device := db.device.(owner := None)) else db
  }

  /** Writes the row unconditionally (no rows when the job is unknown) and takes the device. */
  function QuarantineTx(db: Db, id: Id, reason: Note, desired: State): Db {
    Db(if id in db.jobs
       then db.jobs[id := db.jobs[id].(cleanupError := reason, pending := Some(desired))]
       else db.jobs,
       Device(None, true, reason), db.ops)
  }

  /** The row `resolve` leaves behind. */
  function ResolvedJob(j: Job): Job
    requires j.pending.Some?
  {
    j.(state := j.pending.value, cleanupError := Clear, pending := None)
  }

  predicate Resolvable(db: Db, id: Id) {
    id in db.jobs && Unresolved(db.jobs[id])
    && db.jobs[id].pending.Some? && Terminal(db.jobs[id].pending.value)
  }

  function ResolveTx(db: Db, id: Id): Result<Db> {
    if id !in db.jobs then Err(NotFound)
    else if !Resolvable(db, id) then Err(Conflict)
    else
      var jobs := db.jobs[id := ResolvedJob(db.jobs[id])];
      Ok(Db(jobs,
            if UnresolvedIds(jobs) != {} then db.device else Device(None, false, Clear),
            db.ops))
  }

  /** Zero rows match, and nothing is reported, unless the job is running. */
  function RetryTx(db: Db, id: Id): Db {
    if id in db.jobs && db.jobs[id].state == Running
    then db.(jobs := db.jobs[id := db.jobs[id].(attempts := db.jobs[id].attempts + 1)])
    else db
  }

  /** The metadata write that follows publication. */
  function RecordTx(db: Db, id: Id, size: nat, hash: Digest, expiry: Time): Db {
    if id in db.jobs
    then db.(jobs := db.jobs[id := db.jobs[id].(bytes := size, sha256 := Some(hash), expiresAt := Some(expiry))])
    else db
  }

  /** The metadata write of `Expire` for one snapshot row. The snapshot, not the
      current row, decides whether the pending outcome is rewritten. */
  function ExpiredTx(db: Db, snap: Job): Db {
    if snap.id !in db.jobs then db
    else
      var j := db.jobs[snap.id].(artifactExpired := true);
      db.(jobs := db.jobs[snap.id :=
        if snap.state == Cleaning
        then j.(pending := Some(Failed), errorCode := ArtifactExpiredCode)
        else j])
  }

  /** What startup makes of one row. */
  function RecoveredRow(j: Job): Job {
    if !Active(j.state) || Unresolved(j) then j
    else if j.state == Cleaning && j.pending.Some? && Terminal(j.pending.value)
    then j.(cleanupError := InterruptedJob)
    else j.(state := Cleaning, cleanupError := InterruptedJob, errorCode := Interrupted,
            pending := Some(if j.cancelRequested then Cancelled else Failed))
  }

  function ActiveIds(jobs: map<Id, Job>): set<Id> {
    set i | i in jobs && Active(jobs[i].state)
  }

  function RecoverTx(db: Db): Db {
    Db(map i | i in db.jobs :: RecoveredRow(db.jobs[i]),
       if ActiveIds(db.jobs) != {} then Device(None, true, ReviewRequired)
       else db.device.(owner := None),
       db.ops)
  }

  /** The outcome BeginCleanup commits: an accepted cancellation always wins. */
  function Committed(j: Job, desired: State): State {
    if j.cancelRequested then Cancelled else desired
  }

  function BeginCleanupTx(db: Db, id: Id, desired: State, code: Code): Result<Db> {
    if id !in db.jobs then Err(NotFound)
    else if !CanTransition(db.jobs[id].state, Cleaning) then Err(Conflict)
    else
      var j := db.jobs[id];
      Ok(db.(jobs := db.jobs[id :=
        j.(state := Cleaning, pending := Some(Committed(j, desired)),
           errorCode := if j.cancelRequested then CancelledCode else code)]))
  }

  /** An operation is recorded only for the running owner of an unquarantined device. */
  function StartOperationTx(db: Db, id: Id, op: OpId): Result<Db> {
    if id !in db.jobs then Err(NotFound)
    else if db.jobs[id].state != Running || db.device.owner != Some(id) || db.device.quarantined
    then Err(Conflict)
    else if op in db.ops then Err(DuplicateId)
    else Ok(db.(ops := db.ops[op := id]))
  }

  function Operations(db: Db, id: Id): set<OpId> {
    set op | op in db.ops && db.ops[op] == id
  }
}
