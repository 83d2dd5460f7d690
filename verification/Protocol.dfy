/** The service as a state machine over its atomic steps. One thread carries out
    startup recovery, then the scheduler loop and the job it runs; any number of
    operator confirmations, one upload and the other API requests interleave with
    it; the process may crash between any two steps. */
module Protocol {
  import opened Model
  import opened Transactions
  import Engine

  /** `accepts` is the verdict of archive validation on the bytes of an output; the
      theorems that name archives instantiate it with `Archive.Acceptable`. */
  datatype Config = Config(
    sha: Bytes -> Digest,
    accepts: Bytes -> bool,
    maxAttempts: nat,
    retryDelay: nat,
    retention: nat,
    queueLimit: nat)
  {
    predicate Valid() {
      maxAttempts >= 1 && queueLimit >= 1
    }
    /** A job with this output can be completed: it is an acceptable archive, and it does
        not expire at once. */
    predicate CanComplete(content: Bytes) {
      retention >= 1 && accepts(content)
    }
    /** An unset delay means one second. */
    function Delay(): nat {
      if retryDelay == 0 then 1000 else retryDelay
    }
  }

  /** `work` maps a workspace to the output the library left in it, if any. */
  datatype Files = Files(work: map<Id, Option<Bytes>>, inputs: set<Id>, artifacts: map<Id, Bytes>)

  /** What happened, beyond what the service stores:
      `dirty`     operations recorded, and neither confirmed clean by a report nor attested since
      `calls`     engine calls made for a job
      `waited`    total back-off scheduled for a job
      `passed`    bytes that passed archive validation and independent verification for a job
      `boot`      the job rows when the last serving process ended
      `startedAt` the clock when the current process started */
  datatype History = History(
    dirty: set<OpId>,
    calls: map<Id, nat>,
    waited: map<Id, nat>,
    passed: map<Id, Bytes>,
    boot: map<Id, Job>,
    startedAt: Time)

  datatype World = World(db: Db, fs: Files, now: Time, hist: History)

  /** Everything a step cannot know by itself. `ok`: its transaction or file
      operation succeeds. `late`: its context has ended. `alt`: which of two ways
      the step goes. `id`, `op`: the entry visited next, or a fresh identifier. */
  datatype Oracle = Oracle(
    ok: bool, late: bool, alt: bool, id: Id, op: OpId, bytes: Bytes, code: Code, call: Engine.Call)

  // ---- Sub-machines ----

  /** A pass of `Adapter.Cleanup` over the operations of one job. */
  datatype Pass = Listing | Asking(todo: set<OpId>, ok: bool)

  datatype PassStep = PassMore(w: World, pass: Pass) | PassDone(w: World, confirmed: bool)

  function OpsOf(w: World, id: Id): set<OpId> {
    Operations(w.db, id)
  }

  function ConfirmOp(w: World, op: OpId): World {
    w.(hist := w.hist.(dirty := w.hist.dirty - {op}))
  }

  function PassNext(w: World, id: Id, pass: Pass, o: Oracle): PassStep {
    match pass
    case Listing =>
      if !o.ok || OpsOf(w, id) == {} then PassDone(w, false)
      else PassMore(w, Asking(OpsOf(w, id), true))
    case Asking(todo, ok) =>
      if todo == {} then PassDone(w, ok && o.ok && !o.late)
      else if o.late then PassDone(w, false)
      else if o.op !in todo then PassMore(w, pass)
      else PassMore(if o.ok then ConfirmOp(w, o.op) else w, Asking(todo - {o.op}, ok && o.ok))
  }

  /** `Expire`: a snapshot of all rows, then one removal and one write per due row. */
  datatype Expiry = Snapshot | Loop(todo: map<Id, Job>) | Mark(row: Job, rest: map<Id, Job>)

  datatype ExpiryStep = ExpiryMore(w: World, e: Expiry) | ExpiryDone(w: World) | ExpiryFailed(w: World)

  predicate Due(j: Job, now: Time) {
    j.expiresAt.Some? && !j.artifactExpired && j.expiresAt.value <= now
  }

  function RemoveArtifact(w: World, id: Id): World {
    w.(fs := w.fs.(artifacts := w.fs.artifacts - {id}))
  }

  function RemoveInput(w: World, id: Id): World {
    w.(fs := w.fs.(inputs := w.fs.inputs - {id}))
  }

  function RemoveWork(w: World, id: Id): World {
    w.(fs := w.fs.(work := w.fs.work - {id}))
  }

  /** A removal that stopped half way may have lost the output already. */
  function SpoilWork(w: World, id: Id, lost: bool): World {
    if lost && id in w.fs.work then w.(fs := w.fs.(work := w.fs.work[id := None])) else w
  }

  function ExpiryNext(w: World, e: Expiry, o: Oracle): ExpiryStep {
    match e
    case Snapshot => if o.ok then ExpiryMore(w, Loop(w.db.jobs)) else ExpiryFailed(w)
    case Loop(todo) =>
      if todo == map[] then ExpiryDone(w)
      else if o.id !in todo then ExpiryMore(w, e)
      else if !Due(todo[o.id], w.now) then ExpiryMore(w, Loop(todo - {o.id}))
      else if !o.ok then ExpiryFailed(w)
      else ExpiryMore(RemoveArtifact(w, todo[o.id].id), Mark(todo[o.id], todo - {o.id}))
    case Mark(row, rest) =>
      if o.ok then ExpiryMore(w.(db := ExpiredTx(w.db, row)), Loop(rest)) else ExpiryFailed(w)
  }

  // ---- The scheduler thread ----

  datatype Kind = WorkDirs | InputFiles | ArtifactFiles

  datatype Stage = SweepWork | SweepInput | SweepTemp | SweepArtifact

  datatype Pc =
    // no process, then startup recovery
    | Down
    | RecoverJobs
    | Reconcile(known: map<Id, Job>, kind: Kind, todo: set<Id>)
    | RecoverTemp(known: map<Id, Job>)
    | RecoverExpire(known: map<Id, Job>, e: Expiry)
    | RecoverNext(left: map<Id, Job>)
    | RecoverClean(id: Id, left: map<Id, Job>, pass: Pass)
    | RecoverResolve(id: Id, left: map<Id, Job>)
    | Ready
    // the scheduler loop
    | Idle
    | SchedulerExpire(e: Expiry)
    | Claiming
    | Stopped
    // one job
    | MakeWorkspace(id: Id)
    | Calling(id: Id, attempt: nat)
    | OnDevice(id: Id, attempt: nat, op: OpId)
    | Returned(id: Id, attempt: nat, reply: Engine.Reply)
    | CleanRetry(id: Id, attempt: nat, reply: Engine.Reply, pass: Pass)
    | Retrying(id: Id, attempt: nat, reply: Engine.Reply)
    | Backoff(id: Id, attempt: nat, reply: Engine.Reply)
    | Settle(id: Id, reply: Engine.Reply)
    | ToVerifying(id: Id, review: bool)
    | Validating(id: Id, review: bool)
    | Checking(id: Id, review: bool, content: Bytes)
    | Publishing(id: Id, review: bool)
    | Recording(id: Id, review: bool, size: nat, hash: Digest, expiry: Time)
    | Finishing(id: Id, desired: State, code: Code, review: bool)
    | Sweep(id: Id, desired: State, review: bool, stage: Stage, bad: bool)
    | CleanFinish(id: Id, desired: State, bad: bool, pass: Pass)
    | Deciding(id: Id, desired: State, bad: bool, review: bool)
    | FinishExpire(id: Id, e: Expiry)
    | Reading(id: Id)
    | Closing(id: Id, desired: State)
    | Releasing(id: Id, failed: bool)

  predicate Recovering(pc: Pc) {
    pc.RecoverJobs? || pc.Reconcile? || pc.RecoverTemp? || pc.RecoverExpire?
    || pc.RecoverNext? || pc.RecoverClean? || pc.RecoverResolve? || pc.Ready?
  }

  /** The API answers only after recovery, and keeps answering while the process
      shuts down after the scheduler stopped. */
  predicate Serving(pc: Pc) {
    !pc.Down? && !Recovering(pc)
  }

  /** The scheduler thread is in a cleanup pass. */
  predicate InPass(pc: Pc) {
    pc.CleanRetry? || pc.CleanFinish? || pc.RecoverClean?
  }

  /** The scheduler thread is in `Expire`. */
  predicate InExpiry(pc: Pc) {
    pc.SchedulerExpire? || pc.FinishExpire? || pc.RecoverExpire?
  }

  function Listed(fs: Files, kind: Kind): set<Id> {
    match kind
    case WorkDirs => fs.work.Keys
    case InputFiles => fs.inputs
    case ArtifactFiles => fs.artifacts.Keys
  }

  /** Which stored entries startup keeps. */
  predicate Keep(known: map<Id, Job>, kind: Kind, id: Id) {
    id in known
    && ((kind == InputFiles && known[id].state == Queued)
        || (kind == ArtifactFiles
            && (known[id].state == Completed
                || (known[id].state == Cleaning && known[id].pending == Some(Completed)))))
  }

  function RemoveKind(w: World, kind: Kind, id: Id): World {
    match kind
    case WorkDirs => RemoveWork(w, id)
    case InputFiles => RemoveInput(w, id)
    case ArtifactFiles => RemoveArtifact(w, id)
  }

  function Count(m: map<Id, nat>, id: Id): nat {
    if id in m then m[id] else 0
  }

  function Pow2(k: nat): nat {
    if k == 0 then 1 else 2 * Pow2(k - 1)
  }

  /** The engine is called once more. */
  function Called(w: World, id: Id): World {
    w.(hist := w.hist.(calls := w.hist.calls[id := Count(w.hist.calls, id) + 1]))
  }

  /** Desired outcome, code and review flag after the attempts ended. */
  function Verdict(reply: Engine.Reply, cancelled: bool, ended: bool): (State, Code) {
    if cancelled then (Cancelled, CancelledCode)
    else if ended then (Failed, TimeoutCode)
    else match reply.err
      case NoError => (Completed, NoCode)
      case Failure(code, _, _) => (Failed, code)
      case OtherError => (Failed, DecryptionFailed)
  }

  /** The last look at the deadline before cleanup begins. */
  function ToFinish(id: Id, desired: State, code: Code, review: bool, ended: bool): Pc {
    if ended then Finishing(id, Failed, TimeoutCode, review)
    else Finishing(id, desired, code, review)
  }

  function AfterSweep(id: Id, desired: State, review: bool, bad: bool): Pc {
    if review then CleanFinish(id, desired, bad, Listing) else Deciding(id, desired, bad, false)
  }

  function RecoveryStep(w: World, pc: Pc, o: Oracle): (World, Pc)
    requires pc.Down? || Recovering(pc)
  {
    match pc
    case Down => (w.(hist := w.hist.(startedAt := w.now)), RecoverJobs)
    case RecoverJobs =>
      if !o.ok then (w, Down)
      else
        var w' := w.(db := RecoverTx(w.db));
        (w', Reconcile(w'.db.jobs, WorkDirs, Listed(w'.fs, WorkDirs)))
    case Reconcile(known, kind, todo) =>
      if todo == {} then
        (w, match kind
            case WorkDirs => Reconcile(known, InputFiles, Listed(w.fs, InputFiles))
            case InputFiles => Reconcile(known, ArtifactFiles, Listed(w.fs, ArtifactFiles))
            case ArtifactFiles => RecoverTemp(known))
      else if o.id !in todo then (w, pc)
      else if Keep(known, kind, o.id) then (w, Reconcile(known, kind, todo - {o.id}))
      else if !o.ok then (if kind == WorkDirs then SpoilWork(w, o.id, o.alt) else w, Down)
      else (RemoveKind(w, kind, o.id), Reconcile(known, kind, todo - {o.id}))
    case RecoverTemp(known) =>
      if o.ok then (w, RecoverExpire(known, Snapshot)) else (w, Down)
    case RecoverExpire(known, e) =>
      (match ExpiryNext(w, e, o)
       case ExpiryMore(w', e') => (w', RecoverExpire(known, e'))
       case ExpiryDone(w') => (w', RecoverNext(known))
       case ExpiryFailed(w') => (w', Down))
    case RecoverNext(left) =>
      if left == map[] then (w, Ready)
      else if o.id !in left then (w, pc)
      else if Unresolved(left[o.id]) then (w, RecoverClean(left[o.id].id, left - {o.id}, Listing))
      else (w, RecoverNext(left - {o.id}))
    case RecoverClean(id, left, pass) =>
      (match PassNext(w, id, pass, o)
       case PassMore(w', pass') => (w', RecoverClean(id, left, pass'))
       case PassDone(w', confirmed) =>
         (w', if confirmed then RecoverResolve(id, left) else RecoverNext(left)))
    case RecoverResolve(id, left) =>
      var r := ResolveTx(w.db, id);
      if o.ok && r.Ok? then (w.(db := r.value), RecoverNext(left)) else (w, Down)
    case Ready => (w, Idle)
  }

  function SchedulerStep(w: World, pc: Pc, o: Oracle): (World, Pc)
    requires pc.Idle? || pc.SchedulerExpire? || pc.Claiming? || pc.Stopped?
  {
    match pc
    case Idle => (w, if o.late then Stopped else SchedulerExpire(Snapshot))
    case SchedulerExpire(e) =>
      (match ExpiryNext(w, e, o)
       case ExpiryMore(w', e') => (w', SchedulerExpire(e'))
       case ExpiryDone(w') => (w', Claiming)
       case ExpiryFailed(w') => (w', Stopped))
    case Claiming =>
      if !o.ok then (w, Stopped)
      else if !LeaseFree(w.db) || (forall i :: i in w.db.jobs ==> !Claimable(w.db, w.now, i)) then (w, Idle)
      else if !IsFirst(w.db, w.now, o.id) then (w, pc)
      else
        var w' := w.(db := ClaimTx(w.db, o.id));
        (w', if w.db.jobs[o.id].cancelRequested then Finishing(o.id, Cancelled, NoCode, false)
             else MakeWorkspace(o.id))
    case Stopped => (w, pc)
  }

  predicate Attempting(pc: Pc) {
    pc.MakeWorkspace? || pc.Calling? || pc.OnDevice? || pc.Returned? || pc.CleanRetry?
    || pc.Retrying? || pc.Backoff?
  }

  function AttemptStep(c: Config, w: World, pc: Pc, o: Oracle): (World, Pc)
    requires Attempting(pc)
  {
    match pc
    case MakeWorkspace(id) =>
      if !o.ok || id in w.fs.work then (w, Releasing(id, true))
      else (w.(fs := w.fs.(work := w.fs.work[id := None])), Calling(id, 1))
    case Calling(id, k) =>
      var w' := Called(w, id);
      if o.alt then (w', Returned(id, k, Engine.EarlyFailure(o.code)))
      else
        var r := StartOperationTx(w.db, id, o.op);
        if o.ok && r.Ok?
        then (w'.(db := r.value, hist := w'.hist.(dirty := w'.hist.dirty + {o.op})),
              OnDevice(id, k, o.op))
        else (w', Returned(id, k, Engine.EarlyFailure(StorageFailed)))
    case OnDevice(id, k, op) =>
      if o.alt then
        (if id in w.fs.work then w.(fs := w.fs.(work := w.fs.work[id := Some(o.bytes)])) else w, pc)
      else (w, Returned(id, k, Engine.Classify(o.call, o.late)))
    case Returned(id, k, reply) =>
      if !(reply.err.Failure? && reply.err.retryable) || k >= c.maxAttempts || o.late
      then (w, Settle(id, reply))
      else if reply.review || reply.err.review then (w, CleanRetry(id, k, reply, Listing))
      else (w, Retrying(id, k, reply))
    case CleanRetry(id, k, reply, pass) =>
      (match PassNext(w, id, pass, o)
       case PassMore(w', pass') => (w', CleanRetry(id, k, reply, pass'))
       case PassDone(w', confirmed) =>
         (w', if confirmed then Retrying(id, k, reply) else Settle(id, reply)))
    case Retrying(id, k, reply) =>
      if !o.ok || k == 0 then (w, Settle(id, reply.(err := Engine.OtherError)))
      else
        (w.(db := RetryTx(w.db, id),
            hist := w.hist.(waited := w.hist.waited[id :=
              Count(w.hist.waited, id) + c.Delay() * Pow2(k - 1)])),
         Backoff(id, k, reply))
    case Backoff(id, k, reply) =>
      // `alt`: the timer fired first although the context had ended by then
      if o.late then (w, Settle(id, if o.alt then reply else reply.(err := Engine.OtherError)))
      else (w, Calling(id, k + 1))
  }

  predicate Publication(pc: Pc) {
    pc.Settle? || pc.ToVerifying? || pc.Validating? || pc.Checking? || pc.Publishing? || pc.Recording?
  }

  function PublicationStep(c: Config, w: World, pc: Pc, o: Oracle): (World, Pc)
    requires Publication(pc)
  {
    match pc
    case Settle(id, reply) =>
      if !o.ok || id !in w.db.jobs then (w, Releasing(id, true))
      else
        var (desired, code) := Verdict(reply, w.db.jobs[id].cancelRequested, o.late);
        var review := Engine.NeedsReview(reply);
        if desired == Completed then (w, ToVerifying(id, review))
        else (w, ToFinish(id, desired, code, review, o.alt))
    case ToVerifying(id, review) =>
      var r := ChangeTx(w.db, id, Verifying);
      if o.ok && r.Ok? then (w.(db := r.value), Validating(id, review)) else (w, Releasing(id, true))
    case Validating(id, review) =>
      if o.ok && id in w.fs.work && w.fs.work[id].Some? && c.accepts(w.fs.work[id].value)
      then (w, Checking(id, review, w.fs.work[id].value))
      else (w, ToFinish(id, Failed, VerificationFailed, review, o.late))
    case Checking(id, review, content) =>
      if o.ok && id in w.fs.work && w.fs.work[id] == Some(content)
      then (w.(hist := w.hist.(passed := w.hist.passed[id := content])), Publishing(id, review))
      else (w, ToFinish(id, Failed, VerificationFailed, review, o.late))
    case Publishing(id, review) =>
      // `alt` on failure: the rename happened and only the directory sync failed
      if id in w.fs.work && w.fs.work[id].Some? && (o.ok || o.alt) then
        var content := w.fs.work[id].value;
        var w' := w.(fs := w.fs.(work := w.fs.work[id := None],
                                 artifacts := w.fs.artifacts[id := content]));
        if o.ok then (w', Recording(id, review, |content|, c.sha(content), w.now + c.retention))
        else (w', ToFinish(id, Failed, StorageFailed, review, o.late))
      else (w, ToFinish(id, Failed, StorageFailed, review, o.late))
    case Recording(id, review, size, hash, expiry) =>
      if !o.ok then (w, Releasing(id, true))
      else (w.(db := RecordTx(w.db, id, size, hash, expiry)),
            ToFinish(id, Completed, NoCode, review, o.late))
  }

  predicate Ending(pc: Pc) {
    pc.Finishing? || pc.Sweep? || pc.CleanFinish? || pc.Deciding? || pc.FinishExpire?
    || pc.Reading? || pc.Closing? || pc.Releasing?
  }

  function EndingStep(w: World, pc: Pc, o: Oracle): (World, Pc)
    requires Ending(pc)
  {
    match pc
    case Finishing(id, desired, code, review) =>
      var r := BeginCleanupTx(w.db, id, desired, code);
      if o.ok && r.Ok?
      then (w.(db := r.value), Sweep(id, Committed(w.db.jobs[id], desired), review, SweepWork, false))
      else (w, Releasing(id, true))
    case Sweep(id, desired, review, stage, bad) =>
      (match stage
       case SweepWork =>
         (if o.ok then RemoveWork(w, id) else SpoilWork(w, id, o.alt),
          Sweep(id, desired, review, SweepInput, bad || !o.ok))
       case SweepInput =>
         (if o.ok then RemoveInput(w, id) else w, Sweep(id, desired, review, SweepTemp, bad || !o.ok))
       case SweepTemp =>
         (w, if desired != Completed then Sweep(id, desired, review, SweepArtifact, bad || !o.ok)
             else AfterSweep(id, desired, review, bad || !o.ok))
       case SweepArtifact =>
         (if o.ok then RemoveArtifact(w, id) else w, AfterSweep(id, desired, review, bad || !o.ok)))
    case CleanFinish(id, desired, bad, pass) =>
      (match PassNext(w, id, pass, o)
       case PassMore(w', pass') => (w', CleanFinish(id, desired, bad, pass'))
       case PassDone(w', confirmed) => (w', Deciding(id, desired, bad, !confirmed)))
    case Deciding(id, desired, bad, review) =>
      if bad || review then
        if !o.ok then (w, Releasing(id, true))
        else (w.(db := QuarantineTx(w.db, id, if bad then ServerCleanupFailed else DeviceUnconfirmed, desired)),
              Releasing(id, false))
      else (w, FinishExpire(id, Snapshot))
    case FinishExpire(id, e) =>
      (match ExpiryNext(w, e, o)
       case ExpiryMore(w', e') => (w', FinishExpire(id, e'))
       case ExpiryDone(w') => (w', Reading(id))
       case ExpiryFailed(w') => (w', Releasing(id, true)))
    case Reading(id) =>
      if o.ok && id in w.db.jobs && w.db.jobs[id].pending.Some?
      then (w, Closing(id, w.db.jobs[id].pending.value))
      else (w, Releasing(id, true))
    case Closing(id, desired) =>
      var r := ChangeTx(w.db, id, desired);
      if o.ok && r.Ok? then (w.(db := r.value), Releasing(id, false)) else (w, Releasing(id, true))
    case Releasing(id, failed) =>
      if !o.ok then (w, Stopped)
      else (w.(db := ReleaseTx(w.db, id)), if failed then Stopped else Idle)
  }

  function WorkerStep(c: Config, w: World, pc: Pc, o: Oracle): (World, Pc) {
    if pc.Down? || Recovering(pc) then RecoveryStep(w, pc, o)
    else if Attempting(pc) then AttemptStep(c, w, pc, o)
    else if Publication(pc) then PublicationStep(c, w, pc, o)
    else if Ending(pc) then EndingStep(w, pc, o)
    else SchedulerStep(w, pc, o)
  }

  // ---- Operator confirmation, upload, and the whole system ----

  datatype ConfirmStage =
    | ConfirmWork | ConfirmInput | ConfirmTemp | ConfirmExpire(e: Expiry) | ConfirmResolve

  datatype Confirmation = Confirmation(id: Id, stage: ConfirmStage, bad: bool)

  datatype ConfirmStep = ConfirmMore(w: World, cf: Confirmation) | ConfirmEnd(w: World)

  function ConfirmNext(w: World, cf: Confirmation, o: Oracle): ConfirmStep {
    match cf.stage
    case ConfirmWork =>
      ConfirmMore(if o.ok then RemoveWork(w, cf.id) else SpoilWork(w, cf.id, o.alt),
                  Confirmation(cf.id, ConfirmInput, cf.bad || !o.ok))
    case ConfirmInput =>
      ConfirmMore(if o.ok then RemoveInput(w, cf.id) else w,
                  Confirmation(cf.id, ConfirmTemp, cf.bad || !o.ok))
    case ConfirmTemp =>
      if cf.bad || !o.ok then ConfirmEnd(w)
      else ConfirmMore(w, Confirmation(cf.id, ConfirmExpire(Snapshot), false))
    case ConfirmExpire(e) =>
      (match ExpiryNext(w, e, o)
       case ExpiryMore(w', e') => ConfirmMore(w', cf.(stage := ConfirmExpire(e')))
       case ExpiryDone(w') => ConfirmMore(w', cf.(stage := ConfirmResolve))
       case ExpiryFailed(w') => ConfirmEnd(w'))
    case ConfirmResolve =>
      var r := ResolveTx(w.db, cf.id);
      ConfirmEnd(if o.ok && r.Ok? then w.(db := r.value) else w)
  }

  /** The operator attests that everything the job did to the device is cleaned up. */
  function Attest(w: World, id: Id): World {
    w.(hist := w.hist.(dirty := w.hist.dirty - OpsOf(w, id)))
  }

  datatype Incoming = NoUpload | Receiving(id: Id)

  datatype Sys = Sys(w: World, pc: Pc, confirms: map<nat, Confirmation>, upload: Incoming)

  datatype Action =
    | Work(o: Oracle)
    | Crash
    | Tick(d: nat)
    | Submit(id: Id, source: Source)
    | Cancel(id: Id)
    | Confirm(thread: nat, id: Id)
    | ConfirmWith(thread: nat, o: Oracle)
    | OpenUpload(id: Id)
    | UploadWith(o: Oracle)

  /** `NewID` never repeats. */
  predicate Fresh(s: Sys, id: Id) {
    id !in s.w.db.jobs && id !in s.w.fs.inputs && s.upload != Receiving(id)
  }

  function UploadNext(c: Config, s: Sys, id: Id, o: Oracle): Sys {
    var r := EnqueueTx(s.w.db, id, Upload, c.queueLimit, s.w.now);
    if o.ok && r.Ok? then s.(w := s.w.(db := r.value), upload := NoUpload)
    // refused or interrupted: the deferred removal may itself fail
    else s.(w := if o.alt then RemoveInput(s.w, id) else s.w, upload := NoUpload)
  }

  function Next(c: Config, s: Sys, a: Action): Sys {
    match a
    case Work(o) =>
      var (w', pc') := WorkerStep(c, s.w, s.pc, o);
      s.(w := w', pc := pc')
    case Crash =>
      Sys(if Serving(s.pc) then s.w.(hist := s.w.hist.(boot := s.w.db.jobs)) else s.w,
          Down, map[], NoUpload)
    case Tick(d) => s.(w := s.w.(now := s.w.now + d))
    case Submit(id, source) =>
      var r := EnqueueTx(s.w.db, id, source, c.queueLimit, s.w.now);
      if Serving(s.pc) && source != Upload && Fresh(s, id) && r.Ok?
      then s.(w := s.w.(db := r.value)) else s
    case Cancel(id) =>
      var r := CancelTx(s.w.db, id);
      if Serving(s.pc) && r.Ok? then s.(w := s.w.(db := r.value)) else s
    case Confirm(thread, id) =>
      if Serving(s.pc) && thread !in s.confirms && id in s.w.db.jobs && Unresolved(s.w.db.jobs[id])
      then s.(w := Attest(s.w, id),
              confirms := s.confirms[thread := Confirmation(id, ConfirmWork, false)])
      else s
    case ConfirmWith(thread, o) =>
      if thread !in s.confirms then s
      else (match ConfirmNext(s.w, s.confirms[thread], o)
            case ConfirmMore(w', cf') => s.(w := w', confirms := s.confirms[thread := cf'])
            case ConfirmEnd(w') => s.(w := w', confirms := s.confirms - {thread}))
    case OpenUpload(id) =>
      if Serving(s.pc) && s.upload.NoUpload? && Fresh(s, id)
      then s.(w := s.w.(fs := s.w.fs.(inputs := s.w.fs.inputs + {id})), upload := Receiving(id))
      else s
    case UploadWith(o) =>
      if s.upload.Receiving? then UploadNext(c, s, s.upload.id, o) else s
  }

  const Init := Sys(
    World(EmptyDb, Files(map[], {}, map[]), 0, History({}, map[], map[], map[], map[], 0)),
    Down, map[], NoUpload)

  /** The state after any finite sequence of steps, crashes included. */
  function Exec(c: Config, s: Sys, acts: seq<Action>): Sys {
    if acts == [] then s
    else Next(c, Exec(c, s, acts[..|acts| - 1]), acts[|acts| - 1])
  }
}
