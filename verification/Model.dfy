/** The durable vocabulary of the service: job states, job rows, the singleton
    device row, and the contents of the database as one value. */
module Model {

  datatype Option<+T> = None | Some(value: T)

  /** Opaque identifiers. The program draws 128 random bits; only equality matters. */
  type Id = nat
  type OpId = nat
  type Time = int
  type Digest = nat
  newtype Byte = x: int | 0 <= x < 256
  type Bytes = seq<Byte>

  datatype State = Queued | Running | Verifying | Cleaning | Completed | Failed | Cancelled

  predicate Terminal(s: State) {
    s == Completed || s == Failed || s == Cancelled
  }

  /** The states in which a job may own, or may have owned, the device. */
  predicate Active(s: State) {
    s == Running || s == Verifying || s == Cleaning
  }

  predicate CanTransition(a: State, b: State) {
    match a
    case Queued => b == Running || b == Cleaning
    case Running => b == Verifying || b == Cleaning
    case Verifying => b == Cleaning
    case Cleaning => Terminal(b)
    case _ => false
  }

  datatype Source = Installed | AppStore | Upload

  /** The stable error codes that the protocol itself writes. */
  datatype Code =
    | NoCode | CancelledCode | TimeoutCode | VerificationFailed | StorageFailed | Interrupted
    | DecryptionFailed | DeviceLocked | DeviceUnavailable | AuthenticationFailed
    | AccountUnavailable | ArtifactExpiredCode

  /** Text of `cleanup_error` and of the device's `reason`; `Clear` is the empty string. */
  datatype Note = Clear | ServerCleanupFailed | DeviceUnconfirmed | InterruptedJob | ReviewRequired

  datatype Job = Job(
    id: Id,
    source: Source,
    state: State,
    attempts: nat,
    cancelRequested: bool,
    errorCode: Code,
    cleanupError: Note,
    pending: Option<State>,
    bytes: nat,
    sha256: Option<Digest>,
    createdAt: Time,
    availableAt: Time,
    expiresAt: Option<Time>,
    artifactExpired: bool)

  datatype Device = Device(owner: Option<Id>, quarantined: bool, reason: Note)

  /** `ops` maps every operation ever recorded to the job that owns it. */
  datatype Db = Db(jobs: map<Id, Job>, device: Device, ops: map<OpId, Id>)

  const EmptyDb := Db(map[], Device(None, false, Clear), map[])

  /** A job in review: it stays in `Cleaning` until its cleanup is confirmed. */
  predicate Unresolved(j: Job) {
    j.state == Cleaning && j.cleanupError != Clear
  }

  /** An active job that is not in review: it needs the lease. */
  predicate Live(j: Job) {
    Active(j.state) && !Unresolved(j)
  }

  /** The terminal state a job has reached or is committed to. */
  function Outcome(j: Job): Option<State> {
    if Terminal(j.state) then Some(j.state)
    else if j.state == Cleaning then j.pending
    else None
  }
}
