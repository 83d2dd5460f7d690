/** The job store: rows updated in place, one transaction a method. */
module Store {
  import opened Model
  import opened Transactions

  /** The allowed transitions, one by one. */
  const Edges: set<(State, State)> := {
    (Queued, Running), (Queued, Cleaning), (Running, Verifying), (Running, Cleaning), (Verifying, Cleaning),
    (Cleaning, Completed), (Cleaning, Failed), (Cleaning, Cancelled)
  }

  /** What startup makes of a row: nothing, if it is not active or already in review; a job in
      review with the outcome it was committed to, or else with the one its cancellation
      calls for. */
  predicate TakenUp(j: Job, j': Job) {
    if !(j.state == Running || j.state == Verifying || j.state == Cleaning)
       || (j.state == Cleaning && j.cleanupError != Clear)
    then j' == j
    else if j.state == Cleaning
            && (j.pending == Some(Completed) || j.pending == Some(Failed) || j.pending == Some(Cancelled))
    then j' == j.(cleanupError := InterruptedJob)
    else j' == j.(state := Cleaning, cleanupError := InterruptedJob, errorCode := Interrupted,
                  pending := Some(if j.cancelRequested then Cancelled else Failed))
  }

  lemma RecoveredTakenUp(j: Job)
    ensures TakenUp(j, RecoveredRow(j))
  {
  }

  class JobStore {
    var jobs: map<Id, Job>
    var device: Device
    var ops: map<OpId, Id>

    function Contents(): Db
      reads this
    {
      Db(jobs, device, ops)
    }

    /** Rows are stored under their primary key. */
    ghost predicate Valid()
      reads this
    {
      forall i :: i in jobs ==> jobs[i].id == i
    }

    constructor ()
      ensures Valid() && Contents() == EmptyDb
    {
      jobs, device, ops := map[], Device(None, false, Clear), map[];
    }

    /** Adopts what the other threads left. */
    method Restore(db: Db)
      requires forall i :: i in db.jobs ==> db.jobs[i].id == i
      modifies this
      ensures Valid() && Contents() == db
    {
      jobs, device, ops := db.jobs, db.device, db.ops;
    }

    /** Only this row differs from the rows before, and the device and operations do not. */
    twostate predicate OnlyRow(id: Id)
      reads this
    {
      device == old(device) && ops == old(ops) && jobs.Keys == old(jobs).Keys
      && forall i :: i in jobs && i != id ==> jobs[i] == old(jobs)[i]
    }

    /** What a transaction that may be refused does: all of it, or nothing. */
    ghost predicate Applied(before: Db, tx: Result<Db>, refused: Option<Error>)
      reads this
    {
      match tx
      case Ok(db) => Contents() == db && refused == None
      case Err(e) => Contents() == before && refused == Some(e)
    }

    method Enqueue(id: Id, source: Source, limit: nat, now: Time) returns (refused: Option<Error>)
      requires Valid()
      modifies this
      ensures Valid() && Applied(old(Contents()), EnqueueTx(old(Contents()), id, source, limit, now), refused)
      ensures refused == Some(QueueFull) <==> |set i | i in old(jobs) && !Terminal(old(jobs)[i].state)| >= limit
      ensures refused == None <==>
              |set i | i in old(jobs) && !Terminal(old(jobs)[i].state)| < limit && id !in old(jobs)
      ensures refused == None ==>
              && device == old(device) && ops == old(ops) && jobs.Keys == old(jobs).Keys + {id}
              && (forall i :: i in old(jobs) ==> jobs[i] == old(jobs)[i])
              && jobs[id].id == id && jobs[id].source == source && jobs[id].state == Queued
              && jobs[id].attempts == 0 && !jobs[id].cancelRequested && jobs[id].errorCode == NoCode
              && jobs[id].cleanupError == Clear && jobs[id].pending == None && jobs[id].bytes == 0
              && jobs[id].sha256 == None && jobs[id].createdAt == now && jobs[id].availableAt == now
              && jobs[id].expiresAt == None && !jobs[id].artifactExpired
    {
      var n := |set i | i in jobs && !Terminal(jobs[i].state)|;
      assert (set i | i in jobs && !Terminal(jobs[i].state)) == NonTerminal(jobs);
      if n >= limit {
        return Some(QueueFull);
      }
      if id in jobs {
        return Some(DuplicateId);
      }
      jobs := jobs[id := NewJob(id, source, now)];
      return None;
    }

    /** Takes the lease for the oldest claimable job, if the device is free and there is one. */
    method Claim(now: Time) returns (out: Option<Job>)
      requires Valid()
      modifies this
      ensures Valid()
      ensures out.None? ==> Contents() == old(Contents())
      ensures out.None? ==> !LeaseFree(Contents()) || forall i :: !Claimable(Contents(), now, i)
      ensures out.Some? ==> LeaseFree(old(Contents())) && IsFirst(old(Contents()), now, out.value.id)
      ensures out.Some? ==> Contents() == ClaimTx(old(Contents()), out.value.id)
      ensures out.Some? ==> out.value == jobs[out.value.id]
      ensures out.None? <==>
              old(device).quarantined || old(device).owner != None
              || forall i :: i in old(jobs) ==> old(jobs)[i].state != Queued || old(jobs)[i].availableAt > now
      ensures out.Some? ==>
              var i := out.value.id;
              && i in old(jobs) && old(jobs)[i].state == Queued && old(jobs)[i].availableAt <= now
              && (forall k :: k in old(jobs) && old(jobs)[k].state == Queued && old(jobs)[k].availableAt <= now ==>
                    old(jobs)[i].createdAt <= old(jobs)[k].createdAt)
              && jobs == old(jobs)[i := old(jobs)[i].(state := Running, attempts := old(jobs)[i].attempts + 1)]
              && device == old(device).(owner := Some(i)) && ops == old(ops)
    {
      if device.quarantined || device.owner != None {
        return None;
      }
      ghost var db := Contents();
      var todo := jobs.Keys;
      var best: Option<Id> := None;
      while todo != {}
        invariant Contents() == db && todo <= jobs.Keys
        invariant best.None? ==> forall k :: Claimable(db, now, k) ==> k in todo
        invariant best.Some? ==> Claimable(db, now, best.value)
        invariant best.Some? ==> forall k :: Claimable(db, now, k) ==>
                    k in todo || jobs[best.value].createdAt <= jobs[k].createdAt
        decreases todo
      {
        var i :| i in todo;
        todo := todo - {i};
        if jobs[i].state == Queued && jobs[i].availableAt <= now
           && (best.None? || jobs[i].createdAt < jobs[best.value].createdAt)
        {
          best := Some(i);
        }
      }
      if best.None? {
        assert forall i :: i in jobs ==> !Claimable(db, now, i);
        return None;
      }
      var i := best.value;
      jobs := jobs[i := jobs[i].(state := Running, attempts := jobs[i].attempts + 1)];
      device := device.(owner := Some(i));
      return Some(jobs[i]);
    }

    method Change(id: Id, to: State) returns (refused: Option<Error>)
      requires Valid()
      modifies this
      ensures Valid() && Applied(old(Contents()), ChangeTx(old(Contents()), id, to), refused)
      ensures refused == Some(NotFound) <==> id !in old(jobs)
      ensures refused == None <==> id in old(jobs) && (old(jobs)[id].state, to) in Edges
      ensures refused == None ==> OnlyRow(id) && jobs[id] == old(jobs)[id].(state := to)
    {
      if id !in jobs {
        return Some(NotFound);
      }
      if !CanTransition(jobs[id].state, to) {
        return Some(Conflict);
      }
      jobs := jobs[id := jobs[id].(state := to)];
      return None;
    }

    method Cancel(id: Id) returns (refused: Option<Error>)
      requires Valid()
      modifies this
      ensures Valid() && Applied(old(Contents()), CancelTx(old(Contents()), id), refused)
      ensures refused == Some(NotFound) <==> id !in old(jobs)
      ensures refused == None <==>
              id in old(jobs)
              && (old(jobs)[id].state == Queued || old(jobs)[id].state == Running || old(jobs)[id].state == Verifying)
      ensures refused == None ==> OnlyRow(id) && jobs[id] == old(jobs)[id].(cancelRequested := true)
    {
      if id !in jobs {
        return Some(NotFound);
      }
      if Terminal(jobs[id].state) || jobs[id].state == Cleaning {
        return Some(Conflict);
      }
      jobs := jobs[id := jobs[id].(cancelRequested := true)];
      return None;
    }

    method Release(id: Id)
      requires Valid()
      modifies this
      ensures Valid() && Contents() == ReleaseTx(old(Contents()), id)
      ensures jobs == old(jobs) && ops == old(ops)
      ensures device == if old(device).owner == Some(id) then old(device).(owner := None) else old(device)
    {
      if device.owner == Some(id) {
        device := device.(owner := None);
      }
    }

    method Quarantine(id: Id, reason: Note, desired: State)
      requires Valid()
      modifies this
      ensures Valid() && Contents() == QuarantineTx(old(Contents()), id, reason, desired)
      ensures device.quarantined && device.owner == None && device.reason == reason && ops == old(ops)
      ensures jobs == if id in old(jobs)
                      then old(jobs)[id := old(jobs)[id].(cleanupError := reason, pending := Some(desired))]
                      else old(jobs)
    {
      if id in jobs {
        jobs := jobs[id := jobs[id].(cleanupError := reason, pending := Some(desired))];
      }
      device := Device(None, true, reason);
    }

    /** The terminal transition of a job in review; the last review clears the device. */
    method Resolve(id: Id) returns (refused: Option<Error>)
      requires Valid()
      modifies this
      ensures Valid() && Applied(old(Contents()), ResolveTx(old(Contents()), id), refused)
      ensures refused == Some(NotFound) <==> id !in old(jobs)
      ensures refused == None <==>
              id in old(jobs) && old(jobs)[id].state == Cleaning && old(jobs)[id].cleanupError != Clear
              && (old(jobs)[id].pending == Some(Completed) || old(jobs)[id].pending == Some(Failed)
                  || old(jobs)[id].pending == Some(Cancelled))
      ensures refused == None ==>
              && jobs == old(jobs)[id := old(jobs)[id].(
                   state := old(jobs)[id].pending.value, cleanupError := Clear, pending := None)]
              && ops == old(ops)
      ensures refused == None ==>
              device == if exists i :: i in jobs && jobs[i].state == Cleaning && jobs[i].cleanupError != Clear
                        then old(device) else Device(None, false, Clear)
    {
      if id !in jobs {
        return Some(NotFound);
      }
      var j := jobs[id];
      if j.state != Cleaning || j.cleanupError == Clear || j.pending.None? || !Terminal(j.pending.value) {
        return Some(Conflict);
      }
      jobs := jobs[id := j.(cleanupError := Clear, state := j.pending.value, pending := None)];
      var n := |set i | i in jobs && jobs[i].state == Cleaning && jobs[i].cleanupError != Clear|;
      assert (set i | i in jobs && jobs[i].state == Cleaning && jobs[i].cleanupError != Clear) == UnresolvedIds(jobs);
      assert forall i :: i in UnresolvedIds(jobs) <==>
                         i in jobs && jobs[i].state == Cleaning && jobs[i].cleanupError != Clear;
      if n > 0 {
        ghost var i :| i in UnresolvedIds(jobs);
        return None;
      }
      device := Device(None, false, Clear);
      return None;
    }

    method Retry(id: Id)
      requires Valid()
      modifies this
      ensures Valid() && Contents() == RetryTx(old(Contents()), id)
      ensures device == old(device) && ops == old(ops)
      ensures jobs == if id in old(jobs) && old(jobs)[id].state == Running
                      then old(jobs)[id := old(jobs)[id].(attempts := old(jobs)[id].attempts + 1)]
                      else old(jobs)
    {
      if id in jobs && jobs[id].state == Running {
        jobs := jobs[id := jobs[id].(attempts := jobs[id].attempts + 1)];
      }
    }

    /** Rewrites every active row that is not in review, then the device. */
    method Recover()
      requires Valid()
      modifies this
      ensures Valid() && Contents() == RecoverTx(old(Contents()))
      ensures jobs.Keys == old(jobs).Keys && ops == old(ops)
      ensures forall i :: i in old(jobs) ==> TakenUp(old(jobs)[i], jobs[i])
      ensures device == if exists i :: i in old(jobs) && Active(old(jobs)[i].state)
                        then Device(None, true, ReviewRequired) else old(device).(owner := None)
    {
      ghost var db := Contents();
      var active := ActiveIds(jobs);
      var todo := active;
      while todo != {}
        invariant device == db.device && ops == db.ops && todo <= active && jobs.Keys == db.jobs.Keys
        invariant forall i :: i in jobs ==>
                    jobs[i] == if i in todo then db.jobs[i] else RecoveredRow(db.jobs[i])
        decreases todo
      {
        var i :| i in todo;
        todo := todo - {i};
        var j := jobs[i];
        if j.state == Cleaning && j.cleanupError != Clear {
          continue;
        }
        var fields := j.(state := Cleaning, cleanupError := InterruptedJob);
        if j.state != Cleaning || j.pending.None? || !Terminal(j.pending.value) {
          var desired := Failed;
          if j.cancelRequested {
            desired := Cancelled;
          }
          fields := fields.(pending := Some(desired), errorCode := Interrupted);
        }
        jobs := jobs[i := fields];
      }
      assert jobs == RecoverTx(db).jobs;
      forall i | i in db.jobs ensures TakenUp(db.jobs[i], jobs[i]) {
        RecoveredTakenUp(db.jobs[i]);
      }
      hide TakenUp, RecoveredRow;
      if |active| > 0 {
        device := Device(None, true, ReviewRequired);
      } else {
        device := device.(owner := None);
      }
    }

    /** Cancellation accepted before this transaction wins; the committed outcome is returned. */
    method BeginCleanup(id: Id, desired: State, code: Code) returns (committed: State, refused: Option<Error>)
      requires Valid()
      modifies this
      ensures Valid() && Applied(old(Contents()), BeginCleanupTx(old(Contents()), id, desired, code), refused)
      ensures refused.None? ==> committed == Committed(old(jobs)[id], desired)
      ensures refused == Some(NotFound) <==> id !in old(jobs)
      ensures refused == None <==>
              id in old(jobs)
              && (old(jobs)[id].state == Queued || old(jobs)[id].state == Running || old(jobs)[id].state == Verifying)
      ensures refused == None ==>
              var won := old(jobs)[id].cancelRequested;
              && OnlyRow(id) && committed == (if won then Cancelled else desired)
              && jobs[id] == old(jobs)[id].(state := Cleaning, pending := Some(if won then Cancelled else desired),
                                            errorCode := if won then CancelledCode else code)
    {
      committed := desired;
      if id !in jobs {
        return committed, Some(NotFound);
      }
      var j := jobs[id];
      if !CanTransition(j.state, Cleaning) {
        return committed, Some(Conflict);
      }
      var written := code;
      if j.cancelRequested {
        committed, written := Cancelled, CancelledCode;
      }
      jobs := jobs[id := j.(state := Cleaning, pending := Some(committed), errorCode := written)];
      return committed, None;
    }

    method StartOperation(id: Id, op: OpId) returns (refused: Option<Error>)
      requires Valid()
      modifies this
      ensures Valid() && Applied(old(Contents()), StartOperationTx(old(Contents()), id, op), refused)
      ensures refused == None <==>
              id in old(jobs) && old(jobs)[id].state == Running && old(device).owner == Some(id)
              && !old(device).quarantined && op !in old(ops)
      ensures refused == None ==> jobs == old(jobs) && device == old(device) && ops == old(ops)[op := id]
    {
      if id !in jobs {
        return Some(NotFound);
      }
      if jobs[id].state != Running || device.owner != Some(id) || device.quarantined {
        return Some(Conflict);
      }
      if op in ops {
        return Some(DuplicateId);
      }
      ops := ops[op := id];
      return None;
    }

    /** The two metadata writes of the protocol. */
    method Record(id: Id, size: nat, hash: Digest, expiry: Time)
      requires Valid()
      modifies this
      ensures Valid() && Contents() == RecordTx(old(Contents()), id, size, hash, expiry)
      ensures device == old(device) && ops == old(ops)
      ensures id !in old(jobs) ==> jobs == old(jobs)
      ensures id in old(jobs) ==>
              jobs == old(jobs)[id := old(jobs)[id].(bytes := size, sha256 := Some(hash), expiresAt := Some(expiry))]
    {
      if id in jobs {
        jobs := jobs[id := jobs[id].(bytes := size, sha256 := Some(hash), expiresAt := Some(expiry))];
      }
    }

    method MarkExpired(snap: Job)
      requires Valid()
      modifies this
      ensures Valid() && Contents() == ExpiredTx(old(Contents()), snap)
      ensures device == old(device) && ops == old(ops)
      ensures snap.id !in old(jobs) ==> jobs == old(jobs)
      ensures snap.id in old(jobs) ==>
              jobs == old(jobs)[snap.id :=
                if snap.state == Cleaning
                then old(jobs)[snap.id].(artifactExpired := true, pending := Some(Failed),
                                         errorCode := ArtifactExpiredCode)
                else old(jobs)[snap.id].(artifactExpired := true)]
    {
      if snap.id in jobs {
        var j := jobs[snap.id].(artifactExpired := true);
        if snap.state == Cleaning {
          j := j.(pending := Some(Failed), errorCode := ArtifactExpiredCode);
        }
        jobs := jobs[snap.id := j];
      }
    }
  }
}
