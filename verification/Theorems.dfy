/** The promises of the service, for every run: any finite sequence of steps from
    the empty service, crashes anywhere. `j`, `k` and `m` are moments of the run. */
module Theorems {
  import opened Model
  import opened Transactions
  import opened Protocol
  import opened Invariant
  import opened Runs
  import opened Traces
  import opened Outstanding
  import opened Provenance

  function Db(t: Trace, k: nat): Model.Db
    requires At(t, k)
  {
    t.states[k].w.db
  }

  /** The `k`th step takes job `i` out of the queue. */
  predicate Claims(t: Trace, k: nat, i: Id)
    requires At(t, k + 1)
  {
    i in Db(t, k).jobs && Db(t, k).jobs[i].state == Queued
    && i in Db(t, k + 1).jobs && Db(t, k + 1).jobs[i].state != Queued
  }

  /** The `k`th step records operation `op`. */
  predicate Starts(t: Trace, k: nat, op: OpId)
    requires At(t, k + 1)
  {
    op !in Db(t, k).ops && op in Db(t, k + 1).ops
  }

  // ---- The device ----

  /** A device is handed over only when nothing is outstanding on it and nobody else is
      running, verifying or in cleanup, and then to the first claimable job. */
  lemma CleanHandoff(c: Config, t: Trace, k: nat, i: Id)
    requires IsRun(c, t) && At(t, k + 1) && Claims(t, k, i)
    ensures t.states[k].w.hist.dirty == {}
    ensures forall j :: j in Db(t, k).jobs ==> !Active(Db(t, k).jobs[j].state)
    ensures LeaseFree(Db(t, k)) && IsFirst(Db(t, k), t.states[k].w.now, i)
    ensures Db(t, k + 1).jobs[i].state == Running
  {
    hide Inv, Next, IsRun;
    TraceStep(c, t, k);
    assert RowEvolves(t.states[k].w, t.states[k + 1].w, i);
  }

  /** Hence every operation ever recorded, for whatever job, was confirmed by a report
      or attested after it had been recorded. */
  lemma ConfirmedBeforeHandoff(c: Config, t: Trace, k: nat, i: Id, op: OpId) returns (r: nat, a: nat)
    requires IsRun(c, t) && At(t, k + 1) && Claims(t, k, i) && op in Db(t, k).ops
    ensures r < a < k && Starts(t, r, op) && ConfirmedAt(t, a, op)
  {
    hide IsRun;
    CleanHandoff(c, t, k, i);
    r, a := ConfirmedSince(c, t, k, op);
  }

  /** An operation starts only for the running owner of a device with nothing outstanding. */
  lemma CleanStart(c: Config, t: Trace, k: nat, op: OpId)
    requires IsRun(c, t) && At(t, k + 1) && Starts(t, k, op)
    ensures t.states[k].w.hist.dirty == {} && Db(t, k + 1).ops[op] in Db(t, k).jobs
    ensures Db(t, k).jobs[Db(t, k + 1).ops[op]].state == Running
  {
    hide Inv, Next, IsRun;
    TraceStep(c, t, k);
  }

  /** Retry safety: before an operation starts, each earlier one, of this attempt's job
      or of any other, was confirmed or attested after it had been recorded. */
  lemma ConfirmedBeforeStart(c: Config, t: Trace, k: nat, next: OpId, op: OpId) returns (r: nat, a: nat)
    requires IsRun(c, t) && At(t, k + 1) && Starts(t, k, next) && op in Db(t, k).ops
    ensures r < a < k && Starts(t, r, op) && ConfirmedAt(t, a, op)
  {
    hide IsRun;
    CleanStart(c, t, k, next);
    r, a := ConfirmedSince(c, t, k, op);
  }

  /** When the worker ends a job without device review, nothing the job did is outstanding,
      and a finished job never has anything outstanding. */
  lemma NoReviewWhenDirty(c: Config, t: Trace, k: nat)
    requires IsRun(c, t) && At(t, k)
    ensures var s := t.states[k];
      && ((s.pc.Finishing? || s.pc.Deciding?) && !s.pc.review ==> CleanOps(s.w, s.pc.id))
      && (s.pc.FinishExpire? || s.pc.Reading? || s.pc.Closing? ==> CleanOps(s.w, s.pc.id))
      && (s.pc.Calling? || s.pc.Retrying? || s.pc.Backoff? ==> CleanOps(s.w, s.pc.id))
      && (forall i :: i in s.w.db.jobs && Terminal(s.w.db.jobs[i].state) ==> CleanOps(s.w, i))
  {
    TraceInv(c, t, k);
    hide IsRun, PcInv, RowsOk, FilesOk, DeviceOk;
    PcClean(c, t.states[k].w, t.states[k].pc);
  }

  lemma PcClean(c: Config, w: World, pc: Pc)
    requires PcInv(c, w, pc)
    ensures (pc.Finishing? || pc.Deciding?) && !pc.review ==> CleanOps(w, pc.id)
    ensures pc.FinishExpire? || pc.Reading? || pc.Closing? ==> CleanOps(w, pc.id)
    ensures pc.Calling? || pc.Retrying? || pc.Backoff? ==> CleanOps(w, pc.id)
  {
    hide RunOk, DesiredOk, ScanOk, PassOk, CleanOps;
  }

  /** Between two jobs nobody owns or needs the device. During a job it alone does, on a
      device that is not quarantined. `Stopped`, a failed release and a dead process are
      the only places where a job may need the device without owning it. */
  ghost predicate LeaseHeld(s: Sys) {
    && (s.pc.Idle? || s.pc.SchedulerExpire? || s.pc.Claiming? ==> NoLive(s.w) && s.w.db.device.owner == None)
    && (Attempting(s.pc) || Publication(s.pc) || (Ending(s.pc) && !s.pc.Releasing?) ==>
          s.pc.id in s.w.db.jobs && RunOk(s.w, s.pc.id, s.w.db.jobs[s.pc.id].state)
          && Live(s.w.db.jobs[s.pc.id]))
  }

  lemma LeaseState(c: Config, s: Sys)
    requires Inv(c, s)
    ensures LeaseHeld(s)
  {
    hide WorldInv, CleanOps, DesiredOk, ScanOk, PassOk, Swept, Unpublished;
    if Attempting(s.pc) {
    } else if Publication(s.pc) {
    } else if Ending(s.pc) {
    }
  }

  lemma LeaseAndQuarantine(c: Config, t: Trace, k: nat)
    requires IsRun(c, t) && At(t, k)
    ensures LeaseHeld(t.states[k])
    ensures Db(t, k).device.quarantined <==> exists i :: i in Db(t, k).jobs && Unresolved(Db(t, k).jobs[i])
    ensures Db(t, k).device.quarantined ==> Db(t, k).device.owner == None
  {
    TraceInv(c, t, k);
    LeaseState(c, t.states[k]);
    hide IsRun, PcInv, LeaseHeld;
  }

  /** A lease ends only by the worker's own hand, at the end of its job, or by startup
      recovery. In particular no resolution, automatic or by an operator, clears one. */
  lemma LeaseEnds(c: Config, t: Trace, k: nat)
    requires IsRun(c, t) && At(t, k + 1)
    requires Db(t, k).device.owner.Some? && Db(t, k + 1).device.owner != Db(t, k).device.owner
    ensures t.acts[k].Work?
    ensures var pc := t.states[k].pc;
      pc.RecoverJobs? || ((pc.Deciding? || pc.Releasing?) && Db(t, k).device.owner == Some(pc.id))
  {
    TraceStep(c, t, k);
    LeaseAndQuarantine(c, t, k);
    hide IsRun, Inv, Evolves;
    OwnerKept(c, t.states[k], t.acts[k]);
  }

  lemma OwnerKept(c: Config, s: Sys, a: Action)
    requires s.w.db.device.owner.Some? && !s.w.db.device.quarantined && LeaseHeld(s)
    requires forall i :: i in s.w.db.jobs ==> !Unresolved(s.w.db.jobs[i])
    ensures Next(c, s, a).w.db.device.owner != s.w.db.device.owner ==>
              a.Work? && (s.pc.RecoverJobs?
                          || ((s.pc.Deciding? || s.pc.Releasing?) && s.w.db.device.owner == Some(s.pc.id)))
  {
    match a
    case Work(o) =>
      hide WorkerStep;
      WorkerLease(c, s.w, s.pc, o);
    case ConfirmWith(thread, o) =>
      hide WorkerStep;
    case _ =>
      hide WorkerStep, ConfirmNext;
  }

  lemma WorkerLease(c: Config, w: World, pc: Pc, o: Oracle)
    requires w.db.device.owner.Some?
    requires forall i :: i in w.db.jobs ==> !Unresolved(w.db.jobs[i])
    requires Ending(pc) && !pc.Releasing? ==> w.db.device.owner == Some(pc.id)
    ensures WorkerStep(c, w, pc, o).0.db.device.owner != w.db.device.owner ==>
              pc.RecoverJobs? || ((pc.Deciding? || pc.Releasing?) && w.db.device.owner == Some(pc.id))
  {
    hide RecoveryStep, AttemptStep, PublicationStep, EndingStep, SchedulerStep;
    if pc.Down? || Recovering(pc) {
      RecoveryLease(w, pc, o);
    } else if Attempting(pc) {
      AttemptLease(c, w, pc, o);
    } else if Publication(pc) {
      PublicationLease(c, w, pc, o);
    } else if Ending(pc) {
      EndingLease(w, pc, o);
    } else {
      SchedulerLease(w, pc, o);
    }
  }

  lemma RecoveryLease(w: World, pc: Pc, o: Oracle)
    requires (pc.Down? || Recovering(pc)) && forall i :: i in w.db.jobs ==> !Unresolved(w.db.jobs[i])
    ensures !pc.RecoverJobs? ==> RecoveryStep(w, pc, o).0.db.device == w.db.device
  {
  }

  lemma AttemptLease(c: Config, w: World, pc: Pc, o: Oracle)
    requires Attempting(pc)
    ensures AttemptStep(c, w, pc, o).0.db.device == w.db.device
  {
  }

  lemma PublicationLease(c: Config, w: World, pc: Pc, o: Oracle)
    requires Publication(pc)
    ensures PublicationStep(c, w, pc, o).0.db.device == w.db.device
  {
  }

  lemma EndingLease(w: World, pc: Pc, o: Oracle)
    requires Ending(pc) && (!pc.Releasing? ==> w.db.device.owner == Some(pc.id))
    ensures EndingStep(w, pc, o).0.db.device.owner != w.db.device.owner ==>
              (pc.Deciding? || pc.Releasing?) && w.db.device.owner == Some(pc.id)
  {
  }

  lemma SchedulerLease(w: World, pc: Pc, o: Oracle)
    requires (pc.Idle? || pc.SchedulerExpire? || pc.Claiming? || pc.Stopped?) && w.db.device.owner.Some?
    ensures SchedulerStep(w, pc, o).0.db.device == w.db.device
  {
  }

  // ---- Artifacts ----

  /** The check of the download handler on the row it read. */
  predicate DownloadGuard(j: Job, now: Time) {
    j.state == Completed && !j.artifactExpired && j.expiresAt.Some? && now <= j.expiresAt.value
  }

  /** The parts of the invariant that concern one job. */
  lemma JobState(c: Config, t: Trace, k: nat, i: Id)
    requires IsRun(c, t) && At(t, k)
    ensures FileOk(c, t.states[k].w, i)
    ensures i in Db(t, k).jobs ==> RowOk(Db(t, k).jobs[i], i, t.states[k].w.now)
    ensures i in Db(t, k).jobs && Terminal(Db(t, k).jobs[i].state) ==> CleanOps(t.states[k].w, i)
  {
    TraceInv(c, t, k);
    hide IsRun, PcInv;
  }

  /** The handler reads the row at one moment, checks it, and opens the file at a later
      one. Whatever it opens is exactly what passed archive validation at one moment and
      independent verification at the next of that job's run, after a library call with
      a verified result; it has the size and digest of the row that was read; the job
      was never cancelled and its operations are all confirmed or attested. */
  lemma ServedArtifact(c: Config, t: Trace, k: nat, m: nat, i: Id, now: Time)
    returns (called: nat, settled: nat, validated: nat, verified: nat)
    requires IsRun(c, t) && k <= m && At(t, m)
    requires i in Db(t, k).jobs && DownloadGuard(Db(t, k).jobs[i], now)
    requires i in t.states[m].w.fs.artifacts
    ensures var row, w := Db(t, k).jobs[i], t.states[m].w; var content := w.fs.artifacts[i];
      && verified < m && WasVerified(c, t, i, content, called, settled, validated, verified)
      && |content| == row.bytes && row.sha256 == Some(c.sha(content))
      && i in w.db.jobs && w.db.jobs[i].state == Completed && !w.db.jobs[i].cancelRequested
      && CleanOps(w, i)
  {
    hide IsRun;
    JobState(c, t, m, i);
    TraceLater(c, t, k, m);
    called, settled, validated, verified := PassedWhen(c, t, m, i);
    hide WasVerified;
    assert RowLater(Db(t, k).jobs[i], Db(t, m).jobs[i]);
  }

  /** A job is completed, or committed to completion, only with content that went through
      the four moments. Its row records the size and digest of that very content, even
      when the artifact is gone; while it is stored, the artifact is that content. */
  lemma CompletedPath(c: Config, t: Trace, k: nat, i: Id)
    returns (content: Bytes, called: nat, settled: nat, validated: nat, verified: nat)
    requires IsRun(c, t) && At(t, k)
    requires i in Db(t, k).jobs && Outcome(Db(t, k).jobs[i]) == Some(Completed)
    ensures verified < k && WasVerified(c, t, i, content, called, settled, validated, verified)
    ensures Db(t, k).jobs[i].bytes == |content| && Db(t, k).jobs[i].sha256 == Some(c.sha(content))
    ensures i in t.states[k].w.fs.artifacts ==> t.states[k].w.fs.artifacts[i] == content
  {
    hide IsRun;
    JobState(c, t, k, i);
    content := t.states[k].w.hist.passed[i];
    called, settled, validated, verified := PassedWhen(c, t, k, i);
    hide WasVerified;
  }

  /** A completed job can be downloaded until it expires: nothing removes it early. */
  lemma ArtifactAvailable(c: Config, t: Trace, k: nat, i: Id)
    requires IsRun(c, t) && At(t, k)
    requires i in Db(t, k).jobs && Db(t, k).jobs[i].state == Completed && !Db(t, k).jobs[i].artifactExpired
    ensures var w := t.states[k].w;
      w.db.jobs[i].expiresAt.Some?
      && (w.now < w.db.jobs[i].expiresAt.value ==> i in w.fs.artifacts)
  {
    JobState(c, t, k, i);
    hide IsRun;
  }

  /** When the check of the download handler passes, the artifact is there, except at
      the very instant of expiry: `Expire` removes at that instant, the handler
      refuses only after it. */
  lemma DownloadBoundary(c: Config, t: Trace, k: nat, i: Id)
    requires IsRun(c, t) && At(t, k)
    requires i in Db(t, k).jobs && DownloadGuard(Db(t, k).jobs[i], t.states[k].w.now)
    ensures i in t.states[k].w.fs.artifacts || Db(t, k).jobs[i].expiresAt == Some(t.states[k].w.now)
  {
    ArtifactAvailable(c, t, k, i);
    hide IsRun;
  }

  /** Until cleanup begins an uploaded job has its input, and a finished job has
      neither a workspace nor an input left. */
  lemma JobFiles(c: Config, t: Trace, k: nat, i: Id)
    requires IsRun(c, t) && At(t, k) && i in Db(t, k).jobs
    ensures var fs, j := t.states[k].w.fs, Db(t, k).jobs[i];
      && (j.source == Upload && NeedsInput(j.state) ==> i in fs.inputs)
      && (Terminal(j.state) ==> i !in fs.work && i !in fs.inputs)
      && (j.state == Queued ==> i !in fs.work && i !in fs.artifacts)
  {
    JobState(c, t, k, i);
    hide IsRun;
  }

  // ---- Cancellation ----

  /** Once a cancellation is accepted the job is never completed. Whatever terminal
      state it reaches is `Cancelled`, or `Failed` because its artifact expired in cleanup. */
  lemma CancellationWins(c: Config, t: Trace, k: nat, m: nat, i: Id)
    requires IsRun(c, t) && k < m && At(t, m)
    requires t.acts[k] == Cancel(i) && Serving(t.states[k].pc) && CancelTx(Db(t, k), i).Ok?
    ensures i in Db(t, m).jobs && Db(t, m).jobs[i].cancelRequested
    ensures var j := Db(t, m).jobs[i];
      Outcome(j).Some? ==> Outcome(j).value == Cancelled || (Outcome(j).value == Failed && j.artifactExpired)
  {
    TraceStep(c, t, k);
    assert Db(t, k + 1).jobs[i].cancelRequested;
    hide IsRun, Inv, Next, Evolves;
    TraceLater(c, t, k + 1, m);
    assert RowLater(Db(t, k + 1).jobs[i], Db(t, m).jobs[i]);
    JobState(c, t, m, i);
  }

  /** Nothing was ever published for the job, and nothing ever will be. */
  ghost predicate NeverPublished(s: Sys, i: Id) {
    i in s.w.db.jobs && s.w.db.jobs[i].cancelRequested && s.w.db.jobs[i].expiresAt.None?
    && i !in s.w.fs.artifacts && !((Attempting(s.pc) || Publication(s.pc)) && s.pc.id == i)
  }

  lemma UnpublishedScheduler(s: Sys, o: Oracle, i: Id)
    requires (s.pc.Idle? || s.pc.SchedulerExpire? || s.pc.Claiming? || s.pc.Stopped?) && NeverPublished(s, i)
    ensures var (w', pc') := SchedulerStep(s.w, s.pc, o); NeverPublished(s.(w := w', pc := pc'), i)
  {
  }

  lemma UnpublishedJob(c: Config, s: Sys, o: Oracle, i: Id)
    requires Attempting(s.pc) || Publication(s.pc)
    requires NeverPublished(s, i)
    ensures var (w', pc') := WorkerStep(c, s.w, s.pc, o);
      NeverPublished(s.(w := w', pc := pc'), i)
  {
  }

  lemma UnpublishedEnding(s: Sys, o: Oracle, i: Id)
    requires Ending(s.pc) && NeverPublished(s, i)
    ensures var (w', pc') := EndingStep(s.w, s.pc, o); NeverPublished(s.(w := w', pc := pc'), i)
  {
  }

  lemma UnpublishedRecovery(s: Sys, o: Oracle, i: Id)
    requires (s.pc.Down? || Recovering(s.pc)) && NeverPublished(s, i)
    ensures var (w', pc') := RecoveryStep(s.w, s.pc, o); NeverPublished(s.(w := w', pc := pc'), i)
  {
  }

  lemma UnpublishedConfirm(w: World, cf: Confirmation, o: Oracle, i: Id)
    requires i in w.db.jobs && w.db.jobs[i].cancelRequested && w.db.jobs[i].expiresAt.None? && i !in w.fs.artifacts
    ensures var w' := ConfirmNext(w, cf, o).w;
      i in w'.db.jobs && w'.db.jobs[i].cancelRequested && w'.db.jobs[i].expiresAt.None? && i !in w'.fs.artifacts
  {
  }

  lemma UnpublishedStep(c: Config, s: Sys, a: Action, i: Id)
    requires NeverPublished(s, i)
    ensures NeverPublished(Next(c, s, a), i)
  {
    match a
    case Work(o) =>
      hide RecoveryStep, AttemptStep, PublicationStep, EndingStep, SchedulerStep, NeverPublished;
      if s.pc.Down? || Recovering(s.pc) {
        UnpublishedRecovery(s, o, i);
      } else if Attempting(s.pc) || Publication(s.pc) {
        UnpublishedJob(c, s, o, i);
      } else if Ending(s.pc) {
        UnpublishedEnding(s, o, i);
      } else {
        UnpublishedScheduler(s, o, i);
      }
    case ConfirmWith(thread, o) =>
      hide WorkerStep, ConfirmNext;
      if thread in s.confirms {
        UnpublishedConfirm(s.w, s.confirms[thread], o, i);
      }
    case _ =>
      hide WorkerStep, ConfirmNext;
  }

  lemma {:induction false} UnpublishedRun(c: Config, t: Trace, k: nat, m: nat, i: Id)
    requires IsRun(c, t) && k <= m && At(t, m) && NeverPublished(t.states[k], i)
    ensures NeverPublished(t.states[m], i)
    decreases m
  {
    hide IsRun, Inv, Next, Evolves, NeverPublished;
    if k < m {
      UnpublishedRun(c, t, k, m - 1, i);
      TraceStep(c, t, m - 1);
      UnpublishedStep(c, t.states[m - 1], t.acts[m - 1], i);
    }
  }

  lemma CancelQueued(c: Config, s: Sys, i: Id)
    requires Inv(c, s) && Serving(s.pc) && i in s.w.db.jobs && s.w.db.jobs[i].state == Queued
    requires RowOk(s.w.db.jobs[i], i, s.w.now) && FileOk(c, s.w, i)
    ensures NeverPublished(Next(c, s, Cancel(i)), i)
  {
    hide Inv, WorkerStep, ConfirmNext;
    QueuedIdle(c, s, i);
  }

  lemma QueuedIdle(c: Config, s: Sys, i: Id)
    requires Inv(c, s) && i in s.w.db.jobs && s.w.db.jobs[i].state == Queued
    ensures (Attempting(s.pc) || Publication(s.pc)) ==> s.pc.id != i
  {
    LeaseState(c, s);
    hide Inv;
  }

  /** A cancellation accepted while the job is still queued always ends in `Cancelled`:
      nothing is ever published for it that could expire. */
  lemma CancelledInQueue(c: Config, t: Trace, k: nat, m: nat, i: Id)
    requires IsRun(c, t) && k < m && At(t, m)
    requires t.acts[k] == Cancel(i) && Serving(t.states[k].pc)
    requires i in Db(t, k).jobs && Db(t, k).jobs[i].state == Queued
    ensures i in Db(t, m).jobs && Db(t, m).jobs[i].cancelRequested && i !in t.states[m].w.fs.artifacts
    ensures Outcome(Db(t, m).jobs[i]).Some? ==> Outcome(Db(t, m).jobs[i]) == Some(Cancelled)
  {
    hide IsRun, Inv, Evolves, Next, NeverPublished, RowOk, FileOk, CleanOps;
    TraceStep(c, t, k);
    JobState(c, t, k, i);
    CancelQueued(c, t.states[k], i);
    UnpublishedRun(c, t, k + 1, m, i);
    JobState(c, t, m, i);
    UnpublishedMeans(t.states[m], i);
  }

  lemma UnpublishedMeans(s: Sys, i: Id)
    requires NeverPublished(s, i) && (i in s.w.db.jobs ==> RowOk(s.w.db.jobs[i], i, s.w.now))
    ensures i in s.w.db.jobs
    ensures s.w.db.jobs[i].cancelRequested && i !in s.w.fs.artifacts
    ensures Outcome(s.w.db.jobs[i]).Some? ==> Outcome(s.w.db.jobs[i]) == Some(Cancelled)
  {
  }

  /** The row part of the invariant. */
  lemma Invariants(c: Config, s: Sys, i: Id)
    requires Inv(c, s) && i in s.w.db.jobs
    ensures RowOk(s.w.db.jobs[i], i, s.w.now)
  {
    hide PcInv;
  }

  // ---- Transitions ----

  /** Every step of the system, in whatever thread, moves every job along an edge of
      `CanTransition` or not at all, and leaves no job behind. */
  lemma TransitionRefinement(c: Config, t: Trace, k: nat, i: Id)
    requires IsRun(c, t) && At(t, k + 1) && i in Db(t, k).jobs
    ensures i in Db(t, k + 1).jobs
    ensures var j, j' := Db(t, k).jobs[i], Db(t, k + 1).jobs[i];
      && (j'.state == j.state || CanTransition(j.state, j'.state))
      && (Terminal(j.state) ==> j'.state == j.state)
      && (Outcome(j).Some? && Outcome(j') != Outcome(j) ==> OutcomeRewritten(j, j'))
  {
    hide Inv, Next, IsRun;
    TraceStep(c, t, k);
    assert RowEvolves(t.states[k].w, t.states[k + 1].w, i);
  }

  lemma NeverQueuedAgain(c: Config, t: Trace, k: nat, m: nat, i: Id)
    requires IsRun(c, t) && k < m && At(t, m) && Claims(t, k, i)
    ensures i in Db(t, m).jobs && Db(t, m).jobs[i].state != Queued
  {
    hide IsRun;
    TraceLater(c, t, k + 1, m);
    assert RowLater(Db(t, k + 1).jobs[i], Db(t, m).jobs[i]);
  }

  /** A job is claimed at most once in any run. */
  lemma ClaimedOnce(c: Config, t: Trace, k: nat, m: nat, i: Id)
    requires IsRun(c, t) && At(t, k + 1) && At(t, m + 1) && Claims(t, k, i) && Claims(t, m, i)
    ensures k == m
  {
    hide IsRun;
    if k < m {
      NeverQueuedAgain(c, t, k, m, i);
    } else if m < k {
      NeverQueuedAgain(c, t, m, k, i);
    }
  }

  /** The workspace a job is about to create does not exist, so creation cannot collide. */
  lemma WorkspaceFree(c: Config, t: Trace, k: nat)
    requires IsRun(c, t) && At(t, k) && t.states[k].pc.MakeWorkspace?
    ensures t.states[k].pc.id !in t.states[k].w.fs.work
  {
    TraceInv(c, t, k);
    hide IsRun, WorldInv;
  }

  // ---- Recovery ----

  /** Storage holds exactly what the rows call for, and nobody owns or needs the device. */
  ghost predicate Reconciled(w: World) {
    && w.fs.work == map[]
    && (forall i :: i in w.fs.inputs ==> i in w.db.jobs && w.db.jobs[i].state == Queued)
    && (forall i :: i in w.fs.artifacts ==>
          i in w.db.jobs && Outcome(w.db.jobs[i]) == Some(Completed) && !w.db.jobs[i].artifactExpired)
    && (forall i :: i in w.db.jobs && w.db.jobs[i].state == Queued && w.db.jobs[i].source == Upload
          ==> i in w.fs.inputs)
    && w.db.device.owner == None && NoLive(w)
  }

  lemma ReadyState(c: Config, s: Sys)
    requires Inv(c, s) && s.pc.Ready?
    ensures Reconciled(s.w)
  {
    forall i ensures i !in s.w.fs.work {
      assert !Keep(s.w.db.jobs, WorkDirs, i);
      assert i in Listed(s.w.fs, WorkDirs) <==> i in s.w.fs.work;
    }
    forall i | i in s.w.fs.inputs ensures i in s.w.db.jobs && s.w.db.jobs[i].state == Queued {
      assert i in Listed(s.w.fs, InputFiles);
    }
    forall i | i in s.w.fs.artifacts
      ensures i in s.w.db.jobs && Outcome(s.w.db.jobs[i]) == Some(Completed) && !s.w.db.jobs[i].artifactExpired
    {
      assert i in Listed(s.w.fs, ArtifactFiles);
      assert FileOk(c, s.w, i);
    }
    forall i | i in s.w.db.jobs && s.w.db.jobs[i].state == Queued && s.w.db.jobs[i].source == Upload
      ensures i in s.w.fs.inputs
    {
      assert FileOk(c, s.w, i);
    }
  }

  /** When recovery succeeds, storage and device are reconciled, and every row is what the
      last serving process left, moved on as recovery promises - however many
      recoveries were cut short. */
  lemma RecoveryExact(c: Config, t: Trace, k: nat)
    requires IsRun(c, t) && At(t, k) && t.states[k].pc.Ready?
    ensures Reconciled(t.states[k].w)
    ensures var w := t.states[k].w;
      w.hist.boot.Keys == w.db.jobs.Keys
      && forall i :: i in w.db.jobs ==> RowRecovered(w.hist.boot[i], w.db.jobs[i])
  {
    TraceInv(c, t, k);
    ReadyState(c, t.states[k]);
    hide IsRun, WorldInv, Reconciled;
  }

  /** What `boot` holds: the rows as they were when a process that served last ended. */
  lemma BootIsLastServed(c: Config, t: Trace, k: nat)
    requires IsRun(c, t) && At(t, k + 1)
    ensures t.states[k + 1].w.hist.boot ==
            if t.acts[k].Crash? && Serving(t.states[k].pc) then Db(t, k).jobs else t.states[k].w.hist.boot
  {
    hide IsRun, Inv, Evolves, Next;
    TraceStep(c, t, k);
    BootKept(c, t.states[k], t.acts[k]);
  }

  lemma BootKept(c: Config, s: Sys, a: Action)
    ensures Next(c, s, a).w.hist.boot ==
            if a.Crash? && Serving(s.pc) then s.w.db.jobs else s.w.hist.boot
  {
    match a
    case Work(o) =>
      hide RecoveryStep, AttemptStep, PublicationStep, EndingStep, SchedulerStep;
      WorkerBoot(c, s.w, s.pc, o);
    case _ =>
      hide WorkerStep;
  }

  lemma WorkerBoot(c: Config, w: World, pc: Pc, o: Oracle)
    ensures WorkerStep(c, w, pc, o).0.hist.boot == w.hist.boot
  {
    hide RecoveryStep, AttemptStep, PublicationStep, EndingStep, SchedulerStep;
    if pc.Down? || Recovering(pc) {
      RecoveryBoot(w, pc, o);
    } else if Attempting(pc) {
      AttemptBoot(c, w, pc, o);
    } else if Publication(pc) {
      PublicationBoot(c, w, pc, o);
    } else if Ending(pc) {
      EndingBoot(w, pc, o);
    } else {
      SchedulerBoot(w, pc, o);
    }
  }

  lemma RecoveryBoot(w: World, pc: Pc, o: Oracle)
    requires pc.Down? || Recovering(pc)
    ensures RecoveryStep(w, pc, o).0.hist.boot == w.hist.boot
  {
  }

  lemma AttemptBoot(c: Config, w: World, pc: Pc, o: Oracle)
    requires Attempting(pc)
    ensures AttemptStep(c, w, pc, o).0.hist.boot == w.hist.boot
  {
  }

  lemma PublicationBoot(c: Config, w: World, pc: Pc, o: Oracle)
    requires Publication(pc)
    ensures PublicationStep(c, w, pc, o).0.hist.boot == w.hist.boot
  {
  }

  lemma EndingBoot(w: World, pc: Pc, o: Oracle)
    requires Ending(pc)
    ensures EndingStep(w, pc, o).0.hist.boot == w.hist.boot
  {
  }

  lemma SchedulerBoot(w: World, pc: Pc, o: Oracle)
    requires pc.Idle? || pc.SchedulerExpire? || pc.Claiming? || pc.Stopped?
    ensures SchedulerStep(w, pc, o).0.hist.boot == w.hist.boot
  {
  }

  /** A job completes only through cleanup of its own run: recovery never promotes one. */
  lemma NeverPromoted(c: Config, t: Trace, k: nat, i: Id)
    requires IsRun(c, t) && At(t, k) && t.states[k].pc.Ready?
    requires i in Db(t, k).jobs && Db(t, k).jobs[i].state == Completed
    ensures i in t.states[k].w.hist.boot && Outcome(t.states[k].w.hist.boot[i]) == Some(Completed)
  {
    RecoveryExact(c, t, k);
    hide IsRun;
    assert RowRecovered(t.states[k].w.hist.boot[i], Db(t, k).jobs[i]);
  }
}
