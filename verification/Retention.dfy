/** When artifacts expire: a fixed time after their publication. */
module Retention {
  import opened Model
  import opened Protocol
  import opened Traces
  import Facts
  import Invariant
  import Theorems

  /** Job `i` expires at `e`, or is about to be recorded so. */
  predicate Dated(w: World, pc: Pc, i: Id, e: Time) {
    (i in w.db.jobs && w.db.jobs[i].expiresAt == Some(e)) || (pc.Recording? && pc.id == i && pc.expiry == e)
  }

  /** The output of job `i` is published, one retention period before `e`. */
  predicate PublishedFor(c: Config, s: Sys, a: Action, i: Id, e: Time) {
    s.pc.Publishing? && s.pc.id == i && a.Work? && a.o.ok && e == s.w.now + c.retention
  }

  /** No row is given a date, and none is about to be. */
  ghost predicate Undated(w: World, w': World) {
    forall i :: i in w'.db.jobs && w'.db.jobs[i].expiresAt.Some? ==>
      i in w.db.jobs && w.db.jobs[i].expiresAt == w'.db.jobs[i].expiresAt
  }

  lemma ExpiryUndated(w: World, e: Expiry, o: Oracle)
    ensures Undated(w, ExpiryNext(w, e, o).w)
  {
  }

  lemma RecoveryUndated(w: World, pc: Pc, o: Oracle)
    requires pc.Down? || Recovering(pc)
    ensures var (w', pc') := RecoveryStep(w, pc, o); Undated(w, w') && !pc'.Recording?
  {
    if pc.RecoverExpire? {
      ExpiryUndated(w, pc.e, o);
      hide ExpiryNext;
    }
  }

  lemma AttemptUndated(c: Config, w: World, pc: Pc, o: Oracle)
    requires Attempting(pc)
    ensures var (w', pc') := AttemptStep(c, w, pc, o); Undated(w, w') && !pc'.Recording?
  {
  }

  lemma EndingUndated(w: World, pc: Pc, o: Oracle)
    requires Ending(pc)
    ensures var (w', pc') := EndingStep(w, pc, o); Undated(w, w') && !pc'.Recording?
  {
    if pc.FinishExpire? {
      ExpiryUndated(w, pc.e, o);
      hide ExpiryNext;
    }
  }

  lemma SchedulerUndated(w: World, pc: Pc, o: Oracle)
    requires pc.Idle? || pc.SchedulerExpire? || pc.Claiming? || pc.Stopped?
    ensures var (w', pc') := SchedulerStep(w, pc, o); Undated(w, w') && !pc'.Recording?
  {
    if pc.SchedulerExpire? {
      ExpiryUndated(w, pc.e, o);
      hide ExpiryNext;
    }
  }

  lemma PublicationDates(c: Config, s: Sys, o: Oracle, i: Id, e: Time)
    requires Publication(s.pc)
    ensures var (w', pc') := PublicationStep(c, s.w, s.pc, o);
      Dated(w', pc', i, e) ==> Dated(s.w, s.pc, i, e) || PublishedFor(c, s, Work(o), i, e)
  {
  }

  lemma UndatedKeeps(w: World, pc: Pc, w': World, pc': Pc, i: Id, e: Time)
    requires Undated(w, w') && Dated(w', pc', i, e) && (pc'.Recording? ==> pc' == pc)
    ensures Dated(w, pc, i, e)
  {
  }

  lemma WorkDates(c: Config, s: Sys, o: Oracle, i: Id, e: Time)
    ensures var (w', pc') := WorkerStep(c, s.w, s.pc, o);
      Dated(w', pc', i, e) ==> Dated(s.w, s.pc, i, e) || PublishedFor(c, s, Work(o), i, e)
  {
    hide RecoveryStep, AttemptStep, PublicationStep, EndingStep, SchedulerStep, Undated, Dated, PublishedFor;
    var (w', pc') := WorkerStep(c, s.w, s.pc, o);
    if Publication(s.pc) {
      PublicationDates(c, s, o, i, e);
    } else {
      if s.pc.Down? || Recovering(s.pc) {
        RecoveryUndated(s.w, s.pc, o);
      } else if Attempting(s.pc) {
        AttemptUndated(c, s.w, s.pc, o);
      } else if Ending(s.pc) {
        EndingUndated(s.w, s.pc, o);
      } else {
        SchedulerUndated(s.w, s.pc, o);
      }
      if Dated(w', pc', i, e) {
        UndatedKeeps(s.w, s.pc, w', pc', i, e);
      }
    }
  }

  lemma ConfirmUndated(w: World, cf: Confirmation, o: Oracle)
    ensures Undated(w, ConfirmNext(w, cf, o).w)
  {
    if cf.stage.ConfirmExpire? {
      ExpiryUndated(w, cf.stage.e, o);
      hide ExpiryNext;
    }
  }

  lemma OtherUndated(c: Config, s: Sys, a: Action)
    requires !a.Work?
    ensures Undated(s.w, Next(c, s, a).w)
  {
    hide WorkerStep, ConfirmNext;
    if a.ConfirmWith? && a.thread in s.confirms {
      ConfirmUndated(s.w, s.confirms[a.thread], a.o);
    }
  }

  lemma StepDates(c: Config, s: Sys, a: Action, i: Id, e: Time)
    ensures var m := Next(c, s, a);
      Dated(m.w, m.pc, i, e) ==> Dated(s.w, s.pc, i, e) || PublishedFor(c, s, a, i, e)
  {
    hide WorkerStep, Dated, PublishedFor, Undated, ConfirmNext;
    if a.Work? {
      WorkDates(c, s, a.o, i, e);
    } else {
      var m := Next(c, s, a);
      OtherUndated(c, s, a);
      Facts.OtherPc(c, s, a);
      hide Next;
      if Dated(m.w, m.pc, i, e) {
        UndatedKeeps(s.w, s.pc, m.w, m.pc, i, e);
      }
    }
  }

  lemma {:induction false} WhenDated(c: Config, t: Trace, k: nat, i: Id, e: Time) returns (r: nat)
    requires IsRun(c, t) && At(t, k) && Dated(t.states[k].w, t.states[k].pc, i, e)
    ensures r < k && PublishedFor(c, t.states[r], t.acts[r], i, e)
  {
    assert k > 0;
    assert Leads(c, t, k - 1);
    hide IsRun, Next, Dated, PublishedFor;
    StepDates(c, t.states[k - 1], t.acts[k - 1], i, e);
    r := k - 1;
    if Dated(t.states[k - 1].w, t.states[k - 1].pc, i, e) {
      r := WhenDated(c, t, k - 1, i, e);
    }
  }

  /** Every expiry on record is the time of its job's publication plus the retention period,
      whatever has happened since. */
  lemma ExpiresAfterRetention(c: Config, t: Trace, k: nat, i: Id) returns (r: nat)
    requires IsRun(c, t) && At(t, k) && i in t.states[k].w.db.jobs && t.states[k].w.db.jobs[i].expiresAt.Some?
    ensures r < k && t.states[r].pc.Publishing? && t.states[r].pc.id == i && t.acts[r].Work? && t.acts[r].o.ok
    ensures t.states[k].w.db.jobs[i].expiresAt == Some(t.states[r].w.now + c.retention)
  {
    r := WhenDated(c, t, k, i, t.states[k].w.db.jobs[i].expiresAt.value);
    hide IsRun;
  }
  /** A completed job can be downloaded for the whole retention period after its publication. */
  lemma AvailableForRetention(c: Config, t: Trace, k: nat, i: Id) returns (r: nat)
    requires IsRun(c, t) && At(t, k) && i in t.states[k].w.db.jobs && t.states[k].w.db.jobs[i].state == Completed
    ensures r < k && t.states[r].pc.Publishing? && t.states[r].pc.id == i && t.acts[r].Work? && t.acts[r].o.ok
    ensures var w := t.states[k].w;
      w.now < t.states[r].w.now + c.retention ==> i in w.fs.artifacts && !w.db.jobs[i].artifactExpired
  {
    hide IsRun;
    Theorems.JobState(c, t, k, i);
    hide Invariant.FileOk;
    r := ExpiresAfterRetention(c, t, k, i);
    if !t.states[k].w.db.jobs[i].artifactExpired {
      Theorems.ArtifactAvailable(c, t, k, i);
    }
  }
  /** The window of downloads: the check of the handler passes exactly on a completed row that
      is not marked expired, from its publication on for the retention period, its last
      instant included. */
  lemma DownloadWindow(c: Config, t: Trace, k: nat, i: Id, now: Time) returns (r: nat)
    requires IsRun(c, t) && At(t, k) && i in t.states[k].w.db.jobs && t.states[k].w.db.jobs[i].state == Completed
    ensures r < k && t.states[r].pc.Publishing? && t.states[r].pc.id == i && t.acts[r].Work? && t.acts[r].o.ok
    ensures var row := t.states[k].w.db.jobs[i];
      Theorems.DownloadGuard(row, now) <==> !row.artifactExpired && now <= t.states[r].w.now + c.retention
  {
    hide IsRun;
    Theorems.JobState(c, t, k, i);
    hide Invariant.FileOk;
    r := ExpiresAfterRetention(c, t, k, i);
  }
}
