/** How jobs enter the queue: exactly when there is room, and as what. */
module Entry {
  import opened Model
  import opened Transactions
  import opened Protocol
  import opened Invariant
  import opened Traces
  import opened Completion
  import opened Surprises

  /** The jobs that are not finished: queued, active, or in review. */
  function Unfinished(jobs: map<Id, Job>): set<Id> {
    set i | i in jobs && jobs[i].state != Completed && jobs[i].state != Failed && jobs[i].state != Cancelled
  }

  lemma SameUnfinished(jobs: map<Id, Job>)
    ensures Unfinished(jobs) == NonTerminal(jobs)
  {
  }

  /** The row of a job as it enters the queue. */
  predicate IsNew(j: Job, id: Id, source: Source, now: Time) {
    j.id == id && j.source == source && j.state == Queued && j.attempts == 0 && !j.cancelRequested
    && j.errorCode == NoCode && j.cleanupError == Clear && j.pending == None && j.bytes == 0 && j.sha256 == None
    && j.createdAt == now && j.availableAt == now && j.expiresAt == None && !j.artifactExpired
  }

  /** The job enters if fewer than `limit` others are unfinished; otherwise nothing changes. */
  ghost predicate Enters(db: Db, db': Db, limit: nat, id: Id, source: Source, now: Time) {
    if |Unfinished(db.jobs)| < limit
    then id in db'.jobs && IsNew(db'.jobs[id], id, source, now) && db' == db.(jobs := db.jobs[id := db'.jobs[id]])
    else db' == db
  }

  /** A submission to a serving process, with a new identifier, is admitted exactly when fewer
      jobs than the limit are unfinished, as a queued job with no attempts. */
  lemma SubmitAdmits(c: Config, t: Trace, k: nat, id: Id, source: Source)
    requires IsRun(c, t) && At(t, k + 1) && t.acts[k] == Submit(id, source)
    requires Serving(t.states[k].pc) && source != Upload && Fresh(t.states[k], id)
    ensures var w, w' := t.states[k].w, t.states[k + 1].w;
      Enters(w.db, w'.db, c.queueLimit, id, source, w.now) && w'.fs == w.fs
  {
    assert Leads(c, t, k);
    SameUnfinished(t.states[k].w.db.jobs);
    hide IsRun, WorkerStep, ConfirmNext, NonTerminal, Unfinished;
  }

  /** An upload is announced: from here on its file may exist. */
  lemma UploadOpens(c: Config, t: Trace, k: nat, id: Id)
    requires IsRun(c, t) && At(t, k + 1) && t.acts[k] == OpenUpload(id)
    requires Serving(t.states[k].pc) && t.states[k].upload.NoUpload? && Fresh(t.states[k], id)
    ensures t.states[k + 1].upload == Receiving(id) && t.states[k + 1].w.db == t.states[k].w.db
    ensures t.states[k + 1].w.fs.inputs == t.states[k].w.fs.inputs + {id}
  {
    assert Leads(c, t, k);
    hide IsRun, WorkerStep, ConfirmNext;
  }

  /** An upload that ends well is admitted under the same limit. One that is refused, or breaks
      off, leaves no job, and its file only if the file cannot be removed. */
  lemma UploadAdmits(c: Config, t: Trace, k: nat, id: Id, o: Oracle)
    requires IsRun(c, t) && At(t, k + 1) && t.acts[k] == UploadWith(o) && t.states[k].upload == Receiving(id)
    ensures var s, s' := t.states[k], t.states[k + 1];
      && s'.upload.NoUpload?
      && (if o.ok then Enters(s.w.db, s'.w.db, c.queueLimit, id, Upload, s.w.now) else s'.w.db == s.w.db)
      && (id in s'.w.fs.inputs <==> id in s'.w.db.jobs || !o.alt)
      && (forall i :: i != id ==> (i in s'.w.fs.inputs <==> i in s.w.fs.inputs))
  {
    assert Leads(c, t, k);
    TraceInv(c, t, k);
    SameUnfinished(t.states[k].w.db.jobs);
    hide IsRun, WorkerStep, ConfirmNext, NonTerminal, Unfinished, WorldInv, PcInv, ConfirmOk;
  }

  // ---- The bound is reached ----

  lemma OneMoreWaits(c: Config, s: Sys, i: Id)
    requires Serving(s.pc) && s.upload.NoUpload? && i !in s.w.db.jobs && i !in s.w.fs.inputs
    requires |Unfinished(s.w.db.jobs)| < c.queueLimit
    ensures var m := Next(c, s, Submit(i, Installed));
      && m.pc == s.pc && m.upload == s.upload && m.w.fs == s.w.fs
      && |Unfinished(m.w.db.jobs)| == |Unfinished(s.w.db.jobs)| + 1
  {
    SameUnfinished(s.w.db.jobs);
    hide WorkerStep, ConfirmNext;
    var m := Next(c, s, Submit(i, Installed));
    assert m.w.db.jobs == s.w.db.jobs[i := NewJob(i, Installed, s.w.now)];
    assert Unfinished(m.w.db.jobs) == Unfinished(s.w.db.jobs) + {i};
  }

  lemma {:induction false} QueueRun(c: Config, n: nat) returns (acts: seq<Action>)
    requires n <= c.queueLimit
    ensures var m := Exec(c, Init, acts);
      Inv(c, m) && m.pc.Idle? && m.upload.NoUpload? && |Unfinished(m.w.db.jobs)| == n
  {
    hide Inv, Next, Exec;
    if n == 0 {
      acts := ServiceUp(c);
      assert Unfinished(Exec(c, Init, acts).w.db.jobs) == {};
    } else {
      acts := QueueRun(c, n - 1);
      var s := Exec(c, Init, acts);
      var i := Unused(s.w.db.jobs.Keys + s.w.fs.inputs);
      hide Unfinished;
      OneMoreWaits(c, s, i);
      var m;
      acts, m := Go(c, Init, acts, Submit(i, Installed));
    }
  }

  /** The bound on unfinished jobs is tight: every number up to the limit occurs. */
  lemma QueueFills(c: Config, n: nat) returns (acts: seq<Action>)
    requires n <= c.queueLimit
    ensures |Unfinished(Exec(c, Init, acts).w.db.jobs)| == n
  {
    acts := QueueRun(c, n);
  }
}
