/** Runs from the empty service in which the code does what one would not expect. */
module Surprises {
  import opened Model
  import opened Transactions
  import opened Protocol
  import opened Execution
  import opened Invariant
  import opened Safety
  import opened Runs
  import opened Restart
  import opened Review
  import opened Theorems
  import opened Completion
  import opened Boundary
  import Outcomes
  import Stale
  import Effects

  const Good := Answer(true, false, false)
  const Bad := Answer(false, false, false)

  // ---- Getting a service with a job ----

  lemma {:induction false} WorkRun(c: Config, s: Sys, more: seq<Action>)
    requires Inv(c, s) && forall k :: 0 <= k < |more| ==> more[k].Work?
    ensures Inv(c, Exec(c, s, more)) && Alone(s, Exec(c, s, more), more)
  {
    if more != [] {
      hide Inv, Evolves;
      var init, a := more[..|more| - 1], more[|more| - 1];
      WorkRun(c, s, init);
      StepSafe(c, Exec(c, s, init), a);
      SameKeys(c, Exec(c, s, init), a.o);
      ClockStep(c, Exec(c, s, init), a.o);
      hide WorkerStep, ConfirmNext;
    }
  }

  /** One more step of a run that is being built. */
  lemma Go(c: Config, s: Sys, acts: seq<Action>, a: Action) returns (more: seq<Action>, m: Sys)
    requires Inv(c, Exec(c, s, acts))
    ensures more == acts + [a] && m == Exec(c, s, more) == Next(c, Exec(c, s, acts), a) && Inv(c, m)
  {
    hide Inv, Evolves, Next;
    more, m := acts + [a], Next(c, Exec(c, s, acts), a);
    ExecAppend(c, s, acts, [a]);
    ExecOne(c, Exec(c, s, acts), a);
    StepSafe(c, Exec(c, s, acts), a);
  }

  /** The service is up and has nothing to do. */
  predicate AtRest(s: Sys) {
    s.pc.Idle? && s.upload.NoUpload?
    && forall i :: i in s.w.db.jobs ==> Terminal(s.w.db.jobs[i].state)
  }

  lemma ServiceUp(c: Config) returns (acts: seq<Action>)
    ensures var m := Exec(c, Init, acts); Inv(c, m) && AtRest(m) && m.confirms == map[] && m.w.db.jobs == map[]
  {
    InitOk(c);
    var first := FinishRecovery(c, Init);
    WorkRun(c, Init, first);
    var m;
    acts, m := Go(c, Init, first, Work(Good));
    hide Inv, Exec, Next;
    Begins(c, Exec(c, Init, first));
    BeginsAlone(c, Exec(c, Init, first));
  }

  lemma BeginsAlone(c: Config, s: Sys)
    ensures var m := Next(c, s, Work(Good)); m.confirms == s.confirms && m.upload == s.upload
  {
    hide WorkerStep;
  }

  lemma RestIsFree(c: Config, s: Sys)
    requires Inv(c, s) && AtRest(s)
    ensures LeaseFree(s.w.db)
  {
    LeaseState(c, s);
    hide PcInv, RowsOk, FilesOk, OpsOk, ConfirmOk;
  }

  /** A service at rest admits a job, which is then the next to be claimed. */
  lemma Enter(c: Config, s: Sys) returns (i: Id)
    requires Inv(c, s) && AtRest(s) && c.Valid()
    ensures i !in s.w.db.jobs
    ensures var m := Next(c, s, Submit(i, Installed));
      && Inv(c, m) && m.pc.Idle? && NextUp(m.w, i) && m.confirms == s.confirms && m.upload.NoUpload?
      && m.w.now == s.w.now && m.w.db.jobs.Keys == s.w.db.jobs.Keys + {i}
      && forall j :: j in s.w.db.jobs ==> m.w.db.jobs[j] == s.w.db.jobs[j]
  {
    hide Inv, Evolves, Next, NextUp;
    i := Unused(s.w.db.jobs.Keys + s.w.fs.inputs);
    RestIsFree(c, s);
    StepSafe(c, s, Submit(i, Installed));
    Admitted(c, s, i);
    NextInLine(s.w, i);
  }

  lemma Admitted(c: Config, s: Sys, i: Id)
    requires AtRest(s) && c.Valid() && i !in s.w.db.jobs && i !in s.w.fs.inputs
    ensures Next(c, s, Submit(i, Installed)) == s.(w := s.w.(db := Put(s.w.db, NewJob(i, Installed, s.w.now))))
  {
    hide WorkerStep, ConfirmNext;
    assert NonTerminal(s.w.db.jobs) == {};
  }

  lemma NextInLine(w: World, i: Id)
    requires LeaseFree(w.db) && i !in w.db.jobs
    requires forall j :: j in w.db.jobs ==> Terminal(w.db.jobs[j].state)
    ensures NextUp(w.(db := Put(w.db, NewJob(i, Installed, w.now))), i)
  {
  }

  /** A run that completes a job. */
  lemma CompletingRun(c: Config, content: Bytes) returns (acts: seq<Action>, i: Id)
    requires c.Valid() && c.CanComplete(content)
    ensures var m := Exec(c, Init, acts);
      Inv(c, m) && Done(m, i, content) && DownloadGuard(m.w.db.jobs[i], m.w.now)
  {
    hide Inv, Next, Exec, Done;
    acts, i := RunToQueued(c);
    var rest := FirstCompletes(c, Exec(c, Init, acts), i, content);
    ExecAppend(c, Init, acts, rest);
    acts := acts + rest;
  }

  lemma RunToQueued(c: Config) returns (acts: seq<Action>, i: Id)
    requires c.Valid()
    ensures var m := Exec(c, Init, acts);
      && Inv(c, m) && m.pc.Idle? && NextUp(m.w, i) && m.confirms == map[] && m.upload.NoUpload?
      && m.w.db.jobs.Keys == {i}
  {
    hide Inv, Next, Exec, NextUp;
    acts := ServiceUp(c);
    var s := Exec(c, Init, acts);
    i := Enter(c, s);
    var m;
    acts, m := Go(c, Init, acts, Submit(i, Installed));
  }

  /** The download check passes and the artifact is gone: a run that comes to it. */
  lemma GapRun(c: Config, content: Bytes) returns (acts: seq<Action>, i: Id)
    requires c.Valid() && c.CanComplete(content)
    ensures var w := Exec(c, Init, acts).w; Missing(w, i, w.now) && w.db.jobs[i].expiresAt == Some(w.now)
  {
    hide Inv, Next, Exec, Missing;
    acts, i := CompletingRun(c, content);
    var rest := GapFrom(c, Exec(c, Init, acts), i);
    ExecAppend(c, Init, acts, rest);
    acts := acts + rest;
    MissingAtExpiry(c, acts, i);
  }

  lemma MissingAtExpiry(c: Config, acts: seq<Action>, i: Id)
    requires var w := Exec(c, Init, acts).w; exists t :: Missing(w, i, t)
    ensures var w := Exec(c, Init, acts).w; Missing(w, i, w.now) && w.db.jobs[i].expiresAt == Some(w.now)
  {
    Reachable(c, acts);
    var s := Exec(c, Init, acts);
    hide Exec, PcInv, DeviceOk, OpsOk, ConfirmOk;
    assert FileOk(c, s.w, i);
  }

  // ---- A cancellation at the last moment ----

  lemma EndingNext(c: Config, s: Sys, o: Oracle)
    requires Ending(s.pc)
    ensures Next(c, s, Work(o)) == s.(w := EndingStep(s.w, s.pc, o).0, pc := EndingStep(s.w, s.pc, o).1)
  {
    hide EndingStep;
  }

  /** Job `i` is being cancelled in cleanup, after it was published. */
  predicate CutOff(w: World, w0: World, i: Id) {
    && w.now == w0.now && i in w0.db.jobs && i in w.db.jobs
    && w.db.jobs[i].state == Cleaning && w.db.jobs[i].cancelRequested && w.db.jobs[i].pending == Some(Cancelled)
    && w.db.jobs[i].expiresAt == w0.db.jobs[i].expiresAt && w.db.jobs[i].id == i
  }

  predicate Still(m: Sys, s: Sys) {
    m.confirms == s.confirms && m.upload == s.upload
  }

  /** The worker is about to begin the cleanup of a job that it means to complete. */
  predicate AtCutoff(s: Sys, i: Id) {
    s.pc == Finishing(i, Completed, NoCode, true) && i in s.w.db.jobs && s.w.db.jobs[i].id == i
    && (s.w.db.jobs[i].state == Running || s.w.db.jobs[i].state == Verifying)
  }

  lemma CancelNow(c: Config, s: Sys, i: Id)
    requires AtCutoff(s, i)
    ensures var m := Next(c, Next(c, s, Cancel(i)), Work(Good));
      && m.pc == Sweep(i, Cancelled, true, SweepWork, false)
      && CutOff(m.w, s.w, i) && m.w.fs == s.w.fs && Still(m, s)
  {
    hide WorkerStep, ConfirmNext, EndingStep;
    var m := Next(c, s, Cancel(i));
    assert m == s.(w := s.w.(db := CancelTx(s.w.db, i).value));
    EndingNext(c, m, Good);
    BeginStep(m.w, i);
  }

  lemma BeginStep(w: World, i: Id)
    requires i in w.db.jobs && w.db.jobs[i].cancelRequested
    requires w.db.jobs[i].state == Running || w.db.jobs[i].state == Verifying
    ensures EndingStep(w, Finishing(i, Completed, NoCode, true), Good) ==
            (w.(db := BeginCleanupTx(w.db, i, Completed, NoCode).value),
             Sweep(i, Cancelled, true, SweepWork, false))
  {
    hide PassNext, ExpiryNext;
  }

  /** The steps of cleanup up to the removal of the artifact. */
  lemma SweepNext(c: Config, s: Sys, s0: Sys, i: Id)
    requires s.pc.Sweep? && s.pc == Sweep(i, Cancelled, true, s.pc.stage, false) && s.pc.stage != SweepArtifact
    requires CutOff(s.w, s0.w, i) && s.w.fs.artifacts == s0.w.fs.artifacts && Still(s, s0)
    ensures var m := Next(c, s, Work(Good));
      && m.pc == Sweep(i, Cancelled, true, (match s.pc.stage
                                            case SweepWork => SweepInput
                                            case SweepInput => SweepTemp
                                            case _ => SweepArtifact), false)
      && CutOff(m.w, s0.w, i) && m.w.fs.artifacts == s0.w.fs.artifacts && Still(m, s0)
  {
    EndingNext(c, s, Good);
    hide Next, PassNext, ExpiryNext;
  }

  lemma ArtifactNext(c: Config, s: Sys, s0: Sys, i: Id, o: Oracle)
    requires s.pc == Sweep(i, Cancelled, true, SweepArtifact, false)
    requires CutOff(s.w, s0.w, i) && s.w.fs.artifacts == s0.w.fs.artifacts && Still(s, s0)
    ensures var m := Next(c, s, Work(o));
      && m.pc == CleanFinish(i, Cancelled, !o.ok, Listing) && CutOff(m.w, s0.w, i) && Still(m, s0)
      && m.w.fs.artifacts == if o.ok then s0.w.fs.artifacts - {i} else s0.w.fs.artifacts
  {
    EndingNext(c, s, o);
    hide Next, PassNext, ExpiryNext;
  }

  lemma NoAnswer(c: Config, s: Sys, i: Id, desired: State, bad: bool)
    requires s.pc == CleanFinish(i, desired, bad, Listing)
    ensures Next(c, s, Work(Bad)) == s.(pc := Deciding(i, desired, bad, true))
  {
    EndingNext(c, s, Bad);
    hide Next, ExpiryNext;
  }

  /** Job `i` is in review at an idle moment. */
  predicate InReview(s: Sys, i: Id, outcome: State) {
    s.pc.Idle? && i in s.w.db.jobs && Unresolved(s.w.db.jobs[i]) && s.w.db.jobs[i].pending == Some(outcome)
  }

  lemma Quarantined(c: Config, s: Sys, i: Id, desired: State, bad: bool)
    requires s.pc == Deciding(i, desired, bad, true) && i in s.w.db.jobs && s.w.db.jobs[i].state == Cleaning
    ensures var m := Next(c, Next(c, s, Work(Good)), Work(Good));
      && InReview(m, i, desired) && Still(m, s) && m.w.fs == s.w.fs && m.w.now == s.w.now
      && m.w.db.jobs.Keys == s.w.db.jobs.Keys
      && m.w.db.jobs[i].cancelRequested == s.w.db.jobs[i].cancelRequested
      && m.w.db.jobs[i].expiresAt == s.w.db.jobs[i].expiresAt && m.w.db.jobs[i].id == s.w.db.jobs[i].id
  {
    EndingNext(c, s, Good);
    var m := Next(c, s, Work(Good));
    EndingNext(c, m, Good);
    hide Next, PassNext, ExpiryNext;
  }

  /** What the cancellation at the last moment leaves: the job in review, and its artifact
      gone or still there, as its removal succeeded or not. */
  predicate Cut(m: Sys, s: Sys, i: Id, swept: bool) {
    && InReview(m, i, Cancelled) && Still(m, s) && m.w.now == s.w.now && i in s.w.db.jobs
    && m.w.db.jobs[i].cancelRequested && m.w.db.jobs[i].expiresAt == s.w.db.jobs[i].expiresAt
    && m.w.fs.artifacts == if swept then s.w.fs.artifacts - {i} else s.w.fs.artifacts
  }

  lemma SweptFiles(c: Config, s: Sys, i: Id) returns (more: seq<Action>, m: Sys)
    requires Inv(c, s) && AtCutoff(s, i)
    ensures m == Exec(c, s, more) && Inv(c, m) && m.pc == Sweep(i, Cancelled, true, SweepArtifact, false)
    ensures CutOff(m.w, s.w, i) && m.w.fs.artifacts == s.w.fs.artifacts && Still(m, s)
  {
    hide Inv, Next, CutOff, Still, AtCutoff;
    assert Exec(c, s, []) == s;
    hide Exec;
    CancelNow(c, s, i);
    more, m := Go(c, s, [], Cancel(i));
    more, m := Go(c, s, more, Work(Good));
    SweepNext(c, m, s, i);
    more, m := Go(c, s, more, Work(Good));
    SweepNext(c, m, s, i);
    more, m := Go(c, s, more, Work(Good));
    SweepNext(c, m, s, i);
    more, m := Go(c, s, more, Work(Good));
  }

  /** From a cleanup pass that gets no answer, to review. */
  lemma ToReview(c: Config, s: Sys, done: seq<Action>, i: Id, desired: State, bad: bool)
    returns (more: seq<Action>, m: Sys)
    requires var n := Exec(c, s, done);
      Inv(c, n) && n.pc == CleanFinish(i, desired, bad, Listing) && i in n.w.db.jobs && n.w.db.jobs[i].state == Cleaning
    ensures m == Exec(c, s, more) && Inv(c, m) && InReview(m, i, desired)
    ensures var n := Exec(c, s, done);
      && Still(m, n) && m.w.fs == n.w.fs && m.w.now == n.w.now && m.w.db.jobs.Keys == n.w.db.jobs.Keys
      && i in n.w.db.jobs && i in m.w.db.jobs
      && m.w.db.jobs[i].cancelRequested == n.w.db.jobs[i].cancelRequested
      && m.w.db.jobs[i].expiresAt == n.w.db.jobs[i].expiresAt && m.w.db.jobs[i].id == n.w.db.jobs[i].id
  {
    hide Inv, Next, Exec, InReview;
    NoAnswer(c, Exec(c, s, done), i, desired, bad);
    more, m := Go(c, s, done, Work(Bad));
    Quarantined(c, m, i, desired, bad);
    more, m := Go(c, s, more, Work(Good));
    more, m := Go(c, s, more, Work(Good));
    assert i in m.w.db.jobs by {
      ReviewRow(m, i, desired);
    }
  }

  lemma ReviewRow(s: Sys, i: Id, outcome: State)
    requires InReview(s, i, outcome)
    ensures i in s.w.db.jobs
  {
  }

  lemma CancelledLate(c: Config, s: Sys, i: Id, swept: bool) returns (more: seq<Action>)
    requires Inv(c, s) && AtCutoff(s, i)
    ensures var m := Exec(c, s, more); Inv(c, m) && Cut(m, s, i, swept)
  {
    hide Inv, Next, Exec, AtCutoff, InReview;
    var m;
    more, m := SweptFiles(c, s, i);
    var o := if swept then Good else Bad;
    ArtifactNext(c, m, s, i, o);
    more, m := Go(c, s, more, Work(o));
    more, m := ToReview(c, s, more, i, Cancelled, !o.ok);
  }

  // ---- A confirmation on its own ----

  /** Only this confirmation has moved. */
  ghost predicate OnlyThread(s: Sys, m: Sys, thread: nat) {
    && m.pc == s.pc && m.w.now == s.w.now && m.upload == s.upload && m.w.db.jobs.Keys == s.w.db.jobs.Keys
    && forall k :: k != thread && k in s.confirms ==> k in m.confirms && m.confirms[k] == s.confirms[k]
  }

  /** All steps are of this confirmation. */
  ghost predicate OfThread(more: seq<Action>, thread: nat) {
    forall k :: 0 <= k < |more| ==> more[k].ConfirmWith? && more[k].thread == thread
  }

  lemma ThreadStep(c: Config, s: Sys, thread: nat, o: Oracle)
    requires Inv(c, s)
    ensures OnlyThread(s, Next(c, s, ConfirmWith(thread, o)), thread)
  {
    hide WorldInv, PcInv, ConfirmOk, WorkerStep, ConfirmNext;
    if thread in s.confirms {
      ConfirmContained(s.w, s.confirms[thread], o);
      ConfirmKeepsClock(s.w, s.confirms[thread], o);
    }
  }

  lemma {:induction false} ThreadRun(c: Config, s: Sys, thread: nat, more: seq<Action>)
    requires Inv(c, s) && OfThread(more, thread)
    ensures Inv(c, Exec(c, s, more)) && OnlyThread(s, Exec(c, s, more), thread)
  {
    hide Inv, Evolves, Next, OnlyThread;
    OnlyThreadTransitive(s, s, s, thread);
    if more != [] {
      var init, a := more[..|more| - 1], more[|more| - 1];
      ThreadRun(c, s, thread, init);
      StepSafe(c, Exec(c, s, init), a);
      ThreadStep(c, Exec(c, s, init), thread, a.o);
      OnlyThreadTransitive(s, Exec(c, s, init), Exec(c, s, more), thread);
    }
  }

  lemma OnlyThreadTransitive(s: Sys, m: Sys, n: Sys, thread: nat)
    ensures OnlyThread(s, s, thread)
    ensures OnlyThread(s, m, thread) && OnlyThread(m, n, thread) ==> OnlyThread(s, n, thread)
  {
  }

  lemma {:induction false} FailedStays(c: Config, s: Sys, thread: nat, more: seq<Action>, i: Id)
    requires Inv(c, s) && OfThread(more, thread)
    requires i in s.w.db.jobs && Outcome(s.w.db.jobs[i]) == Some(Failed)
    ensures var w := Exec(c, s, more).w; i in w.db.jobs && Outcome(w.db.jobs[i]) == Some(Failed)
  {
    if more != [] {
      hide Inv, Next, RowOk, PcInv;
      var init := more[..|more| - 1];
      FailedStays(c, s, thread, init, i);
      ThreadRun(c, s, thread, init);
      Outcomes.StateParts(c, Exec(c, s, init), i);
      Outcomes.StepOutcome(c, Exec(c, s, init), more[|more| - 1], i);
    }
  }

  predicate Holds(w: World, i: Id, content: Bytes) {
    i in w.fs.artifacts && w.fs.artifacts[i] == content
    && i in w.db.jobs && w.db.jobs[i].expiresAt.Some? && w.now < w.db.jobs[i].expiresAt.value
  }

  lemma HoldsOn(c: Config, s: Sys, thread: nat, o: Oracle, i: Id, content: Bytes)
    requires Inv(c, s) && Holds(s.w, i, content)
    ensures Holds(Next(c, s, ConfirmWith(thread, o)).w, i, content)
  {
    hide WorldInv, PcInv, ConfirmOk, WorkerStep, ConfirmNext, RowsEvolve, OpsEvolve;
    if thread in s.confirms {
      Effects.ConfirmEffect(c, s.w, s.confirms[thread], o);
      ConfirmKeepsClock(s.w, s.confirms[thread], o);
      ExpiryKept(s.w, ConfirmNext(s.w, s.confirms[thread], o).w, i);
    }
  }

  lemma ExpiryKept(w: World, w': World, i: Id)
    requires Evolves(w, w') && i in w.db.jobs && w.db.jobs[i].expiresAt.Some?
    ensures i in w'.db.jobs && w'.db.jobs[i].expiresAt == w.db.jobs[i].expiresAt
  {
    assert RowEvolves(w, w', i);
  }

  lemma {:induction false} HoldsStays(c: Config, s: Sys, thread: nat, more: seq<Action>, i: Id, content: Bytes)
    requires Inv(c, s) && OfThread(more, thread) && Holds(s.w, i, content)
    ensures Holds(Exec(c, s, more).w, i, content)
  {
    if more != [] {
      hide Inv, Next, Holds;
      var init := more[..|more| - 1];
      HoldsStays(c, s, thread, init, i, content);
      ThreadRun(c, s, thread, init);
      HoldsOn(c, Exec(c, s, init), thread, more[|more| - 1].o, i, content);
    }
  }

  /** An operator confirms job `i`, and sees it through. */
  lemma Confirmed(c: Config, s: Sys, thread: nat, i: Id) returns (m: Sys, rest: seq<Action>)
    requires Inv(c, s) && Serving(s.pc) && thread !in s.confirms && i in s.w.db.jobs && Unresolved(s.w.db.jobs[i])
    ensures m == Next(c, s, Confirm(thread, i)) && Inv(c, m) && OfThread(rest, thread)
    ensures m == s.(w := Attest(s.w, i), confirms := s.confirms[thread := Confirmation(i, ConfirmWork, false)])
    ensures var w := Exec(c, m, rest).w; i in w.db.jobs && Terminal(w.db.jobs[i].state)
  {
    hide Inv, Evolves, WorkerStep, ConfirmNext;
    m := Next(c, s, Confirm(thread, i));
    StepSafe(c, s, Confirm(thread, i));
    hide Exec, Next;
    rest := FinishConfirm(c, m, thread, i);
  }

  // ---- A cancelled job ends as failed ----

  predicate FailedByExpiry(j: Job) {
    j.cancelRequested && j.artifactExpired && Outcome(j) == Some(Failed)
  }

  /** `Expire` comes to a cancelled job in review whose artifact has reached its expiry. */
  lemma MarkedInReview(c: Config, s: Sys, i: Id)
    requires InReview(s, i, Cancelled) && s.w.db.jobs[i].cancelRequested && s.w.db.jobs[i].id == i
    requires s.w.db.jobs[i].expiresAt.Some? && s.w.db.jobs[i].expiresAt.value <= s.w.now
    requires !s.w.db.jobs[i].artifactExpired
    ensures var a := Work(Good.(id := i));
      var m := Next(c, Next(c, Next(c, Next(c, s, a), a), a), a);
      && m.pc.SchedulerExpire? && m.confirms == s.confirms && i in m.w.db.jobs
      && Unresolved(m.w.db.jobs[i]) && FailedByExpiry(m.w.db.jobs[i])
  {
    hide Next;
    var o := Good.(id := i);
    ToLoop(c, s, o);
    var s2 := s.(pc := SchedulerExpire(Loop(s.w.db.jobs)));
    RemoveDue(c, s2, o, i);
    MarkRow(c, s2.(w := RemoveArtifact(s.w, i), pc := SchedulerExpire(Mark(s.w.db.jobs[i], s.w.db.jobs - {i}))), o);
  }

  lemma MarkedRun(c: Config, s: Sys, done: seq<Action>, i: Id) returns (more: seq<Action>, m: Sys)
    requires var n := Exec(c, s, done);
      && Inv(c, n) && InReview(n, i, Cancelled) && n.w.db.jobs[i].cancelRequested
      && n.w.db.jobs[i].expiresAt.Some? && n.w.now < n.w.db.jobs[i].expiresAt.value
    ensures m == Exec(c, s, more) && Inv(c, m) && m.pc.SchedulerExpire? && m.confirms == Exec(c, s, done).confirms
    ensures i in m.w.db.jobs && Unresolved(m.w.db.jobs[i]) && FailedByExpiry(m.w.db.jobs[i])
  {
    hide Inv, Exec, Next, FailedByExpiry;
    var n := Exec(c, s, done);
    Invariants(c, n, i);
    var tick := Tick(n.w.db.jobs[i].expiresAt.value - n.w.now);
    Ticked(c, n, tick.d);
    more, m := Go(c, s, done, tick);
    MarkedInReview(c, m, i);
    var a := Work(Good.(id := i));
    more, m := Go(c, s, more, a);
    more, m := Go(c, s, more, a);
    more, m := Go(c, s, more, a);
    more, m := Go(c, s, more, a);
  }

  lemma Ticked(c: Config, s: Sys, d: nat)
    ensures Next(c, s, Tick(d)) == s.(w := s.w.(now := s.w.now + d))
  {
  }

  /** From the queue to the last moment before cleanup. */
  lemma RunToCutoff(c: Config, content: Bytes) returns (acts: seq<Action>, i: Id)
    requires c.Valid() && c.CanComplete(content)
    ensures var m := Exec(c, Init, acts);
      && Inv(c, m) && AtCutoff(m, i) && m.confirms == map[] && Holds(m.w, i, content)
  {
    hide Inv, Next, Exec, NextUp, OnCourse, Leg;
    acts, i := RunToQueued(c);
    var s := Exec(c, Init, acts);
    NextUpLeg(c, s, i, content);
    var rest := Drive(c, s, i, content, 12);
    CutoffLeg(c, Exec(c, s, rest), i, content);
    ExecAppend(c, Init, acts, rest);
    acts := acts + rest;
  }

  lemma CutoffLeg(c: Config, s: Sys, i: Id, content: Bytes)
    requires Inv(c, s) && OnCourse(c, s, i, content) && Leg(s, i, content) == 12
    ensures AtCutoff(s, i) && Holds(s.w, i, content)
  {
    CourseFacts(c, s, i, content);
    hide Inv, EndingInv, AttemptInv, PublicationInv, SchedulerInv, RecoveryInv;
    EndingFacts(s);
  }

  /** A run in which a job whose cancellation was accepted ends as `Failed`. */
  lemma CancelledEndsFailed(c: Config, content: Bytes) returns (acts: seq<Action>, i: Id)
    requires c.Valid() && c.CanComplete(content)
    ensures var w := Exec(c, Init, acts).w;
      i in w.db.jobs && w.db.jobs[i].cancelRequested && w.db.jobs[i].state == Failed
  {
    hide Inv, Next, Exec, AtCutoff, FailedByExpiry;
    acts, i := RunToCutoff(c, content);
    var s := Exec(c, Init, acts);
    var late := CancelledLate(c, s, i, true);
    var more, m := MarkedRun(c, s, late, i);
    var n, rest := Confirmed(c, m, 0, i);
    EndsFailed(c, n, rest, i);
    ExecCons(c, m, Confirm(0, i), rest);
    ExecAppend(c, s, more, [Confirm(0, i)] + rest);
    ExecAppend(c, Init, acts, more + ([Confirm(0, i)] + rest));
    acts := acts + (more + ([Confirm(0, i)] + rest));
  }

  lemma EndsFailed(c: Config, n: Sys, rest: seq<Action>, i: Id)
    requires Inv(c, n) && OfThread(rest, 0) && i in n.w.db.jobs && FailedByExpiry(n.w.db.jobs[i])
    requires var w := Exec(c, n, rest).w; i in w.db.jobs && Terminal(w.db.jobs[i].state)
    ensures var w := Exec(c, n, rest).w; w.db.jobs[i].cancelRequested && w.db.jobs[i].state == Failed
  {
    hide Inv, Exec;
    FailedStays(c, n, 0, rest, i);
    RunLater(c, n, rest);
    assert RowLater(n.w.db.jobs[i], Exec(c, n, rest).w.db.jobs[i]);
  }

  // ---- A finished job keeps its artifact ----

  /** A run in which a job ends as `Cancelled` and its artifact is still stored. */
  lemma CancelledKeepsArtifact(c: Config, content: Bytes) returns (acts: seq<Action>, i: Id)
    requires c.Valid() && c.CanComplete(content)
    ensures var w := Exec(c, Init, acts).w;
      i in w.db.jobs && w.db.jobs[i].state == Cancelled && i in w.fs.artifacts && w.fs.artifacts[i] == content
  {
    hide Inv, Next, Exec, AtCutoff;
    acts, i := RunToCutoff(c, content);
    var s := Exec(c, Init, acts);
    var late := CancelledLate(c, s, i, false);
    var m := Exec(c, s, late);
    var n, rest := Confirmed(c, m, 0, i);
    HoldsStays(c, n, 0, rest, i, content);
    EndsCancelled(c, n, rest, i, content);
    ExecCons(c, m, Confirm(0, i), rest);
    ExecAppend(c, s, late, [Confirm(0, i)] + rest);
    ExecAppend(c, Init, acts, late + ([Confirm(0, i)] + rest));
    acts := acts + (late + ([Confirm(0, i)] + rest));
  }

  lemma EndsCancelled(c: Config, n: Sys, rest: seq<Action>, i: Id, content: Bytes)
    requires Inv(c, n) && OfThread(rest, 0) && i in n.w.db.jobs && Outcome(n.w.db.jobs[i]) == Some(Cancelled)
    requires var w := Exec(c, n, rest).w; Holds(w, i, content) && Terminal(w.db.jobs[i].state)
    ensures Exec(c, n, rest).w.db.jobs[i].state == Cancelled
  {
    hide Inv, Exec;
    var m := Exec(c, n, rest);
    RunLater(c, n, rest);
    assert RowLater(n.w.db.jobs[i], m.w.db.jobs[i]);
    Invariants(c, m, i);
  }

  // ---- An outcome written over a mark ----

  /** From rest, a further job to the moment before its cleanup pass ends unconfirmed. */
  lemma ToFailedPass(c: Config, s: Sys, content: Bytes) returns (more: seq<Action>, i: Id)
    requires Inv(c, s) && AtRest(s) && c.Valid() && c.CanComplete(content)
    ensures var m := Exec(c, s, more);
      && Inv(c, m) && m.pc == CleanFinish(i, Completed, false, Listing)
      && i in m.w.db.jobs && m.w.db.jobs[i].state == Cleaning && !m.w.db.jobs[i].artifactExpired
      && m.w.db.jobs[i].expiresAt.Some?
      && m.confirms == s.confirms && m.upload == s.upload && i !in s.w.db.jobs
      && m.w.db.jobs.Keys == s.w.db.jobs.Keys + {i}
  {
    hide Inv, Next, NextUp, OnCourse, Leg;
    assert Exec(c, s, []) == s;
    hide Exec;
    var m;
    i := Enter(c, s);
    more, m := Go(c, s, [], Submit(i, Installed));
    NextUpLeg(c, m, i, content);
    var rest := Drive(c, m, i, content, 8);
    PassLeg(c, Exec(c, m, rest), i, content);
    ExecAppend(c, s, more, rest);
    more := more + rest;
  }

  lemma PassLeg(c: Config, s: Sys, i: Id, content: Bytes)
    requires Inv(c, s) && OnCourse(c, s, i, content) && Leg(s, i, content) == 8
    ensures s.pc == CleanFinish(i, Completed, false, Listing)
    ensures i in s.w.db.jobs && s.w.db.jobs[i].state == Cleaning && !s.w.db.jobs[i].artifactExpired
    ensures s.w.db.jobs[i].expiresAt.Some?
  {
    CourseFacts(c, s, i, content);
    Outcomes.HeldRow(c, s);
    hide Inv, PcInv;
  }

  /** One job in review, confirmed twice: the first confirmation has resolved it, the
      second has just begun. */
  lemma TwiceConfirmed(c: Config, s: Sys, i: Id) returns (more: seq<Action>)
    requires Inv(c, s) && InReview(s, i, Completed) && s.confirms == map[] && s.w.db.jobs.Keys == {i}
    requires s.upload.NoUpload?
    ensures var m := Exec(c, s, more);
      && Inv(c, m) && AtRest(m) && 1 in m.confirms && m.confirms[1] == Confirmation(i, ConfirmWork, false)
  {
    hide Inv, Next, Evolves;
    var a := Confirm(1, i);
    ConfirmJoins(c, s, 1, i);
    StepSafe(c, s, a);
    var m := Next(c, s, a);
    var n, rest := Confirmed(c, m, 0, i);
    ThreadRun(c, n, 0, rest);
    hide Exec, OfThread;
    ExecCons(c, m, Confirm(0, i), rest);
    ExecCons(c, s, a, [Confirm(0, i)] + rest);
    more := [a] + ([Confirm(0, i)] + rest);
  }

  lemma ConfirmJoins(c: Config, s: Sys, thread: nat, i: Id)
    requires Serving(s.pc) && thread !in s.confirms && i in s.w.db.jobs && Unresolved(s.w.db.jobs[i])
    ensures Next(c, s, Confirm(thread, i)) ==
            s.(w := Attest(s.w, i), confirms := s.confirms[thread := Confirmation(i, ConfirmWork, false)])
  {
    hide WorkerStep, ConfirmNext;
  }

  /** A run to rest with a confirmation in flight whose job is already finished. */
  lemma LeftoverConfirmation(c: Config, content: Bytes) returns (acts: seq<Action>, i: Id)
    requires c.Valid() && c.CanComplete(content)
    ensures var m := Exec(c, Init, acts);
      && Inv(c, m) && AtRest(m) && 1 in m.confirms && m.confirms[1] == Confirmation(i, ConfirmWork, false)
  {
    hide Inv, Next, Exec, InReview;
    acts := ServiceUp(c);
    var s := Exec(c, Init, acts);
    hide AtRest;
    var pass;
    pass, i := ToFailedPass(c, s, content);
    var more, m := ToReview(c, s, pass, i, Completed, false);
    ReviewRow(m, i, Completed);
    var twice := TwiceConfirmed(c, m, i);
    ExecAppend(c, s, more, twice);
    ExecAppend(c, Init, acts, more + twice);
    acts := acts + (more + twice);
  }

  /** A run in which a committed outcome goes from `Failed` back to `Completed`: a mark of
      `Expire`, made by a confirmation of a job long finished, is overwritten by the
      quarantine of the job that was marked. */
  lemma OutcomeGoesBack(c: Config, content: Bytes) returns (acts: seq<Action>, a: Action, i: Id)
    requires c.Valid() && c.CanComplete(content)
    ensures var w := Exec(c, Init, acts).w;
      i in w.db.jobs && Outcome(w.db.jobs[i]) == Some(Failed)
    ensures var w := Exec(c, Init, acts + [a]).w;
      i in w.db.jobs && Outcome(w.db.jobs[i]) == Some(Completed)
  {
    hide Inv, Next, Exec, AtRest;
    var first;
    acts, first := LeftoverConfirmation(c, content);
    var s := Exec(c, Init, acts);
    var pass, m;
    pass, i := ToFailedPass(c, s, content);
    NoAnswer(c, Exec(c, s, pass), i, Completed, false);
    pass, m := Go(c, s, pass, Work(Bad));
    var env := Stale.MarkPossible(c, m, 1, i);
    ExecAppend(c, s, pass, env);
    ExecAppend(c, Init, acts, pass + env);
    acts, a := acts + (pass + env), Work(Good);
    Reachable(c, acts);
    Stale.WriteTakes(c, Exec(c, Init, acts), i);
    ExecAppend(c, Init, acts, [a]);
    ExecOne(c, Exec(c, Init, acts), a);
  }
}
