/** Exactly when the worker can write an outcome over a mark of `Expire`. */
module Stale {
  import opened Model
  import opened Protocol
  import opened Execution
  import opened Invariant
  import opened Safety
  import opened Outcomes

  /** Of these rows, job `i` can still be marked as expired in cleanup. */
  predicate Markable(todo: map<Id, Job>, i: Id) {
    i in todo && todo[i].state == Cleaning && todo[i].expiresAt.Some? && !todo[i].artifactExpired
  }

  predicate BeforeSnapshot(stage: ConfirmStage) {
    stage.ConfirmWork? || stage.ConfirmInput? || stage.ConfirmTemp?
    || (stage.ConfirmExpire? && stage.e.Snapshot?)
  }

  /** This `Expire` has taken its snapshot, and has the mark of job `i` before it. */
  predicate HasMark(e: Expiry, i: Id) {
    match e
    case Snapshot => false
    case Loop(todo) => Markable(todo, i)
    case Mark(row, rest) => (row.id == i && row.state == Cleaning) || Markable(rest, i)
  }

  /** The job can still come to be marked by a snapshot that is yet to be taken. */
  predicate Unmarked(j: Job) {
    j.expiresAt.Some? && !j.artifactExpired
  }

  /** The confirmation has the mark of job `i` before it, or will take its snapshot while
      that row `j` is unmarked. */
  predicate CanMark(cf: Confirmation, j: Job, i: Id) {
    if BeforeSnapshot(cf.stage) then (cf.stage.ConfirmExpire? || !cf.bad) && Unmarked(j)
    else cf.stage.ConfirmExpire? && HasMark(cf.stage.e, i)
  }

  /** The next write of the worker puts its outcome in the place of the mark's. */
  predicate Overmarked(s: Sys, i: Id) {
    Writing(s.pc, i) && s.pc.desired != Failed
    && i in s.w.db.jobs && Outcome(s.w.db.jobs[i]) == Some(Failed)
  }

  ghost predicate OnlyApi(env: seq<Action>) {
    forall k :: 0 <= k < |env| ==> Api(env[k])
  }

  // ---- Nobody can mark ----

  ghost predicate Quiet(s: Sys, i: Id) {
    Writing(s.pc, i) && i in s.w.db.jobs && s.w.db.jobs[i].pending == Some(s.pc.desired)
    && forall k :: k in s.confirms ==> !CanMark(s.confirms[k], s.w.db.jobs[i], i)
  }

  /** The row keeps its outcome, and does not become unmarked. */
  predicate Untouched(j: Job, j': Job) {
    j'.state == j.state && j'.cleanupError == j.cleanupError && j'.pending == j.pending
    && j'.cancelRequested == j.cancelRequested && j'.expiresAt == j.expiresAt
    && (j.artifactExpired ==> j'.artifactExpired)
  }

  lemma QuietExpiry(w: World, e: Expiry, o: Oracle, i: Id)
    requires ScanOk(w, e) && !HasMark(e, i) && i in w.db.jobs && (e.Snapshot? ==> !Unmarked(w.db.jobs[i]))
    ensures var x := ExpiryNext(w, e, o);
      && i in x.w.db.jobs && Untouched(w.db.jobs[i], x.w.db.jobs[i])
      && (x.ExpiryMore? ==> !HasMark(x.e, i) && !x.e.Snapshot?)
  {
    if e.Loop? && o.id in e.todo {
      assert SnapOk(w, o.id, e.todo[o.id]);
    }
  }

  lemma QuietConfirm(w: World, cf: Confirmation, o: Oracle, i: Id)
    requires i in w.db.jobs && ConfirmOk(w, cf) && !CanMark(cf, w.db.jobs[i], i) && !Unresolved(w.db.jobs[i])
    ensures var x := ConfirmNext(w, cf, o);
      && i in x.w.db.jobs && Untouched(w.db.jobs[i], x.w.db.jobs[i])
      && (x.ConfirmMore? ==> !CanMark(x.cf, x.w.db.jobs[i], i))
  {
    if cf.stage.ConfirmExpire? {
      QuietExpiry(w, cf.stage.e, o, i);
      hide ExpiryNext;
    }
  }

  lemma WritingState(c: Config, s: Sys, i: Id)
    requires Inv(c, s) && Writing(s.pc, i)
    ensures i in s.w.db.jobs && s.w.db.jobs[i].state == Cleaning && Terminal(s.pc.desired)
    ensures DesiredOk(s.w, i, s.pc.desired)
    ensures forall j :: j in s.w.db.jobs ==> !Unresolved(s.w.db.jobs[j])
  {
    hide RowsOk, FilesOk, OpsOk, ConfirmOk, PcInv, DeviceOk;
    HoldingRow(c, s.w, s.pc);
    NoReviews(s.w, i, Cleaning);
  }

  lemma QuietStep(c: Config, s: Sys, a: Action, i: Id)
    requires Inv(c, s) && Quiet(s, i) && Api(a)
    ensures Quiet(Next(c, s, a), i)
  {
    hide Inv, DesiredOk, WorkerStep, ConfirmNext, CanMark, ConfirmOk;
    WritingState(c, s, i);
    match a
    case ConfirmWith(thread, o) =>
      if thread in s.confirms {
        ThreadOk(c, s, thread);
        QuietConfirm(s.w, s.confirms[thread], o, i);
        StillCannot(s.confirms, s.w.db.jobs[i], Next(c, s, a).w.db.jobs[i], i);
      }
    case _ =>
  }

  lemma StillCannot(confirms: map<nat, Confirmation>, j: Job, j': Job, i: Id)
    requires Untouched(j, j')
    ensures forall k :: k in confirms && !CanMark(confirms[k], j, i) ==> !CanMark(confirms[k], j', i)
  {
    hide HasMark, BeforeSnapshot;
  }

  lemma ThreadOk(c: Config, s: Sys, thread: nat)
    requires Inv(c, s) && thread in s.confirms
    ensures ConfirmOk(s.w, s.confirms[thread])
  {
    hide WorldInv, PcInv, ConfirmOk;
  }

  lemma {:induction false} QuietRun(c: Config, s: Sys, env: seq<Action>, i: Id)
    requires Inv(c, s) && Quiet(s, i) && OnlyApi(env)
    ensures Inv(c, Exec(c, s, env)) && Quiet(Exec(c, s, env), i)
  {
    if env != [] {
      hide Inv, Quiet, Next, Evolves;
      var m := Exec(c, s, env[..|env| - 1]);
      QuietRun(c, s, env[..|env| - 1], i);
      QuietStep(c, m, env[|env| - 1], i);
      StepSafe(c, m, env[|env| - 1]);
    }
  }

  lemma QuietKeeps(c: Config, s: Sys, env: seq<Action>, i: Id)
    requires Inv(c, s) && Quiet(s, i) && OnlyApi(env)
    ensures !Overmarked(Exec(c, s, env), i)
  {
    hide Inv, Exec;
    QuietRun(c, s, env, i);
    WritingState(c, Exec(c, s, env), i);
  }

  // ---- Somebody can ----

  function Distance(cf: Confirmation, i: Id): nat {
    match cf.stage
    case ConfirmWork => 7
    case ConfirmInput => 6
    case ConfirmTemp => 5
    case ConfirmExpire(e) =>
      (match e
       case Snapshot => 4
       case Mark(row, _) => if row.id == i && row.state == Cleaning then 1 else 3
       case Loop(_) => 2)
    case ConfirmResolve => 0
  }

  /** The clock has reached the expiry of job `i`, and this confirmation can mark it. */
  ghost predicate Ripe(s: Sys, thread: nat, i: Id) {
    && Writing(s.pc, i) && s.pc.desired != Failed
    && i in s.w.db.jobs && s.w.db.jobs[i].state == Cleaning
    && s.w.db.jobs[i].expiresAt.Some? && s.w.db.jobs[i].expiresAt.value <= s.w.now
    && thread in s.confirms && CanMark(s.confirms[thread], s.w.db.jobs[i], i)
  }

  lemma RipeExpiry(w: World, e: Expiry, i: Id)
    requires ScanOk(w, e) && i in w.db.jobs && w.db.jobs[i].state == Cleaning && w.db.jobs[i].id == i
    requires w.db.jobs[i].expiresAt.Some? && w.db.jobs[i].expiresAt.value <= w.now
    requires if e.Snapshot? then !w.db.jobs[i].artifactExpired else HasMark(e, i)
    ensures var x := ExpiryNext(w, e, Answer(true, false, false).(id := i));
      && x.ExpiryMore? && i in x.w.db.jobs && x.w.now == w.now
      && x.w.db.jobs[i].state == Cleaning && x.w.db.jobs[i].expiresAt == w.db.jobs[i].expiresAt
      && if e.Mark? && e.row.id == i && e.row.state == Cleaning then x.w.db.jobs[i].pending == Some(Failed)
         else HasMark(x.e, i)
              && Distance(Confirmation(0, ConfirmExpire(x.e), false), i)
                 < Distance(Confirmation(0, ConfirmExpire(e), false), i)
              && !x.e.Snapshot?
  {
    if e.Loop? {
      assert SnapOk(w, i, e.todo[i]);
    }
  }

  lemma RipeStep(c: Config, s: Sys, thread: nat, i: Id)
    requires Inv(c, s) && Ripe(s, thread, i)
    ensures var m := Next(c, s, ConfirmWith(thread, Answer(true, false, false).(id := i)));
      m.pc == s.pc
      && if Distance(s.confirms[thread], i) == 1 then Overmarked(m, i)
         else Ripe(m, thread, i) && Distance(m.confirms[thread], i) < Distance(s.confirms[thread], i)
  {
    hide Inv, PcInv, RowOk, WorkerStep, ConfirmOk, ConfirmNext;
    StateParts(c, s, i);
    ThreadOk(c, s, thread);
    RipeConfirm(s.w, s.confirms[thread], i);
  }

  lemma RipeConfirm(w: World, cf: Confirmation, i: Id)
    requires i in w.db.jobs && ConfirmOk(w, cf) && CanMark(cf, w.db.jobs[i], i) && RowOk(w.db.jobs[i], i, w.now)
    requires w.db.jobs[i].state == Cleaning
    requires w.db.jobs[i].expiresAt.Some? && w.db.jobs[i].expiresAt.value <= w.now
    ensures var x := ConfirmNext(w, cf, Answer(true, false, false).(id := i));
      && x.ConfirmMore? && i in x.w.db.jobs && x.w.now == w.now
      && x.w.db.jobs[i].state == Cleaning && x.w.db.jobs[i].expiresAt == w.db.jobs[i].expiresAt
      && if Distance(cf, i) == 1 then x.w.db.jobs[i].pending == Some(Failed)
         else CanMark(x.cf, x.w.db.jobs[i], i) && Distance(x.cf, i) < Distance(cf, i)
  {
    if cf.stage.ConfirmExpire? {
      RipeExpiry(w, cf.stage.e, i);
      hide ExpiryNext, ScanOk;
    }
    hide RowOk, CleanOps;
  }

  lemma {:induction false} MarkBy(c: Config, s: Sys, thread: nat, i: Id) returns (env: seq<Action>)
    requires Inv(c, s) && Ripe(s, thread, i)
    ensures OnlyApi(env) && Overmarked(Exec(c, s, env), i) && Exec(c, s, env).pc == s.pc
    decreases Distance(s.confirms[thread], i)
  {
    hide Inv, Next, Evolves, Ripe, Overmarked;
    assert thread in s.confirms by {
      RipeThread(s, thread, i);
    }
    var a := ConfirmWith(thread, Answer(true, false, false).(id := i));
    RipeStep(c, s, thread, i);
    if Distance(s.confirms[thread], i) == 1 {
      env := [a];
      ExecOne(c, s, a);
    } else {
      StepSafe(c, s, a);
      var rest := MarkBy(c, Next(c, s, a), thread, i);
      hide Exec;
      env := [a] + rest;
      ExecCons(c, s, a, rest);
    }
  }

  lemma RipeThread(s: Sys, thread: nat, i: Id)
    requires Ripe(s, thread, i)
    ensures thread in s.confirms
  {
  }

  /** From here the other threads can bring a mark about that the worker's write replaces. */
  lemma MarkPossible(c: Config, s: Sys, thread: nat, i: Id) returns (env: seq<Action>)
    requires Inv(c, s) && Writing(s.pc, i) && s.pc.desired != Failed && i in s.w.db.jobs
    requires thread in s.confirms && CanMark(s.confirms[thread], s.w.db.jobs[i], i)
    ensures OnlyApi(env) && Overmarked(Exec(c, s, env), i) && Exec(c, s, env).pc == s.pc
  {
    hide Inv, Evolves, DesiredOk, CanMark, Ripe, Next, Exec, Overmarked, OnlyApi;
    WritingState(c, s, i);
    ThreadOk(c, s, thread);
    MarkExpires(s.w, s.confirms[thread], i);
    var a := Tick(Until(s, i));
    StepSafe(c, s, a);
    RipeLater(c, s, thread, i);
    var rest := MarkBy(c, Next(c, s, a), thread, i);
    env := [a] + rest;
    ExecCons(c, s, a, rest);
    MoreApi(a, rest);
  }

  lemma MarkExpires(w: World, cf: Confirmation, i: Id)
    requires i in w.db.jobs && ConfirmOk(w, cf) && CanMark(cf, w.db.jobs[i], i)
    ensures w.db.jobs[i].expiresAt.Some?
  {
    hide CleanOps;
  }

  /** The time left to the expiry of the job. */
  function Until(s: Sys, i: Id): nat
    requires i in s.w.db.jobs && s.w.db.jobs[i].expiresAt.Some?
  {
    var e := s.w.db.jobs[i].expiresAt.value;
    if s.w.now < e then e - s.w.now else 0
  }

  lemma RipeLater(c: Config, s: Sys, thread: nat, i: Id)
    requires Writing(s.pc, i) && s.pc.desired != Failed
    requires i in s.w.db.jobs && s.w.db.jobs[i].state == Cleaning
    requires s.w.db.jobs[i].expiresAt.Some?
    requires thread in s.confirms && CanMark(s.confirms[thread], s.w.db.jobs[i], i)
    ensures var m := Next(c, s, Tick(Until(s, i))); Ripe(m, thread, i) && m.pc == s.pc
  {
    hide CanMark, WorkerStep, ConfirmNext;
  }

  lemma MoreApi(a: Action, rest: seq<Action>)
    requires Api(a) && OnlyApi(rest)
    ensures OnlyApi([a] + rest)
  {
  }

  /** The write that follows takes place: `Failed` becomes what the worker holds. */
  lemma WriteTakes(c: Config, s: Sys, i: Id)
    requires Inv(c, s) && Writing(s.pc, i)
    ensures var w' := Next(c, s, Work(Answer(true, false, false))).w;
      i in w'.db.jobs && Outcome(w'.db.jobs[i]) == Some(s.pc.desired)
  {
    hide Inv, DesiredOk, RecoveryStep, AttemptStep, PublicationStep, EndingStep, SchedulerStep;
    WritingState(c, s, i);
    WriteStep(s.w, s.pc, i);
  }

  lemma WriteStep(w: World, pc: Pc, i: Id)
    requires Writing(pc, i) && i in w.db.jobs && w.db.jobs[i].state == Cleaning && Terminal(pc.desired)
    ensures var w' := EndingStep(w, pc, Answer(true, false, false)).0;
      i in w'.db.jobs && Outcome(w'.db.jobs[i]) == Some(pc.desired)
  {
    hide PassNext, ExpiryNext;
  }

  /** At the step that writes an outcome other than `Failed`: the write can come to replace
      a mark of `Expire` exactly when the mark stands already, or some confirmation in
      flight can still make it. */
  lemma StaleWriteExactly(c: Config, s: Sys, i: Id)
    requires Inv(c, s) && Writing(s.pc, i) && s.pc.desired != Failed && i in s.w.db.jobs
    ensures (exists env: seq<Action> :: OnlyApi(env) && Overmarked(Exec(c, s, env), i))
            <==> Overmarked(s, i) || exists k :: k in s.confirms && CanMark(s.confirms[k], s.w.db.jobs[i], i)
  {
    if Overmarked(s, i) {
      NoSteps(c, s, i);
    } else if k :| k in s.confirms && CanMark(s.confirms[k], s.w.db.jobs[i], i) {
      var env := MarkPossible(c, s, k, i);
    } else {
      WritingState(c, s, i);
      assert Quiet(s, i);
      forall env: seq<Action> | OnlyApi(env) ensures !Overmarked(Exec(c, s, env), i) {
        QuietKeeps(c, s, env, i);
      }
    }
  }

  lemma NoSteps(c: Config, s: Sys, i: Id)
    requires Overmarked(s, i)
    ensures exists env: seq<Action> :: OnlyApi(env) && Overmarked(Exec(c, s, env), i)
  {
    assert OnlyApi([]) && Exec(c, s, []) == s;
  }
}
