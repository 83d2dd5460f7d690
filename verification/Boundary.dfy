/** The instant of expiry: the download check and `Expire` disagree there, and only there. */
module Boundary {
  import opened Model
  import opened Transactions
  import opened Protocol
  import opened Execution
  import opened Invariant
  import opened Safety
  import opened Runs
  import opened Restart
  import opened Theorems

  /** The check passes at time `t`, and there is no file to serve. */
  predicate Missing(w: World, i: Id, t: Time) {
    w.now == t && i in w.db.jobs && DownloadGuard(w.db.jobs[i], t) && i !in w.fs.artifacts
  }

  predicate Unexpired(w: World, i: Id) {
    i in w.db.jobs && w.db.jobs[i].state == Completed && !w.db.jobs[i].artifactExpired
    && w.db.jobs[i].expiresAt.Some? && w.now <= w.db.jobs[i].expiresAt.value
  }

  // ---- The scheduler's `Expire`, step by step ----

  lemma SchedulerNext(c: Config, s: Sys, o: Oracle)
    requires s.pc.Idle? || s.pc.SchedulerExpire?
    ensures Next(c, s, Work(o)) == s.(w := SchedulerStep(s.w, s.pc, o).0, pc := SchedulerStep(s.w, s.pc, o).1)
  {
    hide SchedulerStep, ConfirmNext;
  }

  lemma ToLoop(c: Config, s: Sys, o: Oracle)
    requires s.pc.Idle? && o.ok && !o.late
    ensures Next(c, Next(c, s, Work(o)), Work(o)) == s.(pc := SchedulerExpire(Loop(s.w.db.jobs)))
  {
    SchedulerNext(c, s, o);
    SchedulerNext(c, Next(c, s, Work(o)), o);
    hide Next;
  }

  lemma RemoveDue(c: Config, s: Sys, o: Oracle, i: Id)
    requires s.pc.SchedulerExpire? && s.pc.e.Loop? && i in s.pc.e.todo && o.ok && o.id == i
    requires Due(s.pc.e.todo[i], s.w.now) && s.pc.e.todo[i].id == i
    ensures Next(c, s, Work(o)) ==
            s.(w := RemoveArtifact(s.w, i), pc := SchedulerExpire(Mark(s.pc.e.todo[i], s.pc.e.todo - {i})))
  {
    SchedulerNext(c, s, o);
    hide Next;
  }

  lemma MarkRow(c: Config, s: Sys, o: Oracle)
    requires s.pc.SchedulerExpire? && s.pc.e.Mark? && o.ok
    ensures Next(c, s, Work(o)) ==
            s.(w := s.w.(db := ExpiredTx(s.w.db, s.pc.e.row)), pc := SchedulerExpire(Loop(s.pc.e.rest)))
  {
    SchedulerNext(c, s, o);
    hide Next;
  }

  /** The scheduler's `Expire` comes to row `i` at this very instant. */
  lemma RemovedAtExpiry(c: Config, s: Sys, i: Id)
    requires s.pc.Idle? && Unexpired(s.w, i) && s.w.db.jobs[i].expiresAt == Some(s.w.now)
    requires s.w.db.jobs[i].id == i
    ensures var o := Answer(true, false, false).(id := i);
      Missing(Next(c, Next(c, Next(c, s, Work(o)), Work(o)), Work(o)).w, i, s.w.now)
  {
    hide Next;
    var o := Answer(true, false, false).(id := i);
    ToLoop(c, s, o);
    RemoveDue(c, s.(pc := SchedulerExpire(Loop(s.w.db.jobs))), o, i);
  }

  lemma Thrice(c: Config, s: Sys, a: Action)
    ensures Exec(c, s, [a, a, a]) == Next(c, Next(c, Next(c, s, a), a), a)
  {
    hide Next;
    var m := Next(c, s, a);
    assert [a, a, a] == [a] + ([a] + [a]);
    ExecCons(c, s, a, [a] + [a]);
    ExecCons(c, m, a, [a]);
    ExecOne(c, Next(c, m, a), a);
  }

  function Until(w: World, i: Id): nat
    requires Unexpired(w, i)
  {
    w.db.jobs[i].expiresAt.value - w.now
  }

  /** From every idle moment, while a job can be downloaded, the service can come to the
      point where the check passes and the file is gone. */
  lemma GapFrom(c: Config, s: Sys, i: Id) returns (more: seq<Action>)
    requires Inv(c, s) && s.pc.Idle? && Unexpired(s.w, i)
    ensures Missing(Exec(c, s, more).w, i, s.w.db.jobs[i].expiresAt.value)
  {
    hide Inv, Exec, WorkerStep, ConfirmNext, Missing;
    Invariants(c, s, i);
    var a, tick := Work(Answer(true, false, false).(id := i)), Tick(Until(s.w, i));
    RemovedAtExpiry(c, Next(c, s, tick), i);
    Thrice(c, Next(c, s, tick), a);
    more := [tick] + [a, a, a];
    ExecCons(c, s, tick, [a, a, a]);
  }

  /** From every moment before expiry, by way of a restart. */
  lemma GapFromAnywhere(c: Config, s: Sys, i: Id) returns (more: seq<Action>)
    requires Inv(c, s) && Unexpired(s.w, i) && s.w.now < s.w.db.jobs[i].expiresAt.value
    ensures Missing(Exec(c, s, more).w, i, s.w.db.jobs[i].expiresAt.value)
  {
    hide Inv, Exec, Next, Missing, Evolves;
    StepSafe(c, s, Crash);
    var down := Next(c, s, Crash);
    Crashed(c, s);
    var first := FinishRecovery(c, down);
    RunLater(c, down, first);
    var ready := Exec(c, down, first);
    var a := Work(Answer(true, false, false));
    StepSafe(c, ready, a);
    WorkKeepsClock(c, down, first);
    Begins(c, ready);
    StillUnexpired(c, down, ready, i);
    var rest := GapFrom(c, Next(c, ready, a), i);
    more := [Crash] + (first + ([a] + rest));
    ExecCons(c, s, Crash, first + ([a] + rest));
    ExecAppend(c, down, first, [a] + rest);
    ExecCons(c, ready, a, rest);
  }

  lemma Crashed(c: Config, s: Sys)
    ensures Next(c, s, Crash).pc.Down? && Next(c, s, Crash).w.db == s.w.db && Next(c, s, Crash).w.now == s.w.now
  {
  }

  lemma Begins(c: Config, s: Sys)
    requires s.pc.Ready?
    ensures var m := Next(c, s, Work(Answer(true, false, false))); m.pc.Idle? && m.w == s.w
  {
  }

  lemma StillUnexpired(c: Config, s: Sys, m: Sys, i: Id)
    requires Inv(c, m) && Later(s.w, m.w) && m.w.now == s.w.now
    requires Unexpired(s.w, i) && s.w.now < s.w.db.jobs[i].expiresAt.value
    ensures Unexpired(m.w, i) && m.w.db.jobs[i].expiresAt == s.w.db.jobs[i].expiresAt
  {
    hide Inv;
    assert RowLater(s.w.db.jobs[i], m.w.db.jobs[i]);
    Invariants(c, m, i);
  }

  lemma {:induction false} WorkKeepsClock(c: Config, s: Sys, more: seq<Action>)
    requires forall k :: 0 <= k < |more| ==> more[k].Work?
    ensures Exec(c, s, more).w.now == s.w.now
  {
    if more != [] {
      hide Next;
      WorkKeepsClock(c, s, more[..|more| - 1]);
      ClockStep(c, Exec(c, s, more[..|more| - 1]), more[|more| - 1].o);
    }
  }

  lemma ClockStep(c: Config, s: Sys, o: Oracle)
    ensures Next(c, s, Work(o)).w.now == s.w.now
  {
    hide PassNext, ExpiryNext;
    PassClock(s.w, s.pc, o);
    ExpiryClock(s.w, s.pc, o);
  }

  lemma PassClock(w: World, pc: Pc, o: Oracle)
    ensures InPass(pc) ==> PassNext(w, pc.id, pc.pass, o).w.now == w.now
  {
  }

  lemma ExpiryClock(w: World, pc: Pc, o: Oracle)
    ensures InExpiry(pc) ==> ExpiryNext(w, pc.e, o).w.now == w.now
  {
  }

  lemma PresentBefore(c: Config, s: Sys, more: seq<Action>, i: Id, t: Time)
    requires Inv(c, s) && Unexpired(s.w, i) && t < s.w.db.jobs[i].expiresAt.value
    ensures !Missing(Exec(c, s, more).w, i, t)
  {
    hide Exec, PcInv, ConfirmOk;
    var w := Exec(c, s, more).w;
    RunLater(c, s, more);
    assert RowLater(s.w.db.jobs[i], w.db.jobs[i]);
    hide RowsOk, DeviceOk, OpsOk;
    assert FileOk(c, w, i);
  }

  /** Seen from any moment before expiry, for a time `t` at which the check will pass: the
      file is certain to be there at `t`, whatever happens, exactly when `t` lies
      before the expiry. */
  lemma CertainExactly(c: Config, s: Sys, i: Id, t: Time)
    requires Inv(c, s) && Unexpired(s.w, i) && s.w.now < s.w.db.jobs[i].expiresAt.value
    requires s.w.now <= t <= s.w.db.jobs[i].expiresAt.value
    ensures (forall more: seq<Action> :: !Missing(Exec(c, s, more).w, i, t))
            <==> t < s.w.db.jobs[i].expiresAt.value
  {
    hide Inv, Exec, Missing;
    if t < s.w.db.jobs[i].expiresAt.value {
      forall more: seq<Action> ensures !Missing(Exec(c, s, more).w, i, t) {
        PresentBefore(c, s, more, i, t);
      }
    } else {
      var more := GapFromAnywhere(c, s, i);
    }
  }
}
