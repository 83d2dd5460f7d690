/** Runs of the machine, as sequences of steps. */
module Execution {
  import opened Model
  import opened Transactions
  import opened Protocol
  import Engine

  /** Running a first part and then a second is running both. */
  lemma {:induction false} ExecAppend(c: Config, s: Sys, a: seq<Action>, b: seq<Action>)
    ensures Exec(c, s, a + b) == Exec(c, Exec(c, s, a), b)
  {
    if b == [] {
      assert a + b == a;
    } else {
      hide Next;
      assert (a + b)[..|a + b| - 1] == a + b[..|b| - 1];
      ExecAppend(c, s, a, b[..|b| - 1]);
    }
  }

  lemma ExecOne(c: Config, s: Sys, a: Action)
    ensures Exec(c, s, [a]) == Next(c, s, a)
  {
    hide Next;
    assert [a][..0] == [];
    assert Exec(c, s, []) == s;
  }

  /** One step, then the rest. */
  lemma ExecCons(c: Config, s: Sys, a: Action, rest: seq<Action>)
    ensures Exec(c, s, [a] + rest) == Exec(c, Next(c, s, a), rest)
  {
    hide Next;
    ExecOne(c, s, a);
    ExecAppend(c, s, [a], rest);
  }

  /** An oracle for a step that asks only whether it succeeds and whether its context has ended. */
  function Answer(ok: bool, late: bool, alt: bool): Oracle {
    Oracle(ok, late, alt, 0, 0, [], NoCode, Engine.Call(None, None, false))
  }

  /** What the other threads may do. */
  predicate Api(a: Action) {
    !a.Work? && !a.Crash?
  }

  lemma ApiStep(c: Config, s: Sys, a: Action)
    requires Api(a)
    ensures Next(c, s, a).pc == s.pc && s.w.now <= Next(c, s, a).w.now
  {
    hide ConfirmNext;
    if a.ConfirmWith? && a.thread in s.confirms {
      ConfirmKeepsClock(s.w, s.confirms[a.thread], a.o);
    }
  }

  lemma ConfirmKeepsClock(w: World, cf: Confirmation, o: Oracle)
    ensures ConfirmNext(w, cf, o).w.now == w.now
  {
  }

  lemma {:induction false} ApiKeepsPc(c: Config, s: Sys, env: seq<Action>)
    requires forall k :: 0 <= k < |env| ==> Api(env[k])
    ensures Exec(c, s, env).pc == s.pc && s.w.now <= Exec(c, s, env).w.now
  {
    if env != [] {
      var init := env[..|env| - 1];
      ApiKeepsPc(c, s, init);
      ApiStep(c, Exec(c, s, init), env[|env| - 1]);
    }
  }

  // ---- Rows stay under their primary key ----

  ghost predicate Keyed(db: Db) {
    forall i :: i in db.jobs ==> db.jobs[i].id == i
  }

  lemma ExpiryKeyed(w: World, e: Expiry, o: Oracle)
    requires Keyed(w.db)
    ensures Keyed(ExpiryNext(w, e, o).w.db)
  {
  }

  lemma ResolveKeyed(db: Db, id: Id)
    requires Keyed(db) && ResolveTx(db, id).Ok?
    ensures Keyed(ResolveTx(db, id).value)
  {
  }

  lemma ConfirmKeyed(w: World, cf: Confirmation, o: Oracle)
    requires Keyed(w.db)
    ensures Keyed(ConfirmNext(w, cf, o).w.db)
  {
    if cf.stage.ConfirmExpire? {
      ExpiryKeyed(w, cf.stage.e, o);
    } else if cf.stage.ConfirmResolve? && ResolveTx(w.db, cf.id).Ok? {
      ResolveKeyed(w.db, cf.id);
    }
    hide ExpiryNext, ResolveTx;
  }

  lemma RecoveryKeyed(w: World, pc: Pc, o: Oracle)
    requires Keyed(w.db) && (pc.Down? || Recovering(pc))
    ensures Keyed(RecoveryStep(w, pc, o).0.db)
  {
    if pc.RecoverExpire? {
      ExpiryKeyed(w, pc.e, o);
    } else if pc.RecoverResolve? && ResolveTx(w.db, pc.id).Ok? {
      ResolveKeyed(w.db, pc.id);
    }
    hide ExpiryNext, ResolveTx;
  }

  lemma EndingKeyed(w: World, pc: Pc, o: Oracle)
    requires Keyed(w.db) && Ending(pc)
    ensures Keyed(EndingStep(w, pc, o).0.db)
  {
    if pc.FinishExpire? {
      ExpiryKeyed(w, pc.e, o);
    }
    hide ExpiryNext;
  }

  lemma SchedulerKeyed(w: World, pc: Pc, o: Oracle)
    requires Keyed(w.db) && (pc.Idle? || pc.SchedulerExpire? || pc.Claiming? || pc.Stopped?)
    ensures Keyed(SchedulerStep(w, pc, o).0.db)
  {
    if pc.SchedulerExpire? {
      ExpiryKeyed(w, pc.e, o);
    }
    hide ExpiryNext;
  }

  lemma AttemptKeyed(c: Config, w: World, pc: Pc, o: Oracle)
    requires Keyed(w.db) && Attempting(pc)
    ensures Keyed(AttemptStep(c, w, pc, o).0.db)
  {
  }

  lemma PublicationKeyed(c: Config, w: World, pc: Pc, o: Oracle)
    requires Keyed(w.db) && Publication(pc)
    ensures Keyed(PublicationStep(c, w, pc, o).0.db)
  {
  }

  lemma WorkerKeyed(c: Config, w: World, pc: Pc, o: Oracle)
    requires Keyed(w.db)
    ensures Keyed(WorkerStep(c, w, pc, o).0.db)
  {
    hide RecoveryStep, AttemptStep, PublicationStep, EndingStep, SchedulerStep, Keyed;
    if pc.Down? || Recovering(pc) {
      RecoveryKeyed(w, pc, o);
    } else if Attempting(pc) {
      AttemptKeyed(c, w, pc, o);
    } else if Publication(pc) {
      PublicationKeyed(c, w, pc, o);
    } else if Ending(pc) {
      EndingKeyed(w, pc, o);
    } else {
      SchedulerKeyed(w, pc, o);
    }
  }

  lemma NextKeyed(c: Config, s: Sys, a: Action)
    requires Keyed(s.w.db)
    ensures Keyed(Next(c, s, a).w.db)
  {
    match a
    case Work(o) =>
      hide WorkerStep, Keyed;
      WorkerKeyed(c, s.w, s.pc, o);
    case ConfirmWith(thread, o) =>
      hide ConfirmNext, Keyed;
      if thread in s.confirms {
        ConfirmKeyed(s.w, s.confirms[thread], o);
      }
    case _ =>
      hide WorkerStep, ConfirmNext;
  }

  lemma {:induction false} RunKeyed(c: Config, acts: seq<Action>)
    ensures Keyed(Exec(c, Init, acts).w.db)
  {
    if acts != [] {
      hide Next, Keyed;
      RunKeyed(c, acts[..|acts| - 1]);
      NextKeyed(c, Exec(c, Init, acts[..|acts| - 1]), acts[|acts| - 1]);
    }
  }
}
