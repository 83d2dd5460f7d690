/** Restarting: recovery can always be brought to an end, and repeating it with the
    same clock and the same answers changes nothing. */
module Restart {
  import opened Model
  import opened Transactions
  import opened Protocol
  import opened Invariant
  import opened Safety
  import opened Execution
  import opened Runs
  import opened Traces

  // ---- Recovery can succeed ----

  /** An oracle under which every step succeeds and every report is confirmed. */
  function Smooth(id: Id, op: OpId): Oracle {
    Answer(true, false, false).(id := id, op := op)
  }

  ghost function Any(s: set<nat>): nat {
    if s == {} then 0 else var x :| x in s; x
  }

  ghost function ExpiryPick(e: Expiry): Id {
    if e.Loop? then Any(e.todo.Keys) else 0
  }

  /** The oracle that moves recovery forward from this point. */
  ghost function Helpful(pc: Pc): Oracle {
    match pc
    case Reconcile(_, _, todo) => Smooth(Any(todo), 0)
    case RecoverExpire(_, e) => Smooth(ExpiryPick(e), 0)
    case RecoverNext(left) => Smooth(Any(left.Keys), 0)
    case RecoverClean(_, _, pass) => Smooth(0, if pass.Asking? then Any(pass.todo) else 0)
    case _ => Smooth(0, 0)
  }

  function Phase(pc: Pc): nat {
    match pc
    case Down => 10
    case RecoverJobs => 9
    case Reconcile(_, kind, _) => if kind == WorkDirs then 8 else if kind == InputFiles then 7 else 6
    case RecoverTemp(_) => 5
    case RecoverExpire(_, e) => if e.Snapshot? then 4 else 3
    case RecoverNext(_) => 2
    case RecoverClean(_, _, _) => 2
    case RecoverResolve(_, _) => 2
    case _ => 1
  }

  function Pending(pc: Pc): nat {
    match pc
    case Reconcile(_, _, todo) => |todo|
    case RecoverExpire(_, e) =>
      (match e
       case Snapshot => 0
       case Loop(todo) => 2 * |todo|
       case Mark(_, rest) => 2 * |rest| + 1)
    case RecoverNext(left) => |left|
    case RecoverClean(_, left, _) => |left|
    case RecoverResolve(_, left) => |left|
    case _ => 0
  }

  function Inner(w: World, pc: Pc): nat {
    match pc
    case RecoverClean(id, _, pass) => if pass.Listing? then |OpsOf(w, id)| + 3 else |pass.todo| + 2
    case RecoverResolve(_, _) => 1
    case _ => 0
  }

  /** A helpful step brings the end of recovery nearer. */
  ghost predicate Nearer(w: World, pc: Pc, w': World, pc': Pc) {
    Recovering(pc')
    && (Phase(pc') < Phase(pc)
        || (Phase(pc') == Phase(pc) && Pending(pc') < Pending(pc))
        || (Phase(pc') == Phase(pc) && Pending(pc') == Pending(pc) && Inner(w', pc') < Inner(w, pc)))
  }

  lemma Smaller<T>(s: set<T>, x: T)
    requires x in s
    ensures |s - {x}| < |s|
  {
  }

  lemma SmallerMap<V>(m: map<nat, V>, x: nat)
    requires x in m
    ensures |m - {x}| < |m|
  {
    assert (m - {x}).Keys == m.Keys - {x};
    assert |m - {x}| == |(m - {x}).Keys| && |m| == |m.Keys|;
    Smaller(m.Keys, x);
  }

  lemma NonEmptyMap<V>(m: map<nat, V>)
    requires m != map[]
    ensures Any(m.Keys) in m
  {
    assert m.Keys != {};
  }

  lemma ReconcileNearer(w: World, pc: Pc)
    requires pc.Reconcile?
    ensures var (w', pc') := RecoveryStep(w, pc, Helpful(pc)); Nearer(w, pc, w', pc')
  {
    if pc.todo != {} {
      Smaller(pc.todo, Any(pc.todo));
    }
  }

  lemma ExpireNearer(w: World, pc: Pc)
    requires pc.RecoverExpire?
    ensures var (w', pc') := RecoveryStep(w, pc, Helpful(pc)); Nearer(w, pc, w', pc')
  {
    if pc.e.Loop? && pc.e.todo != map[] {
      NonEmptyMap(pc.e.todo);
      SmallerMap(pc.e.todo, Any(pc.e.todo.Keys));
    }
  }

  lemma NextNearer(w: World, pc: Pc)
    requires pc.RecoverNext?
    ensures var (w', pc') := RecoveryStep(w, pc, Helpful(pc)); Nearer(w, pc, w', pc')
  {
    if pc.left != map[] {
      NonEmptyMap(pc.left);
      SmallerMap(pc.left, Any(pc.left.Keys));
    }
  }

  lemma CleanNearer(w: World, pc: Pc)
    requires pc.RecoverClean?
    ensures var (w', pc') := RecoveryStep(w, pc, Helpful(pc)); Nearer(w, pc, w', pc')
  {
    if pc.pass.Asking? && pc.pass.todo != {} {
      Smaller(pc.pass.todo, Any(pc.pass.todo));
    }
  }

  lemma ResolveNearer(c: Config, w: World, pc: Pc)
    requires pc.RecoverResolve? && WorldInv(c, w) && RecoveryInv(w, pc)
    ensures var (w', pc') := RecoveryStep(w, pc, Helpful(pc)); Nearer(w, pc, w', pc')
  {
    hide FilesOk, DeviceOk, OpsOk, Recovered, Exact, ExpiredAtStart, LeftOk, CleanOps;
    assert RowOk(w.db.jobs[pc.id], pc.id, w.now);
    assert ResolveTx(w.db, pc.id).Ok?;
    hide WorldInv, ResolveTx, RowOk;
  }

  lemma StepNearer(c: Config, w: World, pc: Pc)
    requires (pc.Down? || Recovering(pc)) && !pc.Ready? && WorldInv(c, w) && RecoveryInv(w, pc)
    ensures var (w', pc') := RecoveryStep(w, pc, Helpful(pc)); Nearer(w, pc, w', pc')
  {
    hide WorldInv, RecoveryInv;
    if pc.Reconcile? {
      ReconcileNearer(w, pc);
    } else if pc.RecoverExpire? {
      ExpireNearer(w, pc);
    } else if pc.RecoverNext? {
      NextNearer(w, pc);
    } else if pc.RecoverClean? {
      CleanNearer(w, pc);
    } else if pc.RecoverResolve? {
      ResolveNearer(c, w, pc);
    } else {
    }
  }

  lemma SystemNearer(c: Config, s: Sys)
    requires Inv(c, s) && (s.pc.Down? || Recovering(s.pc)) && !s.pc.Ready?
    ensures var m := Next(c, s, Work(Helpful(s.pc))); Nearer(s.w, s.pc, m.w, m.pc)
  {
    hide WorldInv, RecoveryInv, RecoveryStep, Nearer, Helpful, ConfirmOk;
    StepNearer(c, s.w, s.pc);
  }

  /** Job `i` is in review, and has an operation that the cleaner can be asked about. */
  predicate CanConfirm(w: World, i: Id) {
    i in w.db.jobs && w.db.jobs[i].state == Cleaning && w.db.jobs[i].cleanupError != Clear && OpsOf(w, i) != {}
  }

  /** Every such job is still to be visited by recovery, or being visited; the pass at hand has
      been confirmed so far. */
  ghost predicate ToVisit(w: World, pc: Pc) {
    match pc
    case RecoverExpire(known, _) => w.db.jobs.Keys <= known.Keys
    case RecoverNext(left) => forall i :: CanConfirm(w, i) ==> i in left
    case RecoverClean(id, left, pass) =>
      (pass.Asking? ==> pass.ok) && forall i :: CanConfirm(w, i) ==> i == id || i in left
    case RecoverResolve(id, left) => forall i :: CanConfirm(w, i) ==> i == id || i in left
    case Ready => forall i :: !CanConfirm(w, i)
    case _ => true
  }

  lemma NextVisit(w: World, pc: Pc)
    requires pc.RecoverNext? && LeftOk(w, pc.left) && ToVisit(w, pc)
    ensures var (w', pc') := RecoveryStep(w, pc, Helpful(pc)); ToVisit(w', pc')
  {
    if pc.left != map[] {
      NonEmptyMap(pc.left);
    }
  }

  lemma CleanVisit(w: World, pc: Pc)
    requires pc.RecoverClean? && ToVisit(w, pc)
    ensures var (w', pc') := RecoveryStep(w, pc, Helpful(pc)); ToVisit(w', pc')
  {
    var (w', pc') := RecoveryStep(w, pc, Helpful(pc));
    forall i ensures CanConfirm(w', i) <==> CanConfirm(w, i) {
    }
  }

  lemma ExpireVisit(w: World, pc: Pc)
    requires pc.RecoverExpire? && ToVisit(w, pc)
    ensures var (w', pc') := RecoveryStep(w, pc, Helpful(pc)); ToVisit(w', pc')
  {
    if pc.e.Loop? && pc.e.todo != map[] {
      NonEmptyMap(pc.e.todo);
    }
  }

  lemma ResolveVisit(w: World, pc: Pc)
    requires pc.RecoverResolve? && ToVisit(w, pc)
    ensures var (w', pc') := RecoveryStep(w, pc, Helpful(pc)); ToVisit(w', pc')
  {
    var (w', pc') := RecoveryStep(w, pc, Helpful(pc));
    forall i | CanConfirm(w', i) ensures CanConfirm(w, i) && (pc'.RecoverNext? ==> i != pc.id) {
    }
  }

  lemma StepVisit(c: Config, s: Sys)
    requires Inv(c, s) && (s.pc.Down? || Recovering(s.pc)) && !s.pc.Ready? && ToVisit(s.w, s.pc)
    ensures var m := Next(c, s, Work(Helpful(s.pc))); ToVisit(m.w, m.pc)
  {
    hide WorldInv, ConfirmOk, Recovered, Exact, ExpiredAtStart, RecoveryScanOk, ReconcileOk, CleanOps, PassOk;
    if s.pc.RecoverNext? {
      hide RecoveryStep, ToVisit, LeftOk;
      NextVisit(s.w, s.pc);
    } else if s.pc.RecoverClean? {
      hide RecoveryStep, ToVisit, LeftOk;
      CleanVisit(s.w, s.pc);
    } else if s.pc.RecoverExpire? {
      hide RecoveryStep, ToVisit, LeftOk;
      ExpireVisit(s.w, s.pc);
    } else if s.pc.RecoverResolve? {
      hide RecoveryStep, ToVisit, LeftOk;
      ResolveVisit(s.w, s.pc);
    } else {
      hide MidRecovery, LeftOk, ExpiryNext, PassNext;
    }
  }

  lemma {:induction false} FinishRecovery(c: Config, s: Sys) returns (more: seq<Action>)
    requires Inv(c, s) && (s.pc.Down? || Recovering(s.pc)) && ToVisit(s.w, s.pc)
    ensures var m := Exec(c, s, more); m.pc.Ready? && forall i :: !CanConfirm(m.w, i)
    ensures forall k :: 0 <= k < |more| ==> more[k].Work?
    decreases Phase(s.pc), Pending(s.pc), Inner(s.w, s.pc)
  {
    hide Inv, Next, Evolves, Helpful, Phase, Pending, Inner, CanConfirm;
    if s.pc.Ready? {
      more := [];
    } else {
      hide Exec, ToVisit;
      var a := Work(Helpful(s.pc));
      var m := Next(c, s, a);
      StepSafe(c, s, a);
      SystemNearer(c, s);
      StepVisit(c, s);
      var rest := FinishRecovery(c, m);
      more := [a] + rest;
      ExecCons(c, s, a, rest);
    }
  }

  /** Wherever the process dies, the next one can finish recovery by its own steps. Then every
      job whose cleanup the cleaner can confirm is finished: only jobs without a recorded
      operation are still in review, and the device is quarantined exactly if there are any. */
  lemma CrashIsRecoverable(c: Config, acts: seq<Action>) returns (more: seq<Action>)
    ensures forall k :: 0 <= k < |more| ==> more[k].Work?
    ensures var m := Exec(c, Exec(c, Init, acts + [Crash]), more); var db := m.w.db;
      && m.pc.Ready?
      && (forall i, op :: i in db.jobs && op in db.ops && db.ops[op] == i ==>
            !(db.jobs[i].state == Cleaning && db.jobs[i].cleanupError != Clear))
      && (db.device.quarantined <==>
            exists i :: i in db.jobs && db.jobs[i].state == Cleaning && db.jobs[i].cleanupError != Clear)
  {
    Reachable(c, acts + [Crash]);
    var s := Exec(c, Init, acts + [Crash]);
    assert s.pc.Down? by {
      assert (acts + [Crash])[..|acts + [Crash]| - 1] == acts;
    }
    hide Exec, Inv, Next;
    more := FinishRecovery(c, s);
    RunLater(c, s, more);
    RecoveredDevice(c, Exec(c, s, more));
  }

  lemma RecoveredDevice(c: Config, s: Sys)
    requires Inv(c, s) && forall i :: !CanConfirm(s.w, i)
    ensures var db := s.w.db;
      && (forall i, op :: i in db.jobs && op in db.ops && db.ops[op] == i ==>
            !(db.jobs[i].state == Cleaning && db.jobs[i].cleanupError != Clear))
      && (db.device.quarantined <==>
            exists i :: i in db.jobs && db.jobs[i].state == Cleaning && db.jobs[i].cleanupError != Clear)
  {
    hide PcInv, RowsOk, FilesOk, OpsOk, ConfirmOk;
    forall i, op | i in s.w.db.jobs && op in s.w.db.ops && s.w.db.ops[op] == i ensures !Unresolved(s.w.db.jobs[i]) {
      assert op in OpsOf(s.w, i) && !CanConfirm(s.w, i);
    }
  }

  // ---- Recovery is idempotent ----

  /** A world in which recovery has nothing left to do but to ask the cleaner again. */
  ghost predicate Settled(w: World) {
    && NoLive(w) && Exact(w) && w.db.device.owner == None
    && (w.db.device.quarantined <==> exists i :: i in w.db.jobs && Unresolved(w.db.jobs[i]))
    && (w.db.device.quarantined ==> w.db.device.reason == ReviewRequired)
    && forall i :: i in w.db.jobs ==> !Due(w.db.jobs[i], w.now)
  }

  /** The second recovery at work on an unchanged world. */
  ghost predicate Steady(w0: World, s: Sys) {
    && s.w.db == w0.db && s.w.fs == w0.fs && s.w.now == w0.now
    && match s.pc
       case Down => true
       case RecoverJobs => true
       case Reconcile(known, kind, todo) => known == w0.db.jobs && todo <= Listed(w0.fs, kind)
       case RecoverTemp(known) => known == w0.db.jobs
       case RecoverExpire(known, e) =>
         known == w0.db.jobs && !e.Mark? && (e.Loop? ==> Current(w0, e.todo))
       case RecoverNext(left) => true
       case RecoverClean(id, left, pass) => true
       case RecoverResolve(id, left) => true
       case Ready => true
       case _ => false
  }

  lemma SettledJobs(w: World)
    requires Settled(w)
    ensures RecoverTx(w.db) == w.db
  {
    forall i | i in w.db.jobs ensures RecoveredRow(w.db.jobs[i]) == w.db.jobs[i] {
      assert !Live(w.db.jobs[i]);
    }
    assert RecoverTx(w.db).jobs == w.db.jobs;
    assert forall i :: i in w.db.jobs && Unresolved(w.db.jobs[i]) ==> i in ActiveIds(w.db.jobs);
    if ActiveIds(w.db.jobs) != {} {
      var i :| i in ActiveIds(w.db.jobs);
      assert i in w.db.jobs && Unresolved(w.db.jobs[i]);
    }
  }

  lemma SteadyStep(c: Config, w0: World, s: Sys, o: Oracle)
    requires Settled(w0) && Steady(w0, s) && !s.pc.RecoverResolve? && !s.pc.Ready?
    ensures Steady(w0, Next(c, s, Work(o)))
  {
    if s.pc.RecoverJobs? {
      SettledJobs(w0);
    }
    hide NoLive;
  }

  /** When recovery ends with the clock where it started, the world is settled. */
  lemma ReadyIsSettled(c: Config, s: Sys)
    requires Inv(c, s) && s.pc.Ready? && s.w.now == s.w.hist.startedAt
    ensures Settled(s.w)
  {
    forall i | i in s.w.db.jobs ensures !Due(s.w.db.jobs[i], s.w.now) {
      assert !DueAtStart(s.w, i);
    }
  }

  lemma {:induction false} SteadyRun(c: Config, t: Trace, k: nat, m: nat)
    requires IsRun(c, t) && k < m && At(t, m) && Unconfirmed(t, k, m)
    requires Settled(t.states[k].w) && t.acts[k].Crash?
    ensures Steady(t.states[k].w, t.states[m])
    decreases m
  {
    hide IsRun, Inv, Evolves, Settled, Steady, Next;
    TraceStep(c, t, m - 1);
    if m == k + 1 {
      CrashSteady(c, t.states[k]);
    } else {
      SteadyRun(c, t, k, m - 1);
      assert t.acts[m - 1].Work?;
      SteadyStep(c, t.states[k].w, t.states[m - 1], t.acts[m - 1].o);
    }
  }

  lemma CrashSteady(c: Config, s: Sys)
    ensures Steady(s.w, Next(c, s, Crash))
  {
  }

  /** Between these moments there is only recovery work, and no cleanup is confirmed. */
  ghost predicate Unconfirmed(t: Trace, k: nat, m: nat)
    requires At(t, m)
  {
    forall j :: k < j < m ==> t.acts[j].Work? && !t.states[j].pc.RecoverResolve? && !t.states[j].pc.Ready?
  }

  /** Recovery is idempotent: when it has succeeded at a standing clock, a crash and
      any further recovery work - interrupted and restarted or not - in which the
      cleaner again confirms none of the jobs still in review, leaves the database
      and the files exactly as they are. */
  lemma RecoveryIdempotent(c: Config, t: Trace, k: nat, m: nat)
    requires IsRun(c, t) && k < m && At(t, m)
    requires t.states[k].pc.Ready? && t.states[k].w.now == t.states[k].w.hist.startedAt
    requires t.acts[k].Crash? && Unconfirmed(t, k, m)
    ensures t.states[m].w.db == t.states[k].w.db && t.states[m].w.fs == t.states[k].w.fs
  {
    hide IsRun, Inv, Unconfirmed, Settled;
    TraceInv(c, t, k);
    ReadyIsSettled(c, t.states[k]);
    SteadyRun(c, t, k, m);
  }
}
