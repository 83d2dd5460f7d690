/** Getting out of quarantine: reviews can be closed in any order, the last one
    clears the device, and an operator can always carry one through. */
module Review {
  import opened Model
  import opened Transactions
  import opened Protocol
  import opened Invariant
  import opened Safety
  import opened Execution
  import opened Runs
  import opened Restart
  import opened Theorems
  import Outcomes

  // ---- Any order ----

  /** Resolving the jobs of `order` one after the other. */
  function ResolveAll(db: Db, order: seq<Id>): Result<Db> {
    if order == [] then Ok(db)
    else
      var r := ResolveAll(db, order[..|order| - 1]);
      if r.Err? then r else ResolveTx(r.value, order[|order| - 1])
  }

  ghost predicate Distinct(order: seq<Id>) {
    forall i, j :: 0 <= i < j < |order| ==> order[i] != order[j]
  }

  /** What quarantine progress needs of a database; every reachable one has it. */
  ghost predicate ReviewsOk(db: Db) {
    (db.device.quarantined <==> UnresolvedIds(db.jobs) != {})
    && forall i :: i in db.jobs && Unresolved(db.jobs[i]) ==> Resolvable(db, i)
  }

  lemma ReachableReviews(c: Config, acts: seq<Action>)
    ensures ReviewsOk(Exec(c, Init, acts).w.db)
  {
    var s := Exec(c, Init, acts);
    Reachable(c, acts);
    hide Exec, PcInv;
    forall i | i in s.w.db.jobs && Unresolved(s.w.db.jobs[i]) ensures Resolvable(s.w.db, i) {
      assert RowOk(s.w.db.jobs[i], i, s.w.now);
    }
    assert forall i :: i in UnresolvedIds(s.w.db.jobs) <==> i in s.w.db.jobs && Unresolved(s.w.db.jobs[i]);
  }

  lemma OneResolved(db: Db, id: Id)
    requires ReviewsOk(db) && id in UnresolvedIds(db.jobs)
    ensures ResolveTx(db, id).Ok?
    ensures var db' := ResolveTx(db, id).value;
      && UnresolvedIds(db'.jobs) == UnresolvedIds(db.jobs) - {id} && ReviewsOk(db')
      && db'.jobs == db.jobs[id := ResolvedJob(db.jobs[id])]
  {
    assert Resolvable(db, id);
    var db' := ResolveTx(db, id).value;
    forall i ensures i in UnresolvedIds(db'.jobs) <==> i in UnresolvedIds(db.jobs) - {id} {
    }
  }

  /** Resolving distinct jobs in review, in any order, always succeeds, and closes
      exactly those reviews. */
  lemma {:induction false} AnyOrder(db: Db, order: seq<Id>)
    requires ReviewsOk(db) && Distinct(order)
    requires forall k :: 0 <= k < |order| ==> order[k] in UnresolvedIds(db.jobs)
    ensures var r := ResolveAll(db, order);
      r.Ok? && ReviewsOk(r.value) && UnresolvedIds(r.value.jobs) == UnresolvedIds(db.jobs) - (set i | i in order)
  {
    if order != [] {
      hide ReviewsOk, ResolveTx;
      var init, id := order[..|order| - 1], order[|order| - 1];
      AnyOrder(db, init);
      OneResolved(ResolveAll(db, init).value, id);
      LastOf(order);
    }
  }

  lemma LastOf(order: seq<Id>)
    requires order != [] && Distinct(order)
    ensures var init, id := order[..|order| - 1], order[|order| - 1];
      id !in init && (set i | i in order) == (set i | i in init) + {id}
  {
    assert order == order[..|order| - 1] + [order[|order| - 1]];
  }

  /** Each of them takes its committed outcome, and no other row changes. */
  lemma {:induction false} AnyOrderRows(db: Db, order: seq<Id>, i: Id)
    requires ReviewsOk(db) && Distinct(order) && i in db.jobs
    requires forall k :: 0 <= k < |order| ==> order[k] in UnresolvedIds(db.jobs)
    ensures var r := ResolveAll(db, order);
      && r.Ok? && i in r.value.jobs
      && (i in order ==> Resolvable(db, i) && r.value.jobs[i] == ResolvedJob(db.jobs[i]))
      && (i !in order ==> r.value.jobs[i] == db.jobs[i])
  {
    AnyOrder(db, order);
    if order != [] {
      var init, id := order[..|order| - 1], order[|order| - 1];
      AnyOrder(db, init);
      AnyOrderRows(db, init, i);
      LastOf(order);
      assert i in order <==> i in init || i == id;
      assert Unresolved(db.jobs[id]);
      var r := ResolveAll(db, init).value;
      hide ReviewsOk, ResolveAll;
      assert ResolveAll(db, order) == ResolveTx(r, id) by {
        ResolveAllStep(db, order);
      }
    }
  }

  lemma ResolveAllStep(db: Db, order: seq<Id>)
    requires order != [] && ResolveAll(db, order[..|order| - 1]).Ok?
    ensures ResolveAll(db, order) == ResolveTx(ResolveAll(db, order[..|order| - 1]).value, order[|order| - 1])
  {
  }

  /** From every reachable state: the reviews open there can be closed in any order,
      every prefix keeps the quarantine, and exactly the last one lifts it. */
  lemma QuarantineProgress(c: Config, acts: seq<Action>, order: seq<Id>, k: nat)
    requires var db := Exec(c, Init, acts).w.db;
      Distinct(order) && UnresolvedIds(db.jobs) == set i | i in order
    requires k <= |order| && order != []
    ensures var db := Exec(c, Init, acts).w.db; var r := ResolveAll(db, order[..k]);
      && r.Ok? && (r.value.device.quarantined <==> k < |order|)
      && UnresolvedIds(r.value.jobs) == UnresolvedIds(db.jobs) - set i | i in order[..k]
      && (forall i :: i in db.jobs ==> i in r.value.jobs)
      && (forall i :: i in order[..k] ==> Resolvable(db, i) && r.value.jobs[i] == ResolvedJob(db.jobs[i]))
  {
    var db := Exec(c, Init, acts).w.db;
    ReachableReviews(c, acts);
    hide Exec;
    assert forall i :: i in order ==> i in UnresolvedIds(db.jobs);
    hide ResolveAll;
    AnyOrder(db, order[..k]);
    forall i | i in db.jobs
      ensures var r := ResolveAll(db, order[..k]).value;
        i in r.jobs && (i in order[..k] ==> Resolvable(db, i) && r.jobs[i] == ResolvedJob(db.jobs[i]))
    {
      AnyOrderRows(db, order[..k], i);
    }
    var left := UnresolvedIds(ResolveAll(db, order[..k]).value.jobs);
    if k < |order| {
      assert order[k] in left;
    } else {
      assert order[..k] == order;
      assert left == {};
    }
  }

  // ---- The operator's way out ----

  function Stages(st: ConfirmStage): nat {
    match st
    case ConfirmWork => 6
    case ConfirmInput => 5
    case ConfirmTemp => 4
    case ConfirmExpire(e) => if e.Snapshot? then 3 else 2
    case ConfirmResolve => 1
  }

  function Rows(st: ConfirmStage): nat {
    match st
    case ConfirmExpire(e) =>
      (match e
       case Snapshot => 0
       case Loop(todo) => 2 * |todo|
       case Mark(_, rest) => 2 * |rest| + 1)
    case _ => 0
  }

  ghost function ConfirmHelp(st: ConfirmStage): Oracle {
    if st.ConfirmExpire? then Smooth(ExpiryPick(st.e), 0) else Smooth(0, 0)
  }

  lemma ConfirmNearer(w: World, cf: Confirmation)
    requires !cf.bad && !cf.stage.ConfirmResolve?
    ensures var x := ConfirmNext(w, cf, ConfirmHelp(cf.stage));
      && x.ConfirmMore? && !x.cf.bad && x.cf.id == cf.id
      && (Stages(x.cf.stage) < Stages(cf.stage)
          || (Stages(x.cf.stage) == Stages(cf.stage) && Rows(x.cf.stage) < Rows(cf.stage)))
  {
    if cf.stage.ConfirmExpire? && cf.stage.e.Loop? && cf.stage.e.todo != map[] {
      NonEmptyMap(cf.stage.e.todo);
      SmallerMap(cf.stage.e.todo, Any(cf.stage.e.todo.Keys));
    }
  }

  lemma ResolveWorks(c: Config, s: Sys, thread: nat, i: Id)
    requires Inv(c, s) && thread in s.confirms && s.confirms[thread].id == i
    requires s.confirms[thread].stage.ConfirmResolve?
    requires i in s.w.db.jobs && Unresolved(s.w.db.jobs[i])
    ensures var w' := Next(c, s, ConfirmWith(thread, ConfirmHelp(ConfirmResolve))).w;
      i in w'.db.jobs && Terminal(w'.db.jobs[i].state)
  {
    Invariants(c, s, i);
    hide PcInv, WorldInv, ConfirmOk;
  }

  /** The confirmation is still on its way to resolving job `i`, or the job is finished. */
  ghost predicate OnTheWay(s: Sys, thread: nat, i: Id) {
    i in s.w.db.jobs && (Unresolved(s.w.db.jobs[i]) || Terminal(s.w.db.jobs[i].state))
    && (Unresolved(s.w.db.jobs[i]) ==>
          thread in s.confirms && s.confirms[thread].id == i && !s.confirms[thread].bad)
  }

  function ConfirmLeft(s: Sys, thread: nat, i: Id): (nat, nat) {
    if i in s.w.db.jobs && Unresolved(s.w.db.jobs[i]) && thread in s.confirms
    then (Stages(s.confirms[thread].stage), Rows(s.confirms[thread].stage))
    else (0, 0)
  }

  lemma ConfirmProgress(c: Config, s: Sys, thread: nat, i: Id)
    requires Inv(c, s) && OnTheWay(s, thread, i) && Unresolved(s.w.db.jobs[i])
    ensures var m := Next(c, s, ConfirmWith(thread, ConfirmHelp(s.confirms[thread].stage)));
      && OnTheWay(m, thread, i)
      && (ConfirmLeft(m, thread, i).0 < ConfirmLeft(s, thread, i).0
          || (ConfirmLeft(m, thread, i).0 == ConfirmLeft(s, thread, i).0
              && ConfirmLeft(m, thread, i).1 < ConfirmLeft(s, thread, i).1))
  {
    hide PcInv, WorldInv, ConfirmOk, ConfirmNext, FilesEvolve, OpsEvolve;
    var cf := s.confirms[thread];
    var a := ConfirmWith(thread, ConfirmHelp(cf.stage));
    StepSafe(c, s, a);
    assert RowEvolves(s.w, Next(c, s, a).w, i);
    if cf.stage.ConfirmResolve? {
      ResolveWorks(c, s, thread, i);
    } else {
      ConfirmNearer(s.w, cf);
    }
  }

  lemma {:induction false} FinishConfirm(c: Config, s: Sys, thread: nat, i: Id) returns (more: seq<Action>)
    requires Inv(c, s) && OnTheWay(s, thread, i)
    ensures var w' := Exec(c, s, more).w; i in w'.db.jobs && Terminal(w'.db.jobs[i].state)
    ensures forall k :: 0 <= k < |more| ==> more[k].ConfirmWith? && more[k].thread == thread
    decreases ConfirmLeft(s, thread, i).0, ConfirmLeft(s, thread, i).1
  {
    hide Inv, Next, Evolves, ConfirmLeft, ConfirmHelp;
    if Terminal(s.w.db.jobs[i].state) {
      more := [];
    } else {
      hide Exec;
      var a := ConfirmWith(thread, ConfirmHelp(s.confirms[thread].stage));
      StepSafe(c, s, a);
      ConfirmProgress(c, s, thread, i);
      var rest := FinishConfirm(c, Next(c, s, a), thread, i);
      more := [a] + rest;
      ExecCons(c, s, a, rest);
    }
  }

  /** The outcome is the committed one, or the row was marked, which makes it `Failed`. */
  predicate HeldOrMarked(j: Job, j': Job) {
    Outcome(j') == Outcome(j) || (Outcome(j') == Some(Failed) && j'.artifactExpired)
  }

  lemma {:induction false} OutcomeHeld(c: Config, s: Sys, thread: nat, more: seq<Action>, i: Id)
    requires Inv(c, s) && i in s.w.db.jobs && Outcome(s.w.db.jobs[i]).Some?
    requires forall k :: 0 <= k < |more| ==> more[k].ConfirmWith? && more[k].thread == thread
    ensures var w' := Exec(c, s, more).w; i in w'.db.jobs && HeldOrMarked(s.w.db.jobs[i], w'.db.jobs[i])
  {
    if more != [] {
      hide Inv, Next, RowOk, PcInv, Evolves, HeldOrMarked, Later, Outcomes.Explained;
      var init, a := more[..|more| - 1], more[|more| - 1];
      OutcomeHeld(c, s, thread, init, i);
      RunLater(c, s, init);
      Outcomes.StateParts(c, Exec(c, s, init), i);
      Outcomes.StepOutcome(c, Exec(c, s, init), a, i);
      StepSafe(c, Exec(c, s, init), a);
      StepLater(Exec(c, s, init).w, Exec(c, s, more).w);
      StepHeld(Exec(c, s, init), a, thread, s.w.db.jobs[i], Exec(c, s, more).w, i);
    }
  }

  lemma StepHeld(s: Sys, a: Action, thread: nat, j: Job, w': World, i: Id)
    requires a.ConfirmWith? && i in s.w.db.jobs && Outcomes.Explained(s, a, w', i) && Later(s.w, w')
    requires Outcome(j).Some? && HeldOrMarked(j, s.w.db.jobs[i])
    ensures i in w'.db.jobs && HeldOrMarked(j, w'.db.jobs[i])
  {
    assert RowLater(s.w.db.jobs[i], w'.db.jobs[i]);
  }

  /** Whatever else is going on, an operator can carry the confirmation of any job in
      review through to its committed outcome by that confirmation's own steps. */
  lemma OperatorCanResolve(c: Config, acts: seq<Action>, thread: nat, i: Id) returns (more: seq<Action>)
    requires var s := Exec(c, Init, acts);
      Serving(s.pc) && thread !in s.confirms && i in s.w.db.jobs && Unresolved(s.w.db.jobs[i])
    ensures forall k :: 0 <= k < |more| ==> more[k].ConfirmWith? && more[k].thread == thread
    ensures var s := Exec(c, Init, acts); var w' := Exec(c, s, [Confirm(thread, i)] + more).w;
      && i in w'.db.jobs && Terminal(w'.db.jobs[i].state)
      && (Outcome(w'.db.jobs[i]) == s.w.db.jobs[i].pending
          || (w'.db.jobs[i].state == Failed && w'.db.jobs[i].artifactExpired))
  {
    hide Inv, Evolves, Exec;
    var s := Exec(c, Init, acts);
    var m := Next(c, s, Confirm(thread, i));
    Reachable(c, acts);
    Invariants(c, s, i);
    StepSafe(c, s, Confirm(thread, i));
    more := FinishConfirm(c, m, thread, i);
    ExecCons(c, s, Confirm(thread, i), more);
    OutcomeHeld(c, m, thread, more, i);
  }
}
