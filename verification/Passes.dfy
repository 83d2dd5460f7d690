/** A cleanup pass of the machine, whose calls interleave with everything else, asks for
    the same reports as `Adapter.Cleanup` and comes to the same answer. */
module Passes {
  import opened Model
  import opened Protocol
  import Engine

  predicate GoesOn(w: World, id: Id, pass: Pass, o: Oracle, next: Pass) {
    PassNext(w, id, pass, o).PassMore? && PassNext(w, id, pass, o).pass == next
  }

  /** The first steps of a pass over the operations of job `id`: its `k`th step finds the
      world `ws[k]`, whatever the other threads have made of it. */
  ghost predicate InProgress(id: Id, ws: seq<World>, ps: seq<Pass>, os: seq<Oracle>) {
    |ws| == |os| && |ps| == |os| + 1 && ps[0] == Listing
    && forall k {:trigger ps[k]} :: 0 <= k < |os| ==> GoesOn(ws[k], id, ps[k], os[k], ps[k + 1])
  }

  /** What the library answers in a step that calls it. */
  function ReportOf(o: Oracle): Engine.Report {
    Engine.Report(!o.late, o.ok, false, !o.ok)
  }

  ghost predicate Answers(ops: seq<OpId>, reports: seq<Engine.Report>, os: seq<Oracle>) {
    |reports| == |ops|
    && forall k :: 0 <= k < |ops| ==> exists j :: 0 <= j < |os| && os[j].op == ops[k] && reports[k] == ReportOf(os[j])
  }

  ghost predicate Distinct(ops: seq<OpId>) {
    forall j, k :: 0 <= j < k < |ops| ==> ops[j] != ops[k]
  }

  /** The calls so far: each listed operation is asked for once or still to be asked for,
      and the verdict so far is that of the reports. */
  ghost predicate Called(listed: set<OpId>, pass: Pass, ops: seq<OpId>, reports: seq<Engine.Report>) {
    Distinct(ops) && |reports| == |ops|
    && match pass
       case Listing => ops == []
       case Asking(todo, ok) =>
         listed != {} && todo <= listed && (forall op :: op in listed <==> op in todo || op in ops)
         && (forall k :: 0 <= k < |ops| ==> ops[k] !in todo)
         && (ok <==> forall k :: 0 <= k < |reports| ==> Engine.Clean(reports[k]))
  }

  function Listed(id: Id, ws: seq<World>): set<OpId> {
    if ws == [] then {} else OpsOf(ws[0], id)
  }

  lemma CalledStep(listed: set<OpId>, w: World, id: Id, pass: Pass, o: Oracle, ops: seq<OpId>,
                   reports: seq<Engine.Report>)
    requires Called(listed, pass, ops, reports) && PassNext(w, id, pass, o).PassMore?
    requires pass.Listing? ==> listed == OpsOf(w, id)
    ensures var next := PassNext(w, id, pass, o).pass;
      if pass.Asking? && o.op in pass.todo
      then Called(listed, next, ops + [o.op], reports + [ReportOf(o)])
      else Called(listed, next, ops, reports)
  {
    if pass.Asking? && o.op in pass.todo {
      var all := reports + [ReportOf(o)];
      assert forall k :: 0 <= k < |reports| ==> all[k] == reports[k];
      assert all[|reports|] == ReportOf(o);
    }
  }

  lemma {:induction false} PassCalls(id: Id, ws: seq<World>, ps: seq<Pass>, os: seq<Oracle>)
    returns (ops: seq<OpId>, reports: seq<Engine.Report>)
    requires InProgress(id, ws, ps, os)
    ensures Called(Listed(id, ws), ps[|os|], ops, reports) && Answers(ops, reports, os)
    ensures ps[|os|].Listing? <==> os == []
  {
    ops, reports := [], [];
    if os != [] {
      var n := |os| - 1;
      var before, answers := PassCalls(id, ws[..n], ps[..n + 1], os[..n]);
      assert n > 0 ==> ws[..n][0] == ws[0];
      assert GoesOn(ws[n], id, ps[n], os[n], ps[n + 1]);
      CalledStep(Listed(id, ws), ws[n], id, ps[n], os[n], before, answers);
      if ps[n].Asking? && os[n].op in ps[n].todo {
        ops, reports := before + [os[n].op], answers + [ReportOf(os[n])];
      } else {
        ops, reports := before, answers;
      }
      MoreAnswers(before, answers, os, n);
    }
  }

  lemma MoreAnswers(ops: seq<OpId>, reports: seq<Engine.Report>, os: seq<Oracle>, n: nat)
    requires n + 1 == |os| && Answers(ops, reports, os[..n])
    ensures Answers(ops, reports, os) && Answers(ops + [os[n].op], reports + [ReportOf(os[n])], os)
  {
    forall k | 0 <= k < |ops|
      ensures exists j :: 0 <= j < |os| && os[j].op == ops[k] && reports[k] == ReportOf(os[j])
    {
      var j :| 0 <= j < n && os[..n][j].op == ops[k] && reports[k] == ReportOf(os[..n][j]);
      assert os[j].op == ops[k] && reports[k] == ReportOf(os[j]);
    }
    var all, answers := ops + [os[n].op], reports + [ReportOf(os[n])];
    forall k | 0 <= k < |all|
      ensures exists j :: 0 <= j < |os| && os[j].op == all[k] && answers[k] == ReportOf(os[j])
    {
      if k < |ops| {
        assert all[k] == ops[k] && answers[k] == reports[k];
      } else {
        assert os[n].op == all[k] && answers[k] == ReportOf(os[n]);
      }
    }
  }

  /** A pass ends confirmed exactly when `Adapter.Cleanup`, given the operations listed at
      its start in the order asked for and the reports it got, is confirmed without
      failure, and the flag write and the deadline after it hold. */
  lemma PassIsCleanup(id: Id, ws: seq<World>, ps: seq<Pass>, os: seq<Oracle>, w: World, o: Oracle)
    returns (ops: seq<OpId>, reports: seq<Engine.Report>)
    requires InProgress(id, ws, ps, os) && PassNext(w, id, ps[|os|], o).PassDone?
    ensures Distinct(ops) && Answers(ops, reports, os)
    ensures PassNext(w, id, ps[|os|], o).confirmed <==>
            && Engine.AllClean(ops, reports) && (forall op :: op in ops <==> op in Listed(id, ws))
            && o.ok && !o.late
  {
    ops, reports := PassCalls(id, ws, ps, os);
    var last := ps[|os|];
    if last.Asking? && last.todo != {} {
      var op :| op in last.todo;
      assert op in Listed(id, ws) && op !in ops;
    } else if last.Asking? {
      var op :| op in Listed(id, ws);
      assert op in ops;
    }
  }
}
