/** What stays true of a job along any run, crashes included. */
module Runs {
  import opened Model
  import opened Protocol
  import opened Invariant
  import opened Safety

  function Rank(s: State): nat {
    match s
    case Queued => 0
    case Running => 1
    case Verifying => 2
    case Cleaning => 3
    case _ => 4
  }

  predicate RowLater(j: Job, j': Job) {
    j'.id == j.id && j'.source == j.source && j'.createdAt == j.createdAt
    && Rank(j.state) <= Rank(j'.state)
    && j.attempts <= j'.attempts
    && (j.cancelRequested ==> j'.cancelRequested)
    && (j.expiresAt.Some? ==> j'.expiresAt == j.expiresAt)
    && (j.artifactExpired ==> j'.artifactExpired)
    && (Outcome(j).Some? ==> Outcome(j') == Outcome(j) || j'.artifactExpired)
    && (Terminal(j.state) ==>
          j' == j.(artifactExpired := j'.artifactExpired, pending := j'.pending, errorCode := j'.errorCode))
  }

  ghost predicate Later(w: World, w': World) {
    && w.now <= w'.now
    && (forall i :: i in w.db.jobs ==> i in w'.db.jobs && RowLater(w.db.jobs[i], w'.db.jobs[i]))
    && (forall op :: op in w.db.ops ==> op in w'.db.ops && w'.db.ops[op] == w.db.ops[op])
    && (forall i :: i in w.hist.passed ==> i in w'.hist.passed && w'.hist.passed[i] == w.hist.passed[i])
  }

  lemma StepLater(w: World, w': World)
    requires Evolves(w, w')
    ensures Later(w, w')
  {
    forall i | i in w.db.jobs ensures i in w'.db.jobs && RowLater(w.db.jobs[i], w'.db.jobs[i]) {
      assert RowEvolves(w, w', i);
    }
  }

  lemma LaterTransitive(a: World, b: World, d: World)
    requires Later(a, b) && Later(b, d)
    ensures Later(a, d)
  {
    forall i | i in a.db.jobs ensures i in d.db.jobs && RowLater(a.db.jobs[i], d.db.jobs[i]) {
      assert RowLater(a.db.jobs[i], b.db.jobs[i]) && RowLater(b.db.jobs[i], d.db.jobs[i]);
    }
  }

  /** From a state that satisfies the invariant, every run keeps it, and rows only advance. */
  lemma {:induction false} RunLater(c: Config, s: Sys, acts: seq<Action>)
    requires Inv(c, s)
    ensures Inv(c, Exec(c, s, acts)) && Later(s.w, Exec(c, s, acts).w)
  {
    if acts != [] {
      hide Inv, Evolves, Later, Next;
      var m := Exec(c, s, acts[..|acts| - 1]);
      RunLater(c, s, acts[..|acts| - 1]);
      StepSafe(c, m, acts[|acts| - 1]);
      StepLater(m.w, Exec(c, s, acts).w);
      LaterTransitive(s.w, m.w, Exec(c, s, acts).w);
    }
  }
}
