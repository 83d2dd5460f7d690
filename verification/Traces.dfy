/** Runs with all their moments: the states a run passes through, and the step
    between each state and the next. */
module Traces {
  import opened Protocol
  import opened Invariant
  import opened Safety
  import opened Runs

  datatype Trace = Trace(states: seq<Sys>, acts: seq<Action>)

  /** The `k`th step of the trace is one of the machine. */
  predicate Leads(c: Config, t: Trace, k: nat)
    requires k < |t.acts| && |t.states| == |t.acts| + 1
  {
    t.states[k + 1] == Next(c, t.states[k], t.acts[k])
  }

  /** A run from the empty service, crashes anywhere. */
  ghost predicate IsRun(c: Config, t: Trace) {
    |t.states| == |t.acts| + 1 && t.states[0] == Init
    && forall k {:trigger Leads(c, t, k)} :: 0 <= k < |t.acts| ==> Leads(c, t, k)
  }

  /** A position of the run, counted in steps made. */
  predicate At(t: Trace, k: nat) {
    k <= |t.acts| && |t.states| == |t.acts| + 1
  }

  lemma {:induction false} TraceExec(c: Config, t: Trace, k: nat)
    requires IsRun(c, t) && At(t, k)
    ensures t.states[k] == Exec(c, Init, t.acts[..k])
  {
    if k > 0 {
      TraceExec(c, t, k - 1);
      assert Leads(c, t, k - 1);
      assert t.acts[..k][..k - 1] == t.acts[..k - 1];
      hide Next;
    } else {
      assert t.acts[..0] == [];
    }
  }

  /** The moments of `Exec`. */
  lemma {:induction false} Traced(c: Config, acts: seq<Action>) returns (t: Trace)
    ensures IsRun(c, t) && t.acts == acts && t.states[|acts|] == Exec(c, Init, acts)
  {
    if acts == [] {
      t := Trace([Init], []);
    } else {
      hide Next;
      var n := |acts| - 1;
      var before := Traced(c, acts[..n]);
      t := Trace(before.states + [Exec(c, Init, acts)], acts);
      forall k | 0 <= k < |acts| ensures Leads(c, t, k) {
        assert k < n ==> Leads(c, before, k);
      }
    }
  }

  lemma TraceInv(c: Config, t: Trace, k: nat)
    requires IsRun(c, t) && At(t, k)
    ensures Inv(c, t.states[k])
  {
    hide Inv, Exec;
    TraceExec(c, t, k);
    Reachable(c, t.acts[..k]);
  }

  /** One step of a run. */
  lemma TraceStep(c: Config, t: Trace, k: nat)
    requires IsRun(c, t) && At(t, k + 1)
    ensures Inv(c, t.states[k]) && Inv(c, t.states[k + 1])
    ensures t.states[k + 1] == Next(c, t.states[k], t.acts[k])
    ensures Evolves(t.states[k].w, t.states[k + 1].w)
  {
    hide Inv, Next, Evolves;
    TraceInv(c, t, k);
    assert Leads(c, t, k);
    StepSafe(c, t.states[k], t.acts[k]);
  }

  /** Between two moments of a run rows only advance. */
  lemma {:induction false} TraceLater(c: Config, t: Trace, j: nat, k: nat)
    requires IsRun(c, t) && j <= k && At(t, k)
    ensures Later(t.states[j].w, t.states[k].w)
    decreases k
  {
    hide Inv, Next, Evolves, IsRun, Later;
    if j == k {
      SameLater(t.states[j].w);
    } else {
      TraceLater(c, t, j, k - 1);
      TraceStep(c, t, k - 1);
      StepLater(t.states[k - 1].w, t.states[k].w);
      LaterTransitive(t.states[j].w, t.states[k - 1].w, t.states[k].w);
    }
  }

  lemma SameLater(w: World)
    ensures Later(w, w)
  {
  }
}
