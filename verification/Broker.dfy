/** Two-factor codes: a job opens a challenge and waits; the operator submits a
    code to the job; the challenge returns it, or ends with its context. Sections
    under the mutex and channel operations are atomic, everything interleaves. */
module Broker {
  import opened Model

  type Code = string

  /** What a challenge does after it was opened: wait, hold what it will return
      while the broker still names it, and end. */
  datatype Stage = Waiting | Leaving(code: Option<Code>) | Ended(code: Option<Code>)

  /** One call of `Request`; its channel is made by that call and used by no other.
      `accepted` lists the codes ever accepted for it, and `taken` says which of them it
      received: its channel holds one code, the last one accepted. */
  datatype Challenge = Challenge(
    job: Id, stage: Stage, slot: Option<Code>, accepted: seq<Code>, taken: Option<nat>)

  /** `open` is the challenge whose channel the broker holds, `job` its job. */
  datatype State = State(job: Option<Id>, open: Option<nat>, challenges: seq<Challenge>)

  datatype Action =
    | Request(job: Id)
    | Receive(k: nat)
    | GiveUp(k: nat)
    | Close(k: nat)
    | Submit(job: Id, code: Code)

  const Start := State(None, None, [])

  predicate SixDigits(code: Code) {
    |code| == 6 && forall k :: 0 <= k < 6 ==> '0' <= code[k] <= '9'
  }

  /** A submission that the broker will accept. */
  predicate Accepts(s: State, job: Id, code: Code) {
    s.job == Some(job) && s.open.Some? && SixDigits(code)
    && s.open.value < |s.challenges| && s.challenges[s.open.value].slot.None?
  }

  predicate At(s: State, k: nat, waiting: bool) {
    k < |s.challenges| && (if waiting then s.challenges[k].stage.Waiting? else s.challenges[k].stage.Leaving?)
  }

  /** The challenge takes the code out of its channel. */
  function Received(ch: Challenge): Challenge {
    ch.(stage := Leaving(ch.slot), slot := None, taken := if ch.accepted == [] then None else Some(|ch.accepted| - 1))
  }

  function Next(s: State, a: Action): State {
    match a
    case Request(job) =>
      if s.open.Some? then s
      else State(Some(job), Some(|s.challenges|), s.challenges + [Challenge(job, Waiting, None, [], None)])
    case Receive(k) =>
      if At(s, k, true) && s.challenges[k].slot.Some?
      then s.(challenges := s.challenges[k :=
             Received(s.challenges[k])])
      else s
    case GiveUp(k) =>
      if At(s, k, true) then s.(challenges := s.challenges[k := s.challenges[k].(stage := Leaving(None))]) else s
    case Close(k) =>
      if At(s, k, false)
      then State(None, None, s.challenges[k := s.challenges[k].(stage := Ended(s.challenges[k].stage.code))])
      else s
    case Submit(job, code) =>
      if Accepts(s, job, code)
      then s.(challenges := s.challenges[s.open.value :=
             var ch := s.challenges[s.open.value];
             ch.(slot := Some(code), accepted := ch.accepted + [code])])
      else s
  }

  function Exec(acts: seq<Action>): State {
    if acts == [] then Start else Next(Exec(acts[..|acts| - 1]), acts[|acts| - 1])
  }

  /** Nothing was received, or the first code accepted. */
  predicate TookFirst(ch: Challenge, code: Option<Code>) {
    if code.None? then ch.taken.None?
    else ch.accepted != [] && code == Some(ch.accepted[0]) && ch.taken == Some(0)
  }

  /** A code leaves through the challenge that accepted it first. */
  predicate ChallengeOk(ch: Challenge) {
    && (forall k :: 0 <= k < |ch.accepted| ==> SixDigits(ch.accepted[k]))
    && match ch.stage
       case Waiting =>
         ch.taken.None?
         && if ch.accepted == [] then ch.slot.None? else ch.slot.Some? && ch.accepted == [ch.slot.value]
       case Leaving(code) => TookFirst(ch, code)
       case Ended(code) => TookFirst(ch, code)
  }

  /** At most one challenge is not over, and the broker names it and its job. */
  ghost predicate Inv(s: State) {
    && (forall k :: 0 <= k < |s.challenges| ==> ChallengeOk(s.challenges[k]))
    && (forall k :: 0 <= k < |s.challenges| ==> (s.challenges[k].stage.Ended? <==> s.open != Some(k)))
    && (s.open.Some? ==> s.open.value < |s.challenges| && s.job == Some(s.challenges[s.open.value].job))
    && (s.open.None? ==> s.job.None?)
  }

  lemma StepKeeps(s: State, a: Action)
    requires Inv(s)
    ensures Inv(Next(s, a))
  {
  }

  lemma {:induction false} Reachable(acts: seq<Action>)
    ensures Inv(Exec(acts))
  {
    if acts != [] {
      Reachable(acts[..|acts| - 1]);
      StepKeeps(Exec(acts[..|acts| - 1]), acts[|acts| - 1]);
    }
  }

  /** In every run: a challenge that has ended, or is about to, returns nothing or the
      first code accepted for it, of six digits, and then never changes. */
  lemma ReturnedCode(acts: seq<Action>, a: Action, k: nat)
    requires k < |Exec(acts).challenges|
    ensures k < |Next(Exec(acts), a).challenges|
    ensures var ch, ch' := Exec(acts).challenges[k], Next(Exec(acts), a).challenges[k];
      && ch'.job == ch.job && (ch.stage.Ended? ==> ch' == ch)
      && (!ch.stage.Waiting? && ch.stage.code.Some? ==>
            ch.accepted != [] && ch.stage.code.value == ch.accepted[0] && SixDigits(ch.stage.code.value))
  {
    Reachable(acts);
    assert ChallengeOk(Exec(acts).challenges[k]);
  }

  /** The submission behind an accepted code: made to the challenge's own job, while
      that challenge was the open one. As only one is open at a time, no submission
      serves two challenges, and none serves a later one. */
  lemma {:induction false} SubmittedFor(acts: seq<Action>, k: nat, m: nat) returns (i: nat)
    requires k < |Exec(acts).challenges| && m < |Exec(acts).challenges[k].accepted|
    ensures i < |acts| && Exec(acts[..i]).open == Some(k)
    ensures acts[i] == Submit(Exec(acts).challenges[k].job, Exec(acts).challenges[k].accepted[m])
    ensures k < |Exec(acts[..i]).challenges| && |Exec(acts[..i]).challenges[k].accepted| == m
  {
    SomeStep(acts, k);
    hide Exec, Inv, Next;
    var init, a := acts[..|acts| - 1], acts[|acts| - 1];
    assert init + [a] == acts;
    ExecSnoc(init, a);
    Reachable(init);
    AcceptedNow(Exec(init), a, k, m);
    if k < |Exec(init).challenges| && m < |Exec(init).challenges[k].accepted| {
      i := SubmittedFor(init, k, m);
      assert init[..i] == acts[..i];
    } else {
      i := |init|;
      assert acts[..i] == init;
    }
  }

  lemma SomeStep(acts: seq<Action>, k: nat)
    requires k < |Exec(acts).challenges|
    ensures acts != []
  {
  }

  /** A step that extends the list of accepted codes is a submission to the open challenge. */
  lemma AcceptedNow(s: State, a: Action, k: nat, m: nat)
    requires Inv(s) && k < |Next(s, a).challenges| && m < |Next(s, a).challenges[k].accepted|
    ensures var ch := Next(s, a).challenges[k];
      if k < |s.challenges| && m < |s.challenges[k].accepted|
      then ch.job == s.challenges[k].job && ch.accepted[m] == s.challenges[k].accepted[m]
      else k < |s.challenges| && |s.challenges[k].accepted| == m && s.open == Some(k)
           && a == Submit(ch.job, ch.accepted[m])
  {
  }

  /** An accepted code goes to the one open challenge, which is of the job it was
      submitted for; every other challenge, past or future, is untouched. */
  lemma SubmittedTo(acts: seq<Action>, job: Id, code: Code)
    requires Accepts(Exec(acts), job, code)
    ensures var s := Exec(acts); var s' := Next(s, Submit(job, code));
      && s.open.Some? && s.open.value < |s.challenges| && s.challenges[s.open.value].job == job
      && |s'.challenges| == |s.challenges|
      && (forall k :: 0 <= k < |s.challenges| && k != s.open.value ==> s'.challenges[k] == s.challenges[k])
      && s'.challenges[s.open.value].accepted == s.challenges[s.open.value].accepted + [code]
  {
    Reachable(acts);
  }

  /** At most one challenge at a time is not over. */
  lemma OneChallenge(acts: seq<Action>, j: nat, k: nat)
    requires j < |Exec(acts).challenges| && k < |Exec(acts).challenges|
    requires !Exec(acts).challenges[j].stage.Ended? && !Exec(acts).challenges[k].stage.Ended?
    ensures j == k && Exec(acts).open == Some(k) && Exec(acts).job == Some(Exec(acts).challenges[k].job)
  {
    Reachable(acts);
  }

  /** An accepted code may reach nobody: here the second, accepted between the receipt of
      the first and the end of the challenge. */
  lemma LostCode(job: Id)
    ensures var acts := [Request(job)] + [Submit(job, "123456")] + [Receive(0)] + [Submit(job, "654321")] + [Close(0)];
      |Exec(acts).challenges| == 1
      && Exec(acts).challenges[0].accepted == ["123456", "654321"]
      && Exec(acts).challenges[0].stage == Ended(Some("123456"))
  {
    var one, two := "123456", "654321";
    assert SixDigits(one) && SixDigits(two);
    assert Exec([]) == Start;
    ExecSnoc([], Request(job));
    assert [] + [Request(job)] == [Request(job)];
    ExecSnoc([Request(job)], Submit(job, one));
    ExecSnoc([Request(job)] + [Submit(job, one)], Receive(0));
    ExecSnoc([Request(job)] + [Submit(job, one)] + [Receive(0)], Submit(job, two));
    ExecSnoc([Request(job)] + [Submit(job, one)] + [Receive(0)] + [Submit(job, two)], Close(0));
  }

  lemma ExecSnoc(acts: seq<Action>, a: Action)
    ensures Exec(acts + [a]) == Next(Exec(acts), a)
  {
    assert (acts + [a])[..|acts|] == acts;
  }

  // ---- Which codes are returned ----

  /** Challenge `k` is over, and has returned the `m`th code accepted for it. */
  predicate Returned(s: State, k: nat, m: nat) {
    k < |s.challenges| && s.challenges[k].stage.Ended? && s.challenges[k].taken == Some(m)
  }

  /** The challenge no longer waits, and did not take its `m`th code. */
  predicate Missed(s: State, k: nat, m: nat) {
    k < |s.challenges| && !s.challenges[k].stage.Waiting? && s.challenges[k].taken != Some(m)
  }

  lemma {:induction false} MissedStays(acts: seq<Action>, more: seq<Action>, k: nat, m: nat)
    requires Missed(Exec(acts), k, m)
    ensures Missed(Exec(acts + more), k, m)
  {
    if more == [] {
      assert acts + more == acts;
    } else {
      var init := more[..|more| - 1];
      MissedStays(acts, init, k, m);
      assert acts + more == (acts + init) + [more[|more| - 1]];
      ExecSnoc(acts + init, more[|more| - 1]);
    }
  }

  /** A challenge that still waits when a code is accepted returns that code, if it is let. */
  lemma WaitingReturns(acts: seq<Action>, job: Id, code: Code) returns (more: seq<Action>)
    requires Accepts(Exec(acts), job, code)
    requires Exec(acts).challenges[Exec(acts).open.value].stage.Waiting?
    ensures var k := Exec(acts).open.value; var s := Exec(acts + [Submit(job, code)] + more);
      Returned(s, k, |Exec(acts).challenges[k].accepted|) && s.challenges[k].stage == Ended(Some(code))
  {
    var k := Exec(acts).open.value;
    Reachable(acts);
    assert ChallengeOk(Exec(acts).challenges[k]);
    var first := acts + [Submit(job, code)];
    ExecSnoc(acts, Submit(job, code));
    ExecSnoc(first, Receive(k));
    ExecSnoc(first + [Receive(k)], Close(k));
    more := [Receive(k), Close(k)];
    assert first + more == first + [Receive(k)] + [Close(k)];
  }

  /** An accepted code can still be returned exactly when the challenge that accepted it is
      waiting: not when it has received an earlier code, nor when its context has ended. */
  lemma ReturnedExactly(acts: seq<Action>, job: Id, code: Code)
    requires Accepts(Exec(acts), job, code)
    ensures var k := Exec(acts).open.value; var m := |Exec(acts).challenges[k].accepted|;
      (exists more: seq<Action> :: Returned(Exec(acts + [Submit(job, code)] + more), k, m))
      <==> Exec(acts).challenges[k].stage.Waiting?
  {
    var s := Exec(acts);
    var k := s.open.value;
    var m := |s.challenges[k].accepted|;
    Reachable(acts);
    assert ChallengeOk(s.challenges[k]);
    if s.challenges[k].stage.Waiting? {
      var more := WaitingReturns(acts, job, code);
    } else {
      ExecSnoc(acts, Submit(job, code));
      forall more: seq<Action> ensures !Returned(Exec(acts + [Submit(job, code)] + more), k, m) {
        MissedStays(acts + [Submit(job, code)], more, k, m);
      }
    }
  }

  // ---- The broker in place ----

  /** Fields under the mutex; `challenges` are the pending and past calls of `Request`. */
  class Broker {
    var job: Option<Id>
    var open: Option<nat>
    var challenges: seq<Challenge>

    function View(): State
      reads this
    {
      State(job, open, challenges)
    }

    constructor ()
      ensures View() == Start
    {
      job, open, challenges := None, None, [];
    }

    /** The first section of `Request`. */
    method Open(id: Id) returns (k: Option<nat>)
      modifies this
      ensures View() == Next(old(View()), Request(id))
      ensures if old(open).Some? then k == None && View() == old(View())
              else k == open == Some(|old(challenges)|) && job == Some(id)
                   && challenges == old(challenges) + [Challenge(id, Waiting, None, [], None)]
    {
      if open.Some? {
        return None;
      }
      k := Some(|challenges|);
      challenges := challenges + [Challenge(id, Waiting, None, [], None)];
      job, open := Some(id), k;
    }

    /** The select of `Request`: a code, or the end of its context. */
    method Await(k: nat, ended: bool)
      requires k < |challenges| && challenges[k].stage.Waiting?
      requires challenges[k].slot.Some? || ended
      modifies this
      ensures View() == Next(old(View()), if ended then GiveUp(k) else Receive(k))
      ensures job == old(job) && open == old(open) && |challenges| == |old(challenges)|
      ensures challenges[k].stage == Leaving(if ended then None else old(challenges)[k].slot)
      ensures forall j :: 0 <= j < |challenges| && j != k ==> challenges[j] == old(challenges)[j]
    {
      var ch := challenges[k];
      if ended {
        challenges := challenges[k := ch.(stage := Leaving(None))];
      } else {
        challenges := challenges[k := Received(ch)];
      }
    }

    /** The deferred section of `Request`, and its return. */
    method Finish(k: nat) returns (code: Option<Code>)
      requires k < |challenges| && challenges[k].stage.Leaving?
      modifies this
      ensures View() == Next(old(View()), Close(k)) && code == old(challenges)[k].stage.code
      ensures job == None && open == None
      ensures challenges == old(challenges)[k := old(challenges)[k].(stage := Ended(code))]
    {
      code := challenges[k].stage.code;
      job, open := None, None;
      challenges := challenges[k := challenges[k].(stage := Ended(code))];
    }

    method Submit(id: Id, code: Code) returns (accepted: bool)
      requires Inv(View())
      modifies this
      ensures View() == Next(old(View()), Action.Submit(id, code))
      ensures accepted == Accepts(old(View()), id, code)
      ensures accepted <==>
              && old(job) == Some(id) && |code| == 6 && (forall k :: 0 <= k < 6 ==> '0' <= code[k] <= '9')
              && forall k :: old(open) == Some(k) && k < |old(challenges)| ==> old(challenges)[k].slot.None?
      ensures job == old(job) && open == old(open)
      ensures if !accepted then challenges == old(challenges)
              else open.Some? && open.value < |old(challenges)|
                   && challenges == old(challenges)[open.value := old(challenges)[open.value].(
                        slot := Some(code), accepted := old(challenges)[open.value].accepted + [code])]
    {
      if job != Some(id) || open.None? || |code| != 6 {
        return false;
      }
      var i := 0;
      while i < |code|
        invariant i <= |code|
        invariant forall k :: 0 <= k < i ==> '0' <= code[k] <= '9'
      {
        if code[i] < '0' || code[i] > '9' {
          return false;
        }
        i := i + 1;
      }
      var ch := challenges[open.value];
      if ch.slot.Some? {
        return false;
      }
      challenges := challenges[open.value := ch.(slot := Some(code), accepted := ch.accepted + [code])];
      return true;
    }
  }
}
