/** Where verified content comes from: four moments that the bytes of every completed
    job have been through, in this order. */
module Provenance {
  import opened Model
  import opened Protocol
  import opened Invariant
  import opened Traces
  import Engine

  // ---- What leads to verified content ----

  /** A successful reply of the engine is at hand. */
  predicate Replied(pc: Pc, i: Id) {
    (pc.Returned? || pc.CleanRetry? || pc.Retrying? || pc.Backoff? || pc.Settle?)
    && pc.id == i && pc.reply.err.NoError?
  }

  /** The output is on its way to archive validation. */
  predicate ToValidation(pc: Pc, i: Id) {
    (pc.ToVerifying? || pc.Validating?) && pc.id == i
  }

  /** This output has passed archive validation. */
  predicate Validated(pc: Pc, i: Id, content: Bytes) {
    pc.Checking? && pc.id == i && pc.content == content
  }

  /** These bytes are on record as validated and verified for the job. */
  predicate Passed(w: World, i: Id, content: Bytes) {
    i in w.hist.passed && w.hist.passed[i] == content
  }

  // ---- The four moments ----

  /** A library call for the job returns a verified result. */
  predicate CallVerified(s: Sys, a: Action, i: Id) {
    s.pc.OnDevice? && s.pc.id == i && a.Work? && Engine.Verified(a.o.call.result)
  }

  /** The attempts end in success, in a live context and with no cancellation accepted. */
  predicate SettledWell(s: Sys, a: Action, i: Id) {
    s.pc.Settle? && Replied(s.pc, i) && a.Work? && !a.o.late
    && i in s.w.db.jobs && !s.w.db.jobs[i].cancelRequested
  }

  predicate IsOutput(w: World, i: Id, content: Bytes) {
    i in w.fs.work && w.fs.work[i] == Some(content)
  }

  /** The output holds this content, and archive validation accepts it. */
  predicate ContentValidated(c: Config, s: Sys, a: Action, i: Id, content: Bytes) {
    s.pc.Validating? && s.pc.id == i && a.Work? && a.o.ok && IsOutput(s.w, i, content)
    && c.accepts(content)
  }

  /** The output still holds the content that was validated, and verification accepts it. */
  predicate ContentVerified(s: Sys, a: Action, i: Id, content: Bytes) {
    Validated(s.pc, i, content) && a.Work? && a.o.ok && IsOutput(s.w, i, content)
  }

  // ---- One step ----

  /** Each stage is entered through its gate only. */
  ghost predicate Gated(c: Config, s: Sys, a: Action, s': Sys, i: Id, content: Bytes) {
    && (Replied(s'.pc, i) ==> Replied(s.pc, i) || CallVerified(s, a, i))
    && (ToValidation(s'.pc, i) ==> ToValidation(s.pc, i) || SettledWell(s, a, i))
    && (Validated(s'.pc, i, content) ==> Validated(s.pc, i, content) || ContentValidated(c, s, a, i, content))
    && (Passed(s'.w, i, content) ==> Passed(s.w, i, content) || ContentVerified(s, a, i, content))
  }

  /** Nothing that leads to verified content begins here. */
  ghost predicate Aside(w: World, w': World, pc': Pc) {
    w'.hist.passed == w.hist.passed && !pc'.ToVerifying? && !pc'.Validating? && !pc'.Checking?
  }

  lemma AttemptOrigin(c: Config, w: World, pc: Pc, o: Oracle, i: Id)
    requires Attempting(pc)
    ensures var (w', pc') := AttemptStep(c, w, pc, o);
      && Aside(w, w', pc')
      && (Replied(pc', i) && !Replied(pc, i) ==>
            pc.OnDevice? && pc.id == i && Engine.Verified(o.call.result))
  {
  }

  lemma PublicationOrigin(c: Config, s: Sys, o: Oracle, i: Id, content: Bytes)
    requires Publication(s.pc)
    ensures var (w', pc') := PublicationStep(c, s.w, s.pc, o);
      Gated(c, s, Work(o), s.(w := w', pc := pc'), i, content)
  {
  }

  lemma EndingOrigin(w: World, pc: Pc, o: Oracle, i: Id)
    requires Ending(pc)
    ensures var (w', pc') := EndingStep(w, pc, o); Aside(w, w', pc') && !Replied(pc', i)
  {
  }

  lemma RecoveryOrigin(w: World, pc: Pc, o: Oracle, i: Id)
    requires pc.Down? || Recovering(pc)
    ensures var (w', pc') := RecoveryStep(w, pc, o); Aside(w, w', pc') && !Replied(pc', i)
  {
  }

  lemma SchedulerOrigin(w: World, pc: Pc, o: Oracle, i: Id)
    requires pc.Idle? || pc.SchedulerExpire? || pc.Claiming? || pc.Stopped?
    ensures var (w', pc') := SchedulerStep(w, pc, o); Aside(w, w', pc') && !Replied(pc', i)
  {
  }

  lemma WorkOrigin(c: Config, s: Sys, o: Oracle, i: Id, content: Bytes)
    ensures Gated(c, s, Work(o), Next(c, s, Work(o)), i, content)
  {
    hide RecoveryStep, AttemptStep, PublicationStep, EndingStep, SchedulerStep;
    if s.pc.Down? || Recovering(s.pc) {
      RecoveryOrigin(s.w, s.pc, o, i);
    } else if Attempting(s.pc) {
      AttemptOrigin(c, s.w, s.pc, o, i);
    } else if Publication(s.pc) {
      PublicationOrigin(c, s, o, i, content);
    } else if Ending(s.pc) {
      EndingOrigin(s.w, s.pc, o, i);
    } else {
      SchedulerOrigin(s.w, s.pc, o, i);
    }
  }

  lemma StepOrigin(c: Config, s: Sys, a: Action, i: Id, content: Bytes)
    ensures Gated(c, s, a, Next(c, s, a), i, content)
  {
    match a
    case Work(o) => WorkOrigin(c, s, o, i, content);
    case _ => hide WorkerStep;
  }

  // ---- Along a run ----

  lemma TraceOrigin(c: Config, t: Trace, k: nat, i: Id, content: Bytes)
    requires IsRun(c, t) && At(t, k + 1)
    ensures Gated(c, t.states[k], t.acts[k], t.states[k + 1], i, content)
  {
    hide IsRun, Evolves, Inv, Next, Gated;
    TraceStep(c, t, k);
    StepOrigin(c, t.states[k], t.acts[k], i, content);
  }

  lemma EmptyStart(c: Config, t: Trace)
    requires IsRun(c, t)
    ensures t.states[0].pc.Down? && t.states[0].w.hist.passed == map[]
  {
  }

  lemma {:induction false} WhenCalled(c: Config, t: Trace, k: nat, i: Id) returns (r: nat)
    requires IsRun(c, t) && At(t, k) && Replied(t.states[k].pc, i)
    ensures r < k && CallVerified(t.states[r], t.acts[r], i)
  {
    hide IsRun, CallVerified;
    EmptyStart(c, t);
    TraceOrigin(c, t, k - 1, i, []);
    r := k - 1;
    if Replied(t.states[k - 1].pc, i) {
      r := WhenCalled(c, t, k - 1, i);
    }
  }

  lemma {:induction false} WhenSettled(c: Config, t: Trace, k: nat, i: Id) returns (r: nat)
    requires IsRun(c, t) && At(t, k) && ToValidation(t.states[k].pc, i)
    ensures r < k && SettledWell(t.states[r], t.acts[r], i)
  {
    hide IsRun, SettledWell;
    EmptyStart(c, t);
    TraceOrigin(c, t, k - 1, i, []);
    r := k - 1;
    if ToValidation(t.states[k - 1].pc, i) {
      r := WhenSettled(c, t, k - 1, i);
    }
  }

  lemma {:induction false} WhenValidated(c: Config, t: Trace, k: nat, i: Id, content: Bytes) returns (r: nat)
    requires IsRun(c, t) && At(t, k) && Validated(t.states[k].pc, i, content)
    ensures r < k && ContentValidated(c, t.states[r], t.acts[r], i, content)
  {
    hide IsRun, ContentValidated;
    EmptyStart(c, t);
    TraceOrigin(c, t, k - 1, i, content);
    r := k - 1;
    if Validated(t.states[k - 1].pc, i, content) {
      r := WhenValidated(c, t, k - 1, i, content);
    }
  }

  lemma {:induction false} WhenVerified(c: Config, t: Trace, k: nat, i: Id, content: Bytes) returns (r: nat)
    requires IsRun(c, t) && At(t, k) && Passed(t.states[k].w, i, content)
    ensures r < k && ContentVerified(t.states[r], t.acts[r], i, content)
  {
    hide IsRun, ContentVerified;
    EmptyStart(c, t);
    TraceOrigin(c, t, k - 1, i, content);
    r := k - 1;
    if Passed(t.states[k - 1].w, i, content) {
      r := WhenVerified(c, t, k - 1, i, content);
    }
  }

  /** The moments of one content, in their order. */
  ghost predicate WasVerified(c: Config, t: Trace, i: Id, content: Bytes, called: nat, settled: nat,
                              validated: nat, verified: nat)
    requires verified < |t.acts| && |t.states| == |t.acts| + 1
  {
    called < settled < validated < verified
    && CallVerified(t.states[called], t.acts[called], i)
    && SettledWell(t.states[settled], t.acts[settled], i)
    && ContentValidated(c, t.states[validated], t.acts[validated], i, content)
    && ContentVerified(t.states[verified], t.acts[verified], i, content)
  }

  /** What is on record as passed really passed: a library call for the job returned a
      verified result, then its attempts were settled in a live context with no
      cancellation accepted, then exactly these bytes passed archive validation, and
      then exactly these bytes passed independent verification. */
  lemma PassedWhen(c: Config, t: Trace, k: nat, i: Id)
    returns (called: nat, settled: nat, validated: nat, verified: nat)
    requires IsRun(c, t) && At(t, k) && i in t.states[k].w.hist.passed
    ensures verified < k && WasVerified(c, t, i, t.states[k].w.hist.passed[i], called, settled, validated, verified)
  {
    hide IsRun;
    var content := t.states[k].w.hist.passed[i];
    verified := WhenVerified(c, t, k, i, content);
    validated := WhenValidated(c, t, verified, i, content);
    settled := WhenSettled(c, t, validated, i);
    called := WhenCalled(c, t, settled, i);
  }
}
