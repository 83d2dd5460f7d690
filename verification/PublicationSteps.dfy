/** The steps between the last attempt and cleanup: verification, publication and
    the record of what was published. */
module PublicationSteps {
  import opened Model
  import opened Transactions
  import opened Protocol
  import opened Invariant
  import opened Frames
  import opened Effects
  import opened WorkerSteps
  import Engine

  lemma VerifyingEffect(c: Config, w: World, id: Id)
    requires WorldInv(c, w) && RunOk(w, id, Running)
    ensures ChangeTx(w.db, id, Verifying).Ok?
    ensures var w' := w.(db := ChangeTx(w.db, id, Verifying).value);
      WorldInv(c, w') && Evolves(w, w') && RunOk(w', id, Verifying) && Unpublished(w', id)
      && id !in w'.hist.passed
  {
    var j := w.db.jobs[id].(state := Verifying);
    assert RowOk(w.db.jobs[id], id, w.now) && FileOk(c, w, id);
    SameReview(w, id, j);
    OneRow(c, w, id, j, w.db.device);
  }

  lemma PassedEffect(c: Config, w: World, id: Id, content: Bytes)
    requires WorldInv(c, w) && RunOk(w, id, Verifying) && id !in w.hist.passed
    ensures var w' := w.(hist := w.hist.(passed := w.hist.passed[id := content]));
      WorldInv(c, w') && Evolves(w, w') && RunOk(w', id, Verifying)
  {
    OnlyHistory(c, w, w.hist.(passed := w.hist.passed[id := content]));
  }

  /** The workspace output becomes the artifact by one rename. */
  function Renamed(w: World, id: Id, content: Bytes): World {
    w.(fs := w.fs.(work := w.fs.work[id := None], artifacts := w.fs.artifacts[id := content]))
  }

  lemma PublishEffect(c: Config, w: World, id: Id)
    requires WorldInv(c, w) && RunOk(w, id, Verifying) && Unpublished(w, id)
    requires id in w.hist.passed && id in w.fs.work && w.fs.work[id] == Some(w.hist.passed[id])
    ensures var w' := Renamed(w, id, w.hist.passed[id]);
      WorldInv(c, w') && Evolves(w, w') && RunOk(w', id, Verifying)
  {
    assert FileOk(c, w, id) && RowOk(w.db.jobs[id], id, w.now);
    OneFile(c, w, Renamed(w, id, w.hist.passed[id]), id);
  }

  lemma RecordEffect(c: Config, w: World, id: Id, expiry: Time)
    requires WorldInv(c, w) && RunOk(w, id, Verifying) && w.db.jobs[id].expiresAt.None?
    requires id in w.fs.artifacts
    ensures var w' := w.(db := RecordTx(w.db, id, |w.fs.artifacts[id]|, c.sha(w.fs.artifacts[id]), expiry));
      WorldInv(c, w') && Evolves(w, w') && RunOk(w', id, Verifying)
      && w'.db.jobs[id].expiresAt.Some?
  {
    var j := RecordTx(w.db, id, |w.fs.artifacts[id]|, c.sha(w.fs.artifacts[id]), expiry).jobs[id];
    assert RowOk(w.db.jobs[id], id, w.now) && FileOk(c, w, id);
    SameReview(w, id, j);
    OneRow(c, w, id, j, w.db.device);
  }

  lemma FinishLegal(c: Config, w: World, w': World, id: Id, desired: State, code: Code, review: bool, ended: bool)
    requires WorldInv(c, w') && Evolves(w, w') && EndingInv(w', Finishing(id, desired, code, review))
    ensures Legal(c, w, w', ToFinish(id, desired, code, review, ended))
  {
    hide WorldInv, Evolves, Legal;
    ToEnding(c, w, w', ToFinish(id, desired, code, review, ended));
  }

  lemma SettleSteps(c: Config, w: World, id: Id, reply: Engine.Reply, o: Oracle)
    requires WorldInv(c, w) && PublicationInv(c, w, Settle(id, reply))
    ensures var (w', pc') := PublicationStep(c, w, Settle(id, reply), o); Legal(c, w, w', pc')
  {
    hide WorldInv, Evolves, Legal;
    TickEnv(w, 0);
    if !o.ok {
      ToEnding(c, w, w, Releasing(id, true));
    } else {
      var (desired, code) := Verdict(reply, w.db.jobs[id].cancelRequested, o.late);
      var review := Engine.NeedsReview(reply);
      if desired == Completed {
        ToPublication(c, w, w, ToVerifying(id, review));
      } else {
        FinishLegal(c, w, w, id, desired, code, review, o.alt);
      }
    }
  }

  lemma ToVerifyingSteps(c: Config, w: World, id: Id, review: bool, o: Oracle)
    requires WorldInv(c, w) && PublicationInv(c, w, ToVerifying(id, review))
    ensures var (w', pc') := PublicationStep(c, w, ToVerifying(id, review), o); Legal(c, w, w', pc')
  {
    hide WorldInv, Evolves, Legal;
    VerifyingEffect(c, w, id);
    if o.ok {
      ToPublication(c, w, w.(db := ChangeTx(w.db, id, Verifying).value), Validating(id, review));
    } else {
      TickEnv(w, 0);
      ToEnding(c, w, w, Releasing(id, true));
    }
  }

  lemma ValidatingSteps(c: Config, w: World, id: Id, review: bool, o: Oracle)
    requires WorldInv(c, w) && PublicationInv(c, w, Validating(id, review))
    ensures var (w', pc') := PublicationStep(c, w, Validating(id, review), o); Legal(c, w, w', pc')
  {
    hide WorldInv, Evolves, Legal;
    TickEnv(w, 0);
    if o.ok && id in w.fs.work && w.fs.work[id].Some? && c.accepts(w.fs.work[id].value) {
      ToPublication(c, w, w, Checking(id, review, w.fs.work[id].value));
    } else {
      FinishLegal(c, w, w, id, Failed, VerificationFailed, review, o.late);
    }
  }

  lemma CheckingSteps(c: Config, w: World, id: Id, review: bool, content: Bytes, o: Oracle)
    requires WorldInv(c, w) && PublicationInv(c, w, Checking(id, review, content))
    ensures var (w', pc') := PublicationStep(c, w, Checking(id, review, content), o); Legal(c, w, w', pc')
  {
    hide WorldInv, Evolves, Legal;
    if o.ok {
      PassedEffect(c, w, id, content);
      ToPublication(c, w, w.(hist := w.hist.(passed := w.hist.passed[id := content])), Publishing(id, review));
    } else {
      TickEnv(w, 0);
      FinishLegal(c, w, w, id, Failed, VerificationFailed, review, o.late);
    }
  }

  lemma PublishingSteps(c: Config, w: World, id: Id, review: bool, o: Oracle)
    requires WorldInv(c, w) && PublicationInv(c, w, Publishing(id, review))
    ensures var (w', pc') := PublicationStep(c, w, Publishing(id, review), o); Legal(c, w, w', pc')
  {
    hide WorldInv, Evolves, Legal;
    var content := w.hist.passed[id];
    PublishEffect(c, w, id);
    if o.ok {
      ToPublication(c, w, Renamed(w, id, content),
                    Recording(id, review, |content|, c.sha(content), w.now + c.retention));
    } else if o.alt {
      FinishLegal(c, w, Renamed(w, id, content), id, Failed, StorageFailed, review, o.late);
    } else {
      TickEnv(w, 0);
      FinishLegal(c, w, w, id, Failed, StorageFailed, review, o.late);
    }
  }

  lemma RecordingSteps(c: Config, w: World, id: Id, review: bool, size: nat, hash: Digest, expiry: Time, o: Oracle)
    requires WorldInv(c, w) && PublicationInv(c, w, Recording(id, review, size, hash, expiry))
    ensures var (w', pc') := PublicationStep(c, w, Recording(id, review, size, hash, expiry), o);
      Legal(c, w, w', pc')
  {
    hide WorldInv, Evolves, Legal;
    if o.ok {
      RecordEffect(c, w, id, expiry);
      var w' := w.(db := RecordTx(w.db, id, size, hash, expiry));
      FinishLegal(c, w, w', id, Completed, NoCode, review, o.late);
    } else {
      TickEnv(w, 0);
      ToEnding(c, w, w, Releasing(id, true));
    }
  }

  lemma PublicationSteps(c: Config, w: World, pc: Pc, o: Oracle)
    requires Publication(pc) && WorldInv(c, w) && PublicationInv(c, w, pc)
    ensures var (w', pc') := PublicationStep(c, w, pc, o); Legal(c, w, w', pc')
  {
    hide WorldInv, PublicationInv, Legal, PublicationStep;
    match pc
    case Settle(id, reply) => SettleSteps(c, w, id, reply, o);
    case ToVerifying(id, review) => ToVerifyingSteps(c, w, id, review, o);
    case Validating(id, review) => ValidatingSteps(c, w, id, review, o);
    case Checking(id, review, content) => CheckingSteps(c, w, id, review, content, o);
    case Publishing(id, review) => PublishingSteps(c, w, id, review, o);
    case Recording(id, review, size, hash, expiry) => RecordingSteps(c, w, id, review, size, hash, expiry, o);
  }
}
