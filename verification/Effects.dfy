/** Each atomic effect keeps the world invariant and is a legal step. */
module Effects {
  import opened Model
  import opened Transactions
  import opened Protocol
  import opened Invariant
  import opened Stability
  import opened Frames

  // ---- The clock and the API ----

  lemma TickEnv(w: World, d: nat)
    ensures Env(w, w.(now := w.now + d))
  {
    var w' := w.(now := w.now + d);
    forall i | i in w.db.jobs ensures RowEvolves(w, w', i) {
      RowReflexive(w, w', i);
    }
    assert Evolves(w, w');
  }

  lemma TickEffect(c: Config, w: World, d: nat)
    requires WorldInv(c, w)
    ensures var w' := w.(now := w.now + d); WorldInv(c, w') && Env(w, w')
  {
    var w' := w.(now := w.now + d);
    TickEnv(w, d);
    forall i | i in w.db.jobs ensures RowOk(w'.db.jobs[i], i, w'.now) {
      assert RowOk(w.db.jobs[i], i, w.now);
    }
    forall i ensures FileOk(c, w', i) {
      FileFrame(c, w, w', i);
    }
  }

  function Admit(w: World, id: Id, source: Source): World {
    w.(db := Put(w.db, NewJob(id, source, w.now)))
  }

  lemma EnqueueEnv(w: World, id: Id, source: Source)
    requires id !in w.db.jobs
    ensures Env(w, Admit(w, id, source))
  {
    var w' := Admit(w, id, source);
    forall i | i in w.db.jobs ensures RowEvolves(w, w', i) {
      RowReflexive(w, w', i);
    }
    assert Evolves(w, w');
  }

  lemma EnqueueDevice(w: World, id: Id, source: Source)
    requires DeviceOk(w) && id !in w.db.jobs
    ensures DeviceOk(Admit(w, id, source))
  {
    if w.db.device.quarantined {
      var i :| i in w.db.jobs && Unresolved(w.db.jobs[i]);
      assert i in Admit(w, id, source).db.jobs;
    }
  }

  lemma EnqueueEffect(c: Config, w: World, id: Id, source: Source)
    requires WorldInv(c, w) && id !in w.db.jobs
    requires source == Upload ==> id in w.fs.inputs
    ensures WorldInv(c, Admit(w, id, source)) && Env(w, Admit(w, id, source))
  {
    EnqueueEnv(w, id, source);
    EnqueueDevice(w, id, source);
    EnqueueOps(w, id, source);
    hide DeviceOk, Env, RowsOk, FilesOk, OpsOk;
    EnqueueRows(c, w, id, source);
  }

  lemma EnqueueOps(w: World, id: Id, source: Source)
    requires OpsOk(w) && id !in w.db.jobs
    ensures OpsOk(Admit(w, id, source))
  {
  }

  lemma EnqueueRows(c: Config, w: World, id: Id, source: Source)
    requires RowsOk(w) && FilesOk(c, w) && id !in w.db.jobs
    requires source == Upload ==> id in w.fs.inputs
    ensures RowsOk(Admit(w, id, source)) && FilesOk(c, Admit(w, id, source))
  {
    var w' := Admit(w, id, source);
    forall i | i in w'.db.jobs ensures RowOk(w'.db.jobs[i], i, w'.now) {
      assert i != id ==> RowOk(w.db.jobs[i], i, w.now);
    }
    forall i ensures FileOk(c, w', i) {
      assert FileOk(c, w, i);
      if i != id { FileFrame(c, w, w', i); }
    }
  }

  lemma CancelEffect(c: Config, w: World, id: Id)
    requires WorldInv(c, w) && CancelTx(w.db, id).Ok?
    ensures var w' := w.(db := CancelTx(w.db, id).value); WorldInv(c, w') && Env(w, w')
  {
    var j := w.db.jobs[id].(cancelRequested := true);
    assert w.(db := CancelTx(w.db, id).value) == WithRow(w, id, j, w.db.device);
    assert RowOk(w.db.jobs[id], id, w.now) && FileOk(c, w, id) && DeviceOk(w);
    hide WorldInv, RowsOk, FilesOk, OpsOk, DeviceOk, Evolves;
    SameReview(w, id, j);
    OneRow(c, w, id, j, w.db.device);
    OneRowEnv(w, id, j, w.db.device);
  }

  /** Operations only ever leave the set of outstanding ones. */
  lemma CleanedEffect(c: Config, w: World, dirty: set<OpId>)
    requires WorldInv(c, w) && dirty <= w.hist.dirty
    ensures var w' := w.(hist := w.hist.(dirty := dirty)); WorldInv(c, w') && Env(w, w')
  {
    OnlyHistory(c, w, w.hist.(dirty := dirty));
  }

  lemma AttestEffect(c: Config, w: World, id: Id)
    requires WorldInv(c, w)
    ensures WorldInv(c, Attest(w, id)) && Env(w, Attest(w, id)) && CleanOps(Attest(w, id), id)
  {
    CleanedEffect(c, w, w.hist.dirty - OpsOf(w, id));
  }

  // ---- Removals ----

  lemma RemoveArtifactEffect(c: Config, w: World, id: Id)
    requires WorldInv(c, w) && !(!Available(RemoveArtifact(w, id), id))
    ensures var w' := RemoveArtifact(w, id); WorldInv(c, w') && Evolves(w, w')
    ensures id in w.db.jobs && w.db.jobs[id].expiresAt.Some? && w.db.jobs[id].expiresAt.value <= w.now
            ==> Env(w, RemoveArtifact(w, id))
  {
    var w' := RemoveArtifact(w, id);
    assert FileOk(c, w, id);
    OneFile(c, w, w', id);
    if id in w.db.jobs && w.db.jobs[id].expiresAt.Some? && w.db.jobs[id].expiresAt.value <= w.now {
      OneFileEnv(w, w', id);
    }
  }

  lemma RemoveWorkEffect(c: Config, w: World, id: Id)
    requires WorldInv(c, w)
    ensures var w' := RemoveWork(w, id); WorldInv(c, w') && Evolves(w, w')
    ensures !(id in w.db.jobs && Live(w.db.jobs[id])) ==> Env(w, RemoveWork(w, id))
  {
    var w' := RemoveWork(w, id);
    assert FileOk(c, w, id);
    OneFile(c, w, w', id);
    if !(id in w.db.jobs && Live(w.db.jobs[id])) {
      OneFileEnv(w, w', id);
    }
  }

  lemma SpoilWorkEffect(c: Config, w: World, id: Id, lost: bool)
    requires WorldInv(c, w)
    ensures var w' := SpoilWork(w, id, lost); WorldInv(c, w') && Evolves(w, w')
    ensures !(id in w.db.jobs && Live(w.db.jobs[id])) ==> Env(w, SpoilWork(w, id, lost))
  {
    var w' := SpoilWork(w, id, lost);
    assert FileOk(c, w, id);
    OneFile(c, w, w', id);
    if !(id in w.db.jobs && Live(w.db.jobs[id])) {
      OneFileEnv(w, w', id);
    }
  }

  lemma RemoveInputEffect(c: Config, w: World, id: Id)
    requires WorldInv(c, w) && (id in w.db.jobs ==> !NeedsInput(w.db.jobs[id].state))
    ensures var w' := RemoveInput(w, id); WorldInv(c, w') && Evolves(w, w')
    ensures !(id in w.db.jobs && Live(w.db.jobs[id])) ==> Env(w, RemoveInput(w, id))
  {
    var w' := RemoveInput(w, id);
    assert FileOk(c, w, id);
    OneFile(c, w, w', id);
    if !(id in w.db.jobs && Live(w.db.jobs[id])) {
      OneFileEnv(w, w', id);
    }
  }

  // ---- Expiry and cleanup passes ----

  lemma ExpiredEffect(c: Config, w: World, row: Job)
    requires WorldInv(c, w) && SnapOk(w, row.id, row)
    requires row.expiresAt.Some? && row.expiresAt.value <= w.now && row.id !in w.fs.artifacts
    ensures var w' := w.(db := ExpiredTx(w.db, row)); WorldInv(c, w') && Env(w, w')
  {
    var j := ExpiredTx(w.db, row).jobs[row.id];
    assert w.(db := ExpiredTx(w.db, row)) == WithRow(w, row.id, j, w.db.device);
    assert RowOk(w.db.jobs[row.id], row.id, w.now) && FileOk(c, w, row.id) && DeviceOk(w);
    hide WorldInv, RowsOk, FilesOk, OpsOk, DeviceOk, Evolves;
    SameReview(w, row.id, j);
    OneRow(c, w, row.id, j, w.db.device);
    OneRowEnv(w, row.id, j, w.db.device);
  }

  /** What a confirmed job needs before its outcome may be committed. */
  ghost predicate ReadyToResolve(w: World, id: Id) {
    id in w.db.jobs && Unresolved(w.db.jobs[id]) && CleanOps(w, id) && Swept(w, id)
  }

  lemma ResolveDevice(w: World, id: Id)
    requires DeviceOk(w) && Resolvable(w.db, id)
    ensures DeviceOk(w.(db := ResolveTx(w.db, id).value))
    ensures ResolveTx(w.db, id).value.device.owner == w.db.device.owner == None
  {
    assert Unresolved(w.db.jobs[id]) && w.db.device.quarantined;
    var w' := w.(db := ResolveTx(w.db, id).value);
    if UnresolvedIds(w'.db.jobs) != {} {
      var i :| i in UnresolvedIds(w'.db.jobs);
      assert i in w'.db.jobs && Unresolved(w'.db.jobs[i]);
    } else {
      forall i | i in w'.db.jobs ensures !Unresolved(w'.db.jobs[i]) {
        assert i !in UnresolvedIds(w'.db.jobs);
      }
    }
  }

  lemma ResolveEffect(c: Config, w: World, id: Id)
    requires WorldInv(c, w) && ReadyToResolve(w, id)
    ensures ResolveTx(w.db, id).Ok?
    ensures var w' := w.(db := ResolveTx(w.db, id).value); WorldInv(c, w') && Env(w, w')
  {
    assert RowOk(w.db.jobs[id], id, w.now) && FileOk(c, w, id);
    ResolveDevice(w, id);
    var db := ResolveTx(w.db, id).value;
    assert w.(db := db) == WithRow(w, id, db.jobs[id], db.device);
    OneRow(c, w, id, db.jobs[id], db.device);
    OneRowEnv(w, id, db.jobs[id], db.device);
  }

  lemma ExpiryEffect(c: Config, w: World, e: Expiry, o: Oracle)
    requires WorldInv(c, w) && ScanOk(w, e)
    ensures var x := ExpiryNext(w, e, o);
      WorldInv(c, x.w) && Env(w, x.w) && (x.ExpiryMore? ==> ScanOk(x.w, x.e))
  {
    TickEnv(w, 0);
    match e
    case Snapshot =>
      forall i | i in w.db.jobs ensures SnapOk(w, i, w.db.jobs[i]) {
        assert RowOk(w.db.jobs[i], i, w.now);
      }
    case Loop(todo) =>
      if todo != map[] && o.id in todo {
        assert SnapOk(w, o.id, todo[o.id]);
        if Due(todo[o.id], w.now) && o.ok {
          RemoveArtifactEffect(c, w, o.id);
          var w' := RemoveArtifact(w, o.id);
          SnapsStable(w, w', todo - {o.id});
          assert SnapOk(w', o.id, todo[o.id]);
        }
      }
    case Mark(row, rest) =>
      if o.ok {
        ExpiredEffect(c, w, row);
        SnapsStable(w, ExpiryNext(w, e, o).w, rest);
      }
  }

  lemma PassEffect(c: Config, w: World, id: Id, pass: Pass, o: Oracle)
    requires WorldInv(c, w) && PassOk(w, id, pass)
    ensures var x := PassNext(w, id, pass, o);
      && WorldInv(c, x.w) && Env(w, x.w)
      && (x.PassMore? ==> PassOk(x.w, id, x.pass))
      && (x.PassDone? && x.confirmed ==> CleanOps(x.w, id))
  {
    TickEnv(w, 0);
    if pass.Asking? && o.op in pass.todo && !o.late && o.ok {
      CleanedEffect(c, w, w.hist.dirty - {o.op});
    }
  }

  lemma ConfirmWorkEffect(c: Config, w: World, cf: Confirmation, o: Oracle)
    requires WorldInv(c, w) && ConfirmOk(w, cf) && cf.stage.ConfirmWork?
    ensures var w' := if o.ok then RemoveWork(w, cf.id) else SpoilWork(w, cf.id, o.alt);
      && WorldInv(c, w') && Env(w, w')
      && ConfirmOk(w', Confirmation(cf.id, ConfirmInput, cf.bad || !o.ok))
  {
    var w' := if o.ok then RemoveWork(w, cf.id) else SpoilWork(w, cf.id, o.alt);
    hide WorldInv, Evolves, CleanOps;
    RemoveWorkEffect(c, w, cf.id);
    SpoilWorkEffect(c, w, cf.id, o.alt);
    ConfirmStable(w, w', cf);
    hide Env;
  }

  lemma ConfirmInputEffect(c: Config, w: World, cf: Confirmation, o: Oracle)
    requires WorldInv(c, w) && ConfirmOk(w, cf) && cf.stage.ConfirmInput?
    ensures var w' := if o.ok then RemoveInput(w, cf.id) else w;
      && WorldInv(c, w') && Env(w, w')
      && ConfirmOk(w', Confirmation(cf.id, ConfirmTemp, cf.bad || !o.ok))
  {
    var w' := if o.ok then RemoveInput(w, cf.id) else w;
    hide WorldInv, Evolves, CleanOps;
    TickEnv(w, 0);
    RemoveInputEffect(c, w, cf.id);
    ConfirmStable(w, w', cf);
    hide Env;
  }

  lemma ConfirmEffect(c: Config, w: World, cf: Confirmation, o: Oracle)
    requires WorldInv(c, w) && ConfirmOk(w, cf)
    ensures var x := ConfirmNext(w, cf, o);
      WorldInv(c, x.w) && Env(w, x.w) && (x.ConfirmMore? ==> ConfirmOk(x.w, x.cf))
  {
    hide WorldInv, Evolves;
    TickEnv(w, 0);
    var x := ConfirmNext(w, cf, o);
    match cf.stage
    case ConfirmWork => ConfirmWorkEffect(c, w, cf, o);
    case ConfirmInput => ConfirmInputEffect(c, w, cf, o);
    case ConfirmTemp =>
    case ConfirmExpire(e) =>
      hide ExpiryNext;
      ExpiryEffect(c, w, e, o);
      ConfirmStable(w, x.w, cf);
    case ConfirmResolve =>
      if Unresolved(w.db.jobs[cf.id]) {
        ResolveEffect(c, w, cf.id);
      }
  }
}
