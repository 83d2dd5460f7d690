/** Three shapes cover almost every atomic effect: one row (and the device), the
    files of one job, and the history. Whoever uses a shape proves only what
    concerns the job it touches. */
module Frames {
  import opened Model
  import opened Protocol
  import opened Invariant

  function WithRow(w: World, id: Id, j: Job, device: Device): World {
    w.(db := Db(w.db.jobs[id := j], device, w.db.ops))
  }

  lemma RowReflexive(w: World, w': World, i: Id)
    requires i in w.db.jobs && i in w'.db.jobs && w'.db.jobs[i] == w.db.jobs[i]
    ensures RowEvolves(w, w', i)
  {
  }

  lemma FileFrame(c: Config, w: World, w': World, i: Id)
    requires FileOk(c, w, i) && w.now <= w'.now
    requires i in w.db.jobs <==> i in w'.db.jobs
    requires i in w.db.jobs ==> w'.db.jobs[i] == w.db.jobs[i]
    requires i in w.fs.work <==> i in w'.fs.work
    requires i in w.fs.inputs <==> i in w'.fs.inputs
    requires i in w.fs.artifacts <==> i in w'.fs.artifacts
    requires i in w.fs.artifacts ==> w'.fs.artifacts[i] == w.fs.artifacts[i]
    requires i in w.hist.passed <==> i in w'.hist.passed
    requires i in w.hist.passed ==> w'.hist.passed[i] == w.hist.passed[i]
    ensures FileOk(c, w', i)
  {
  }

  /** A write that neither opens nor closes a review leaves the device consistent. */
  lemma SameReview(w: World, id: Id, j: Job)
    requires DeviceOk(w) && id in w.db.jobs && Unresolved(j) == Unresolved(w.db.jobs[id])
    requires w.db.jobs[id].state != Queued ==> j.state != Queued
    ensures DeviceOk(WithRow(w, id, j, w.db.device))
  {
    var w' := WithRow(w, id, j, w.db.device);
    if w.db.device.quarantined {
      var i :| i in w.db.jobs && Unresolved(w.db.jobs[i]);
      assert i in w'.db.jobs && Unresolved(w'.db.jobs[i]);
    }
  }

  lemma OneRowEvolves(w: World, id: Id, j: Job, device: Device)
    requires id in w.db.jobs && RowEvolves(w, WithRow(w, id, j, device), id)
    ensures Evolves(w, WithRow(w, id, j, device))
  {
    var w' := WithRow(w, id, j, device);
    forall i | i in w.db.jobs ensures RowEvolves(w, w', i) {
      if i != id { RowReflexive(w, w', i); }
    }
  }

  lemma OneRowOps(w: World, id: Id, j: Job, device: Device)
    requires OpsOk(w) && id in w.db.jobs && (w.db.jobs[id].state != Queued ==> j.state != Queued)
    requires Active(w.db.jobs[id].state) && !Active(j.state) ==> CleanOps(w, id)
    ensures OpsOk(WithRow(w, id, j, device))
  {
  }

  lemma OneRow(c: Config, w: World, id: Id, j: Job, device: Device)
    requires WorldInv(c, w) && id in w.db.jobs
    requires var w' := WithRow(w, id, j, device);
      RowOk(j, id, w.now) && FileOk(c, w', id) && RowEvolves(w, w', id) && DeviceOk(w')
    requires Active(w.db.jobs[id].state) && !Active(j.state) ==> CleanOps(w, id)
    ensures var w' := WithRow(w, id, j, device); WorldInv(c, w') && Evolves(w, w')
  {
    var w' := WithRow(w, id, j, device);
    forall i | i in w'.db.jobs ensures RowOk(w'.db.jobs[i], i, w'.now) {
      assert i != id ==> RowOk(w.db.jobs[i], i, w.now);
    }
    forall i ensures FileOk(c, w', i) {
      if i != id { FileFrame(c, w, w', i); }
    }
    OneRowEvolves(w, id, j, device);
    OneRowOps(w, id, j, device);
  }

  /** A row write that the scheduler thread does not notice. */
  lemma OneRowEnv(w: World, id: Id, j: Job, device: Device)
    requires id in w.db.jobs && Evolves(w, WithRow(w, id, j, device))
    requires device.owner == w.db.device.owner && (device.quarantined ==> w.db.device.quarantined)
    requires Live(w.db.jobs[id]) ==> RowUndisturbed(w, WithRow(w, id, j, device), id)
    requires w.db.jobs[id].state == Queued ==> j.state == Queued
    ensures Env(w, WithRow(w, id, j, device))
  {
    var w' := WithRow(w, id, j, device);
    forall i | i in w.db.jobs && Live(w.db.jobs[i]) ensures RowUndisturbed(w, w', i) {
    }
  }

  /** The two worlds differ in the files of one job only. */
  ghost predicate SameBut(w: World, w': World, id: Id) {
    w' == w.(fs := w'.fs)
    && forall i :: i != id ==>
         && (i in w'.fs.work <==> i in w.fs.work)
         && (i in w.fs.work ==> w'.fs.work[i] == w.fs.work[i])
         && (i in w'.fs.inputs <==> i in w.fs.inputs)
         && (i in w'.fs.artifacts <==> i in w.fs.artifacts)
         && (i in w.fs.artifacts ==> w'.fs.artifacts[i] == w.fs.artifacts[i])
  }

  lemma OneFile(c: Config, w: World, w': World, id: Id)
    requires WorldInv(c, w) && SameBut(w, w', id) && FileOk(c, w', id)
    requires id in w'.fs.work && id !in w.fs.work ==> id in w.db.jobs && w.db.jobs[id].state == Running
    requires id in w'.fs.inputs && id !in w.fs.inputs ==> id !in w.db.jobs
    requires id in w'.fs.artifacts ==>
      if id in w.fs.artifacts then w'.fs.artifacts[id] == w.fs.artifacts[id]
      else id in w.db.jobs && w.db.jobs[id].state == Verifying && w.db.jobs[id].expiresAt.None?
    ensures WorldInv(c, w') && Evolves(w, w')
  {
    forall i ensures FileOk(c, w', i) {
      if i != id { FileFrame(c, w, w', i); }
    }
    forall i | i in w.db.jobs ensures RowEvolves(w, w', i) {
      RowReflexive(w, w', i);
    }
    assert RowsOk(w') && DeviceOk(w') && OpsOk(w');
  }

  lemma OneFileEnv(w: World, w': World, id: Id)
    requires SameBut(w, w', id) && Evolves(w, w')
    requires id in w.db.jobs && Live(w.db.jobs[id]) ==> RowUndisturbed(w, w', id)
    requires id in w'.fs.artifacts ==> id in w.fs.artifacts
    requires id in w.fs.artifacts && id !in w'.fs.artifacts ==>
      id in w.db.jobs && w.db.jobs[id].expiresAt.Some? && w.db.jobs[id].expiresAt.value <= w.now
    ensures Env(w, w')
  {
    forall i | i in w.db.jobs && Live(w.db.jobs[i]) ensures RowUndisturbed(w, w', i) {
    }
  }

  /** How the history may change alone: outstanding operations may leave, passed content
      may be added. */
  ghost predicate HistoryGrows(w: World, hist: History) {
    hist.dirty <= w.hist.dirty
    && (forall i :: i in w.hist.passed ==> i in hist.passed && hist.passed[i] == w.hist.passed[i])
    && forall i :: i in hist.passed && i !in w.hist.passed ==>
         i in w.db.jobs && w.db.jobs[i].state != Queued && w.db.jobs[i].state != Running
  }

  lemma HistoryFiles(c: Config, w: World, hist: History)
    requires FilesOk(c, w) && HistoryGrows(w, hist)
    ensures FilesOk(c, w.(hist := hist))
  {
    forall i ensures FileOk(c, w.(hist := hist), i) {
      assert FileOk(c, w, i);
    }
  }

  lemma HistoryEvolution(w: World, hist: History)
    requires HistoryGrows(w, hist)
    ensures Evolves(w, w.(hist := hist))
  {
    var w' := w.(hist := hist);
    forall i | i in w.db.jobs ensures RowEvolves(w, w', i) {
      RowReflexive(w, w', i);
    }
    assert RowsEvolve(w, w') && FilesEvolve(w, w') && OpsEvolve(w, w');
  }

  lemma OnlyHistory(c: Config, w: World, hist: History)
    requires WorldInv(c, w) && HistoryGrows(w, hist)
    ensures var w' := w.(hist := hist); WorldInv(c, w') && Evolves(w, w')
    ensures hist == w.hist.(dirty := hist.dirty) ==> Env(w, w.(hist := hist))
  {
    var w' := w.(hist := hist);
    HistoryFiles(c, w, hist);
    HistoryEvolution(w, hist);
    hide FilesOk, Evolves;
    assert RowsOk(w') && DeviceOk(w') && OpsOk(w');
  }
}
