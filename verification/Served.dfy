/** What the archive scan means for what is served. */
module Served {
  import opened Model
  import opened Protocol
  import opened Traces
  import opened Theorems
  import Provenance
  import Archive
  import Paths

  /** The limit on the expanded size of an output. */
  const OutputLimit: Archive.U64 := 34359738368

  /** The validation of outputs is the archive scan, for this way of reading archives. */
  ghost predicate Scans(c: Config, unzip: Bytes -> Archive.File, f: Archive.Foreign) {
    forall b :: c.accepts(b) <==> Archive.Acceptable(unzip(b), OutputLimit, f)
  }

  /** Whatever the download handler opens after its check passed is an acceptable archive:
      in particular no entry of it leads out of the directory it is unpacked in. */
  lemma ServedArchive(c: Config, unzip: Bytes -> Archive.File, f: Archive.Foreign, t: Trace, k: nat, m: nat, i: Id,
                      now: Time)
    requires Scans(c, unzip, f) && IsRun(c, t) && k <= m && At(t, m)
    requires i in Theorems.Db(t, k).jobs && DownloadGuard(Theorems.Db(t, k).jobs[i], now)
    requires i in t.states[m].w.fs.artifacts
    ensures var file := unzip(t.states[m].w.fs.artifacts[i]);
      Archive.Acceptable(file, OutputLimit, f) && Contained(file)
  {
    hide IsRun;
    var content := t.states[m].w.fs.artifacts[i];
    var called, settled, validated, verified := ServedArtifact(c, t, k, m, i, now);
    assert Provenance.ContentValidated(c, t.states[validated], t.acts[validated], i, content);
    EntriesContained(unzip(content), f);
  }

  /** Wherever one stops along the name of an entry, one is inside the root. */
  ghost predicate Contained(file: Archive.File) {
    file.Zip?
    && forall e, n :: e in file.entries && 0 <= n <= |Paths.Split(e.name)| ==>
         Paths.Walk(Paths.Split(e.name)[..n]).Some?
  }

  lemma EntriesContained(file: Archive.File, f: Archive.Foreign)
    requires Archive.Acceptable(file, OutputLimit, f)
    ensures Contained(file)
  {
    forall e, n | e in file.entries && 0 <= n <= |Paths.Split(e.name)|
      ensures Paths.Walk(Paths.Split(e.name)[..n]).Some?
    {
      Archive.Contained(e.name, n);
    }
  }
}
