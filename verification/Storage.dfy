/** The file store in place. Each operation may fail; what a failed one leaves
    behind is part of its contract. */
module Storage {
  import opened Model
  import opened Protocol

  class FileStore {
    var work: map<Id, Option<Bytes>>
    var inputs: set<Id>
    var artifacts: map<Id, Bytes>

    function Contents(): Files
      reads this
    {
      Files(work, inputs, artifacts)
    }

    constructor ()
      ensures Contents() == Files(map[], {}, map[])
    {
      work, inputs, artifacts := map[], {}, map[];
    }

    /** Adopts what the other threads left. */
    method Restore(fs: Files)
      modifies this
      ensures Contents() == fs
    {
      work, inputs, artifacts := fs.work, fs.inputs, fs.artifacts;
    }

    /** Creates the private directory of a job; it must not exist. */
    method Workspace(id: Id, healthy: bool) returns (ok: bool)
      modifies this
      ensures ok == (healthy && id !in old(work))
      ensures Contents() == old(Contents()).(work := if ok then old(work)[id := None] else old(work))
    {
      ok := healthy && id !in work;
      if ok {
        work := work[id := None];
      }
    }

    /** The library leaves its output in the workspace. */
    method Output(id: Id, content: Bytes)
      modifies this
      ensures Contents() == old(Contents()).(work :=
                if id in old(work) then old(work)[id := Some(content)] else old(work))
    {
      if id in work {
        work := work[id := Some(content)];
      }
    }

    /** Removes one entry, if it is there. Only the removal of a directory can stop half way. */
    method Remove(kind: Kind, id: Id, healthy: bool, lost: bool)
      modifies this
      ensures Contents() == RemovedFrom(old(Contents()), kind, id, healthy, lost)
      ensures work == if kind != WorkDirs || id !in old(work) then old(work)
                      else if healthy then old(work) - {id}
                      else if lost then old(work)[id := None]
                      else old(work)
      ensures inputs == if kind == InputFiles && healthy then old(inputs) - {id} else old(inputs)
      ensures artifacts == if kind == ArtifactFiles && healthy then old(artifacts) - {id} else old(artifacts)
    {
      if healthy {
        match kind
        case WorkDirs => work := work - {id};
        case InputFiles => inputs := inputs - {id};
        case ArtifactFiles => artifacts := artifacts - {id};
      } else if kind == WorkDirs && lost && id in work {
        work := work[id := None];
      }
    }

    /** Moves the output of a job to the artifacts. A failure may strike before the
        rename or after it; a success means the artifact is there and is durable. */
    method Publish(id: Id, healthy: bool, renamed: bool) returns (published: Option<Bytes>)
      modifies this
      ensures published.Some? <==> healthy && id in old(work) && old(work)[id].Some?
      ensures published.Some? ==> old(work)[id] == published && id in artifacts && artifacts[id] == published.value
      ensures Contents() ==
              if id in old(work) && old(work)[id].Some? && (healthy || renamed)
              then Files(old(work)[id := None], old(inputs), old(artifacts)[id := old(work)[id].value])
              else old(Contents())
    {
      published := None;
      if id !in work || work[id].None? {
        return;
      }
      if healthy || renamed {
        var content := work[id].value;
        work, artifacts := work[id := None], artifacts[id := content];
        if healthy {
          published := Some(content);
        }
      }
    }
  }

  function RemovedFrom(fs: Files, kind: Kind, id: Id, healthy: bool, lost: bool): Files {
    match kind
    case WorkDirs =>
      if healthy then fs.(work := fs.work - {id})
      else if lost && id in fs.work then fs.(work := fs.work[id := None])
      else fs
    case InputFiles => if healthy then fs.(inputs := fs.inputs - {id}) else fs
    case ArtifactFiles => if healthy then fs.(artifacts := fs.artifacts - {id}) else fs
  }
}
