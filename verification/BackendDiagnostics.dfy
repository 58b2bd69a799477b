/** The editor extension's client of the language backend: it calls the backend directly and remembers what it has
    given it. */
module BackendDiagnostics {
  import opened Options
  import opened LsMirror

  class BackendDiagnosticsClient {
    /** The backend's documents and files, which only this client's calls change. */
    var backend: Store
    var nextRequestId: nat
    var mirrored: map<Path, Document>
    var lastSynced: map<Path, string>

    /** The backend has the files last synced, and has open what the client remembers. */
    ghost predicate Valid()
      reads this
    {
      backend.files == lastSynced && backend.documents.Keys == mirrored.Keys
    }

    ghost predicate Agrees(path: Path)
      reads this
    {
      path in mirrored && path in backend.documents && backend.documents[path] == mirrored[path]
    }

    constructor ()
      ensures Valid() && mirrored == map[] && nextRequestId == 1
    {
      backend, nextRequestId, mirrored, lastSynced := Store(map[], map[]), 1, map[], map[];
    }

    method Call(m: InMessage) returns (ok: bool)
      modifies `backend
      ensures ok == !Rejects(old(backend), m) && backend == Step(old(backend), m)
    {
      ok := !Rejects(backend, m);
      backend := Step(backend, m);
    }

    /** The backend follows exactly if the version does not go back behind the one it has; a document that is not
        open, or that it has lost track of, is opened. */
    method SyncDocument(path: Path, document: Document)
      requires Valid()
      modifies `backend, `mirrored
      ensures Valid() && mirrored == old(mirrored)[path := document]
      ensures old(path !in mirrored || Agrees(path)) ==>
                (Agrees(path) <==> path !in old(mirrored) || old(mirrored)[path].version <= document.version)
      ensures forall q :: q != path && old(Agrees(q)) ==> Agrees(q)
    {
      if path in mirrored && mirrored[path] == document { return; }
      if path !in mirrored {
        var _ := Call(OpenDocument(path, document.source, document.version));
      } else {
        var ok := Call(UpdateDocument(path, document.source, document.version, mirrored[path].version));
        if !ok {
          var _ := Call(OpenDocument(path, document.source, document.version));
        }
      }
      mirrored := mirrored[path := document];
    }

    method CloseDocument(path: Path)
      requires Valid()
      modifies `backend, `mirrored
      ensures Valid() && mirrored == old(mirrored) - {path}
      ensures forall q :: q != path && old(Agrees(q)) ==> Agrees(q)
    {
      mirrored := mirrored - {path};
      var _ := Call(InMessage.CloseDocument(path));
    }

    /** Whatever differs is sent, once, and nothing else. */
    method SyncWorkspaceSnapshot(files: map<Path, string>)
      returns (ghost removed: seq<InMessage>, ghost uploaded: seq<InMessage>)
      requires Valid()
      modifies `backend, `lastSynced
      ensures Valid() && lastSynced == files && backend == old(backend).(files := files)
      ensures Removals(removed, old(lastSynced).Keys, old(lastSynced), files) && Distinct(removed)
      ensures Uploads(uploaded, files.Keys, old(lastSynced), files) && Distinct(uploaded)
    {
      removed := RemoveDropped(files);
      uploaded := PersistChanged(files);
      RunConcat(old(backend), removed, uploaded);
      SyncedFiles(old(backend), removed, uploaded, files);
      lastSynced := files;
    }

    method RemoveDropped(files: map<Path, string>) returns (ghost removed: seq<InMessage>)
      modifies `backend
      ensures backend == Run(old(backend), removed)
      ensures Removals(removed, lastSynced.Keys, lastSynced, files) && Distinct(removed)
    {
      removed := [];
      var done: set<Path> := {};
      while lastSynced.Keys - done != {}
        invariant done <= lastSynced.Keys
        invariant backend == Run(old(backend), removed)
        invariant Removals(removed, done, lastSynced, files) && Distinct(removed)
        decreases lastSynced.Keys - done
      {
        var path :| path in lastSynced.Keys - done;
        if path !in files {
          RunSnoc(old(backend), removed, RemoveFile(path));
          var _ := Call(RemoveFile(path));
          removed := removed + [RemoveFile(path)];
        }
        done := done + {path};
      }
      AllDone(lastSynced.Keys, done);
    }

    method PersistChanged(files: map<Path, string>) returns (ghost uploaded: seq<InMessage>)
      modifies `backend
      ensures backend == Run(old(backend), uploaded)
      ensures Uploads(uploaded, files.Keys, lastSynced, files) && Distinct(uploaded)
    {
      uploaded := [];
      var done: set<Path> := {};
      while files.Keys - done != {}
        invariant done <= files.Keys
        invariant backend == Run(old(backend), uploaded)
        invariant Uploads(uploaded, done, lastSynced, files) && Distinct(uploaded)
        decreases files.Keys - done
      {
        var path :| path in files.Keys - done;
        if Lookup(lastSynced, path) != Some(files[path]) {
          RunSnoc(old(backend), uploaded, PersistFile(path, files[path]));
          var _ := Call(PersistFile(path, files[path]));
          uploaded := uploaded + [PersistFile(path, files[path])];
        }
        done := done + {path};
      }
      AllDone(files.Keys, done);
    }

    /** The backend answers if it has the version, or if the client still has it and the backend has no later one. */
    method RequestDiagnostics(path: Path, version: int) returns (answered: bool)
      requires Valid()
      modifies `backend, `nextRequestId
      ensures Valid() && nextRequestId > old(nextRequestId)
      ensures answered <==>
                || (path in old(backend).documents && old(backend).documents[path].version == version)
                || (path in mirrored && mirrored[path].version == version &&
                    old(backend).documents[path].version <= version)
      ensures forall q :: old(Agrees(q)) ==> Agrees(q)
    {
      answered := Ask(path, version);
      if answered || path !in mirrored || mirrored[path].version != version { return; }
      var _ := Call(OpenDocument(path, mirrored[path].source, mirrored[path].version));
      answered := Ask(path, version);
    }

    method Ask(path: Path, version: int) returns (answered: bool)
      modifies `nextRequestId
      ensures nextRequestId == old(nextRequestId) + 1
      ensures answered <==> path in backend.documents && backend.documents[path].version == version
    {
      answered := !Rejects(backend, Request(Diagnostics, nextRequestId, path, version, Query(0, 0, None, "")));
      nextRequestId := nextRequestId + 1;
    }
  }
}
