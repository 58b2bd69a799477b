/** The language-service client as the program has it: variables that the calls and the message handlers update. Each
    method does to the client what its counterpart in `LsSystem` says. */
module LsClient {
  import opened Options
  import opened LsMirror
  import opened LsDesk
  import opened LsSystem

  class LsWorkerClient {
    var worker: Option<Port>
    var generations: nat
    var nextRequestId: nat
    var requests: map<Slot, nat>
    var resolvers: map<Slot, set<PromiseId>>
    var retries: map<Slot, Retry>
    var hoverKeys: map<Path, HoverKey>
    var sent: map<Path, Document>
    var fingerprints: map<Path, Fingerprint>
    var models: map<Path, ModelId>
    var synced: map<Path, string>
    var timers: map<Path, int>

    /** The promises handed out and what they were settled with. */
    var nextPromise: nat
    var settled: map<PromiseId, Option<string>>
    ghost var owner: map<PromiseId, Slot>
    ghost var sentAt: map<Slot, nat>

    /** The editor's models and the workspace's files, which others change. */
    var editor: map<ModelId, Document>
    var workspace: map<Path, string>

    ghost function Books(): Desk
      reads this
    {
      Desk(nextRequestId, requests, resolvers, hoverKeys, nextPromise, settled, owner)
    }

    ghost function View(): Client
      reads this
    {
      Client(Books(), worker, generations, retries, sentAt, sent, fingerprints, models, editor, synced, workspace,
             timers)
    }

    /** What a model holds now. */
    function Contents(model: ModelId): Document
      reads `editor
    {
      if model in editor then editor[model] else Document(0, "")
    }

    constructor (editor: map<ModelId, Document>, workspace: map<Path, string>)
      ensures View() == Client(START, None, 0, map[], map[], map[], map[], map[], editor, map[], workspace, map[])
    {
      worker, generations, nextRequestId, nextPromise := None, 0, 1, 0;
      requests, resolvers, retries, hoverKeys, sent, fingerprints := map[], map[], map[], map[], map[], map[];
      models, synced, timers, settled, owner, sentAt := map[], map[], map[], map[], map[], map[];
      this.editor, this.workspace := editor, workspace;
    }

    // The worker.

    method PostMessage(generation: nat, m: InMessage)
      modifies `worker
      ensures worker == Send(old(worker), generation, [m])
    {
      if worker.Some? && worker.value.generation == generation {
        SendOne(worker.value, m);
        worker := Some(Post(worker.value, m));
      }
    }

    method SyncModelToWorker(path: Path, document: Document)
      modifies `worker, `sent
      ensures sent == old(sent)[path := document]
      ensures worker ==
              Send(old(worker), Generation(old(View())), [OpenDocument(path, document.source, document.version)])
    {
      if worker.Some? {
        PostMessage(worker.value.generation, OpenDocument(path, document.source, document.version));
      }
      sent := sent[path := document];
    }

    method OpenOnWorker(path: Path, document: Document)
      modifies `worker, `sent
      ensures View() == OpenModel(old(View()), path, document)
    {
      SyncModelToWorker(path, document);
    }

    // Requests in flight.

    method CancelPendingRequest(slot: Slot, generation: nat)
      modifies `requests, `worker
      ensures requests == old(requests) - {slot}
      ensures worker == Send(old(worker), generation, Cancelling(Lookup(old(requests), slot)))
    {
      if slot in requests {
        PostMessage(generation, CancelRequest(requests[slot]));
        requests := requests - {slot};
      }
    }

    method StartTrackedRequest(slot: Slot, generation: nat, version: int, query: Query)
      modifies `requests, `worker, `nextRequestId, `sentAt
      ensures Books() == Ask(old(Books()), slot)
      ensures worker == Send(old(worker), generation, StartMessages(old(Books()), slot, version, query))
      ensures sentAt ==
              old(sentAt)[slot := Length(old(worker)) + |StartMessages(old(Books()), slot, version, query)| - 1]
    {
      ghost var m := Request(slot.kind, nextRequestId, slot.path, version, query);
      SendTwice(worker, generation, Cancelling(Lookup(requests, slot)), [m]);
      sentAt := sentAt[slot := Length(worker) + |Cancelling(Lookup(requests, slot))|];
      CancelPendingRequest(slot, generation);
      var requestId := nextRequestId;
      nextRequestId := nextRequestId + 1;
      requests := requests[slot := requestId];
      PostMessage(generation, Request(slot.kind, requestId, slot.path, version, query));
    }

    method SettleAll(ps: set<PromiseId>, value: Option<string>)
      modifies `settled
      ensures settled == old(settled) + AllTo(ps, value)
    {
      var todo := ps;
      while todo != {}
        invariant todo <= ps
        invariant settled == old(settled) + AllTo(ps - todo, value)
        decreases todo
      {
        var p :| p in todo;
        settled := settled[p := value];
        todo := todo - {p};
      }
    }

    /** Calls the resolver of the slot, if there is one, and forgets it. */
    method Resolve(slot: Slot, value: Option<string>)
      modifies `settled, `owner, `resolvers, `retries, `hoverKeys
      ensures var d := Drop(old(Books()), slot, value);
              settled == d.settled && owner == d.owner && resolvers == d.resolvers && hoverKeys == d.hoverKeys
      ensures retries == old(retries) - {slot}
    {
      owner := map p: PromiseId | p in owner && owner[p] != slot :: owner[p];
      if slot in resolvers { SettleAll(resolvers[slot], value); }
      resolvers := resolvers - {slot};
      retries := retries - {slot};
      if slot.kind == Hover { hoverKeys := hoverKeys - {slot.path}; }
    }

    method ClearPending(slot: Slot, value: Option<string>)
      modifies `settled, `owner, `resolvers, `retries, `hoverKeys, `requests
      ensures Books() == Drop(old(Books()), slot, value) && retries == old(retries) - {slot}
    {
      Resolve(slot, value);
      requests := requests - {slot};
    }

    method CancelPending(slot: Slot, generation: nat)
      modifies `settled, `owner, `resolvers, `retries, `hoverKeys, `requests, `worker
      ensures Books() == Drop(old(Books()), slot, None) && retries == old(retries) - {slot}
      ensures worker == Send(old(worker), generation, Cancelling(Lookup(old(requests), slot)))
    {
      Resolve(slot, None);
      CancelPendingRequest(slot, generation);
    }

    method AddPromise(slot: Slot, key: HoverKey) returns (p: PromiseId)
      modifies `resolvers, `owner, `hoverKeys, `nextPromise
      ensures Books() == Promise(old(Books()), slot, key) && p == PromiseId(old(nextPromise))
    {
      p := PromiseId(nextPromise);
      nextPromise := nextPromise + 1;
      if slot.kind == Hover { hoverKeys := hoverKeys[slot.path := key]; }
      resolvers := resolvers[slot := (if slot in resolvers then resolvers[slot] else {}) + {p}];
      owner := owner[p := slot];
    }

    /** Whatever is in flight for the slot is given up, and a promise put in its place. */
    method ReplacePromise(slot: Slot, generation: nat, key: HoverKey, retry: Retry) returns (p: PromiseId)
      modifies `settled, `owner, `resolvers, `retries, `hoverKeys, `requests, `worker, `nextPromise
      ensures p == PromiseId(old(nextPromise)) && Books() == Promise(Drop(old(Books()), slot, None), slot, key)
      ensures worker == Send(old(worker), generation, Cancelling(Lookup(old(requests), slot)))
      ensures retries == old(retries)[slot := retry]
    {
      CancelPending(slot, generation);
      p := AddPromise(slot, key);
      retries := retries[slot := retry];
    }

    method StartRequest(slot: Slot, generation: nat, version: int, query: Query, retry: Retry) returns (p: PromiseId)
      modifies `settled, `owner, `resolvers, `retries, `hoverKeys, `requests, `worker, `nextRequestId, `nextPromise,
               `sentAt
      ensures p == PromiseId(old(nextPromise)) && Books() == Offer(old(Books()), slot, HoverKey(version, query))
      ensures worker == Send(old(worker), generation, StartMessages(old(Books()), slot, version, query))
      ensures retries == old(retries)[slot := retry]
      ensures sentAt ==
              old(sentAt)[slot := Length(old(worker)) + |StartMessages(old(Books()), slot, version, query)| - 1]
    {
      ghost var at := sentAt[slot := Length(worker) + |StartMessages(Books(), slot, version, query)| - 1];
      ghost var m := Request(slot.kind, nextRequestId, slot.path, version, query);
      SendTwice(worker, generation, Cancelling(Lookup(requests, slot)), [m]);
      p := ReplacePromise(slot, generation, HoverKey(version, query), retry);
      assert StartMessages(Books(), slot, version, query) == [m];
      StartTrackedRequest(slot, generation, version, query);
      sentAt := at;
    }

    /** The worker has failed: whatever waits is settled with nothing. */
    method HandleWorkerError()
      modifies this
      ensures View() == HandleCrash(old(View()))
    {
      CloseInFlight();
      retries, fingerprints, worker := map[], map[], None;
    }

    method CloseInFlight()
      modifies this
      ensures View() == old(View()).(desk := Crash(old(Books())))
    {
      CloseBooks();
    }

    method CloseBooks()
      modifies `settled, `owner, `resolvers, `hoverKeys, `requests
      ensures Books() == Crash(old(Books()))
    {
      SettleResolvers();
      resolvers, hoverKeys, owner := map[], map[], map[];
      requests := OnlyDiagnostics(requests);
    }

    method SettleResolvers()
      modifies `settled
      ensures settled == old(settled) + AllTo(Open(Books()), None)
    {
      var todo := resolvers.Keys;
      ghost var done: set<PromiseId> := {};
      while todo != {}
        invariant todo <= resolvers.Keys
        invariant forall p :: p in done <==> exists s :: s in resolvers && s !in todo && p in resolvers[s]
        invariant settled == old(settled) + AllTo(done, None)
        decreases todo
      {
        var slot :| slot in todo;
        SettleAll(resolvers[slot], None);
        todo, done := todo - {slot}, done + resolvers[slot];
      }
      assert done == Open(Books());
    }

    /** Calls the retry of the slot, if there is one. */
    method RunRetry(slot: Slot, version: int)
      modifies `requests, `worker, `nextRequestId, `sentAt
      ensures View() == Restart(old(View()), slot, version)
    {
      if slot.kind == Diagnostics && slot in requests {
        StartTrackedRequest(slot, if worker.Some? then worker.value.generation else generations, version, NO_QUERY);
      } else if slot in retries {
        RunClosure(slot);
      }
    }

    method RunClosure(slot: Slot)
      requires slot in retries
      modifies `requests, `worker, `nextRequestId, `sentAt
      ensures View() == var c := old(View()); var r := c.retries[slot];
                        Start(c, slot, r.generation, Current(c, r.model).version, r.query)
    {
      var r := retries[slot];
      StartTrackedRequest(slot, r.generation, Contents(r.model).version, r.query);
    }

    /** What is in flight for the path is asked again, in the order of the kinds. */
    method RunRetries(path: Path, version: int, kinds: seq<Kind>)
      modifies `requests, `worker, `nextRequestId, `sentAt
      ensures View() == RestartKinds(old(View()), path, version, kinds)
    {
      var todo := kinds;
      while todo != []
        invariant RestartKinds(old(View()), path, version, kinds) == RestartKinds(View(), path, version, todo)
        decreases |todo|
      {
        RunRetry(Slot(todo[0], path), version);
        todo := todo[1..];
      }
    }

    /** The worker asks for a document. */
    method HandleResyncDocument(path: Path)
      modifies `requests, `worker, `nextRequestId, `sentAt, `sent, `fingerprints
      ensures View() == HandleResync(old(View()), path)
    {
      if path !in models || worker.None? { return; }
      var document := Contents(models[path]);
      if Lookup(fingerprints, path) == Some(Fingerprint(document.version, PendingIds(requests, path))) { return; }
      ReopenDocument(path, document, KINDS);
    }

    method ReopenDocument(path: Path, document: Document, kinds: seq<Kind>)
      modifies `requests, `worker, `nextRequestId, `sentAt, `sent, `fingerprints
      ensures View() == Reopen(old(View()), path, document, kinds)
    {
      OpenOnWorker(path, document);
      RunRetries(path, document.version, kinds);
      fingerprints := fingerprints[path := Fingerprint(document.version, PendingIds(requests, path))];
    }

    /** The worker has answered, under the identifier of some request. */
    method HandleResult(slot: Slot, requestId: nat, version: int, payload: Option<string>)
      modifies `settled, `owner, `resolvers, `retries, `hoverKeys, `requests
      ensures View() == HandleReply(old(View()), slot, requestId, version, payload)
    {
      if Lookup(requests, slot) != Some(requestId) { return; }
      if slot.path !in models || version < Contents(models[slot.path]).version {
        ClearPending(slot, None);
      } else {
        ClearPending(slot, payload);
      }
    }

    method HandleResultError(slot: Slot, requestId: nat)
      modifies `settled, `owner, `resolvers, `retries, `hoverKeys, `requests
      ensures View() == HandleError(old(View()), slot, requestId)
    {
      if Lookup(requests, slot) != Some(requestId) { return; }
      ClearPending(slot, None);
    }

    /** Diagnostics about an earlier version, or for a path that is gone, are dropped and stay asked for. */
    method HandleDiagnosticsResult(path: Path, requestId: nat, version: int)
      modifies `settled, `owner, `resolvers, `retries, `hoverKeys, `requests, `fingerprints
      ensures View() == HandleDiagnostics(old(View()), path, requestId, version)
    {
      if path !in models { return; }
      if Lookup(requests, Slot(Diagnostics, path)) != Some(requestId) { return; }
      if version < Contents(models[path]).version { return; }
      ClearDiagnostics(path);
    }

    method HandleDiagnosticsResultError(path: Path, requestId: nat)
      modifies `settled, `owner, `resolvers, `retries, `hoverKeys, `requests, `fingerprints
      ensures View() == HandleDiagnosticsError(old(View()), path, requestId)
    {
      if Lookup(requests, Slot(Diagnostics, path)) != Some(requestId) { return; }
      ClearDiagnostics(path);
    }

    method ClearDiagnostics(path: Path)
      modifies `settled, `owner, `resolvers, `retries, `hoverKeys, `requests, `fingerprints
      ensures View() ==
              DropSlot(old(View()), Slot(Diagnostics, path), None).(fingerprints := old(fingerprints) - {path})
    {
      ClearPending(Slot(Diagnostics, path), None);
      fingerprints := fingerprints - {path};
    }

    // Calls.

    method GetWorker() returns (generation: nat, ghost port: Port)
      modifies `worker, `generations, `synced, `sent
      ensures old(worker).None? ==> IsSeed(old(View()), port)
      ensures View() == WithWorker(old(View()), port) && worker == Some(port) && generation == port.generation
    {
      if worker.Some? {
        port := worker.value;
      } else {
        port := CreateWorker();
      }
      generation := worker.value.generation;
    }

    /** A new worker starts with the workspace's files and the registered models. */
    method CreateWorker() returns (ghost port: Port)
      requires worker.None?
      modifies `worker, `generations, `synced, `sent
      ensures IsSeed(old(View()), port) && worker == Some(port) && generations == old(generations) + 1
      ensures synced == workspace && sent == old(sent) + Registered(old(View()))
    {
      var documents := map p | p in models :: Contents(models[p]);
      SeedWorker(documents);
      port := worker.value;
      generations := generations + 1;
    }

    method SeedWorker(documents: map<Path, Document>)
      modifies `worker, `synced, `sent
      ensures worker.Some? && worker.value.generation == generations
      ensures IsTrace(worker.value.posted, worker.value.states) && Final(worker.value) == Store(documents, workspace)
      ensures forall m :: m in worker.value.posted ==> !HasId(m) && !m.UpdateDocument?
      ensures synced == workspace && sent == old(sent) + documents
    {
      var empty := Port(generations, [], [Store(map[], map[])]);
      worker := Some(empty);
      synced := map[];
      ghost var removed, uploaded := SyncWorkspaceSnapshotToWorker();
      ghost var seeded := SyncRegisteredModelsToWorker(documents);
      FreshPort(generations, removed, uploaded, seeded, workspace, documents);
      SendTwice(Some(empty), generations, removed + uploaded, seeded);
    }

    /** Removals first, then whatever is new or changed, nothing else, and nothing twice. */
    method SyncWorkspaceSnapshotToWorker() returns (ghost removed: seq<InMessage>, ghost uploaded: seq<InMessage>)
      requires worker.Some?
      modifies `worker, `synced
      ensures IsSync(old(View()), removed, uploaded) && synced == workspace
      ensures worker == Send(old(worker), old(worker).value.generation, removed + uploaded)
    {
      removed := RemoveDropped();
      uploaded := UploadChanged();
      SendTwice(old(worker), worker.value.generation, removed, uploaded);
      synced := workspace;
    }

    method RemoveDropped() returns (ghost removed: seq<InMessage>)
      requires worker.Some?
      modifies `worker
      ensures worker == Send(old(worker), old(worker).value.generation, removed)
      ensures Removals(removed, synced.Keys, synced, workspace) && Distinct(removed)
    {
      removed := [];
      var generation := worker.value.generation;
      var done: set<Path> := {};
      while synced.Keys - done != {}
        invariant done <= synced.Keys
        invariant worker == Send(old(worker), generation, removed)
        invariant Removals(removed, done, synced, workspace) && Distinct(removed)
        decreases synced.Keys - done
      {
        var path :| path in synced.Keys - done;
        if path !in workspace {
          SendTwice(old(worker), generation, removed, [RemoveFile(path)]);
          PostMessage(generation, RemoveFile(path));
          removed := removed + [RemoveFile(path)];
        }
        done := done + {path};
      }
      AllDone(synced.Keys, done);
    }

    method UploadChanged() returns (ghost uploaded: seq<InMessage>)
      requires worker.Some?
      modifies `worker
      ensures worker == Send(old(worker), old(worker).value.generation, uploaded)
      ensures Uploads(uploaded, workspace.Keys, synced, workspace) && Distinct(uploaded)
    {
      uploaded := [];
      var generation := worker.value.generation;
      var done: set<Path> := {};
      while workspace.Keys - done != {}
        invariant done <= workspace.Keys
        invariant worker == Send(old(worker), generation, uploaded)
        invariant Uploads(uploaded, done, synced, workspace) && Distinct(uploaded)
        decreases workspace.Keys - done
      {
        var path :| path in workspace.Keys - done;
        if Lookup(synced, path) != Some(workspace[path]) {
          SendTwice(old(worker), generation, uploaded, [PersistFile(path, workspace[path])]);
          PostMessage(generation, PersistFile(path, workspace[path]));
          uploaded := uploaded + [PersistFile(path, workspace[path])];
        }
        done := done + {path};
      }
      AllDone(workspace.Keys, done);
    }

    method SyncRegisteredModelsToWorker(documents: map<Path, Document>) returns (ghost seeded: seq<InMessage>)
      requires worker.Some?
      modifies `worker, `sent
      ensures worker == Send(old(worker), old(worker).value.generation, seeded)
      ensures Opens(seeded, documents.Keys, documents) && sent == old(sent) + documents
    {
      seeded := [];
      var generation := worker.value.generation;
      var done: set<Path> := {};
      while documents.Keys - done != {}
        invariant done <= documents.Keys
        invariant worker == Send(old(worker), generation, seeded)
        invariant Opens(seeded, done, documents)
        invariant forall p :: p in sent <==> p in old(sent) || p in done
        invariant forall p :: p in sent ==> sent[p] == if p in done then documents[p] else old(sent)[p]
        decreases documents.Keys - done
      {
        var path :| path in documents.Keys - done;
        var m := OpenDocument(path, documents[path].source, documents[path].version);
        SendTwice(old(worker), generation, seeded, [m]);
        SyncModelToWorker(path, documents[path]);
        seeded := seeded + [m];
        done := done + {path};
      }
      AllDone(documents.Keys, done);
    }

    method WorkspaceFilesChanged(files: map<Path, string>) returns (ghost removed: seq<InMessage>,
                                 ghost uploaded: seq<InMessage>)
      modifies `workspace, `worker, `synced
      ensures worker.Some? ==> IsSync(old(View()).(workspace := files), removed, uploaded)
      ensures View() == SyncFiles(old(View()).(workspace := files), removed, uploaded)
    {
      workspace := files;
      removed, uploaded := [], [];
      if worker.Some? { removed, uploaded := SyncWorkspaceSnapshotToWorker(); }
    }

    method RegisterModel(path: Path, model: ModelId) returns (ghost port: Port)
      modifies `models, `fingerprints, `worker, `generations, `synced, `sent
      ensures old(worker).None? ==> IsSeed(old(View()).(models := old(models)[path := model]), port)
      ensures View() == Register(old(View()), path, model, port)
    {
      models := models[path := model];
      fingerprints := fingerprints - {path};
      if worker.Some? {
        port := worker.value;
        OpenOnWorker(path, Contents(model));
      } else {
        var _, created := GetWorker();
        port := created;
      }
    }

    method UpdateDocument(path: Path, document: Document) returns (ghost port: Port)
      modifies `worker, `generations, `synced, `sent, `fingerprints, `timers
      ensures old(worker).None? ==> IsSeed(old(View()), port)
      ensures View() == Update(old(View()), path, document, port)
    {
      var generation;
      generation, port := GetWorker();
      PostDelta(path, document);
    }

    method PostDelta(path: Path, document: Document)
      requires worker.Some?
      modifies `worker, `sent, `fingerprints, `timers
      ensures worker == Send(old(worker), old(worker).value.generation, [Delta(old(View()), path, document)])
      ensures sent == old(sent)[path := document] && fingerprints == old(fingerprints) - {path}
      ensures timers == old(timers)[path := document.version]
    {
      var previous := if path in sent then sent[path].version else document.version - 1;
      fingerprints := fingerprints - {path};
      PostMessage(worker.value.generation,
                  InMessage.UpdateDocument(path, document.source, document.version, previous));
      sent := sent[path := document];
      timers := timers[path := document.version];
    }

    method TimerFires(path: Path) returns (ghost port: Port)
      requires path in timers
      modifies this
      ensures old(worker).None? ==> IsSeed(old(View()).(timers := old(timers) - {path}), port)
      ensures View() == FireTimer(old(View()), path, port)
    {
      var version := ClearTimer(path);
      port := EnsureWorker();
      StartOnWorker(Slot(Diagnostics, path), version, NO_QUERY);
    }

    method ClearTimer(path: Path) returns (version: int)
      requires path in timers
      modifies this
      ensures View() == old(View()).(timers := old(timers) - {path}) && version == old(timers)[path]
    {
      version := timers[path];
      timers := timers - {path};
    }

    method EnsureWorker() returns (ghost port: Port)
      modifies this
      ensures old(worker).None? ==> IsSeed(old(View()), port)
      ensures View() == WithWorker(old(View()), port) && worker == Some(port)
    {
      var _, created := GetWorker();
      port := created;
    }

    method StartOnWorker(slot: Slot, version: int, query: Query)
      requires worker.Some?
      modifies this
      ensures View() == Start(old(View()), slot, Generation(old(View())), version, query)
    {
      StartTrackedRequest(slot, worker.value.generation, version, query);
    }

    method RequestFeature(slot: Slot, model: ModelId, query: Query) returns (p: PromiseId, ghost port: Port)
      modifies this
      ensures old(worker).None? ==> IsSeed(old(View()), port)
      ensures View() == AskFeature(old(View()), slot, model, query, port) && p == PromiseId(old(nextPromise))
    {
      port := EnsureWorker();
      p := OfferOnWorker(slot, Contents(model).version, model, query);
    }

    method OfferOnWorker(slot: Slot, version: int, model: ModelId, query: Query) returns (p: PromiseId)
      requires worker.Some?
      modifies this
      ensures View() == OfferSlot(old(View()), slot, Generation(old(View())), version, model, query)
      ensures p == PromiseId(old(nextPromise))
    {
      var generation := worker.value.generation;
      p := StartRequest(slot, generation, version, query, Retry(generation, model, query));
    }

    method RequestHover(path: Path, model: ModelId, query: Query) returns (p: PromiseId, ghost port: Port)
      modifies this
      ensures old(worker).None? ==> IsSeed(old(View()), port)
      ensures View() == AskHover(old(View()), path, model, query, port) && p == PromiseId(old(nextPromise))
    {
      port := EnsureWorker();
      var version := Contents(model).version;
      if Lookup(hoverKeys, path) == Some(HoverKey(version, query)) && Slot(Hover, path) in resolvers {
        p := JoinInFlight(Slot(Hover, path));
      } else {
        p := OfferOnWorker(Slot(Hover, path), version, model, query);
      }
    }

    method JoinInFlight(slot: Slot) returns (p: PromiseId)
      requires slot in resolvers
      modifies this
      ensures View() == old(View()).(desk := Join(old(Books()), slot)) && p == PromiseId(old(nextPromise))
    {
      p := JoinPromise(slot);
    }

    method JoinPromise(slot: Slot) returns (p: PromiseId)
      requires slot in resolvers
      modifies `resolvers, `owner, `nextPromise
      ensures Books() == Join(old(Books()), slot) && p == PromiseId(old(nextPromise))
    {
      p := PromiseId(nextPromise);
      nextPromise := nextPromise + 1;
      resolvers := resolvers[slot := resolvers[slot] + {p}];
      owner := owner[p := slot];
    }

    method UnregisterModel(path: Path) returns (ghost port: Port)
      modifies this
      ensures old(worker).None? ==> IsSeed(Forget(old(View()), path), port)
      ensures View() == Unregister(old(View()), path, port)
    {
      ForgetModel(path);
      port := EnsureWorker();
      GiveUpPath(path, KINDS);
    }

    method GiveUpPath(path: Path, kinds: seq<Kind>)
      requires worker.Some?
      modifies `settled, `owner, `resolvers, `retries, `hoverKeys, `requests, `worker, `timers
      ensures View() == GiveUp(old(View()), path, kinds)
    {
      CancelAll(path, kinds);
      timers := timers - {path};
    }

    method ForgetModel(path: Path)
      modifies this
      ensures View() == Forget(old(View()), path)
    {
      DropModel(path);
      PostToWorker(CloseDocument(path));
    }

    method DropModel(path: Path)
      modifies this
      ensures View() == old(View()).(models := old(models) - {path}, fingerprints := old(fingerprints) - {path},
                                     sent := old(sent) - {path})
    {
      models, fingerprints, sent := models - {path}, fingerprints - {path}, sent - {path};
    }

    method PostToWorker(m: InMessage)
      modifies this
      ensures View() == old(View()).(worker := Send(old(worker), Generation(old(View())), [m]))
    {
      if worker.Some? { PostMessage(worker.value.generation, m); }
    }

    method CancelAll(path: Path, kinds: seq<Kind>)
      requires worker.Some?
      modifies `settled, `owner, `resolvers, `retries, `hoverKeys, `requests, `worker
      ensures View() == CancelKinds(old(View()), path, kinds)
    {
      var todo := kinds;
      while todo != []
        invariant worker.Some?
        invariant CancelKinds(old(View()), path, kinds) == CancelKinds(View(), path, todo)
        decreases |todo|
      {
        CancelInFlight(Slot(todo[0], path));
        todo := todo[1..];
      }
    }

    method CancelInFlight(slot: Slot)
      requires worker.Some?
      modifies `settled, `owner, `resolvers, `retries, `hoverKeys, `requests, `worker
      ensures worker.Some? && View() == CancelSlot(old(View()), slot, Generation(old(View())))
    {
      CancelPending(slot, worker.value.generation);
    }
  }
}
