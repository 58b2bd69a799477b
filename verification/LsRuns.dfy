/** Runs of the language-service client: what every call and every message keeps. */
module LsRuns {
  import opened Options
  import opened LsMirror
  import opened LsDesk
  import opened LsSystem

  /** Calls into the client and messages from its worker. A port is the queue of the worker that the call creates if
      there is none. Messages are arbitrary: they may be late, repeated, or from a worker given up. */
  datatype Call =
    | RegisterModel(path: Path, model: ModelId, port: Port)
    | UnregisterModel(path: Path, port: Port)
    | UpdateText(path: Path, document: Document, port: Port)
    | TimerFires(path: Path, port: Port)
    | RequestFeature(slot: Slot, model: ModelId, query: Query, port: Port)
    | RequestHover(path: Path, model: ModelId, query: Query, port: Port)
    | WorkspaceChanges(files: map<Path, string>, removed: seq<InMessage>, uploaded: seq<InMessage>)
    | GetReply(slot: Slot, requestId: nat, version: int, payload: Option<string>)
    | GetError(slot: Slot, requestId: nat)
    | GetDiagnostics(path: Path, requestId: nat, version: int)
    | GetDiagnosticsError(path: Path, requestId: nat)
    | GetResync(path: Path)
    | WorkerFails
    | Edit(model: ModelId, document: Document)

  function Next(c: Client, call: Call): Client {
    match call
    case RegisterModel(path, model, port) => Register(c, path, model, port)
    case UnregisterModel(path, port) => Unregister(c, path, port)
    case UpdateText(path, document, port) => Update(c, path, document, port)
    case TimerFires(path, port) => if path in c.timers then FireTimer(c, path, port) else c
    case RequestFeature(slot, model, query, port) => AskFeature(c, slot, model, query, port)
    case RequestHover(path, model, query, port) => AskHover(c, path, model, query, port)
    case WorkspaceChanges(files, removed, uploaded) => SyncFiles(c.(workspace := files), removed, uploaded)
    case GetReply(slot, requestId, version, payload) => HandleReply(c, slot, requestId, version, payload)
    case GetError(slot, requestId) => HandleError(c, slot, requestId)
    case GetDiagnostics(path, requestId, version) => HandleDiagnostics(c, path, requestId, version)
    case GetDiagnosticsError(path, requestId) => HandleDiagnosticsError(c, path, requestId)
    case GetResync(path) => HandleResync(c, path)
    case WorkerFails => HandleCrash(c)
    case Edit(model, document) => c.(editor := c.editor[model := document])
  }

  /** A worker created by the call is seeded from what the client remembers, requests for features are not about
      diagnostics or hovers, and file differences are what they should be. */
  ghost predicate Possible(c: Client, call: Call) {
    match call
    case RegisterModel(path, model, port) => c.worker.None? ==> IsSeed(c.(models := c.models[path := model]), port)
    case UnregisterModel(path, port) => c.worker.None? ==> IsSeed(c.(models := c.models - {path}), port)
    case UpdateText(_, _, port) => c.worker.None? ==> IsSeed(c, port)
    case TimerFires(path, port) => c.worker.None? ==> IsSeed(c, port)
    case RequestFeature(slot, _, _, port) =>
      slot.kind != Diagnostics && slot.kind != Hover && (c.worker.None? ==> IsSeed(c, port))
    case RequestHover(_, _, _, port) => c.worker.None? ==> IsSeed(c, port)
    case WorkspaceChanges(files, removed, uploaded) => IsSync(c.(workspace := files), removed, uploaded)
    case _ => true
  }

  // Every call keeps the invariant.

  lemma {:induction false} PostQueued(p: Port, next: nat, requests: map<Slot, nat>, slots: set<Slot>,
                                      sentAt: map<Slot, nat>, m: InMessage)
    requires IsTrace(p.posted, p.states) && QueueKept(p.posted, next, requests, slots, sentAt) && !HasId(m)
    ensures var q := Extend(p, [m]);
            && IsTrace(q.posted, q.states) && p.states <= q.states && Final(q) == Step(Final(p), m)
            && QueueKept(q.posted, next, requests, slots, sentAt)
  {
    ExtendTrace(p, [m]);
    assert [m][..0] == [];
    FreshMore(p.posted, next, [m]);
  }

  lemma {:induction false} CreateQueued(c: Client, port: Port)
    requires c.desk.resolvers == map[] && c.worker.None? && IsSeed(c, port)
    ensures Queued(Create(c, port))
  {
  }

  lemma {:induction false} NothingWaits(c: Client)
    requires Retriable(c) && c.worker.None?
    ensures c.desk.resolvers == map[]
  {
    assert forall s :: s in c.desk.resolvers ==> s in c.retries;
  }

  lemma {:induction false} WithWorkerKept(c: Client, port: Port)
    requires Inv(c) && (c.worker.None? ==> IsSeed(c, port))
    ensures Inv(WithWorker(c, port)) && WithWorker(c, port).worker.Some?
  {
    if c.worker.None? {
      NothingWaits(c);
      CreateQueued(c, port);
    }
  }

  lemma {:induction false} RegisterQueued(c: Client, path: Path, model: ModelId)
    requires Queued(c) && c.worker.Some?
    ensures var d := c.(models := c.models[path := model], fingerprints := c.fingerprints - {path});
            Queued(OpenModel(d, path, Current(c, model)))
  {
    var document := Current(c, model);
    PostQueued(c.worker.value, c.desk.nextRequestId, c.desk.requests, c.desk.resolvers.Keys, c.sentAt,
               OpenDocument(path, document.source, document.version));
  }

  lemma {:induction false} RegisterKept(c: Client, path: Path, model: ModelId, port: Port)
    requires Inv(c) && Possible(c, RegisterModel(path, model, port))
    ensures Inv(Register(c, path, model, port))
  {
    if c.worker.None? {
      NothingWaits(c);
      CreateQueued(c.(models := c.models[path := model], fingerprints := c.fingerprints - {path}), port);
    } else {
      RegisterQueued(c, path, model);
    }
  }

  lemma {:induction false} DeltaQueued(c: Client, path: Path, document: Document)
    requires Queued(c) && c.worker.Some?
    ensures Queued(SendDelta(c, path, document))
  {
    var p, m := c.worker.value, Delta(c, path, document);
    PostQueued(p, c.desk.nextRequestId, c.desk.requests, c.desk.resolvers.Keys, c.sentAt, m);
    assert Step(Final(p), m).documents.Keys == Final(p).documents.Keys;
  }

  lemma {:induction false} UpdateKept(c: Client, path: Path, document: Document, port: Port)
    requires Inv(c) && Possible(c, UpdateText(path, document, port))
    ensures Inv(Update(c, path, document, port))
  {
    WithWorkerKept(c, port);
    DeltaQueued(WithWorker(c, port), path, document);
  }

  lemma {:induction false} ForgetQueued(c: Client, path: Path)
    requires Queued(c)
    ensures Queued(Forget(c, path))
  {
    if c.worker.Some? {
      PostQueued(c.worker.value, c.desk.nextRequestId, c.desk.requests, c.desk.resolvers.Keys, c.sentAt,
                 CloseDocument(path));
    }
  }

  lemma {:induction false} GiveUpKept(c: Client, path: Path, kinds: seq<Kind>)
    requires Inv(c)
    ensures Inv(GiveUp(c, path, kinds))
  {
    CancelKindsKept(c, path, kinds);
  }

  lemma {:induction false} UnregisterKept(c: Client, path: Path, port: Port)
    requires Inv(c) && Possible(c, UnregisterModel(path, port))
    ensures Inv(Unregister(c, path, port))
  {
    ForgetQueued(c, path);
    var d := Forget(c, path);
    assert c.worker.None? ==> IsSeed(d, port);
    WithWorkerKept(d, port);
    GiveUpKept(WithWorker(d, port), path, KINDS);
  }

  lemma {:induction false} SyncKept(c: Client, files: map<Path, string>, removed: seq<InMessage>,
                                    uploaded: seq<InMessage>)
    requires Inv(c) && Possible(c, WorkspaceChanges(files, removed, uploaded))
    ensures Inv(SyncFiles(c.(workspace := files), removed, uploaded))
  {
    if c.worker.Some? {
      SyncQueued(c.worker.value, c.desk, c.sentAt, removed, uploaded, files);
    }
  }

  /** The differences sent bring the worker's files to the workspace's, and leave its documents alone. */
  lemma {:induction false} SyncQueued(p: Port, d: Desk, sentAt: map<Slot, nat>, removed: seq<InMessage>,
                                      uploaded: seq<InMessage>,
                   files: map<Path, string>)
    requires IsTrace(p.posted, p.states) && QueueKept(p.posted, d.nextRequestId, d.requests, d.resolvers.Keys, sentAt)
    requires Removals(removed, Final(p).files.Keys, Final(p).files, files) &&
             Uploads(uploaded, files.Keys, Final(p).files, files)
    ensures var q := Extend(p, removed + uploaded);
            && IsTrace(q.posted, q.states) && Final(q) == Final(p).(files := files)
            && QueueKept(q.posted, d.nextRequestId, d.requests, d.resolvers.Keys, sentAt)
  {
    var ms := removed + uploaded;
    ExtendTrace(p, ms);
    FreshMore(p.posted, d.nextRequestId, ms);
    SyncedFiles(Final(p), removed, uploaded, files);
    ExtendRuns(p, ms);
  }

  lemma {:induction false} FireTimerKept(c: Client, path: Path, port: Port)
    requires Inv(c) && Possible(c, TimerFires(path, port)) && path in c.timers
    ensures Inv(FireTimer(c, path, port))
  {
    var d := c.(timers := c.timers - {path});
    WithWorkerKept(d, port);
    var e := WithWorker(d, port);
    StartKept(e, Slot(Diagnostics, path), Generation(e), c.timers[path], NO_QUERY);
  }

  lemma {:induction false} AskFeatureKept(c: Client, slot: Slot, model: ModelId, query: Query, port: Port)
    requires Inv(c) && Possible(c, RequestFeature(slot, model, query, port))
    ensures Inv(AskFeature(c, slot, model, query, port))
  {
    WithWorkerKept(c, port);
    var d := WithWorker(c, port);
    OfferKept(d, slot, Generation(d), Current(c, model).version, model, query);
  }

  lemma {:induction false} AskHoverKept(c: Client, path: Path, model: ModelId, query: Query, port: Port)
    requires Inv(c) && Possible(c, RequestHover(path, model, query, port))
    ensures Inv(AskHover(c, path, model, query, port))
  {
    WithWorkerKept(c, port);
    var d := WithWorker(c, port);
    var slot := Slot(Hover, path);
    if Lookup(d.desk.hoverKeys, path) == Some(HoverKey(Current(c, model).version, query)) && slot in d.desk.resolvers {
      JoinKept(d, slot);
    } else {
      OfferKept(d, slot, Generation(d), Current(c, model).version, model, query);
    }
  }

  lemma {:induction false} JoinKept(c: Client, slot: Slot)
    requires Inv(c) && slot in c.desk.resolvers
    ensures Inv(c.(desk := Join(c.desk, slot)))
  {
    JoinKeeps(c.desk, slot);
    assert Join(c.desk, slot).resolvers.Keys == c.desk.resolvers.Keys;
  }

  lemma {:induction false} OpenQueued(c: Client, path: Path, document: Document)
    requires Queued(c) && c.worker.Some? && path in c.models
    ensures Queued(OpenModel(c, path, document))
  {
    PostQueued(c.worker.value, c.desk.nextRequestId, c.desk.requests, c.desk.resolvers.Keys, c.sentAt,
               OpenDocument(path, document.source, document.version));
  }

  lemma {:induction false} RestartKept(c: Client, slot: Slot, version: int)
    requires Inv(c) && c.worker.Some?
    ensures Inv(Restart(c, slot, version)) && Restart(c, slot, version).worker.Some?
  {
    if slot.kind == Diagnostics && slot in c.desk.requests {
      StartKept(c, slot, Generation(c), version, NO_QUERY);
    } else if slot in c.retries {
      var r := c.retries[slot];
      StartKept(c, slot, r.generation, Current(c, r.model).version, r.query);
    }
  }

  lemma {:induction false} RestartKindsKept(c: Client, path: Path, version: int, kinds: seq<Kind>)
    requires Inv(c) && c.worker.Some?
    ensures Inv(RestartKinds(c, path, version, kinds))
    decreases |kinds|
  {
    if kinds != [] {
      RestartKept(c, Slot(kinds[0], path), version);
      RestartKindsKept(Restart(c, Slot(kinds[0], path), version), path, version, kinds[1..]);
    }
  }

  lemma {:induction false} ReopenKept(c: Client, path: Path, document: Document, kinds: seq<Kind>)
    requires Inv(c) && c.worker.Some? && path in c.models
    ensures Inv(Reopen(c, path, document, kinds))
  {
    OpenQueued(c, path, document);
    RestartKindsKept(OpenModel(c, path, document), path, document.version, kinds);
  }

  lemma {:induction false} CrashKept(c: Client)
    requires Inv(c)
    ensures Inv(HandleCrash(c))
  {
    CrashKeeps(c.desk);
  }

  lemma {:induction false} ReplyKept(c: Client, slot: Slot, requestId: nat, version: int, payload: Option<string>)
    requires Inv(c)
    ensures Inv(HandleReply(c, slot, requestId, version, payload))
  {
    if Lookup(c.desk.requests, slot) == Some(requestId) {
      DropKept(c, slot, ReplyValue(c, slot.path, version, payload));
    }
  }

  lemma {:induction false} ErrorKept(c: Client, slot: Slot, requestId: nat)
    requires Inv(c)
    ensures Inv(HandleError(c, slot, requestId))
  {
    if Lookup(c.desk.requests, slot) == Some(requestId) { DropKept(c, slot, None); }
  }

  lemma {:induction false} DiagnosticsKept(c: Client, path: Path, requestId: nat, version: int)
    requires Inv(c)
    ensures Inv(HandleDiagnostics(c, path, requestId, version))
  {
    DropKept(c, Slot(Diagnostics, path), None);
  }

  lemma {:induction false} DiagnosticsErrorKept(c: Client, path: Path, requestId: nat)
    requires Inv(c)
    ensures Inv(HandleDiagnosticsError(c, path, requestId))
  {
    DropKept(c, Slot(Diagnostics, path), None);
  }

  lemma {:induction false} EditKept(c: Client, editor: map<ModelId, Document>)
    requires Inv(c)
    ensures Inv(c.(editor := editor))
  {
  }

  predicate IsMessage(call: Call) {
    call.GetReply? || call.GetError? || call.GetDiagnostics? || call.GetDiagnosticsError? || call.GetResync?
    || call.WorkerFails?
  }

  lemma {:induction false} AnswerKeeps(c: Client, call: Call)
    requires Inv(c) && IsMessage(call) && !call.GetResync? && !call.WorkerFails?
    ensures Inv(Next(c, call))
  {
    if call.GetReply? {
      ReplyKept(c, call.slot, call.requestId, call.version, call.payload);
    } else if call.GetError? {
      ErrorKept(c, call.slot, call.requestId);
    } else if call.GetDiagnostics? {
      DiagnosticsKept(c, call.path, call.requestId, call.version);
    } else {
      DiagnosticsErrorKept(c, call.path, call.requestId);
    }
  }

  lemma {:induction false} ResyncKept(c: Client, path: Path)
    requires Inv(c)
    ensures Inv(HandleResync(c, path))
  {
    if ActsOnResync(c, path) { ReopenKept(c, path, Current(c, c.models[path]), KINDS); }
  }

  lemma {:induction false} MessageKeeps(c: Client, call: Call)
    requires Inv(c) && IsMessage(call)
    ensures Inv(Next(c, call))
  {
    if call.GetResync? {
      ResyncKept(c, call.path);
    } else if call.WorkerFails? {
      CrashKept(c);
    } else {
      AnswerKeeps(c, call);
    }
  }

  /** Every call and every message keeps the invariant. */
  lemma {:induction false} NextKeeps(c: Client, call: Call)
    requires Inv(c) && Possible(c, call)
    ensures Inv(Next(c, call))
  {
    if IsMessage(call) {
      MessageKeeps(c, call);
    } else if call.RegisterModel? {
      RegisterKept(c, call.path, call.model, call.port);
    } else if call.UnregisterModel? {
      UnregisterKept(c, call.path, call.port);
    } else if call.UpdateText? {
      UpdateKept(c, call.path, call.document, call.port);
    } else if call.TimerFires? {
      if call.path in c.timers { FireTimerKept(c, call.path, call.port); }
    } else if call.RequestFeature? {
      AskFeatureKept(c, call.slot, call.model, call.query, call.port);
    } else if call.RequestHover? {
      AskHoverKept(c, call.path, call.model, call.query, call.port);
    } else if call.WorkspaceChanges? {
      SyncKept(c, call.files, call.removed, call.uploaded);
    } else {
      EditKept(c, c.editor[call.model := call.document]);
    }
  }

  predicate IsStart(c: Client) {
    && c.desk == START && c.worker.None? && c.generations == 0 && c.retries == map[] && c.sentAt == map[]
    && c.sent == map[]
    && c.fingerprints == map[] && c.models == map[] && c.synced == map[] && c.timers == map[]
  }

  function RunClient(c: Client, calls: seq<Call>): Client
    decreases |calls|
  {
    if calls == [] then c else RunClient(Next(c, calls[0]), calls[1..])
  }

  ghost predicate IsRunFrom(c: Client, calls: seq<Call>)
    decreases |calls|
  {
    calls == [] || (Possible(c, calls[0]) && IsRunFrom(Next(c, calls[0]), calls[1..]))
  }

  /** So does every run: whatever happens, each promise handed out is settled or waits for a request on the live
      worker's queue, and the live worker is about to have open exactly the registered paths. */
  lemma {:induction false} RunKept(c: Client, calls: seq<Call>)
    requires Inv(c) && IsRunFrom(c, calls)
    ensures Inv(RunClient(c, calls))
    decreases |calls|
  {
    if calls != [] {
      NextKeeps(c, calls[0]);
      RunKept(Next(c, calls[0]), calls[1..]);
    }
  }

  lemma {:induction false} StartInv(c: Client)
    requires IsStart(c)
    ensures Inv(c)
  {
  }

  // The worker's mirror.

  /** The worker will hold what was last sent for the path. */
  ghost predicate Agrees(c: Client, path: Path) {
    && c.worker.Some? && path in c.sent && path in Final(c.worker.value).documents
    && Final(c.worker.value).documents[path] == c.sent[path]
  }

  /** It will for every registered path. */
  ghost predicate InStep(c: Client) { c.worker.Some? ==> forall p :: p in c.models ==> Agrees(c, p) }

  /** The version of the path that the worker will hold, if the path is open there. */
  function HeldVersion(c: Client, path: Path): Option<int> {
    if c.worker.Some? && path in Final(c.worker.value).documents
    then Some(Final(c.worker.value).documents[path].version)
    else None
  }

  lemma {:induction false} CreateInStep(c: Client, port: Port)
    requires c.worker.None? && IsSeed(c, port)
    ensures InStep(Create(c, port))
    ensures forall p :: p in c.models ==> Create(c, port).sent[p] == Current(c, c.models[p])
  {
  }

  /** A document opened on the live worker: the mirror follows exactly if the version does not go back, and nothing
      else changes. */
  lemma {:induction false} OpenAgrees(c: Client, path: Path, document: Document)
    requires Inv(c) && c.worker.Some?
    ensures var d := OpenModel(c, path, document);
            var held := HeldVersion(c, path);
            && (Agrees(d, path) <==> held.None? || held.value <= document.version)
            && forall q :: q != path && Agrees(c, q) ==> Agrees(d, q)
  {
    PostQueued(c.worker.value, c.desk.nextRequestId, c.desk.requests, c.desk.resolvers.Keys, c.sentAt,
               OpenDocument(path, document.source, document.version));
  }

  /** Registering a model, also in place of another one: the worker follows exactly if it holds no later version. */
  lemma {:induction false} RegisterAgrees(c: Client, path: Path, model: ModelId, port: Port)
    requires Inv(c) && Possible(c, RegisterModel(path, model, port))
    ensures var d := Register(c, path, model, port);
            var held := HeldVersion(c, path);
            && (Agrees(d, path) <==> held.None? || held.value <= Current(c, model).version)
            && forall q :: q != path && Agrees(c, q) ==> Agrees(d, q)
  {
    var d := c.(models := c.models[path := model], fingerprints := c.fingerprints - {path});
    if c.worker.None? {
      CreateInStep(d, port);
    } else {
      OpenAgrees(c, path, Current(c, model));
    }
  }

  /** An edit on a registered path the worker agrees on: it is never answered with a resync, and the worker follows
      exactly if the version does not go back. */
  lemma {:induction false} DeltaAgrees(c: Client, path: Path, document: Document)
    requires Inv(c) && Agrees(c, path)
    ensures var d := SendDelta(c, path, document);
            && Accepted(d.worker.value.posted, d.worker.value.states, |c.worker.value.posted|)
            && (Agrees(d, path) <==> c.sent[path].version <= document.version)
            && forall q :: q != path && Agrees(c, q) ==> Agrees(d, q)
  {
    PostQueued(c.worker.value, c.desk.nextRequestId, c.desk.requests, c.desk.resolvers.Keys, c.sentAt,
               Delta(c, path, document));
  }

  /** On a path that is not registered, or for which the worker holds another version than the last one sent, an edit
      is answered with a resync and changes nothing at the worker. */
  lemma {:induction false} DeltaRejected(c: Client, path: Path, document: Document)
    requires Inv(c) && c.worker.Some? && HeldVersion(c, path) != Some(PreviousVersion(c, path, document))
    ensures var d := SendDelta(c, path, document);
            && !Accepted(d.worker.value.posted, d.worker.value.states, |c.worker.value.posted|)
            && Final(d.worker.value) == Final(c.worker.value)
  {
    PostQueued(c.worker.value, c.desk.nextRequestId, c.desk.requests, c.desk.resolvers.Keys, c.sentAt,
               Delta(c, path, document));
  }

  /** The longer queue has no messages more than requests and cancellations. */
  predicate OnlyAsks(queue: seq<InMessage>, longer: seq<InMessage>) {
    queue <= longer && forall k :: |queue| <= k < |longer| ==> HasId(longer[k])
  }

  /** The same registered paths, the same last sent, and the worker about to hold the same. */
  ghost predicate SameMirror(c: Client, d: Client) {
    && c.worker.Some? && d.worker.Some? && Final(c.worker.value) == Final(d.worker.value)
    && c.sent == d.sent && c.models == d.models && c.worker.value.generation == d.worker.value.generation
    && OnlyAsks(c.worker.value.posted, d.worker.value.posted)
  }

  lemma {:induction false} StartSilent(c: Client, slot: Slot, version: int, query: Query)
    requires Inv(c) && c.worker.Some?
    ensures SameMirror(c, Start(c, slot, Generation(c), version, query))
  {
    StartAccepted(c.worker.value, c.desk, slot, version, query);
  }

  lemma {:induction false} OfferSilent(c: Client, slot: Slot, version: int, model: ModelId, query: Query)
    requires Inv(c) && c.worker.Some?
    ensures SameMirror(c, OfferSlot(c, slot, Generation(c), version, model, query))
  {
    StartAccepted(c.worker.value, c.desk, slot, version, query);
  }

  lemma {:induction false} CancelSilent(c: Client, slot: Slot)
    requires Inv(c) && c.worker.Some?
    ensures SameMirror(c, CancelSlot(c, slot, Generation(c)))
  {
    ExtendSilent(c.worker.value, Cancelling(Lookup(c.desk.requests, slot)));
  }

  lemma {:induction false} CancelKindsSilent(c: Client, path: Path, kinds: seq<Kind>)
    requires Inv(c) && c.worker.Some?
    ensures SameMirror(c, CancelKinds(c, path, kinds))
    decreases |kinds|
  {
    if kinds != [] {
      var slot := Slot(kinds[0], path);
      CancelSilent(c, slot);
      CancelKept(c, slot, Generation(c));
      CancelKindsSilent(CancelSlot(c, slot, Generation(c)), path, kinds[1..]);
    }
  }

  lemma {:induction false} RestartSilent(c: Client, slot: Slot, version: int)
    requires Inv(c) && c.worker.Some?
    ensures SameMirror(c, Restart(c, slot, version))
  {
    if slot.kind == Diagnostics && slot in c.desk.requests {
      StartSilent(c, slot, version, NO_QUERY);
    } else if slot in c.retries {
      StartSilent(c, slot, Current(c, c.retries[slot].model).version, c.retries[slot].query);
    }
  }

  lemma {:induction false} RestartKindsSilent(c: Client, path: Path, version: int, kinds: seq<Kind>)
    requires Inv(c) && c.worker.Some?
    ensures SameMirror(c, RestartKinds(c, path, version, kinds))
    decreases |kinds|
  {
    if kinds != [] {
      var slot := Slot(kinds[0], path);
      RestartSilent(c, slot, version);
      RestartKept(c, slot, version);
      RestartKindsSilent(Restart(c, slot, version), path, version, kinds[1..]);
    }
  }

  lemma {:induction false} WithWorkerInStep(c: Client, port: Port)
    requires Inv(c) && InStep(c) && (c.worker.None? ==> IsSeed(c, port))
    ensures InStep(WithWorker(c, port))
  {
    if c.worker.None? { CreateInStep(c, port); }
  }

  /** The version of a registered path that an edit must not go back behind. */
  function BaseVersion(c: Client, path: Path): int
    requires path in c.models && (c.worker.Some? ==> path in c.sent)
  {
    if c.worker.Some? then c.sent[path].version else Current(c, c.models[path]).version
  }

  /** No version goes back. */
  ghost predicate Forward(c: Client, call: Call)
    requires InStep(c)
  {
    match call
    case RegisterModel(path, model, _) =>
      c.worker.None? || HeldVersion(c, path).None? || HeldVersion(c, path).value <= Current(c, model).version
    case UpdateText(path, document, _) => path in c.models ==> BaseVersion(c, path) <= document.version
    case GetResync(path) =>
      ActsOnResync(c, path) ==> BaseVersion(c, path) <= Current(c, c.models[path]).version
    case _ => true
  }

  lemma {:induction false} SameInStep(c: Client, d: Client)
    requires SameMirror(c, d)
    ensures InStep(c) <==> InStep(d)
  {
    assert forall q :: Agrees(c, q) <==> Agrees(d, q);
  }

  /** All else being in step, everything is if the path is. */
  lemma {:induction false} OneOutOfStep(c: Client, d: Client, path: Path)
    requires InStep(c) && c.worker.Some? && d.worker.Some? && path in d.models
    requires forall q :: q in d.models && q != path ==> q in c.models
    requires forall q :: q != path && Agrees(c, q) ==> Agrees(d, q)
    ensures InStep(d) <==> Agrees(d, path)
  {
  }

  lemma {:induction false} RegisterInStep(c: Client, path: Path, model: ModelId, port: Port)
    requires Inv(c) && InStep(c) && Possible(c, RegisterModel(path, model, port))
    ensures InStep(Register(c, path, model, port)) <==> Forward(c, RegisterModel(path, model, port))
  {
    if c.worker.None? {
      CreateInStep(c.(models := c.models[path := model], fingerprints := c.fingerprints - {path}), port);
    } else {
      RegisterAgrees(c, path, model, port);
      OneOutOfStep(c, Register(c, path, model, port), path);
    }
  }

  lemma {:induction false} DeltaInStep(c: Client, path: Path, document: Document)
    requires Inv(c) && InStep(c) && c.worker.Some?
    ensures InStep(SendDelta(c, path, document)) <==> path in c.models ==> c.sent[path].version <= document.version
  {
    if path in c.models {
      DeltaAgrees(c, path, document);
      OneOutOfStep(c, SendDelta(c, path, document), path);
    } else {
      DeltaRejected(c, path, document);
      assert forall q :: q in c.models && Agrees(c, q) ==> Agrees(SendDelta(c, path, document), q);
    }
  }

  lemma {:induction false} UpdateInStep(c: Client, path: Path, document: Document, port: Port)
    requires Inv(c) && InStep(c) && Possible(c, UpdateText(path, document, port))
    ensures InStep(Update(c, path, document, port)) <==> Forward(c, UpdateText(path, document, port))
  {
    WithWorkerKept(c, port);
    WithWorkerInStep(c, port);
    if c.worker.None? { CreateInStep(c, port); }
    DeltaInStep(WithWorker(c, port), path, document);
  }

  lemma {:induction false} OpenInStep(c: Client, path: Path, document: Document)
    requires Inv(c) && InStep(c) && c.worker.Some? && path in c.models
    ensures InStep(OpenModel(c, path, document)) <==> c.sent[path].version <= document.version
  {
    assert Agrees(c, path);
    OpenAgrees(c, path, document);
    OneOutOfStep(c, OpenModel(c, path, document), path);
  }

  lemma {:induction false} ReopenInStep(c: Client, path: Path, document: Document, kinds: seq<Kind>)
    requires Inv(c) && InStep(c) && c.worker.Some? && path in c.models
    ensures InStep(Reopen(c, path, document, kinds)) <==> c.sent[path].version <= document.version
  {
    OpenInStep(c, path, document);
    OpenQueued(c, path, document);
    RestartKindsSilent(OpenModel(c, path, document), path, document.version, kinds);
    SameInStep(OpenModel(c, path, document), Reopen(c, path, document, kinds));
  }

  lemma {:induction false} ResyncInStep(c: Client, path: Path)
    requires Inv(c) && InStep(c)
    ensures InStep(HandleResync(c, path)) <==>
              (ActsOnResync(c, path) ==> BaseVersion(c, path) <= Current(c, c.models[path]).version)
  {
    if ActsOnResync(c, path) { ReopenInStep(c, path, Current(c, c.models[path]), KINDS); }
  }

  lemma {:induction false} GiveUpInStep(c: Client, path: Path, kinds: seq<Kind>)
    requires Inv(c) && InStep(c) && c.worker.Some?
    ensures InStep(GiveUp(c, path, kinds))
  {
    CancelKindsSilent(c, path, kinds);
    SameInStep(c, GiveUp(c, path, kinds));
  }

  lemma {:induction false} UnregisterInStep(c: Client, path: Path, port: Port)
    requires Inv(c) && InStep(c) && Possible(c, UnregisterModel(path, port))
    ensures InStep(Unregister(c, path, port))
  {
    ForgetQueued(c, path);
    var d := Forget(c, path);
    assert c.worker.None? ==> IsSeed(d, port);
    ForgetInStep(c, path);
    WithWorkerKept(d, port);
    WithWorkerInStep(d, port);
    GiveUpInStep(WithWorker(d, port), path, KINDS);
  }

  lemma {:induction false} ForgetInStep(c: Client, path: Path)
    requires Inv(c) && InStep(c)
    ensures InStep(Forget(c, path))
  {
    if c.worker.Some? {
      PostQueued(c.worker.value, c.desk.nextRequestId, c.desk.requests, c.desk.resolvers.Keys, c.sentAt,
                 CloseDocument(path));
    }
  }

  lemma {:induction false} AskInStep(c: Client, slot: Slot, version: int, query: Query, model: ModelId)
    requires Inv(c) && InStep(c) && c.worker.Some?
    ensures InStep(Start(c, slot, Generation(c), version, query)) &&
            InStep(OfferSlot(c, slot, Generation(c), version, model, query))
  {
    StartSilent(c, slot, version, query);
    SameInStep(c, Start(c, slot, Generation(c), version, query));
    OfferSilent(c, slot, version, model, query);
    SameInStep(c, OfferSlot(c, slot, Generation(c), version, model, query));
  }

  lemma {:induction false} FilesInStep(c: Client, files: map<Path, string>, removed: seq<InMessage>,
                                       uploaded: seq<InMessage>)
    requires Inv(c) && InStep(c) && Possible(c, WorkspaceChanges(files, removed, uploaded))
    ensures InStep(SyncFiles(c.(workspace := files), removed, uploaded))
  {
    if c.worker.Some? {
      var d := SyncFiles(c.(workspace := files), removed, uploaded);
      SyncQueued(c.worker.value, c.desk, c.sentAt, removed, uploaded, files);
      assert Final(d.worker.value).documents == Final(c.worker.value).documents;
      assert forall q :: Agrees(c, q) ==> Agrees(d, q);
    }
  }

  lemma {:induction false} TimerInStep(c: Client, path: Path, port: Port)
    requires Inv(c) && InStep(c) && Possible(c, TimerFires(path, port)) && path in c.timers
    ensures InStep(FireTimer(c, path, port))
  {
    var d := c.(timers := c.timers - {path});
    WithWorkerKept(d, port);
    WithWorkerInStep(d, port);
    AskInStep(WithWorker(d, port), Slot(Diagnostics, path), c.timers[path], NO_QUERY, 0);
  }

  lemma {:induction false} FeatureInStep(c: Client, slot: Slot, model: ModelId, query: Query, port: Port)
    requires Inv(c) && InStep(c) && (c.worker.None? ==> IsSeed(c, port))
    ensures InStep(AskFeature(c, slot, model, query, port))
  {
    WithWorkerKept(c, port);
    WithWorkerInStep(c, port);
    AskInStep(WithWorker(c, port), slot, Current(c, model).version, query, model);
  }

  lemma {:induction false} HoverInStep(c: Client, path: Path, model: ModelId, query: Query, port: Port)
    requires Inv(c) && InStep(c) && (c.worker.None? ==> IsSeed(c, port))
    ensures InStep(AskHover(c, path, model, query, port))
  {
    WithWorkerKept(c, port);
    WithWorkerInStep(c, port);
    var d := WithWorker(c, port);
    AskInStep(d, Slot(Hover, path), Current(c, model).version, query, model);
    SameInStep(d, d.(desk := Join(d.desk, Slot(Hover, path))));
  }

  lemma {:induction false} DropInStep(c: Client, slot: Slot, value: Option<string>,
                                      fingerprints: map<Path, Fingerprint>)
    requires InStep(c)
    ensures InStep(DropSlot(c, slot, value).(fingerprints := fingerprints)) && InStep(DropSlot(c, slot, value))
  {
    if c.worker.Some? {
      SameInStep(c, DropSlot(c, slot, value));
      SameInStep(c, DropSlot(c, slot, value).(fingerprints := fingerprints));
    }
  }

  lemma {:induction false} ReplyInStep(c: Client, call: Call)
    requires InStep(c) && IsMessage(call) && !call.GetResync?
    ensures InStep(Next(c, call))
  {
    if call.GetReply? {
      DropInStep(c, call.slot, ReplyValue(c, call.slot.path, call.version, call.payload), c.fingerprints);
    } else if call.GetError? {
      DropInStep(c, call.slot, None, c.fingerprints);
    } else if !call.WorkerFails? {
      DropInStep(c, Slot(Diagnostics, call.path), None, c.fingerprints - {call.path});
    }
  }

  lemma {:induction false} AskingInStep(c: Client, call: Call)
    requires Inv(c) && InStep(c) && Possible(c, call)
    requires call.TimerFires? || call.RequestFeature? || call.RequestHover? || call.WorkspaceChanges? || call.Edit?
    ensures InStep(Next(c, call))
  {
    if call.TimerFires? {
      if call.path in c.timers { TimerInStep(c, call.path, call.port); }
    } else if call.RequestFeature? {
      FeatureInStep(c, call.slot, call.model, call.query, call.port);
    } else if call.RequestHover? {
      HoverInStep(c, call.path, call.model, call.query, call.port);
    } else if call.WorkspaceChanges? {
      FilesInStep(c, call.files, call.removed, call.uploaded);
    } else if c.worker.Some? {
      SameInStep(c, Next(c, call));
    }
  }

  /** A call or message leaves the worker in step exactly if it takes no version back. */
  lemma {:induction false} NextInStep(c: Client, call: Call)
    requires Inv(c) && InStep(c) && Possible(c, call)
    ensures InStep(Next(c, call)) <==> Forward(c, call)
  {
    if call.RegisterModel? {
      RegisterInStep(c, call.path, call.model, call.port);
    } else if call.UnregisterModel? {
      UnregisterInStep(c, call.path, call.port);
    } else if call.UpdateText? {
      UpdateInStep(c, call.path, call.document, call.port);
    } else if call.GetResync? {
      ResyncInStep(c, call.path);
    } else if IsMessage(call) {
      ReplyInStep(c, call);
    } else {
      AskingInStep(c, call);
    }
  }

  ghost predicate ForwardRun(c: Client, calls: seq<Call>)
    requires InStep(c) && Inv(c) && IsRunFrom(c, calls)
    decreases |calls|
  {
    calls == [] ||
    (Forward(c, calls[0])
     && (NextInStep(c, calls[0]); NextKeeps(c, calls[0]); ForwardRun(Next(c, calls[0]), calls[1..])))
  }

  /** As long as no version goes back, a worker that has handled its queue holds for every registered path exactly
      what was last sent, through every failure and restart. */
  lemma {:induction false} RunInStep(c: Client, calls: seq<Call>)
    requires Inv(c) && InStep(c) && IsRunFrom(c, calls) && ForwardRun(c, calls)
    ensures InStep(RunClient(c, calls))
    decreases |calls|
  {
    if calls != [] {
      NextInStep(c, calls[0]);
      NextKeeps(c, calls[0]);
      RunInStep(Next(c, calls[0]), calls[1..]);
    }
  }
}
