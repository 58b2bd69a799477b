/** The language-service client as a step system: everything the main thread remembers, and what each call and each
    message from the worker does to it. */
module LsSystem {
  import opened Options
  import opened LsMirror
  import opened LsDesk

  /** The identity of an editor model. */
  type ModelId = nat

  /** A worker's queue: everything posted so far, and the states it takes the worker through. */
  datatype Port = Port(generation: nat, posted: seq<InMessage>, states: seq<Store>)

  /** What a retry closure has captured; the worker stands for itself by its generation. */
  datatype Retry = Retry(generation: nat, model: ModelId, query: Query)

  datatype Fingerprint = Fingerprint(version: int, ids: seq<Option<nat>>)

  /** `sent` is what was last sent for a path, `editor` the models' current contents, `sentAt` where the request of a
      slot stands on the worker's queue. */
  datatype Client = Client(desk: Desk, worker: Option<Port>, generations: nat, retries: map<Slot, Retry>,
    sentAt: map<Slot, nat>, sent: map<Path, Document>, fingerprints: map<Path, Fingerprint>, models: map<Path, ModelId>,
    editor: map<ModelId, Document>, synced: map<Path, string>, workspace: map<Path, string>, timers: map<Path, int>)

  const NO_QUERY := Query(0, 0, None, "")

  /** The kinds in the order in which a resync takes them up. */
  const KINDS: seq<Kind> := [Diagnostics, Formatting, Completion, Hover, Definition, References, Rename]

  function Final(p: Port): Store { if p.states == [] then Store(map[], map[]) else p.states[|p.states| - 1] }

  function Current(c: Client, model: ModelId): Document {
    if model in c.editor then c.editor[model] else Document(0, "")
  }

  /** What the registered models hold. */
  function Registered(c: Client): map<Path, Document> { map p | p in c.models :: Current(c, c.models[p]) }

  function Generation(c: Client): nat { if c.worker.Some? then c.worker.value.generation else c.generations }

  function Post(p: Port, m: InMessage): Port {
    p.(posted := p.posted + [m], states := p.states + [Step(Final(p), m)])
  }

  function Extend(p: Port, ms: seq<InMessage>): (q: Port)
    ensures q.posted == p.posted + ms && q.generation == p.generation
    decreases |ms|
  {
    if ms == [] then p else Post(Extend(p, ms[..|ms| - 1]), ms[|ms| - 1])
  }

  /** Messages posted to a worker that has been given up are lost. */
  function Send(w: Option<Port>, generation: nat, ms: seq<InMessage>): Option<Port> {
    if w.Some? && w.value.generation == generation then Some(Extend(w.value, ms)) else w
  }

  lemma {:induction false} SendOne(p: Port, m: InMessage)
    ensures Extend(p, [m]) == Post(p, m)
  {
    assert [m][..0] == [];
  }

  lemma {:induction false} ExtendTwice(p: Port, first: seq<InMessage>, second: seq<InMessage>)
    ensures Extend(Extend(p, first), second) == Extend(p, first + second)
    decreases |second|
  {
    if second == [] {
      assert first + second == first;
    } else {
      var k := |second| - 1;
      ExtendTwice(p, first, second[..k]);
      assert (first + second)[..|first| + k] == first + second[..k];
    }
  }

  lemma {:induction false} SendTwice(w: Option<Port>, generation: nat, first: seq<InMessage>, second: seq<InMessage>)
    ensures Send(Send(w, generation, first), generation, second) == Send(w, generation, first + second)
  {
    if w.Some? { ExtendTwice(w.value, first, second); }
  }

  function Length(w: Option<Port>): nat { if w.None? then 0 else |w.value.posted| }

  // Worker lifetime.

  /** A new worker's queue: the workspace's files and the registered models, in whatever order. */
  ghost predicate IsSeed(c: Client, port: Port) {
    && port.generation == c.generations && IsTrace(port.posted, port.states)
    && Final(port) == Store(Registered(c), c.workspace)
    && forall m :: m in port.posted ==> !HasId(m) && !m.UpdateDocument?
  }

  function Create(c: Client, port: Port): Client {
    c.(worker := Some(port), generations := c.generations + 1, synced := c.workspace, sent := c.sent + Registered(c))
  }

  function WithWorker(c: Client, port: Port): Client { if c.worker.Some? then c else Create(c, port) }

  function OpenModel(c: Client, path: Path, document: Document): Client {
    c.(worker := Send(c.worker, Generation(c), [OpenDocument(path, document.source, document.version)]),
       sent := c.sent[path := document])
  }

  // Requests in flight.

  function StartMessages(d: Desk, slot: Slot, version: int, query: Query): seq<InMessage> {
    Cancelling(Lookup(d.requests, slot)) + [Request(slot.kind, d.nextRequestId, slot.path, version, query)]
  }

  function Start(c: Client, slot: Slot, generation: nat, version: int, query: Query): Client {
    var ms := StartMessages(c.desk, slot, version, query);
    c.(worker := Send(c.worker, generation, ms), desk := Ask(c.desk, slot),
       sentAt := c.sentAt[slot := Length(c.worker) + |ms| - 1])
  }

  function DropSlot(c: Client, slot: Slot, value: Option<string>): Client {
    c.(desk := Drop(c.desk, slot, value), retries := c.retries - {slot})
  }

  function CancelSlot(c: Client, slot: Slot, generation: nat): Client {
    DropSlot(c, slot, None).(worker := Send(c.worker, generation, Cancelling(Lookup(c.desk.requests, slot))))
  }

  function OfferSlot(c: Client, slot: Slot, generation: nat, version: int, model: ModelId, query: Query): Client {
    var ms := StartMessages(c.desk, slot, version, query);
    c.(worker := Send(c.worker, generation, ms), desk := Offer(c.desk, slot, HoverKey(version, query)),
       retries := c.retries[slot := Retry(generation, model, query)],
       sentAt := c.sentAt[slot := Length(c.worker) + |ms| - 1])
  }

  function CancelKinds(c: Client, path: Path, kinds: seq<Kind>): Client
    decreases |kinds|
  {
    if kinds == [] then c
    else CancelKinds(CancelSlot(c, Slot(kinds[0], path), Generation(c)), path, kinds[1..])
  }

  // Calls.

  function Register(c: Client, path: Path, model: ModelId, port: Port): Client {
    var d := c.(models := c.models[path := model], fingerprints := c.fingerprints - {path});
    if c.worker.Some? then OpenModel(d, path, Current(c, model)) else Create(d, port)
  }

  /** The client with the path forgotten; this is what a new worker is created from. */
  function Forget(c: Client, path: Path): Client {
    var d := c.(models := c.models - {path}, fingerprints := c.fingerprints - {path}, sent := c.sent - {path});
    d.(worker := Send(d.worker, Generation(d), [CloseDocument(path)]))
  }

  function GiveUp(c: Client, path: Path, kinds: seq<Kind>): Client {
    var d := CancelKinds(c, path, kinds);
    d.(timers := d.timers - {path})
  }

  function Unregister(c: Client, path: Path, port: Port): Client {
    GiveUp(WithWorker(Forget(c, path), port), path, KINDS)
  }

  function PreviousVersion(c: Client, path: Path, document: Document): int {
    if path in c.sent then c.sent[path].version else document.version - 1
  }

  function Delta(c: Client, path: Path, document: Document): InMessage {
    UpdateDocument(path, document.source, document.version, PreviousVersion(c, path, document))
  }

  function SendDelta(c: Client, path: Path, document: Document): Client {
    c.(worker := Send(c.worker, Generation(c), [Delta(c, path, document)]), sent := c.sent[path := document],
       fingerprints := c.fingerprints - {path}, timers := c.timers[path := document.version])
  }

  function Update(c: Client, path: Path, document: Document, port: Port): Client {
    SendDelta(WithWorker(c, port), path, document)
  }

  function FireTimer(c: Client, path: Path, port: Port): Client
    requires path in c.timers
  {
    var d := WithWorker(c.(timers := c.timers - {path}), port);
    Start(d, Slot(Diagnostics, path), Generation(d), c.timers[path], NO_QUERY)
  }

  function AskFeature(c: Client, slot: Slot, model: ModelId, query: Query, port: Port): Client {
    var d := WithWorker(c, port);
    OfferSlot(d, slot, Generation(d), Current(c, model).version, model, query)
  }

  /** A hover request just like the one in flight joins it. */
  function AskHover(c: Client, path: Path, model: ModelId, query: Query, port: Port): Client {
    var d := WithWorker(c, port);
    var slot := Slot(Hover, path);
    if Lookup(d.desk.hoverKeys, path) == Some(HoverKey(Current(c, model).version, query)) && slot in d.desk.resolvers
    then d.(desk := Join(d.desk, slot))
    else OfferSlot(d, slot, Generation(d), Current(c, model).version, model, query)
  }

  /** The differences between the workspace and what the worker has, in whatever order. */
  ghost predicate IsSync(c: Client, removed: seq<InMessage>, uploaded: seq<InMessage>) {
    && Removals(removed, c.synced.Keys, c.synced, c.workspace) && Distinct(removed)
    && Uploads(uploaded, c.workspace.Keys, c.synced, c.workspace) && Distinct(uploaded)
  }

  function SyncFiles(c: Client, removed: seq<InMessage>, uploaded: seq<InMessage>): Client {
    if c.worker.None? then c
    else c.(worker := Send(c.worker, Generation(c), removed + uploaded), synced := c.workspace)
  }

  // Messages from the worker.

  /** A reply about a path that is gone, or about an earlier version, is as good as none. */
  function ReplyValue(c: Client, path: Path, version: int, payload: Option<string>): Option<string> {
    if path !in c.models || version < Current(c, c.models[path]).version then None else payload
  }

  function HandleReply(c: Client, slot: Slot, requestId: nat, version: int, payload: Option<string>): Client {
    if Lookup(c.desk.requests, slot) != Some(requestId) then c
    else DropSlot(c, slot, ReplyValue(c, slot.path, version, payload))
  }

  function HandleError(c: Client, slot: Slot, requestId: nat): Client {
    if Lookup(c.desk.requests, slot) != Some(requestId) then c else DropSlot(c, slot, None)
  }

  /** A stale result for diagnostics leaves its request pending. */
  function HandleDiagnostics(c: Client, path: Path, requestId: nat, version: int): Client {
    if path !in c.models || Lookup(c.desk.requests, Slot(Diagnostics, path)) != Some(requestId)
       || version < Current(c, c.models[path]).version then c
    else DropSlot(c, Slot(Diagnostics, path), None).(fingerprints := c.fingerprints - {path})
  }

  function HandleDiagnosticsError(c: Client, path: Path, requestId: nat): Client {
    if Lookup(c.desk.requests, Slot(Diagnostics, path)) != Some(requestId) then c
    else DropSlot(c, Slot(Diagnostics, path), None).(fingerprints := c.fingerprints - {path})
  }

  function PendingIds(requests: map<Slot, nat>, path: Path): seq<Option<nat>> {
    seq(|KINDS|, i requires 0 <= i < |KINDS| => Lookup(requests, Slot(KINDS[i], path)))
  }

  function FingerprintOf(c: Client, path: Path, version: int): Fingerprint {
    Fingerprint(version, PendingIds(c.desk.requests, path))
  }

  /** What is in flight for the slot is asked again. */
  function Restart(c: Client, slot: Slot, version: int): Client {
    if slot.kind == Diagnostics && slot in c.desk.requests then Start(c, slot, Generation(c), version, NO_QUERY)
    else if slot in c.retries then
      var r := c.retries[slot];
      Start(c, slot, r.generation, Current(c, r.model).version, r.query)
    else c
  }

  function RestartKinds(c: Client, path: Path, version: int, kinds: seq<Kind>): Client
    decreases |kinds|
  {
    if kinds == [] then c else RestartKinds(Restart(c, Slot(kinds[0], path), version), path, version, kinds[1..])
  }

  predicate ActsOnResync(c: Client, path: Path) {
    path in c.models && c.worker.Some?
    && Lookup(c.fingerprints, path) != Some(FingerprintOf(c, path, Current(c, c.models[path]).version))
  }

  /** The document is opened again and everything in flight for it asked again. */
  function Reopen(c: Client, path: Path, document: Document, kinds: seq<Kind>): Client {
    var d := RestartKinds(OpenModel(c, path, document), path, document.version, kinds);
    d.(fingerprints := d.fingerprints[path := FingerprintOf(d, path, document.version)])
  }

  /** A resync that looks just like the last one handled is a duplicate. */
  function HandleResync(c: Client, path: Path): Client {
    if ActsOnResync(c, path) then Reopen(c, path, Current(c, c.models[path]), KINDS) else c
  }

  function HandleCrash(c: Client): Client {
    c.(desk := Crash(c.desk), worker := None, retries := map[], fingerprints := map[])
  }

  // What every step keeps.

  /** There is a retry for every promise that waits, and it leads to the live worker. */
  ghost predicate Retriable(c: Client) {
    && (forall s :: s in c.retries <==> s in c.desk.resolvers)
    && (forall s :: s in c.retries ==> c.worker.Some? && c.retries[s].generation == c.worker.value.generation)
  }

  /** The worker will have open exactly the registered paths and hold exactly the files last synced; the identifiers
      on its queue are fresh, and the requests of the slots are there. */
  ghost predicate PortKept(p: Port, paths: set<Path>, files: map<Path, string>, next: nat, requests: map<Slot, nat>,
                           slots: set<Slot>, sentAt: map<Slot, nat>) {
    && IsTrace(p.posted, p.states)
    && Final(p).documents.Keys == paths && Final(p).files == files
    && QueueKept(p.posted, next, requests, slots, sentAt)
  }

  ghost predicate Queued(c: Client) {
    c.worker.Some? ==>
      && c.worker.value.generation < c.generations
      && PortKept(c.worker.value, c.models.Keys, c.synced, c.desk.nextRequestId, c.desk.requests, c.desk.resolvers.Keys,
                  c.sentAt)
  }

  ghost predicate Inv(c: Client) { Kept(c.desk) && Retriable(c) && Queued(c) }

  lemma {:induction false} ExtendTrace(p: Port, ms: seq<InMessage>)
    requires IsTrace(p.posted, p.states)
    ensures IsTrace(Extend(p, ms).posted, Extend(p, ms).states) && p.states <= Extend(p, ms).states
    decreases |ms|
  {
    if ms != [] {
      ExtendTrace(p, ms[..|ms| - 1]);
    }
  }

  lemma {:induction false} ExtendSilent(p: Port, ms: seq<InMessage>)
    requires forall m :: m in ms ==> HasId(m)
    ensures Final(Extend(p, ms)) == Final(p)
    decreases |ms|
  {
    if ms != [] {
      var k := |ms| - 1;
      assert ms[k] in ms && forall m :: m in ms[..k] ==> m in ms;
      ExtendSilent(p, ms[..k]);
    }
  }

  /** The queue of a live worker after a request has been started. The worker will not ask for a resync when it comes
      to it exactly if the request is about the version the worker will then hold. */
  lemma {:induction false} StartQueued(p: Port, paths: set<Path>, files: map<Path, string>, d: Desk, slots: set<Slot>,
                                       covered: set<Slot>,
                    sentAt: map<Slot, nat>, slot: Slot, version: int, query: Query)
    requires PortKept(p, paths, files, d.nextRequestId, d.requests, slots, sentAt)
    requires IdBelow(d, slot) && covered <= slots + {slot}
    ensures var ms := StartMessages(d, slot, version, query);
            var q := Extend(p, ms);
            var at := sentAt[slot := |p.posted| + |ms| - 1];
            && PortKept(q, paths, files, d.nextRequestId + 1, d.requests[slot := d.nextRequestId], covered, at)
            && Final(q) == Final(p)
            && (IsServed(q.posted, q.states, d.requests[slot := d.nextRequestId], at, slot) <==>
                  slot.path in Final(p).documents && Final(p).documents[slot.path].version == version)
  {
    StartInFlight(p, paths, files, d, slots, covered, sentAt, slot, version, query);
    StartAccepted(p, d, slot, version, query);
  }

  lemma {:induction false} StartInFlight(p: Port, paths: set<Path>, files: map<Path, string>, d: Desk, slots: set<Slot>,
                                         covered: set<Slot>, sentAt: map<Slot, nat>, slot: Slot, version: int,
                                         query: Query)
    requires PortKept(p, paths, files, d.nextRequestId, d.requests, slots, sentAt)
    requires IdBelow(d, slot) && covered <= slots + {slot}
    ensures var ms := StartMessages(d, slot, version, query);
            var q := Extend(p, ms);
            var at := sentAt[slot := |p.posted| + |ms| - 1];
            && PortKept(q, paths, files, d.nextRequestId + 1, d.requests[slot := d.nextRequestId], covered, at)
            && IsInFlight(q.posted, d.requests[slot := d.nextRequestId], at, slot)
  {
    var m := Request(slot.kind, d.nextRequestId, slot.path, version, query);
    var dropped := Cancelling(Lookup(d.requests, slot));
    ExtendSilent(p, dropped + [m]);
    ExtendTrace(p, dropped + [m]);
    assert p.posted + (dropped + [m]) == p.posted + dropped + [m];
    AskedQueue(p.posted, d.nextRequestId, d.requests, slots, sentAt, slot, m, covered);
  }

  lemma {:induction false} StartAccepted(p: Port, d: Desk, slot: Slot, version: int, query: Query)
    requires IsTrace(p.posted, p.states)
    ensures var ms := StartMessages(d, slot, version, query);
            var q := Extend(p, ms);
            && Final(q) == Final(p)
            && (Accepted(q.posted, q.states, |p.posted| + |ms| - 1) <==>
                  slot.path in Final(p).documents && Final(p).documents[slot.path].version == version)
  {
    var m := Request(slot.kind, d.nextRequestId, slot.path, version, query);
    var dropped := Cancelling(Lookup(d.requests, slot));
    var ms := dropped + [m];
    ExtendSilent(p, dropped);
    ExtendSilent(p, ms);
    ExtendTrace(p, ms);
    ExtendTrace(p, dropped);
    assert ms[..|ms| - 1] == dropped;
  }

  lemma {:induction false} CancelQueued(p: Port, paths: set<Path>, files: map<Path, string>, d: Desk,
                                        slots: set<Slot>, sentAt: map<Slot, nat>,
                     slot: Slot)
    requires PortKept(p, paths, files, d.nextRequestId, d.requests, slots, sentAt) && IdBelow(d, slot)
    ensures var q := Extend(p, Cancelling(Lookup(d.requests, slot)));
            && PortKept(q, paths, files, d.nextRequestId, d.requests - {slot}, slots - {slot}, sentAt)
            && Final(q) == Final(p)
  {
    var ms := Cancelling(Lookup(d.requests, slot));
    ExtendTrace(p, ms);
    ExtendSilent(p, ms);
    FreshMore(p.posted, d.nextRequestId, ms);
  }

  // Starting.

  predicate IdBelow(d: Desk, slot: Slot) { slot in d.requests ==> d.requests[slot] < d.nextRequestId }

  lemma {:induction false} StartKeepsQueue(c: Client, slot: Slot, generation: nat, version: int, query: Query)
    requires Queued(c) && IdBelow(c.desk, slot) && c.worker.Some? && generation == Generation(c)
    ensures Queued(Start(c, slot, generation, version, query))
  {
    var slots := c.desk.resolvers.Keys;
    StartQueued(c.worker.value, c.models.Keys, c.synced, c.desk, slots, slots, c.sentAt, slot, version, query);
  }

  lemma {:induction false} StartKept(c: Client, slot: Slot, generation: nat, version: int, query: Query)
    requires Inv(c) && c.worker.Some? && generation == Generation(c)
    requires slot.kind == Diagnostics || slot in c.desk.resolvers
    ensures Inv(Start(c, slot, generation, version, query))
  {
    AskKeeps(c.desk, slot);
    StartKeepsQueue(c, slot, generation, version, query);
  }

  lemma {:induction false} OfferKeepsQueue(c: Client, slot: Slot, generation: nat, version: int, model: ModelId,
                                           query: Query)
    requires Queued(c) && IdBelow(c.desk, slot) && c.worker.Some? && generation == Generation(c)
    ensures Queued(OfferSlot(c, slot, generation, version, model, query))
  {
    var slots := c.desk.resolvers.Keys;
    StartQueued(c.worker.value, c.models.Keys, c.synced, c.desk, slots, slots + {slot}, c.sentAt, slot, version, query);
    OfferShape(c.desk, slot, HoverKey(version, query));
    assert OfferSlot(c, slot, generation, version, model, query).worker
        == Some(Extend(c.worker.value, StartMessages(c.desk, slot, version, query)));
  }

  lemma {:induction false} OfferRetriable(c: Client, slot: Slot, version: int, model: ModelId, query: Query)
    requires Retriable(c) && c.worker.Some?
    ensures Retriable(OfferSlot(c, slot, Generation(c), version, model, query))
  {
    OfferShape(c.desk, slot, HoverKey(version, query));
  }

  lemma {:induction false} OfferKept(c: Client, slot: Slot, generation: nat, version: int, model: ModelId, query: Query)
    requires Inv(c) && c.worker.Some? && generation == Generation(c) && slot.kind != Diagnostics
    ensures Inv(OfferSlot(c, slot, generation, version, model, query))
  {
    OfferRetriable(c, slot, version, model, query);
    OfferKeeps(c.desk, slot, HoverKey(version, query));
    OfferKeepsQueue(c, slot, generation, version, model, query);
  }

  // Giving up.

  lemma {:induction false} DropKept(c: Client, slot: Slot, value: Option<string>)
    requires Inv(c)
    ensures Inv(DropSlot(c, slot, value))
  {
    DropKeeps(c.desk, slot, value);
  }

  lemma {:induction false} CancelKeepsQueue(c: Client, slot: Slot, generation: nat)
    requires Queued(c) && IdBelow(c.desk, slot) && generation == Generation(c)
    ensures Queued(CancelSlot(c, slot, generation))
  {
    if c.worker.Some? {
      CancelQueued(c.worker.value, c.models.Keys, c.synced, c.desk, c.desk.resolvers.Keys, c.sentAt, slot);
      assert Drop(c.desk, slot, None).resolvers.Keys == c.desk.resolvers.Keys - {slot};
    }
  }

  lemma {:induction false} CancelKept(c: Client, slot: Slot, generation: nat)
    requires Inv(c) && generation == Generation(c)
    ensures Inv(CancelSlot(c, slot, generation))
  {
    DropKeeps(c.desk, slot, None);
    CancelKeepsQueue(c, slot, generation);
  }

  lemma {:induction false} CancelKindsKept(c: Client, path: Path, kinds: seq<Kind>)
    requires Inv(c)
    ensures Inv(CancelKinds(c, path, kinds))
    decreases |kinds|
  {
    if kinds != [] {
      CancelKept(c, Slot(kinds[0], path), Generation(c));
      CancelKindsKept(CancelSlot(c, Slot(kinds[0], path), Generation(c)), path, kinds[1..]);
    }
  }

  lemma {:induction false} ExtendRuns(p: Port, ms: seq<InMessage>)
    ensures Final(Extend(p, ms)) == Run(Final(p), ms)
    decreases |ms|
  {
    if ms != [] { ExtendRuns(p, ms[..|ms| - 1]); }
  }

  /** What the files, then the models, posted to a fresh worker make of it. */
  lemma {:induction false} FreshPort(generation: nat, removed: seq<InMessage>, uploaded: seq<InMessage>,
                                     seeded: seq<InMessage>,
                                     files: map<Path, string>, documents: map<Path, Document>)
    requires Removals(removed, {}, map[], files) && Uploads(uploaded, files.Keys, map[], files)
    requires Opens(seeded, documents.Keys, documents)
    ensures var q := Extend(Port(generation, [], [Store(map[], map[])]), removed + uploaded + seeded);
            && IsTrace(q.posted, q.states) && Final(q) == Store(documents, files)
            && forall m :: m in q.posted ==> !HasId(m) && !m.UpdateDocument?
  {
    var ms := removed + uploaded + seeded;
    var p := Port(generation, [], [Store(map[], map[])]);
    ExtendTrace(p, ms);
    ExtendRuns(p, ms);
    SeededWorker(removed, uploaded, seeded, files, documents);
    assert Extend(p, ms).posted == ms;
  }
}
