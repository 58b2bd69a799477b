/** What replies, resyncs and failures do to the promises of the language-service client. */
module LsReplies {
  import opened Options
  import opened LsMirror
  import opened LsDesk
  import opened LsSystem
  import opened LsRuns

  // Replies.

  /** A reply under another identifier than the pending one changes nothing. The reply to the pending request settles
      all that waits for it, joined hovers included, with its payload, or with nothing when the path is gone or the
      reply is about an earlier version; it frees the slot and sends nothing. */
  lemma {:induction false} ReplySettles(c: Client, slot: Slot, requestId: nat, version: int, payload: Option<string>,
                                        p: PromiseId)
    requires Accounted(c.desk)
    ensures var d := HandleReply(c, slot, requestId, version, payload);
            var upToDate := slot.path in c.models && Current(c, c.models[slot.path]).version <= version;
            if Lookup(c.desk.requests, slot) != Some(requestId) then d == c
            else
              && slot !in d.desk.requests && slot !in d.desk.resolvers && d.worker == c.worker
              && Lookup(d.desk.settled, p) ==
                   (if p in c.desk.owner && c.desk.owner[p] == slot then Some(if upToDate then payload else None)
                    else Lookup(c.desk.settled, p))
  {
    DropSettlesWaiting(c.desk, slot, ReplyValue(c, slot.path, version, payload), p);
  }

  /** No reply can be taken for the answer to a request started later. */
  lemma {:induction false} LateReplyIgnored(c: Client, slot: Slot, oldId: nat, version: int, payload: Option<string>,
                                            query: Query, asked: int)
    requires Inv(c) && oldId < c.desk.nextRequestId
    ensures var d := Start(c, slot, Generation(c), asked, query);
            HandleReply(d, slot, oldId, version, payload) == d
  {
  }

  /** A failure of the worker settles every promise there is, and the next worker is in step from its creation. */
  lemma {:induction false} FailureSettlesAll(c: Client, p: PromiseId, port: Port)
    requires Inv(c) && p.n < c.desk.nextPromise && IsSeed(HandleCrash(c), port)
    ensures Lookup(HandleCrash(c).desk.settled, p) ==
            if p in c.desk.owner then Some(None) else Lookup(c.desk.settled, p)
    ensures p in HandleCrash(c).desk.settled && HandleCrash(c).worker.None?
    ensures Inv(Create(HandleCrash(c), port)) && InStep(Create(HandleCrash(c), port))
  {
    var d := HandleCrash(c);
    OpenIsOwned(c.desk);
    CrashAccounted(c.desk);
    CrashKept(c);
    WithWorkerKept(d, port);
    CreateInStep(d, port);
  }

  // Resyncs.

  ghost predicate Flying(c: Client, s: Slot) {
    c.worker.Some? && IsInFlight(c.worker.value.posted, c.desk.requests, c.sentAt, s)
  }

  /** The worker will answer the request of the slot, and not with a resync. */
  ghost predicate ServedIn(c: Client, s: Slot) {
    c.worker.Some? && IsServed(c.worker.value.posted, c.worker.value.states, c.desk.requests, c.sentAt, s)
  }

  lemma {:induction false} StartServes(c: Client, slot: Slot, version: int, query: Query)
    requires Inv(c) && c.worker.Some?
    ensures var d := Start(c, slot, Generation(c), version, query);
            Flying(d, slot) && (ServedIn(d, slot) <==> HeldVersion(c, slot.path) == Some(version))
  {
    var slots := c.desk.resolvers.Keys;
    StartQueued(c.worker.value, c.models.Keys, c.synced, c.desk, slots, slots + {slot}, c.sentAt, slot, version, query);
  }

  lemma {:induction false} StartSpares(c: Client, slot: Slot, version: int, query: Query, t: Slot)
    requires Inv(c) && Flying(c, t) && t != slot
    ensures var d := Start(c, slot, Generation(c), version, query);
            Flying(d, t) && (ServedIn(d, t) <==> ServedIn(c, t))
  {
    var p := c.worker.value;
    var ms := StartMessages(c.desk, slot, version, query);
    ExtendTrace(p, ms);
    var q := Extend(p, ms);
    assert q.posted[c.sentAt[t]] == p.posted[c.sentAt[t]] && q.states[c.sentAt[t]] == p.states[c.sentAt[t]];
  }

  /** The version the restarted request of the slot is about. */
  function AskedVersion(c: Client, slot: Slot, version: int): int {
    if slot.kind != Diagnostics && slot in c.retries then Current(c, c.retries[slot].model).version else version
  }

  lemma {:induction false} RestartServes(c: Client, slot: Slot, version: int, t: Slot)
    requires Inv(c) && c.worker.Some?
    ensures var d := Restart(c, slot, version);
            && (slot in c.desk.requests ==>
                  Flying(d, slot) &&
                    (ServedIn(d, slot) <==> HeldVersion(c, slot.path) == Some(AskedVersion(c, slot, version))))
            && (t != slot && Flying(c, t) ==> Flying(d, t) && (ServedIn(d, t) <==> ServedIn(c, t)))
            && (t in d.desk.requests <==> t in c.desk.requests) && d.retries == c.retries && d.editor == c.editor
  {
    if slot.kind == Diagnostics && slot in c.desk.requests {
      StartServes(c, slot, version, NO_QUERY);
      if t != slot && Flying(c, t) { StartSpares(c, slot, version, NO_QUERY, t); }
    } else if slot in c.retries {
      var r := c.retries[slot];
      StartServes(c, slot, Current(c, r.model).version, r.query);
      if t != slot && Flying(c, t) { StartSpares(c, slot, Current(c, r.model).version, r.query, t); }
    }
  }

  lemma {:induction false} RestartKindsSpares(c: Client, path: Path, version: int, kinds: seq<Kind>, t: Slot)
    requires Inv(c) && c.worker.Some? && (t.path != path || t.kind !in kinds) && Flying(c, t)
    ensures var d := RestartKinds(c, path, version, kinds); Flying(d, t) && (ServedIn(d, t) <==> ServedIn(c, t))
    decreases |kinds|
  {
    if kinds != [] {
      var slot := Slot(kinds[0], path);
      RestartKept(c, slot, version);
      RestartServes(c, slot, version, t);
      RestartKindsSpares(Restart(c, slot, version), path, version, kinds[1..], t);
    }
  }

  lemma {:induction false} RestartKindsServes(c: Client, path: Path, version: int, kinds: seq<Kind>, t: Slot)
    requires Inv(c) && c.worker.Some? && forall i, j :: 0 <= i < j < |kinds| ==> kinds[i] != kinds[j]
    requires t.path == path && t.kind in kinds && t in c.desk.requests
    ensures ServedIn(RestartKinds(c, path, version, kinds), t) <==>
            HeldVersion(c, path) == Some(AskedVersion(c, t, version))
    decreases |kinds|
  {
    var slot := Slot(kinds[0], path);
    var d := Restart(c, slot, version);
    RestartKept(c, slot, version);
    RestartServes(c, slot, version, t);
    if t == slot {
      RestartKindsSpares(d, path, version, kinds[1..], t);
    } else {
      SameVersions(c, slot, version, t);
      RestartKindsServes(d, path, version, kinds[1..], t);
    }
  }

  lemma {:induction false} SameVersions(c: Client, slot: Slot, version: int, t: Slot)
    requires Inv(c) && c.worker.Some?
    ensures var d := Restart(c, slot, version);
            HeldVersion(d, t.path) == HeldVersion(c, t.path) &&
              AskedVersion(d, t, version) == AskedVersion(c, t, version)
  {
    RestartSilent(c, slot, version);
    RestartDesk(c, slot, version);
  }

  lemma {:induction false} AllKinds(k: Kind)
    ensures k in KINDS
    ensures forall i, j :: 0 <= i < j < |KINDS| ==> KINDS[i] != KINDS[j]
  {
    match k {
      case Diagnostics => assert KINDS[0] == k;
      case Formatting => assert KINDS[1] == k;
      case Completion => assert KINDS[2] == k;
      case Hover => assert KINDS[3] == k;
      case Definition => assert KINDS[4] == k;
      case References => assert KINDS[5] == k;
      case Rename => assert KINDS[6] == k;
    }
  }

  /** The version the worker will hold after the document has been opened again. */
  function LaterVersion(held: Option<int>, version: int): int {
    if held.Some? && held.value > version then held.value else version
  }

  lemma {:induction false} OpenHolds(c: Client, path: Path, document: Document)
    requires Inv(c) && c.worker.Some? && path in c.models
    ensures HeldVersion(OpenModel(c, path, document), path) ==
            Some(LaterVersion(HeldVersion(c, path), document.version))
  {
    PostQueued(c.worker.value, c.desk.nextRequestId, c.desk.requests, c.desk.resolvers.Keys, c.sentAt,
               OpenDocument(path, document.source, document.version));
  }

  lemma {:induction false} ReopenServes(c: Client, path: Path, document: Document, kinds: seq<Kind>, t: Slot)
    requires Inv(c) && c.worker.Some? && path in c.models && forall i, j ::
               0 <= i < j < |kinds| ==> kinds[i] != kinds[j]
    requires t.path == path && t.kind in kinds && t in c.desk.requests
    ensures ServedIn(Reopen(c, path, document, kinds), t) <==>
              LaterVersion(HeldVersion(c, path), document.version) == AskedVersion(c, t, document.version)
  {
    OpenQueued(c, path, document);
    OpenHolds(c, path, document);
    RestartKindsServes(OpenModel(c, path, document), path, document.version, kinds, t);
  }

  /** One resync is enough: after it every request in flight for the registered model of the path is about to be
      answered - exactly if the worker does not hold a later version than the model's. */
  lemma {:induction false} ResyncServes(c: Client, path: Path, t: Slot)
    requires Inv(c) && ActsOnResync(c, path) && t.path == path && t in c.desk.requests
    requires t.kind != Diagnostics && t in c.retries ==> c.retries[t].model == c.models[path]
    ensures ServedIn(HandleResync(c, path), t) <==>
              HeldVersion(c, path).None? || HeldVersion(c, path).value <= Current(c, c.models[path]).version
  {
    AllKinds(t.kind);
    ReopenServes(c, path, Current(c, c.models[path]), KINDS, t);
  }

  /** The same promises, settled and waiting, and the same slots in flight. */
  predicate SamePromises(c: Client, d: Client) {
    && d.desk.resolvers == c.desk.resolvers && d.desk.settled == c.desk.settled
    && d.desk.requests.Keys == c.desk.requests.Keys && d.models == c.models && d.editor == c.editor
    && d.retries == c.retries
  }

  lemma {:induction false} StartDesk(c: Client, slot: Slot, generation: nat, version: int, query: Query)
    requires slot in c.desk.requests
    ensures var d := Start(c, slot, generation, version, query);
            SamePromises(c, d) && d.desk.nextRequestId == c.desk.nextRequestId + 1
  {
    assert c.desk.requests[slot := c.desk.nextRequestId].Keys == c.desk.requests.Keys;
  }

  lemma {:induction false} RestartDesk(c: Client, slot: Slot, version: int)
    requires slot in c.retries <==> slot in c.desk.requests && slot.kind != Diagnostics
    ensures var d := Restart(c, slot, version);
            && SamePromises(c, d)
            && d.desk.nextRequestId == c.desk.nextRequestId + if slot in c.desk.requests then 1 else 0
  {
    if slot.kind == Diagnostics && slot in c.desk.requests {
      StartDesk(c, slot, Generation(c), version, NO_QUERY);
    } else if slot in c.retries {
      var r := c.retries[slot];
      StartDesk(c, slot, r.generation, Current(c, r.model).version, r.query);
    }
  }

  lemma {:induction false} RestartKindsDesk(c: Client, path: Path, version: int, kinds: seq<Kind>)
    requires Inv(c) && c.worker.Some?
    ensures var d := RestartKinds(c, path, version, kinds);
            && SamePromises(c, d)
            && d.desk.nextRequestId == c.desk.nextRequestId + Pending(c.desk.requests, path, kinds)
    decreases |kinds|
  {
    if kinds != [] {
      var slot := Slot(kinds[0], path);
      RestartKept(c, slot, version);
      RestartDesk(c, slot, version);
      var d := Restart(c, slot, version);
      RestartKindsDesk(d, path, version, kinds[1..]);
      SamePending(c.desk.requests, d.desk.requests, path, kinds[1..]);
    }
  }

  /** How many of the kinds have a request in flight. */
  function Pending(requests: map<Slot, nat>, path: Path, kinds: seq<Kind>): nat {
    if kinds == [] then 0
    else (if Slot(kinds[0], path) in requests then 1 else 0) + Pending(requests, path, kinds[1..])
  }

  lemma {:induction false} SamePending(before: map<Slot, nat>, after: map<Slot, nat>, path: Path, kinds: seq<Kind>)
    requires before.Keys == after.Keys
    ensures Pending(before, path, kinds) == Pending(after, path, kinds)
  {
    if kinds != [] { SamePending(before, after, path, kinds[1..]); }
  }

  lemma {:induction false} ReopenDesk(c: Client, path: Path, document: Document, kinds: seq<Kind>)
    requires Inv(c) && c.worker.Some? && path in c.models
    ensures var d := Reopen(c, path, document, kinds);
            && SamePromises(c, d)
            && d.desk.nextRequestId == c.desk.nextRequestId + Pending(c.desk.requests, path, kinds)
            && Lookup(d.fingerprints, path) == Some(FingerprintOf(d, path, document.version))
  {
    OpenQueued(c, path, document);
    RestartKindsDesk(OpenModel(c, path, document), path, document.version, kinds);
  }

  /** A resync restarts what is in flight for the path, once each, and neither settles nor forgets a promise; the same
      resync again changes nothing. */
  lemma {:induction false} ResyncOnce(c: Client, path: Path)
    requires Inv(c) && ActsOnResync(c, path)
    ensures var d := HandleResync(c, path);
            && SamePromises(c, d)
            && d.desk.nextRequestId == c.desk.nextRequestId + Pending(c.desk.requests, path, KINDS)
            && HandleResync(d, path) == d
  {
    ReopenDesk(c, path, Current(c, c.models[path]), KINDS);
  }

  /** A model registered in place of one with a later version: the worker ignores it, a resync does not help, and the
      next one is taken for a duplicate, so that a promise waits although no answer is under way. */
  lemma {:induction false} StuckAfterReplacement(c: Client, path: Path, t: Slot)
    requires Inv(c) && ActsOnResync(c, path) && t.path == path && t in c.desk.resolvers
    requires c.retries[t].model == c.models[path] && HeldVersion(c, path).Some? &&
             Current(c, c.models[path]).version < HeldVersion(c, path).value
    ensures var d := HandleResync(c, path);
            !ServedIn(d, t) && t in d.desk.resolvers && HandleResync(d, path) == d
  {
    ResyncServes(c, path, t);
    ResyncOnce(c, path);
  }

  // Promises over whole runs.

  /** What is settled stays as it is, and identifiers only grow. */
  ghost predicate Onward(d: Desk, e: Desk) {
    && (forall p :: p in d.settled ==> p in e.settled && e.settled[p] == d.settled[p])
    && d.nextRequestId <= e.nextRequestId && d.nextPromise <= e.nextPromise
  }

  lemma {:induction false} DropOnward(d: Desk, slot: Slot, value: Option<string>)
    requires Accounted(d)
    ensures Onward(d, Drop(d, slot, value))
  {
    DropSettles(d, slot, value);
  }

  lemma {:induction false} OfferOnward(d: Desk, slot: Slot, key: HoverKey)
    requires Accounted(d)
    ensures Onward(d, Offer(d, slot, key))
  {
    DropOnward(d, slot, None);
  }

  lemma {:induction false} CrashOnward(d: Desk)
    requires Accounted(d)
    ensures Onward(d, Crash(d))
  {
    OpenIsOwned(d);
  }

  lemma {:induction false} AskOnward(d: Desk, slot: Slot)
    ensures Onward(d, Ask(d, slot))
  {
  }

  lemma {:induction false} JoinOnward(d: Desk, slot: Slot)
    ensures Onward(d, Join(d, slot))
  {
  }

  lemma {:induction false} OnwardOn(d: Desk, e: Desk, f: Desk)
    requires Onward(d, e) && Onward(e, f)
    ensures Onward(d, f)
  {
  }

  lemma {:induction false} CancelKindsOnward(c: Client, path: Path, kinds: seq<Kind>)
    requires Inv(c)
    ensures Onward(c.desk, CancelKinds(c, path, kinds).desk)
    decreases |kinds|
  {
    if kinds != [] {
      var slot := Slot(kinds[0], path);
      var d := CancelSlot(c, slot, Generation(c));
      CancelKept(c, slot, Generation(c));
      DropOnward(c.desk, slot, None);
      CancelKindsOnward(d, path, kinds[1..]);
      OnwardOn(c.desk, d.desk, CancelKinds(d, path, kinds[1..]).desk);
    }
  }

  lemma {:induction false} RestartOnward(c: Client, slot: Slot, version: int)
    ensures Onward(c.desk, Restart(c, slot, version).desk)
  {
    var d := Restart(c, slot, version);
    if (slot.kind == Diagnostics && slot in c.desk.requests) || slot in c.retries {
      assert d.desk == Ask(c.desk, slot);
      AskOnward(c.desk, slot);
    } else {
      SameDesk(c, d);
    }
  }

  lemma {:induction false} RestartKindsOnward(c: Client, path: Path, version: int, kinds: seq<Kind>)
    ensures Onward(c.desk, RestartKinds(c, path, version, kinds).desk)
    decreases |kinds|
  {
    if kinds != [] {
      var d := Restart(c, Slot(kinds[0], path), version);
      RestartOnward(c, Slot(kinds[0], path), version);
      RestartKindsOnward(d, path, version, kinds[1..]);
      OnwardOn(c.desk, d.desk, RestartKinds(d, path, version, kinds[1..]).desk);
    }
  }

  lemma {:induction false} UnregisterOnward(c: Client, path: Path, port: Port)
    requires Inv(c) && Possible(c, UnregisterModel(path, port))
    ensures Onward(c.desk, Unregister(c, path, port).desk)
  {
    ForgetQueued(c, path);
    var d := Forget(c, path);
    assert c.worker.None? ==> IsSeed(d, port);
    WithWorkerKept(d, port);
    CancelKindsOnward(WithWorker(d, port), path, KINDS);
  }

  lemma {:induction false} ResyncOnward(c: Client, path: Path)
    ensures Onward(c.desk, HandleResync(c, path).desk)
  {
    if ActsOnResync(c, path) {
      var document := Current(c, c.models[path]);
      RestartKindsOnward(OpenModel(c, path, document), path, document.version, KINDS);
    }
  }

  lemma {:induction false} ReplyOnward(c: Client, slot: Slot, requestId: nat, version: int, payload: Option<string>)
    requires Accounted(c.desk)
    ensures Onward(c.desk, HandleReply(c, slot, requestId, version, payload).desk)
  {
    if Lookup(c.desk.requests, slot) == Some(requestId) {
      DropOnward(c.desk, slot, ReplyValue(c, slot.path, version, payload));
    }
  }

  lemma {:induction false} DiagnosticsOnward(c: Client, path: Path, requestId: nat, version: int)
    requires Accounted(c.desk)
    ensures Onward(c.desk, HandleDiagnostics(c, path, requestId, version).desk)
    ensures Onward(c.desk, HandleDiagnosticsError(c, path, requestId).desk)
  {
    DropOnward(c.desk, Slot(Diagnostics, path), None);
  }

  lemma {:induction false} ErrorOnward(c: Client, slot: Slot, requestId: nat)
    requires Accounted(c.desk)
    ensures Onward(c.desk, HandleError(c, slot, requestId).desk)
  {
    DropOnward(c.desk, slot, None);
  }

  lemma {:induction false} MessageOnward(c: Client, call: Call)
    requires Accounted(c.desk) && IsMessage(call)
    ensures Onward(c.desk, Next(c, call).desk)
  {
    if call.GetReply? {
      ReplyOnward(c, call.slot, call.requestId, call.version, call.payload);
    } else if call.GetError? {
      ErrorOnward(c, call.slot, call.requestId);
    } else if call.GetDiagnostics? {
      DiagnosticsOnward(c, call.path, call.requestId, call.version);
    } else if call.GetDiagnosticsError? {
      DiagnosticsOnward(c, call.path, call.requestId, 0);
    } else if call.GetResync? {
      ResyncOnward(c, call.path);
    } else {
      CrashOnward(c.desk);
    }
  }

  lemma {:induction false} HoverOnward(c: Client, path: Path, model: ModelId, query: Query, port: Port)
    requires Accounted(c.desk)
    ensures Onward(c.desk, AskHover(c, path, model, query, port).desk)
  {
    var key := HoverKey(Current(c, model).version, query);
    if Lookup(c.desk.hoverKeys, path) == Some(key) && Slot(Hover, path) in c.desk.resolvers {
      JoinOnward(c.desk, Slot(Hover, path));
    } else {
      OfferOnward(c.desk, Slot(Hover, path), key);
    }
  }

  lemma {:induction false} FeatureOnward(c: Client, slot: Slot, model: ModelId, query: Query, port: Port)
    requires Accounted(c.desk)
    ensures Onward(c.desk, AskFeature(c, slot, model, query, port).desk)
  {
    OfferOnward(c.desk, slot, HoverKey(Current(c, model).version, query));
  }

  lemma {:induction false} SameDesk(c: Client, d: Client)
    requires d.desk == c.desk
    ensures Onward(c.desk, d.desk)
  {
  }

  lemma {:induction false} CallOnward(c: Client, call: Call)
    requires Accounted(c.desk) && !IsMessage(call) && !call.UnregisterModel?
    ensures Onward(c.desk, Next(c, call).desk)
  {
    if call.RequestFeature? {
      FeatureOnward(c, call.slot, call.model, call.query, call.port);
    } else if call.RequestHover? {
      HoverOnward(c, call.path, call.model, call.query, call.port);
    } else if call.TimerFires? {
      AskOnward(c.desk, Slot(Diagnostics, call.path));
    } else {
      SameDesk(c, Next(c, call));
    }
  }

  lemma {:induction false} NextOnward(c: Client, call: Call)
    requires Inv(c) && Possible(c, call)
    ensures Onward(c.desk, Next(c, call).desk)
  {
    if IsMessage(call) {
      MessageOnward(c, call);
    } else if call.UnregisterModel? {
      UnregisterOnward(c, call.path, call.port);
    } else {
      CallOnward(c, call);
    }
  }

  /** Whatever happens after a promise has been settled, it keeps its value; and no identifier is used twice. */
  lemma {:induction false} RunOnward(c: Client, calls: seq<Call>)
    requires Inv(c) && IsRunFrom(c, calls)
    ensures Onward(c.desk, RunClient(c, calls).desk)
    decreases |calls|
  {
    if calls != [] {
      NextOnward(c, calls[0]);
      NextKeeps(c, calls[0]);
      RunOnward(Next(c, calls[0]), calls[1..]);
    }
  }

  // A version that goes back.

  lemma {:induction false} FirstRegistered(c: Client, path: Path, model: ModelId, port: Port)
    requires Inv(c) && c.worker.None? && Possible(c, RegisterModel(path, model, port))
    ensures var d := Register(c, path, model, port);
            && Inv(d) && d.worker.Some? && path in d.models && d.editor == c.editor
            && Agrees(d, path) && d.sent[path] == Current(c, model)
  {
    RegisterKept(c, path, model, port);
    CreateInStep(c.(models := c.models[path := model], fingerprints := c.fingerprints - {path}), port);
  }

  /** Replacing a registered model at version 5 by another at version 1: the worker keeps the old text. */
  lemma {:induction false} ReplacedModelIsLost(c: Client, port: Port)
    requires IsStart(c) && c.editor == map[0 := Document(5, "old"), 1 := Document(1, "new")]
    requires Possible(c, RegisterModel("a", 0, port))
    ensures var d := Register(Register(c, "a", 0, port), "a", 1, port);
            && Inv(d) && !InStep(d) && d.sent["a"] == Document(1, "new")
            && Final(d.worker.value).documents["a"] == Document(5, "old")
  {
    StartInv(c);
    FirstRegistered(c, "a", 0, port);
    ReplacedByLower(Register(c, "a", 0, port), "a", 1, port);
  }

  lemma {:induction false} ReplacedByLower(c: Client, path: Path, model: ModelId, port: Port)
    requires Inv(c) && c.worker.Some? && Agrees(c, path) && Current(c, model).version < c.sent[path].version
    ensures var d := Register(c, path, model, port);
            && Inv(d) && !InStep(d) && d.sent[path] == Current(c, model)
            && path in Final(d.worker.value).documents && Final(d.worker.value).documents[path] == c.sent[path]
  {
    var document := Current(c, model);
    RegisterKept(c, path, model, port);
    PostQueued(c.worker.value, c.desk.nextRequestId, c.desk.requests, c.desk.resolvers.Keys, c.sentAt,
               OpenDocument(path, document.source, document.version));
  }
}
