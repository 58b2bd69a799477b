/** Edits over whole runs of the language-service client: which of them a worker answers with a resync. */
module LsEdits {
  import opened Options
  import opened LsMirror
  import opened LsDesk
  import opened LsSystem
  import opened LsRuns

  /** Message `k` is an edit of a path that is open when the worker comes to it. */
  predicate EditsOpen(p: Port, k: nat) {
    k < |p.posted| && k < |p.states| && p.posted[k].UpdateDocument? && p.posted[k].path in p.states[k].documents
  }

  /** Every edit on the queue of a path that is open when the worker comes to it is taken. */
  ghost predicate EditsTaken(p: Port) {
    forall k :: 0 <= k < |p.posted| && EditsOpen(p, k) ==> Accepted(p.posted, p.states, k)
  }

  ghost predicate Taken(c: Client) { c.worker.Some? ==> EditsTaken(c.worker.value) }

  /** More messages, none of them an edit that is refused. */
  lemma {:induction false} MoreTaken(p: Port, q: Port)
    requires IsTrace(p.posted, p.states) && IsTrace(q.posted, q.states) && p.posted <= q.posted && EditsTaken(p)
    requires forall k :: |p.posted| <= k < |q.posted| && EditsOpen(q, k) ==> Accepted(q.posted, q.states, k)
    ensures EditsTaken(q)
  {
    forall k | 0 <= k < |q.posted| && EditsOpen(q, k)
      ensures Accepted(q.posted, q.states, k)
    {
      if k < |p.posted| {
        SameTrace(q.posted, q.states, p.posted, p.states, k);
        assert EditsOpen(p, k);
      }
    }
  }

  lemma ExtendTaken(p: Port, ms: seq<InMessage>)
    requires IsTrace(p.posted, p.states) && EditsTaken(p) && forall m :: m in ms ==> !m.UpdateDocument?
    ensures EditsTaken(Extend(p, ms))
  {
    ExtendTrace(p, ms);
    var q := Extend(p, ms);
    assert forall k :: |p.posted| <= k < |q.posted| ==> q.posted[k] in ms;
    MoreTaken(p, q);
  }

  lemma SameTaken(c: Client, d: Client)
    requires Inv(c) && Inv(d) && SameMirror(c, d) && Taken(c)
    ensures Taken(d)
  {
    MoreTaken(c.worker.value, d.worker.value);
  }

  lemma SeedTaken(c: Client, port: Port)
    requires IsSeed(c, port)
    ensures EditsTaken(port)
  {
    assert forall k :: 0 <= k < |port.posted| ==> port.posted[k] in port.posted;
  }

  lemma WithWorkerTaken(c: Client, port: Port)
    requires Taken(c) && (c.worker.None? ==> IsSeed(c, port))
    ensures Taken(WithWorker(c, port))
  {
    if c.worker.None? { SeedTaken(c, port); }
  }

  lemma OpenTaken(c: Client, path: Path, document: Document)
    requires Inv(c) && Taken(c)
    ensures Taken(OpenModel(c, path, document))
  {
    if c.worker.Some? { ExtendTaken(c.worker.value, [OpenDocument(path, document.source, document.version)]); }
  }

  lemma RegisterTaken(c: Client, path: Path, model: ModelId, port: Port)
    requires Inv(c) && Taken(c) && Possible(c, RegisterModel(path, model, port))
    ensures Taken(Register(c, path, model, port))
  {
    if c.worker.None? {
      SeedTaken(c.(models := c.models[path := model]), port);
    } else {
      OpenTaken(c, path, Current(c, model));
    }
  }

  /** An edit of a registered path in step is taken; any other is of a path that the worker does not have open. */
  lemma DeltaTaken(c: Client, path: Path, document: Document)
    requires Inv(c) && InStep(c) && Taken(c) && c.worker.Some?
    ensures Taken(SendDelta(c, path, document))
  {
    var p, m := c.worker.value, Delta(c, path, document);
    var q := Extend(p, [m]);
    PostQueued(p, c.desk.nextRequestId, c.desk.requests, c.desk.resolvers.Keys, c.sentAt, m);
    assert q.posted == p.posted + [m] && q.states[|p.posted|] == p.states[|p.posted|] == Final(p);
    if path in c.models { DeltaAgrees(c, path, document); }
    MoreTaken(p, q);
  }

  lemma UpdateTaken(c: Client, path: Path, document: Document, port: Port)
    requires Inv(c) && InStep(c) && Taken(c) && Possible(c, UpdateText(path, document, port))
    ensures Taken(Update(c, path, document, port))
  {
    WithWorkerKept(c, port);
    WithWorkerInStep(c, port);
    WithWorkerTaken(c, port);
    DeltaTaken(WithWorker(c, port), path, document);
  }

  lemma ForgetTaken(c: Client, path: Path)
    requires Inv(c) && Taken(c)
    ensures Taken(Forget(c, path))
  {
    if c.worker.Some? { ExtendTaken(c.worker.value, [CloseDocument(path)]); }
  }

  lemma GiveUpTaken(c: Client, path: Path, kinds: seq<Kind>)
    requires Inv(c) && c.worker.Some? && Taken(c)
    ensures Taken(GiveUp(c, path, kinds))
  {
    CancelKindsSilent(c, path, kinds);
    CancelKindsKept(c, path, kinds);
    SameTaken(c, CancelKinds(c, path, kinds));
  }

  lemma UnregisterTaken(c: Client, path: Path, port: Port)
    requires Inv(c) && Taken(c) && Possible(c, UnregisterModel(path, port))
    ensures Taken(Unregister(c, path, port))
  {
    ForgetQueued(c, path);
    ForgetTaken(c, path);
    var d := Forget(c, path);
    assert c.worker.None? ==> IsSeed(d, port);
    WithWorkerKept(d, port);
    WithWorkerTaken(d, port);
    GiveUpTaken(WithWorker(d, port), path, KINDS);
  }

  lemma TimerTaken(c: Client, path: Path, port: Port)
    requires Inv(c) && Taken(c) && Possible(c, TimerFires(path, port)) && path in c.timers
    ensures Taken(FireTimer(c, path, port))
  {
    var d := c.(timers := c.timers - {path});
    WithWorkerKept(d, port);
    WithWorkerTaken(d, port);
    var e := WithWorker(d, port);
    StartSilent(e, Slot(Diagnostics, path), c.timers[path], NO_QUERY);
    FireTimerKept(c, path, port);
    SameTaken(e, FireTimer(c, path, port));
  }

  lemma FeatureTaken(c: Client, slot: Slot, model: ModelId, query: Query, port: Port)
    requires Inv(c) && Taken(c) && slot.kind != Diagnostics && (c.worker.None? ==> IsSeed(c, port))
    ensures Taken(AskFeature(c, slot, model, query, port))
  {
    WithWorkerKept(c, port);
    WithWorkerTaken(c, port);
    var d := WithWorker(c, port);
    OfferSilent(d, slot, Current(c, model).version, model, query);
    OfferKept(d, slot, Generation(d), Current(c, model).version, model, query);
    SameTaken(d, AskFeature(c, slot, model, query, port));
  }

  lemma HoverTaken(c: Client, path: Path, model: ModelId, query: Query, port: Port)
    requires Inv(c) && Taken(c) && (c.worker.None? ==> IsSeed(c, port))
    ensures Taken(AskHover(c, path, model, query, port))
  {
    FeatureTaken(c, Slot(Hover, path), model, query, port);
    WithWorkerTaken(c, port);
  }

  lemma FilesTaken(c: Client, files: map<Path, string>, removed: seq<InMessage>, uploaded: seq<InMessage>)
    requires Inv(c) && Taken(c) && Possible(c, WorkspaceChanges(files, removed, uploaded))
    ensures Taken(SyncFiles(c.(workspace := files), removed, uploaded))
  {
    if c.worker.Some? { ExtendTaken(c.worker.value, removed + uploaded); }
  }

  lemma ResyncTaken(c: Client, path: Path)
    requires Inv(c) && Taken(c)
    ensures Taken(HandleResync(c, path))
  {
    if ActsOnResync(c, path) {
      var document := Current(c, c.models[path]);
      var d := OpenModel(c, path, document);
      OpenTaken(c, path, document);
      OpenQueued(c, path, document);
      RestartKindsSilent(d, path, document.version, KINDS);
      RestartKindsKept(d, path, document.version, KINDS);
      SameTaken(d, RestartKinds(d, path, document.version, KINDS));
    }
  }

  lemma AskingTaken(c: Client, call: Call)
    requires Inv(c) && Taken(c) && Possible(c, call)
    requires call.TimerFires? || call.RequestFeature? || call.RequestHover? || call.WorkspaceChanges? || call.Edit?
    ensures Taken(Next(c, call))
  {
    if call.TimerFires? {
      if call.path in c.timers { TimerTaken(c, call.path, call.port); }
    } else if call.RequestFeature? {
      FeatureTaken(c, call.slot, call.model, call.query, call.port);
    } else if call.RequestHover? {
      HoverTaken(c, call.path, call.model, call.query, call.port);
    } else if call.WorkspaceChanges? {
      FilesTaken(c, call.files, call.removed, call.uploaded);
    }
  }

  lemma MessageTaken(c: Client, call: Call)
    requires Inv(c) && Taken(c) && IsMessage(call)
    ensures Taken(Next(c, call))
  {
    if call.GetResync? { ResyncTaken(c, call.path); } else { AnswerSilent(c, call); }
  }

  lemma AnswerSilent(c: Client, call: Call)
    requires IsMessage(call) && !call.GetResync?
    ensures Next(c, call).worker == if call.WorkerFails? then None else c.worker
  {
  }

  lemma CallTaken(c: Client, call: Call)
    requires Inv(c) && InStep(c) && Taken(c) && Possible(c, call)
    requires call.RegisterModel? || call.UnregisterModel? || call.UpdateText?
    ensures Taken(Next(c, call))
  {
    if call.RegisterModel? {
      RegisterTaken(c, call.path, call.model, call.port);
    } else if call.UnregisterModel? {
      UnregisterTaken(c, call.path, call.port);
    } else {
      UpdateTaken(c, call.path, call.document, call.port);
    }
  }

  /** In step, no call and no message puts an edit on the queue that the worker would answer with a resync, unless it is
      of a path that is not registered. */
  lemma {:induction false} NextTaken(c: Client, call: Call)
    requires Inv(c) && InStep(c) && Taken(c) && Possible(c, call)
    ensures Taken(Next(c, call))
  {
    if IsMessage(call) {
      MessageTaken(c, call);
    } else if call.RegisterModel? || call.UnregisterModel? || call.UpdateText? {
      CallTaken(c, call);
    } else {
      AskingTaken(c, call);
    }
  }

  /** In a run in which no version goes back, a worker takes every edit of a path that it has open when it comes to the
      edit; and it has open what is registered when the edit is sent. */
  lemma {:induction false} RunTaken(c: Client, calls: seq<Call>)
    requires Inv(c) && InStep(c) && Taken(c) && IsRunFrom(c, calls) && ForwardRun(c, calls)
    ensures Taken(RunClient(c, calls))
    decreases |calls|
  {
    if calls != [] {
      NextInStep(c, calls[0]);
      NextKeeps(c, calls[0]);
      NextTaken(c, calls[0]);
      RunTaken(Next(c, calls[0]), calls[1..]);
    }
  }
}
