/** What each call and each message does to the queue, the requests in flight and the promises: which messages are
    posted, which promises are settled with what, and that nothing happens to the others. */
module LsEffects {
  import opened Options
  import opened LsMirror
  import opened LsDesk
  import opened LsSystem
  import opened LsRuns
  import opened LsReplies

  // Giving up.

  predicate Among(s: Slot, path: Path, kinds: seq<Kind>) { s.path == path && s.kind in kinds }

  /** The slots given up are gone, and the others have what they had. */
  ghost predicate Without<V(!new)>(before: map<Slot, V>, after: map<Slot, V>, path: Path, kinds: seq<Kind>) {
    forall s :: Lookup(after, s) == if Among(s, path, kinds) then None else Lookup(before, s)
  }

  lemma WithoutFirst<V(!new)>(m: map<Slot, V>, path: Path, kind: Kind)
    ensures Without(m, m - {Slot(kind, path)}, path, [kind])
  {
  }

  lemma AmongOn(s: Slot, path: Path, kinds: seq<Kind>)
    requires kinds != []
    ensures Among(s, path, kinds) <==> Among(s, path, [kinds[0]]) || Among(s, path, kinds[1..])
  {
    assert kinds == [kinds[0]] + kinds[1..];
  }

  lemma WithoutOn<V(!new)>(a: map<Slot, V>, b: map<Slot, V>, c: map<Slot, V>, path: Path, kinds: seq<Kind>)
    requires kinds != [] && Without(a, b, path, [kinds[0]]) && Without(b, c, path, kinds[1..])
    ensures Without(a, c, path, kinds)
  {
    forall s { AmongOn(s, path, kinds); }
  }

  /** Nothing is in flight for the slots given up, the others are as before, and the promises that waited have got
      nothing. */
  ghost predicate GivenUp(c: Client, d: Client, path: Path, kinds: seq<Kind>) {
    && Without(c.desk.requests, d.desk.requests, path, kinds)
    && Without(c.desk.resolvers, d.desk.resolvers, path, kinds) && Without(c.retries, d.retries, path, kinds)
    && Settled(c.desk, d.desk, path, kinds)
  }

  ghost predicate Settled(c: Desk, d: Desk, path: Path, kinds: seq<Kind>) {
    && (forall p :: Lookup(d.settled, p) ==
          if p in c.owner && Among(c.owner[p], path, kinds) then Some(None) else Lookup(c.settled, p))
    && (forall p :: Lookup(d.owner, p) ==
          if p in c.owner && Among(c.owner[p], path, kinds) then None else Lookup(c.owner, p))
  }

  lemma {:induction false} SettledFirst(c: Desk, path: Path, kind: Kind)
    requires Accounted(c)
    ensures Settled(c, Drop(c, Slot(kind, path), None), path, [kind])
  {
    DropSettles(c, Slot(kind, path), None);
  }

  lemma {:induction false} SettledOn(c: Desk, d: Desk, e: Desk, path: Path, kinds: seq<Kind>)
    requires kinds != [] && Settled(c, d, path, [kinds[0]]) && Settled(d, e, path, kinds[1..])
    ensures Settled(c, e, path, kinds)
  {
    assert kinds == [kinds[0]] + kinds[1..];
  }

  lemma {:induction false} DropGivesUp(c: Client, path: Path, kind: Kind)
    requires Inv(c)
    ensures GivenUp(c, DropSlot(c, Slot(kind, path), None), path, [kind])
  {
    WithoutFirst(c.desk.requests, path, kind);
    WithoutFirst(c.desk.resolvers, path, kind);
    WithoutFirst(c.retries, path, kind);
    SettledFirst(c.desk, path, kind);
  }

  lemma SameGivenUp(c: Client, d: Client, e: Client, path: Path, kinds: seq<Kind>)
    requires GivenUp(c, d, path, kinds) && e.desk == d.desk && e.retries == d.retries
    ensures GivenUp(c, e, path, kinds)
  {
  }

  lemma GivenUpOn(c: Client, d: Client, e: Client, path: Path, kinds: seq<Kind>)
    requires kinds != [] && GivenUp(c, d, path, [kinds[0]]) && GivenUp(d, e, path, kinds[1..])
    ensures GivenUp(c, e, path, kinds)
  {
    SettledOn(c.desk, d.desk, e.desk, path, kinds);
    WithoutOn(c.desk.requests, d.desk.requests, e.desk.requests, path, kinds);
    WithoutOn(c.desk.resolvers, d.desk.resolvers, e.desk.resolvers, path, kinds);
    WithoutOn(c.retries, d.retries, e.retries, path, kinds);
  }

  lemma {:induction false} CancelKindsGivesUp(c: Client, path: Path, kinds: seq<Kind>)
    requires Inv(c)
    ensures GivenUp(c, CancelKinds(c, path, kinds), path, kinds)
    decreases |kinds|
  {
    if kinds != [] {
      var d := CancelSlot(c, Slot(kinds[0], path), Generation(c));
      CancelKept(c, Slot(kinds[0], path), Generation(c));
      DropGivesUp(c, path, kinds[0]);
      SameGivenUp(c, DropSlot(c, Slot(kinds[0], path), None), d, path, [kinds[0]]);
      CancelKindsGivesUp(d, path, kinds[1..]);
      GivenUpOn(c, d, CancelKinds(c, path, kinds), path, kinds);
    }
  }

  /** One cancellation for each request in flight, and nothing else. */
  ghost predicate Cancels(ms: seq<InMessage>, requests: map<Slot, nat>, path: Path, kinds: seq<Kind>) {
    && Distinct(ms)
    && (forall m :: m in ms ==> exists s :: s in requests && Among(s, path, kinds) && m == CancelRequest(requests[s]))
    && (forall s :: s in requests && Among(s, path, kinds) ==> CancelRequest(requests[s]) in ms)
  }

  lemma DistinctCons(m: InMessage, more: seq<InMessage>)
    requires Distinct(more) && m !in more
    ensures Distinct([m] + more)
  {
  }

  lemma {:induction false} CancelsOn(requests: map<Slot, nat>, path: Path, kinds: seq<Kind>, more: seq<InMessage>)
    returns (ms: seq<InMessage>)
    requires kinds != [] && kinds[0] !in kinds[1..]
    requires forall s, t :: s in requests && t in requests && requests[s] == requests[t] ==> s == t
    requires Cancels(more, requests - {Slot(kinds[0], path)}, path, kinds[1..])
    ensures Cancels(ms, requests, path, kinds) && ms == Cancelling(Lookup(requests, Slot(kinds[0], path))) + more
  {
    var slot := Slot(kinds[0], path);
    ms := Cancelling(Lookup(requests, slot)) + more;
    assert kinds == [kinds[0]] + kinds[1..];
    forall s | s in requests && Among(s, path, kinds)
      ensures CancelRequest(requests[s]) in ms
    {
      if s == slot {
        assert ms[0] == CancelRequest(requests[s]);
      } else {
        assert s in requests - {slot} && Among(s, path, kinds[1..]);
        assert CancelRequest((requests - {slot})[s]) in more;
      }
    }
    if slot in requests {
      assert forall m :: m in more ==> m != CancelRequest(requests[slot]);
      DistinctCons(CancelRequest(requests[slot]), more);
    } else {
      assert ms == more;
    }
    forall m | m in ms
      ensures exists s :: s in requests && Among(s, path, kinds) && m == CancelRequest(requests[s])
    {
      if m !in more { assert slot in requests && Among(slot, path, kinds) && m == CancelRequest(requests[slot]); }
    }
  }

  lemma {:induction false} CancelKindsPosts(c: Client, path: Path, kinds: seq<Kind>) returns (ms: seq<InMessage>)
    requires Inv(c) && forall i, j :: 0 <= i < j < |kinds| ==> kinds[i] != kinds[j]
    ensures Cancels(ms, c.desk.requests, path, kinds)
    ensures CancelKinds(c, path, kinds).worker == Send(c.worker, Generation(c), ms)
    decreases |kinds|
  {
    if kinds == [] {
      ms := [];
    } else {
      var slot := Slot(kinds[0], path);
      var d := CancelSlot(c, slot, Generation(c));
      CancelKept(c, slot, Generation(c));
      var more := CancelKindsPosts(d, path, kinds[1..]);
      ms := CancelsOn(c.desk.requests, path, kinds, more);
      SendTwice(c.worker, Generation(c), Cancelling(Lookup(c.desk.requests, slot)), more);
    }
  }

  lemma {:induction false} CancelKindsFrame(c: Client, path: Path, kinds: seq<Kind>)
    ensures var d := CancelKinds(c, path, kinds);
            && d.models == c.models && d.editor == c.editor && d.timers == c.timers && d.sent == c.sent
            && d.fingerprints == c.fingerprints && d.synced == c.synced && d.workspace == c.workspace
    decreases |kinds|
  {
    if kinds != [] {
      CancelKindsFrame(CancelSlot(c, Slot(kinds[0], path), Generation(c)), path, kinds[1..]);
    }
  }

  lemma ForgetFrame(c: Client, path: Path, port: Port)
    ensures var e := WithWorker(Forget(c, path), port);
            e.desk == c.desk && e.retries == c.retries && e.timers == c.timers && e.models == c.models - {path}
  {
  }

  lemma {:induction false} AfterForgetting(c: Client, path: Path, port: Port)
    requires Inv(c) && Possible(c, UnregisterModel(path, port))
    ensures Inv(WithWorker(Forget(c, path), port))
  {
    var d := Forget(c, path);
    ForgetQueued(c, path);
    assert c.worker.None? ==> IsSeed(d, port);
    WithWorkerKept(d, port);
  }

  /** Without its model a path has nothing in flight: whatever promise waited for it is settled with nothing, and its
      requests and its timer are gone. Promises and requests of other paths are as before. */
  lemma {:induction false} UnregisterGivesUp(c: Client, path: Path, port: Port)
    requires Inv(c) && Possible(c, UnregisterModel(path, port))
    ensures var d := Unregister(c, path, port);
            GivenUp(c, d, path, KINDS) && (forall k :: k in KINDS) && d.timers == c.timers - {path}
  {
    var e := WithWorker(Forget(c, path), port);
    var f := CancelKinds(e, path, KINDS);
    AfterForgetting(c, path, port);
    forall k
      ensures k in KINDS
    {
      AllKinds(k);
    }
    CancelKindsGivesUp(e, path, KINDS);
    CancelKindsFrame(e, path, KINDS);
    var d := f.(timers := f.timers - {path});
    SameGivenUp(e, f, d, path, KINDS);
    ForgetFrame(c, path, port);
    SameBefore(c, e, d, path, KINDS);
  }

  /** A worker gets the document closed and each request in flight for it cancelled, once. */
  lemma {:induction false} UnregisterPosts(c: Client, path: Path, port: Port) returns (cancels: seq<InMessage>)
    requires Inv(c) && Possible(c, UnregisterModel(path, port)) && c.worker.Some?
    ensures var d := Unregister(c, path, port);
            && d.worker.Some? && path !in d.sent && path !in d.models && path !in d.fingerprints
            && d.worker.value.posted == c.worker.value.posted + [CloseDocument(path)] + cancels
    ensures Cancels(cancels, c.desk.requests, path, KINDS)
  {
    var e := WithWorker(Forget(c, path), port);
    AfterForgetting(c, path, port);
    AllKinds(Diagnostics);
    CancelKindsFrame(e, path, KINDS);
    cancels := CancelKindsPosts(e, path, KINDS);
    ClosedQueue(c, path, cancels);
  }

  lemma SameBefore(c: Client, d: Client, e: Client, path: Path, kinds: seq<Kind>)
    requires GivenUp(d, e, path, kinds) && d.desk == c.desk && d.retries == c.retries
    ensures GivenUp(c, e, path, kinds)
  {
  }

  lemma ClosedQueue(c: Client, path: Path, cancels: seq<InMessage>)
    ensures c.worker.Some? ==>
              var w := Send(Send(c.worker, Generation(c), [CloseDocument(path)]), Generation(c), cancels);
              w.Some? && w.value.posted == c.worker.value.posted + [CloseDocument(path)] + cancels
  {
  }

  // Asking.

  function Cancellation(requests: map<Slot, nat>, slot: Slot): seq<InMessage> {
    if slot in requests then [CancelRequest(requests[slot])] else []
  }

  /** The request is posted behind the cancellation of the one it replaces, under an identifier of its own, and is what
      is now in flight for the slot. */
  ghost predicate Asks(c: Client, d: Client, slot: Slot, version: int, query: Query) {
    && c.worker.Some? && d.worker.Some?
    && d.worker.value.posted == c.worker.value.posted + Cancellation(c.desk.requests, slot)
                                + [Request(slot.kind, c.desk.nextRequestId, slot.path, version, query)]
    && d.desk.requests == c.desk.requests[slot := c.desk.nextRequestId]
    && Lookup(d.sentAt, slot) == Some(|d.worker.value.posted| - 1)
  }

  lemma {:induction false} StartAsks(c: Client, slot: Slot, version: int, query: Query)
    requires c.worker.Some?
    ensures Asks(c, Start(c, slot, Generation(c), version, query), slot, version, query)
  {
    var ms := StartMessages(c.desk, slot, version, query);
    assert Extend(c.worker.value, ms).posted == c.worker.value.posted + ms;
  }

  /** A new promise waits for the slot; those that waited for it have got nothing, and the others are as before. */
  ghost predicate Promises(c: Desk, d: Desk, slot: Slot) {
    && Lookup(d.resolvers, slot) == Some({PromiseId(c.nextPromise)}) && d.nextPromise == c.nextPromise + 1
    && (forall s :: s != slot ==> Lookup(d.resolvers, s) == Lookup(c.resolvers, s))
    && (forall p :: Lookup(d.settled, p) ==
          if p in c.owner && c.owner[p] == slot then Some(None) else Lookup(c.settled, p))
  }

  lemma {:induction false} OfferPromises(c: Desk, slot: Slot, key: HoverKey)
    requires Accounted(c)
    ensures Promises(c, Offer(c, slot, key), slot)
  {
    DropSettles(c, slot, None);
    OfferShape(c, slot, key);
    assert Offer(c, slot, key).resolvers[slot] == {PromiseId(c.nextPromise)};
  }

  lemma {:induction false} OfferAsks(c: Client, slot: Slot, version: int, model: ModelId, query: Query)
    requires Inv(c) && c.worker.Some?
    ensures var d := OfferSlot(c, slot, Generation(c), version, model, query);
            && Asks(c, d, slot, version, query) && Promises(c.desk, d.desk, slot)
            && Lookup(d.retries, slot) == Some(Retry(Generation(c), model, query))
  {
    OfferPromises(c.desk, slot, HoverKey(version, query));
    OfferShape(c.desk, slot, HoverKey(version, query));
    var ms := StartMessages(c.desk, slot, version, query);
    assert Extend(c.worker.value, ms).posted == c.worker.value.posted + ms;
  }

  /** A request for a feature asks the worker about the model's current version, with a promise for the answer. */
  lemma {:induction false} FeatureAsks(c: Client, slot: Slot, model: ModelId, query: Query, port: Port)
    requires Inv(c) && Possible(c, RequestFeature(slot, model, query, port))
    ensures var d, e := WithWorker(c, port), AskFeature(c, slot, model, query, port);
            && Asks(d, e, slot, Current(c, model).version, query) && Promises(c.desk, e.desk, slot)
            && Lookup(e.retries, slot) == Some(Retry(Generation(d), model, query))
  {
    WithWorkerKept(c, port);
    OfferAsks(WithWorker(c, port), slot, Current(c, model).version, model, query);
  }

  predicate Joins(c: Client, path: Path, model: ModelId, query: Query) {
    Lookup(c.desk.hoverKeys, path) == Some(HoverKey(Current(c, model).version, query))
  }

  /** A hover just like the one in flight posts nothing and waits with those that are waiting. */
  lemma {:induction false} HoverJoins(c: Client, path: Path, model: ModelId, query: Query, port: Port)
    requires Inv(c) && Joins(c, path, model, query)
    ensures var slot, e := Slot(Hover, path), AskHover(c, path, model, query, port);
            && e.worker == c.worker && e.desk.requests == c.desk.requests && e.desk.settled == c.desk.settled
            && slot in c.desk.resolvers
            && e.desk.resolvers == c.desk.resolvers[slot := c.desk.resolvers[slot] + {PromiseId(c.desk.nextPromise)}]
  {
    assert Slot(Hover, path) in c.desk.resolvers;
    assert c.worker.Some?;
  }

  /** Any other asks. */
  lemma {:induction false} HoverAsks(c: Client, path: Path, model: ModelId, query: Query, port: Port)
    requires Inv(c) && Possible(c, RequestHover(path, model, query, port)) && !Joins(c, path, model, query)
    ensures var slot, version := Slot(Hover, path), Current(c, model).version;
            var d, e := WithWorker(c, port), AskHover(c, path, model, query, port);
            && Asks(d, e, slot, version, query) && Promises(c.desk, e.desk, slot)
            && Lookup(e.desk.hoverKeys, path) == Some(HoverKey(version, query))
  {
    var d := WithWorker(c, port);
    WithWorkerKept(c, port);
    OfferAsks(d, Slot(Hover, path), Current(c, model).version, model, query);
    HoverOffers(c, path, model, query, port);
    assert d.desk == c.desk;
  }

  lemma HoverOffers(c: Client, path: Path, model: ModelId, query: Query, port: Port)
    requires !Joins(c, path, model, query)
    ensures var d, e, version := WithWorker(c, port), AskHover(c, path, model, query, port), Current(c, model).version;
            && e == OfferSlot(d, Slot(Hover, path), Generation(d), version, model, query)
            && Lookup(e.desk.hoverKeys, path) == Some(HoverKey(version, query))
  {
  }

  /** An edit leaves a timer. */
  lemma EditTimes(c: Client, path: Path, document: Document, port: Port)
    ensures var d := Update(c, path, document, port);
            && d.timers == c.timers[path := document.version] && Lookup(d.sent, path) == Some(document)
            && path !in d.fingerprints && d.desk == c.desk
            && (d.worker.Some? <==> WithWorker(c, port).worker.Some?)
  {
  }

  lemma SameWorker(c: Client, d: Client, port: Port)
    requires c.worker == d.worker
    ensures WithWorker(c, port).worker == WithWorker(d, port).worker && WithWorker(d, port).timers == d.timers
  {
  }

  /** When it fires, diagnostics are asked for at the version of the edit. */
  lemma {:induction false} TimerAsks(c: Client, path: Path, port: Port)
    requires path in c.timers && WithWorker(c, port).worker.Some?
    ensures var d, e := WithWorker(c.(timers := c.timers - {path}), port), FireTimer(c, path, port);
            Asks(d, e, Slot(Diagnostics, path), c.timers[path], Query(0, 0, None, "")) && e.timers == c.timers - {path}
  {
    var before := c.(timers := c.timers - {path});
    SameWorker(c, before, port);
    StartAsks(WithWorker(before, port), Slot(Diagnostics, path), c.timers[path], NO_QUERY);
  }

  // Answers.

  /** An error is as good as an answer without a value: the pending request is gone, and what waited for it gets
      nothing. */
  lemma {:induction false} ErrorSettles(c: Client, slot: Slot, requestId: nat)
    requires Inv(c)
    ensures var d := HandleError(c, slot, requestId);
            if Lookup(c.desk.requests, slot) != Some(requestId) then d == c
            else GivenUp(c, d, slot.path, [slot.kind]) && d.worker == c.worker
  {
    DropGivesUp(c, slot.path, slot.kind);
  }

  /** Diagnostics are done with exactly when they answer the pending request of a registered path and are up to date;
      those that have failed, whenever they answer the pending request. */
  lemma {:induction false} DiagnosticsSettle(c: Client, path: Path, requestId: nat, version: int)
    requires Inv(c)
    ensures var slot, d := Slot(Diagnostics, path), HandleDiagnostics(c, path, requestId, version);
            if slot in c.desk.requests && c.desk.requests[slot] == requestId && path in c.models
               && Current(c, c.models[path]).version <= version
            then GivenUp(c, d, path, [Diagnostics]) && d.worker == c.worker && path !in d.fingerprints
            else d == c
    ensures var slot, d := Slot(Diagnostics, path), HandleDiagnosticsError(c, path, requestId);
            if slot in c.desk.requests && c.desk.requests[slot] == requestId
            then GivenUp(c, d, path, [Diagnostics]) && d.worker == c.worker && path !in d.fingerprints
            else d == c
  {
    DropGivesUp(c, path, Diagnostics);
    var e := DropSlot(c, Slot(Diagnostics, path), None);
    SameGivenUp(c, e, e.(fingerprints := c.fingerprints - {path}), path, [Diagnostics]);
  }

  // Resyncs.

  /** The request of the slot, as it stands on the queue. */
  ghost predicate Stands(c: Client, s: Slot, version: int, query: Query) {
    && c.worker.Some? && s in c.desk.requests && s in c.sentAt && c.sentAt[s] < |c.worker.value.posted|
    && c.worker.value.posted[c.sentAt[s]] == Request(s.kind, c.desk.requests[s], s.path, version, query)
  }

  function Asked(c: Client, s: Slot): Query {
    if s.kind != Diagnostics && s in c.retries then c.retries[s].query else Query(0, 0, None, "")
  }

  lemma {:induction false} StartStands(c: Client, slot: Slot, version: int, query: Query, t: Slot, v: int, q: Query)
    requires c.worker.Some?
    ensures var d := Start(c, slot, Generation(c), version, query);
            && Stands(d, slot, version, query) && (t != slot && Stands(c, t, v, q) ==> Stands(d, t, v, q))
            && (slot in c.desk.requests ==> (t in d.desk.requests <==> t in c.desk.requests))
  {
    StartAsks(c, slot, version, query);
  }

  lemma {:induction false} RestartStands(c: Client, slot: Slot, version: int, t: Slot, v: int, q: Query)
    requires Inv(c) && c.worker.Some?
    ensures var d := Restart(c, slot, version);
            && (slot in c.desk.requests ==> Stands(d, slot, AskedVersion(c, slot, version), Asked(c, slot)))
            && (t != slot && Stands(c, t, v, q) ==> Stands(d, t, v, q))
            && d.retries == c.retries && d.editor == c.editor && (t in d.desk.requests <==> t in c.desk.requests)
  {
    if slot.kind == Diagnostics && slot in c.desk.requests {
      StartStands(c, slot, version, NO_QUERY, t, v, q);
    } else if slot in c.retries {
      var r := c.retries[slot];
      StartStands(c, slot, Current(c, r.model).version, r.query, t, v, q);
    }
  }

  lemma {:induction false} RestartKindsSpare(c: Client, path: Path, version: int, kinds: seq<Kind>, t: Slot, v: int,
                                             q: Query)
    requires Inv(c) && c.worker.Some? && !Among(t, path, kinds) && Stands(c, t, v, q)
    ensures Stands(RestartKinds(c, path, version, kinds), t, v, q)
    decreases |kinds|
  {
    if kinds != [] {
      var slot := Slot(kinds[0], path);
      RestartKept(c, slot, version);
      RestartStands(c, slot, version, t, v, q);
      RestartKindsSpare(Restart(c, slot, version), path, version, kinds[1..], t, v, q);
    }
  }

  lemma {:induction false} RestartKindsStand(c: Client, path: Path, version: int, kinds: seq<Kind>, t: Slot)
    requires Inv(c) && c.worker.Some? && forall i, j :: 0 <= i < j < |kinds| ==> kinds[i] != kinds[j]
    requires Among(t, path, kinds) && t in c.desk.requests
    ensures Stands(RestartKinds(c, path, version, kinds), t, AskedVersion(c, t, version), Asked(c, t))
    decreases |kinds|
  {
    var slot := Slot(kinds[0], path);
    var d := Restart(c, slot, version);
    RestartKept(c, slot, version);
    RestartStands(c, slot, version, t, AskedVersion(c, t, version), Asked(c, t));
    if t == slot {
      RestartKindsSpare(d, path, version, kinds[1..], t, AskedVersion(c, t, version), Asked(c, t));
    } else {
      SameQuestion(c, d, t, version);
      RestartKindsStand(d, path, version, kinds[1..], t);
    }
  }

  lemma SameQuestion(c: Client, d: Client, t: Slot, version: int)
    requires d.retries == c.retries && d.editor == c.editor
    ensures AskedVersion(d, t, version) == AskedVersion(c, t, version) && Asked(d, t) == Asked(c, t)
  {
  }

  /** After a resync, what is in flight for the path is asked again: the same question as before, about the model's
      current version. */
  lemma {:induction false} ResyncAsksAgain(c: Client, path: Path, t: Slot)
    requires Inv(c) && ActsOnResync(c, path) && t.path == path && t in c.desk.requests
    requires t.kind != Diagnostics && t in c.retries ==> c.retries[t].model == c.models[path]
    ensures Stands(HandleResync(c, path), t, Current(c, c.models[path]).version, Asked(c, t))
  {
    var document := Current(c, c.models[path]);
    AllKinds(t.kind);
    OpenQueued(c, path, document);
    RestartKindsStand(OpenModel(c, path, document), path, document.version, KINDS, t);
  }

  /** A resync is no duplicate once anything has been asked about the path since the last one. */
  lemma {:induction false} ResyncActsAgain(c: Client, path: Path, kind: Kind, version: int, query: Query)
    requires Inv(c) && ActsOnResync(c, path)
    ensures var d := HandleResync(c, path);
            d.worker.Some? && ActsOnResync(Start(d, Slot(kind, path), Generation(d), version, query), path)
  {
    var d := HandleResync(c, path);
    ReopenDesk(c, path, Current(c, c.models[path]), KINDS);
    ResyncKept(c, path);
    StillLive(c, path);
    ActsWhenAsked(d, path, kind, version, query, Current(c, c.models[path]).version);
  }

  lemma ActsWhenAsked(d: Client, path: Path, kind: Kind, version: int, query: Query, handled: int)
    requires Tracked(d.desk) && d.worker.Some? && path in d.models
    requires Lookup(d.fingerprints, path) == Some(FingerprintOf(d, path, handled))
    ensures ActsOnResync(Start(d, Slot(kind, path), Generation(d), version, query), path)
  {
    AllKinds(kind);
    var i :| 0 <= i < |KINDS| && KINDS[i] == kind;
    NewIdentifier(d, i, path, version, query);
  }

  lemma StillLive(c: Client, path: Path)
    requires Inv(c) && ActsOnResync(c, path)
    ensures HandleResync(c, path).worker.Some?
  {
    var document := Current(c, c.models[path]);
    OpenQueued(c, path, document);
    RestartKindsLive(OpenModel(c, path, document), path, document.version, KINDS);
  }

  lemma RestartLive(c: Client, slot: Slot, version: int)
    requires c.worker.Some?
    ensures Restart(c, slot, version).worker.Some?
  {
    if slot.kind == Diagnostics && slot in c.desk.requests {
      StartLive(c, slot, Generation(c), version, NO_QUERY);
    } else if slot in c.retries {
      var r := c.retries[slot];
      StartLive(c, slot, r.generation, Current(c, r.model).version, r.query);
    }
  }

  lemma StartLive(c: Client, slot: Slot, generation: nat, version: int, query: Query)
    requires c.worker.Some?
    ensures Start(c, slot, generation, version, query).worker.Some?
  {
  }

  lemma {:induction false} RestartKindsLive(c: Client, path: Path, version: int, kinds: seq<Kind>)
    requires c.worker.Some?
    ensures RestartKinds(c, path, version, kinds).worker.Some?
    decreases |kinds|
  {
    if kinds != [] {
      RestartLive(c, Slot(kinds[0], path), version);
      RestartKindsLive(Restart(c, Slot(kinds[0], path), version), path, version, kinds[1..]);
    }
  }

  lemma NewIdentifier(d: Client, i: nat, path: Path, version: int, query: Query)
    requires Tracked(d.desk) && i < |KINDS|
    ensures var e := Start(d, Slot(KINDS[i], path), Generation(d), version, query);
            PendingIds(e.desk.requests, path) != PendingIds(d.desk.requests, path)
  {
    var e := Start(d, Slot(KINDS[i], path), Generation(d), version, query);
    assert PendingIds(e.desk.requests, path)[i] == Some(d.desk.nextRequestId);
  }
}
