/** The requests in flight and the promises handed out, as values: what each step of the client does to them,
    and what every run keeps. */
module LsDesk {
  import opened Options
  import opened LsMirror

  /** One live request per kind and path. */
  datatype Slot = Slot(kind: Kind, path: Path)

  datatype PromiseId = PromiseId(n: nat)

  datatype HoverKey = HoverKey(version: int, query: Query)

  /** The promises handed out are those numbered below `nextPromise`; `settled` holds the ones already settled, and
      `owner` the slot each of the others waits for. A resolver settles every promise of its set. */
  datatype Desk = Desk(nextRequestId: nat, requests: map<Slot, nat>, resolvers: map<Slot, set<PromiseId>>,
    hoverKeys: map<Path, HoverKey>, nextPromise: nat, settled: map<PromiseId, Option<string>>,
    owner: map<PromiseId, Slot>)

  function Waiting(d: Desk, slot: Slot): set<PromiseId> { if slot in d.resolvers then d.resolvers[slot] else {} }

  /** Each of the promises settled with the value. */
  function AllTo(ps: set<PromiseId>, value: Option<string>): map<PromiseId, Option<string>> {
    map p: PromiseId | p in ps :: value
  }

  /** The slot is given up, and what waits for it gets the value. */
  function Drop(d: Desk, slot: Slot, value: Option<string>): Desk {
    d.(requests := d.requests - {slot}, resolvers := d.resolvers - {slot},
       hoverKeys := if slot.kind == Hover then d.hoverKeys - {slot.path} else d.hoverKeys,
       settled := d.settled + AllTo(Waiting(d, slot), value),
       owner := map p: PromiseId | p in d.owner && d.owner[p] != slot :: d.owner[p])
  }

  /** A request is started, in place of the one that may be in flight. */
  function Ask(d: Desk, slot: Slot): Desk {
    d.(requests := d.requests[slot := d.nextRequestId], nextRequestId := d.nextRequestId + 1)
  }

  /** One more promise waits for the slot. */
  function Join(d: Desk, slot: Slot): Desk {
    d.(resolvers := d.resolvers[slot := Waiting(d, slot) + {PromiseId(d.nextPromise)}], 
       nextPromise := d.nextPromise + 1,
       owner := d.owner[PromiseId(d.nextPromise) := slot])
  }

  /** The first promise of a slot; a hover remembers what it was asked for. */
  function Promise(d: Desk, slot: Slot, key: HoverKey): Desk {
    Join(if slot.kind == Hover then d.(hoverKeys := d.hoverKeys[slot.path := key]) else d, slot)
  }

  /** Whatever is in flight for the slot is given up; a promise is handed out, and a request started that is to
      settle it. */
  function Offer(d: Desk, slot: Slot, key: HoverKey): Desk {
    Ask(Promise(Drop(d, slot, None), slot, key), slot)
  }

  /** The promises some resolver will settle. */
  function Open(d: Desk): set<PromiseId> { set s, p | s in d.resolvers && p in d.resolvers[s] :: p }

  function OnlyDiagnostics(requests: map<Slot, nat>): map<Slot, nat> {
    map s | s in requests && s.kind == Diagnostics :: requests[s]
  }

  /** Everything that waits is settled with nothing; of the requests only those for diagnostics are remembered. */
  function Crash(d: Desk): Desk {
    d.(requests := OnlyDiagnostics(d.requests), resolvers := map[],
       hoverKeys := map[], settled := d.settled + AllTo(Open(d), None), owner := map[])
  }

  // What is kept.

  /** Requests and resolvers stand and fall together, and no two requests share an identifier. */
  ghost predicate Tracked(d: Desk) {
    && (forall s :: s in d.resolvers <==> s in d.requests && s.kind != Diagnostics)
    && (forall p :: p in d.hoverKeys <==> Slot(Hover, p) in d.resolvers)
    && (forall s :: s in d.requests ==> d.requests[s] < d.nextRequestId)
    && (forall s, t :: s in d.requests && t in d.requests && d.requests[s] == d.requests[t] ==> s == t)
  }

  /** Every promise handed out is either settled or waits for exactly one slot, once. */
  ghost predicate Accounted(d: Desk) {
    && (forall p: PromiseId :: p in d.settled ==> p.n < d.nextPromise)
    && (forall p: PromiseId :: p in d.owner <==> p.n < d.nextPromise && p !in d.settled)
    && (forall p: PromiseId :: p in d.owner ==> d.owner[p] in d.resolvers && p in d.resolvers[d.owner[p]])
    && (forall s: Slot, p: PromiseId :: s in d.resolvers && p in d.resolvers[s] ==> p in d.owner && d.owner[p] == s)
  }

  ghost predicate Kept(d: Desk) { Tracked(d) && Accounted(d) }

  lemma {:induction false} DropTracked(d: Desk, slot: Slot, value: Option<string>)
    requires Tracked(d)
    ensures Tracked(Drop(d, slot, value))
  {
    var e := Drop(d, slot, value);
    forall p
      ensures p in e.hoverKeys <==> Slot(Hover, p) in e.resolvers
    {
      if Slot(Hover, p) != slot && slot.kind == Hover { assert p != slot.path; }
    }
  }

  lemma {:induction false} DropAccounted(d: Desk, slot: Slot, value: Option<string>)
    requires Accounted(d)
    ensures Accounted(Drop(d, slot, value))
  {
    var e := Drop(d, slot, value);
    forall p: PromiseId
      ensures p in Waiting(d, slot) <==> p in d.owner && d.owner[p] == slot
    {
    }
  }

  lemma {:induction false} DropKeeps(d: Desk, slot: Slot, value: Option<string>)
    requires Kept(d)
    ensures Kept(Drop(d, slot, value))
  {
    DropTracked(d, slot, value);
    DropAccounted(d, slot, value);
  }

  lemma {:induction false} AskKeeps(d: Desk, slot: Slot)
    requires Kept(d) && (slot.kind == Diagnostics || slot in d.resolvers)
    ensures Kept(Ask(d, slot))
  {
  }

  lemma {:induction false} JoinAccounted(d: Desk, slot: Slot)
    requires Accounted(d)
    ensures Accounted(Join(d, slot))
  {
  }

  lemma {:induction false} JoinKeeps(d: Desk, slot: Slot)
    requires Kept(d) && slot in d.resolvers
    ensures Kept(Join(d, slot))
  {
    JoinAccounted(d, slot);
  }

  lemma {:induction false} OfferKeeps(d: Desk, slot: Slot, key: HoverKey)
    requires Kept(d) && slot.kind != Diagnostics
    ensures Kept(Offer(d, slot, key))
  {
    DropTracked(d, slot, None);
    OfferTracked(Drop(d, slot, None), slot, key);
    DropAccounted(d, slot, None);
    OfferAccounted(Drop(d, slot, None), slot, key);
  }

  lemma {:induction false} OfferAccounted(e: Desk, slot: Slot, key: HoverKey)
    requires Accounted(e)
    ensures Accounted(Ask(Promise(e, slot, key), slot))
  {
    JoinAccounted(e.(hoverKeys := e.hoverKeys[slot.path := key]), slot);
    JoinAccounted(e, slot);
  }

  lemma {:induction false} OfferShape(d: Desk, slot: Slot, key: HoverKey)
    ensures var e := Offer(d, slot, key);
            && e.requests == d.requests[slot := d.nextRequestId] && e.nextRequestId == d.nextRequestId + 1
            && e.resolvers.Keys == d.resolvers.Keys + {slot} && e.resolvers[slot] == {PromiseId(d.nextPromise)}
  {
  }

  lemma {:induction false} OfferTracked(e: Desk, slot: Slot, key: HoverKey)
    requires Tracked(e) && slot.kind != Diagnostics && slot !in e.requests
    ensures Tracked(Ask(Promise(e, slot, key), slot))
  {
  }

  lemma {:induction false} OpenIsOwned(d: Desk)
    requires Accounted(d)
    ensures Open(d) == d.owner.Keys
  {
  }

  lemma {:induction false} CrashAccounted(d: Desk)
    requires Accounted(d)
    ensures Accounted(Crash(d)) && (forall p: PromiseId :: p.n < d.nextPromise ==> p in Crash(d).settled)
  {
    OpenIsOwned(d);
    assert Crash(d).settled.Keys == d.settled.Keys + d.owner.Keys;
  }

  lemma {:induction false} CrashKeeps(d: Desk)
    requires Kept(d)
    ensures Kept(Crash(d))
  {
    CrashAccounted(d);
  }

  // The queue to the worker.

  /** Identifiers on the queue are fresh, and the request of each of the slots stands where it was put. */
  ghost predicate QueueKept(queue: seq<InMessage>, next: nat, requests: map<Slot, nat>, slots: set<Slot>,
                            sentAt: map<Slot, nat>) {
    FreshIds(queue, next) && forall s :: s in slots ==> IsInFlight(queue, requests, sentAt, s)
  }

  ghost predicate IsInFlight(queue: seq<InMessage>, requests: map<Slot, nat>, sentAt: map<Slot, nat>, s: Slot) {
    s in sentAt && s in requests && IsAt(queue, sentAt[s], s.kind, s.path, requests[s])
  }

  /** The request of the slot is on the queue, at a place where the worker will not ask for a resync. */
  ghost predicate IsServed(queue: seq<InMessage>, states: seq<Store>, requests: map<Slot, nat>, sentAt: map<Slot, nat>,
                           s: Slot) {
    IsInFlight(queue, requests, sentAt, s) && Accepted(queue, states, sentAt[s])
  }

  /** The queue after a request has been started in place of the one that may be in flight. */
  function Asked(queue: seq<InMessage>, dropped: Option<nat>, m: InMessage): (longer: seq<InMessage>) {
    queue + Cancelling(dropped) + [m]
  }

  lemma {:induction false} AskedQueue(queue: seq<InMessage>, next: nat, requests: map<Slot, nat>, slots: set<Slot>,
                                      sentAt: map<Slot, nat>,
                   slot: Slot, m: InMessage, covered: set<Slot>)
    requires QueueKept(queue, next, requests, slots, sentAt) && covered <= slots + {slot}
    requires slot in requests ==> requests[slot] < next
    requires m.Request? && m.kind == slot.kind && m.path == slot.path && m.requestId == next
    ensures var longer := Asked(queue, Lookup(requests, slot), m);
            && QueueKept(longer, next + 1, requests[slot := next], covered, sentAt[slot := |longer| - 1])
            && IsInFlight(longer, requests[slot := next], sentAt[slot := |longer| - 1], slot)
  {
    FreshRequest(queue, next, Lookup(requests, slot), m);
  }

  const START := Desk(1, map[], map[], map[], 0, map[], map[])

  // What is settled.

  lemma {:induction false} DropSettles(d: Desk, slot: Slot, value: Option<string>)
    requires Accounted(d)
    ensures forall p: PromiseId :: p in Waiting(d, slot) <==> p in d.owner && d.owner[p] == slot
    ensures forall p: PromiseId :: p in d.owner ==> p !in d.settled
  {
  }

  lemma {:induction false} DropSettlesWaiting(d: Desk, slot: Slot, value: Option<string>, p: PromiseId)
    requires Accounted(d)
    ensures Lookup(Drop(d, slot, value).settled, p) ==
              if p in d.owner && d.owner[p] == slot then Some(value) else Lookup(d.settled, p)
  {
    DropSettles(d, slot, value);
  }
}
