/** The worker's side of the language-service protocol: its document mirror, and what a queue of messages does
    to it. */
module LsMirror {
  import opened Options

  type Path = string

  datatype Document = Document(version: int, source: string)

  datatype Kind = Diagnostics | Formatting | Completion | Hover | Definition | References | Rename

  /** What a request asks besides its kind, path and version. */
  datatype Query = Query(line: nat, column: nat, word: Option<(nat, nat)>, text: string)

  datatype InMessage =
    | OpenDocument(path: Path, source: string, sourceVersion: int)
    | UpdateDocument(path: Path, source: string, sourceVersion: int, previousSourceVersion: int)
    | CloseDocument(path: Path)
    | PersistFile(path: Path, code: string)
    | RemoveFile(path: Path)
    | Request(kind: Kind, requestId: nat, path: Path, sourceVersion: int, query: Query)
    | CancelRequest(requestId: nat)

  datatype OutMessage =
    | Result(kind: Kind, requestId: nat, path: Path, sourceVersion: int, payload: Option<string>)
    | Error(kind: Kind, requestId: nat, path: Path, sourceVersion: int)
    | ResyncDocument(path: Path)

  /** The open documents and the persisted files. */
  datatype Store = Store(documents: map<Path, Document>, files: map<Path, string>)

  /** A delta that does not fit the mirror, or a request about another version than the mirrored one: the worker
      asks for the document. */
  predicate Rejects(s: Store, m: InMessage) {
    match m
    case UpdateDocument(path, _, _, previous) => path !in s.documents || s.documents[path].version != previous
    case Request(_, _, path, version, _) => path !in s.documents || s.documents[path].version != version
    case _ => false
  }

  function Step(s: Store, m: InMessage): Store {
    match m
    case OpenDocument(path, source, version) =>
      if path in s.documents && s.documents[path].version > version then s
      else s.(documents := s.documents[path := Document(version, source)])
    case UpdateDocument(path, source, version, _) =>
      if Rejects(s, m) || version < s.documents[path].version then s
      else s.(documents := s.documents[path := Document(version, source)])
    case CloseDocument(path) => s.(documents := s.documents - {path})
    case PersistFile(path, code) => s.(files := s.files[path := code])
    case RemoveFile(path) => s.(files := s.files - {path})
    case _ => s
  }

  function Run(s: Store, queue: seq<InMessage>): Store
    decreases |queue|
  {
    if queue == [] then s else Step(Run(s, queue[..|queue| - 1]), queue[|queue| - 1])
  }

  /** The mirror of a fresh worker after the messages of the queue, in order. */
  function Replay(queue: seq<InMessage>): Store { Run(Store(map[], map[]), queue) }

  lemma {:induction false} RunSnoc(s: Store, queue: seq<InMessage>, m: InMessage)
    ensures Run(s, queue + [m]) == Step(Run(s, queue), m)
  {
    assert (queue + [m])[..|queue|] == queue;
  }

  lemma {:induction false} RunConcat(s: Store, first: seq<InMessage>, second: seq<InMessage>)
    ensures Run(s, first + second) == Run(Run(s, first), second)
    decreases |second|
  {
    if second == [] {
      assert first + second == first;
    } else {
      var k := |second| - 1;
      RunConcat(s, first, second[..k]);
      assert (first + second)[..|first| + k] == first + second[..k];
    }
  }

  /** The states the worker goes through as it handles the queue, from the one it starts in. */
  ghost predicate IsTrace(queue: seq<InMessage>, states: seq<Store>) {
    && |states| == |queue| + 1 && states[0] == Store(map[], map[])
    && forall i :: 0 <= i < |queue| ==> states[i + 1] == Step(states[i], queue[i])
  }

  lemma {:induction false} TraceIsReplay(queue: seq<InMessage>, states: seq<Store>, k: nat)
    requires IsTrace(queue, states) && k <= |queue|
    ensures states[k] == Replay(queue[..k])
  {
    if k > 0 {
      TraceIsReplay(queue, states, k - 1);
      assert queue[..k][..k - 1] == queue[..k - 1];
    }
  }

  lemma {:induction false} AllDone<T>(all: set<T>, done: set<T>)
    requires done <= all && all - done == {}
    ensures done == all
  {
    forall x | x in all
      ensures x in done
    {
      assert x in done <==> x !in all - done;
    }
  }

  // Bringing the worker's files up to date.

  function Lookup<K, V>(m: map<K, V>, k: K): Option<V> { if k in m then Some(m[k]) else None }

  ghost predicate Distinct(sent: seq<InMessage>) { forall i, j :: 0 <= i < j < |sent| ==> sent[i] != sent[j] }

  /** The removals for the files in `paths` that are gone. */
  ghost predicate Removals(sent: seq<InMessage>, paths: set<Path>, before: map<Path, string>,
                           after: map<Path, string>) {
    && (forall m :: m in sent ==> m.RemoveFile? && m.path in paths && m.path in before && m.path !in after)
    && (forall p :: p in paths && p in before && p !in after ==> RemoveFile(p) in sent)
  }

  /** The uploads for the files in `paths` that are new or different. */
  ghost predicate Uploads(sent: seq<InMessage>, paths: set<Path>, before: map<Path, string>, after: map<Path, string>) {
    && (forall m :: m in sent ==> m.PersistFile? && m.path in paths && m.path in after && m.code == after[m.path]
                                  && Lookup(before, m.path) != Some(m.code))
    && (forall p :: p in paths && p in after && Lookup(before, p) != Some(after[p]) ==>
          PersistFile(p, after[p]) in sent)
  }

  /** Sending the differences is as good as sending the whole workspace to an empty worker. */
  lemma {:induction false} SyncedFiles(s: Store, removed: seq<InMessage>, uploaded: seq<InMessage>,
                                       after: map<Path, string>)
    requires Removals(removed, s.files.Keys, s.files, after) && Uploads(uploaded, after.Keys, s.files, after)
    ensures Run(s, removed + uploaded) == s.(files := after)
  {
    RunConcat(s, removed, uploaded);
    RunRemovals(s, removed);
    var kept := Run(s, removed);
    RunUploads(kept, uploaded, after);
    forall p
      ensures p in Run(kept, uploaded).files <==> p in after
      ensures p in after ==> Run(kept, uploaded).files[p] == after[p]
    {
      if p in after && Lookup(s.files, p) != Some(after[p]) {
        assert PersistFile(p, after[p]) in uploaded;
      } else if p in s.files && p !in after {
        assert RemoveFile(p) in removed;
      }
    }
  }

  lemma {:induction false} RunRemovals(s: Store, sent: seq<InMessage>)
    requires forall m :: m in sent ==> m.RemoveFile?
    ensures Run(s, sent).documents == s.documents
    ensures forall p :: p in Run(s, sent).files <==> p in s.files && RemoveFile(p) !in sent
    ensures forall p :: p in Run(s, sent).files ==> Run(s, sent).files[p] == s.files[p]
    decreases |sent|
  {
    if sent != [] {
      var k := |sent| - 1;
      assert sent == sent[..k] + [sent[k]] && sent[k] in sent;
      RunRemovals(s, sent[..k]);
    }
  }

  lemma {:induction false} RunUploads(s: Store, sent: seq<InMessage>, after: map<Path, string>)
    requires forall m :: m in sent ==> m.PersistFile? && m.path in after && m.code == after[m.path]
    ensures Run(s, sent).documents == s.documents
    ensures forall p :: p in Run(s, sent).files <==> p in s.files || (p in after && PersistFile(p, after[p]) in sent)
    ensures forall p :: p in Run(s, sent).files ==>
              Run(s, sent).files[p] == if p in after && PersistFile(p, after[p]) in sent then after[p] else s.files[p]
    decreases |sent|
  {
    if sent != [] {
      var k := |sent| - 1;
      assert sent == sent[..k] + [sent[k]];
      RunUploads(s, sent[..k], after);
    }
  }

  // Seeding a fresh worker with the open documents.

  /** Every one of the documents in `paths` opened once. */
  ghost predicate Opens(sent: seq<InMessage>, paths: set<Path>, documents: map<Path, Document>) {
    && (forall m :: m in sent ==> m.OpenDocument? && m.path in paths && m.path in documents
                                  && documents[m.path] == Document(m.sourceVersion, m.source))
    && (forall p :: p in paths && p in documents ==> OpenDocument(p, documents[p].source, documents[p].version) in sent)
  }

  lemma {:induction false} RunOpens(s: Store, sent: seq<InMessage>, documents: map<Path, Document>)
    requires Opens(sent, documents.Keys, documents) && s.documents == map[]
    ensures Run(s, sent) == s.(documents := documents)
  {
    RunSomeOpens(s, sent, documents);
  }

  lemma {:induction false} RunSomeOpens(s: Store, sent: seq<InMessage>, documents: map<Path, Document>)
    requires forall m :: m in sent ==>
               m.OpenDocument? && m.path in documents && documents[m.path] == Document(m.sourceVersion, m.source)
    requires s.documents == map[]
    ensures var r := Run(s, sent);
            && r.files == s.files
            && (forall p :: p in r.documents <==>
                  p in documents && OpenDocument(p, documents[p].source, documents[p].version) in sent)
            && forall p :: p in r.documents ==> r.documents[p] == documents[p]
    decreases |sent|
  {
    if sent != [] {
      var k := |sent| - 1;
      assert sent == sent[..k] + [sent[k]];
      RunSomeOpens(s, sent[..k], documents);
    }
  }

  lemma {:induction false} SeededWorker(removed: seq<InMessage>, uploaded: seq<InMessage>, seeded: seq<InMessage>,
                                        files: map<Path, string>,
                     documents: map<Path, Document>)
    requires Removals(removed, {}, map[], files) && Uploads(uploaded, files.Keys, map[], files)
    requires Opens(seeded, documents.Keys, documents)
    ensures Replay(removed + uploaded + seeded) == Store(documents, files)
    ensures forall m :: m in removed + uploaded + seeded ==> !HasId(m) && !m.UpdateDocument?
  {
    var empty := Store(map[], map[]);
    SyncedFiles(empty, removed, uploaded, files);
    RunConcat(empty, removed + uploaded, seeded);
    RunOpens(Run(empty, removed + uploaded), seeded, documents);
  }

  // The worker and its backend.

  /** The worker: it handles one message at a time, each of them to the end. */
  class LsWorker {
    var openDocuments: map<Path, Document>
    var workspaceSnapshot: map<Path, string>
    var cancelled: set<nat>
    /** The messages handled so far, and the states they have led through. */
    ghost var handled: seq<InMessage>
    ghost var states: seq<Store>

    ghost function State(): Store
      reads this
    {
      Store(openDocuments, workspaceSnapshot)
    }

    ghost predicate Valid()
      reads this
    {
      IsTrace(handled, states) && State() == states[|handled|]
      && forall id :: id in cancelled ==> CancelRequest(id) in handled
    }

    constructor ()
      ensures Valid() && handled == []
    {
      openDocuments, workspaceSnapshot, cancelled := map[], map[], {};
      handled, states := [], [Store(map[], map[])];
    }

    method Open(path: Path, document: Document)
      modifies this`openDocuments
      ensures State() == Step(old(State()), OpenDocument(path, document.source, document.version))
    {
      if path in openDocuments && openDocuments[path].version > document.version { return; }
      openDocuments := openDocuments[path := document];
    }

    method Update(path: Path, document: Document, previousVersion: int) returns (ok: bool)
      modifies this`openDocuments
      ensures var m := UpdateDocument(path, document.source, document.version, previousVersion);
              ok == !Rejects(old(State()), m) && State() == Step(old(State()), m)
    {
      if path !in openDocuments || openDocuments[path].version != previousVersion { return false; }
      if document.version < openDocuments[path].version { return true; }
      openDocuments := openDocuments[path := document];
      return true;
    }

    /** What the analysis finds is a parameter: `None` when it fails. */
    method Answer(kind: Kind, requestId: nat, path: Path, version: int, query: Query, analysis: Option<Option<string>>)
      returns (reply: Option<OutMessage>)
      modifies `cancelled
      ensures cancelled <= old(cancelled)
      ensures reply ==
              Reply(State(), Request(kind, requestId, path, version, query), requestId in old(cancelled), analysis)
    {
      var stale := path !in openDocuments || openDocuments[path].version != version;
      if kind == Diagnostics && stale { return Some(ResyncDocument(path)); }
      if requestId in cancelled {
        cancelled := cancelled - {requestId};
        return None;
      }
      if stale { return Some(ResyncDocument(path)); }
      if analysis.Some? { return Some(Result(kind, requestId, path, version, analysis.value)); }
      return Some(Error(kind, requestId, path, version));
    }

    /** The answer to one message. */
    method OnMessage(m: InMessage, analysis: Option<Option<string>>) returns (reply: Option<OutMessage>)
      requires Valid()
      modifies this
      ensures Valid() && handled == old(handled) + [m] && State() == Step(old(State()), m)
      ensures reply == Reply(old(State()), m, m.Request? && m.requestId in old(cancelled), analysis)
    {
      reply := None;
      match m {
        case OpenDocument(path, source, version) =>
          Open(path, Document(version, source));
        case UpdateDocument(path, source, version, previous) =>
          var ok := Update(path, Document(version, source), previous);
          if !ok { reply := Some(ResyncDocument(path)); }
        case CloseDocument(path) =>
          openDocuments := openDocuments - {path};
        case PersistFile(path, code) =>
          workspaceSnapshot := workspaceSnapshot[path := code];
        case RemoveFile(path) =>
          workspaceSnapshot := workspaceSnapshot - {path};
        case Request(kind, requestId, path, version, query) =>
          reply := Answer(kind, requestId, path, version, query, analysis);
        case CancelRequest(requestId) =>
          cancelled := cancelled + {requestId};
      }
      handled, states := handled + [m], states + [State()];
    }
  }

  /** A rejected message is answered with a resync, unless it is a cancelled request for something other than
      diagnostics; a request that is neither rejected nor cancelled gets its result or its error; everything
      else is handled in silence. */
  function Reply(s: Store, m: InMessage, isCancelled: bool, analysis: Option<Option<string>>): Option<OutMessage> {
    if Rejects(s, m) && !(isCancelled && m.Request? && m.kind != Diagnostics) then Some(ResyncDocument(m.path))
    else if m.Request? && !isCancelled then
      Some(if analysis.Some? then Result(m.kind, m.requestId, m.path, m.sourceVersion, analysis.value)
           else Error(m.kind, m.requestId, m.path, m.sourceVersion))
    else None
  }

  // Identifiers on the queue.

  predicate HasId(m: InMessage) { m.Request? || m.CancelRequest? }

  /** Every request carries a larger identifier than any mentioned before it, and all are below the next. */
  ghost predicate FreshIds(queue: seq<InMessage>, next: nat) {
    && (forall i :: 0 <= i < |queue| && HasId(queue[i]) ==> queue[i].requestId < next)
    && (forall i, j :: 0 <= i < j < |queue| && HasId(queue[i]) && queue[j].Request? ==>
          queue[i].requestId < queue[j].requestId)
  }

  /** A cancellation always comes after the request it is about: a worker that handles its queue in order never
      meets a cancelled request. */
  lemma {:induction false} NeverCancelled(queue: seq<InMessage>, next: nat, k: nat)
    requires FreshIds(queue, next) && k < |queue| && queue[k].Request?
    ensures CancelRequest(queue[k].requestId) !in queue[..k]
  {
    forall i | 0 <= i < k
      ensures queue[..k][i] != CancelRequest(queue[k].requestId)
    {
      if HasId(queue[i]) { assert queue[i].requestId < queue[k].requestId; }
    }
  }

  lemma {:induction false} FreshRequest(queue: seq<InMessage>, next: nat, dropped: Option<nat>, m: InMessage)
    requires FreshIds(queue, next) && m.Request? && m.requestId == next && (dropped.Some? ==> dropped.value < next)
    ensures FreshIds(queue + Cancelling(dropped) + [m], next + 1)
  {
    var longer := queue + Cancelling(dropped) + [m];
    forall i, j | 0 <= i < j < |longer| && HasId(longer[i]) && longer[j].Request?
      ensures longer[i].requestId < longer[j].requestId
    {
      if j == |longer| - 1 {
        assert longer[i] in queue || longer[i] in Cancelling(dropped);
      }
    }
  }

  function Cancelling(dropped: Option<nat>): seq<InMessage> {
    if dropped.None? then [] else [CancelRequest(dropped.value)]
  }

  lemma {:induction false} FreshMore(queue: seq<InMessage>, next: nat, more: seq<InMessage>)
    requires FreshIds(queue, next) && forall m :: m in more ==> !m.Request? && (HasId(m) ==> m.requestId < next)
    ensures FreshIds(queue + more, next)
  {
    var longer := queue + more;
    forall i | 0 <= i < |longer| && HasId(longer[i])
      ensures longer[i].requestId < next
    {
      if i >= |queue| { assert longer[i] in more; }
    }
    assert forall j :: |queue| <= j < |longer| ==> longer[j] in more;
  }

  // A request on the queue.

  ghost predicate IsAt(queue: seq<InMessage>, k: nat, kind: Kind, path: Path, id: nat) {
    k < |queue| && queue[k].Request? && queue[k].kind == kind && queue[k].path == path && queue[k].requestId == id
  }

  /** A worker that goes through these states will not ask for a resync when it comes to message `k`. */
  ghost predicate Accepted(queue: seq<InMessage>, states: seq<Store>, k: nat) {
    k < |queue| && k < |states| && !Rejects(states[k], queue[k])
  }

  /** A worker that has handled the queue up to a request answers it under its identifier if it is accepted,
      whatever else is on the queue, and with a resync otherwise. */
  lemma {:induction false} AcceptedIsAnswered(queue: seq<InMessage>, states: seq<Store>, next: nat, k: nat,
                                              worker: LsWorker,
                           analysis: Option<Option<string>>)
    requires IsTrace(queue, states) && FreshIds(queue, next) && k < |queue| && queue[k].Request?
    requires worker.Valid() && worker.handled == queue[..k]
    ensures var reply := Reply(worker.State(), queue[k], queue[k].requestId in worker.cancelled, analysis);
            && reply.Some?
            && (Accepted(queue, states, k) ==>
                  !reply.value.ResyncDocument? && reply.value.requestId == queue[k].requestId
                  && reply.value.kind == queue[k].kind && reply.value.path == queue[k].path)
            && (!Accepted(queue, states, k) ==> reply.value == ResyncDocument(queue[k].path))
  {
    SameTrace(queue, states, worker.handled, worker.states, k);
    NeverCancelled(queue, next, k);
  }

  lemma {:induction false} SameTrace(queue: seq<InMessage>, states: seq<Store>, handled: seq<InMessage>,
                                     others: seq<Store>,
                                     k: nat)
    requires IsTrace(queue, states) && IsTrace(handled, others) && handled <= queue && k <= |handled|
    ensures states[k] == others[k]
  {
    if k > 0 {
      SameTrace(queue, states, handled, others, k - 1);
      assert states[k - 1 + 1] == Step(states[k - 1], queue[k - 1]);
      assert others[k - 1 + 1] == Step(others[k - 1], handled[k - 1]);
    }
  }
}
