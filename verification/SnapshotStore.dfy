/** Snapshots, one file each in their own folder of the workspace. */
module SnapshotStore {
  import opened Options
  import opened Paths
  import opened CleanPaths
  import opened FileStore

  /** What a snapshot file holds. */
  type Entry = c: Code | c.Payload? witness Payload(Saved, "", 0, "")

  predicate IsSnapshot(f: File) { InFolder(f.path, SNAPSHOTS) && f.code.Payload? }

  // Reading.

  function EntryOf(f: File, kind: Kind): seq<Entry> { if IsSnapshot(f) && f.code.kind == kind then [f.code] else [] }

  function SnapshotsOf(files: seq<File>, kind: Kind): seq<Entry> {
    if files == [] then [] else EntryOf(files[0], kind) + SnapshotsOf(files[1..], kind)
  }

  function Insert(e: Entry, sorted: seq<Entry>): seq<Entry> {
    if sorted == [] || e.savedAt >= sorted[0].savedAt then [e] + sorted else [sorted[0]] + Insert(e, sorted[1..])
  }

  /** Stable, newest first. */
  function Newest(entries: seq<Entry>): seq<Entry> {
    if entries == [] then [] else Insert(entries[0], Newest(entries[1..]))
  }

  function GetSnapshots(files: seq<File>, kind: Kind): seq<Entry> { Newest(SnapshotsOf(files, kind)) }

  predicate NewestFirst(entries: seq<Entry>) {
    forall i, j :: 0 <= i < j < |entries| ==> entries[i].savedAt >= entries[j].savedAt
  }

  function At(entries: seq<Entry>, time: nat): seq<Entry> {
    if entries == [] then [] else (if entries[0].savedAt == time then [entries[0]] else []) + At(entries[1..], time)
  }

  lemma {:induction false} InsertAdds(e: Entry, sorted: seq<Entry>)
    ensures multiset(Insert(e, sorted)) == multiset{e} + multiset(sorted)
  {
    if sorted != [] && e.savedAt < sorted[0].savedAt {
      InsertAdds(e, sorted[1..]);
      assert sorted == [sorted[0]] + sorted[1..];
    }
  }

  lemma {:induction false} InsertSorts(e: Entry, sorted: seq<Entry>)
    requires NewestFirst(sorted)
    ensures NewestFirst(Insert(e, sorted))
  {
    if sorted != [] && e.savedAt < sorted[0].savedAt {
      var more := Insert(e, sorted[1..]);
      InsertSorts(e, sorted[1..]);
      InsertAdds(e, sorted[1..]);
      forall i | 0 <= i < |more|
        ensures more[i].savedAt <= sorted[0].savedAt
      {
        assert more[i] in multiset(more);
        assert more[i] == e || more[i] in sorted[1..];
      }
    }
  }

  lemma {:induction false} InsertStable(e: Entry, sorted: seq<Entry>, time: nat)
    ensures At(Insert(e, sorted), time) == At([e] + sorted, time)
  {
    assert ([e] + sorted)[1..] == sorted;
    if sorted != [] && e.savedAt < sorted[0].savedAt {
      InsertStable(e, sorted[1..], time);
      assert ([e] + sorted[1..])[1..] == sorted[1..];
      assert Insert(e, sorted)[1..] == Insert(e, sorted[1..]);
    }
  }

  /** Reading orders the entries newest first, loses none, and leaves those of the same time in their order. */
  lemma {:induction false} NewestSorts(entries: seq<Entry>, time: nat)
    ensures NewestFirst(Newest(entries)) && multiset(Newest(entries)) == multiset(entries)
    ensures At(Newest(entries), time) == At(entries, time)
  {
    if entries != [] {
      var e, rest := entries[0], Newest(entries[1..]);
      NewestSorts(entries[1..], time);
      InsertSorts(e, rest);
      InsertAdds(e, rest);
      InsertStable(e, rest, time);
      assert entries == [e] + entries[1..] && ([e] + rest)[1..] == rest;
    }
  }

  /** A list comes back as it is exactly if it is newest first. */
  lemma {:induction false} NewestStays(entries: seq<Entry>)
    ensures Newest(entries) == entries <==> NewestFirst(entries)
  {
    NewestSorts(entries, 0);
    if NewestFirst(entries) { SortedStays(entries); }
  }

  lemma {:induction false} SortedStays(entries: seq<Entry>)
    requires NewestFirst(entries)
    ensures Newest(entries) == entries
  {
    if entries != [] {
      SortedStays(entries[1..]);
      assert entries == [entries[0]] + entries[1..];
    }
  }

  // Writing.

  const NAME := SNAPSHOTS + "/"

  function Base(savedAt: nat): string { NAME + Decimal(savedAt) + ".json" }

  function Sibling(savedAt: nat, n: nat): string { NAME + Decimal(savedAt) + "-" + Decimal(n) + ".json" }

  lemma {:induction false} SiblingsApart(savedAt: nat)
    ensures Apart((n: nat) => Sibling(savedAt, n))
  {
    forall m: nat, n: nat | Sibling(savedAt, m) == Sibling(savedAt, n)
      ensures m == n
    {
      var before, after := NAME + Decimal(savedAt) + "-", ".json";
      assert Sibling(savedAt, m) == before + Decimal(m) + after && Sibling(savedAt, n) == before + Decimal(n) + after;
      assert |Decimal(m)| == |Decimal(n)|;
      assert (before + Decimal(m) + after)[|before|..|before| + |Decimal(m)|] == Decimal(m);
      assert (before + Decimal(n) + after)[|before|..|before| + |Decimal(n)|] == Decimal(n);
      DecimalApart(m, n);
    }
  }

  ghost function PathFor(savedAt: nat, seen: set<string>): (path: string)
    ensures path !in seen && NAME <= path
  {
    SiblingsApart(savedAt);
    if Base(savedAt) !in seen then Base(savedAt)
    else Sibling(savedAt, FirstFree((n: nat) => Sibling(savedAt, n), seen, 2))
  }

  /** A snapshot file is named by the time it was saved; a number tells it from others of the same time. */
  lemma PathForIs(savedAt: nat, seen: set<string>)
    ensures var path, name := PathFor(savedAt, seen), ".dvala-playground/snapshots/" + Decimal(savedAt);
            if name + ".json" !in seen then path == name + ".json"
            else FirstNumbered(path, seen, (n: nat) => name + "-" + Decimal(n) + ".json")
  {
    var name := ".dvala-playground/snapshots/" + Decimal(savedAt);
    assert name == NAME + Decimal(savedAt);
    SiblingsApart(savedAt);
    FirstFreeIs((n: nat) => Sibling(savedAt, n), seen, (n: nat) => name + "-" + Decimal(n) + ".json");
  }

  method SnapshotPath(savedAt: nat, seen: set<string>) returns (path: string)
    ensures path == PathFor(savedAt, seen)
  {
    if Base(savedAt) !in seen { return Base(savedAt); }
    ghost var cand := (n: nat) => Sibling(savedAt, n);
    SiblingsApart(savedAt);
    var n := 2;
    while Sibling(savedAt, n) in seen
      invariant n >= 2 && FirstFree(cand, seen, 2) == FirstFree(cand, seen, n)
      decreases |Untried(cand, seen, n)|
    {
      OneFewer(cand, seen, n);
      n := n + 1;
    }
    return Sibling(savedAt, n);
  }

  /** Where the last file of a snapshot is. */
  function LastOf(files: seq<File>, snapshot: string): (i: Option<nat>)
    ensures i.Some? ==> i.value < |files| && IsSnapshot(files[i.value]) && files[i.value].code.snapshot == snapshot
    ensures i.None? ==> forall k :: 0 <= k < |files| && IsSnapshot(files[k]) ==> files[k].code.snapshot != snapshot
    decreases |files|
  {
    if files == [] then None
    else
      var k := |files| - 1;
      if IsSnapshot(files[k]) && files[k].code.snapshot == snapshot then Some(k) else LastOf(files[..k], snapshot)
  }

  /** The snapshots of the kind among the first `n` files. */
  ghost function OfKind(files: seq<File>, kind: Kind, n: nat): set<nat>
    requires n <= |files|
  {
    set i: nat | i < n && IsSnapshot(files[i]) && files[i].code.kind == kind
  }

  lemma OfKindStep(files: seq<File>, kind: Kind, n: nat)
    requires n < |files|
    ensures OfKind(files, kind, n + 1) ==
            OfKind(files, kind, n) + if IsSnapshot(files[n]) && files[n].code.kind == kind then {n} else {}
  {
  }

  lemma {:induction false} LastStep(files: seq<File>, i: nat, id: string)
    requires i < |files|
    ensures LastOf(files[..i + 1], id) ==
            if IsSnapshot(files[i]) && files[i].code.snapshot == id then Some(i) else LastOf(files[..i], id)
  {
    assert files[..i + 1][..i] == files[..i];
  }

  function Ids(entries: seq<Entry>): set<string> { set e | e in entries :: e.snapshot }

  /** The files that make room: those of the kind, and the last one of every snapshot that comes in. */
  predicate Drops(files: seq<File>, kind: Kind, ids: set<string>, i: nat)
    requires i < |files|
  {
    IsSnapshot(files[i])
    && (files[i].code.kind == kind
        || (files[i].code.snapshot in ids && LastOf(files, files[i].code.snapshot) == Some(i)))
  }

  function Dropped(files: seq<File>, kind: Kind, ids: set<string>): set<nat> {
    set i: nat | i < |files| && Drops(files, kind, ids, i)
  }

  function Keep(files: seq<File>, dropped: set<nat>, from: nat): seq<File>
    requires from <= |files|
    decreases |files| - from
  {
    if from == |files| then [] else (if from in dropped then [] else [files[from]]) + Keep(files, dropped, from + 1)
  }

  function SnapshotPaths(files: seq<File>): set<string> {
    set f | f in files && InFolder(f.path, SNAPSHOTS) :: f.path
  }

  function CreatedAt(files: seq<File>, e: Entry): int {
    var i := LastOf(files, e.snapshot);
    if i.Some? then files[i.value].createdAt else e.savedAt
  }

  ghost function Written(files: seq<File>, entries: seq<Entry>, seen: set<string>, now: int): seq<File> {
    if entries == [] then []
    else
      var path := PathFor(entries[0].savedAt, seen);
      [File(entries[0].snapshot, path, entries[0], "", CreatedAt(files, entries[0]), now)]
      + Written(files, entries[1..], seen + {path}, now)
  }

  ghost function Handed(files: seq<File>, kind: Kind, entries: seq<Entry>, now: int): seq<File> {
    var keep := Keep(files, Dropped(files, kind, Ids(entries)), 0);
    keep + Written(files, entries, SnapshotPaths(keep), now)
  }

  function Outside(files: seq<File>): seq<File> {
    if files == [] then []
    else if InFolder(files[0].path, SNAPSHOTS) then Outside(files[1..])
    else [files[0]] + Outside(files[1..])
  }

  class Workspace {
    var fileCache: seq<File>

    method SetWorkspaceFiles(entries: seq<File>, uuids: seq<string>)
      requires |uuids| == |entries|
      modifies this
      ensures fileCache == Normalize(entries, uuids, {}, {})
    {
      var changed;
      fileCache, changed := NormalizeFiles(entries, uuids);
    }

    method FindExisting(kind: Kind) returns (existingById: map<string, nat>, existingOfKind: set<nat>)
      ensures forall id :: id in existingById <==> LastOf(fileCache, id).Some?
      ensures forall id :: id in existingById ==> LastOf(fileCache, id) == Some(existingById[id])
      ensures existingOfKind == OfKind(fileCache, kind, |fileCache|)
    {
      existingById, existingOfKind := map[], {};
      var i := 0;
      while i < |fileCache|
        invariant 0 <= i <= |fileCache|
        invariant forall id :: id in existingById <==> LastOf(fileCache[..i], id).Some?
        invariant forall id :: id in existingById ==> LastOf(fileCache[..i], id) == Some(existingById[id])
        invariant existingOfKind == OfKind(fileCache, kind, i)
      {
        forall id { LastStep(fileCache, i, id); }
        OfKindStep(fileCache, kind, i);
        if IsSnapshot(fileCache[i]) {
          existingById := existingById[fileCache[i].code.snapshot := i];
          if fileCache[i].code.kind == kind { existingOfKind := existingOfKind + {i}; }
        }
        i := i + 1;
      }
      assert fileCache[..i] == fileCache;
    }

    /** Also adds the last file of every snapshot that comes in. */
    method FindDropped(kind: Kind, entries: seq<Entry>, existingById: map<string, nat>, existingOfKind: set<nat>)
      returns (dropped: set<nat>)
      requires forall id :: id in existingById <==> LastOf(fileCache, id).Some?
      requires forall id :: id in existingById ==> LastOf(fileCache, id) == Some(existingById[id])
      requires existingOfKind == OfKind(fileCache, kind, |fileCache|)
      ensures dropped == Dropped(fileCache, kind, Ids(entries))
    {
      dropped := existingOfKind;
      var j := 0;
      while j < |entries|
        invariant 0 <= j <= |entries|
        invariant dropped == Dropped(fileCache, kind, Ids(entries[..j]))
      {
        assert Ids(entries[..j + 1]) == Ids(entries[..j]) + {entries[j].snapshot} by {
          assert entries[..j + 1] == entries[..j] + [entries[j]];
        }
        if entries[j].snapshot in existingById { dropped := dropped + {existingById[entries[j].snapshot]}; }
        j := j + 1;
      }
      assert entries[..j] == entries;
    }

    method WriteEntries(entries: seq<Entry>, existingById: map<string, nat>, seen: set<string>, now: int)
      returns (written: seq<File>)
      requires forall id :: id in existingById <==> LastOf(fileCache, id).Some?
      requires forall id :: id in existingById ==> LastOf(fileCache, id) == Some(existingById[id])
      ensures written == Written(fileCache, entries, seen, now)
    {
      written := [];
      var seenPaths := seen;
      var j := 0;
      while j < |entries|
        invariant 0 <= j <= |entries|
        invariant Written(fileCache, entries, seen, now) == written + Written(fileCache, entries[j..], seenPaths, now)
      {
        var e := entries[j];
        assert entries[j..][1..] == entries[j + 1..];
        var path := SnapshotPath(e.savedAt, seenPaths);
        seenPaths := seenPaths + {path};
        var createdAt := if e.snapshot in existingById then fileCache[existingById[e.snapshot]].createdAt
          else e.savedAt;
        var file := File(e.snapshot, path, e, "", createdAt, now);
        Regroup(written, file, Written(fileCache, entries[j + 1..], seenPaths, now));
        written := written + [file];
        j := j + 1;
      }
      assert entries[j..] == [];
    }

    method WriteKindedEntries(kind: Kind, entries: seq<Entry>, now: int, uuids: seq<string>)
      requires forall e :: e in entries ==> e.kind == kind
      requires |uuids| == |Handed(fileCache, kind, entries, now)|
      modifies this
      ensures fileCache == Normalize(Handed(old(fileCache), kind, entries, now), uuids, {}, {})
    {
      var existingById, existingOfKind := FindExisting(kind);
      var dropped := FindDropped(kind, entries, existingById, existingOfKind);
      var keep := Keep(fileCache, dropped, 0);
      var written := WriteEntries(entries, existingById, SnapshotPaths(keep), now);
      SetWorkspaceFiles(keep + written, uuids);
    }

    method ClearAll(uuids: seq<string>)
      requires |uuids| == |Outside(fileCache)|
      modifies this
      ensures fileCache == Normalize(Outside(old(fileCache)), uuids, {}, {})
    {
      SetWorkspaceFiles(Outside(fileCache), uuids);
    }
  }
}
