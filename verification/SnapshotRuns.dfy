/** What every rewriting of the snapshots keeps, over every run. */
module SnapshotRuns {
  import opened Options
  import opened Paths
  import opened CleanPaths
  import opened FileStore
  import opened SnapshotStore

  /** In normal form, and every snapshot file goes by the identifier of its snapshot. */
  ghost predicate WellFormed(files: seq<File>) {
    IsNormal(files) && forall i :: 0 <= i < |files| && IsSnapshot(files[i]) ==> files[i].id == files[i].code.snapshot
  }

  /** So a snapshot lives in one file only. */
  lemma {:induction false} LivesOnce(files: seq<File>, i: nat)
    requires WellFormed(files) && i < |files| && IsSnapshot(files[i])
    ensures LastOf(files, files[i].code.snapshot) == Some(i)
  {
    var k := LastOf(files, files[i].code.snapshot);
    assert k.Some? && files[k.value].id == files[i].id;
  }

  // The files that stay.

  predicate Goes(f: File, kind: Kind, ids: set<string>) {
    IsSnapshot(f) && (f.code.kind == kind || f.code.snapshot in ids)
  }

  function Staying(files: seq<File>, kind: Kind, ids: set<string>): seq<File> {
    if files == [] then []
    else if Goes(files[0], kind, ids) then Staying(files[1..], kind, ids)
    else [files[0]] + Staying(files[1..], kind, ids)
  }

  lemma {:induction false} KeepStays(files: seq<File>, kind: Kind, ids: set<string>, from: nat)
    requires WellFormed(files) && from <= |files|
    ensures Keep(files, Dropped(files, kind, ids), from) == Staying(files[from..], kind, ids)
    decreases |files| - from
  {
    if from < |files| {
      KeepStays(files, kind, ids, from + 1);
      assert files[from..][1..] == files[from + 1..];
      if IsSnapshot(files[from]) { LivesOnce(files, from); }
    }
  }

  lemma {:induction false} StayingIn(files: seq<File>, kind: Kind, ids: set<string>)
    ensures forall f :: f in Staying(files, kind, ids) <==> f in files && !Goes(f, kind, ids)
  {
    if files != [] {
      StayingIn(files[1..], kind, ids);
      assert files == [files[0]] + files[1..];
    }
  }

  lemma {:induction false} StayingWellFormed(files: seq<File>, kind: Kind, ids: set<string>)
    requires WellFormed(files)
    ensures WellFormed(Staying(files, kind, ids))
  {
    if files != [] {
      StayingWellFormed(files[1..], kind, ids);
      StayingIn(files[1..], kind, ids);
      ConsWellFormed(files, Staying(files[1..], kind, ids));
    }
  }

  lemma {:induction false} ConsWellFormed(files: seq<File>, rest: seq<File>)
    requires WellFormed(files) && files != [] && WellFormed(rest) && forall g :: g in rest ==> g in files[1..]
    ensures WellFormed([files[0]] + rest)
  {
    ConsDistinct(files, rest);
    var all := [files[0]] + rest;
    assert forall i :: 0 < i < |all| ==> all[i] == rest[i - 1];
  }

  lemma {:induction false} ConsDistinct(files: seq<File>, rest: seq<File>)
    requires DistinctFiles(files) && files != [] && DistinctFiles(rest) && forall g :: g in rest ==> g in files[1..]
    ensures DistinctFiles([files[0]] + rest)
  {
    forall i | 0 <= i < |rest|
      ensures rest[i].id != files[0].id && rest[i].path != files[0].path
    {
      assert rest[i] in files[1..];
      var k :| 0 <= k < |files[1..]| && files[1..][k] == rest[i];
      assert files[k + 1] == rest[i];
    }
  }

  // The files that are written.

  lemma {:induction false} WrittenShape(files: seq<File>, entries: seq<Entry>, seen: set<string>, now: int)
    ensures var r := Written(files, entries, seen, now);
            && |r| == |entries|
            && (forall j :: 0 <= j < |r| ==>
                 && r[j].id == entries[j].snapshot && r[j].code == entries[j]
                 && InFolder(r[j].path, SNAPSHOTS) && r[j].path !in seen)
            && (forall i, j :: 0 <= i < j < |r| ==> r[i].path != r[j].path)
  {
    if entries != [] {
      var path := PathFor(entries[0].savedAt, seen);
      WrittenShape(files, entries[1..], seen + {path}, now);
    }
  }

  /** The file of each entry is named by the time at which the entry was saved, and touched by the write. */
  lemma {:induction false} WrittenNamed(files: seq<File>, entries: seq<Entry>, seen: set<string>, now: int, j: nat)
    returns (before: set<string>)
    requires j < |entries|
    ensures |Written(files, entries, seen, now)| == |entries| && seen <= before
    ensures var f := Written(files, entries, seen, now)[j];
            f.path == PathFor(entries[j].savedAt, before) && f.updatedAt == now && f.code == entries[j]
    decreases j
  {
    WrittenShape(files, entries, seen, now);
    if j == 0 {
      before := seen;
    } else {
      before := WrittenNamed(files, entries[1..], seen + {PathFor(entries[0].savedAt, seen)}, now, j - 1);
    }
  }

  /** A snapshot that was in the store before keeps the time at which it was created. */
  lemma {:induction false} WrittenCreated(files: seq<File>, entries: seq<Entry>, seen: set<string>, now: int, j: nat,
                                          i: nat)
    requires WellFormed(files) && j < |entries| && i < |files| && IsSnapshot(files[i])
    requires files[i].code.snapshot == entries[j].snapshot
    ensures |Written(files, entries, seen, now)| == |entries|
    ensures Written(files, entries, seen, now)[j].createdAt == files[i].createdAt
    decreases j
  {
    WrittenShape(files, entries, seen, now);
    LivesOnce(files, i);
    if j > 0 {
      var path := PathFor(entries[0].savedAt, seen);
      WrittenCreated(files, entries[1..], seen + {path}, now, j - 1, i);
    }
  }

  // Writing keeps the store well formed exactly if the identifiers fit.

  predicate DistinctIds(entries: seq<Entry>) {
    forall i, j :: 0 <= i < j < |entries| ==> entries[i].snapshot != entries[j].snapshot
  }

  /** The incoming identifiers are distinct, not blank, without space around, and no other file has them. */
  predicate Fits(files: seq<File>, entries: seq<Entry>) {
    && DistinctIds(entries)
    && (forall e :: e in entries ==> e.snapshot != "" && Trim(e.snapshot) == e.snapshot)
    && (forall f :: f in files && !IsSnapshot(f) ==> f.id !in Ids(entries))
  }

  lemma {:induction false} DistinctBoth(a: seq<File>, b: seq<File>)
    requires DistinctFiles(a) && DistinctFiles(b)
    requires forall f, g :: f in a && g in b ==> f.id != g.id && f.path != g.path
    ensures DistinctFiles(a + b)
  {
    forall i, j | 0 <= i < j < |a + b|
      ensures (a + b)[i].id != (a + b)[j].id && (a + b)[i].path != (a + b)[j].path
    {
      if i < |a| <= j { assert a[i] in a && b[j - |a|] in b; }
    }
  }

  lemma {:induction false} WrittenWellFormed(files: seq<File>, entries: seq<Entry>, seen: set<string>, now: int)
    requires DistinctIds(entries) && forall e :: e in entries ==> e.snapshot != "" && Trim(e.snapshot) == e.snapshot
    ensures WellFormed(Written(files, entries, seen, now))
  {
    var r := Written(files, entries, seen, now);
    WrittenShape(files, entries, seen, now);
    forall j | 0 <= j < |r|
      ensures Clean(r[j].path) == Some(r[j].path) && r[j].id != "" && Trim(r[j].id) == r[j].id
    {
      InSnapshots(r[j].path);
      assert entries[j] in entries;
    }
  }

  lemma {:induction false} KeptApart(files: seq<File>, kind: Kind, entries: seq<Entry>, now: int, f: File, g: File)
    requires WellFormed(files) && Fits(files, entries)
    requires var keep := Staying(files, kind, Ids(entries));
             f in keep && g in Written(files, entries, SnapshotPaths(keep), now)
    ensures f.id != g.id && f.path != g.path
  {
    var keep := Staying(files, kind, Ids(entries));
    WrittenShape(files, entries, SnapshotPaths(keep), now);
    StayingIn(files, kind, Ids(entries));
    var j :| 0 <= j < |entries| && Written(files, entries, SnapshotPaths(keep), now)[j] == g;
    assert entries[j].snapshot in Ids(entries) by { assert entries[j] in entries; }
  }

  lemma {:induction false} HandedParts(files: seq<File>, kind: Kind, entries: seq<Entry>, now: int)
    requires WellFormed(files)
    ensures var keep := Staying(files, kind, Ids(entries));
            Handed(files, kind, entries, now) == keep + Written(files, entries, SnapshotPaths(keep), now)
  {
    KeepStays(files, kind, Ids(entries), 0);
    assert files[0..] == files;
  }

  lemma {:induction false} WellFormedBoth(a: seq<File>, b: seq<File>)
    requires WellFormed(a) && WellFormed(b) && DistinctFiles(a + b)
    ensures WellFormed(a + b)
  {
  }

  lemma {:induction false} HandedWellFormed(files: seq<File>, kind: Kind, entries: seq<Entry>, now: int)
    requires WellFormed(files) && Fits(files, entries)
    ensures WellFormed(Handed(files, kind, entries, now))
  {
    var keep := Staying(files, kind, Ids(entries));
    var written := Written(files, entries, SnapshotPaths(keep), now);
    HandedParts(files, kind, entries, now);
    StayingWellFormed(files, kind, Ids(entries));
    WrittenWellFormed(files, entries, SnapshotPaths(keep), now);
    forall f, g | f in keep && g in written
      ensures f.id != g.id && f.path != g.path
    {
      KeptApart(files, kind, entries, now, f, g);
    }
    DistinctBoth(keep, written);
    WellFormedBoth(keep, written);
  }

  /** Distinct clean paths stay as they are, whatever becomes of the identifiers. */
  lemma {:induction false} PathsStay(files: seq<File>, uuids: seq<string>, usedIds: set<string>, usedPaths: set<string>)
    requires |uuids| == |files|
    requires forall i :: 0 <= i < |files| ==> Clean(files[i].path) == Some(files[i].path) && files[i].path !in usedPaths
    requires forall i, j :: 0 <= i < j < |files| ==> files[i].path != files[j].path
    ensures var r := Normalize(files, uuids, usedIds, usedPaths);
            |r| == |files| && forall i :: 0 <= i < |r| ==> r[i] == files[i].(id := r[i].id)
    decreases |files|
  {
    if files != [] {
      var f := Renamed(files[0], uuids[0], usedIds, usedPaths);
      PathsStay(files[1..], uuids[1..], usedIds + {f.id}, usedPaths + {f.path});
    }
  }

  lemma {:induction false} HandedPaths(files: seq<File>, kind: Kind, entries: seq<Entry>, now: int)
    requires WellFormed(files)
    ensures var h := Handed(files, kind, entries, now);
            && (forall i :: 0 <= i < |h| ==> Clean(h[i].path) == Some(h[i].path))
            && (forall i, j :: 0 <= i < j < |h| ==> h[i].path != h[j].path)
  {
    var keep := Staying(files, kind, Ids(entries));
    var written := Written(files, entries, SnapshotPaths(keep), now);
    HandedParts(files, kind, entries, now);
    StayingWellFormed(files, kind, Ids(entries));
    WrittenShape(files, entries, SnapshotPaths(keep), now);
    forall j | 0 <= j < |written|
      ensures Clean(written[j].path) == Some(written[j].path)
    {
      InSnapshots(written[j].path);
    }
    forall i, j | 0 <= i < |keep| && 0 <= j < |written|
      ensures keep[i].path != written[j].path
    {
      assert keep[i] in keep;
    }
  }

  /** Writing leaves a well-formed store exactly if the identifiers fit, and then normalizing renames nothing. */
  lemma {:induction false} WriteKeeps(files: seq<File>, kind: Kind, entries: seq<Entry>, now: int, uuids: seq<string>)
    requires WellFormed(files) && |uuids| == |Handed(files, kind, entries, now)|
    ensures var after := Normalize(Handed(files, kind, entries, now), uuids, {}, {});
            && (WellFormed(after) ==> after == Handed(files, kind, entries, now))
            && (WellFormed(after) <==> Fits(files, entries))
  {
    var handed := Handed(files, kind, entries, now);
    var after := Normalize(handed, uuids, {}, {});
    if Fits(files, entries) {
      HandedWellFormed(files, kind, entries, now);
      NormalStays(handed, uuids, {}, {});
    }
    if WellFormed(after) {
      HandedPaths(files, kind, entries, now);
      PathsStay(handed, uuids, {}, {});
      KeptFirst(files, kind, entries, now, uuids);
      HandedFits(files, kind, entries, now);
    }
  }

  lemma {:induction false} NormalPrefix(a: seq<File>, b: seq<File>, uuids: seq<string>, usedIds: set<string>,
                                        usedPaths: set<string>)
    requires |uuids| == |a + b| && IsNormal(a)
    requires forall i :: 0 <= i < |a| ==> a[i].id !in usedIds && a[i].path !in usedPaths
    ensures a <= Normalize(a + b, uuids, usedIds, usedPaths)
    decreases |a|
  {
    if a != [] {
      var f := a[0];
      assert (a + b)[1..] == a[1..] + b;
      NormalPrefix(a[1..], b, uuids[1..], usedIds + {f.id}, usedPaths + {f.path});
      assert Renamed(f, uuids[0], usedIds, usedPaths) == f && a == [f] + a[1..];
    }
  }

  lemma {:induction false} KeptFirst(files: seq<File>, kind: Kind, entries: seq<Entry>, now: int, uuids: seq<string>)
    requires WellFormed(files) && |uuids| == |Handed(files, kind, entries, now)|
    requires var h := Handed(files, kind, entries, now); var after := Normalize(h, uuids, {}, {});
             WellFormed(after) && |after| == |h| && forall i :: 0 <= i < |h| ==> after[i] == h[i].(id := after[i].id)
    ensures Normalize(Handed(files, kind, entries, now), uuids, {}, {}) == Handed(files, kind, entries, now)
  {
    var h := Handed(files, kind, entries, now);
    var after := Normalize(h, uuids, {}, {});
    var keep := Staying(files, kind, Ids(entries));
    var written := Written(files, entries, SnapshotPaths(keep), now);
    HandedParts(files, kind, entries, now);
    StayingWellFormed(files, kind, Ids(entries));
    NormalPrefix(keep, written, uuids, {}, {});
    WrittenShape(files, entries, SnapshotPaths(keep), now);
    forall i | 0 <= i < |h|
      ensures after[i] == h[i]
    {
      if i >= |keep| { assert h[i] == written[i - |keep|] && IsSnapshot(after[i]); }
    }
  }

  /** The last files of those handed over go by the identifiers that came in. */
  lemma HandedIds(files: seq<File>, kind: Kind, entries: seq<Entry>, now: int) returns (k: nat)
    requires WellFormed(files)
    ensures GoBy(Handed(files, kind, entries, now), k, entries)
  {
    var keep := Staying(files, kind, Ids(entries));
    var written := Written(files, entries, SnapshotPaths(keep), now);
    HandedParts(files, kind, entries, now);
    WrittenShape(files, entries, SnapshotPaths(keep), now);
    k := |keep|;
    LastIds(keep, written, entries);
  }

  predicate GoBy(files: seq<File>, k: nat, entries: seq<Entry>) {
    k + |entries| == |files| && forall j :: 0 <= j < |entries| ==> files[k + j].id == entries[j].snapshot
  }

  lemma LastIds(keep: seq<File>, written: seq<File>, entries: seq<Entry>)
    requires |written| == |entries| && forall j :: 0 <= j < |entries| ==> written[j].id == entries[j].snapshot
    ensures GoBy(keep + written, |keep|, entries)
  {
  }

  lemma {:induction false} HandedFits(files: seq<File>, kind: Kind, entries: seq<Entry>, now: int)
    requires WellFormed(files) && WellFormed(Handed(files, kind, entries, now))
    ensures Fits(files, entries)
  {
    var k := HandedIds(files, kind, entries, now);
    IdsFit(Handed(files, kind, entries, now), k, entries);
    NoneHasId(files, kind, entries, now);
  }

  lemma NoneHasId(files: seq<File>, kind: Kind, entries: seq<Entry>, now: int)
    requires DistinctFiles(Handed(files, kind, entries, now)) && WellFormed(files)
    ensures forall f :: f in files && !IsSnapshot(f) ==> f.id !in Ids(entries)
  {
    forall f | f in files && !IsSnapshot(f)
      ensures f.id !in Ids(entries)
    {
      KeptId(files, kind, entries, now, f);
    }
  }

  lemma IdsFit(h: seq<File>, k: nat, entries: seq<Entry>)
    requires WellFormed(h) && GoBy(h, k, entries)
    ensures DistinctIds(entries)
    ensures forall e :: e in entries ==> e.snapshot != "" && Trim(e.snapshot) == e.snapshot
  {
    forall i, j | 0 <= i < j < |entries|
      ensures entries[i].snapshot != entries[j].snapshot
    {
      assert h[k + i].id != h[k + j].id;
    }
    forall e | e in entries
      ensures e.snapshot != "" && Trim(e.snapshot) == e.snapshot
    {
      var j :| 0 <= j < |entries| && entries[j] == e;
      assert h[k + j].id == e.snapshot;
    }
  }

  lemma {:induction false} KeptId(files: seq<File>, kind: Kind, entries: seq<Entry>, now: int, f: File)
    requires DistinctFiles(Handed(files, kind, entries, now)) && WellFormed(files) && f in files && !IsSnapshot(f)
    ensures f.id !in Ids(entries)
  {
    var h := Handed(files, kind, entries, now);
    var keep := Staying(files, kind, Ids(entries));
    var written := Written(files, entries, SnapshotPaths(keep), now);
    HandedParts(files, kind, entries, now);
    WrittenShape(files, entries, SnapshotPaths(keep), now);
    StayingIn(files, kind, Ids(entries));
    var i :| 0 <= i < |keep| && keep[i] == f;
    assert h[i] == f;
    forall e | e in entries
      ensures e.snapshot != f.id
    {
      var j :| 0 <= j < |entries| && entries[j] == e;
      assert h[|keep| + j] == written[j];
    }
  }

  // Reading back.

  /** The file itself, unless it is a snapshot. */
  function OtherFile(f: File): seq<File> { if IsSnapshot(f) then [] else [f] }

  function Ordinary(files: seq<File>): seq<File> {
    if files == [] then [] else OtherFile(files[0]) + Ordinary(files[1..])
  }

  function Without(entries: seq<Entry>, ids: set<string>): seq<Entry> {
    if entries == [] then []
    else if entries[0].snapshot in ids then Without(entries[1..], ids)
    else [entries[0]] + Without(entries[1..], ids)
  }

  lemma {:induction false} BothRead(a: seq<File>, b: seq<File>, kind: Kind)
    ensures SnapshotsOf(a + b, kind) == SnapshotsOf(a, kind) + SnapshotsOf(b, kind)
  {
    if a == [] {
      assert a + b == b;
    } else {
      assert (a + b)[1..] == a[1..] + b && (a + b)[0] == a[0];
      BothRead(a[1..], b, kind);
      Assoc(EntryOf(a[0], kind), SnapshotsOf(a[1..], kind), SnapshotsOf(b, kind));
    }
  }

  lemma {:induction false} BothOrdinary(a: seq<File>, b: seq<File>)
    ensures Ordinary(a + b) == Ordinary(a) + Ordinary(b)
  {
    if a == [] {
      assert a + b == b;
    } else {
      assert (a + b)[1..] == a[1..] + b && (a + b)[0] == a[0];
      BothOrdinary(a[1..], b);
      Assoc(OtherFile(a[0]), Ordinary(a[1..]), Ordinary(b));
    }
  }

  lemma {:induction false} Assoc<T>(a: seq<T>, b: seq<T>, c: seq<T>)
    ensures a + (b + c) == a + b + c
  {
  }

  lemma {:induction false} ConsRead(f: File, rest: seq<File>, kind: Kind)
    ensures SnapshotsOf([f] + rest, kind) == EntryOf(f, kind) + SnapshotsOf(rest, kind)
    ensures Ordinary([f] + rest) == OtherFile(f) + Ordinary(rest)
  {
    assert ([f] + rest)[1..] == rest;
  }

  lemma {:induction false} ConsWithout(e: Entry, rest: seq<Entry>, ids: set<string>)
    ensures Without([e] + rest, ids) == if e.snapshot in ids then Without(rest, ids) else [e] + Without(rest, ids)
  {
    assert ([e] + rest)[1..] == rest;
  }

  lemma {:induction false} StayingOrdinary(files: seq<File>, kind: Kind, ids: set<string>)
    ensures Ordinary(Staying(files, kind, ids)) == Ordinary(files)
  {
    if files != [] {
      StayingOrdinary(files[1..], kind, ids);
      ConsRead(files[0], Staying(files[1..], kind, ids), kind);
      Empty(Ordinary(files[1..]));
    }
  }

  lemma {:induction false} Empty<T>(s: seq<T>)
    ensures [] + s == s
  {
  }

  lemma {:induction false} StayingRead(files: seq<File>, kind: Kind, ids: set<string>)
    ensures SnapshotsOf(Staying(files, kind, ids), kind) == []
  {
    if files != [] {
      StayingRead(files[1..], kind, ids);
      ConsRead(files[0], Staying(files[1..], kind, ids), kind);
    }
  }

  lemma {:induction false} StayingOthers(files: seq<File>, kind: Kind, ids: set<string>, other: Kind)
    requires other != kind
    ensures SnapshotsOf(Staying(files, kind, ids), other) == Without(SnapshotsOf(files, other), ids)
  {
    if files != [] {
      var f := files[0];
      StayingOthers(files[1..], kind, ids, other);
      ConsRead(f, Staying(files[1..], kind, ids), other);
      Empty(SnapshotsOf(files[1..], other));
      if IsSnapshot(f) && f.code.kind == other { ConsWithout(f.code, SnapshotsOf(files[1..], other), ids); }
    }
  }

  lemma {:induction false} WrittenRead(files: seq<File>, entries: seq<Entry>, seen: set<string>, now: int, kind: Kind,
                                       other: Kind)
    requires (forall e :: e in entries ==> e.kind == kind) && other != kind
    ensures SnapshotsOf(Written(files, entries, seen, now), kind) == entries
    ensures SnapshotsOf(Written(files, entries, seen, now), other) == []
    ensures Ordinary(Written(files, entries, seen, now)) == []
  {
    if entries != [] {
      var path := PathFor(entries[0].savedAt, seen);
      var rest := Written(files, entries[1..], seen + {path}, now);
      WrittenRead(files, entries[1..], seen + {path}, now, kind, other);
      assert Written(files, entries, seen, now)[1..] == rest;
      assert entries[0] in entries && entries == [entries[0]] + entries[1..];
    }
  }

  /** What was written is what is read, of the other kind only what came in is gone, and no other file changes. */
  lemma {:induction false} WriteReads(files: seq<File>, kind: Kind, entries: seq<Entry>, now: int, other: Kind)
    requires WellFormed(files) && (forall e :: e in entries ==> e.kind == kind) && other != kind
    ensures var h := Handed(files, kind, entries, now);
            && SnapshotsOf(h, kind) == entries
            && SnapshotsOf(h, other) == Without(SnapshotsOf(files, other), Ids(entries))
            && Ordinary(h) == Ordinary(files)
  {
    var keep := Staying(files, kind, Ids(entries));
    var written := Written(files, entries, SnapshotPaths(keep), now);
    HandedParts(files, kind, entries, now);
    BothRead(keep, written, kind);
    BothRead(keep, written, other);
    BothOrdinary(keep, written);
    StayingOrdinary(files, kind, Ids(entries));
    StayingRead(files, kind, Ids(entries));
    StayingOthers(files, kind, Ids(entries), other);
    WrittenRead(files, entries, SnapshotPaths(keep), now, kind, other);
  }

  // Runs.

  datatype Write = Write(kind: Kind, entries: seq<Entry>, now: int, uuids: seq<string>)

  /** Two lists that replace each other's entries: what the files stand for. */
  datatype Lists = Lists(saved: seq<Entry>, terminal: seq<Entry>)

  function ListsOf(files: seq<File>): Lists { Lists(SnapshotsOf(files, Saved), SnapshotsOf(files, Terminal)) }

  function WriteLists(l: Lists, w: Write): Lists {
    match w.kind
    case Saved => Lists(w.entries, Without(l.terminal, Ids(w.entries)))
    case Terminal => Lists(Without(l.saved, Ids(w.entries)), w.entries)
  }

  function RunLists(l: Lists, ws: seq<Write>): Lists
    decreases |ws|
  {
    if ws == [] then l else WriteLists(RunLists(l, Init(ws)), Last(ws))
  }

  ghost predicate CanWrite(files: seq<File>, w: Write) {
    && |w.uuids| == |Handed(files, w.kind, w.entries, w.now)|
    && Fits(files, w.entries)
    && forall e :: e in w.entries ==> e.kind == w.kind
  }

  ghost function After(files: seq<File>, w: Write): seq<File>
    requires CanWrite(files, w)
  {
    Normalize(Handed(files, w.kind, w.entries, w.now), w.uuids, {}, {})
  }

  function Init<T>(s: seq<T>): seq<T>
    requires s != []
  {
    s[..|s| - 1]
  }

  function Last<T>(s: seq<T>): T
    requires s != []
  {
    s[|s| - 1]
  }

  ghost predicate Next(files: seq<File>, w: Write, next: seq<File>) { CanWrite(files, w) && After(files, w) == next }

  /** The stores that a sequence of writes can lead to. */
  ghost predicate LeadsTo(files: seq<File>, ws: seq<Write>, end: seq<File>)
    decreases |ws|
  {
    if ws == [] then end == files
    else exists mid :: LeadsTo(files, Init(ws), mid) && Next(mid, Last(ws), end)
  }

  lemma {:induction false} AfterKept(files: seq<File>, w: Write)
    requires WellFormed(files) && CanWrite(files, w)
    ensures WellFormed(After(files, w)) && Ordinary(After(files, w)) == Ordinary(files)
    ensures ListsOf(After(files, w)) == WriteLists(ListsOf(files), w)
  {
    WriteKeeps(files, w.kind, w.entries, w.now, w.uuids);
    WriteReads(files, w.kind, w.entries, w.now, if w.kind == Saved then Terminal else Saved);
  }

  /** After every run the store is well formed, the other files are as they were, and the snapshot files stand for the
      two lists that the writes leave. */
  lemma {:induction false} RunKept(files: seq<File>, ws: seq<Write>, end: seq<File>)
    requires WellFormed(files) && LeadsTo(files, ws, end)
    ensures WellFormed(end) && Ordinary(end) == Ordinary(files)
    ensures ListsOf(end) == RunLists(ListsOf(files), ws)
    decreases |ws|
  {
    if ws != [] {
      var mid :| LeadsTo(files, Init(ws), mid) && Next(mid, Last(ws), end);
      RunKept(files, Init(ws), mid);
      AfterKept(mid, Last(ws));
    }
  }

  /** Right after a run the getter of the last kind returns what was written, newest first. */
  lemma {:induction false} LastReads(files: seq<File>, ws: seq<Write>, end: seq<File>)
    requires WellFormed(files) && LeadsTo(files, ws, end) && ws != []
    ensures GetSnapshots(end, Last(ws).kind) == Newest(Last(ws).entries)
  {
    RunKept(files, ws, end);
    WrittenLast(RunLists(ListsOf(files), Init(ws)), Last(ws), end);
  }

  lemma WrittenLast(l: Lists, w: Write, end: seq<File>)
    requires ListsOf(end) == WriteLists(l, w)
    ensures SnapshotsOf(end, w.kind) == w.entries
  {
  }

  // Clearing.

  lemma {:induction false} OutsideShape(files: seq<File>)
    requires WellFormed(files)
    ensures WellFormed(Outside(files))
    ensures forall f :: f in Outside(files) <==> f in files && !InFolder(f.path, SNAPSHOTS)
  {
    if files != [] {
      OutsideShape(files[1..]);
      assert files == [files[0]] + files[1..];
      ConsWellFormed(files, Outside(files[1..]));
    }
  }

  lemma {:induction false} OutsideReads(files: seq<File>, kind: Kind)
    ensures SnapshotsOf(Outside(files), kind) == []
  {
    if files != [] {
      OutsideReads(files[1..], kind);
      ConsRead(files[0], Outside(files[1..]), kind);
    }
  }

  /** Clearing leaves exactly the files outside the folder, unchanged. */
  lemma {:induction false} ClearLeaves(files: seq<File>, uuids: seq<string>, kind: Kind)
    requires WellFormed(files) && |uuids| == |Outside(files)|
    ensures var after := Normalize(Outside(files), uuids, {}, {});
            && after == Outside(files) && WellFormed(after) && SnapshotsOf(after, kind) == []
            && forall f :: f in after <==> f in files && !InFolder(f.path, SNAPSHOTS)
  {
    OutsideShape(files);
    NormalStays(Outside(files), uuids, {}, {});
    OutsideReads(files, kind);
  }
}
