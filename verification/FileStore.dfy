/** The workspace files: the normal form in which the list is kept. */
module FileStore {
  import opened Options
  import opened Paths
  import opened CleanPaths

  // The list of files.

  datatype File = File(id: string, path: string, code: Code, context: string, createdAt: int, updatedAt: int)

  /** Source text, or the payload of a snapshot: which one, of what kind, and when it was taken. */
  datatype Code = Text(text: string) | Payload(kind: Kind, snapshot: string, savedAt: nat, rest: string)

  datatype Kind = Saved | Terminal

  function IdFor(f: File, uuid: string, usedIds: set<string>): string {
    var id := Trim(f.id);
    if id == "" || id in usedIds then uuid else id
  }

  /** The file under an identifier and a path that are not in use. */
  ghost function Renamed(f: File, uuid: string, usedIds: set<string>, usedPaths: set<string>): File
    requires Clean(f.path).Some?
  {
    f.(id := IdFor(f, uuid, usedIds), path := FreePath(Clean(f.path).value, usedPaths))
  }

  /** The files with clean paths, each under a free identifier and a free path. A fresh identifier is at hand for
      every entry. */
  ghost function Normalize(entries: seq<File>, uuids: seq<string>, usedIds: set<string>,
                           usedPaths: set<string>): seq<File>
    requires |uuids| == |entries|
    decreases |entries|
  {
    if entries == [] then []
    else
      if Clean(entries[0].path).None? then Normalize(entries[1..], uuids[1..], usedIds, usedPaths)
      else
        var f := Renamed(entries[0], uuids[0], usedIds, usedPaths);
        [f] + Normalize(entries[1..], uuids[1..], usedIds + {f.id}, usedPaths + {f.path})
  }

  method Rename(entry: File, uuid: string, usedIds: set<string>, usedPaths: set<string>) returns (f: File,
                changed: bool)
    requires Clean(entry.path).Some?
    ensures f == Renamed(entry, uuid, usedIds, usedPaths)
    ensures changed <==> f != entry
  {
    changed := false;
    var id := IdFor(entry, uuid, usedIds);
    var path := Clean(entry.path).value;
    if path in usedPaths {
      RenamedApart(entry.path, path, usedPaths);
      path := UniqueFilePath(path, usedPaths);
      changed := true;
    }
    if id != entry.id { changed := true; }
    if path != entry.path { changed := true; }
    f := entry.(id := id, path := path);
  }

  method NormalizeFiles(entries: seq<File>, uuids: seq<string>) returns (normalized: seq<File>, changed: bool)
    requires |uuids| == |entries|
    ensures normalized == Normalize(entries, uuids, {}, {})
    ensures changed <==> normalized != entries
  {
    var usedIds: set<string>, usedPaths: set<string> := {}, {};
    normalized, changed := [], false;
    var i := 0;
    while i < |entries|
      invariant 0 <= i <= |entries| && |normalized| <= i
      invariant Normalize(entries, uuids, {}, {}) ==
                normalized + Normalize(entries[i..], uuids[i..], usedIds, usedPaths)
      invariant changed <==> normalized != entries[..i]
    {
      assert entries[i..][1..] == entries[i + 1..] && uuids[i..][1..] == uuids[i + 1..];
      assert entries[..i + 1] == entries[..i] + [entries[i]];
      if Clean(entries[i].path).None? {
        changed := true;
      } else {
        var f, renamed := Rename(entries[i], uuids[i], usedIds, usedPaths);
        if renamed { changed := true; }
        usedIds, usedPaths := usedIds + {f.id}, usedPaths + {f.path};
        SnocApart(normalized, entries[..i], f, entries[i]);
        Regroup(normalized, f, Normalize(entries[i + 1..], uuids[i + 1..], usedIds, usedPaths));
        normalized := normalized + [f];
      }
      i := i + 1;
    }
    assert entries[..i] == entries;
  }

  lemma {:induction false} SnocApart<T>(a: seq<T>, b: seq<T>, x: T, y: T)
    ensures a + [x] == b + [y] <==> a == b && x == y
  {
    if a + [x] == b + [y] {
      assert a == (a + [x])[..|a|] && b == (b + [y])[..|b|];
      assert (a + [x])[|a|] == x && (b + [y])[|b|] == y;
    }
  }

  lemma {:induction false} Regroup<T>(a: seq<T>, x: T, b: seq<T>)
    ensures a + ([x] + b) == a + [x] + b
  {
  }

  ghost predicate DistinctFiles(files: seq<File>) {
    forall i, j :: 0 <= i < j < |files| ==> files[i].id != files[j].id && files[i].path != files[j].path
  }

  /** The fresh identifiers differ from each other, from every identifier in the list, and from those in use. */
  ghost predicate FreshFor(uuids: seq<string>, entries: seq<File>, usedIds: set<string>) {
    && |uuids| == |entries|
    && (forall i, j :: 0 <= i < j < |uuids| ==> uuids[i] != uuids[j])
    && (forall i, j :: 0 <= i < |uuids| && 0 <= j < |entries| ==> uuids[i] != Trim(entries[j].id))
    && (forall i :: 0 <= i < |uuids| ==> uuids[i] !in usedIds && uuids[i] != "" && Trim(uuids[i]) == uuids[i])
  }

  /** No two files of the normal form share an identifier or a path. */
  lemma {:induction false} NormalizeDistinct(entries: seq<File>, uuids: seq<string>, usedIds: set<string>,
                                             usedPaths: set<string>)
    requires FreshFor(uuids, entries, usedIds)
    ensures var r := Normalize(entries, uuids, usedIds, usedPaths);
            && DistinctFiles(r)
            && forall i :: 0 <= i < |r| ==> r[i].id !in usedIds && r[i].path !in usedPaths
    decreases |entries|
  {
    if entries != [] {
      FreshTail(uuids, entries, usedIds);
      if Clean(entries[0].path).None? {
        NormalizeDistinct(entries[1..], uuids[1..], usedIds, usedPaths);
      } else {
        var f := Renamed(entries[0], uuids[0], usedIds, usedPaths);
        NormalizeDistinct(entries[1..], uuids[1..], usedIds + {f.id}, usedPaths + {f.path});
      }
    }
  }

  lemma {:induction false} TrimTwice(s: string)
    ensures Trim(Trim(s)) == Trim(s)
  {
    TrimStartTrimmed(s);
    TrimEndPrefix(TrimStart(s));
    if Trim(s) != "" { TrimNoop(Trim(s)); }
  }

  lemma {:induction false} FreshTail(uuids: seq<string>, entries: seq<File>, usedIds: set<string>)
    requires FreshFor(uuids, entries, usedIds) && entries != []
    ensures FreshFor(uuids[1..], entries[1..], usedIds)
    ensures FreshFor(uuids[1..], entries[1..], usedIds + {IdFor(entries[0], uuids[0], usedIds)})
  {
    assert forall i :: 0 <= i < |entries[1..]| ==> entries[1..][i] == entries[i + 1];
    assert forall i :: 0 <= i < |uuids[1..]| ==> uuids[1..][i] == uuids[i + 1] && uuids[i + 1] != Trim(entries[0].id);
  }

  /** Everything about a file but its identifier and its path. */
  function Content(f: File): File { f.(id := "", path := "") }

  function Contents(files: seq<File>): seq<File> {
    if files == [] then [] else [Content(files[0])] + Contents(files[1..])
  }

  lemma {:induction false} ContentsCons(f: File, rest: seq<File>)
    ensures Contents([f] + rest) == [Content(f)] + Contents(rest)
  {
    assert ([f] + rest)[1..] == rest;
  }

  function WithCleanPath(entries: seq<File>): seq<File> {
    if entries == [] then []
    else (if Clean(entries[0].path).Some? then [entries[0]] else []) + WithCleanPath(entries[1..])
  }

  /** The files whose path can be cleaned stay, in order, with everything that is in them. */
  lemma {:induction false} NormalizeKeeps(entries: seq<File>, uuids: seq<string>, usedIds: set<string>,
                                          usedPaths: set<string>)
    requires |uuids| == |entries|
    ensures Contents(Normalize(entries, uuids, usedIds, usedPaths)) == Contents(WithCleanPath(entries))
    decreases |entries|
  {
    if entries != [] {
      if Clean(entries[0].path).None? {
        NormalizeKeeps(entries[1..], uuids[1..], usedIds, usedPaths);
        assert [] + WithCleanPath(entries[1..]) == WithCleanPath(entries[1..]);
      } else {
        var f := Renamed(entries[0], uuids[0], usedIds, usedPaths);
        NormalizeKeeps(entries[1..], uuids[1..], usedIds + {f.id}, usedPaths + {f.path});
        ContentsCons(f, Normalize(entries[1..], uuids[1..], usedIds + {f.id}, usedPaths + {f.path}));
        ContentsCons(entries[0], WithCleanPath(entries[1..]));
      }
    }
  }

  /** In normal form: trimmed identifiers, clean paths, and neither of them twice. */
  ghost predicate IsNormal(files: seq<File>) {
    && DistinctFiles(files)
    && forall i :: 0 <= i < |files| ==>
         files[i].id != "" && Trim(files[i].id) == files[i].id && Clean(files[i].path) == Some(files[i].path)
  }

  /** A list in normal form stays as it is. */
  lemma {:induction false} NormalStays(files: seq<File>, uuids: seq<string>, usedIds: set<string>,
                                       usedPaths: set<string>)
    requires |uuids| == |files| && IsNormal(files)
    requires forall i :: 0 <= i < |files| ==> files[i].id !in usedIds && files[i].path !in usedPaths
    ensures Normalize(files, uuids, usedIds, usedPaths) == files
    decreases |files|
  {
    if files != [] {
      var f := files[0];
      NormalStays(files[1..], uuids[1..], usedIds + {f.id}, usedPaths + {f.path});
      assert Renamed(f, uuids[0], usedIds, usedPaths) == f && files == [f] + files[1..];
    }
  }

  // Normalizing twice.

  predicate All(P: File -> bool, files: seq<File>) { files == [] || (P(files[0]) && All(P, files[1..])) }

  lemma {:induction false} AllAt(P: File -> bool, files: seq<File>)
    requires All(P, files)
    ensures forall i :: 0 <= i < |files| ==> P(files[i])
  {
    if files != [] {
      AllAt(P, files[1..]);
      assert forall i :: 0 < i < |files| ==> files[i] == files[1..][i - 1];
    }
  }

  lemma {:induction false} AllCons(P: File -> bool, f: File, rest: seq<File>)
    requires P(f) && All(P, rest)
    ensures All(P, [f] + rest)
  {
    assert ([f] + rest)[1..] == rest;
  }

  /** What holds of every renamed file holds of every file of the normal form. */
  lemma {:induction false} NormalizeEach(P: File -> bool, entries: seq<File>, uuids: seq<string>,
                                         usedIds: set<string>, usedPaths: set<string>)
    requires |uuids| == |entries|
    requires forall f, uuid, ids, paths ::
               f in entries && uuid in uuids && Clean(f.path).Some? ==> P(Renamed(f, uuid, ids, paths))
    ensures All(P, Normalize(entries, uuids, usedIds, usedPaths))
    decreases |entries|
  {
    if entries != [] {
      assert (forall f :: f in entries[1..] ==> f in entries) && (forall u :: u in uuids[1..] ==> u in uuids);
      if Clean(entries[0].path).None? {
        NormalizeEach(P, entries[1..], uuids[1..], usedIds, usedPaths);
      } else {
        assert entries[0] in entries && uuids[0] in uuids;
        var f := Renamed(entries[0], uuids[0], usedIds, usedPaths);
        NormalizeEach(P, entries[1..], uuids[1..], usedIds + {f.id}, usedPaths + {f.path});
        AllCons(P, f, Normalize(entries[1..], uuids[1..], usedIds + {f.id}, usedPaths + {f.path}));
      }
    }
  }

  predicate CleanIfSteady(f: File) { Clean(f.path) == Some(f.path) <==> Steady(f.path) }

  predicate TidyId(f: File) { f.id != "" && Trim(f.id) == f.id }

  lemma {:induction false} NormalizeTidy(entries: seq<File>, uuids: seq<string>)
    requires FreshFor(uuids, entries, {})
    ensures var r := Normalize(entries, uuids, {}, {});
            forall i :: 0 <= i < |r| ==> CleanIfSteady(r[i]) && TidyId(r[i])
  {
    forall f, uuid, ids, paths | f in entries && uuid in uuids && Clean(f.path).Some?
      ensures CleanIfSteady(Renamed(f, uuid, ids, paths)) && TidyId(Renamed(f, uuid, ids, paths))
    {
      FreeSteady(f.path, paths);
      TrimTwice(f.id);
    }
    var tidy := (f: File) => CleanIfSteady(f) && TidyId(f);
    NormalizeEach(tidy, entries, uuids, {}, {});
    AllAt(tidy, Normalize(entries, uuids, {}, {}));
  }

  lemma {:induction false} NormalizeNoLonger(entries: seq<File>, uuids: seq<string>, usedIds: set<string>,
                                             usedPaths: set<string>)
    requires |uuids| == |entries|
    ensures |Normalize(entries, uuids, usedIds, usedPaths)| <= |entries|
    decreases |entries|
  {
    if entries != [] {
      if Clean(entries[0].path).None? {
        NormalizeNoLonger(entries[1..], uuids[1..], usedIds, usedPaths);
      } else {
        var f := Renamed(entries[0], uuids[0], usedIds, usedPaths);
        NormalizeNoLonger(entries[1..], uuids[1..], usedIds + {f.id}, usedPaths + {f.path});
      }
    }
  }

  /** A list that stays as it is has clean paths. */
  lemma {:induction false} StaysClean(files: seq<File>, uuids: seq<string>, usedIds: set<string>,
                                      usedPaths: set<string>)
    requires |uuids| == |files| && Normalize(files, uuids, usedIds, usedPaths) == files
    ensures forall i :: 0 <= i < |files| ==> Clean(files[i].path) == Some(files[i].path)
    decreases |files|
  {
    if files != [] {
      var cleaned := Clean(files[0].path);
      if cleaned.None? {
        NormalizeNoLonger(files[1..], uuids[1..], usedIds, usedPaths);
      } else {
        var f := Renamed(files[0], uuids[0], usedIds, usedPaths);
        assert files[0] == f && files[1..] == Normalize(files[1..], uuids[1..], usedIds + {f.id}, usedPaths + {f.path});
        if cleaned.value in usedPaths { RenamedApart(files[0].path, cleaned.value, usedPaths); }
        StaysClean(files[1..], uuids[1..], usedIds + {f.id}, usedPaths + {f.path});
      }
    }
  }

  // Which lists are normalized once and for all.

  /** Every path is steady once it is clean, and no two are the same if a number would make them unsteady. */
  ghost predicate StaysNormal(entries: seq<File>) {
    && (forall i :: 0 <= i < |entries| ==> SteadyOnceClean(entries[i].path))
    && forall i, j :: 0 <= i < j < |entries| && Clean(entries[i].path) == Clean(entries[j].path) ==>
         !FragileOnceClean(entries[j].path)
  }

  predicate SteadyOnceClean(path: string) { Clean(path).Some? ==> Steady(Clean(path).value) }
  predicate FragileOnceClean(path: string) { Clean(path).Some? && Fragile(Clean(path).value) }

  /** The same, where the clean paths in `seen` have come before. */
  ghost predicate StaysBehind(entries: seq<File>, seen: set<string>) {
    && (forall i :: 0 <= i < |entries| ==> SteadyOnceClean(entries[i].path))
    && (forall i :: 0 <= i < |entries| && FragileOnceClean(entries[i].path) ==> Clean(entries[i].path).value !in seen)
    && forall i, j :: 0 <= i < j < |entries| && Clean(entries[i].path) == Clean(entries[j].path) ==>
         !FragileOnceClean(entries[j].path)
  }

  function Seen(path: string): set<string> { if Clean(path).Some? then {Clean(path).value} else {} }

  lemma StaysStep(entries: seq<File>, seen: set<string>)
    requires entries != []
    ensures var path := entries[0].path;
            StaysBehind(entries, seen) <==>
            && SteadyOnceClean(path) && (FragileOnceClean(path) ==> Clean(path).value !in seen)
            && StaysBehind(entries[1..], seen + Seen(path))
  {
    var rest, path := entries[1..], entries[0].path;
    assert forall i :: 0 <= i < |rest| ==> rest[i] == entries[i + 1];
    if StaysBehind(entries, seen) { StaysOn(entries, seen); }
    if StaysBehind(rest, seen + Seen(path)) && SteadyOnceClean(path) &&
      (FragileOnceClean(path) ==> Clean(path).value !in seen) {
      StaysBack(entries, seen);
    }
  }

  lemma StaysOn(entries: seq<File>, seen: set<string>)
    requires entries != [] && StaysBehind(entries, seen)
    ensures StaysBehind(entries[1..], seen + Seen(entries[0].path))
  {
    var rest := entries[1..];
    assert forall i :: 0 <= i < |rest| ==> rest[i] == entries[i + 1];
    forall i | 0 <= i < |rest| && FragileOnceClean(rest[i].path)
      ensures Clean(rest[i].path).value !in seen + Seen(entries[0].path)
    {
      assert Clean(entries[0].path) != Clean(entries[i + 1].path);
    }
  }

  lemma StaysBack(entries: seq<File>, seen: set<string>)
    requires entries != [] && StaysBehind(entries[1..], seen + Seen(entries[0].path))
    requires SteadyOnceClean(entries[0].path) &&
             (FragileOnceClean(entries[0].path) ==> Clean(entries[0].path).value !in seen)
    ensures StaysBehind(entries, seen)
  {
    var rest := entries[1..];
    assert forall i :: 0 < i < |entries| ==> entries[i] == rest[i - 1];
    forall i, j | 0 <= i < j < |entries| && Clean(entries[i].path) == Clean(entries[j].path)
      ensures !FragileOnceClean(entries[j].path)
    {
      assert entries[j] == rest[j - 1];
      if i > 0 { assert entries[i] == rest[i - 1]; }
    }
  }

  predicate SteadyFile(f: File) { Steady(f.path) }

  /** Among fragile paths, the ones in use are the ones that have come before: a number makes no fragile path. */
  lemma {:induction false} SteadyExactly(entries: seq<File>, uuids: seq<string>, usedIds: set<string>,
                                         usedPaths: set<string>,
                                         seen: set<string>)
    requires |uuids| == |entries| && forall p :: Fragile(p) ==> (p in usedPaths <==> p in seen)
    ensures All(SteadyFile, Normalize(entries, uuids, usedIds, usedPaths)) <==> StaysBehind(entries, seen)
    decreases |entries|
  {
    if entries != [] {
      var path := entries[0].path;
      StaysStep(entries, seen);
      if Clean(path).None? {
        SteadyExactly(entries[1..], uuids[1..], usedIds, usedPaths, seen);
        assert seen + Seen(path) == seen;
      } else {
        var f := Renamed(entries[0], uuids[0], usedIds, usedPaths);
        FreeSteadyExactly(path, usedPaths);
        var rest := Normalize(entries[1..], uuids[1..], usedIds + {f.id}, usedPaths + {f.path});
        SteadyExactly(entries[1..], uuids[1..], usedIds + {f.id}, usedPaths + {f.path}, seen + Seen(path));
        assert ([f] + rest)[1..] == rest;
      }
    }
  }

  lemma FreeSteadyExactly(raw: string, taken: set<string>)
    requires Clean(raw).Some?
    ensures var c := Clean(raw).value; var q := FreePath(c, taken);
            && (Steady(q) <==> Steady(c) && !(Fragile(c) && c in taken))
            && (q != c ==> c in taken && !Fragile(q))
  {
    var c := Clean(raw).value;
    CandidateApart(c);
    if c in taken { NumberedSteady(raw, FirstFree((n: nat) => Candidate(c, n), taken, 2)); }
  }

  lemma {:induction false} AllOf(P: File -> bool, files: seq<File>)
    ensures All(P, files) <==> forall i :: 0 <= i < |files| ==> P(files[i])
  {
    if files != [] {
      AllOf(P, files[1..]);
      assert forall i :: 0 < i < |files| ==> files[i] == files[1..][i - 1];
    }
  }

  /** Normalizing once is enough exactly if every path is steady once it is clean, and no two clean paths are the same
      that a number would make unsteady. */
  lemma {:induction false} NormalizeAgain(entries: seq<File>, uuids: seq<string>, more: seq<string>)
    requires FreshFor(uuids, entries, {})
    requires |more| == |Normalize(entries, uuids, {}, {})|
    ensures var r := Normalize(entries, uuids, {}, {});
            Normalize(r, more, {}, {}) == r <==> StaysNormal(entries)
  {
    var r := Normalize(entries, uuids, {}, {});
    NormalizeDistinct(entries, uuids, {}, {});
    NormalizeTidy(entries, uuids);
    SteadyExactly(entries, uuids, {}, {}, {});
    AllOf(SteadyFile, r);
    assert StaysBehind(entries, {}) <==> StaysNormal(entries);
    assert forall i :: 0 <= i < |r| ==>
             CleanIfSteady(r[i]) && TidyId(r[i]) && (SteadyFile(r[i]) <==> Steady(r[i].path));
    if All(SteadyFile, r) { NormalStays(r, more, {}, {}); }
    if Normalize(r, more, {}, {}) == r { StaysClean(r, more, {}, {}); }
  }

  /** Two files of which nothing but the suffix is left: the second one gets a space in front of its name, and another
      name the next time. */
  lemma {:induction false} BareSuffixTwice(a: File, b: File, uuids: seq<string>, more: seq<string>)
    requires a.path == SUFFIX && b.path == SUFFIX && FreshFor(uuids, [a, b], {})
    requires |more| == |Normalize([a, b], uuids, {}, {})|
    ensures var r := Normalize([a, b], uuids, {}, {});
            |r| == 2 && r[0].path == SUFFIX && r[1].path == " (2).dvala" && Normalize(r, more, {}, {}) != r
  {
    BareSuffix();
    NormalizePair(a, b, uuids);
    BareSuffixTaken();
    var entries := [a, b];
    assert Clean(entries[0].path) == Clean(entries[1].path) && FragileOnceClean(entries[1].path);
    NormalizeAgain(entries, uuids, more);
  }

  lemma NormalizePair(a: File, b: File, uuids: seq<string>)
    requires |uuids| == 2 && Clean(a.path).Some? && Clean(b.path).Some?
    ensures var r := Normalize([a, b], uuids, {}, {});
            |r| == 2 && r[0].path == FreePath(Clean(a.path).value, {}) &&
              r[1].path == FreePath(Clean(b.path).value, {r[0].path})
  {
    var f := Renamed(a, uuids[0], {}, {});
    assert [a, b][1..] == [b] && [b][1..] == [];
    assert {} + {f.id} == {f.id} && {} + {f.path} == {f.path};
    var g := Renamed(b, uuids[1..][0], {f.id}, {f.path});
    assert Normalize([b], uuids[1..], {f.id}, {f.path}) ==
           [g] + Normalize([], uuids[1..][1..], {f.id} + {g.id}, {f.path} + {g.path});
    assert Normalize([a, b], uuids, {}, {}) == [f] + [g];
  }

  lemma BareSuffix()
    ensures Clean(SUFFIX) == Some(SUFFIX) && Fragile(SUFFIX)
  {
    assert |SNAPSHOTS| > |SUFFIX| && "" + SUFFIX == SUFFIX;
    SuffixCleans();
    SuffixedSteady("");
  }

  lemma SuffixCleans()
    ensures NormalizePath(SUFFIX) == Some(SUFFIX)
  {
    SuffixNoSlash();
    SplitOne(SUFFIX);
    TrimNoop(SUFFIX);
    NonEmptyNoop([SUFFIX]);
    assert EnsureSuffix(SUFFIX) == SUFFIX by {
      SuffixedShape("");
      assert "" + SUFFIX == SUFFIX;
    }
    OneCleans(SUFFIX);
  }

  lemma OneCleans(name: string)
    requires NonEmpty(Split(Trim(name))) == [name] && name != ".." && EnsureSuffix(name) == name
    ensures NormalizePath(name) == Some(name)
  {
    assert WithSuffix([name]) == [name];
  }

  lemma BareSuffixTaken()
    ensures FreePath(SUFFIX, {}) == SUFFIX && FreePath(SUFFIX, {SUFFIX}) == " (2).dvala"
  {
    assert "" + SUFFIX == SUFFIX;
    CutBeforeSuffix("");
    assert Candidate(SUFFIX, 2) == " (2).dvala";
    CandidateApart(SUFFIX);
  }
}
