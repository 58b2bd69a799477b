/** Cleaning a path, finding one that is free, and the paths that cleaning leaves alone. */
module CleanPaths {
  import opened Options
  import opened Paths

  // Cleaning a path.

  /** Empty segments go, two dots are refused, and the name gets its suffix. */
  function NormalizePath(raw: string): Option<string> {
    var segs := NonEmpty(Split(Trim(raw)));
    if segs == [] || ".." in segs then None else Some(Join(WithSuffix(segs)))
  }

  function WithSuffix(segs: seq<string>): seq<string>
    requires segs != []
  {
    segs[|segs| - 1 := EnsureSuffix(segs[|segs| - 1])]
  }

  /** Snapshot files keep their path as it is. */
  function Clean(path: string): Option<string> {
    if InFolder(path, SNAPSHOTS) then if Trim(path) != "" then Some(path) else None else NormalizePath(path)
  }

  lemma {:induction false} EnsuredSegment(seg: string)
    requires NoSlash(seg)
    ensures NoSlash(EnsureSuffix(seg)) && EnsureSuffix(seg) != "" && EnsureSuffix(seg) != ".."
    ensures !IsSpace(EnsureSuffix(seg)[0]) && EnsureSuffix(seg)[|EnsureSuffix(seg)| - 1] == 'a'
  {
    StemShape(seg);
    var full := EnsureSuffix(seg);
    assert forall i :: 0 <= i < |SUFFIX| ==> SUFFIX[i] != '/';
    assert full[|full| - 1] == SUFFIX[|SUFFIX| - 1];
  }

  /** The segments of a cleaned path, and what becomes of them the next time. */
  lemma {:induction false} CleanSegments(segs: seq<string>)
    requires segs != [] && AllNoSlash(segs) && "" !in segs && ".." !in segs
    ensures var q := Join(WithSuffix(segs));
            && Split(q) == WithSuffix(segs) && NonEmpty(WithSuffix(segs)) == WithSuffix(segs)
            && "" !in WithSuffix(segs) && ".." !in WithSuffix(segs) && WithSuffix(WithSuffix(segs)) == WithSuffix(segs)
  {
    var k := |segs| - 1;
    var more := WithSuffix(segs);
    EnsuredSegment(segs[k]);
    EnsureTwice(segs[k]);
    forall i | 0 <= i < |more|
      ensures NoSlash(more[i]) && more[i] != "" && more[i] != ".."
    {
      if i < k { assert more[i] == segs[i] && segs[i] in segs; }
    }
    SplitJoin(more);
    NonEmptyNoop(more);
  }

  /** Nothing to strip and nothing to trim. */
  predicate IsStem(stem: string) {
    stem != "" && NoSlash(stem) && !IsSpace(stem[0]) && !IsSpace(stem[|stem| - 1]) && !HasSuffix(stem)
  }

  lemma {:induction false} StemStripped(stem: string, tail: string)
    requires IsStem(stem) && (tail == "" || IsSuffix(tail))
    ensures StripSuffix(stem + tail) == stem && NoSlash(stem + tail) && (stem != ".." ==> stem + tail != "..")
    ensures (stem + tail)[0] == stem[0] && !IsSpace((stem + tail)[|stem + tail| - 1])
  {
    var name := stem + tail;
    if tail == "" {
      assert name == stem;
    } else {
      assert name[|name| - |SUFFIX|..] == tail && name[..|name| - |SUFFIX|] == stem;
      assert name[|name| - 1] == tail[5];
      assert forall i :: 0 <= i < |tail| ==> tail[i] != '/';
    }
    TrimNoop(name);
  }

  /** A path of ordinary segments keeps its folders, and its name ends in the suffix, as it is written here, whether it
      had it before, in whatever case, or not. */
  lemma {:induction false} NormalizeOrdinary(folders: seq<string>, stem: string, tail: string)
    requires AllNoSlash(folders) && "" !in folders && ".." !in folders
    requires folders != [] ==> !IsSpace(folders[0][0])
    requires IsStem(stem) && stem != ".." && (tail == "" || IsSuffix(tail))
    ensures NormalizePath(Join(folders + [stem + tail])) == Some(Join(folders + [stem + ".dvala"]))
  {
    var segs := folders + [stem + tail];
    var raw := Join(segs);
    StemStripped(stem, tail);
    JoinEnds(folders, stem + tail);
    TrimNoop(raw);
    SplitJoin(segs);
    NonEmptyNoop(segs);
    assert segs[|segs| - 1 := stem + SUFFIX] == folders + [stem + ".dvala"];
  }

  lemma {:induction false} JoinEnds(folders: seq<string>, name: string)
    requires "" !in folders && name != ""
    ensures var path := Join(folders + [name]);
            && path != "" && path[|path| - 1] == name[|name| - 1]
            && path[0] == if folders == [] then name[0] else folders[0][0]
  {
    if folders == [] {
      assert folders + [name] == [name];
    } else {
      JoinSnoc(folders, name);
      assert folders[0] in folders;
      var rest := folders[1..];
      assert Join(folders)[0] == folders[0][0];
    }
  }

  /** Refused are the paths without a segment, and those with two dots for one. */
  lemma {:induction false} NormalizeRefuses(raw: string)
    ensures NormalizePath(raw) == None <==>
            (forall seg :: seg in Split(Trim(raw)) ==> seg == "") || ".." in Split(Trim(raw))
  {
    var segs := Split(Trim(raw));
    NonEmptyKeeps(segs, "..");
    if NonEmpty(segs) == [] {
      forall seg | seg in segs
        ensures seg == ""
      {
        NonEmptyKeeps(segs, seg);
      }
    } else {
      NonEmptyKeeps(segs, NonEmpty(segs)[0]);
    }
  }

  lemma {:induction false} NonEmptyKeeps(segs: seq<string>, seg: string)
    ensures seg in NonEmpty(segs) <==> seg in segs && seg != ""
  {
    if segs != [] { NonEmptyKeeps(segs[1..], seg); }
  }

  /** Cleaning a cleaned path once more changes nothing - exactly if there is one segment, or no space in front of the
      first. */
  lemma {:induction false} NormalizeTwice(raw: string)
    requires NormalizePath(raw).Some?
    ensures var segs, q := NonEmpty(Split(Trim(raw))), NormalizePath(raw).value;
            && segs[0] != "" && q != ""
            && (NormalizePath(q) == Some(q) <==> |segs| == 1 || !IsSpace(segs[0][0]))
  {
    var segs, q := NonEmpty(Split(Trim(raw))), NormalizePath(raw).value;
    SplitNoSlash(Trim(raw));
    NonEmptyClean(Split(Trim(raw)));
    CleanSegments(segs);
    CleanEnds(segs);
    if IsSpace(q[0]) {
      SpaceInFront(q);
    } else {
      TrimStartTrimmed(q);
    }
  }

  lemma CleanEnds(segs: seq<string>)
    requires segs != [] && AllNoSlash(segs) && "" !in segs
    ensures var q := Join(WithSuffix(segs));
            && segs[0] != "" && q != "" && q[|q| - 1] == 'a' && TrimEnd(q) == q
            && (IsSpace(q[0]) <==> |segs| > 1 && IsSpace(segs[0][0]))
  {
    EnsuredSegment(segs[|segs| - 1]);
    EndsWithSuffix(WithSuffix(segs));
    assert segs[0] in segs;
    assert Join(WithSuffix(segs))[0] == WithSuffix(segs)[0][0];
  }

  /** Such a space can be inside the path as it was given, behind a slash. */
  lemma {:induction false} SpaceAppears()
    ensures NormalizePath("/ a/b") == Some(" a/b.dvala") && NormalizePath(" a/b.dvala") != Some(" a/b.dvala")
  {
    var raw, segs := "/ a/b", ["", " a", "b"];
    SplitThree();
    TrimNoop(raw);
    assert segs[1..] == [" a", "b"] && segs[1..][1..] == ["b"] && ["b"][1..] == [];
    assert NonEmpty(["b"]) == ["b"] && NonEmpty(segs[1..]) == [" a"] + ["b"] && NonEmpty(segs) == [] + [" a", "b"];
    SpacedName();
    assert WithSuffix([" a", "b"]) == [" a", "b.dvala"] && [" a", "b.dvala"][1..] == ["b.dvala"];
    assert Join([" a", "b.dvala"]) == " a" + "/" + "b.dvala" == " a/b.dvala";
    NormalizeTwice(raw);
  }

  lemma {:induction false} SplitThree()
    ensures Split("/ a/b") == ["", " a", "b"]
  {
    var segs := ["", " a", "b"];
    assert segs[1..] == [" a", "b"] && [" a", "b"][1..] == ["b"];
    assert Join(["b"]) == "b" && Join([" a", "b"]) == " a" + "/" + "b" && Join(segs) == "" + "/" + (" a" + "/" + "b");
    assert Join(segs) == "/ a/b";
    SplitJoin(segs);
  }

  lemma {:induction false} SpacedName()
    ensures EnsureSuffix("b") == "b.dvala"
  {
    TrimNoop("b");
  }

  lemma {:induction false} SpaceInFront(q: string)
    requires q != "" && IsSpace(q[0]) && q[|q| - 1] == 'a'
    ensures NormalizePath(q) != Some(q)
  {
    var k := TrimStartDrops(q);
    var t := q[k..];
    assert t[|t| - 1] == 'a' && Trim(q) == t;
    assert q == q[..k] + t;
    SplitAfter(q[..k], t);
    var segs := NonEmpty(Split(t));
    SplitNoSlash(t);
    NonEmptyClean(Split(t));
    NonEmptyShorter(Split(t));
    if segs != [] && ".." !in segs {
      CleanSegments(segs);
      EnsuredSegment(segs[|segs| - 1]);
      var first, again := Split(q)[0], WithSuffix(segs)[0];
      assert first[0] == q[0];
      if segs == Split(t) && |segs| > 1 { assert |first| == k + |again|; }
      assert Split(q) != WithSuffix(segs);
    }
  }

  lemma {:induction false} TrimStartDrops(s: string) returns (k: nat)
    requires s != "" && IsSpace(s[0]) && s[|s| - 1] == 'a'
    ensures 0 < k < |s| && TrimStart(s) == s[k..] && NoSlash(s[..k])
  {
    if IsSpace(s[1]) {
      var j := TrimStartDrops(s[1..]);
      k := j + 1;
      assert s[..k] == [s[0]] + s[1..][..j] && s[1..][j..] == s[k..];
    } else {
      k := 1;
    }
  }

  lemma {:induction false} SplitAfter(p: string, s: string)
    requires NoSlash(p)
    ensures Split(p + s) == [p + Split(s)[0]] + Split(s)[1..]
    decreases |p|
  {
    if p == "" {
      assert p + s == s && Split(s) == [Split(s)[0]] + Split(s)[1..] && p + Split(s)[0] == Split(s)[0];
    } else {
      assert (p + s)[1..] == p[1..] + s && p[0] in p;
      SplitAfter(p[1..], s);
      assert [p[0]] + (p[1..] + Split(s)[0]) == p + Split(s)[0];
    }
  }

  lemma {:induction false} NonEmptyShorter(segs: seq<string>)
    ensures |NonEmpty(segs)| <= |segs| && (|NonEmpty(segs)| == |segs| ==> NonEmpty(segs) == segs)
  {
    if segs != [] {
      NonEmptyShorter(segs[1..]);
      assert segs == [segs[0]] + segs[1..];
    }
  }

  lemma {:induction false} EndsWithSuffix(segs: seq<string>)
    requires segs != [] && segs[|segs| - 1] != "" && segs[|segs| - 1][|segs[|segs| - 1]| - 1] == 'a'
    ensures Join(segs) != "" && Join(segs)[|Join(segs)| - 1] == 'a' && TrimEnd(Join(segs)) == Join(segs)
    decreases |segs|
  {
    if |segs| > 1 { EndsWithSuffix(segs[1..]); }
  }

  // Free paths.

  function Digit(d: nat): char
    requires d < 10
  {
    ('0' as int + d) as char
  }

  function Decimal(n: nat): (s: string)
    ensures s != ""
  {
    if n < 10 then [Digit(n)] else Decimal(n / 10) + [Digit(n % 10)]
  }

  /** The number that the digits stand for. */
  function NumberOf(s: string): int
    decreases |s|
  {
    if s == "" then 0 else 10 * NumberOf(s[..|s| - 1]) + (s[|s| - 1] as int - '0' as int)
  }

  lemma {:induction false} DecimalReads(n: nat)
    ensures NumberOf(Decimal(n)) == n && (Decimal(n)[0] == '0' ==> n == 0)
    ensures forall i :: 0 <= i < |Decimal(n)| ==> '0' <= Decimal(n)[i] <= '9'
  {
    var s := Decimal(n);
    if n < 10 {
      assert s[..0] == "" && s[0] == Digit(n);
    } else {
      DecimalReads(n / 10);
      assert s[..|s| - 1] == Decimal(n / 10) && s[|s| - 1] == Digit(n % 10);
    }
  }

  lemma {:induction false} DecimalApart(a: nat, b: nat)
    requires Decimal(a) == Decimal(b)
    ensures a == b
    decreases a
  {
    var s := Decimal(a);
    assert s[|s| - 1] == Digit(a % 10) && s[|s| - 1] == Digit(b % 10);
    assert a >= 10 ==> s[..|s| - 1] == Decimal(a / 10);
    assert b >= 10 ==> s[..|s| - 1] == Decimal(b / 10);
    if a >= 10 && b >= 10 { DecimalApart(a / 10, b / 10); }
  }

  function LastIndex(s: string, c: char): Option<nat>
    decreases |s|
  {
    if s == "" then None else if s[|s| - 1] == c then Some(|s| - 1) else LastIndex(s[..|s| - 1], c)
  }

  lemma {:induction false} LastIndexIn(s: string, c: char)
    ensures LastIndex(s, c).Some? ==> LastIndex(s, c).value < |s| && s[LastIndex(s, c).value] == c
    decreases |s|
  {
    if s != "" { LastIndexIn(s[..|s| - 1], c); }
  }

  /** Where a number goes: before the last dot of the name, or at the end. */
  function Cut(path: string): (k: nat)
    ensures k <= |path|
  {
    LastIndexIn(path, '/');
    var slash := LastIndex(path, '/');
    var start := if slash.None? then 0 else slash.value + 1;
    LastIndexIn(path[start..], '.');
    var dot := LastIndex(path[start..], '.');
    if dot.None? then |path| else start + dot.value
  }

  function Number(n: nat): string { " (" + Decimal(n) + ")" }

  function Candidate(path: string, n: nat): string {
    path[..Cut(path)] + Number(n) + path[Cut(path)..]
  }

  lemma {:induction false} CandidatesApart(path: string, m: nat, n: nat)
    requires Candidate(path, m) == Candidate(path, n)
    ensures m == n
  {
    var before, after := path[..Cut(path)] + " (", ")" + path[Cut(path)..];
    assert Candidate(path, m) == before + Decimal(m) + after && Candidate(path, n) == before + Decimal(n) + after;
    assert |Decimal(m)| == |Decimal(n)|;
    assert (before + Decimal(m) + after)[|before|..|before| + |Decimal(m)|] == Decimal(m);
    assert (before + Decimal(n) + after)[|before|..|before| + |Decimal(n)|] == Decimal(n);
    DecimalApart(m, n);
  }

  /** Different numbers give different candidates. */
  ghost predicate Apart(cand: nat -> string) { forall m, n :: cand(m) == cand(n) ==> m == n }

  lemma {:induction false} CandidateApart(path: string)
    ensures Apart((n: nat) => Candidate(path, n))
  {
    forall m, n | Candidate(path, m) == Candidate(path, n)
      ensures m == n
    {
      CandidatesApart(path, m, n);
    }
  }

  /** The taken paths that are no candidates below `n`. */
  ghost function Untried(cand: nat -> string, taken: set<string>, n: nat): set<string> {
    set c | c in taken && forall m: nat :: 2 <= m < n ==> cand(m) != c
  }

  lemma {:induction false} OneFewer(cand: nat -> string, taken: set<string>, n: nat)
    requires n >= 2 && cand(n) in taken && Apart(cand)
    ensures |Untried(cand, taken, n + 1)| < |Untried(cand, taken, n)|
  {
    var before, after := Untried(cand, taken, n), Untried(cand, taken, n + 1);
    assert cand(n) in before;
    assert after <= before - {cand(n)};
    Smaller(after, before - {cand(n)});
  }

  lemma {:induction false} Smaller<T>(a: set<T>, b: set<T>)
    requires a <= b
    ensures |a| <= |b|
    decreases |a|
  {
    if a != {} {
      var x :| x in a;
      Smaller(a - {x}, b - {x});
    }
  }

  /** The first number that makes a free path. There is one, since only finitely many are taken. */
  ghost function FirstFree(cand: nat -> string, taken: set<string>, n: nat): (k: nat)
    requires n >= 2 && Apart(cand)
    ensures k >= n && cand(k) !in taken && forall m :: n <= m < k ==> cand(m) in taken
    decreases |Untried(cand, taken, n)|
  {
    if cand(n) !in taken then n
    else
      OneFewer(cand, taken, n);
      FirstFree(cand, taken, n + 1)
  }

  ghost function FreePath(path: string, taken: set<string>): (free: string)
    ensures free !in taken
  {
    CandidateApart(path);
    if path !in taken then path else Candidate(path, FirstFree((n: nat) => Candidate(path, n), taken, 2))
  }

  method UniqueFilePath(path: string, taken: set<string>) returns (free: string)
    ensures free == FreePath(path, taken)
  {
    if path !in taken { return path; }
    ghost var cand := (n: nat) => Candidate(path, n);
    CandidateApart(path);
    var n := 2;
    while Candidate(path, n) in taken
      invariant n >= 2 && FirstFree(cand, taken, 2) == FirstFree(cand, taken, n)
      decreases |Untried(cand, taken, n)|
    {
      OneFewer(cand, taken, n);
      n := n + 1;
    }
    return Candidate(path, n);
  }

  // What a free path looks like.

  /** A folder, ending in a slash if there is one, a name, and what follows the name from its last dot on. */
  predicate IsPath(dir: string, stem: string, ext: string) {
    && (dir == "" || dir[|dir| - 1] == '/') && NoSlash(stem) && NoSlash(ext)
    && if ext == "" then '.' !in stem else ext[0] == '.' && '.' !in ext[1..]
  }

  lemma {:induction false} NoIndex(s: string, c: char)
    requires c !in s
    ensures LastIndex(s, c) == None
    decreases |s|
  {
    if s != "" { NoIndex(s[..|s| - 1], c); }
  }

  lemma {:induction false} SlashIs(dir: string, name: string)
    requires (dir == "" || dir[|dir| - 1] == '/') && NoSlash(name)
    ensures LastIndex(dir + name, '/') == if dir == "" then None else Some(|dir| - 1)
  {
    if dir == "" { NoIndex(dir + name, '/'); } else { LastIndexIs(dir + name, '/', |dir| - 1); }
  }

  lemma {:induction false} DotIs(stem: string, ext: string)
    requires if ext == "" then '.' !in stem else ext[0] == '.' && '.' !in ext[1..]
    ensures LastIndex(stem + ext, '.') == if ext == "" then None else Some(|stem|)
  {
    var name := stem + ext;
    if ext == "" {
      NoIndex(name, '.');
    } else {
      assert forall j :: |stem| < j < |name| ==> name[j] == ext[1..][j - |stem| - 1];
      LastIndexIs(name, '.', |stem|);
    }
  }

  lemma {:induction false} CutIs(dir: string, stem: string, ext: string)
    requires IsPath(dir, stem, ext)
    ensures Cut(dir + (stem + ext)) == |dir| + |stem|
  {
    var path, name := dir + (stem + ext), stem + ext;
    SlashIs(dir, name);
    DotIs(stem, ext);
    var start := if LastIndex(path, '/').None? then 0 else LastIndex(path, '/').value + 1;
    assert start == |dir| && path[start..] == name;
  }

  lemma {:induction false} CandidateIs(dir: string, stem: string, ext: string, n: nat)
    requires IsPath(dir, stem, ext)
    ensures Candidate(dir + stem + ext, n) == dir + stem + " (" + Decimal(n) + ")" + ext
  {
    var path, front := dir + stem + ext, dir + stem;
    assert path == dir + (stem + ext);
    CutIs(dir, stem, ext);
    assert path[..|front|] == front && path[|front|..] == ext;
    assert front + (" (" + Decimal(n) + ")") == front + " (" + Decimal(n) + ")";
  }

  /** The first free of the names numbered from two on. */
  ghost predicate FirstNumbered(free: string, taken: set<string>, name: nat -> string) {
    exists n: nat :: n >= 2 && free == name(n) && free !in taken && forall m: nat :: 2 <= m < n ==> name(m) in taken
  }

  lemma FirstFreeIs(cand: nat -> string, taken: set<string>, name: nat -> string)
    requires Apart(cand) && forall n :: cand(n) == name(n)
    ensures FirstNumbered(cand(FirstFree(cand, taken, 2)), taken, name)
  {
    var n := FirstFree(cand, taken, 2);
    assert n >= 2 && cand(n) == name(n);
  }

  /** The path itself if it is free; otherwise the first number that makes it free stands between brackets in front of
      the last dot of the name. */
  lemma {:induction false} FreePathIs(dir: string, stem: string, ext: string, taken: set<string>)
    requires IsPath(dir, stem, ext)
    ensures var path, free := dir + stem + ext, FreePath(dir + stem + ext, taken);
            if path !in taken then free == path
            else FirstNumbered(free, taken, (n: nat) => dir + stem + " (" + Decimal(n) + ")" + ext)
  {
    var path := dir + stem + ext;
    CandidateApart(path);
    forall n: nat { CandidateIs(dir, stem, ext, n); }
    FirstFreeIs((n: nat) => Candidate(path, n), taken, (n: nat) => dir + stem + " (" + Decimal(n) + ")" + ext);
  }

  // A renamed file never gets the path it came with.

  lemma {:induction false} LastIndexIs(s: string, c: char, i: nat)
    requires i < |s| && s[i] == c && forall j :: i < j < |s| ==> s[j] != c
    ensures LastIndex(s, c) == Some(i)
    decreases |s|
  {
    if i < |s| - 1 { LastIndexIs(s[..|s| - 1], c, i); }
  }

  lemma {:induction false} CutBeforeSuffix(head: string)
    ensures Cut(head + SUFFIX) == |head|
  {
    var path := head + SUFFIX;
    assert forall i :: 0 <= i < |SUFFIX| ==> path[|head| + i] == SUFFIX[i];
    LastIndexIn(path, '/');
    var slash := LastIndex(path, '/');
    var start := if slash.None? then 0 else slash.value + 1;
    LastIndexIs(path[start..], '.', |head| - start);
  }

  lemma {:induction false} NameCons(s: string)
    requires s != ""
    ensures NameOf(s) == if |Split(s[1..])| == 1 && s[0] != '/' then [s[0]] + NameOf(s[1..]) else NameOf(s[1..])
  {
  }

  lemma {:induction false} NameAppend(a: string, b: string)
    requires NoSlash(b)
    ensures NameOf(a + b) == NameOf(a) + b && |Split(a + b)| == |Split(a)|
    decreases |a|
  {
    if a == "" {
      SplitOne(b);
      assert a + b == b;
    } else {
      NameAppend(a[1..], b);
      assert (a + b)[1..] == a[1..] + b;
      assert [a[0]] + (NameOf(a[1..]) + b) == [a[0]] + NameOf(a[1..]) + b;
      NameCons(a);
      NameCons(a + b);
    }
  }

  lemma {:induction false} NameTrimmed(q: string)
    ensures Trim(NameOf(TrimStart(q))) == Trim(NameOf(q))
    decreases |q|
  {
    if q != "" && IsSpace(q[0]) {
      NameTrimmed(q[1..]);
      assert |Split(q[1..])| == 1 ==> NameOf(q)[1..] == NameOf(q[1..]);
    }
  }

  lemma {:induction false} NonEmptyLast(segs: seq<string>)
    requires segs != [] && segs[|segs| - 1] != ""
    ensures var r := NonEmpty(segs); r != [] && r[|r| - 1] == segs[|segs| - 1]
  {
    if |segs| > 1 { NonEmptyLast(segs[1..]); }
  }

  lemma {:induction false} TrimmedName(head: string)
    ensures var t := Trim(head + SUFFIX); NameOf(t) != "" && Trim(NameOf(t)) == Trim(NameOf(head) + SUFFIX)
  {
    var t := Trim(head + SUFFIX);
    TrimStartKeepsEnd(head);
    var h := t[..|t| - |SUFFIX|];
    assert t == h + SUFFIX;
    SuffixNoSlash();
    NameAppend(h, SUFFIX);
    NameAppend(head, SUFFIX);
    NameTrimmed(head + SUFFIX);
  }

  /** The name of the cleaned path comes from the name of the path alone. */
  lemma {:induction false} CleanName(head: string)
    requires NormalizePath(head + SUFFIX).Some?
    ensures NameOf(NormalizePath(head + SUFFIX).value) == EnsureSuffix(NameOf(head) + SUFFIX)
  {
    var q := head + SUFFIX;
    var t := Trim(q);
    TrimmedName(head);
    NonEmptyLast(Split(t));
    SameTrim(NameOf(t), NameOf(head) + SUFFIX);
    CleanedName(q);
  }

  lemma {:induction false} SameTrim(a: string, b: string)
    requires Trim(a) == Trim(b)
    ensures EnsureSuffix(a) == EnsureSuffix(b)
  {
  }

  lemma {:induction false} SuffixNoSlash()
    ensures NoSlash(SUFFIX)
  {
    assert forall i :: 0 <= i < |SUFFIX| ==> SUFFIX[i] != '/';
  }

  lemma {:induction false} CleanedName(raw: string)
    requires NormalizePath(raw).Some?
    ensures var segs, q := NonEmpty(Split(Trim(raw))), NormalizePath(raw).value;
            && NameOf(q) == EnsureSuffix(segs[|segs| - 1])
            && |q| >= |SUFFIX| && q == q[..|q| - |SUFFIX|] + SUFFIX
            && NameOf(q[..|q| - |SUFFIX|]) == StripSuffix(segs[|segs| - 1])
  {
    var segs, q := NonEmpty(Split(Trim(raw))), NormalizePath(raw).value;
    SplitNoSlash(Trim(raw));
    NonEmptyClean(Split(Trim(raw)));
    CleanSegments(segs);
    var stem := StripSuffix(segs[|segs| - 1]);
    SuffixAtEnd(WithSuffix(segs), stem);
    SuffixNoSlash();
    NameAppend(q[..|q| - |SUFFIX|], SUFFIX);
    var n := NameOf(q[..|q| - |SUFFIX|]);
    assert stem + SUFFIX == n + SUFFIX;
    assert |stem| == |n| && stem == (stem + SUFFIX)[..|stem|] && n == (n + SUFFIX)[..|stem|];
  }

  lemma {:induction false} TrimStartKeepsEnd(head: string)
    ensures var t := TrimStart(head + SUFFIX);
            |t| >= |SUFFIX| && t[|t| - |SUFFIX|..] == SUFFIX && Trim(head + SUFFIX) == t
  {
    if head != "" && IsSpace(head[0]) {
      TrimStartKeepsEnd(head[1..]);
      assert (head + SUFFIX)[1..] == head[1..] + SUFFIX;
    } else {
      var s := head + SUFFIX;
      assert head == "" ==> s[0] == SUFFIX[0];
      assert s[|s| - 1] == SUFFIX[5];
    }
  }

  lemma {:induction false} SuffixAtEnd(segs: seq<string>, stem: string)
    requires segs != [] && segs[|segs| - 1] == stem + SUFFIX
    ensures var q := Join(segs); |q| >= |SUFFIX| && q == q[..|q| - |SUFFIX|] + SUFFIX
    decreases |segs|
  {
    var q := Join(segs);
    if |segs| > 1 {
      SuffixAtEnd(segs[1..], stem);
      var tail := Join(segs[1..]);
      assert q == segs[0] + "/" + tail;
      assert q[..|q| - |SUFFIX|] == segs[0] + "/" + tail[..|tail| - |SUFFIX|];
    }
  }

  lemma {:induction false} DecimalNoSlash(n: nat)
    ensures NoSlash(Decimal(n))
  {
    if n >= 10 { DecimalNoSlash(n / 10); }
  }

  lemma {:induction false} NumberShows(stem: string, n: nat)
    requires stem == "" || !IsSpace(stem[0])
    ensures |EnsureSuffix(stem + Number(n) + SUFFIX)| > |stem + SUFFIX|
  {
    var full := stem + Number(n) + SUFFIX;
    if stem == "" {
      var bare := Number(n)[1..];
      assert full[1..] == bare + SUFFIX && IsSpace(full[0]);
      assert bare[0] == '(' && !IsSpace((bare + SUFFIX)[0]);
      assert Trim(full) == Trim(bare + SUFFIX);
      SuffixedShape(bare);
    } else {
      SuffixedShape(stem + Number(n));
    }
  }

  lemma {:induction false} RenamedApart(raw: string, cleaned: string, taken: set<string>)
    requires Clean(raw) == Some(cleaned) && cleaned in taken
    ensures FreePath(cleaned, taken) != raw
  {
    CandidateApart(cleaned);
    var n := FirstFree((k: nat) => Candidate(cleaned, k), taken, 2);
    if InFolder(raw, SNAPSHOTS) {
      assert |Candidate(cleaned, n)| > |raw|;
    } else {
      CandidateNew(raw, cleaned, n);
    }
  }

  lemma {:induction false} CandidateNew(raw: string, cleaned: string, n: nat)
    requires NormalizePath(raw) == Some(cleaned)
    ensures Candidate(cleaned, n) != raw
  {
    CleanedName(raw);
    var segs := NonEmpty(Split(Trim(raw)));
    StemShape(segs[|segs| - 1]);
    if Candidate(cleaned, n) == raw { NumberedName(raw, cleaned[..|cleaned| - |SUFFIX|], n); }
  }

  lemma {:induction false} NumberedName(raw: string, head: string, n: nat)
    requires Candidate(head + SUFFIX, n) == raw && (NameOf(head) != "" ==> !IsSpace(NameOf(head)[0]))
    ensures NormalizePath(raw) != Some(head + SUFFIX)
  {
    CutBeforeSuffix(head);
    assert raw == head + Number(n) + SUFFIX;
    DecimalNoSlash(n);
    NameAppend(head, Number(n));
    if NormalizePath(raw).Some? {
      CleanName(head + Number(n));
      NumberShows(NameOf(head), n);
      SuffixNoSlash();
      NameAppend(head, SUFFIX);
    }
  }

  // The paths that cleaning leaves alone.

  predicate EndsInSuffixOf(path: string) { |path| >= |SUFFIX| && path[|path| - |SUFFIX|..] == SUFFIX }

  /** A path that cleaning leaves alone: in the snapshots folder, or with its suffix and no space in front of the path
      or of the name. */
  predicate Steady(path: string) {
    || InFolder(path, SNAPSHOTS)
    || (EndsInSuffixOf(path) && !IsSpace(path[0]) && NameOf(path) != "" && !IsSpace(NameOf(path)[0]))
  }

  /** What the normal form makes of the paths outside the snapshots folder. */
  predicate Shaped(path: string) {
    "" !in Split(path) && ".." !in Split(path) && EndsInSuffixOf(path)
  }

  lemma {:induction false} CleanedShaped(raw: string)
    requires NormalizePath(raw).Some?
    ensures Shaped(NormalizePath(raw).value)
  {
    var segs := NonEmpty(Split(Trim(raw)));
    SplitNoSlash(Trim(raw));
    NonEmptyClean(Split(Trim(raw)));
    CleanSegments(segs);
    CleanedName(raw);
    EndsAgain(NormalizePath(raw).value);
  }

  lemma {:induction false} EndsAgain(q: string)
    requires |q| >= |SUFFIX| && q == q[..|q| - |SUFFIX|] + SUFFIX
    ensures EndsInSuffixOf(q)
  {
  }

  lemma {:induction false} SplitAppend(a: string, b: string)
    requires NoSlash(b)
    ensures Split(a + b) == Upto(Split(a)) + [NameOf(a) + b]
    decreases |a|
  {
    if a == "" {
      SplitOne(b);
      assert a + b == b;
    } else {
      var x, rest := a[0], Split(a[1..]);
      SplitAppend(a[1..], b);
      assert (a + b)[1..] == a[1..] + b && (a + b)[0] == x;
      AppendLast(x, rest, b);
    }
  }

  function Upto(segs: seq<string>): seq<string>
    requires segs != []
  {
    segs[..|segs| - 1]
  }

  lemma {:induction false} AppendLast(x: char, rest: seq<string>, b: string)
    requires rest != []
    ensures var segs := [[x] + rest[0]] + rest[1..]; var more := Upto(rest) + [rest[|rest| - 1] + b];
            [[x] + more[0]] + more[1..] == Upto(segs) + [segs[|segs| - 1] + b]
    ensures var segs := [""] + rest; [""] + (Upto(rest) + [rest[|rest| - 1] + b]) == Upto(segs) + [segs[|segs| - 1] + b]
  {
    assert [x] + (rest[0] + b) == [x] + rest[0] + b;
  }

  lemma {:induction false} NumberedShaped(head: string, n: nat)
    requires Shaped(head + SUFFIX)
    ensures Shaped(Candidate(head + SUFFIX, n))
  {
    CutBeforeSuffix(head);
    var tail := Number(n) + SUFFIX;
    assert Candidate(head + SUFFIX, n) == head + tail;
    DecimalNoSlash(n);
    SuffixNoSlash();
    SplitAppend(head, tail);
    SplitAppend(head, SUFFIX);
    var more := Split(head + tail);
    forall s | s in more
      ensures s != "" && s != ".."
    {
      if s in Split(head)[..|Split(head)| - 1] {
        assert s in Split(head + SUFFIX);
      } else {
        assert s == NameOf(head) + tail && |tail| > 2;
      }
    }
    assert (head + tail)[|head + tail| - |SUFFIX|..] == SUFFIX;
  }

  lemma {:induction false} ShapedClean(head: string)
    requires Shaped(head + SUFFIX) && !IsSpace((head + SUFFIX)[0])
    ensures Upto(Split(head + SUFFIX)) + [EnsureSuffix(NameOf(head) + SUFFIX)] == WithSuffix(Split(head + SUFFIX))
    ensures NormalizePath(head + SUFFIX) == Some(Join(WithSuffix(Split(head + SUFFIX))))
  {
    var q := head + SUFFIX;
    EndsInSuffix(head);
    TrimNoop(q);
    NonEmptyNoop(Split(q));
    SuffixNoSlash();
    SplitAppend(head, SUFFIX);
  }

  /** A shaped path is left alone exactly if it is steady. */
  lemma {:induction false} ShapedSteady(q: string)
    requires Shaped(q) && !InFolder(q, SNAPSHOTS)
    ensures Clean(q) == Some(q) <==> Steady(q)
  {
    var head := q[..|q| - |SUFFIX|];
    assert q == head + SUFFIX;
    EndsInSuffix(head);
    SuffixNoSlash();
    SplitAppend(head, SUFFIX);
    if IsSpace(q[0]) {
      SpaceInFront(q);
    } else {
      ShapedClean(head);
      SplitNoSlash(q);
      JoinSplit(q);
      if IsSpace(NameOf(q)[0]) {
        EnsuredSegment(NameOf(q));
        SplitJoin(WithSuffix(Split(q)));
      } else {
        SuffixedShape(NameOf(head));
      }
    }
  }

  lemma {:induction false} InSnapshots(path: string)
    requires InFolder(path, SNAPSHOTS)
    ensures Clean(path) == Some(path)
  {
    assert path[0] == SNAPSHOTS[0] == '.';
    TrimStartTrimmed(path);
    TrimEndKeepsStart(path);
  }

  lemma {:induction false} TrimEndKeepsStart(s: string)
    requires s != "" && !IsSpace(s[0])
    ensures TrimEnd(s) != ""
    decreases |s|
  {
    if IsSpace(s[|s| - 1]) { TrimEndKeepsStart(s[..|s| - 1]); }
  }

  /** A file numbered next to one in the snapshots folder is in that folder too, unless the path is the folder. */
  lemma {:induction false} NumberedSnapshot(path: string, n: nat)
    requires InFolder(path, SNAPSHOTS)
    ensures var c := Candidate(path, n);
            if path == SNAPSHOTS then c == SNAPSHOTS + Number(n) && !EndsInSuffixOf(c) && !InFolder(c, SNAPSHOTS)
            else InFolder(c, SNAPSHOTS)
  {
    var k := Cut(path);
    var c := Candidate(path, n);
    if path == SNAPSHOTS {
      SnapshotsCut();
      assert c[|c| - 1] == ')' && c[|c| - |SUFFIX|..][5] == ')';
      assert c[|SNAPSHOTS|] == ' ' && (SNAPSHOTS + "/")[|SNAPSHOTS|] == '/';
    } else {
      CutInName(path, |SNAPSHOTS|);
      assert c[..|SNAPSHOTS| + 1] == path[..|SNAPSHOTS| + 1] == SNAPSHOTS + "/";
    }
  }

  lemma {:induction false} CutInName(path: string, i: nat)
    requires i < |path| && path[i] == '/'
    ensures Cut(path) > i
  {
    LastIndexIn(path, '/');
    SlashBehind(path, i);
  }

  lemma {:induction false} SlashBehind(path: string, i: nat)
    requires i < |path| && path[i] == '/'
    ensures LastIndex(path, '/').Some? && LastIndex(path, '/').value >= i
    decreases |path|
  {
    if path[|path| - 1] != '/' { SlashBehind(path[..|path| - 1], i); }
  }

  lemma {:induction false} SnapshotsCut()
    ensures Cut(SNAPSHOTS) == |SNAPSHOTS|
  {
    var p := SNAPSHOTS;
    var i := |PLAYGROUND|;
    assert p[i] == '/' && p[i + 1..] == "snapshots";
    assert forall j :: i < j < |p| ==> p[j] == p[i + 1..][j - i - 1];
    LastIndexIs(p, '/', i);
    NoneIn("snapshots", '.');
  }

  lemma {:induction false} NoneIn(s: string, c: char)
    requires c !in s
    ensures LastIndex(s, c) == None
  {
    LastIndexIn(s, c);
  }

  /** A path of the normal form is left alone exactly if it is steady. */
  lemma {:induction false} FreeSteady(raw: string, taken: set<string>)
    requires Clean(raw).Some?
    ensures var q := FreePath(Clean(raw).value, taken); Clean(q) == Some(q) <==> Steady(q)
  {
    var c := Clean(raw).value;
    var q := FreePath(c, taken);
    CandidateApart(c);
    var n := FirstFree((k: nat) => Candidate(c, k), taken, 2);
    if InFolder(q, SNAPSHOTS) {
      InSnapshots(q);
    } else if InFolder(raw, SNAPSHOTS) {
      assert q == Candidate(raw, n);
      NumberedSnapshot(raw, n);
      if NormalizePath(q).Some? { CleanedShaped(q); }
    } else {
      CleanedShaped(raw);
      var head := c[..|c| - |SUFFIX|];
      assert c == head + SUFFIX;
      NumberedShaped(head, n);
      ShapedSteady(q);
    }
  }

  // A number in the path.

  /** A path that becomes unsteady with a number in it: the snapshots folder itself, or nothing before the suffix. */
  predicate Fragile(path: string) {
    || path == SNAPSHOTS
    || (!InFolder(path, SNAPSHOTS) && EndsInSuffixOf(path) && NameOf(path[..|path| - |SUFFIX|]) == "")
  }

  /** With a number in it, a clean path is steady exactly if it was so without, and is not fragile. It is not fragile
      any more. */
  lemma {:induction false} NumberedSteady(raw: string, n: nat)
    requires Clean(raw).Some?
    ensures var c := Clean(raw).value; var d := Candidate(c, n);
            (Steady(d) <==> Steady(c) && !Fragile(c)) && !Fragile(d)
  {
    var c := Clean(raw).value;
    if InFolder(c, SNAPSHOTS) {
      NumberedInside(c, n);
    } else {
      var head := CleanedHead(raw);
      NumberedOutside(head, n);
    }
  }

  lemma CleanedHead(raw: string) returns (head: string)
    requires Clean(raw).Some? && !InFolder(Clean(raw).value, SNAPSHOTS)
    ensures Clean(raw).value == head + SUFFIX
  {
    if InFolder(raw, SNAPSHOTS) { InSnapshots(raw); }
    CleanedShaped(raw);
    var c := Clean(raw).value;
    head := c[..|c| - |SUFFIX|];
  }

  lemma NumberedInside(c: string, n: nat)
    requires InFolder(c, SNAPSHOTS)
    ensures var d := Candidate(c, n); (Steady(d) <==> Steady(c) && !Fragile(c)) && !Fragile(d)
  {
    NumberedSnapshot(c, n);
    assert |Candidate(c, n)| > |c|;
  }

  lemma {:induction false} NumberedOutside(head: string, n: nat)
    requires !InFolder(head + SUFFIX, SNAPSHOTS)
    ensures var c := head + SUFFIX; var d := Candidate(c, n);
            (Steady(d) <==> Steady(c) && !Fragile(c)) && !Fragile(d)
  {
    var more := head + Number(n);
    CutBeforeSuffix(head);
    assert Candidate(head + SUFFIX, n) == more + SUFFIX == head + (Number(n) + SUFFIX);
    DecimalNoSlash(n);
    NumberNoSlash(n);
    StaysOutside(head, SUFFIX, Number(n) + SUFFIX);
    NameAppend(head, Number(n));
    SuffixedSteady(head);
    SuffixedSteady(more);
    FirstChars(head, n);
  }

  lemma NumberNoSlash(n: nat)
    ensures NoSlash(Number(n)) && NoSlash(Number(n) + SUFFIX)
  {
    DecimalNoSlash(n);
    SuffixNoSlash();
  }

  lemma FirstChars(head: string, n: nat)
    ensures var name := NameOf(head); var more := name + Number(n);
            && more != ""
            && (name == "" ==> IsSpace((more + SUFFIX)[0]))
            && (name != "" ==> (more + SUFFIX)[0] == (name + SUFFIX)[0] &&
                               (head + Number(n) + SUFFIX)[0] == (head + SUFFIX)[0])
  {
    if NameOf(head) != "" { assert head != ""; }
  }

  lemma SuffixedSteady(head: string)
    requires !InFolder(head + SUFFIX, SNAPSHOTS)
    ensures Steady(head + SUFFIX) <==> !IsSpace((head + SUFFIX)[0]) && !IsSpace((NameOf(head) + SUFFIX)[0])
    ensures Fragile(head + SUFFIX) <==> NameOf(head) == ""
  {
    var q := head + SUFFIX;
    SuffixNoSlash();
    NameAppend(head, SUFFIX);
    assert q[|q| - |SUFFIX|..] == SUFFIX && q[..|q| - |SUFFIX|] == head;
  }

  /** No slash, no other folder. */
  lemma StaysOutside(head: string, a: string, b: string)
    requires !InFolder(head + a, SNAPSHOTS) && NoSlash(b) && b != "" && b[|b| - 1] == 'a'
    ensures !InFolder(head + b, SNAPSHOTS)
  {
    var d, folder := head + b, SNAPSHOTS + "/";
    assert SNAPSHOTS[|SNAPSHOTS| - 1] == 's' && d[|d| - 1] == 'a' && folder[|folder| - 1] == '/';
    if |folder| <= |head| {
      assert d[..|folder|] == (head + a)[..|folder|];
    } else if |folder| <= |d| {
      assert d[|folder| - 1] == b[|folder| - 1 - |head|];
    }
  }
}
