/** Paths: segments, suffixes, and the folders that are set apart. */
module Paths {

  // Segments.

  predicate NoSlash(s: string) { '/' !in s }

  function Split(s: string): (segs: seq<string>)
    ensures |segs| > 0
    decreases |s|
  {
    if s == "" then [""]
    else
      var rest := Split(s[1..]);
      if s[0] == '/' then [""] + rest else [[s[0]] + rest[0]] + rest[1..]
  }

  function Join(segs: seq<string>): string
    decreases |segs|
  {
    if segs == [] then "" else if |segs| == 1 then segs[0] else segs[0] + "/" + Join(segs[1..])
  }

  predicate AllNoSlash(segs: seq<string>) { forall i :: 0 <= i < |segs| ==> NoSlash(segs[i]) }

  lemma {:induction false} SplitNoSlash(s: string)
    ensures AllNoSlash(Split(s))
    decreases |s|
  {
    if s != "" { SplitNoSlash(s[1..]); }
  }

  lemma {:induction false} JoinSplit(s: string)
    ensures Join(Split(s)) == s
    decreases |s|
  {
    if s != "" {
      var rest := Split(s[1..]);
      JoinSplit(s[1..]);
      assert s == [s[0]] + s[1..];
      if s[0] == '/' {
        assert Split(s)[1..] == rest;
        assert Join(Split(s)) == "" + "/" + Join(rest);
      } else if |rest| > 1 {
        assert Split(s)[1..] == rest[1..];
        assert [s[0]] + rest[0] + "/" + Join(rest[1..]) == [s[0]] + (rest[0] + "/" + Join(rest[1..]));
      }
    }
  }

  lemma {:induction false} SplitConcat(a: string, b: string)
    ensures Split(a + "/" + b) == Split(a) + Split(b)
    decreases |a|
  {
    if a == "" {
      assert "" + "/" + b == "/" + b && ("/" + b)[1..] == b;
    } else {
      assert (a + "/" + b)[1..] == a[1..] + "/" + b;
      SplitConcat(a[1..], b);
    }
  }

  lemma {:induction false} SplitOne(s: string)
    requires NoSlash(s)
    ensures Split(s) == [s]
    decreases |s|
  {
    if s != "" {
      assert s == [s[0]] + s[1..];
      SplitOne(s[1..]);
    }
  }

  lemma {:induction false} SplitJoin(segs: seq<string>)
    requires segs != [] && AllNoSlash(segs)
    ensures Split(Join(segs)) == segs
    decreases |segs|
  {
    SplitOne(segs[0]);
    if |segs| > 1 {
      SplitJoin(segs[1..]);
      SplitConcat(segs[0], Join(segs[1..]));
      assert segs == [segs[0]] + segs[1..];
    } else {
      assert segs == [segs[0]];
    }
  }

  function NonEmpty(segs: seq<string>): seq<string> {
    if segs == [] then [] else (if segs[0] == "" then [] else [segs[0]]) + NonEmpty(segs[1..])
  }

  lemma {:induction false} NonEmptyNoop(segs: seq<string>)
    requires "" !in segs
    ensures NonEmpty(segs) == segs
  {
    if segs != [] { NonEmptyNoop(segs[1..]); assert segs == [segs[0]] + segs[1..]; }
  }

  lemma {:induction false} NonEmptyClean(segs: seq<string>)
    requires AllNoSlash(segs)
    ensures AllNoSlash(NonEmpty(segs)) && "" !in NonEmpty(segs)
  {
    if segs != [] { NonEmptyClean(segs[1..]); }
  }

  lemma {:induction false} JoinSnoc(segs: seq<string>, last: string)
    requires segs != []
    ensures Join(segs + [last]) == Join(segs) + "/" + last
    decreases |segs|
  {
    assert (segs + [last])[1..] == segs[1..] + [last];
    if |segs| > 1 {
      JoinSnoc(segs[1..], last);
    } else {
      assert segs[1..] + [last] == [last];
    }
  }

  // Suffixes.

  predicate IsSpace(c: char) {
    c in {' ', '\t', '\n', '\r', '\U{000B}', '\U{000C}', '\U{00A0}', '\U{1680}', '\U{2028}', '\U{2029}', '\U{202F}',
          '\U{205F}', '\U{3000}', '\U{FEFF}'} || '\U{2000}' <= c <= '\U{200A}'
  }

  function TrimStart(s: string): string { if s != "" && IsSpace(s[0]) then TrimStart(s[1..]) else s }

  function TrimEnd(s: string): string
    decreases |s|
  {
    if s != "" && IsSpace(s[|s| - 1]) then TrimEnd(s[..|s| - 1]) else s
  }

  function Trim(s: string): string { TrimEnd(TrimStart(s)) }

  const SUFFIX := ".dvala"

  /** The suffix in any case. */
  predicate IsSuffix(t: string) {
    && |t| == |SUFFIX| && t[0] == '.'
    && t[1] in {'d', 'D'} && t[2] in {'v', 'V'} && t[3] in {'a', 'A'} && t[4] in {'l', 'L'} && t[5] in {'a', 'A'}
  }

  predicate HasSuffix(s: string) { |s| >= |SUFFIX| && IsSuffix(s[|s| - |SUFFIX|..]) }

  /** The name without its suffix, in whatever case, and without space around. */
  function StripSuffix(name: string): string {
    var t := Trim(name);
    if HasSuffix(t) then t[..|t| - |SUFFIX|] else t
  }

  function EnsureSuffix(name: string): string { StripSuffix(name) + SUFFIX }

  // Folders.

  const PLAYGROUND := ".dvala-playground"

  const SNAPSHOTS := PLAYGROUND + "/snapshots"

  predicate InFolder(path: string, folder: string) { path == folder || folder + "/" <= path }

  lemma {:induction false} JoinBoth(a: seq<string>, b: seq<string>)
    requires a != [] && b != []
    ensures Join(a + b) == Join(a) + "/" + Join(b)
    decreases |a|
  {
    assert (a + b)[1..] == a[1..] + b && (a + b)[0] == a[0];
    if |a| > 1 {
      JoinBoth(a[1..], b);
      assert a[0] + "/" + (Join(a[1..]) + "/" + Join(b)) == (a[0] + "/" + Join(a[1..])) + "/" + Join(b);
    } else {
      assert a[1..] + b == b;
    }
  }

  /** The segments of the folder come first in the path. */
  lemma {:induction false} InFolderMeans(path: string, folder: string)
    ensures InFolder(path, folder) <==> Split(folder) <= Split(path)
  {
    if folder + "/" <= path {
      var rest := path[|folder| + 1..];
      assert path == folder + "/" + rest;
      SplitConcat(folder, rest);
    }
    if Split(folder) <= Split(path) { SegmentsFirst(path, folder); }
  }

  lemma {:induction false} SegmentsFirst(path: string, folder: string)
    requires Split(folder) <= Split(path)
    ensures InFolder(path, folder)
  {
    var a, b := Split(folder), Split(path)[|Split(folder)|..];
    JoinSplit(path);
    JoinSplit(folder);
    assert Split(path) == a + b;
    if b == [] {
      assert a + b == a;
    } else {
      JoinBoth(a, b);
      assert path == folder + "/" + Join(b);
      assert (folder + "/") <= (folder + "/") + Join(b);
    }
  }

  /** Everything before the last slash. */
  function FolderOf(path: string): string { Join(Split(path)[..|Split(path)| - 1]) }

  function NameOf(path: string): string { Split(path)[|Split(path)| - 1] }

  lemma {:induction false} TrimEndPrefix(s: string)
    ensures TrimEnd(s) <= s && (TrimEnd(s) != "" ==> !IsSpace(TrimEnd(s)[|TrimEnd(s)| - 1]))
    decreases |s|
  {
    if s != "" && IsSpace(s[|s| - 1]) { TrimEndPrefix(s[..|s| - 1]); }
  }

  lemma {:induction false} TrimStartTrimmed(s: string)
    ensures (TrimStart(s) != "" ==> !IsSpace(TrimStart(s)[0])) && |TrimStart(s)| <= |s|
    ensures s == "" || !IsSpace(s[0]) ==> TrimStart(s) == s
    ensures NoSlash(s) ==> NoSlash(TrimStart(s))
  {
    if s != "" && IsSpace(s[0]) {
      TrimStartTrimmed(s[1..]);
      assert NoSlash(s) ==> NoSlash(s[1..]);
    }
  }

  lemma {:induction false} StemShape(name: string)
    ensures var stem := StripSuffix(name); stem != "" ==> !IsSpace(stem[0])
    ensures NoSlash(name) ==> NoSlash(StripSuffix(name))
  {
    TrimStartTrimmed(name);
    TrimEndPrefix(TrimStart(name));
    var t := Trim(name);
    assert t <= TrimStart(name) && StripSuffix(name) <= t;
  }

  lemma {:induction false} TrimNoop(s: string)
    requires s != "" && !IsSpace(s[0]) && !IsSpace(s[|s| - 1])
    ensures Trim(s) == s
  {
  }

  lemma {:induction false} SuffixedShape(stem: string)
    requires stem != "" ==> !IsSpace(stem[0])
    ensures StripSuffix(stem + SUFFIX) == stem
  {
    var full := stem + SUFFIX;
    EndsInSuffix(stem);
    assert full[0] == if stem == "" then '.' else stem[0];
    TrimNoop(full);
  }

  lemma {:induction false} EndsInSuffix(stem: string)
    ensures var full := stem + SUFFIX;
            HasSuffix(full) && full[..|full| - |SUFFIX|] == stem && full[|full| - 1] == 'a'
  {
    var full := stem + SUFFIX;
    assert full[|full| - |SUFFIX|..] == SUFFIX;
  }

  /** Adding the suffix once is enough. */
  lemma {:induction false} EnsureTwice(name: string)
    ensures EnsureSuffix(EnsureSuffix(name)) == EnsureSuffix(name) &&
            StripSuffix(EnsureSuffix(name)) == StripSuffix(name)
  {
    StemShape(name);
    SuffixedShape(StripSuffix(name));
  }
}
