/** Import paths: how they are resolved, and the labels that are offered for them. */
module ImportPaths {
  import opened Options
  import opened Paths

  // Resolution.

  /** The stack machine: empty segments and dots do nothing, two dots pop, anything else is pushed. */
  function Walk(stack: seq<string>, segs: seq<string>): Option<seq<string>>
    decreases |segs|
  {
    if segs == [] then Some(stack)
    else if segs[0] == "" || segs[0] == "." then Walk(stack, segs[1..])
    else if segs[0] == ".." then if stack == [] then None else Walk(stack[..|stack| - 1], segs[1..])
    else Walk(stack + [segs[0]], segs[1..])
  }

  predicate IsAbsolute(path: string) { path != "" && path[0] == '/' }

  function Base(fromDir: string): seq<string> { if fromDir == "" then [] else NonEmpty(Split(fromDir)) }

  function Segments(fromDir: string, path: string): Option<seq<string>> {
    Walk(if IsAbsolute(path) then [] else Base(fromDir), Split(path))
  }

  function Resolve(fromDir: string, path: string): Option<string> {
    var segs := Segments(fromDir, path);
    if segs.None? then None else Some(Join(segs.value))
  }

  /** A path that climbs past the root has no resolution. */
  method ResolvePlaygroundPath(fromDir: string, importPath: string) returns (resolved: Option<string>)
    ensures resolved == Resolve(fromDir, importPath)
  {
    var segments := if IsAbsolute(importPath) || fromDir == "" then [] else NonEmpty(Split(fromDir));
    var importSegments := Split(importPath);
    var i := 0;
    while i < |importSegments|
      invariant 0 <= i <= |importSegments|
      invariant Segments(fromDir, importPath) == Walk(segments, importSegments[i..])
    {
      var seg := importSegments[i];
      WalkAt(segments, importSegments, i);
      if seg == ".." {
        if segments == [] { return None; }
        segments := segments[..|segments| - 1];
      } else if seg != "" && seg != "." {
        segments := segments + [seg];
      }
      i := i + 1;
    }
    return Some(Join(segments));
  }

  lemma WalkAt(stack: seq<string>, segs: seq<string>, i: nat)
    requires i < |segs|
    ensures var seg, rest := segs[i], segs[i + 1..];
            Walk(stack, segs[i..]) ==
            if seg == "" || seg == "." then Walk(stack, rest)
            else if seg == ".." then if stack == [] then None else Walk(stack[..|stack| - 1], rest)
            else Walk(stack + [seg], rest)
  {
    assert segs[i..][1..] == segs[i + 1..];
  }

  lemma {:induction false} WalkConcat(stack: seq<string>, a: seq<string>, b: seq<string>)
    ensures Walk(stack, a + b) == var mid := Walk(stack, a); if mid.None? then None else Walk(mid.value, b)
    decreases |a|
  {
    if a == [] {
      assert a + b == b;
    } else {
      assert (a + b)[1..] == a[1..] + b;
      if a[0] == "" || a[0] == "." {
        WalkConcat(stack, a[1..], b);
      } else if a[0] == ".." {
        if stack != [] { WalkConcat(stack[..|stack| - 1], a[1..], b); }
      } else {
        WalkConcat(stack + [a[0]], a[1..], b);
      }
    }
  }

  predicate Plain(seg: string) { seg != "" && seg != "." && seg != ".." && NoSlash(seg) }

  predicate AllPlain(segs: seq<string>) { forall i :: 0 <= i < |segs| ==> Plain(segs[i]) }

  /** What is pushed is plain, so that only the base can bring in dots. */
  lemma {:induction false} WalkPlain(stack: seq<string>, segs: seq<string>)
    requires AllPlain(stack) && AllNoSlash(segs)
    ensures Walk(stack, segs).Some? ==> AllPlain(Walk(stack, segs).value)
    decreases |segs|
  {
    if segs != [] {
      if segs[0] == "" || segs[0] == "." {
        WalkPlain(stack, segs[1..]);
      } else if segs[0] == ".." {
        if stack != [] { WalkPlain(stack[..|stack| - 1], segs[1..]); }
      } else {
        WalkPlain(stack + [segs[0]], segs[1..]);
      }
    }
  }

  lemma {:induction false} WalkNoSlash(stack: seq<string>, segs: seq<string>)
    requires AllNoSlash(stack) && AllNoSlash(segs) && "" !in stack
    ensures Walk(stack, segs).Some? ==> AllNoSlash(Walk(stack, segs).value) && "" !in Walk(stack, segs).value
    decreases |segs|
  {
    if segs != [] {
      if segs[0] == "" || segs[0] == "." {
        WalkNoSlash(stack, segs[1..]);
      } else if segs[0] == ".." {
        if stack != [] { WalkNoSlash(stack[..|stack| - 1], segs[1..]); }
      } else {
        WalkNoSlash(stack + [segs[0]], segs[1..]);
      }
    }
  }

  predicate NoDots(segs: seq<string>) { forall i :: 0 <= i < |segs| ==> segs[i] != "." && segs[i] != ".." }

  lemma {:induction false} NonEmptyPlain(segs: seq<string>)
    requires AllNoSlash(segs) && NoDots(segs)
    ensures AllPlain(NonEmpty(segs))
  {
    if segs != [] { NonEmptyPlain(segs[1..]); }
  }

  lemma {:induction false} BaseOfJoin(segs: seq<string>)
    requires AllNoSlash(segs) && "" !in segs
    ensures Base(Join(segs)) == segs
  {
    if segs != [] {
      assert segs[0] in segs;
      SplitJoin(segs);
      NonEmptyNoop(segs);
    }
  }

  /** Resolving `p/q` is resolving `q` from where `p` leads. */
  lemma {:induction false} ResolveConcat(dir: string, p: string, q: string)
    requires p != "" && !IsAbsolute(q)
    ensures Resolve(dir, p + "/" + q) == var mid := Resolve(dir, p); if mid.None? then None else Resolve(mid.value, q)
  {
    var start := if IsAbsolute(p) then [] else Base(dir);
    SplitNoSlash(dir);
    SplitNoSlash(p);
    NonEmptyClean(Split(dir));
    assert (p + "/" + q)[0] == p[0];
    SplitConcat(p, q);
    WalkConcat(start, Split(p), Split(q));
    WalkNoSlash(start, Split(p));
    var mid := Walk(start, Split(p));
    if mid.Some? { BaseOfJoin(mid.value); }
  }

  /** A resolution from a folder without dots, or from the root, has none either. */
  lemma {:induction false} ResolvePlain(dir: string, path: string)
    requires IsAbsolute(path) || NoDots(Split(dir))
    ensures Segments(dir, path).Some? ==> AllPlain(Segments(dir, path).value)
  {
    SplitNoSlash(dir);
    SplitNoSlash(path);
    NonEmptyClean(Split(dir));
    var start := if IsAbsolute(path) then [] else Base(dir);
    if !IsAbsolute(path) { NonEmptyPlain(Split(dir)); }
    WalkPlain(start, Split(path));
  }

  // Labels.

  /** The folder of the current file; without one, imports start at the root. */
  function FolderSegments(from: Option<string>): seq<string> {
    if from.None? || FolderOf(from.value) == "" then [] else Split(FolderOf(from.value))
  }

  function FolderOfFile(from: Option<string>): string { if from.None? then "" else FolderOf(from.value) }

  /** How many segments two folders have in common from the root. */
  function Shared(a: seq<string>, b: seq<string>): (k: nat)
    ensures k <= |a| && k <= |b| && a[..k] == b[..k]
    ensures k < |a| && k < |b| ==> a[k] != b[k]
  {
    if a == [] || b == [] || a[0] != b[0] then 0 else 1 + Shared(a[1..], b[1..])
  }

  function Dots(n: nat): (segs: seq<string>)
    ensures |segs| == n && forall i :: 0 <= i < n ==> segs[i] == ".."
  {
    if n == 0 then [] else [".."] + Dots(n - 1)
  }

  /** Up to the common folder, and down from there. */
  function Route(from: seq<string>, to: seq<string>): seq<string> {
    Dots(|from| - Shared(from, to)) + to[Shared(from, to)..]
  }

  function Spell(parts: seq<string>): string
    requires parts != []
  {
    if |parts| == 1 && !("." <= parts[0]) then "./" + parts[0]
    else if ".." <= parts[0] then Join(parts)
    else "./" + Join(parts)
  }

  function TargetFolder(path: string): seq<string> { Split(path)[..|Split(path)| - 1] }

  function Label(from: Option<string>, target: string): string {
    Spell(Route(FolderSegments(from), TargetFolder(target)) + [StripSuffix(NameOf(target))])
  }

  method RelativeImportPath(from: Option<string>, target: string) returns (text: string)
    ensures text == Label(from, target)
  {
    var fromSegments, toSegments := FolderSegments(from), TargetFolder(target);
    var shared := 0;
    while shared < |fromSegments| && shared < |toSegments| && fromSegments[shared] == toSegments[shared]
      invariant 0 <= shared <= |fromSegments| && shared <= |toSegments|
      invariant Shared(fromSegments, toSegments) == shared + Shared(fromSegments[shared..], toSegments[shared..])
    {
      assert fromSegments[shared..][1..] == fromSegments[shared + 1..] &&
             toSegments[shared..][1..] == toSegments[shared + 1..];
      shared := shared + 1;
    }
    var parts := Dots(|fromSegments| - shared) + toSegments[shared..] + [StripSuffix(NameOf(target))];
    if |parts| == 1 && !("." <= parts[0]) { return "./" + parts[0]; }
    if ".." <= parts[0] { return Join(parts); }
    return "./" + Join(parts);
  }

  lemma {:induction false} SpellWalks(stack: seq<string>, parts: seq<string>)
    requires parts != [] && AllNoSlash(parts)
    ensures !IsAbsolute(Spell(parts)) && Walk(stack, Split(Spell(parts))) == Walk(stack, parts)
  {
    SplitJoin(parts);
    assert "./" + Join(parts) == "." + "/" + Join(parts);
    SplitConcat(".", Join(parts));
    SplitOne(".");
    assert (["."] + parts)[1..] == parts;
    if |parts| == 1 { assert Join(parts) == parts[0]; }
    if ".." <= parts[0] { assert Join(parts)[0] == parts[0][0] == '.'; }
  }

  lemma {:induction false} WalkUp(stack: seq<string>, n: nat)
    requires n <= |stack|
    ensures Walk(stack, Dots(n)) == Some(stack[..|stack| - n])
    decreases n
  {
    if n > 0 {
      assert Dots(n)[1..] == Dots(n - 1);
      WalkUp(stack[..|stack| - 1], n - 1);
      assert stack[..|stack| - 1][..|stack| - n] == stack[..|stack| - n];
    } else {
      assert stack[..|stack|] == stack;
    }
  }

  lemma {:induction false} WalkDown(stack: seq<string>, segs: seq<string>)
    requires AllPlain(segs)
    ensures Walk(stack, segs) == Some(stack + segs)
    decreases |segs|
  {
    if segs == [] {
      assert stack + [] == stack;
    } else {
      WalkDown(stack + [segs[0]], segs[1..]);
      assert stack + [segs[0]] + segs[1..] == stack + segs;
    }
  }

  /** The route from one folder leads to the other. */
  lemma {:induction false} RouteLeads(from: seq<string>, to: seq<string>)
    requires AllPlain(to)
    ensures Walk(from, Route(from, to)) == Some(to)
  {
    var k := Shared(from, to);
    WalkUp(from, |from| - k);
    WalkConcat(from, Dots(|from| - k), to[k..]);
    WalkDown(from[..k], to[k..]);
    assert from[..k] + to[k..] == to;
  }

  lemma {:induction false} RouteNoSlash(from: seq<string>, to: seq<string>)
    requires AllNoSlash(to)
    ensures AllNoSlash(Route(from, to))
  {
  }

  /** A label, resolved from the folder it was made for, leads to the target without its suffix - exactly if the name
      is more than dots: a name that is nothing else without its suffix leads astray. */
  lemma {:induction false} LabelResolves(from: Option<string>, target: string)
    requires AllPlain(FolderSegments(from)) && AllPlain(TargetFolder(target))
    ensures var name := StripSuffix(NameOf(target));
            Segments(FolderOfFile(from), Label(from, target)) == Some(TargetFolder(target) + [name])
            <==> name != "" && name != "." && name != ".."
  {
    var start, to, name := FolderSegments(from), TargetFolder(target), StripSuffix(NameOf(target));
    SplitNoSlash(target);
    StemShape(NameOf(target));
    RouteNoSlash(start, to);
    BaseIsFolder(from);
    SpellWalks(start, Route(start, to) + [name]);
    RouteLeads(start, to);
    WalkConcat(start, Route(start, to), [name]);
    assert [name][1..] == [];
  }

  /** A label always says where it starts: in the folder, or above it. It climbs out of exactly the folders that the
      target is not in. */
  lemma {:induction false} LabelIsRelative(from: Option<string>, target: string, shared: nat)
    requires AllPlain(FolderSegments(from)) && AllPlain(TargetFolder(target))
    requires var a, b := FolderSegments(from), TargetFolder(target);
             shared <= |a| && shared <= |b| && a[..shared] == b[..shared] &&
             (shared < |a| && shared < |b| ==> a[shared] != b[shared])
    ensures var climb, text := |FolderSegments(from)| - shared, Label(from, target);
            && ("./" <= text || ".." <= text)
            && (climb > 0 ==> var rest := TargetFolder(target)[shared..] + [StripSuffix(NameOf(target))];
                  text == Join(Dots(climb) + rest))
  {
    var a, b := FolderSegments(from), TargetFolder(target);
    var k := Shared(a, b);
    SharedIs(a, b, k, shared);
    var name := StripSuffix(NameOf(target));
    var parts := Route(a, b) + [name];
    if a[shared..] != [] {
      assert parts[0] == "..";
      assert Route(a, b) + [name] == Dots(|a| - shared) + (b[shared..] + [name]);
    }
    JoinStarts(parts);
  }

  /** There is one number of segments that two folders share. */
  lemma SharedIs(a: seq<string>, b: seq<string>, k: nat, m: nat)
    requires k <= |a| && k <= |b| && a[..k] == b[..k] && (k < |a| && k < |b| ==> a[k] != b[k])
    requires m <= |a| && m <= |b| && a[..m] == b[..m] && (m < |a| && m < |b| ==> a[m] != b[m])
    ensures k == m
  {
    assert forall i :: 0 <= i < k ==> a[..k][i] == a[i] && b[..k][i] == b[i];
    assert forall i :: 0 <= i < m ==> a[..m][i] == a[i] && b[..m][i] == b[i];
  }

  lemma JoinStarts(parts: seq<string>)
    requires parts != []
    ensures parts[0] <= Join(parts)
  {
  }

  /** The label of a file whose name is a dot and the suffix leads to the folder the file is in. */
  lemma {:induction false} DotLeadsAstray(from: Option<string>)
    requires AllPlain(FolderSegments(from))
    ensures StripSuffix("." + SUFFIX) == "." && Segments(FolderOfFile(from), Label(from, "." + SUFFIX)) == Some([])
  {
    DotTarget();
    var start := FolderSegments(from);
    RouteNoSlash(start, []);
    BaseIsFolder(from);
    SpellWalks(start, Route(start, []) + ["."]);
    RouteLeads(start, []);
    WalkConcat(start, Route(start, []), ["."]);
    assert ["."][1..] == [];
  }

  lemma {:induction false} DotTarget()
    ensures var target := "." + SUFFIX;
            StripSuffix(target) == "." && TargetFolder(target) == [] && NameOf(target) == target
  {
    assert forall i :: 0 <= i < |SUFFIX| ==> SUFFIX[i] != '/';
    SplitOne("." + SUFFIX);
    SuffixedShape(".");
  }

  lemma {:induction false} BaseIsFolder(from: Option<string>)
    requires AllPlain(FolderSegments(from))
    ensures Base(FolderOfFile(from)) == FolderSegments(from)
  {
    if from.Some? && FolderOf(from.value) != "" {
      var segs := Split(FolderOf(from.value));
      assert forall i :: 0 <= i < |segs| ==> segs[i] != "";
      NonEmptyNoop(segs);
    }
  }

  // Folders.

  const INDEX := "/index"

  function DropIndex(s: string): string {
    if |s| >= |INDEX| && s[|s| - |INDEX|..] == INDEX then s[..|s| - |INDEX|] else s
  }

  const INDEX_FILE := "index.dvala"

  function FolderLabel(from: Option<string>, folder: string): string {
    DropIndex(Label(from, folder + "/" + INDEX_FILE))
  }

  lemma {:induction false} IndexName(stem: string, file: string)
    requires |stem| == 5 && stem[0] == 'i' && NoSlash(stem) && file == stem + SUFFIX
    ensures StripSuffix(file) == stem && NoSlash(file)
  {
    SuffixedShape(stem);
    assert forall i :: 0 <= i < |SUFFIX| ==> SUFFIX[i] != '/';
  }

  lemma {:induction false} LabelIn(from: Option<string>, folder: string, file: string)
    requires NoSlash(file)
    ensures Label(from, folder + "/" + file) == Spell(Route(FolderSegments(from), Split(folder)) + [StripSuffix(file)])
  {
    SplitConcat(folder, file);
    SplitOne(file);
    assert TargetFolder(folder + "/" + file) == Split(folder) && NameOf(folder + "/" + file) == file;
  }

  lemma {:induction false} SpellIndex(route: seq<string>)
    ensures DropIndex(Spell(route + ["index"])) ==
              if route == [] then "." else if ".." <= route[0] then Join(route) else "./" + Join(route)
  {
    var name := "index";
    if route == [] {
      assert name[0] == 'i' && "."[0] == '.';
      assert route + [name] == [name] && !("." <= name);
      assert Spell([name]) == "./" + name;
      assert "./" + name == "." + INDEX;
    } else {
      JoinSnoc(route, name);
      assert Join(route + [name]) == Join(route) + INDEX;
      assert "./" + (Join(route) + INDEX) == ("./" + Join(route)) + INDEX;
    }
  }

  /** What the label of a folder is made of. */
  lemma {:induction false} FolderLabelIs(from: Option<string>, folder: string)
    ensures var route := Route(FolderSegments(from), Split(folder));
            FolderLabel(from, folder) ==
              if route == [] then "." else if ".." <= route[0] then Join(route) else "./" + Join(route)
  {
    assert INDEX_FILE == "index" + SUFFIX;
    IndexName("index", INDEX_FILE);
    LabelIn(from, folder, INDEX_FILE);
    SpellIndex(Route(FolderSegments(from), Split(folder)));
  }

  /** A folder's label leads to the folder, and so does the label with a slash behind it. */
  lemma {:induction false} FolderLabelResolves(from: Option<string>, folder: string)
    requires AllPlain(FolderSegments(from)) && AllPlain(Split(folder))
    ensures Segments(FolderOfFile(from), FolderLabel(from, folder)) == Some(Split(folder))
    ensures Segments(FolderOfFile(from), FolderLabel(from, folder) + "/") == Some(Split(folder))
  {
    var start, to := FolderSegments(from), Split(folder);
    var route, text := Route(start, to), FolderLabel(from, folder);
    FolderLabelIs(from, folder);
    BaseIsFolder(from);
    RouteLeads(start, to);
    RouteNoSlash(start, to);
    RouteWalks(start, route, text);
    SlashBehind(start, text);
  }

  lemma {:induction false} RouteWalks(stack: seq<string>, route: seq<string>, text: string)
    requires AllNoSlash(route)
    requires text == if route == [] then "." else if ".." <= route[0] then Join(route) else "./" + Join(route)
    ensures Walk(stack, Split(text)) == Walk(stack, route) && text != "" && text[0] == '.'
  {
    SplitOne(".");
    if route == [] {
      assert ["."][1..] == route;
    } else {
      SplitJoin(route);
      if ".." <= route[0] {
        assert Join(route)[0] == route[0][0] == '.';
      } else {
        assert "./" + Join(route) == "." + "/" + Join(route);
        SplitConcat(".", Join(route));
        assert (["."] + route)[1..] == route;
      }
    }
  }

  lemma {:induction false} SlashBehind(stack: seq<string>, text: string)
    requires text != ""
    ensures (text + "/")[0] == text[0] && Walk(stack, Split(text + "/")) == Walk(stack, Split(text))
  {
    assert text + "/" == text + "/" + "";
    SplitConcat(text, "");
    WalkConcat(stack, Split(text), [""]);
    assert [""][1..] == [];
  }

  // The resolver.

  datatype Source = Found(code: string) | Escapes | InPlayground | NotFound

  function Lookup(files: seq<(string, string)>, path: string): Option<string> {
    if files == [] then None else if files[0].0 == path then Some(files[0].1) else Lookup(files[1..], path)
  }

  /** Files are pairs of a path and its code. */
  function ResolveFile(files: seq<(string, string)>, importPath: string, fromDir: string): Source {
    var resolved := Resolve(if InFolder(fromDir, PLAYGROUND) then "" else fromDir, importPath);
    if resolved.None? then Escapes
    else if InFolder(resolved.value, PLAYGROUND) then InPlayground
    else
      var exact, withSuffix := Lookup(files, resolved.value), Lookup(files, resolved.value + SUFFIX);
      if exact.Some? then Found(exact.value) else if withSuffix.Some? then Found(withSuffix.value) else NotFound
  }

  lemma {:induction false} LookupIs(files: seq<(string, string)>, path: string)
    ensures Lookup(files, path).Some? ==> (path, Lookup(files, path).value) in files
  {
    if files != [] && files[0].0 != path { LookupIs(files[1..], path); }
  }

  /** A file that is set apart is never found, not even by way of the suffix. */
  lemma {:induction false} NeverPlayground(files: seq<(string, string)>, importPath: string, fromDir: string)
    ensures var r := ResolveFile(files, importPath, fromDir);
            r.Found? ==> exists f :: f in files && f.1 == r.code && !InFolder(f.0, PLAYGROUND)
  {
    var resolved := Resolve(if InFolder(fromDir, PLAYGROUND) then "" else fromDir, importPath);
    var r := ResolveFile(files, importPath, fromDir);
    if r.Found? {
      LookupIs(files, resolved.value);
      LookupIs(files, resolved.value + SUFFIX);
      SuffixStaysOut(resolved.value);
    }
  }

  lemma {:induction false} SuffixStaysOut(path: string)
    requires !InFolder(path, PLAYGROUND)
    ensures !InFolder(path + SUFFIX, PLAYGROUND)
  {
    var full, prefix := path + SUFFIX, PLAYGROUND + "/";
    var k := |prefix| - 1;
    assert full[|full| - 1] == SUFFIX[|SUFFIX| - 1] && SUFFIX[|SUFFIX| - 1] != PLAYGROUND[|PLAYGROUND| - 1];
    assert |path| >= |prefix| ==> full[..|prefix|] == path[..|prefix|];
    assert forall i :: 0 <= i < |SUFFIX| ==> SUFFIX[i] != '/';
    assert |path| <= k < |full| ==> full[k] == SUFFIX[k - |path|];
    assert prefix[k] == '/';
  }

  /** What labels are made for: the current file, unless it is set apart. */
  function LabelBase(current: Option<string>): Option<string> {
    if current.None? || InFolder(current.value, PLAYGROUND) then None else current
  }

  /** What the label offered for a file finds from where it was offered, the folder that is set apart included:
      whatever is stored under the name without the suffix; if there is nothing, the file itself; and nothing at all in
      the folder that is set apart. */
  lemma {:induction false} LabelFindsFile(files: seq<(string, string)>, current: Option<string>, target: string)
    requires AllPlain(FolderSegments(LabelBase(current))) && AllPlain(TargetFolder(target))
    requires var name := StripSuffix(NameOf(target)); Plain(name) && NameOf(target) == name + SUFFIX
    ensures var bare := Join(TargetFolder(target) + [StripSuffix(NameOf(target))]);
            ResolveFile(files, Label(LabelBase(current), target), FolderOfFile(current)) ==
            if InFolder(bare, PLAYGROUND) then InPlayground
            else if Lookup(files, bare).Some? then Found(Lookup(files, bare).value)
            else if Lookup(files, target).Some? then Found(Lookup(files, target).value) else NotFound
  {
    LabelResolves(LabelBase(current), target);
    BareTarget(target);
    LabelStart(current);
  }

  lemma LabelStart(current: Option<string>)
    ensures FolderOfFile(LabelBase(current)) ==
            var folder := FolderOfFile(current); if InFolder(folder, PLAYGROUND) then "" else folder
  {
    if current.Some? { FolderSetApart(current.value, PLAYGROUND); }
  }

  /** A file is in a folder of the root exactly if its own folder is, unless it has none. */
  lemma {:induction false} FolderSetApart(path: string, apart: string)
    requires apart != "" && NoSlash(apart)
    ensures InFolder(FolderOf(path), apart) <==> InFolder(path, apart) && FolderOf(path) != ""
  {
    FolderAndName(path);
    if FolderOf(path) != "" { LastSlash(FolderOf(path), NameOf(path), apart); }
  }

  lemma FolderAndName(path: string)
    ensures NoSlash(NameOf(path))
    ensures FolderOf(path) != "" ==> path == FolderOf(path) + "/" + NameOf(path)
  {
    var segs := Split(path);
    JoinSplit(path);
    SplitNoSlash(path);
    assert segs[..|segs| - 1] + [segs[|segs| - 1]] == segs;
    if |segs| > 1 { JoinSnoc(segs[..|segs| - 1], segs[|segs| - 1]); }
  }

  lemma LastSlash(f: string, name: string, apart: string)
    requires NoSlash(name) && NoSlash(apart)
    ensures InFolder(f, apart) <==> InFolder(f + "/" + name, apart)
  {
    var path, prefix := f + "/" + name, apart + "/";
    var k := |apart|;
    assert path[|f|] == '/' && prefix[k] == '/' && forall i :: 0 <= i < k ==> apart[i] != '/';
    assert |f| >= k ==> path[..k] == f[..k];
    assert |f| >= |prefix| ==> path[..|prefix|] == f[..|prefix|];
    assert |f| < k < |path| ==> path[k] == name[k - |f| - 1];
    if prefix <= path {
      assert path[k] == '/';
      assert prefix[..k] == apart;
      assert path[..k] == path[..|prefix|][..k] == apart;
    }
  }

  /** The target without its suffix, and with it again. */
  lemma {:induction false} BareTarget(target: string)
    requires NameOf(target) == StripSuffix(NameOf(target)) + SUFFIX
    ensures Join(TargetFolder(target) + [StripSuffix(NameOf(target))]) + SUFFIX == target
  {
    var folder, name := TargetFolder(target), StripSuffix(NameOf(target));
    JoinSplit(target);
    assert Split(target) == folder + [NameOf(target)];
    if folder == [] {
      assert folder + [name] == [name] && Split(target) == [NameOf(target)];
    } else {
      JoinSnoc(folder, name);
      JoinSnoc(folder, NameOf(target));
      assert Join(folder) + "/" + name + SUFFIX == Join(folder) + "/" + (name + SUFFIX);
    }
  }
}
