/** The tree that is shown for the flat list of files. */
module FileTree {
  import opened Options
  import opened Paths
  import opened FileStore

  datatype Node = Folder(path: string, name: string, children: seq<Node>) | Leaf(file: File)

  // Building.

  function Under(parent: string, name: string): string { if parent == "" then name else parent + "/" + name }

  function FindFolder(siblings: seq<Node>, path: string): (i: Option<nat>)
    ensures i.Some? ==> i.value < |siblings| && siblings[i.value].Folder? && siblings[i.value].path == path
    ensures i.None? ==> forall k :: 0 <= k < |siblings| && siblings[k].Folder? ==> siblings[k].path != path
  {
    if siblings == [] then None
    else if siblings[0].Folder? && siblings[0].path == path then Some(0)
    else
      var i := FindFolder(siblings[1..], path);
      if i.None? then None else Some(i.value + 1)
  }

  function Insert(siblings: seq<Node>, file: File, segments: seq<string>, parent: string): seq<Node>
    requires segments != []
    decreases |segments|
  {
    if |segments| == 1 then siblings + [Leaf(file)]
    else
      var path := Under(parent, segments[0]);
      var i := FindFolder(siblings, path);
      if i.None? then siblings + [Folder(path, segments[0], Insert([], file, segments[1..], path))]
      else
        var folder := siblings[i.value];
        siblings[i.value := folder.(children := Insert(folder.children, file, segments[1..], path))]
  }

  predicate Visible(f: File) { !InFolder(f.path, PLAYGROUND) }

  function Built(files: seq<File>): seq<Node>
    decreases |files|
  {
    if files == [] then []
    else
      var k := |files| - 1;
      if Visible(files[k]) then Insert(Built(files[..k]), files[k], Split(files[k].path), "") else Built(files[..k])
  }

  // Sorting.

  /** What a node is sorted by. */
  datatype Key = Key(folder: bool, name: string)

  function NodeKey(n: Node): Key {
    match n
    case Folder(_, name, _) => Key(true, name)
    case Leaf(file) => Key(false, NameOf(file.path))
  }

  /** Folders before files, then by name; `leq` stands for the comparison of names. */
  predicate Before(leq: (string, string) -> bool, a: Key, b: Key) {
    if a.folder != b.folder then a.folder else leq(a.name, b.name)
  }

  function Place<T>(leq: (string, string) -> bool, key: T -> Key, n: T, sorted: seq<T>): seq<T> {
    if sorted == [] || Before(leq, key(n), key(sorted[0])) then [n] + sorted
    else [sorted[0]] + Place(leq, key, n, sorted[1..])
  }

  /** A stable sort. */
  function Arrange<T>(leq: (string, string) -> bool, key: T -> Key, nodes: seq<T>): seq<T> {
    if nodes == [] then [] else Place(leq, key, nodes[0], Arrange(leq, key, nodes[1..]))
  }

  function SortNode(leq: (string, string) -> bool, n: Node): Node {
    match n
    case Folder(path, name, children) => Folder(path, name, Arrange(leq, NodeKey, SortEach(leq, children)))
    case Leaf(_) => n
  }

  function SortEach(leq: (string, string) -> bool, nodes: seq<Node>): (r: seq<Node>)
    ensures |r| == |nodes|
  {
    if nodes == [] then [] else [SortNode(leq, nodes[0])] + SortEach(leq, nodes[1..])
  }

  function BuildFileTree(leq: (string, string) -> bool, files: seq<File>): seq<Node> {
    Arrange(leq, NodeKey, SortEach(leq, Built(files)))
  }

  // Where the files are.

  datatype Placement = At(folders: seq<string>, file: File)

  function PlacedIn(n: Node, above: seq<string>): multiset<Placement> {
    match n
    case Folder(_, name, children) => Placed(children, above + [name])
    case Leaf(file) => multiset{At(above, file)}
  }

  function Placed(nodes: seq<Node>, above: seq<string>): multiset<Placement> {
    if nodes == [] then multiset{} else PlacedIn(nodes[0], above) + Placed(nodes[1..], above)
  }

  function FoldersOf(path: string): seq<string> { Split(path)[..|Split(path)| - 1] }

  function Expected(files: seq<File>): multiset<Placement>
    decreases |files|
  {
    if files == [] then multiset{}
    else
      var f := files[|files| - 1];
      Expected(files[..|files| - 1]) + if Visible(f) then multiset{At(FoldersOf(f.path), f)} else multiset{}
  }

  lemma {:induction false} PlacedBoth(a: seq<Node>, b: seq<Node>, above: seq<string>)
    ensures Placed(a + b, above) == Placed(a, above) + Placed(b, above)
  {
    if a == [] {
      assert a + b == b;
    } else {
      assert (a + b)[1..] == a[1..] + b;
      PlacedBoth(a[1..], b, above);
    }
  }

  lemma {:induction false} PlacedOne(n: Node, above: seq<string>)
    ensures Placed([n], above) == PlacedIn(n, above)
  {
  }

  lemma {:induction false} PlacedUpdate(nodes: seq<Node>, i: nat, n: Node, above: seq<string>)
    requires i < |nodes|
    ensures Placed(nodes[i := n], above) + PlacedIn(nodes[i], above) == Placed(nodes, above) + PlacedIn(n, above)
  {
    assert nodes[i := n] == nodes[..i] + ([n] + nodes[i + 1..]) && nodes == nodes[..i] + ([nodes[i]] + nodes[i + 1..]);
    PlacedBoth(nodes[..i], [n] + nodes[i + 1..], above);
    PlacedBoth(nodes[..i], [nodes[i]] + nodes[i + 1..], above);
    PlacedBoth([n], nodes[i + 1..], above);
    PlacedBoth([nodes[i]], nodes[i + 1..], above);
    PlacedOne(n, above);
    PlacedOne(nodes[i], above);
  }

  // The shape of the tree.

  function PathTo(folders: seq<string>): string
    decreases |folders|
  {
    if folders == [] then "" else Under(PathTo(folders[..|folders| - 1]), folders[|folders| - 1])
  }

  predicate SoundNode(n: Node, above: seq<string>) {
    match n
    case Folder(path, name, children) =>
      path == PathTo(above + [name]) && children != [] && Sound(children, above + [name])
    case Leaf(_) => true
  }

  /** Every folder has the path of its place and something in it, and no two siblings have the same path. */
  predicate Sound(nodes: seq<Node>, above: seq<string>) {
    && (forall i :: 0 <= i < |nodes| ==> SoundNode(nodes[i], above))
    && DistinctFolders(nodes)
  }

  predicate DistinctFolders(nodes: seq<Node>) {
    forall i, j :: 0 <= i < j < |nodes| && nodes[i].Folder? && nodes[j].Folder? ==> nodes[i].path != nodes[j].path
  }

  lemma {:induction false} PathSnoc(above: seq<string>, name: string)
    ensures PathTo(above + [name]) == Under(PathTo(above), name)
  {
    assert (above + [name])[..|above|] == above;
  }

  lemma {:induction false} SameName(above: seq<string>, a: string, b: string)
    requires PathTo(above + [a]) == PathTo(above + [b])
    ensures a == b
  {
    PathSnoc(above, a);
    PathSnoc(above, b);
    var p := PathTo(above);
    if p != "" {
      assert (p + "/" + a)[|p| + 1..] == a && (p + "/" + b)[|p| + 1..] == b;
    }
  }

  lemma {:induction false} AppendSound(siblings: seq<Node>, n: Node, above: seq<string>)
    requires Sound(siblings, above) && SoundNode(n, above)
    requires n.Folder? ==> forall k :: 0 <= k < |siblings| && siblings[k].Folder? ==> siblings[k].path != n.path
    ensures Sound(siblings + [n], above)
    ensures Placed(siblings + [n], above) == Placed(siblings, above) + PlacedIn(n, above)
  {
    PlacedBoth(siblings, [n], above);
    PlacedOne(n, above);
  }

  lemma {:induction false} UpdateSound(siblings: seq<Node>, i: nat, n: Node, above: seq<string>)
    requires Sound(siblings, above) && SoundNode(n, above) && i < |siblings|
    requires siblings[i].Folder? && n.Folder? && siblings[i].path == n.path
    ensures Sound(siblings[i := n], above)
    ensures Placed(siblings[i := n], above) + PlacedIn(siblings[i], above) ==
            Placed(siblings, above) + PlacedIn(n, above)
  {
    PlacedUpdate(siblings, i, n, above);
  }

  /** Inserting adds one file at its place and keeps the tree sound. */
  lemma {:induction false} InsertPlaces(siblings: seq<Node>, file: File, segments: seq<string>, above: seq<string>)
    requires segments != [] && Sound(siblings, above)
    ensures var r := Insert(siblings, file, segments, PathTo(above));
            && r != [] && Sound(r, above)
            && Placed(r, above) == Placed(siblings, above) + multiset{At(above + segments[..|segments| - 1], file)}
    decreases |segments|, 0
  {
    if |segments| == 1 {
      AppendSound(siblings, Leaf(file), above);
      assert above + segments[..0] == above;
    } else {
      var name, rest := segments[0], segments[1..];
      var path := Under(PathTo(above), name);
      PathSnoc(above, name);
      assert above + [name] + rest[..|rest| - 1] == above + segments[..|segments| - 1];
      var i := FindFolder(siblings, path);
      if i.None? {
        InsertPlaces([], file, rest, above + [name]);
        AppendSound(siblings, Folder(path, name, Insert([], file, rest, path)), above);
      } else {
        InsertBelow(siblings, i.value, file, rest, above, name);
      }
    }
  }

  lemma {:induction false} InsertBelow(siblings: seq<Node>, i: nat, file: File, rest: seq<string>, above: seq<string>,
                                       name: string)
    requires rest != [] && Sound(siblings, above) && i < |siblings| && siblings[i].Folder?
    requires siblings[i].path == PathTo(above + [name])
    ensures var r := Insert(siblings[i].children, file, rest, PathTo(above + [name]));
            var n := siblings[i].(children := r);
            && Sound(siblings[i := n], above)
            && Placed(siblings[i := n], above)
               == Placed(siblings, above) + multiset{At(above + [name] + rest[..|rest| - 1], file)}
    decreases |rest|, 1
  {
    var folder := siblings[i];
    assert SoundNode(folder, above);
    SameName(above, folder.name, name);
    InsertPlaces(folder.children, file, rest, above + [name]);
    var n := folder.(children := Insert(folder.children, file, rest, PathTo(above + [name])));
    var added := multiset{At(above + [name] + rest[..|rest| - 1], file)};
    assert PlacedIn(n, above) == PlacedIn(folder, above) + added;
    UpdateSound(siblings, i, n, above);
    Cancel(Placed(siblings[i := n], above), PlacedIn(folder, above), Placed(siblings, above), added);
  }

  lemma {:induction false} Cancel<T>(u: multiset<T>, f: multiset<T>, s: multiset<T>, x: multiset<T>)
    requires u + f == s + (f + x)
    ensures u == s + x
  {
    forall t
      ensures u[t] == (s + x)[t]
    {
      assert (u + f)[t] == (s + (f + x))[t];
    }
  }

  lemma {:induction false} BuiltPlaces(files: seq<File>)
    ensures Sound(Built(files), []) && Placed(Built(files), []) == Expected(files)
    decreases |files|
  {
    if files != [] {
      var k := |files| - 1;
      BuiltPlaces(files[..k]);
      if Visible(files[k]) {
        InsertPlaces(Built(files[..k]), files[k], Split(files[k].path), []);
        assert [] + FoldersOf(files[k].path) == FoldersOf(files[k].path);
      }
    }
  }

  // Sorting keeps the places.

  lemma {:induction false} PlaceAdds(leq: (string, string) -> bool, n: Node, sorted: seq<Node>)
    ensures multiset(Place(leq, NodeKey, n, sorted)) == multiset{n} + multiset(sorted)
  {
    if sorted != [] && !Before(leq, NodeKey(n), NodeKey(sorted[0])) {
      PlaceAdds(leq, n, sorted[1..]);
      assert sorted == [sorted[0]] + sorted[1..];
    }
  }

  lemma {:induction false} ArrangeAdds(leq: (string, string) -> bool, nodes: seq<Node>)
    ensures multiset(Arrange(leq, NodeKey, nodes)) == multiset(nodes)
  {
    if nodes != [] {
      ArrangeAdds(leq, nodes[1..]);
      PlaceAdds(leq, nodes[0], Arrange(leq, NodeKey, nodes[1..]));
      assert nodes == [nodes[0]] + nodes[1..];
    }
  }

  lemma {:induction false} PlacePlaced(leq: (string, string) -> bool, n: Node, sorted: seq<Node>, above: seq<string>)
    ensures Placed(Place(leq, NodeKey, n, sorted), above) == PlacedIn(n, above) + Placed(sorted, above)
  {
    if sorted == [] || Before(leq, NodeKey(n), NodeKey(sorted[0])) {
      assert ([n] + sorted)[1..] == sorted;
    } else {
      PlacePlaced(leq, n, sorted[1..], above);
      assert Place(leq, NodeKey, n, sorted)[1..] == Place(leq, NodeKey, n, sorted[1..]);
    }
  }

  lemma {:induction false} ArrangePlaced(leq: (string, string) -> bool, nodes: seq<Node>, above: seq<string>)
    ensures Placed(Arrange(leq, NodeKey, nodes), above) == Placed(nodes, above)
  {
    if nodes != [] {
      ArrangePlaced(leq, nodes[1..], above);
      PlacePlaced(leq, nodes[0], Arrange(leq, NodeKey, nodes[1..]), above);
    }
  }

  lemma {:induction false} SortPlaced(leq: (string, string) -> bool, nodes: seq<Node>, above: seq<string>)
    ensures Placed(Arrange(leq, NodeKey, SortEach(leq, nodes)), above) == Placed(nodes, above)
    decreases nodes, 1
  {
    SortEachPlaced(leq, nodes, above);
    ArrangePlaced(leq, SortEach(leq, nodes), above);
  }

  lemma {:induction false} SortEachPlaced(leq: (string, string) -> bool, nodes: seq<Node>, above: seq<string>)
    ensures Placed(SortEach(leq, nodes), above) == Placed(nodes, above)
    decreases nodes, 0
  {
    if nodes != [] {
      var n := nodes[0];
      if n.Folder? { SortPlaced(leq, n.children, above + [n.name]); }
      SortEachPlaced(leq, nodes[1..], above);
      assert SortEach(leq, nodes)[1..] == SortEach(leq, nodes[1..]);
    }
  }

  /** The leaves are exactly the visible files, each under precisely the folders of its path. */
  lemma {:induction false} TreePlaces(leq: (string, string) -> bool, files: seq<File>)
    ensures Placed(BuildFileTree(leq, files), []) == Expected(files)
  {
    BuiltPlaces(files);
    SortPlaced(leq, Built(files), []);
  }

  /** A file is shown, under the folders of its path, unless its path starts with the folder that is set apart. */
  lemma {:induction false} ShownExactly(leq: (string, string) -> bool, files: seq<File>, p: Placement)
    ensures p in Placed(BuildFileTree(leq, files), []) <==>
            && p.file in files && Split(p.file.path)[0] != ".dvala-playground"
            && p.folders + [NameOf(p.file.path)] == Split(p.file.path)
  {
    TreePlaces(leq, files);
    ExpectedHas(files, p);
    SetApart(p.file.path);
    assert Split(p.file.path) == FoldersOf(p.file.path) + [NameOf(p.file.path)];
    assert (p.folders + [NameOf(p.file.path)])[..|p.folders|] == p.folders;
  }

  lemma SetApart(path: string)
    ensures InFolder(path, PLAYGROUND) <==> Split(path)[0] == ".dvala-playground"
  {
    assert forall i :: 0 <= i < |PLAYGROUND| ==> PLAYGROUND[i] != '/';
    SplitOne(PLAYGROUND);
    InFolderMeans(path, PLAYGROUND);
  }

  // Sorting keeps the tree sound.

  predicate NoFolder(nodes: seq<Node>, n: Node) {
    n.Folder? ==> forall k :: 0 <= k < |nodes| && nodes[k].Folder? ==> nodes[k].path != n.path
  }

  lemma {:induction false} PlaceSound(leq: (string, string) -> bool, n: Node, sorted: seq<Node>, above: seq<string>)
    requires SoundNode(n, above) && Sound(sorted, above) && NoFolder(sorted, n)
    ensures Sound(Place(leq, NodeKey, n, sorted), above)
  {
    if sorted != [] && !Before(leq, NodeKey(n), NodeKey(sorted[0])) {
      var rest := Place(leq, NodeKey, n, sorted[1..]);
      PlaceSound(leq, n, sorted[1..], above);
      PlaceAdds(leq, n, sorted[1..]);
      forall k | 0 <= k < |rest| && rest[k].Folder? && sorted[0].Folder?
        ensures rest[k].path != sorted[0].path
      {
        assert rest[k] in multiset(rest);
        assert rest[k] == n || rest[k] in sorted[1..];
      }
    }
  }

  lemma {:induction false} ArrangeSound(leq: (string, string) -> bool, nodes: seq<Node>, above: seq<string>)
    requires Sound(nodes, above)
    ensures Sound(Arrange(leq, NodeKey, nodes), above)
  {
    if nodes != [] {
      var rest := Arrange(leq, NodeKey, nodes[1..]);
      ArrangeSound(leq, nodes[1..], above);
      ArrangeAdds(leq, nodes[1..]);
      forall k | 0 <= k < |rest|
        ensures rest[k] in nodes[1..]
      {
        assert rest[k] in multiset(rest);
      }
      PlaceSound(leq, nodes[0], rest, above);
    }
  }

  lemma {:induction false} SortSound(leq: (string, string) -> bool, nodes: seq<Node>, above: seq<string>)
    requires Sound(nodes, above)
    ensures Sound(Arrange(leq, NodeKey, SortEach(leq, nodes)), above) &&
            |Arrange(leq, NodeKey, SortEach(leq, nodes))| == |nodes|
    decreases nodes, 1
  {
    SortEachSound(leq, nodes, above);
    ArrangeSound(leq, SortEach(leq, nodes), above);
    ArrangeAdds(leq, SortEach(leq, nodes));
    assert |multiset(Arrange(leq, NodeKey, SortEach(leq, nodes)))| == |multiset(SortEach(leq, nodes))|;
  }

  lemma {:induction false} SortEachSound(leq: (string, string) -> bool, nodes: seq<Node>, above: seq<string>)
    requires Sound(nodes, above)
    ensures Sound(SortEach(leq, nodes), above)
    decreases nodes, 0
  {
    if nodes != [] {
      var n := nodes[0];
      assert SoundNode(n, above);
      if n.Folder? { SortSound(leq, n.children, above + [n.name]); }
      SortEachSound(leq, nodes[1..], above);
      SortEachPaths(leq, nodes[1..]);
      assert forall k :: 0 <= k < |nodes| - 1 ==> nodes[1..][k] == nodes[k + 1];
      ConsSound(SortNode(leq, n), SortEach(leq, nodes[1..]), above);
    }
  }

  lemma {:induction false} SortEachPaths(leq: (string, string) -> bool, nodes: seq<Node>)
    ensures forall i :: 0 <= i < |nodes| ==> SortEach(leq, nodes)[i] == SortNode(leq, nodes[i])
  {
    if nodes != [] { SortEachPaths(leq, nodes[1..]); }
  }

  lemma {:induction false} ConsSound(n: Node, rest: seq<Node>, above: seq<string>)
    requires SoundNode(n, above) && Sound(rest, above) && NoFolder(rest, n)
    ensures Sound([n] + rest, above)
  {
  }

  /** Every folder has the path of its place, none is empty, and siblings have different paths. */
  lemma {:induction false} TreeSound(leq: (string, string) -> bool, files: seq<File>)
    ensures Sound(BuildFileTree(leq, files), [])
  {
    BuiltPlaces(files);
    SortSound(leq, Built(files), []);
  }

  /** That path is the names joined, if none of them is empty. */
  lemma {:induction false} PathToJoins(folders: seq<string>)
    requires "" !in folders
    ensures PathTo(folders) == Join(folders)
    decreases |folders|
  {
    if |folders| > 1 {
      var k := |folders| - 1;
      PathToJoins(folders[..k]);
      JoinSnoc(folders[..k], folders[k]);
      assert folders[..k] + [folders[k]] == folders;
      assert folders[0] in folders && Join(folders[..k])[0] == folders[0][0];
    }
  }

  // The order.

  ghost predicate TotalPreorder(leq: (string, string) -> bool) {
    (forall a, b :: leq(a, b) || leq(b, a)) && forall a, b, c :: leq(a, b) && leq(b, c) ==> leq(a, c)
  }

  predicate Ordered(leq: (string, string) -> bool, nodes: seq<Node>) {
    forall i, j :: 0 <= i < j < |nodes| ==> Before(leq, NodeKey(nodes[i]), NodeKey(nodes[j]))
  }

  predicate OrderedBelow(leq: (string, string) -> bool, n: Node) {
    n.Folder? ==> Ordered(leq, n.children) && forall i :: 0 <= i < |n.children| ==> OrderedBelow(leq, n.children[i])
  }

  lemma {:induction false} PlaceOrders(leq: (string, string) -> bool, n: Node, sorted: seq<Node>)
    requires TotalPreorder(leq) && Ordered(leq, sorted)
    ensures Ordered(leq, Place(leq, NodeKey, n, sorted))
  {
    if sorted != [] && !Before(leq, NodeKey(n), NodeKey(sorted[0])) {
      var rest := Place(leq, NodeKey, n, sorted[1..]);
      PlaceOrders(leq, n, sorted[1..]);
      PlaceAdds(leq, n, sorted[1..]);
      forall k | 0 <= k < |rest|
        ensures Before(leq, NodeKey(sorted[0]), NodeKey(rest[k]))
      {
        assert rest[k] in multiset(rest);
        assert rest[k] == n || rest[k] in sorted[1..];
      }
    }
  }

  lemma {:induction false} ArrangeOrders(leq: (string, string) -> bool, nodes: seq<Node>)
    requires TotalPreorder(leq)
    ensures Ordered(leq, Arrange(leq, NodeKey, nodes))
  {
    if nodes != [] {
      ArrangeOrders(leq, nodes[1..]);
      PlaceOrders(leq, nodes[0], Arrange(leq, NodeKey, nodes[1..]));
    }
  }

  lemma {:induction false} SortOrders(leq: (string, string) -> bool, nodes: seq<Node>)
    requires TotalPreorder(leq)
    ensures var r := Arrange(leq, NodeKey, SortEach(leq, nodes));
            Ordered(leq, r) && forall i :: 0 <= i < |r| ==> OrderedBelow(leq, r[i])
    decreases nodes, 1
  {
    var each := SortEach(leq, nodes);
    var r := Arrange(leq, NodeKey, each);
    SortEachOrders(leq, nodes);
    ArrangeOrders(leq, each);
    ArrangeAdds(leq, each);
    forall i | 0 <= i < |r|
      ensures OrderedBelow(leq, r[i])
    {
      assert r[i] in multiset(r);
      assert r[i] in each;
    }
  }

  lemma {:induction false} SortEachOrders(leq: (string, string) -> bool, nodes: seq<Node>)
    requires TotalPreorder(leq)
    ensures forall i :: 0 <= i < |nodes| ==> OrderedBelow(leq, SortEach(leq, nodes)[i])
    decreases nodes, 0
  {
    if nodes != [] {
      if nodes[0].Folder? { SortOrders(leq, nodes[0].children); }
      SortEachOrders(leq, nodes[1..]);
    }
  }

  /** Folders in front of files, the folders by their names, the files by the last segments of their paths. */
  predicate InOrder(leq: (string, string) -> bool, nodes: seq<Node>) {
    forall i, j :: 0 <= i < j < |nodes| ==>
      match (nodes[i], nodes[j])
      case (Folder(_, a, _), Folder(_, b, _)) => leq(a, b)
      case (Leaf(f), Leaf(g)) => leq(Split(f.path)[|Split(f.path)| - 1], Split(g.path)[|Split(g.path)| - 1])
      case (Folder(_, _, _), Leaf(_)) => true
      case (Leaf(_), Folder(_, _, _)) => false
  }

  /** At every depth. */
  predicate InOrderThroughout(leq: (string, string) -> bool, nodes: seq<Node>)
    decreases nodes
  {
    && InOrder(leq, nodes)
    && forall i :: 0 <= i < |nodes| && nodes[i].Folder? ==> InOrderThroughout(leq, nodes[i].children)
  }

  lemma {:induction false} OrderedThroughout(leq: (string, string) -> bool, nodes: seq<Node>)
    requires Ordered(leq, nodes) && forall i :: 0 <= i < |nodes| ==> OrderedBelow(leq, nodes[i])
    ensures InOrderThroughout(leq, nodes)
    decreases nodes
  {
    forall i, j | 0 <= i < j < |nodes|
      ensures Before(leq, NodeKey(nodes[i]), NodeKey(nodes[j]))
    {
    }
    forall i | 0 <= i < |nodes| && nodes[i].Folder?
      ensures InOrderThroughout(leq, nodes[i].children)
    {
      assert OrderedBelow(leq, nodes[i]);
      OrderedThroughout(leq, nodes[i].children);
    }
  }

  /** At every depth folders come first, and each group goes by name. */
  lemma {:induction false} TreeOrdered(leq: (string, string) -> bool, files: seq<File>)
    requires TotalPreorder(leq)
    ensures InOrderThroughout(leq, BuildFileTree(leq, files))
  {
    SortOrders(leq, Built(files));
    OrderedThroughout(leq, BuildFileTree(leq, files));
  }

  // Which folders there are.

  predicate HasFolder(nodes: seq<Node>, names: seq<string>)
    decreases |names|
  {
    names == []
    || exists i ::
         0 <= i < |nodes| && nodes[i].Folder? && nodes[i].name == names[0] && HasFolder(nodes[i].children, names[1..])
  }

  lemma {:induction false} PlacedBelow(nodes: seq<Node>, above: seq<string>, p: Placement)
    requires p in Placed(nodes, above)
    ensures above <= p.folders
    ensures exists i :: 0 <= i < |nodes| && p in PlacedIn(nodes[i], above)
    decreases nodes
  {
    if p in PlacedIn(nodes[0], above) {
      if nodes[0].Folder? { PlacedBelow(nodes[0].children, above + [nodes[0].name], p); }
    } else {
      PlacedBelow(nodes[1..], above, p);
      var i :| 0 <= i < |nodes[1..]| && p in PlacedIn(nodes[1..][i], above);
      assert nodes[i + 1] == nodes[1..][i];
    }
  }

  lemma {:induction false} PlacedAt(nodes: seq<Node>, above: seq<string>, i: nat)
    requires i < |nodes|
    ensures PlacedIn(nodes[i], above) <= Placed(nodes, above)
  {
    if i > 0 { PlacedAt(nodes[1..], above, i - 1); }
  }

  lemma {:induction false} SomePlaced(nodes: seq<Node>, above: seq<string>) returns (p: Placement)
    requires nodes != [] && Sound(nodes, above)
    ensures p in Placed(nodes, above)
    decreases nodes
  {
    var n := nodes[0];
    assert SoundNode(n, above);
    if n.Folder? { p := SomePlaced(n.children, above + [n.name]); } else { p := At(above, n.file); }
    PlacedAt(nodes, above, 0);
  }

  lemma {:induction false} FolderPlaced(nodes: seq<Node>, above: seq<string>, names: seq<string>) returns (p: Placement)
    requires Sound(nodes, above) && nodes != [] && HasFolder(nodes, names)
    ensures p in Placed(nodes, above) && above + names <= p.folders
    decreases |names|
  {
    if names == [] {
      p := SomePlaced(nodes, above);
      PlacedBelow(nodes, above, p);
      assert above + names == above;
    } else {
      var i :| 0 <= i < |nodes| && nodes[i].Folder? && nodes[i].name == names[0]
               && HasFolder(nodes[i].children, names[1..]);
      assert SoundNode(nodes[i], above);
      p := FolderPlaced(nodes[i].children, above + [names[0]], names[1..]);
      assert above + [names[0]] + names[1..] == above + names;
      PlacedAt(nodes, above, i);
    }
  }

  lemma {:induction false} PlacedFolder(nodes: seq<Node>, above: seq<string>, names: seq<string>, p: Placement)
    requires p in Placed(nodes, above) && above + names <= p.folders
    ensures HasFolder(nodes, names)
    decreases |names|
  {
    if names != [] {
      PlacedBelow(nodes, above, p);
      var i :| 0 <= i < |nodes| && p in PlacedIn(nodes[i], above);
      PlacedNext(nodes[i], above, names, p);
      PlacedFolder(nodes[i].children, above + [names[0]], names[1..], p);
    }
  }

  lemma {:induction false} PlacedNext(n: Node, above: seq<string>, names: seq<string>, p: Placement)
    requires p in PlacedIn(n, above) && names != [] && above + names <= p.folders
    ensures n.Folder? && n.name == names[0]
    ensures p in Placed(n.children, above + [names[0]]) && above + [names[0]] + names[1..] <= p.folders
  {
    assert p.folders[|above|] == (above + names)[|above|] == names[0];
    PlacedBelow(n.children, above + [n.name], p);
    assert p.folders[|above|] == (above + [n.name])[|above|] == n.name;
    assert above + [names[0]] + names[1..] == above + names;
  }

  lemma {:induction false} ExpectedHas(files: seq<File>, p: Placement)
    ensures p in Expected(files) <==> p.file in files && Visible(p.file) && p.folders == FoldersOf(p.file.path)
    decreases |files|
  {
    if files != [] {
      var k := |files| - 1;
      ExpectedHas(files[..k], p);
      assert files == files[..k] + [files[k]];
    }
  }

  /** There is a folder exactly if some visible file is in it, at whatever depth. */
  lemma {:induction false} TreeFolders(leq: (string, string) -> bool, files: seq<File>, names: seq<string>)
    requires names != []
    ensures HasFolder(BuildFileTree(leq, files), names)
            <==> exists f :: f in files && Visible(f) && names <= FoldersOf(f.path)
  {
    var tree := BuildFileTree(leq, files);
    TreePlaces(leq, files);
    TreeSound(leq, files);
    assert [] + names == names;
    if HasFolder(tree, names) {
      var p := FolderPlaced(tree, [], names);
      ExpectedHas(files, p);
      assert p.file in files && Visible(p.file) && names <= FoldersOf(p.file.path);
    }
    if exists f :: f in files && Visible(f) && names <= FoldersOf(f.path) {
      var f :| f in files && Visible(f) && names <= FoldersOf(f.path);
      ExpectedHas(files, At(FoldersOf(f.path), f));
      PlacedFolder(tree, [], names, At(FoldersOf(f.path), f));
    }
  }
}
