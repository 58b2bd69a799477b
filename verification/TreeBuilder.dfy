/** Building the tree in place, array by array. */
module TreeBuilder {
  import opened Options
  import opened Paths
  import opened FileStore
  import opened FileTree

  /** A folder holds the array of its children; the array is shared, not copied. */
  datatype Item = FolderItem(path: string, name: string, children: Children) | FileItem(file: File)

  function ItemKey(i: Item): Key {
    match i
    case FolderItem(_, name, _) => Key(true, name)
    case FileItem(file) => Key(false, NameOf(file.path))
  }

  class Children {
    var nodes: seq<Item>
    ghost var Repr: set<object>
    ghost var View: seq<Node>

    /** Every array below belongs to one folder only, and `View` is the tree below. */
    ghost predicate Valid()
      reads this, Repr
      decreases Repr
    {
      && this in Repr && |View| == |nodes|
      && (forall i :: 0 <= i < |nodes| && nodes[i].FolderItem? ==>
            && nodes[i].children in Repr && nodes[i].children.Repr <= Repr - {this}
            && nodes[i].children.Valid())
      && (forall i :: 0 <= i < |nodes| ==> Stands(nodes[i], View[i]))
      && (forall i, j :: 0 <= i < j < |nodes| && nodes[i].FolderItem? && nodes[j].FolderItem? ==>
            nodes[i].children.Repr !! nodes[j].children.Repr)
    }

    static ghost predicate Stands(i: Item, n: Node)
      reads if i.FolderItem? then {i.children} else {}
    {
      match i
      case FolderItem(path, name, children) => n == Folder(path, name, children.View)
      case FileItem(file) => n == Leaf(file)
    }

    constructor ()
      ensures Valid() && fresh(Repr) && Repr == {this} && View == [] && nodes == []
    {
      nodes, View, Repr := [], [], {this};
    }

    method Find(path: string) returns (i: nat)
      requires Valid()
      ensures i <= |nodes| && FindFolder(View, path) == if i < |nodes| then Some(i) else None
      ensures i < |nodes| ==> nodes[i].FolderItem?
    {
      i := 0;
      while i < |nodes| && !(nodes[i].FolderItem? && nodes[i].path == path)
        invariant i <= |nodes|
        invariant forall k :: 0 <= k < i ==> !(View[k].Folder? && View[k].path == path)
      {
        assert Stands(nodes[i], View[i]);
        i := i + 1;
      }
      if i < |nodes| {
        assert Stands(nodes[i], View[i]);
        FirstFolder(View, path, i);
      }
    }

    method Add(path: string, name: string)
      requires Valid() && FindFolder(View, path).None?
      modifies this
      ensures Valid() && fresh(Repr - old(Repr))
      ensures View == old(View) + [Folder(path, name, [])] && |nodes| == |old(nodes)| + 1
      ensures nodes[|nodes| - 1].FolderItem? && fresh(nodes[|nodes| - 1].children)
    {
      var c := new Children();
      nodes := nodes + [FolderItem(path, name, c)];
      View := View + [Folder(path, name, [])];
      Repr := Repr + c.Repr;
    }

    method InsertFile(file: File, segments: seq<string>, parentPath: string)
      requires Valid() && segments != []
      modifies Repr
      ensures Valid() && fresh(Repr - old(Repr))
      ensures View == Insert(old(View), file, segments, parentPath)
      decreases |segments|, 0
    {
      if |segments| == 1 {
        nodes := nodes + [FileItem(file)];
        View := View + [Leaf(file)];
      } else {
        var path := Under(parentPath, segments[0]);
        var i := Find(path);
        if i == |nodes| { Add(path, segments[0]); }
        InsertBelow(i, file, segments[1..], path);
      }
    }

    method InsertBelow(i: nat, file: File, rest: seq<string>, path: string)
      requires Valid() && rest != [] && i < |nodes| && nodes[i].FolderItem?
      modifies Repr
      ensures Valid() && fresh(Repr - old(Repr))
      ensures View == old(View)[i := old(View[i]).(children := Insert(old(View[i].children), file, rest, path))]
      decreases |rest|, 1
    {
      var c := nodes[i].children;
      assert Stands(nodes[i], View[i]);
      c.InsertFile(file, rest, path);
      assert forall k :: 0 <= k < |nodes| && k != i && nodes[k].FolderItem? ==>
               nodes[k].children.Valid() && nodes[k].children.Repr !! c.Repr;
      Repr := Repr + c.Repr;
      View := View[i := View[i].(children := c.View)];
    }

    /** Sorts this array, then those below. */
    method SortNodes(leq: (string, string) -> bool)
      requires Valid()
      modifies Repr
      ensures Valid() && Repr == old(Repr)
      ensures View == Arrange(leq, NodeKey, SortEach(leq, old(View)))
      decreases Repr, 2
    {
      SortHere(leq);
      SortFolders(leq);
      ArrangeCommutes(leq, old(View));
    }

    method SortFolders(leq: (string, string) -> bool)
      requires Valid()
      modifies Repr
      ensures Valid() && Repr == old(Repr)
      ensures View == SortEach(leq, old(View))
      decreases Repr, 1
    {
      ghost var before := View;
      var i := 0;
      while i < |nodes|
        invariant 0 <= i <= |nodes| == |before|
        invariant Valid() && Repr == old(Repr)
        invariant View == SortEach(leq, before[..i]) + before[i..]
      {
        SortStep(leq, before, i);
        SortBelow(leq, i);
        i := i + 1;
      }
      assert before[..i] == before;
    }

    method SortHere(leq: (string, string) -> bool)
      requires Valid()
      modifies this
      ensures Valid() && Repr == old(Repr)
      ensures View == Arrange(leq, NodeKey, old(View))
    {
      forall k | 0 <= k < |nodes|
        ensures ItemKey(nodes[k]) == NodeKey(View[k])
      {
        assert Stands(nodes[k], View[k]);
      }
      ghost var ps := SortedSpots(leq, nodes, View);
      Reorder(Arrange(leq, ItemKey, nodes), Arrange(leq, NodeKey, View), ps);
    }

    /** The same items in another order. */
    method Reorder(items: seq<Item>, ghost view: seq<Node>, ghost ps: seq<Spot>)
      requires Valid() && |items| == |view| == |ps| == |nodes| && DistinctSpots(ps)
      requires forall i ::
                 0 <= i < |ps| ==> SpotOf(nodes, View, ps[i]) && items[i] == ps[i].item && view[i] == ps[i].node
      modifies this
      ensures Valid() && Repr == old(Repr) && nodes == items && View == view
    {
      nodes := items;
      View := view;
    }

    method SortBelow(leq: (string, string) -> bool, i: nat)
      requires Valid() && i < |nodes|
      modifies Repr
      ensures Valid() && Repr == old(Repr) && nodes == old(nodes)
      ensures View == old(View)[i := SortNode(leq, old(View[i]))]
      decreases Repr, 0
    {
      assert Stands(nodes[i], View[i]);
      if nodes[i].FolderItem? { nodes[i].children.SortNodes(leq); }
      View := View[i := SortNode(leq, View[i])];
    }
  }

  lemma {:induction false} FirstFolder(nodes: seq<Node>, path: string, i: nat)
    requires i < |nodes| && nodes[i].Folder? && nodes[i].path == path
    requires forall k :: 0 <= k < i ==> !(nodes[k].Folder? && nodes[k].path == path)
    ensures FindFolder(nodes, path) == Some(i)
  {
    if i > 0 { FirstFolder(nodes[1..], path, i - 1); }
  }

  // Sorting commutes with whatever keeps the keys.

  function Map<T, U>(f: T -> U, s: seq<T>): (r: seq<U>)
    ensures |r| == |s| && forall i :: 0 <= i < |s| ==> r[i] == f(s[i])
  {
    if s == [] then [] else [f(s[0])] + Map(f, s[1..])
  }

  predicate Each<T>(P: T -> bool, s: seq<T>) { forall i :: 0 <= i < |s| ==> P(s[i]) }

  lemma {:induction false} PlaceEach<T>(leq: (string, string) -> bool, key: T -> Key, P: T -> bool, n: T,
                                        sorted: seq<T>)
    requires P(n) && Each(P, sorted)
    ensures Each(P, Place(leq, key, n, sorted)) && |Place(leq, key, n, sorted)| == |sorted| + 1
  {
    if sorted != [] && !Before(leq, key(n), key(sorted[0])) { PlaceEach(leq, key, P, n, sorted[1..]); }
  }

  lemma {:induction false} ArrangeEach<T>(leq: (string, string) -> bool, key: T -> Key, P: T -> bool, s: seq<T>)
    requires Each(P, s)
    ensures Each(P, Arrange(leq, key, s)) && |Arrange(leq, key, s)| == |s|
  {
    if s != [] {
      ArrangeEach(leq, key, P, s[1..]);
      PlaceEach(leq, key, P, s[0], Arrange(leq, key, s[1..]));
    }
  }

  lemma {:induction false} MapCons<T, U>(f: T -> U, x: T, rest: seq<T>)
    ensures Map(f, [x] + rest) == [f(x)] + Map(f, rest)
  {
    assert ([x] + rest)[1..] == rest;
  }

  lemma {:induction false} MapPlace<T, U>(leq: (string, string) -> bool, keyT: T -> Key, keyU: U -> Key, f: T -> U,
      n: T, sorted: seq<T>)
    requires keyU(f(n)) == keyT(n) && Each(x => keyU(f(x)) == keyT(x), sorted)
    ensures Map(f, Place(leq, keyT, n, sorted)) == Place(leq, keyU, f(n), Map(f, sorted))
  {
    if sorted != [] {
      assert keyU(f(sorted[0])) == keyT(sorted[0]);
      assert Map(f, sorted)[1..] == Map(f, sorted[1..]);
      if Before(leq, keyT(n), keyT(sorted[0])) {
        MapCons(f, n, sorted);
      } else {
        MapPlace(leq, keyT, keyU, f, n, sorted[1..]);
        MapCons(f, sorted[0], Place(leq, keyT, n, sorted[1..]));
      }
    }
  }

  lemma {:induction false} MapArrange<T, U>(leq: (string, string) -> bool, keyT: T -> Key, keyU: U -> Key, f: T -> U,
      s: seq<T>)
    requires Each(x => keyU(f(x)) == keyT(x), s)
    ensures Map(f, Arrange(leq, keyT, s)) == Arrange(leq, keyU, Map(f, s))
  {
    if s != [] {
      var same := x => keyU(f(x)) == keyT(x);
      MapArrange(leq, keyT, keyU, f, s[1..]);
      ArrangeEach(leq, keyT, same, s[1..]);
      assert same(s[0]);
      MapPlace(leq, keyT, keyU, f, s[0], Arrange(leq, keyT, s[1..]));
    }
  }

  lemma {:induction false} SortEachMap(leq: (string, string) -> bool, nodes: seq<Node>)
    ensures SortEach(leq, nodes) == Map(n => SortNode(leq, n), nodes)
  {
    if nodes != [] { SortEachMap(leq, nodes[1..]); }
  }

  /** It makes no difference whether the folders are sorted before or after the array they are in. */
  lemma {:induction false} ArrangeCommutes(leq: (string, string) -> bool, nodes: seq<Node>)
    ensures SortEach(leq, Arrange(leq, NodeKey, nodes)) == Arrange(leq, NodeKey, SortEach(leq, nodes))
  {
    SortEachMap(leq, nodes);
    SortEachMap(leq, Arrange(leq, NodeKey, nodes));
    MapArrange(leq, NodeKey, NodeKey, n => SortNode(leq, n), nodes);
  }

  lemma {:induction false} SortStep(leq: (string, string) -> bool, nodes: seq<Node>, i: nat)
    requires i < |nodes|
    ensures (SortEach(leq, nodes[..i]) + nodes[i..])[i] == nodes[i]
    ensures (SortEach(leq, nodes[..i]) + nodes[i..])[i := SortNode(leq, nodes[i])]
            == SortEach(leq, nodes[..i + 1]) + nodes[i + 1..]
  {
    SortEachMap(leq, nodes[..i + 1]);
    SortEachMap(leq, nodes[..i]);
    assert SortEach(leq, nodes[..i + 1]) == SortEach(leq, nodes[..i]) + [SortNode(leq, nodes[i])];
  }

  // Sorting the array and the tree it stands for side by side.

  datatype Spot = Spot(at: nat, item: Item, node: Node)

  ghost function Spots(items: seq<Item>, view: seq<Node>): seq<Spot>
    requires |items| == |view|
  {
    seq(|items|, k requires 0 <= k < |items| => Spot(k, items[k], view[k]))
  }

  ghost predicate DistinctSpots(s: seq<Spot>) { forall i, j :: 0 <= i < j < |s| ==> s[i].at != s[j].at }

  lemma {:induction false} PlaceDistinct(leq: (string, string) -> bool, key: Spot -> Key, n: Spot, sorted: seq<Spot>)
    requires DistinctSpots(sorted) && forall i :: 0 <= i < |sorted| ==> sorted[i].at != n.at
    ensures DistinctSpots(Place(leq, key, n, sorted))
  {
    if sorted != [] && !Before(leq, key(n), key(sorted[0])) {
      PlaceDistinct(leq, key, n, sorted[1..]);
      PlaceEach(leq, key, (s: Spot) => s.at != sorted[0].at, n, sorted[1..]);
    }
  }

  lemma {:induction false} ArrangeDistinct(leq: (string, string) -> bool, key: Spot -> Key, s: seq<Spot>)
    requires DistinctSpots(s)
    ensures DistinctSpots(Arrange(leq, key, s))
  {
    if s != [] {
      ArrangeDistinct(leq, key, s[1..]);
      ArrangeEach(leq, key, (x: Spot) => x.at != s[0].at, s[1..]);
      PlaceDistinct(leq, key, s[0], Arrange(leq, key, s[1..]));
    }
  }

  ghost predicate SpotOf(items: seq<Item>, view: seq<Node>, s: Spot)
    requires |items| == |view|
  {
    s.at < |items| && s.item == items[s.at] && s.node == view[s.at]
  }

  lemma {:induction false} SortedSpots(leq: (string, string) -> bool, items: seq<Item>, view: seq<Node>)
    returns (ps: seq<Spot>)
    requires |items| == |view| && forall k :: 0 <= k < |items| ==> ItemKey(items[k]) == NodeKey(view[k])
    ensures |ps| == |items| && DistinctSpots(ps)
    ensures forall i :: 0 <= i < |ps| ==> SpotOf(items, view, ps[i])
    ensures Arrange(leq, ItemKey, items) == Map((s: Spot) => s.item, ps)
    ensures Arrange(leq, NodeKey, view) == Map((s: Spot) => s.node, ps)
  {
    var spots, key := Spots(items, view), (s: Spot) => ItemKey(s.item);
    ps := Arrange(leq, key, spots);
    ArrangeDistinct(leq, key, spots);
    ArrangeEach(leq, key, (s: Spot) => SpotOf(items, view, s), spots);
    ItemsArranged(leq, items, view);
    NodesArranged(leq, items, view);
  }

  lemma {:induction false} ItemsArranged(leq: (string, string) -> bool, items: seq<Item>, view: seq<Node>)
    requires |items| == |view|
    ensures Arrange(leq, ItemKey, items)
            == Map((s: Spot) => s.item, Arrange(leq, (s: Spot) => ItemKey(s.item), Spots(items, view)))
  {
    MapArrange(leq, (s: Spot) => ItemKey(s.item), ItemKey, (s: Spot) => s.item, Spots(items, view));
    assert Map((s: Spot) => s.item, Spots(items, view)) == items;
  }

  lemma {:induction false} NodesArranged(leq: (string, string) -> bool, items: seq<Item>, view: seq<Node>)
    requires |items| == |view| && forall k :: 0 <= k < |items| ==> ItemKey(items[k]) == NodeKey(view[k])
    ensures Arrange(leq, NodeKey, view)
            == Map((s: Spot) => s.node, Arrange(leq, (s: Spot) => ItemKey(s.item), Spots(items, view)))
  {
    MapArrange(leq, (s: Spot) => ItemKey(s.item), NodeKey, (s: Spot) => s.node, Spots(items, view));
    assert Map((s: Spot) => s.node, Spots(items, view)) == view;
  }

  method BuildTree(leq: (string, string) -> bool, files: seq<File>) returns (root: Children)
    ensures root.Valid() && root.View == BuildFileTree(leq, files)
  {
    root := new Children();
    var i := 0;
    while i < |files|
      invariant 0 <= i <= |files| && root.Valid() && fresh(root.Repr)
      invariant root.View == Built(files[..i])
    {
      assert files[..i + 1][..i] == files[..i];
      if Visible(files[i]) { root.InsertFile(files[i], Split(files[i].path), ""); }
      i := i + 1;
    }
    assert files[..i] == files;
    root.SortNodes(leq);
  }
}
