/** Removal from the hash trie, its entries, and the map made of both. */
module HashTrieMaps {
  import opened Options
  import opened HashTrie

  function FilterOut<V>(entries: seq<(string, V)>, key: string): seq<(string, V)> {
    if entries == [] then []
    else (if entries[0].0 == key then [] else [entries[0]]) + FilterOut(entries[1..], key)
  }

  function Without<T>(s: seq<T>, idx: nat): (r: seq<T>)
    requires idx < |s|
    ensures |r| == |s| - 1
    ensures forall i :: 0 <= i < |r| ==> r[i] == if i < idx then s[i] else s[i + 1]
  {
    s[..idx] + s[idx + 1..]
  }

  /** The trie without the key, if anything is left, and by how much it has grown. */
  function Remove<V>(n: Node<V>, path: seq<nat>, key: string): (Option<Node<V>>, int)
    requires WellFormed(n, path)
    decreases n
  {
    var h := HashOf(key);
    match n
    case Leaf(_, k, _) => if k == key then (None, -1) else (Some(n), 0)
    case Collision(hash, entries) =>
      if hash != h then (Some(n), 0)
      else
        var left := FilterOut(entries, key);
        if |left| == |entries| then (Some(n), 0)
        else if |left| == 1 then (Some(Leaf(hash, left[0].0, left[0].1)), -1)
        else (Some(Collision(hash, left)), -1)
    case Bitmap(slots, children) =>
      BelowPlace(slots, h[|path|]);
      var idx := Below(slots, h[|path|]);
      if h[|path|] !in slots then (Some(n), 0)
      else
        var (child, delta) := Remove(children[idx], path + [slots[idx]], key);
        if delta == 0 then (Some(n), 0)
        else if child.Some? then (Some(Bitmap(slots, children[idx := child.value])), delta)
        else if |children| == 1 then (None, delta)
        else
          var left := Without(children, idx);
          if |left| == 1 && left[0].Leaf? then (Some(left[0]), delta)
          else (Some(Bitmap(Without(slots, idx), left)), delta)
  }

  function ValueIn<V>(n: Option<Node<V>>, path: seq<nat>, key: string): Option<V> {
    if n.None? then None else Value(n.value, path, key)
  }

  ghost predicate Good<V>(n: Option<Node<V>>, path: seq<nat>) { n.Some? ==> WellFormed(n.value, path) }

  lemma {:induction false} FilterIn<V>(entries: seq<(string, V)>, key: string, e: (string, V))
    ensures e in FilterOut(entries, key) <==> e in entries && e.0 != key
  {
    if entries != [] {
      FilterIn(entries[1..], key, e);
      assert e in entries <==> e == entries[0] || e in entries[1..];
    }
  }

  lemma {:induction false} FilterFinds<V>(entries: seq<(string, V)>, key: string)
    requires DistinctKeys(entries)
    ensures var left := FilterOut(entries, key);
            DistinctKeys(left) && |left| == |entries| - (if Find(entries, key).Some? then 1 else 0)
  {
    if entries != [] {
      var rest := FilterOut(entries[1..], key);
      FilterFinds(entries[1..], key);
      FindPlace(entries[1..], key);
      forall i | 0 <= i < |rest|
        ensures rest[i].0 != entries[0].0
      {
        FilterIn(entries[1..], key, rest[i]);
        var j :| 0 <= j < |entries[1..]| && entries[1..][j] == rest[i];
        assert entries[j + 1] == rest[i];
      }
      if entries[0].0 == key { assert forall i :: 0 <= i < |entries[1..]| ==> entries[1..][i] == entries[i + 1]; }
    }
  }

  /** In a list with distinct keys, what is found is what is there. */
  lemma {:induction false} FindIsIn<V>(entries: seq<(string, V)>, e: (string, V))
    requires DistinctKeys(entries)
    ensures e in entries <==> Find(entries, e.0).Some? && Find(entries, e.0).value < |entries|
                              && entries[Find(entries, e.0).value].1 == e.1
  {
    FindPlace(entries, e.0);
    if e in entries {
      var i :| 0 <= i < |entries| && entries[i] == e;
      assert Find(entries, e.0).Some?;
    }
  }

  lemma {:induction false} CollisionRemove<V>(n: Node<V>, path: seq<nat>, key: string, k: string)
    requires WellFormed(n, path) && n.Collision? && n.hash == HashOf(key)
    ensures var (m, delta) := Remove(n, path, key);
            && Good(m, path) && delta == (if Value(n, path, key).Some? then -1 else 0)
            && ValueIn(m, path, k) == if k == key then None else Value(n, path, k)
  {
    var left := FilterOut(n.entries, key);
    FilterFinds(n.entries, key);
    FindPlace(n.entries, key);
    FindPlace(n.entries, k);
    FindPlace(left, k);
    forall i | 0 <= i < |left|
      ensures HashOf(left[i].0) == n.hash
    {
      FilterIn(n.entries, key, left[i]);
      var j :| 0 <= j < |n.entries| && n.entries[j] == left[i];
    }
    SameFind(n.entries, left, key, k);
  }

  lemma {:induction false} SameFind<V>(entries: seq<(string, V)>, left: seq<(string, V)>, key: string, k: string)
    requires DistinctKeys(entries) && left == FilterOut(entries, key)
    ensures DistinctKeys(left)
    ensures Find(left, k).Some? <==> k != key && Find(entries, k).Some?
    ensures var at, to := Find(entries, k), Find(left, k);
            to.Some? ==> at.value < |entries| && to.value < |left| && left[to.value] == entries[at.value]
  {
    FilterFinds(entries, key);
    FindPlace(entries, k);
    FindPlace(left, k);
    var at, to := Find(entries, k), Find(left, k);
    if at.Some? {
      FilterIn(entries, key, entries[at.value]);
      if k != key { FindIsIn(left, entries[at.value]); }
    }
    if to.Some? {
      FilterIn(entries, key, left[to.value]);
      FindIsIn(entries, left[to.value]);
    }
  }

  lemma {:induction false} DropWellFormed<V>(n: Node<V>, path: seq<nat>, idx: nat)
    requires WellFormed(n, path) && n.Bitmap? && idx < |n.children| && |n.children| > 1
    ensures WellFormed(Bitmap(Without(n.slots, idx), Without(n.children, idx)), path)
    ensures n.slots[idx] !in Without(n.slots, idx)
    ensures forall t :: t in Without(n.slots, idx) ==> t in n.slots
  {
  }

  /** A bitmap node without one of its children. */
  lemma {:induction false} DropChild<V>(n: Node<V>, path: seq<nat>, idx: nat, k: string)
    requires WellFormed(n, path) && n.Bitmap? && idx < |n.children| && |n.children| > 1
    ensures var m := Bitmap(Without(n.slots, idx), Without(n.children, idx));
            && WellFormed(m, path)
            && Value(m, path, k) == if HashOf(k)[|path|] == n.slots[idx] then None else Value(n, path, k)
  {
    var t := HashOf(k)[|path|];
    DropWellFormed(n, path, idx);
    if t in n.slots && t != n.slots[idx] { OtherChild(n, path, idx, k); }
  }

  lemma {:induction false} OtherChild<V>(n: Node<V>, path: seq<nat>, idx: nat, k: string)
    requires WellFormed(n, path) && n.Bitmap? && idx < |n.children| && |n.children| > 1
    requires var t := HashOf(k)[|path|]; t in n.slots && t != n.slots[idx]
    requires WellFormed(Bitmap(Without(n.slots, idx), Without(n.children, idx)), path)
    ensures Value(Bitmap(Without(n.slots, idx), Without(n.children, idx)), path, k) == Value(n, path, k)
  {
    var at :| 0 <= at < |n.slots| && n.slots[at] == HashOf(k)[|path|];
    var there := if at < idx then at else at - 1;
    Shifted(n.slots, idx, at);
    Shifted(n.children, idx, at);
    BitmapValue(n, path, k, at);
    BitmapValue(Bitmap(Without(n.slots, idx), Without(n.children, idx)), path, k, there);
  }

  lemma Shifted<T>(s: seq<T>, idx: nat, at: nat)
    requires idx < |s| && at < |s| && at != idx
    ensures Without(s, idx)[if at < idx then at else at - 1] == s[at]
  {
  }

  /** A bitmap node with one leaf is as good as the leaf. */
  lemma {:induction false} OnlyLeaf<V>(n: Node<V>, path: seq<nat>, k: string)
    requires WellFormed(n, path) && n.Bitmap? && |n.children| == 1 && n.children[0].Leaf?
    ensures WellFormed(n.children[0], path) && Value(n.children[0], path, k) == Value(n, path, k)
  {
    var s := n.slots[0];
    assert path + [s] <= n.children[0].hash;
    BoundHash(n.children[0], path, k);
    if HashOf(k)[|path|] == s { BitmapValue(n, path, k, 0); }
  }

  lemma {:induction false} ReplaceChild<V>(n: Node<V>, path: seq<nat>, idx: nat, child: Node<V>, k: string)
    requires WellFormed(n, path) && n.Bitmap? && idx < |n.children| && WellFormed(child, path + [n.slots[idx]])
    ensures var m := Bitmap(n.slots, n.children[idx := child]);
            && WellFormed(m, path)
            && Value(m, path, k) ==
                 if HashOf(k)[|path|] == n.slots[idx] then Value(child, path + [n.slots[idx]], k) else Value(n, path, k)
  {
    var t := HashOf(k)[|path|];
    var m := Bitmap(n.slots, n.children[idx := child]);
    BelowPlace(n.slots, t);
    if t in n.slots {
      var at := Below(n.slots, t);
      BitmapValue(n, path, k, at);
      BitmapValue(m, path, k, at);
    }
  }

  /** Removal takes away what is bound to the key and nothing else, and says whether there was anything. */
  lemma {:induction false} RemoveValue<V>(n: Node<V>, path: seq<nat>, key: string, k: string)
    requires WellFormed(n, path)
    ensures var (m, delta) := Remove(n, path, key);
            && Good(m, path) && delta == (if Value(n, path, key).Some? then -1 else 0)
            && ValueIn(m, path, k) == if k == key then None else Value(n, path, k)
    decreases n
  {
    var h := HashOf(key);
    if n.Collision? {
      BoundHash(n, path, key);
      if n.hash == h { CollisionRemove(n, path, key, k); }
    } else if n.Bitmap? && h[|path|] in n.slots {
      BelowPlace(n.slots, h[|path|]);
      var idx := Below(n.slots, h[|path|]);
      BitmapValue(n, path, key, idx);
      if HashOf(k)[|path|] == n.slots[idx] { BitmapValue(n, path, k, idx); }
      BitmapRemove(n, path, key, k, idx);
    }
  }

  lemma {:induction false} BitmapRemove<V>(n: Node<V>, path: seq<nat>, key: string, k: string, idx: nat)
    requires WellFormed(n, path) && n.Bitmap? && idx < |n.slots| && n.slots[idx] == HashOf(key)[|path|]
    requires idx == Below(n.slots, HashOf(key)[|path|]) && n.slots[idx] in n.slots
    requires Value(n, path, key) == Value(n.children[idx], path + [n.slots[idx]], key)
    requires HashOf(k)[|path|] == n.slots[idx] ==> Value(n, path, k) == Value(n.children[idx], path + [n.slots[idx]], k)
    ensures var (m, delta) := Remove(n, path, key);
            && Good(m, path) && delta == (if Value(n, path, key).Some? then -1 else 0)
            && ValueIn(m, path, k) == if k == key then None else Value(n, path, k)
    decreases n, 0
  {
    var below := path + [n.slots[idx]];
    var (child, delta) := Remove(n.children[idx], below, key);
    RemoveValue(n.children[idx], below, key, k);
    if delta == 0 {
    } else if child.Some? {
      ReplaceChild(n, path, idx, child.value, k);
    } else if |n.children| == 1 {
      if HashOf(k)[|path|] != n.slots[idx] { assert HashOf(k)[|path|] !in n.slots; }
    } else {
      DropChild(n, path, idx, k);
      var m := Bitmap(Without(n.slots, idx), Without(n.children, idx));
      if |m.children| == 1 && m.children[0].Leaf? { OnlyLeaf(m, path, k); }
    }
  }

  // Entries.

  function Entries<V>(n: Node<V>): seq<(string, V)>
    decreases n
  {
    match n
    case Leaf(_, key, value) => [(key, value)]
    case Collision(_, entries) => entries
    case Bitmap(_, children) => EntriesOf(children, |children|)
  }

  /** The entries of the first children, one child after the other. */
  function EntriesOf<V>(children: seq<Node<V>>, k: nat): seq<(string, V)>
    requires k <= |children|
    decreases children, k
  {
    if k == 0 then [] else EntriesOf(children, k - 1) + Entries(children[k - 1])
  }

  lemma {:induction false} EntriesOfIn<V>(children: seq<Node<V>>, k: nat, e: (string, V))
    requires k <= |children|
    ensures e in EntriesOf(children, k) <==> exists i :: 0 <= i < k && e in Entries(children[i])
  {
    if k > 0 { EntriesOfIn(children, k - 1, e); }
  }

  /** What iteration yields is what lookup finds. */
  lemma {:induction false} EntriesValue<V>(n: Node<V>, path: seq<nat>, e: (string, V))
    requires WellFormed(n, path)
    ensures e in Entries(n) <==> Value(n, path, e.0) == Some(e.1)
    decreases n
  {
    if n.Collision? {
      FindIsIn(n.entries, e);
      FindPlace(n.entries, e.0);
      if e in n.entries {
        var i :| 0 <= i < |n.entries| && n.entries[i] == e;
        assert HashOf(n.entries[i].0) == n.hash;
      }
    } else if n.Bitmap? {
      EntriesOfIn(n.children, |n.children|, e);
      var t := HashOf(e.0)[|path|];
      BelowPlace(n.slots, t);
      forall i | 0 <= i < |n.children|
        ensures e in Entries(n.children[i]) <==> n.slots[i] == t && Value(n, path, e.0) == Some(e.1)
      {
        EntriesValue(n.children[i], path + [n.slots[i]], e);
        if n.slots[i] == t {
          BitmapValue(n, path, e.0, i);
        } else {
          GetFinds(n.children[i], path + [n.slots[i]], e.0);
          assert (path + [n.slots[i]])[|path|] == n.slots[i];
          OffPath(n.children[i], path + [n.slots[i]], e.0);
        }
      }
      if t in n.slots { assert n.slots[Below(n.slots, t)] == t; }
    }
  }

  lemma {:induction false} DistinctConcat<V>(a: seq<(string, V)>, b: seq<(string, V)>)
    requires DistinctKeys(a) && DistinctKeys(b) && forall e, f :: e in a && f in b ==> e.0 != f.0
    ensures DistinctKeys(a + b)
  {
    forall i, j | 0 <= i < j < |a + b|
      ensures (a + b)[i].0 != (a + b)[j].0
    {
      if i < |a| <= j { assert a[i] in a && b[j - |a|] in b; }
    }
  }

  lemma {:induction false} EntryPath<V>(n: Node<V>, path: seq<nat>, e: (string, V))
    requires WellFormed(n, path) && e in Entries(n)
    ensures path <= HashOf(e.0)
  {
    EntriesValue(n, path, e);
    GetFinds(n, path, e.0);
    if !(path <= HashOf(e.0)) { OffPath(n, path, e.0); }
  }

  /** Iteration yields no key twice. */
  lemma {:induction false} EntriesDistinct<V>(n: Node<V>, path: seq<nat>)
    requires WellFormed(n, path)
    ensures DistinctKeys(Entries(n))
    decreases n, 1
  {
    if n.Bitmap? { EntriesOfDistinct(n, path, |n.children|); }
  }

  lemma {:induction false} EntriesOfDistinct<V>(n: Node<V>, path: seq<nat>, k: nat)
    requires WellFormed(n, path) && n.Bitmap? && k <= |n.children|
    ensures DistinctKeys(EntriesOf(n.children, k))
    decreases n, 0, k
  {
    if k > 0 {
      EntriesOfDistinct(n, path, k - 1);
      EntriesDistinct(n.children[k - 1], path + [n.slots[k - 1]]);
      var before, last := EntriesOf(n.children, k - 1), Entries(n.children[k - 1]);
      forall e, f | e in before && f in last
        ensures e.0 != f.0
      {
        EntriesOfIn(n.children, k - 1, e);
        var i :| 0 <= i < k - 1 && e in Entries(n.children[i]);
        EntryPath(n.children[i], path + [n.slots[i]], e);
        EntryPath(n.children[k - 1], path + [n.slots[k - 1]], f);
        assert HashOf(e.0)[|path|] == (path + [n.slots[i]])[|path|];
        assert HashOf(f.0)[|path|] == (path + [n.slots[k - 1]])[|path|];
      }
      DistinctConcat(before, last);
    }
  }

  // The persistent map.

  datatype PersistentMap<V> = PersistentMap(root: Option<Node<V>>, size: int) {
    function Lookup(key: string): Option<V> {
      ValueIn(root, [], key)
    }

    function List(): seq<(string, V)> { if root.None? then [] else Entries(root.value) }

    /** The trie is well formed and the size is the number of its entries. */
    ghost predicate Valid() { Good(root, []) && size == |List()| }

    function Assoc(key: string, value: V): PersistentMap<V>
      requires Valid()
    {
      if root.None? then PersistentMap(Some(Leaf(HashOf(key), key, value)), size + 1)
      else var (n, delta) := Insert(root.value, [], key, value); PersistentMap(Some(n), size + delta)
    }

    function Dissoc(key: string): PersistentMap<V>
      requires Valid()
    {
      if root.None? then this
      else var (n, delta) := Remove(root.value, [], key); if delta == 0 then this else PersistentMap(n, size + delta)
    }

    /** The map it stands for. */
    function View(): map<string, V> { ToMap(List()) }
  }

  function ToMap<V>(entries: seq<(string, V)>): map<string, V> {
    if entries == [] then map[]
    else ToMap(entries[..|entries| - 1])[entries[|entries| - 1].0 := entries[|entries| - 1].1]
  }

  lemma {:induction false} LastKeyIsNew<V>(entries: seq<(string, V)>, e: (string, V))
    requires DistinctKeys(entries) && entries != [] && e in entries[..|entries| - 1]
    ensures e.0 != entries[|entries| - 1].0
  {
    var i :| 0 <= i < |entries| - 1 && entries[..|entries| - 1][i] == e;
    assert entries[i] == e;
  }

  lemma {:induction false} ToMapEntry<V>(entries: seq<(string, V)>, e: (string, V))
    requires DistinctKeys(entries)
    ensures e in entries <==> e.0 in ToMap(entries) && ToMap(entries)[e.0] == e.1
  {
    if entries != [] {
      var k := |entries| - 1;
      var before, last := entries[..k], entries[k];
      ToMapEntry(before, e);
      assert e in entries <==> e in before || e == last;
      if e in before { LastKeyIsNew(entries, e); }
    }
  }

  lemma {:induction false} ToMapSize<V>(entries: seq<(string, V)>)
    requires DistinctKeys(entries)
    ensures |ToMap(entries)| == |entries|
  {
    if entries != [] {
      var k := |entries| - 1;
      var before, last := entries[..k], entries[k];
      ToMapSize(before);
      forall e | e in before
        ensures e.0 != last.0
      {
        LastKeyIsNew(entries, e);
      }
      if last.0 in ToMap(before) { ToMapEntry(before, (last.0, ToMap(before)[last.0])); }
    }
  }

  /** Lookup, size and iteration are those of the map. */
  lemma {:induction false} ViewLookup<V>(p: PersistentMap<V>, key: string)
    requires p.Valid()
    ensures p.Lookup(key) == if key in p.View() then Some(p.View()[key]) else None
    ensures p.size == |p.View()| && DistinctKeys(p.List())
  {
    if p.root.Some? {
      var n := p.root.value;
      EntriesDistinct(n, []);
      ToMapSize(p.List());
      if p.Lookup(key).Some? {
        EntriesValue(n, [], (key, p.Lookup(key).value));
        ToMapEntry(p.List(), (key, p.Lookup(key).value));
      }
      if key in p.View() {
        ToMapEntry(p.List(), (key, p.View()[key]));
        EntriesValue(n, [], (key, p.View()[key]));
      }
    }
  }

  /** The delta of an insertion is right. */
  lemma {:induction false} InsertDelta<V>(n: Node<V>, path: seq<nat>, key: string, value: V)
    requires WellFormed(n, path) && path <= HashOf(key)
    ensures Insert(n, path, key, value).1 == if Value(n, path, key).Some? then 0 else 1
    decreases n
  {
    var h := HashOf(key);
    if n.Bitmap? {
      BelowPlace(n.slots, h[|path|]);
      var idx := Below(n.slots, h[|path|]);
      if h[|path|] in n.slots { InsertDelta(n.children[idx], path + [n.slots[idx]], key, value); }
    } else {
      BoundHash(n, path, key);
      if n.Collision? { FindPlace(n.entries, key); }
    }
  }

  lemma {:induction false} SizeOf<V>(root: Option<Node<V>>, key: string, before: map<string, V>, size: int, delta: int)
    requires Good(root, [])
    requires forall k :: ValueIn(root, [], k) == if k in before then Some(before[k]) else None
    requires size + delta == |before|
    ensures PersistentMap(root, size + delta).Valid() && PersistentMap(root, size + delta).View() == before
  {
    if root.None? {
      forall k
        ensures k !in before
      {
        assert ValueIn(root, [], k).None?;
      }
    } else {
      var p := PersistentMap(root, |Entries(root.value)|);
      ViewLookup(p, key);
      forall k
        ensures k in p.View() <==> k in before
        ensures k in before ==> p.View()[k] == before[k]
      {
        ViewLookup(p, k);
        assert ValueIn(root, [], k) == p.Lookup(k);
      }
      assert p.View() == before;
    }
  }

  /** Binding a key in the trie is binding it in the map, and the trie stays valid, whatever the hashes. */
  lemma {:induction false} AssocView<V>(p: PersistentMap<V>, key: string, value: V)
    requires p.Valid()
    ensures p.Assoc(key, value).Valid() && p.Assoc(key, value).View() == p.View()[key := value]
  {
    var q := p.Assoc(key, value);
    var after := p.View()[key := value];
    ViewLookup(p, key);
    if p.root.Some? {
      InsertWellFormed(p.root.value, [], key, value);
      InsertDelta(p.root.value, [], key, value);
    }
    forall k
      ensures q.Lookup(k) == if k in after then Some(after[k]) else None
    {
      ViewLookup(p, k);
      if p.root.Some? { InsertValue(p.root.value, [], key, value, k); }
    }
    SizeOf(q.root, key, after, p.size, q.size - p.size);
  }

  /** Removing a key from the trie is removing it from the map. */
  lemma {:induction false} DissocView<V>(p: PersistentMap<V>, key: string)
    requires p.Valid()
    ensures p.Dissoc(key).Valid() && p.Dissoc(key).View() == p.View() - {key}
  {
    var q := p.Dissoc(key);
    var after := p.View() - {key};
    ViewLookup(p, key);
    if p.root.Some? { RemoveValue(p.root.value, [], key, key); }
    forall k
      ensures q.Lookup(k) == if k in after then Some(after[k]) else None
    {
      ViewLookup(p, k);
      if p.root.Some? { RemoveValue(p.root.value, [], key, k); }
    }
    SizeOf(q.root, key, after, p.size, q.size - p.size);
  }

  /** The map with these entries, put in one by one. */
  ghost function From<V>(entries: seq<(string, V)>): PersistentMap<V>
    ensures From(entries).Valid()
  {
    if entries == [] then PersistentMap(None, 0)
    else
      var last := entries[|entries| - 1];
      var before := From(entries[..|entries| - 1]);
      AssocView(before, last.0, last.1);
      before.Assoc(last.0, last.1)
  }

  /** It stands for the map in which every key has the last of its values, and has as many entries as that. */
  lemma {:induction false} FromView<V>(entries: seq<(string, V)>)
    ensures From(entries).View() == ToMap(entries) && From(entries).size == |ToMap(entries)|
  {
    if entries == [] {
      assert PersistentMap<V>.PersistentMap(None, 0).View() == map[];
    } else {
      var last := entries[|entries| - 1];
      var before := From(entries[..|entries| - 1]);
      FromView(entries[..|entries| - 1]);
      AssocView(before, last.0, last.1);
    }
    ViewLookup(From(entries), "");
  }
}
