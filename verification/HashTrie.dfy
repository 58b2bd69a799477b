/** The hash trie under the language's maps: lookup, insertion and removal against the map it stands for. */
module HashTrie {
  import opened Options

  // Hashes.

  const WORD := 0x1_0000_0000

  /** The 32-bit hash of a string. */
  function HashFrom(h: nat, s: string): nat
    requires h < WORD
    ensures HashFrom(h, s) < WORD
    decreases |s|
  {
    if s == "" then h else HashFrom((31 * h + s[0] as nat) % WORD, s[1..])
  }

  /** The groups of five bits, lowest first; seven of them make up a 32-bit word. */
  function Groups(n: nat, k: nat): (gs: seq<nat>)
    ensures |gs| == k && forall i :: 0 <= i < k ==> gs[i] < 32
  {
    if k == 0 then [] else [n % 32] + Groups(n / 32, k - 1)
  }

  const LEVELS := 7

  type Hash = seq<nat>

  function HashOf(key: string): (h: Hash)
    ensures |h| == LEVELS
  {
    Groups(HashFrom(0, key), LEVELS)
  }

  function Power(k: nat): nat { if k == 0 then 1 else 32 * Power(k - 1) }

  /** Two words differ in one of their groups. */
  lemma {:induction false} GroupsTellApart(a: nat, b: nat, k: nat)
    requires Groups(a, k) == Groups(b, k) && a < Power(k) && b < Power(k)
    ensures a == b
  {
    if k > 0 {
      assert Groups(a, k)[0] == a % 32 && Groups(a, k)[1..] == Groups(a / 32, k - 1);
      assert Groups(b, k)[0] == b % 32 && Groups(b, k)[1..] == Groups(b / 32, k - 1);
      GroupsTellApart(a / 32, b / 32, k - 1);
    }
  }

  lemma {:induction false} WordFits()
    ensures WORD <= Power(LEVELS)
  {
    assert Power(1) == 32 && Power(2) == 1024 && Power(3) == 32768 && Power(4) == 1048576;
    assert Power(5) == 33554432 && Power(6) == 1073741824 && Power(7) == 34359738368;
  }

  lemma {:induction false} HashesTellApart(a: string, b: string)
    ensures HashOf(a) == HashOf(b) <==> HashFrom(0, a) == HashFrom(0, b)
  {
    WordFits();
    if HashOf(a) == HashOf(b) { GroupsTellApart(HashFrom(0, a), HashFrom(0, b), LEVELS); }
  }

  // Nodes.

  /** The slots of a bitmap node are the bits set in its bitmap, lowest first. */
  datatype Node<V> =
    | Leaf(hash: Hash, key: string, value: V)
    | Collision(hash: Hash, entries: seq<(string, V)>)
    | Bitmap(slots: seq<nat>, children: seq<Node<V>>)

  /** How many of the slots are below the given one: the place of its child among the children. */
  function Below(slots: seq<nat>, s: nat): (k: nat)
    ensures k <= |slots|
  {
    if slots == [] then 0 else Below(slots[1..], s) + if slots[0] < s then 1 else 0
  }

  predicate Increasing(slots: seq<nat>) { forall i, j :: 0 <= i < j < |slots| ==> slots[i] < slots[j] }

  lemma {:induction false} BelowPlace(slots: seq<nat>, s: nat)
    requires Increasing(slots)
    ensures forall i :: 0 <= i < |slots| ==> (i < Below(slots, s) <==> slots[i] < s)
    ensures s in slots <==> Below(slots, s) < |slots| && slots[Below(slots, s)] == s
  {
    if slots != [] {
      BelowPlace(slots[1..], s);
      forall i | 0 <= i < |slots|
        ensures i < Below(slots, s) <==> slots[i] < s
      {
        if i > 0 { assert slots[i] == slots[1..][i - 1]; }
        assert |slots| > 1 ==> slots[1..][0] == slots[1];
      }
      assert s in slots <==> s == slots[0] || s in slots[1..];
    }
  }

  function Find<V>(entries: seq<(string, V)>, key: string): Option<nat> {
    if entries == [] then None
    else if entries[0].0 == key then Some(0)
    else var rest := Find(entries[1..], key); if rest.None? then None else Some(rest.value + 1)
  }

  function Get<V>(n: Node<V>, key: string, h: Hash, depth: nat): Option<V>
    requires |h| == LEVELS
    decreases n
  {
    match n
    case Leaf(_, k, v) => if k == key then Some(v) else None
    case Collision(hash, entries) =>
      if hash != h then None
      else var at := Find(entries, key); if at.None? || at.value >= |entries| then None else Some(entries[at.value].1)
    case Bitmap(slots, children) =>
      if depth >= LEVELS || h[depth] !in slots then None
      else
        var idx := Below(slots, h[depth]);
        if idx >= |children| then None else Get(children[idx], key, h, depth + 1)
  }

  // Well-formed tries.

  predicate DistinctKeys<V>(entries: seq<(string, V)>) {
    forall i, j :: 0 <= i < j < |entries| ==> entries[i].0 != entries[j].0
  }

  /** A trie whose keys all have hashes that start with the given groups. */
  ghost predicate WellFormed<V>(n: Node<V>, path: seq<nat>)
    decreases n
  {
    match n
    case Leaf(hash, key, _) => hash == HashOf(key) && path <= hash
    case Collision(hash, entries) =>
      && |entries| >= 2 && DistinctKeys(entries) && path <= hash && |hash| == LEVELS
      && forall i :: 0 <= i < |entries| ==> HashOf(entries[i].0) == hash
    case Bitmap(slots, children) =>
      && |path| < LEVELS && |slots| == |children| > 0 && Increasing(slots)
      && forall i :: 0 <= i < |children| ==> slots[i] < 32 && WellFormed(children[i], path + [slots[i]])
  }

  /** What a lookup finds. */
  function Value<V>(n: Node<V>, path: seq<nat>, key: string): Option<V> { Get(n, key, HashOf(key), |path|) }

  /** Keys under another path are not found. */
  lemma {:induction false} OffPath<V>(n: Node<V>, path: seq<nat>, key: string)
    requires WellFormed(n, path) && !(path <= HashOf(key))
    ensures !Holds(n, key)
    decreases n
  {
    if n.Bitmap? {
      forall i | 0 <= i < |n.children|
        ensures !Holds(n.children[i], key)
      {
        OffPath(n.children[i], path + [n.slots[i]], key);
      }
    }
  }

  /** The key is somewhere in the trie, reachable by lookup or not. */
  predicate Holds<V>(n: Node<V>, key: string) {
    match n
    case Leaf(_, k, _) => k == key
    case Collision(_, entries) => exists i :: 0 <= i < |entries| && entries[i].0 == key
    case Bitmap(_, children) => exists i :: 0 <= i < |children| && Holds(children[i], key)
  }

  lemma {:induction false} FindPlace<V>(entries: seq<(string, V)>, key: string)
    ensures var at := Find(entries, key);
            && (at.Some? ==> at.value < |entries| && entries[at.value].0 == key)
            && (at.None? ==> forall i :: 0 <= i < |entries| ==> entries[i].0 != key)
    decreases |entries|
  {
    if entries != [] {
      FindPlace(entries[1..], key);
      forall i | 0 <= i < |entries| && Find(entries, key).None?
        ensures entries[i].0 != key
      {
        if i > 0 { assert entries[i] == entries[1..][i - 1]; }
      }
    }
  }

  /** Lookup finds what the trie holds. */
  lemma {:induction false} GetFinds<V>(n: Node<V>, path: seq<nat>, key: string)
    requires WellFormed(n, path)
    ensures Value(n, path, key).Some? <==> Holds(n, key)
    decreases n
  {
    var h := HashOf(key);
    match n {
      case Leaf(_, _, _) =>
      case Collision(_, entries) =>
        FindPlace(entries, key);
      case Bitmap(slots, children) =>
        BelowPlace(slots, h[|path|]);
        forall i | 0 <= i < |children|
          ensures Holds(children[i], key) ==> path <= h && slots[i] == h[|path|]
        {
          if !(path + [slots[i]] <= h) { OffPath(children[i], path + [slots[i]], key); }
        }
        if h[|path|] in slots {
          var idx := Below(slots, h[|path|]);
          GetFinds(children[idx], path + [slots[idx]], key);
        }
    }
  }

  // Insertion.

  lemma {:induction false} PartWays(x: Hash, y: Hash, depth: nat)
    requires |x| == |y| == LEVELS && depth <= LEVELS && x[..depth] == y[..depth] && x != y
    ensures depth < LEVELS && (x[depth] == y[depth] ==> x[..depth + 1] == y[..depth + 1])
  {
    assert x[..LEVELS] == x && y[..LEVELS] == y;
    assert depth < LEVELS ==> x[..depth + 1] == x[..depth] + [x[depth]] && y[..depth + 1] == y[..depth] + [y[depth]];
  }

  /** A bitmap node over two nodes whose hashes part ways at this depth or below. */
  function Split<V>(a: Node<V>, b: Node<V>, depth: nat): Node<V>
    requires !a.Bitmap? && !b.Bitmap? && |a.hash| == |b.hash| == LEVELS
    requires depth <= LEVELS && a.hash[..depth] == b.hash[..depth] && a.hash != b.hash
    decreases LEVELS - depth
  {
    PartWays(a.hash, b.hash, depth);
    var sa, sb := a.hash[depth], b.hash[depth];
    if sa == sb then Bitmap([sa], [Split(a, b, depth + 1)])
    else if sa < sb then Bitmap([sa, sb], [a, b])
    else Bitmap([sb, sa], [b, a])
  }

  /** A sequence with something put in at a place. */
  function Splice<T>(s: seq<T>, idx: nat, x: T): (r: seq<T>)
    requires idx <= |s|
    ensures |r| == |s| + 1
    ensures forall i :: 0 <= i < |r| ==> r[i] == if i < idx then s[i] else if i == idx then x else s[i - 1]
  {
    s[..idx] + [x] + s[idx..]
  }

  /** The trie with the key bound to the value, and by how much it has grown. */
  function Insert<V>(n: Node<V>, path: seq<nat>, key: string, value: V): (Node<V>, int)
    requires WellFormed(n, path) && path <= HashOf(key)
    decreases n
  {
    var h := HashOf(key);
    match n
    case Leaf(hash, k, v) =>
      if k == key then (Leaf(hash, k, value), 0)
      else if hash == h then (Collision(h, [(k, v), (key, value)]), 1)
      else (Split(n, Leaf(h, key, value), |path|), 1)
    case Collision(hash, entries) =>
      if hash != h then (Split(n, Leaf(h, key, value), |path|), 1)
      else
        FindPlace(entries, key);
        var at := Find(entries, key);
        if at.Some? then (Collision(hash, entries[at.value := (key, value)]), 0)
        else (Collision(hash, entries + [(key, value)]), 1)
    case Bitmap(slots, children) =>
      BelowPlace(slots, h[|path|]);
      var idx := Below(slots, h[|path|]);
      if h[|path|] in slots then
        assert path + [slots[idx]] <= h;
        var (child, delta) := Insert(children[idx], path + [slots[idx]], key, value);
        (Bitmap(slots, children[idx := child]), delta)
      else
        (Bitmap(Splice(slots, idx, h[|path|]), Splice(children, idx, Leaf(h, key, value))), 1)
  }

  lemma {:induction false} OneDeeper<V>(n: Node<V>, path: seq<nat>)
    requires WellFormed(n, path) && !n.Bitmap? && |path| < LEVELS
    ensures |n.hash| == LEVELS && n.hash[..|path|] == path && n.hash[|path|] < 32
    ensures WellFormed(n, path + [n.hash[|path|]])
  {
    var key := if n.Leaf? then n.key else n.entries[0].0;
    assert n.hash == HashOf(key);
  }

  lemma {:induction false} SplitWellFormed<V>(a: Node<V>, b: Node<V>, path: seq<nat>)
    requires WellFormed(a, path) && WellFormed(b, path) && !a.Bitmap? && !b.Bitmap? && a.hash != b.hash
    ensures |a.hash| == |b.hash| == LEVELS && a.hash[..|path|] == b.hash[..|path|]
    ensures WellFormed(Split(a, b, |path|), path)
    decreases LEVELS - |path|
  {
    PartWays(a.hash, b.hash, |path|);
    OneDeeper(a, path);
    OneDeeper(b, path);
    if a.hash[|path|] == b.hash[|path|] { SplitWellFormed(a, b, path + [a.hash[|path|]]); }
  }

  /** What a leaf or a collision node binds has its hash. */
  lemma {:induction false} BoundHash<V>(n: Node<V>, path: seq<nat>, key: string)
    requires WellFormed(n, path) && !n.Bitmap?
    ensures Value(n, path, key).Some? ==> HashOf(key) == n.hash
  {
    if n.Collision? { FindPlace(n.entries, key); }
  }

  lemma {:induction false} BitmapValue<V>(n: Node<V>, path: seq<nat>, key: string, i: nat)
    requires WellFormed(n, path) && n.Bitmap? && i < |n.slots| && n.slots[i] == HashOf(key)[|path|]
    ensures Value(n, path, key) == Value(n.children[i], path + [n.slots[i]], key)
  {
    BelowPlace(n.slots, n.slots[i]);
  }

  lemma {:induction false} SplitValue<V>(a: Node<V>, b: Node<V>, path: seq<nat>, key: string)
    requires WellFormed(a, path) && WellFormed(b, path) && !a.Bitmap? && !b.Bitmap? && a.hash != b.hash
    requires |a.hash| == |b.hash| == LEVELS && a.hash[..|path|] == b.hash[..|path|]
    ensures Value(Split(a, b, |path|), path, key)
         == if Value(a, path, key).Some? then Value(a, path, key) else Value(b, path, key)
    decreases LEVELS - |path|
  {
    var d := |path|;
    PartWays(a.hash, b.hash, d);
    SplitWellFormed(a, b, path);
    if a.hash[d] == b.hash[d] {
      OneDeeper(a, path);
      OneDeeper(b, path);
      SplitValue(a, b, path + [a.hash[d]], key);
      BoundHash(a, path, key);
      BoundHash(b, path, key);
      var n := Split(a, b, d);
      if HashOf(key)[d] == a.hash[d] { BitmapValue(n, path, key, 0); }
    } else if a.hash[d] < b.hash[d] {
      PairValue(a, b, path, key);
    } else {
      PairValue(b, a, path, key);
      BoundHash(a, path, key);
      BoundHash(b, path, key);
    }
  }

  lemma {:induction false} PairValue<V>(a: Node<V>, b: Node<V>, path: seq<nat>, key: string)
    requires WellFormed(a, path) && WellFormed(b, path) && !a.Bitmap? && !b.Bitmap? && |path| < LEVELS
    requires |a.hash| == |b.hash| == LEVELS && a.hash[|path|] < b.hash[|path|]
    requires WellFormed(Bitmap([a.hash[|path|], b.hash[|path|]], [a, b]), path)
    ensures Value(Bitmap([a.hash[|path|], b.hash[|path|]], [a, b]), path, key)
         == if Value(a, path, key).Some? then Value(a, path, key) else Value(b, path, key)
  {
    var s := HashOf(key)[|path|];
    var n := Bitmap([a.hash[|path|], b.hash[|path|]], [a, b]);
    BoundHash(a, path, key);
    BoundHash(b, path, key);
    if s == n.slots[0] {
      BitmapValue(n, path, key, 0);
    } else if s == n.slots[1] {
      BitmapValue(n, path, key, 1);
    }
  }

  lemma {:induction false} IncreasingSplice(slots: seq<nat>, s: nat)
    requires Increasing(slots) && s !in slots
    ensures Increasing(Splice(slots, Below(slots, s), s))
  {
    BelowPlace(slots, s);
  }

  lemma {:induction false} BitmapAddWellFormed<V>(slots: seq<nat>, children: seq<Node<V>>, path: seq<nat>,
                                                  leaf: Node<V>)
    requires WellFormed(Bitmap(slots, children), path) && leaf.Leaf? && leaf.hash == HashOf(leaf.key) &&
             path <= leaf.hash
    requires leaf.hash[|path|] !in slots
    ensures var s := leaf.hash[|path|]; var idx := Below(slots, s);
            WellFormed(Bitmap(Splice(slots, idx, s), Splice(children, idx, leaf)), path)
  {
    var s := leaf.hash[|path|];
    var idx := Below(slots, s);
    var more, kids := Splice(slots, idx, s), Splice(children, idx, leaf);
    IncreasingSplice(slots, s);
    assert path + [s] <= leaf.hash;
    forall i | 0 <= i < |kids|
      ensures more[i] < 32 && WellFormed(kids[i], path + [more[i]])
    {
      var j := if i < idx then i else i - 1;
      if i != idx { assert slots[j] < 32 && WellFormed(children[j], path + [slots[j]]); }
    }
  }

  lemma {:induction false} InsertWellFormed<V>(n: Node<V>, path: seq<nat>, key: string, value: V)
    requires WellFormed(n, path) && path <= HashOf(key)
    ensures WellFormed(Insert(n, path, key, value).0, path)
    decreases n
  {
    var h := HashOf(key);
    if n.Leaf? {
      if n.key != key && n.hash != h { SplitWellFormed(n, Leaf(h, key, value), path); }
    } else if n.Collision? {
      if n.hash != h { SplitWellFormed(n, Leaf(h, key, value), path); }
      else { FindPlace(n.entries, key); }
    } else {
      BelowPlace(n.slots, h[|path|]);
      var idx := Below(n.slots, h[|path|]);
      if h[|path|] in n.slots {
        InsertWellFormed(n.children[idx], path + [n.slots[idx]], key, value);
      } else {
        BitmapAddWellFormed(n.slots, n.children, path, Leaf(h, key, value));
      }
    }
  }

  lemma {:induction false} FindUpdated<V>(entries: seq<(string, V)>, at: nat, entry: (string, V), k: string)
    requires at < |entries| && entries[at].0 == entry.0 && DistinctKeys(entries)
    ensures Find(entries[at := entry], k) == Find(entries, k)
    decreases |entries|
  {
    if at > 0 {
      assert entries[at := entry][1..] == entries[1..][at - 1 := entry];
      FindUpdated(entries[1..], at - 1, entry, k);
    } else {
      assert entries[at := entry][1..] == entries[1..];
    }
  }

  lemma {:induction false} FindAppended<V>(entries: seq<(string, V)>, entry: (string, V), k: string)
    ensures Find(entries + [entry], k) ==
              if Find(entries, k).Some? then Find(entries, k) else if k == entry.0 then Some(|entries|) else None
    decreases |entries|
  {
    if entries != [] {
      assert (entries + [entry])[1..] == entries[1..] + [entry];
      FindAppended(entries[1..], entry, k);
    }
  }

  lemma {:induction false} CollisionInsertValue<V>(n: Node<V>, path: seq<nat>, key: string, value: V, k: string)
    requires WellFormed(n, path) && n.Collision? && n.hash == HashOf(key)
    ensures path <= HashOf(key)
    ensures Value(Insert(n, path, key, value).0, path, k) == if k == key then Some(value) else Value(n, path, k)
  {
    FindPlace(n.entries, key);
    FindPlace(n.entries, k);
    var at := Find(n.entries, key);
    if at.Some? {
      FindUpdated(n.entries, at.value, (key, value), k);
    } else {
      FindAppended(n.entries, (key, value), k);
    }
  }

  lemma {:induction false} InsertValue<V>(n: Node<V>, path: seq<nat>, key: string, value: V, k: string)
    requires WellFormed(n, path) && path <= HashOf(key)
    ensures Value(Insert(n, path, key, value).0, path, k) == if k == key then Some(value) else Value(n, path, k)
    decreases n
  {
    var h := HashOf(key);
    if n.Bitmap? {
      BitmapInsertValue(n, path, key, value, k);
    } else if n.hash != h {
      SplitValue(n, Leaf(h, key, value), path, k);
      BoundHash(n, path, key);
    } else if n.Leaf? {
      if n.key != key {
        FindAppended([(n.key, n.value)], (key, value), k);
        assert [(n.key, n.value), (key, value)] == [(n.key, n.value)] + [(key, value)];
      }
    } else {
      CollisionInsertValue(n, path, key, value, k);
    }
  }

  lemma {:induction false} BitmapInsertValue<V>(n: Node<V>, path: seq<nat>, key: string, value: V, k: string)
    requires WellFormed(n, path) && path <= HashOf(key) && n.Bitmap?
    ensures Value(Insert(n, path, key, value).0, path, k) == if k == key then Some(value) else Value(n, path, k)
    decreases n, 0
  {
    var s, t := HashOf(key)[|path|], HashOf(k)[|path|];
    var m := Insert(n, path, key, value).0;
    InsertWellFormed(n, path, key, value);
    BelowPlace(n.slots, s);
    BelowPlace(n.slots, t);
    if s in n.slots {
      InsertValue(n.children[Below(n.slots, s)], path + [s], key, value, k);
      if t in n.slots {
        BitmapValue(n, path, k, Below(n.slots, t));
        BitmapValue(m, path, k, Below(n.slots, t));
      }
    } else {
      BitmapAddValue(n, m, path, Leaf(HashOf(key), key, value), k);
    }
  }

  lemma {:induction false} BitmapAddValue<V>(n: Node<V>, m: Node<V>, path: seq<nat>, leaf: Node<V>, k: string)
    requires WellFormed(n, path) && n.Bitmap? && WellFormed(m, path) && leaf.Leaf? && leaf.hash == HashOf(leaf.key)
    requires var s := leaf.hash[|path|];
             s !in n.slots &&
               m == Bitmap(Splice(n.slots, Below(n.slots, s), s), Splice(n.children, Below(n.slots, s), leaf))
    ensures Value(m, path, k) == if k == leaf.key then Some(leaf.value) else Value(n, path, k)
  {
    var s, t := leaf.hash[|path|], HashOf(k)[|path|];
    var idx := Below(n.slots, s);
    BelowPlace(n.slots, t);
    if t == s {
      BitmapValue(m, path, k, idx);
    } else if t in n.slots {
      var at := Below(n.slots, t);
      BitmapValue(n, path, k, at);
      BitmapValue(m, path, k, if at < idx then at else at + 1);
    } else {
      assert t !in m.slots;
    }
  }
}
