/** Deep conversion between the host's objects and the language's collections. */
module HostConversion {
  import opened Options
  import opened HostValues

  // Into the language.

  /** What conversion makes of a value when it goes no more than `depth` objects deep. */
  function Convert(h: Heap, v: Value, depth: nat): Option<Dvala>
    decreases depth, 0, 0
  {
    match v
    case Plain(s) => Some(Scalar(s))
    case Own(d) => Some(d)
    case Bad(what) => Some(Foreign(what))
    case At(r) =>
      if depth == 0 || r !in h then None
      else if h[r].Array? then
        var items := ConvertItems(h, h[r].items, depth - 1);
        if items.None? then None else Some(Vec(items.value))
      else
        var entries := ConvertEntries(h, h[r].entries, depth - 1);
        if entries.None? then None else Some(Map(entries.value))
  }

  /** Items are appended one by one. */
  function ConvertItems(h: Heap, items: seq<Value>, depth: nat): (r: Option<seq<Dvala>>)
    decreases depth, 1, |items|
  {
    if items == [] then Some([])
    else
      var k := |items| - 1;
      var before, last := ConvertItems(h, items[..k], depth), Convert(h, items[k], depth);
      if before.None? || last.None? then None else Some(before.value + [last.value])
  }

  /** Entries are put in one by one. */
  function ConvertEntries(h: Heap, entries: seq<(string, Value)>, depth: nat): Option<map<string, Dvala>>
    decreases depth, 1, |entries|
  {
    if entries == [] then Some(map[])
    else
      var k := |entries| - 1;
      var before, last := ConvertEntries(h, entries[..k], depth), Convert(h, entries[k].1, depth);
      if before.None? || last.None? then None else Some(before.value[entries[k].0 := last.value])
  }

  // Out of the language.

  /** A host value as a tree. */
  datatype Tree = Leaf(scalar: Scalar) | Mark(id: nat) | Odd(what: Forbidden) | List(items: seq<Tree>)
    | Fields(fields: map<string, Tree>)

  /** The key under which a plain object hands out its prototype: an assignment under it adds no property. */
  const PROTO := "__proto__"

  function ToJS(d: Dvala): Tree {
    match d
    case Scalar(s) => Leaf(s)
    case Opaque(id) => Mark(id)
    case Foreign(what) => Odd(what)
    case Vec(items) => List(seq(|items|, i requires 0 <= i < |items| => ToJS(items[i])))
    case Map(entries) => Fields(map k | k in entries && k != PROTO :: ToJS(entries[k]))
  }

  // Conversion of what is accepted comes to an end.

  lemma {:induction false} ItemsConvert(h: Heap, items: seq<Value>, depth: nat)
    ensures ConvertItems(h, items, depth).Some? <==> forall i :: 0 <= i < |items| ==> Convert(h, items[i], depth).Some?
    decreases |items|
  {
    if items != [] {
      var k := |items| - 1;
      ItemsConvert(h, items[..k], depth);
      assert forall i :: 0 <= i < k ==> items[..k][i] == items[i];
    }
  }

  lemma {:induction false} EntriesConvert(h: Heap, entries: seq<(string, Value)>, depth: nat)
    ensures ConvertEntries(h, entries, depth).Some? <==>
              forall i :: 0 <= i < |entries| ==> Convert(h, entries[i].1, depth).Some?
    decreases |entries|
  {
    if entries != [] {
      var k := |entries| - 1;
      EntriesConvert(h, entries[..k], depth);
      assert forall i :: 0 <= i < k ==> entries[..k][i] == entries[i];
    }
  }

  /** An object converts exactly if all its parts do, one level deeper. */
  lemma {:induction false} ObjectConverts(h: Heap, r: Ref, depth: nat)
    requires r in h
    ensures Convert(h, At(r), depth).Some? <==>
              depth > 0 && forall i :: 0 <= i < |Parts(h[r])| ==> Convert(h, Parts(h[r])[i].1, depth - 1).Some?
  {
    if depth > 0 {
      if h[r].Array? {
        ItemsConvert(h, h[r].items, depth - 1);
        assert forall i :: 0 <= i < |h[r].items| ==> Parts(h[r])[i].1 == h[r].items[i];
      } else {
        EntriesConvert(h, h[r].entries, depth - 1);
        assert forall i :: 0 <= i < |h[r].entries| ==> Parts(h[r])[i].1 == h[r].entries[i].1;
      }
    }
  }

  lemma {:induction false} Deeper(h: Heap, v: Value, depth: nat)
    requires Convert(h, v, depth).Some?
    ensures Convert(h, v, depth + 1).Some?
    decreases depth
  {
    if v.At? {
      ObjectConverts(h, v.ref, depth);
      ObjectConverts(h, v.ref, depth + 1);
      forall i | 0 <= i < |Parts(h[v.ref])|
        ensures Convert(h, Parts(h[v.ref])[i].1, depth).Some?
      {
        Deeper(h, Parts(h[v.ref])[i].1, depth - 1);
      }
    }
  }

  lemma {:induction false} MuchDeeper(h: Heap, v: Value, depth: nat, more: nat)
    requires Convert(h, v, depth).Some? && depth <= more
    ensures Convert(h, v, more).Some?
    decreases more - depth
  {
    if depth < more {
      Deeper(h, v, depth);
      MuchDeeper(h, v, depth + 1, more);
    }
  }

  ghost predicate Acyclic(h: Heap, v: Value, seen: set<Ref>) { forall w :: !Circular(h, v, w, seen) }

  lemma {:induction false} AcyclicConverts(h: Heap, v: Value, seen: set<Ref>)
    requires Closed(h) && Sound(h, v) && Acyclic(h, v, seen)
    ensures Convert(h, v, Rest(h, seen)).Some?
    decreases Rest(h, seen)
  {
    if v.At? {
      assert !Circular(h, v, [], seen);
      RestShrinks(h, seen, v.ref);
      ObjectConverts(h, v.ref, Rest(h, seen));
      forall i | 0 <= i < |Parts(h[v.ref])|
        ensures Convert(h, Parts(h[v.ref])[i].1, Rest(h, seen) - 1).Some?
      {
        var part := Parts(h[v.ref])[i].1;
        forall w
          ensures !Circular(h, part, w, seen + {v.ref})
        {
          assert ([i] + w)[1..] == w && !Circular(h, v, [i] + w, seen);
        }
        AcyclicConverts(h, part, seen + {v.ref});
        MuchDeeper(h, part, Rest(h, seen + {v.ref}), Rest(h, seen) - 1);
      }
    }
  }

  lemma {:induction false} Along(h: Heap, v: Value, w: seq<nat>, depth: nat)
    requires Convert(h, v, depth).Some? && Follow(h, v, w).Some?
    ensures |w| <= depth && Convert(h, Follow(h, v, w).value, depth - |w|).Some?
    decreases |w|
  {
    if w != [] {
      ObjectConverts(h, v.ref, depth);
      Along(h, Parts(h[v.ref])[w[0]].1, w[1..], depth - 1);
    }
  }

  /** A walk that has passed an object: the way from there on. */
  lemma {:induction false} FromPassed(h: Heap, v: Value, w: seq<nat>, r: Ref) returns (before: seq<nat>,
                                      after: seq<nat>)
    requires Follow(h, v, w).Some? && r in Passed(h, v, w)
    ensures after != [] && Follow(h, v, before) == Some(At(r)) && Follow(h, At(r), after) == Follow(h, v, w)
    decreases |w|
  {
    if v.ref == r {
      before, after := [], w;
    } else {
      var first;
      first, after := FromPassed(h, Parts(h[v.ref])[w[0]].1, w[1..], r);
      before := [w[0]] + first;
      assert before[1..] == first;
    }
  }

  lemma {:induction false} LoopNeverConverts(h: Heap, r: Ref, w: seq<nat>, depth: nat)
    requires w != [] && Follow(h, At(r), w) == Some(At(r))
    ensures Convert(h, At(r), depth).None?
    decreases depth
  {
    if Convert(h, At(r), depth).Some? {
      Along(h, At(r), w, depth);
      LoopNeverConverts(h, r, w, depth - |w|);
    }
  }

  /** Conversion comes to an end exactly on what has no cycle in reach; going as deep as there are objects is enough. */
  lemma {:induction false} ConvertsExactly(h: Heap, v: Value)
    requires Closed(h) && Sound(h, v)
    ensures (exists depth :: Convert(h, v, depth).Some?) <==> Acyclic(h, v, {})
    ensures Acyclic(h, v, {}) ==> Convert(h, v, |h|).Some?
  {
    if Acyclic(h, v, {}) {
      assert h.Keys - {} == h.Keys;
      AcyclicConverts(h, v, {});
    } else {
      var w :| Circular(h, v, w, {});
      var r := Follow(h, v, w).value.ref;
      var before, after := FromPassed(h, v, w, r);
      forall depth: nat
        ensures Convert(h, v, depth).None?
      {
        if Convert(h, v, depth).Some? {
          Along(h, v, before, depth);
          LoopNeverConverts(h, r, after, depth - |before|);
        }
      }
    }
  }

  /** What the check accepts can be converted. */
  lemma {:induction false} AcceptedConverts(h: Heap, v: Value, path: seq<Step>)
    requires Closed(h) && Sound(h, v) && Check(h, v, {}, path).Accepted?
    ensures Convert(h, v, |h|).Some?
  {
    forall w
      ensures !Circular(h, v, w, {})
    {
      AcceptedIsClean(h, v, {}, path, w);
    }
    ConvertsExactly(h, v);
  }

  // Trees.

  /** The tree a value of the language stands for. */
  function Full(d: Dvala): Tree {
    match d
    case Scalar(s) => Leaf(s)
    case Opaque(id) => Mark(id)
    case Foreign(what) => Odd(what)
    case Vec(items) => List(seq(|items|, i requires 0 <= i < |items| => Full(items[i])))
    case Map(entries) => Fields(map k | k in entries :: Full(entries[k]))
  }

  function FromTree(t: Tree): Dvala {
    match t
    case Leaf(s) => Scalar(s)
    case Mark(id) => Opaque(id)
    case Odd(what) => Foreign(what)
    case List(items) => Vec(seq(|items|, i requires 0 <= i < |items| => FromTree(items[i])))
    case Fields(fields) => Map(map k | k in fields :: FromTree(fields[k]))
  }

  /** The tree a host value unfolds into, no more than `depth` objects deep. */
  function Unfold(h: Heap, v: Value, depth: nat): Option<Tree>
    decreases depth, 0, 0
  {
    match v
    case Plain(s) => Some(Leaf(s))
    case Own(d) => Some(Full(d))
    case Bad(what) => Some(Odd(what))
    case At(r) =>
      if depth == 0 || r !in h then None
      else if h[r].Array? then
        var items := UnfoldItems(h, h[r].items, depth - 1);
        if items.None? then None else Some(List(items.value))
      else
        var fields := UnfoldEntries(h, h[r].entries, depth - 1);
        if fields.None? then None else Some(Fields(fields.value))
  }

  function UnfoldItems(h: Heap, items: seq<Value>, depth: nat): (r: Option<seq<Tree>>)
    decreases depth, 1, |items|
  {
    if items == [] then Some([])
    else
      var first, rest := Unfold(h, items[0], depth), UnfoldItems(h, items[1..], depth);
      if first.None? || rest.None? then None else Some([first.value] + rest.value)
  }

  /** A key stands for the last entry it has. */
  function UnfoldEntries(h: Heap, entries: seq<(string, Value)>, depth: nat): Option<map<string, Tree>>
    decreases depth, 1, |entries|
  {
    if entries == [] then Some(map[])
    else
      InFront(entries[0].0, Unfold(h, entries[0].1, depth), UnfoldEntries(h, entries[1..], depth))
  }

  function InFront(key: string, t: Option<Tree>, rest: Option<map<string, Tree>>): Option<map<string, Tree>> {
    if t.None? || rest.None? then None else Some(map[key := t.value] + rest.value)
  }

  function Behind(before: Option<map<string, Tree>>, key: string, t: Option<Tree>): Option<map<string, Tree>> {
    if before.None? || t.None? then None else Some(before.value[key := t.value])
  }

  lemma {:induction false} InFrontBehind(key: string, t: Option<Tree>, middle: Option<map<string, Tree>>,
                                         last: string, u: Option<Tree>)
    ensures InFront(key, t, Behind(middle, last, u)) == Behind(InFront(key, t, middle), last, u)
    ensures InFront(key, t, Some(map[])) == Behind(Some(map[]), key, t)
  {
    if t.Some? {
      assert map[key := t.value] + map[] == map[][key := t.value];
      if middle.Some? && u.Some? {
        assert map[key := t.value] + middle.value[last := u.value] ==
               (map[key := t.value] + middle.value)[last := u.value];
      }
    }
  }

  function FullItems(items: seq<Dvala>): seq<Tree> { seq(|items|, i requires 0 <= i < |items| => Full(items[i])) }

  function FullEntries(entries: map<string, Dvala>): map<string, Tree> { map k | k in entries :: Full(entries[k]) }

  /** Conversion keeps the tree: what comes in stands for what the host value unfolds into. */
  lemma {:induction false} ConvertUnfolds(h: Heap, v: Value, depth: nat)
    ensures Unfold(h, v, depth) == (var d := Convert(h, v, depth); if d.None? then None else Some(Full(d.value)))
    decreases depth, 0, 0
  {
    if v.At? && depth > 0 && v.ref in h {
      if h[v.ref].Array? {
        ItemsUnfold(h, h[v.ref].items, depth - 1);
      } else {
        EntriesUnfold(h, h[v.ref].entries, depth - 1);
      }
    }
  }

  lemma {:induction false} ItemsUnfold(h: Heap, items: seq<Value>, depth: nat)
    ensures UnfoldItems(h, items, depth)
         == (var d := ConvertItems(h, items, depth); if d.None? then None else Some(FullItems(d.value)))
    decreases depth, 1, |items|
  {
    if items == [] {
      assert FullItems([]) == [];
    } else {
      var k := |items| - 1;
      ConvertUnfolds(h, items[k], depth);
      ItemsUnfold(h, items[..k], depth);
      UnfoldItemsSnoc(h, items, depth);
      var before, last := ConvertItems(h, items[..k], depth), Convert(h, items[k], depth);
      if before.Some? && last.Some? {
        assert FullItems(before.value + [last.value]) == FullItems(before.value) + [Full(last.value)];
      }
    }
  }

  lemma {:induction false} UnfoldItemsSnoc(h: Heap, items: seq<Value>, depth: nat)
    requires items != []
    ensures var k := |items| - 1;
            var before, last := UnfoldItems(h, items[..k], depth), Unfold(h, items[k], depth);
            UnfoldItems(h, items, depth) ==
            if before.None? || last.None? then None else Some(before.value + [last.value])
    decreases |items|
  {
    var k := |items| - 1;
    if k == 0 {
      assert items[..0] == [] && items[1..] == [];
      var only := Unfold(h, items[0], depth);
      if only.Some? { assert [only.value] + [] == [] + [only.value]; }
    } else {
      UnfoldItemsSnoc(h, items[1..], depth);
      assert items[1..][..k - 1] == items[..k][1..] && items[1..][k - 1] == items[k] && items[..k][0] == items[0];
      var middle, last := UnfoldItems(h, items[..k][1..], depth), Unfold(h, items[k], depth);
      var first := Unfold(h, items[0], depth);
      if first.Some? && middle.Some? && last.Some? {
        assert [first.value] + (middle.value + [last.value]) == ([first.value] + middle.value) + [last.value];
      }
    }
  }

  lemma {:induction false} EntriesUnfold(h: Heap, entries: seq<(string, Value)>, depth: nat)
    ensures UnfoldEntries(h, entries, depth)
         == (var d := ConvertEntries(h, entries, depth); if d.None? then None else Some(FullEntries(d.value)))
    decreases depth, 1, |entries|
  {
    if entries != [] {
      var k := |entries| - 1;
      ConvertUnfolds(h, entries[k].1, depth);
      EntriesUnfold(h, entries[..k], depth);
      UnfoldEntriesSnoc(h, entries, depth);
      var before, last := ConvertEntries(h, entries[..k], depth), Convert(h, entries[k].1, depth);
      if before.Some? && last.Some? {
        assert FullEntries(before.value[entries[k].0 := last.value])
            == FullEntries(before.value)[entries[k].0 := Full(last.value)];
      }
    }
  }

  lemma {:induction false} UnfoldEntriesSnoc(h: Heap, entries: seq<(string, Value)>, depth: nat)
    requires entries != []
    ensures var k := |entries| - 1;
            UnfoldEntries(h, entries, depth)
              == Behind(UnfoldEntries(h, entries[..k], depth), entries[k].0, Unfold(h, entries[k].1, depth))
    decreases |entries|
  {
    var k := |entries| - 1;
    var first, last := Unfold(h, entries[0].1, depth), Unfold(h, entries[k].1, depth);
    if k == 0 {
      assert entries[..0] == [] && entries[1..] == [];
      InFrontBehind(entries[0].0, first, None, "", None);
    } else {
      UnfoldEntriesSnoc(h, entries[1..], depth);
      assert entries[1..][..k - 1] == entries[..k][1..] && entries[1..][k - 1] == entries[k] &&
             entries[..k][0] == entries[0];
      InFrontBehind(entries[0].0, first, UnfoldEntries(h, entries[..k][1..], depth), entries[k].0, last);
    }
  }

  // Round trips.

  /** No map anywhere has an entry under the key of the prototype. */
  predicate Proper(d: Dvala) {
    match d
    case Vec(items) => forall i :: 0 <= i < |items| ==> Proper(items[i])
    case Map(entries) => forall k :: k in entries ==> k != PROTO && Proper(entries[k])
    case _ => true
  }

  /** Going out loses nothing exactly if there is nothing to lose. */
  lemma {:induction false} ToJSFull(d: Dvala)
    ensures ToJS(d) == Full(d) <==> Proper(d)
  {
    match d {
      case Vec(items) =>
        forall i | 0 <= i < |items|
          ensures ToJS(items[i]) == Full(items[i]) <==> Proper(items[i])
        {
          ToJSFull(items[i]);
        }
        if ToJS(d) == Full(d) {
          forall i | 0 <= i < |items| ensures ToJS(items[i]) == Full(items[i]) {
            assert ToJS(d).items[i] == Full(d).items[i];
          }
        }
      case Map(entries) =>
        forall k | k in entries
          ensures ToJS(entries[k]) == Full(entries[k]) <==> Proper(entries[k])
        {
          ToJSFull(entries[k]);
        }
        if ToJS(d) == Full(d) {
          forall k | k in entries ensures k != PROTO && ToJS(entries[k]) == Full(entries[k]) {
            assert k in Full(d).fields;
            assert k in ToJS(d).fields && ToJS(d).fields[k] == Full(d).fields[k];
          }
        }
      case Scalar(_) =>
      case Opaque(_) =>
      case Foreign(_) =>
    }
  }

  lemma {:induction false} FromFull(d: Dvala)
    ensures FromTree(Full(d)) == d
  {
    match d {
      case Vec(items) =>
        forall i | 0 <= i < |items| ensures FromTree(Full(items[i])) == items[i] { FromFull(items[i]); }
        assert FromTree(Full(d)).items == items;
      case Map(entries) =>
        forall k | k in entries ensures FromTree(Full(entries[k])) == entries[k] { FromFull(entries[k]); }
        assert FromTree(Full(d)).entries == entries;
      case Scalar(_) =>
      case Opaque(_) =>
      case Foreign(_) =>
    }
  }

  /** What lies at the end of a walk has no entry under the key of the prototype. */
  predicate FreeOfProto(h: Heap, v: Value) {
    match v
    case Own(d) => Proper(d)
    case At(r) => r in h && !h[r].Array? ==> forall i :: 0 <= i < |h[r].entries| ==> h[r].entries[i].0 != PROTO
    case _ => true
  }

  predicate FreeEnd(h: Heap, v: Value, w: seq<nat>) {
    Follow(h, v, w).Some? ==> FreeOfProto(h, Follow(h, v, w).value)
  }

  /** Nothing in reach has. */
  ghost predicate Bare(h: Heap, v: Value) { forall w :: FreeEnd(h, v, w) }

  /** A host object has every key once. */
  ghost predicate KeysApart(h: Heap) { forall r :: r in h && !h[r].Array? ==> EntriesApart(h[r].entries) }

  predicate EntriesApart(entries: seq<(string, Value)>) {
    forall i, j :: 0 <= i < j < |entries| ==> entries[i].0 != entries[j].0
  }

  lemma {:induction false} BareStep(h: Heap, v: Value)
    requires v.At? && v.ref in h
    ensures var parts := Parts(h[v.ref]);
            Bare(h, v) <==> FreeOfProto(h, v) && forall i :: 0 <= i < |parts| ==> Bare(h, parts[i].1)
  {
    var parts := Parts(h[v.ref]);
    if Bare(h, v) {
      assert FreeEnd(h, v, []);
      forall i, w | 0 <= i < |parts| ensures FreeEnd(h, parts[i].1, w) {
        assert ([i] + w)[1..] == w && FreeEnd(h, v, [i] + w);
      }
    }
    if FreeOfProto(h, v) && forall i :: 0 <= i < |parts| ==> Bare(h, parts[i].1) {
      forall w ensures FreeEnd(h, v, w) {
        if w != [] && w[0] < |parts| { assert Bare(h, parts[w[0]].1) && FreeEnd(h, parts[w[0]].1, w[1..]); }
      }
    }
  }

  lemma {:induction false} ItemsAt(h: Heap, items: seq<Value>, depth: nat)
    requires ConvertItems(h, items, depth).Some?
    ensures var r := ConvertItems(h, items, depth).value;
            |r| == |items| && forall i :: 0 <= i < |items| ==> Convert(h, items[i], depth) == Some(r[i])
    decreases |items|
  {
    if items != [] {
      var k := |items| - 1;
      ItemsAt(h, items[..k], depth);
      assert forall i :: 0 <= i < k ==> items[..k][i] == items[i];
    }
  }

  lemma {:induction false} EntriesAt(h: Heap, entries: seq<(string, Value)>, depth: nat)
    requires ConvertEntries(h, entries, depth).Some? && EntriesApart(entries)
    ensures var r := ConvertEntries(h, entries, depth).value;
            && (forall k :: k in r ==> exists i :: 0 <= i < |entries| && entries[i].0 == k)
            && forall i :: 0 <= i < |entries| ==>
                 entries[i].0 in r && Convert(h, entries[i].1, depth) == Some(r[entries[i].0])
    decreases |entries|
  {
    if entries != [] {
      var k := |entries| - 1;
      EntriesAt(h, entries[..k], depth);
      assert forall i :: 0 <= i < k ==> entries[..k][i] == entries[i];
      assert entries[k].0 == entries[k].0;
    }
  }

  /** Nothing is lost of what comes in exactly if nothing in reach has an entry under the key of the prototype. */
  lemma {:induction false} BareIsProper(h: Heap, v: Value, depth: nat)
    requires Convert(h, v, depth).Some? && KeysApart(h)
    ensures Proper(Convert(h, v, depth).value) <==> Bare(h, v)
    decreases depth
  {
    if v.At? {
      BareStep(h, v);
      ObjectConverts(h, v.ref, depth);
      var parts := Parts(h[v.ref]);
      forall i | 0 <= i < |parts|
        ensures Proper(Convert(h, parts[i].1, depth - 1).value) <==> Bare(h, parts[i].1)
      {
        BareIsProper(h, parts[i].1, depth - 1);
      }
      if h[v.ref].Array? { ProperItems(h, v.ref, depth); } else { ProperEntries(h, v.ref, depth); }
    } else {
      BareEnd(h, v);
    }
  }

  lemma BareEnd(h: Heap, v: Value)
    requires !v.At?
    ensures Bare(h, v) <==> FreeOfProto(h, v)
  {
    if Bare(h, v) { assert FreeEnd(h, v, []); }
  }

  lemma ProperItems(h: Heap, r: Ref, depth: nat)
    requires r in h && h[r].Array? && Convert(h, At(r), depth).Some?
    requires forall i :: 0 <= i < |Parts(h[r])| ==> Convert(h, Parts(h[r])[i].1, depth - 1).Some?
    ensures Proper(Convert(h, At(r), depth).value) <==>
            forall i :: 0 <= i < |Parts(h[r])| ==> Proper(Convert(h, Parts(h[r])[i].1, depth - 1).value)
  {
    var items := h[r].items;
    ItemsAt(h, items, depth - 1);
    assert forall i :: 0 <= i < |items| ==> Parts(h[r])[i].1 == items[i];
  }

  lemma ProperEntries(h: Heap, r: Ref, depth: nat)
    requires r in h && !h[r].Array? && Convert(h, At(r), depth).Some? && EntriesApart(h[r].entries)
    requires forall i :: 0 <= i < |Parts(h[r])| ==> Convert(h, Parts(h[r])[i].1, depth - 1).Some?
    ensures Proper(Convert(h, At(r), depth).value) <==>
            && FreeOfProto(h, At(r))
            && forall i :: 0 <= i < |Parts(h[r])| ==> Proper(Convert(h, Parts(h[r])[i].1, depth - 1).value)
  {
    var entries := h[r].entries;
    EntriesAt(h, entries, depth - 1);
    assert forall i :: 0 <= i < |entries| ==> Parts(h[r])[i].1 == entries[i].1;
  }

  /** From the host and back: the result is the tree that the value unfolds into - exactly if no object in reach of it,
      and no map of the language in reach, has an entry under the key of the prototype. */
  lemma {:induction false} HostRoundTrip(h: Heap, v: Value, path: seq<Step>)
    requires Closed(h) && KeysApart(h) && Sound(h, v) && Check(h, v, {}, path).Accepted?
    ensures var d := Convert(h, v, |h|);
            d.Some? && (Some(ToJS(d.value)) == Unfold(h, v, |h|) <==> Bare(h, v))
  {
    AcceptedConverts(h, v, path);
    ConvertUnfolds(h, v, |h|);
    ToJSFull(Convert(h, v, |h|).value);
    BareIsProper(h, v, |h|);
  }

  /** One object with such an entry: it passes the check, and comes back without the entry. */
  lemma {:induction false} ProtoEntryIsLost(s: Scalar)
    ensures var h: Heap := map[0 := Record([(PROTO, Plain(s))])]; var v := At(0);
            && Closed(h) && KeysApart(h) && Sound(h, v) && Check(h, v, {}, []) == Accepted
            && Unfold(h, v, |h|) == Some(Fields(map[PROTO := Leaf(s)]))
            && Convert(h, v, |h|).Some? && ToJS(Convert(h, v, |h|).value) == Fields(map[])
  {
    var entries := [(PROTO, Plain(s))];
    var h: Heap := map[0 := Record(entries)];
    var v := At(0);
    assert h.Keys == {0} && |h| == 1;
    assert Parts(h[0]) == [(Key(PROTO), Plain(s))];
    RestShrinks(h, {}, 0);
    OneEntry(h, s);
    assert CheckParts(h, 0, Parts(h[0]), 1, {0}, []) == Accepted;
    assert {} + {0} == {0} && Check(h, Plain(s), {0}, [] + [Key(PROTO)]) == Accepted;
    assert CheckParts(h, 0, Parts(h[0]), 0, {0}, []) == Accepted;
    assert Check(h, v, {}, []) == Accepted;
  }

  lemma OneEntry(h: Heap, s: Scalar)
    requires h == map[0 := Record([(PROTO, Plain(s))])]
    ensures Convert(h, At(0), 1) == Some(Map(map[PROTO := Scalar(s)]))
    ensures Unfold(h, At(0), 1) == Some(Fields(map[PROTO := Leaf(s)]))
    ensures ToJS(Map(map[PROTO := Scalar(s)])) == Fields(map[])
  {
    var entries := [(PROTO, Plain(s))];
    assert entries[..0] == [] && entries[1..] == [];
    assert ConvertEntries(h, entries, 0) == Some(map[][PROTO := Scalar(s)]);
    assert UnfoldEntries(h, entries, 0) == Some(map[PROTO := Leaf(s)] + map[]);
    assert map[PROTO := Leaf(s)] + map[] == map[PROTO := Leaf(s)];
  }

  /** To the host and back: any host value with the tree that was handed out comes in as the value that went out -
      exactly if no map in it has an entry under the key of the prototype. */
  lemma {:induction false} LanguageRoundTrip(d: Dvala, h: Heap, v: Value, depth: nat)
    requires Unfold(h, v, depth) == Some(ToJS(d))
    ensures Convert(h, v, depth) == Some(d) <==> Proper(d)
  {
    ConvertUnfolds(h, v, depth);
    var e := Convert(h, v, depth).value;
    ToJSFull(d);
    FromFull(d);
    FromFull(e);
  }

  /** An entry under that key is gone on the way out: what comes back in is the empty map. */
  lemma {:induction false} ProtoIsLost(d: Dvala, h: Heap, v: Value, depth: nat)
    requires Unfold(h, v, depth) == Some(ToJS(Map(map[PROTO := d])))
    ensures ToJS(Map(map[PROTO := d])) == Fields(map[]) && Convert(h, v, depth) == Some(Map(map[]))
  {
    var empty: map<string, Dvala> := map[];
    assert ToJS(Map(map[PROTO := d])) == Fields(map[]) == ToJS(Map(empty));
    LanguageRoundTrip(Map(empty), h, v, depth);
  }
}
