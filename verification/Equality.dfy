/** Approximate equality of numbers and structural equality of values. */
module Equality {
  import opened Options

  // Numbers.

  function Abs(x: real): real { if x < 0.0 then -x else x }

  const EPSILON := 0.0000000001

  predicate ApproxEqual(a: real, b: real, epsilon: real) {
    a == b
    || var diff := Abs(a - b);
       if a == 0.0 || b == 0.0 || diff < epsilon then diff < epsilon else diff / (Abs(a) + Abs(b)) < epsilon
  }

  lemma {:induction false} Relative(diff: real, size: real, epsilon: real)
    requires size > 0.0
    ensures diff / size < epsilon <==> diff < epsilon * size
  {
    var q := diff / size;
    assert q * size == diff;
    if q < epsilon { assert (epsilon - q) * size > 0.0; }
    if q >= epsilon { assert (q - epsilon) * size >= 0.0; }
  }

  /** Near each other, or neither zero and near for their size. */
  predicate Near(a: real, b: real, epsilon: real) {
    Abs(a - b) < epsilon || (a != 0.0 && b != 0.0 && Abs(a - b) < epsilon * (Abs(a) + Abs(b)))
  }

  lemma {:induction false} ApproxMeans(a: real, b: real, epsilon: real)
    ensures ApproxEqual(a, b, epsilon) <==> a == b || Near(a, b, epsilon)
  {
    if a != b && a != 0.0 && b != 0.0 { Relative(Abs(a - b), Abs(a) + Abs(b), epsilon); }
  }

  lemma {:induction false} ApproxSymmetric(a: real, b: real, epsilon: real)
    ensures ApproxEqual(a, b, epsilon) == ApproxEqual(b, a, epsilon)
  {
    assert Abs(a - b) == Abs(b - a) && Abs(a) + Abs(b) == Abs(b) + Abs(a);
  }

  /** A number between two positive ones that pass, passes with both of them. */
  lemma {:induction false} ApproxConvex(a: real, b: real, c: real, epsilon: real)
    requires 0.0 < a <= b <= c && epsilon > 0.0 && ApproxEqual(a, c, epsilon)
    ensures ApproxEqual(a, b, epsilon) && ApproxEqual(b, c, epsilon)
  {
    ApproxMeans(a, c, epsilon);
    ApproxMeans(a, b, epsilon);
    ApproxMeans(b, c, epsilon);
    if a != c { NearConvex(a, b, c, epsilon); }
  }

  lemma {:induction false} NearConvex(a: real, b: real, c: real, epsilon: real)
    requires 0.0 < a <= b <= c && epsilon > 0.0 && Near(a, c, epsilon)
    ensures Near(a, b, epsilon) && Near(b, c, epsilon)
  {
    if c - a >= epsilon { NearerBetween(a, b, c, epsilon); }
  }

  lemma {:induction false} NotNegative(x: real, y: real)
    requires x >= 0.0 && y >= 0.0
    ensures x * y >= 0.0
  {
  }

  lemma {:induction false} NearerBetween(a: real, b: real, c: real, epsilon: real)
    requires 0.0 < a <= b <= c && epsilon > 0.0 && c - a < epsilon * (a + c)
    ensures b - a < epsilon * (a + b) && c - b < epsilon * (b + c)
  {
    var ea, eb, ec := epsilon * a, epsilon * b, epsilon * c;
    assert epsilon * (a + c) == ea + ec && epsilon * (a + b) == ea + eb && epsilon * (b + c) == eb + ec;
    NotNegative(epsilon, b - a);
    assert eb - ea == epsilon * (b - a);
    if epsilon >= 1.0 {
      NotNegative(epsilon - 1.0, b);
      assert (epsilon - 1.0) * b == eb - b && ea > 0.0;
    } else {
      NotNegative(1.0 - epsilon, c - b);
      assert (1.0 - epsilon) * (c - b) == c - b - ec + eb;
    }
  }

  /** Being approximately equal is passed on exactly if it is being equal. */
  lemma {:induction false} ApproxTransitive(epsilon: real)
    ensures (forall a, b, c :: ApproxEqual(a, b, epsilon) && ApproxEqual(b, c, epsilon) ==> ApproxEqual(a, c, epsilon))
            <==> epsilon <= 0.0
  {
    if epsilon > 0.0 {
      ApproxChain(epsilon);
    } else {
      forall a, b, c | ApproxEqual(a, b, epsilon) && ApproxEqual(b, c, epsilon)
        ensures ApproxEqual(a, c, epsilon)
      {
        ApproxExact(a, b, epsilon);
        ApproxExact(b, c, epsilon);
      }
    }
  }

  lemma {:induction false} ApproxExact(a: real, b: real, epsilon: real)
    requires epsilon <= 0.0 && ApproxEqual(a, b, epsilon)
    ensures a == b
  {
    ApproxMeans(a, b, epsilon);
    if a != b { NotNegative(-epsilon, Abs(a) + Abs(b)); }
  }

  lemma {:induction false} ApproxChain(epsilon: real)
    requires epsilon > 0.0
    ensures var b, c := epsilon * 0.75, epsilon * 1.5;
            ApproxEqual(0.0, b, epsilon) && ApproxEqual(b, c, epsilon) && !ApproxEqual(0.0, c, epsilon)
  {
    assert Abs(epsilon * 0.75 - epsilon * 1.5) == epsilon * 0.75 < epsilon;
  }

  // Values.

  datatype Value =
    | Number(r: real)
    | Other(code: string)
    | Undefined
    | Atom(name: string)
    | Regexp(source: string, flags: string)
    | Vector(items: seq<Value>)
    | List(items: seq<Value>)
    | Map(entries: map<string, Value>)
    | Plain(entries: map<string, Value>)

  function Field(entries: map<string, Value>, key: string): Value { if key in entries then entries[key] else Undefined }

  predicate DeepEqual(a: Value, b: Value) {
    match (a, b)
    case (Number(x), Number(y)) => ApproxEqual(x, y, EPSILON)
    case (Atom(x), Atom(y)) => x == y
    case (Vector(xs), Vector(ys)) => |xs| == |ys| && forall i | 0 <= i < |xs| :: DeepEqual(xs[i], ys[i])
    case (List(xs), List(ys)) => |xs| == |ys| && forall i | 0 <= i < |xs| :: DeepEqual(xs[i], ys[i])
    case (Map(m), Map(n)) => |m| == |n| && forall k | k in m :: k in n && DeepEqual(m[k], n[k])
    case (Plain(m), Plain(n)) => |m| == |n| && forall k | k in m :: DeepEqual(m[k], Field(n, k))
    case _ => a == b
  }

  /** Two numbers pass if they differ by less than one part in ten thousand million: of one, or, unless one of them is
      zero, of their sizes taken together. */
  lemma {:induction false} NumbersEqual(a: real, b: real)
    ensures DeepEqual(Number(a), Number(b)) <==>
            var apart := 10000000000.0 * (if a < b then b - a else a - b);
            apart == 0.0 || apart < 1.0 || (a != 0.0 && b != 0.0 && apart < Abs(a) + Abs(b))
  {
    ApproxMeans(a, b, EPSILON);
    var size := Abs(a) + Abs(b);
    assert EPSILON * size * 10000000000.0 == size;
  }

  method CompareValues(a: Value, b: Value) returns (equal: bool)
    ensures equal == DeepEqual(a, b)
    decreases a, 1
  {
    match (a, b)
    case (Number(x), Number(y)) => equal := ApproxEqual(x, y, EPSILON);
    case (Atom(x), Atom(y)) => equal := x == y;
    case (Vector(xs), Vector(ys)) => equal := CompareItems(a, xs, ys);
    case (List(xs), List(ys)) => equal := CompareItems(a, xs, ys);
    case (Map(m), Map(n)) => equal := CompareEntries(a, m, n, true);
    case (Plain(m), Plain(n)) => equal := CompareEntries(a, m, n, false);
    case _ => equal := a == b;
  }

  method CompareItems(ghost a: Value, xs: seq<Value>, ys: seq<Value>) returns (equal: bool)
    requires a == Vector(xs) || a == List(xs)
    ensures equal == (|xs| == |ys| && forall i | 0 <= i < |xs| :: DeepEqual(xs[i], ys[i]))
    decreases a, 0
  {
    if |xs| != |ys| { return false; }
    var i := 0;
    while i < |xs|
      invariant 0 <= i <= |xs| && forall k | 0 <= k < i :: DeepEqual(xs[k], ys[k])
    {
      var same := CompareValues(xs[i], ys[i]);
      if !same { return false; }
      i := i + 1;
    }
    return true;
  }

  /** Persistent maps are asked for every key; plain objects are not. */
  method CompareEntries(ghost a: Value, m: map<string, Value>, n: map<string, Value>, ask: bool) returns (equal: bool)
    requires a == Map(m) || a == Plain(m)
    ensures equal == (|m| == |n| && forall k | k in m :: (ask ==> k in n) && DeepEqual(m[k], Field(n, k)))
    decreases a, 0
  {
    if |m| != |n| { return false; }
    var keys := m.Keys;
    while keys != {}
      invariant keys <= m.Keys && forall k | k in m && k !in keys :: (ask ==> k in n) && DeepEqual(m[k], Field(n, k))
      decreases |keys|
    {
      var k :| k in keys;
      if ask && k !in n { return false; }
      var same := CompareValues(m[k], Field(n, k));
      if !same { return false; }
      keys := keys - {k};
    }
    return true;
  }

  /** Every value equals itself. */
  lemma {:induction false} DeepReflexive(a: Value)
    ensures DeepEqual(a, a)
  {
    match a
    case Vector(xs) => forall i | 0 <= i < |xs| ensures DeepEqual(xs[i], xs[i]) { DeepReflexive(xs[i]); }
    case List(xs) => forall i | 0 <= i < |xs| ensures DeepEqual(xs[i], xs[i]) { DeepReflexive(xs[i]); }
    case Map(m) => forall k | k in m ensures DeepEqual(m[k], m[k]) { DeepReflexive(m[k]); }
    case Plain(m) => forall k | k in m ensures DeepEqual(m[k], Field(m, k)) { DeepReflexive(m[k]); }
    case _ =>
  }

  // Paths into a value.

  datatype Step = Index(i: nat) | Entry(key: string)

  function Child(v: Value, s: Step): Option<Value> {
    match (v, s)
    case (Vector(xs), Index(i)) => if i < |xs| then Some(xs[i]) else None
    case (List(xs), Index(i)) => if i < |xs| then Some(xs[i]) else None
    case (Map(m), Entry(k)) => if k in m then Some(m[k]) else None
    case (Plain(m), Entry(k)) => if k in m then Some(m[k]) else None
    case _ => None
  }

  function At(v: Value, path: seq<Step>): Option<Value>
    decreases |path|
  {
    if path == [] then Some(v)
    else
      var c := Child(v, path[0]);
      if c.None? then None else At(c.value, path[1..])
  }

  /** Of the same kind, and equal if there is nothing below. */
  predicate SameHead(a: Value, b: Value) {
    match (a, b)
    case (Number(x), Number(y)) => ApproxEqual(x, y, EPSILON)
    case (Vector(_), Vector(_)) => true
    case (List(_), List(_)) => true
    case (Map(_), Map(_)) => true
    case (Plain(_), Plain(_)) => true
    case _ => a == b
  }

  predicate SameAt(a: Option<Value>, b: Option<Value>) {
    a.Some? == b.Some? && (a.Some? ==> SameHead(a.value, b.value))
  }

  ghost predicate SameEverywhere(a: Value, b: Value) { forall path :: SameAt(At(a, path), At(b, path)) }

  /** No plain object has a key with the value `undefined`. */
  predicate Defined(v: Value) {
    match v
    case Vector(xs) => forall i | 0 <= i < |xs| :: Defined(xs[i])
    case List(xs) => forall i | 0 <= i < |xs| :: Defined(xs[i])
    case Map(m) => forall k | k in m :: Defined(m[k])
    case Plain(m) => forall k | k in m :: m[k] != Undefined && Defined(m[k])
    case _ => true
  }

  lemma {:induction false} SameKeys<T>(m: map<string, T>, n: map<string, T>)
    requires |m| == |n| && forall k :: k in m ==> k in n
    ensures m.Keys == n.Keys
  {
    SubsetSize(m.Keys, n.Keys);
  }

  lemma {:induction false} SubsetSize<T>(a: set<T>, b: set<T>)
    requires a <= b && |a| == |b|
    ensures a == b
  {
    assert |b - a| == |b| - |a|;
  }

  lemma {:induction false} SameStep(a: Value, b: Value, s: Step)
    requires Defined(a) && DeepEqual(a, b)
    ensures Child(a, s).Some? == Child(b, s).Some?
    ensures Child(a, s).Some? ==> Defined(Child(a, s).value) && DeepEqual(Child(a, s).value, Child(b, s).value)
  {
    match (a, b)
    case (Map(m), Map(n)) => SameKeys(m, n);
    case (Plain(m), Plain(n)) =>
      forall k | k in m
        ensures k in n
      {
        assert DeepEqual(m[k], Field(n, k)) && m[k] != Undefined;
      }
      SameKeys(m, n);
    case _ =>
  }

  lemma {:induction false} EqualAt(a: Value, b: Value, path: seq<Step>)
    requires Defined(a) && DeepEqual(a, b)
    ensures SameAt(At(a, path), At(b, path))
    decreases |path|
  {
    if path != [] {
      SameStep(a, b, path[0]);
      if Child(a, path[0]).Some? { EqualAt(Child(a, path[0]).value, Child(b, path[0]).value, path[1..]); }
    }
  }

  lemma {:induction false} ChildSame(a: Value, b: Value, s: Step)
    requires SameEverywhere(a, b) && Child(a, s).Some?
    ensures Child(b, s).Some? && SameEverywhere(Child(a, s).value, Child(b, s).value)
  {
    assert SameAt(At(a, [s]), At(b, [s]));
    forall path
      ensures SameAt(At(Child(a, s).value, path), At(Child(b, s).value, path))
    {
      assert ([s] + path)[1..] == path;
      assert SameAt(At(a, [s] + path), At(b, [s] + path));
    }
  }

  lemma {:induction false} StepSame(a: Value, b: Value, s: Step)
    requires SameEverywhere(a, b)
    ensures Child(a, s).Some? == Child(b, s).Some?
  {
    assert SameAt(At(a, [s]), At(b, [s]));
    assert At(a, [s]).Some? == Child(a, s).Some? && At(b, [s]).Some? == Child(b, s).Some?;
  }

  lemma {:induction false} SameLengths(a: Value, b: Value, m: nat, n: nat)
    requires SameEverywhere(a, b)
    requires forall i: nat :: (Child(a, Index(i)).Some? <==> i < m) && (Child(b, Index(i)).Some? <==> i < n)
    ensures m == n
  {
    StepSame(a, b, Index(if m < n then m else n));
  }

  lemma {:induction false} SameIsEqual(a: Value, b: Value)
    requires SameEverywhere(a, b)
    ensures DeepEqual(a, b)
    decreases a
  {
    assert SameAt(At(a, []), At(b, []));
    match (a, b)
    case (Vector(xs), Vector(ys)) =>
      SameLengths(a, b, |xs|, |ys|);
      forall i | 0 <= i < |xs|
        ensures DeepEqual(xs[i], ys[i])
      {
        ChildSame(a, b, Index(i));
        SameIsEqual(xs[i], ys[i]);
      }
    case (List(xs), List(ys)) =>
      SameLengths(a, b, |xs|, |ys|);
      forall i | 0 <= i < |xs|
        ensures DeepEqual(xs[i], ys[i])
      {
        ChildSame(a, b, Index(i));
        SameIsEqual(xs[i], ys[i]);
      }
    case (Map(m), Map(n)) =>
      SameEntries(a, b);
      forall k | k in m
        ensures k in n && DeepEqual(m[k], n[k])
      {
        ChildSame(a, b, Entry(k));
        SameIsEqual(m[k], n[k]);
      }
    case (Plain(m), Plain(n)) =>
      SameEntries(a, b);
      forall k | k in m
        ensures DeepEqual(m[k], Field(n, k))
      {
        ChildSame(a, b, Entry(k));
        SameIsEqual(m[k], n[k]);
      }
    case _ =>
  }

  lemma {:induction false} SameEntries(a: Value, b: Value)
    requires SameEverywhere(a, b) && ((a.Map? && b.Map?) || (a.Plain? && b.Plain?))
    ensures a.entries.Keys == b.entries.Keys && |a.entries| == |b.entries|
  {
    forall k
      ensures k in a.entries <==> k in b.entries
    {
      StepSame(a, b, Entry(k));
    }
    assert a.entries.Keys == b.entries.Keys;
  }

  lemma {:induction false} EqualIsSame(a: Value, b: Value)
    requires Defined(a) && DeepEqual(a, b)
    ensures SameEverywhere(a, b)
  {
    forall path
      ensures SameAt(At(a, path), At(b, path))
    {
      EqualAt(a, b, path);
    }
  }

  lemma {:induction false} HeadSymmetric(a: Value, b: Value)
    ensures SameHead(a, b) == SameHead(b, a)
  {
    if a.Number? && b.Number? { ApproxSymmetric(a.r, b.r, EPSILON); }
  }

  lemma {:induction false} SameSymmetric(a: Value, b: Value)
    requires SameEverywhere(a, b)
    ensures SameEverywhere(b, a)
  {
    forall path
      ensures SameAt(At(b, path), At(a, path))
    {
      assert SameAt(At(a, path), At(b, path));
      if At(a, path).Some? { HeadSymmetric(At(a, path).value, At(b, path).value); }
    }
  }

  // A key with the value `undefined` passes for a missing one.

  /** A value that `a` equals, but that does not equal `a`. */
  lemma {:induction false} OneWay(a: Value) returns (b: Value)
    requires !Defined(a)
    ensures DeepEqual(a, b) && !DeepEqual(b, a)
    decreases a
  {
    match a
    case Vector(xs) =>
      var i :| 0 <= i < |xs| && !Defined(xs[i]);
      var y := OneWay(xs[i]);
      b := Vector(xs[i := y]);
      OneWayItems(xs, i, y);
    case List(xs) =>
      var i :| 0 <= i < |xs| && !Defined(xs[i]);
      var y := OneWay(xs[i]);
      b := List(xs[i := y]);
      OneWayItems(xs, i, y);
    case Map(m) =>
      var k :| k in m && !Defined(m[k]);
      var y := OneWay(m[k]);
      b := Map(m[k := y]);
      OneWayEntries(m, k, y);
    case Plain(m) =>
      var k :| k in m && !(m[k] != Undefined && Defined(m[k]));
      if m[k] == Undefined {
        b := Renamed(m, k);
      } else {
        var y := OneWay(m[k]);
        b := Plain(m[k := y]);
        OneWayEntries(m, k, y);
      }
  }

  lemma OneWayItems(xs: seq<Value>, i: nat, y: Value)
    requires i < |xs| && DeepEqual(xs[i], y) && !DeepEqual(y, xs[i])
    ensures DeepEqual(Vector(xs), Vector(xs[i := y])) && !DeepEqual(Vector(xs[i := y]), Vector(xs))
    ensures DeepEqual(List(xs), List(xs[i := y])) && !DeepEqual(List(xs[i := y]), List(xs))
  {
    var ys := xs[i := y];
    forall j | 0 <= j < |xs| ensures DeepEqual(xs[j], ys[j]) { DeepReflexive(xs[j]); }
    assert !DeepEqual(ys[i], xs[i]);
  }

  lemma OneWayEntries(m: map<string, Value>, k: string, y: Value)
    requires k in m && DeepEqual(m[k], y) && !DeepEqual(y, m[k])
    ensures DeepEqual(Map(m), Map(m[k := y])) && !DeepEqual(Map(m[k := y]), Map(m))
    ensures DeepEqual(Plain(m), Plain(m[k := y])) && !DeepEqual(Plain(m[k := y]), Plain(m))
  {
    var n := m[k := y];
    assert n.Keys == m.Keys && |n| == |n.Keys| == |m.Keys| == |m|;
    forall j | j in m ensures DeepEqual(m[j], n[j]) { DeepReflexive(m[j]); }
    assert !DeepEqual(n[k], m[k]) && Field(m, k) == m[k];
  }

  /** Another key, with another value. */
  lemma Renamed(m: map<string, Value>, k: string) returns (b: Value)
    requires k in m && m[k] == Undefined
    ensures DeepEqual(Plain(m), b) && !DeepEqual(b, Plain(m))
  {
    var other := FreshKey(m.Keys);
    var n := (m - {k})[other := Number(0.0)];
    assert n.Keys == (m.Keys - {k}) + {other} && |n| == |n.Keys| == |m.Keys| == |m|;
    forall j | j in m ensures DeepEqual(m[j], Field(n, j)) { DeepReflexive(m[j]); }
    assert !DeepEqual(n[other], Field(m, other));
    b := Plain(n);
  }

  lemma {:induction false} FreshKey(keys: set<string>) returns (key: string)
    ensures key !in keys && forall k :: k in keys ==> |k| < |key|
    decreases |keys|
  {
    if keys == {} {
      key := "";
    } else {
      var k :| k in keys;
      var f := FreshKey(keys - {k});
      key := f + k + "x";
    }
  }

  /** Deep equality is having the same shape, and equal leaves at the same places - exactly for the values without
      undefined fields. */
  lemma {:induction false} DeepEqualMeans(a: Value)
    ensures Defined(a) <==> forall b :: DeepEqual(a, b) <==> SameEverywhere(a, b)
  {
    if Defined(a) {
      forall b ensures DeepEqual(a, b) <==> SameEverywhere(a, b) {
        if DeepEqual(a, b) { EqualIsSame(a, b); }
        if SameEverywhere(a, b) { SameIsEqual(a, b); }
      }
    } else {
      var b := OneWay(a);
      if SameEverywhere(a, b) {
        SameSymmetric(a, b);
        SameIsEqual(b, a);
      }
    }
  }

  /** What a value equals, equals it - exactly for the same values. */
  lemma {:induction false} DeepSymmetric(a: Value)
    ensures Defined(a) <==> forall b :: DeepEqual(a, b) ==> DeepEqual(b, a)
  {
    if Defined(a) {
      forall b | DeepEqual(a, b) ensures DeepEqual(b, a) {
        EqualIsSame(a, b);
        SameSymmetric(a, b);
        SameIsEqual(b, a);
      }
    } else {
      var b := OneWay(a);
    }
  }

  /** For instance, one field: the order of the arguments matters. */
  lemma {:induction false} UndefinedPasses(key: string, other: string, v: Value)
    requires key != other && v != Undefined
    ensures DeepEqual(Plain(map[key := Undefined]), Plain(map[other := v]))
    ensures !DeepEqual(Plain(map[other := v]), Plain(map[key := Undefined]))
  {
    var a, b := map[key := Undefined], map[other := v];
    assert |a| == 1 && |b| == 1 && other in b;
    assert Field(b, key) == Undefined && Field(a, other) == Undefined;
    assert !DeepEqual(v, Undefined);
  }
}
