/** Values of the host as a graph of objects, and the check they pass before they enter the runtime. */
module HostValues {
  import opened Options

  type Ref = nat

  datatype Scalar = Null | Bool(b: bool) | Str(s: string) | Num(n: real)

  datatype Forbidden = NonFinite | Undefined | HostFunction | Symbol | BigInt

  /** Values of the language. Atoms, regular expressions, effects and functions are opaque; a foreign value is one of
      the host's that conversion lets through. */
  datatype Dvala =
    | Scalar(scalar: Scalar)
    | Opaque(id: nat)
    | Foreign(what: Forbidden)
    | Vec(items: seq<Dvala>)
    | Map(entries: map<string, Dvala>)

  /** A host value may be a value of the language already. */
  datatype Value = Plain(scalar: Scalar) | Bad(what: Forbidden) | Own(d: Dvala) | At(ref: Ref)

  /** An instance is a date, a map, a set, a regular expression of the host, or an object with its own prototype. */
  datatype Object =
    | Array(items: seq<Value>)
    | Record(entries: seq<(string, Value)>)
    | Instance(entries: seq<(string, Value)>)

  type Heap = map<Ref, Object>

  datatype Step = Index(i: nat) | Key(k: string)

  function Parts(o: Object): seq<(Step, Value)> {
    match o
    case Array(items) => seq(|items|, i requires 0 <= i < |items| => (Index(i), items[i]))
    case Record(entries) => seq(|entries|, i requires 0 <= i < |entries| => (Key(entries[i].0), entries[i].1))
    case Instance(entries) => seq(|entries|, i requires 0 <= i < |entries| => (Key(entries[i].0), entries[i].1))
  }

  /** No reference leads nowhere. */
  ghost predicate Closed(h: Heap) {
    forall r, i :: r in h && 0 <= i < |Parts(h[r])| ==> Sound(h, Parts(h[r])[i].1)
  }

  predicate Sound(h: Heap, v: Value) { v.At? ==> v.ref in h }

  datatype Reason = IsForbidden | IsInstance | IsCircular

  /** Where the check has failed, and why. */
  datatype Outcome = Accepted | Rejected(path: seq<Step>, reason: Reason)

  function Rest(h: Heap, seen: set<Ref>): nat { |h.Keys - seen| }

  lemma RestShrinks(h: Heap, seen: set<Ref>, r: Ref)
    requires r in h && r !in seen
    ensures Rest(h, seen + {r}) < Rest(h, seen)
  {
    assert h.Keys - (seen + {r}) == (h.Keys - seen) - {r};
  }

  /** The check: depth first, remembering the objects on the way from the root. */
  function Check(h: Heap, v: Value, seen: set<Ref>, path: seq<Step>): Outcome
    requires Closed(h) && Sound(h, v)
    decreases Rest(h, seen), 1, 0
  {
    match v
    case Plain(_) => Accepted
    case Bad(_) => Rejected(path, IsForbidden)
    case Own(_) => Accepted
    case At(r) =>
      if r in seen then Rejected(path, IsCircular)
      else if h[r].Instance? then Rejected(path, IsInstance)
      else
        RestShrinks(h, seen, r);
        CheckParts(h, r, Parts(h[r]), 0, seen + {r}, path)
  }

  function CheckParts(h: Heap, r: Ref, parts: seq<(Step, Value)>, i: nat, seen: set<Ref>, path: seq<Step>): Outcome
    requires Closed(h) && r in h && parts == Parts(h[r]) && i <= |parts|
    decreases Rest(h, seen), 2, |parts| - i
  {
    if i == |parts| then Accepted
    else
      var first := Check(h, parts[i].1, seen, path + [parts[i].0]);
      if first.Rejected? then first else CheckParts(h, r, parts, i + 1, seen, path)
  }

  /** The check as the program has it: one set for the whole descent, to which an object is added before its parts
      are looked at and from which it is deleted after. */
  class HostValidator {
    var seen: set<Ref>

    constructor ()
      ensures seen == {}
    {
      seen := {};
    }

    method AssertValidHostValue(h: Heap, v: Value, path: seq<Step>) returns (outcome: Outcome)
      requires Closed(h) && Sound(h, v)
      modifies this
      ensures outcome == Check(h, v, old(seen), path)
      ensures outcome.Accepted? ==> seen == old(seen)
      decreases Rest(h, seen)
    {
      if v.Plain? || v.Own? { return Accepted; }
      if v.Bad? { return Rejected(path, IsForbidden); }
      var r := v.ref;
      if r in seen { return Rejected(path, IsCircular); }
      RestShrinks(h, seen, r);
      ghost var before := seen;
      seen := seen + {r};
      if h[r].Instance? { return Rejected(path, IsInstance); }
      var parts := Parts(h[r]);
      var i := 0;
      while i < |parts|
        invariant 0 <= i <= |parts|
        invariant seen == before + {r}
        invariant CheckParts(h, r, parts, 0, seen, path) == CheckParts(h, r, parts, i, seen, path)
      {
        outcome := AssertValidHostValue(h, parts[i].1, path + [parts[i].0]);
        if outcome.Rejected? { return; }
        i := i + 1;
      }
      seen := seen - {r};
      return Accepted;
    }
  }

  // What is reachable.

  /** The value at the end of a walk, each step of which picks a part by its number. */
  function Follow(h: Heap, v: Value, w: seq<nat>): Option<Value>
    decreases |w|
  {
    if w == [] then Some(v)
    else if v.At? && v.ref in h && w[0] < |Parts(h[v.ref])| then Follow(h, Parts(h[v.ref])[w[0]].1, w[1..])
    else None
  }

  /** The objects a walk goes through before it ends. */
  function Passed(h: Heap, v: Value, w: seq<nat>): set<Ref>
    requires Follow(h, v, w).Some?
    decreases |w|
  {
    if w == [] then {} else {v.ref} + Passed(h, Parts(h[v.ref])[w[0]].1, w[1..])
  }

  function Labels(h: Heap, v: Value, w: seq<nat>): seq<Step>
    requires Follow(h, v, w).Some?
    decreases |w|
  {
    if w == [] then [] else [Parts(h[v.ref])[w[0]].0] + Labels(h, Parts(h[v.ref])[w[0]].1, w[1..])
  }

  /** The walk picks the items of arrays by their number and the entries of objects in their order; `way` names each
      item by its index and each entry by its key, and `end` is where the walk arrives. */
  predicate Leads(h: Heap, v: Value, w: seq<nat>, way: seq<Step>, end: Value)
    decreases |w|
  {
    if w == [] then way == [] && end == v
    else
      && v.At? && v.ref in h && way != []
      && match h[v.ref]
         case Array(items) =>
           w[0] < |items| && way[0] == Index(w[0]) && Leads(h, items[w[0]], w[1..], way[1..], end)
         case Record(entries) =>
           w[0] < |entries| && way[0] == Key(entries[w[0]].0) && Leads(h, entries[w[0]].1, w[1..], way[1..], end)
         case Instance(entries) =>
           w[0] < |entries| && way[0] == Key(entries[w[0]].0) && Leads(h, entries[w[0]].1, w[1..], way[1..], end)
  }

  lemma {:induction false} LabelsLead(h: Heap, v: Value, w: seq<nat>, way: seq<Step>, end: Value)
    ensures Leads(h, v, w, way, end) <==> Follow(h, v, w) == Some(end) && Labels(h, v, w) == way
    decreases |w|
  {
    if w != [] && v.At? && v.ref in h && w[0] < |Parts(h[v.ref])| {
      var (step, part) := Parts(h[v.ref])[w[0]];
      if way != [] { LabelsLead(h, part, w[1..], way[1..], end); }
      assert way != [] ==> way == [way[0]] + way[1..];
      if Follow(h, v, w).Some? { assert Labels(h, v, w) == [step] + Labels(h, part, w[1..]); }
    }
  }

  /** The walk ends at an object it has already gone through, or at one of `seen`. */
  predicate Circular(h: Heap, v: Value, w: seq<nat>, seen: set<Ref>) {
    var end := Follow(h, v, w);
    end.Some? && end.value.At? && (end.value.ref in seen || end.value.ref in Passed(h, v, w))
  }

  /** The walk ends at a value that cannot enter the runtime. */
  predicate Offends(h: Heap, v: Value, w: seq<nat>, seen: set<Ref>) {
    var end := Follow(h, v, w);
    && end.Some?
    && (end.value.Bad? || Circular(h, v, w, seen)
        || (end.value.At? && end.value.ref in h && h[end.value.ref].Instance?))
  }

  function ReasonFor(h: Heap, v: Value, w: seq<nat>, seen: set<Ref>): Reason
    requires Offends(h, v, w, seen)
  {
    if Follow(h, v, w).value.Bad? then IsForbidden else if Circular(h, v, w, seen) then IsCircular else IsInstance
  }

  /** Depth first: a walk comes before those that go on from it, and earlier parts before later ones. */
  predicate Before(a: seq<nat>, b: seq<nat>)
    decreases |b|
  {
    b != [] && (a == [] || a[0] < b[0] || (a[0] == b[0] && Before(a[1..], b[1..])))
  }

  lemma {:induction false} PartsAccepted(h: Heap, r: Ref, parts: seq<(Step, Value)>, i: nat, seen: set<Ref>,
                                         path: seq<Step>, j: nat)
    requires Closed(h) && r in h && parts == Parts(h[r]) && i <= j < |parts|
    requires CheckParts(h, r, parts, i, seen, path).Accepted?
    ensures Check(h, parts[j].1, seen, path + [parts[j].0]).Accepted?
    decreases |parts| - i
  {
    if i < j { PartsAccepted(h, r, parts, i + 1, seen, path, j); }
  }

  /** What is accepted has nothing offending in reach. */
  lemma {:induction false} AcceptedIsClean(h: Heap, v: Value, seen: set<Ref>, path: seq<Step>, w: seq<nat>)
    requires Closed(h) && Sound(h, v) && Check(h, v, seen, path).Accepted?
    ensures !Offends(h, v, w, seen)
    decreases |w|
  {
    if w != [] && Follow(h, v, w).Some? {
      var parts := Parts(h[v.ref]);
      PartsAccepted(h, v.ref, parts, 0, seen + {v.ref}, path, w[0]);
      AcceptedIsClean(h, parts[w[0]].1, seen + {v.ref}, path + [parts[w[0]].0], w[1..]);
    }
  }

  lemma {:induction false} OffendsStep(h: Heap, v: Value, w: seq<nat>, seen: set<Ref>)
    requires v.At? && v.ref in h && w != [] && w[0] < |Parts(h[v.ref])|
    ensures Offends(h, v, w, seen) <==> Offends(h, Parts(h[v.ref])[w[0]].1, w[1..], seen + {v.ref})
  {
  }

  lemma {:induction false} FirstOffence(h: Heap, v: Value, seen: set<Ref>, path: seq<Step>) returns (w: seq<nat>)
    requires Closed(h) && Sound(h, v) && Check(h, v, seen, path).Rejected?
    ensures Offends(h, v, w, seen)
    ensures Check(h, v, seen, path) == Rejected(path + Labels(h, v, w), ReasonFor(h, v, w, seen))
    ensures forall u :: Before(u, w) ==> !Offends(h, v, u, seen)
    decreases Rest(h, seen), 1, 0
  {
    if v.At? && v.ref !in seen && !h[v.ref].Instance? {
      RestShrinks(h, seen, v.ref);
      w := PartsOffend(h, v.ref, Parts(h[v.ref]), 0, seen + {v.ref}, path);
      forall u | Before(u, w)
        ensures !Offends(h, v, u, seen)
      {
        if u != [] && u[0] < |Parts(h[v.ref])| {
          assert !Offends(h, Parts(h[v.ref])[u[0]].1, u[1..], seen + {v.ref});
          OffendsStep(h, v, u, seen);
        }
      }
    } else {
      w := [];
      assert path + Labels(h, v, w) == path;
    }
  }

  lemma {:induction false} PartsOffend(h: Heap, r: Ref, parts: seq<(Step, Value)>, i: nat, seen: set<Ref>,
                                       path: seq<Step>)
    returns (w: seq<nat>)
    requires Closed(h) && r in h && parts == Parts(h[r]) && i <= |parts| && r in seen
    requires CheckParts(h, r, parts, i, seen, path).Rejected?
    ensures w != [] && i <= w[0] < |parts| && Offends(h, parts[w[0]].1, w[1..], seen)
    ensures var k := w[0];
            CheckParts(h, r, parts, i, seen, path)
              == Rejected(path + ([parts[k].0] + Labels(h, parts[k].1, w[1..])), ReasonFor(h, parts[k].1, w[1..], seen))
    ensures forall j, u :: i <= j < w[0] ==> !Offends(h, parts[j].1, u, seen)
    ensures forall u :: Before(u, w[1..]) ==> !Offends(h, parts[w[0]].1, u, seen)
    decreases Rest(h, seen), 2, |parts| - i
  {
    var here := path + [parts[i].0];
    if Check(h, parts[i].1, seen, here).Rejected? {
      var rest := FirstOffence(h, parts[i].1, seen, here);
      w := [i] + rest;
      assert w[1..] == rest;
      assert here + Labels(h, parts[i].1, rest) == path + ([parts[i].0] + Labels(h, parts[i].1, rest));
    } else {
      w := PartsOffend(h, r, parts, i + 1, seen, path);
      forall u
        ensures !Offends(h, parts[i].1, u, seen)
      {
        AcceptedIsClean(h, parts[i].1, seen, here, u);
      }
    }
  }

  /** What is rejected has: the error names the way to the first offending value, by the indices of the items and the
      keys of the entries that lead there, and what is wrong with it. */
  lemma RejectedOffends(h: Heap, v: Value, seen: set<Ref>, path: seq<Step>)
    returns (w: seq<nat>, way: seq<Step>, end: Value)
    requires Closed(h) && Sound(h, v) && Check(h, v, seen, path).Rejected?
    ensures Leads(h, v, w, way, end) && Offends(h, v, w, seen)
    ensures Check(h, v, seen, path) == Rejected(path + way, ReasonFor(h, v, w, seen))
    ensures forall u :: Before(u, w) ==> !Offends(h, v, u, seen)
  {
    w := FirstOffence(h, v, seen, path);
    way, end := Labels(h, v, w), Follow(h, v, w).value;
    LabelsLead(h, v, w, way, end);
  }

  /** The check accepts exactly the values from which neither a forbidden value, nor an instance, nor a cycle can be
      reached; an object reached along two ways is no cycle. */
  lemma {:induction false} CheckExact(h: Heap, v: Value, path: seq<Step>)
    requires Closed(h) && Sound(h, v)
    ensures Check(h, v, {}, path).Accepted? <==> forall w :: !Offends(h, v, w, {})
  {
    if Check(h, v, {}, path).Accepted? {
      forall w
        ensures !Offends(h, v, w, {})
      {
        AcceptedIsClean(h, v, {}, path, w);
      }
    } else {
      var w := FirstOffence(h, v, {}, path);
    }
  }
}
