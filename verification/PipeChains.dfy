/** Taking a nest of pipe calls apart into its chain, and folding a chain back into the nest. */
module PipeChains {
  import opened Syntax
  import opened Printer

  function Reversed(s: seq<Node>): (r: seq<Node>)
    ensures |r| == |s|
  {
    if s == [] then [] else Reversed(s[1..]) + [s[0]]
  }

  lemma ReversedLast(s: seq<Node>, x: Node)
    ensures Reversed(s + [x]) == [x] + Reversed(s)
  {
    if s != [] {
      assert (s + [x])[1..] == s[1..] + [x];
      ReversedLast(s[1..], x);
    }
  }

  /** The chain of the call of `fn` on `args`, innermost value first, or nothing. Callees are collected on the
      way in, outermost first, and turned around at the end. */
  method ExtractPipeChain(fn: Node, args: seq<Node>, ghost hints: Hints) returns (chain: seq<Node>)
    ensures chain == PipeChain(Call(fn, args, hints))
  {
    if |args| != 1 { return []; }
    if !fn.Sym? && !fn.Builtin? { return []; }
    var fns := [fn];
    var current := args[0];
    while current.Call?
      invariant |fns| >= 1 && fns[0] == fn
      invariant PipeSpine(args[0]) == PipeSpine(current) + Reversed(fns[1..])
      decreases current
    {
      if !current.hints.isPipe { break; }
      if |current.args| != 1 { break; }
      if !current.fn.Sym? && !current.fn.Builtin? { break; }
      ReversedLast(fns[1..], current.fn);
      assert (fns + [current.fn])[1..] == fns[1..] + [current.fn];
      fns := fns + [current.fn];
      current := current.args[0];
    }
    assert PipeSpine(current) == [current];
    assert Reversed(fns) == Reversed(fns[1..]) + [fn];
    if |fns| < 2 { return []; }
    chain := [current] + Reversed(fns);
  }

  /** Folding a chain from the left gives nested calls, each marked as a pipe. */
  function Refold(chain: seq<Node>): Node
    requires chain != []
  {
    var k := |chain| - 1;
    if k == 0 then chain[0] else Call(chain[k], [Refold(chain[..k])], Hints(false, true))
  }

  /** The expression with the calls of its chain marked as the parser marks pipes, and as nothing else. */
  function Marked(n: Node): Node {
    if IsPipeStep(n) && n.hints.isPipe then Call(n.fn, [Marked(n.args[0])], Hints(false, true)) else n
  }

  /** Extraction loses nothing: folding the chain gives the call back. */
  lemma RefoldChain(n: Node)
    requires IsPipe(n)
    ensures PipeChain(n) != [] && Refold(PipeChain(n)) == Marked(n)
  {
    var spine := PipeSpine(n.args[0]);
    RefoldSpine(n.args[0]);
    assert (spine + [n.fn])[..|spine|] == spine;
  }

  lemma {:induction false} RefoldSpine(n: Node)
    ensures Refold(PipeSpine(n)) == Marked(n)
    decreases n
  {
    if IsPipeStep(n) && n.hints.isPipe {
      var spine := PipeSpine(n.args[0]);
      RefoldSpine(n.args[0]);
      assert (spine + [n.fn])[..|spine|] == spine;
    }
  }
}
