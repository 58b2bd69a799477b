/** Two concrete syntax trees with the same tokens and the same meaning are the same tree, and hence a tree is
    read back as its meaning exactly when it is well-formed. */
module Reading {
  import opened Options
  import opened Syntax
  import opened Docs
  import opened Names
  import opened Grammar
  import opened Parser
  import opened ParserProofs

  // Scans up to the bracket that closes the enclosing one; `k` brackets are open in between.

  function AfterClose(ts: List<Tok>, k: nat): List<Tok> {
    if ts.Nil? then Nil
    else if ts.head.Open? then AfterClose(ts.tail, k + 1)
    else if ts.head.Close? then if k == 0 then ts.tail else AfterClose(ts.tail, k - 1)
    else AfterClose(ts.tail, k)
  }

  predicate TopComma(ts: List<Tok>, k: nat) {
    ts.Cons? &&
    if ts.head.Open? then TopComma(ts.tail, k + 1)
    else if ts.head.Close? then k > 0 && TopComma(ts.tail, k - 1)
    else (ts.head.Comma? && k == 0) || TopComma(ts.tail, k)
  }

  function TokWeight(t: Tok): nat {
    match t
    case Number(v) => if v != 0 then 1 else 0
    case Ident(_) => 1
    case Keyword(_) => 1
    case Op(Bin(_)) => 1
    case Op(s) => if s in {PipeSign, AndSign, OrSign, QqSign} then 1 else 0
    case _ => 0
  }

  function WeightToClose(ts: List<Tok>, k: nat): nat {
    if ts.Nil? then 0
    else if ts.head.Open? then WeightToClose(ts.tail, k + 1)
    else if ts.head.Close? then if k == 0 then 0 else WeightToClose(ts.tail, k - 1)
    else TokWeight(ts.head) + WeightToClose(ts.tail, k)
  }

  function Weight(ts: List<Tok>): nat {
    if ts.Nil? then 0 else TokWeight(ts.head) + Weight(ts.tail)
  }

  /** Names, operators, placeholders and numbers other than zero. Zeros do not count because a prefix minus
      stands for one that is not written. A chain of other than two operands weighs more than its signs, since it is
      never read as such. */
  function NodeWeight(n: Node): nat {
    match n
    case Num(v) => if v != 0 then 1 else 0
    case Call(fn, args, h) => NodeWeight(fn) + NodesWeight(args) + (if h.isPipe then 1 else 0)
    case Chain(_, operands) => NodesWeight(operands) + (if |operands| == 2 then 1 else |operands|)
    case _ => 1
  }

  function NodesWeight(ns: seq<Node>): nat {
    if ns == [] then 0 else NodeWeight(ns[0]) + NodesWeight(ns[1..])
  }

  lemma NodesWeight1(a: Node)
    ensures NodesWeight([a]) == NodeWeight(a)
  {
    assert [a][1..] == [];
  }

  lemma NodesWeight2(a: Node, b: Node)
    ensures NodesWeight([a, b]) == NodeWeight(a) + NodeWeight(b)
  {
    assert [a, b][1..] == [b];
    NodesWeight1(b);
  }

  lemma InfixWeight(o: InfixOp, l: Node, r: Node)
    ensures NodeWeight(InfixNode(o, l, r)) == NodeWeight(l) + 1 + NodeWeight(r)
  {
    NodesWeight2(l, r);
    NodesWeight1(l);
  }

  lemma NegationWeight(x: Node)
    ensures NodeWeight(Negation(x)) == 1 + NodeWeight(x)
  {
    NodesWeight2(Num(0), x);
  }

  lemma CallWeight(f: Callee, args: seq<Node>)
    ensures NodeWeight(Call(CalleeNode(f), args, PLAIN)) == 1 + NodesWeight(args)
  {
  }

  lemma AstsCons(args: seq<Cst>)
    requires args != []
    ensures Asts(args)[0] == Ast(args[0]) && Asts(args)[1..] == Asts(args[1..])
  {
  }

  /** The tokens of an argument list, one argument at a time. */
  function AfterArg(args: seq<Cst>, trailing: bool, rest: List<Tok>): List<Tok>
    requires args != []
  {
    if |args| == 1 && !trailing then Cons(Close(Paren), rest) else Cons(Comma, ArgToks(args[1..], trailing, rest))
  }

  /** A lone comma between the brackets passes through every scan and weighs nothing. */
  lemma LoneComma(rest: List<Tok>, k: nat)
    ensures var ts := Cons(Comma, Cons(Close(Paren), rest));
            && AfterClose(ts, k + 1) == AfterClose(rest, k) && TopComma(ts, k + 1) == TopComma(rest, k)
            && Weight(ts) == Weight(rest) && WeightToClose(ts, k) == if k > 0 then WeightToClose(rest, k - 1) else 0
  {
    var close := Cons(Close(Paren), rest);
    assert Weight(close) == Weight(rest) && TopComma(close, k + 1) == TopComma(rest, k);
  }

  /** A whole tree passes through a scan. */
  lemma {:induction false} ScanTree(c: Cst, rest: List<Tok>, k: nat)
    ensures AfterClose(Toks(c, rest), k) == AfterClose(rest, k)
    ensures TopComma(Toks(c, rest), k) == TopComma(rest, k)
    decreases c
  {
    match c
    case ParenC(x) => ScanTree(x, Cons(Close(Paren), rest), k + 1);
    case NegC(x) => ScanTree(x, rest, k);
    case InfixC(o, l, r) =>
      ScanTree(l, Cons(OpTok(o), Toks(r, rest)), k);
      ScanTree(r, rest, k);
    case AppC(f, args, trailing) =>
      ScanArgs(args, trailing, rest, k + 1);
      LoneComma(rest, k);
    case _ =>
  }

  lemma {:induction false} ScanArgs(args: seq<Cst>, trailing: bool, rest: List<Tok>, k: nat)
    ensures k > 0 ==> AfterClose(ArgToks(args, trailing, rest), k) == AfterClose(rest, k - 1)
    ensures k > 0 ==> TopComma(ArgToks(args, trailing, rest), k) == TopComma(rest, k - 1)
    ensures |args| >= 2 ==> TopComma(ArgToks(args, trailing, rest), 0)
    decreases args
  {
    if args != [] {
      ScanTree(args[0], AfterArg(args, trailing, rest), k);
      ScanTree(args[0], AfterArg(args, trailing, rest), 0);
      ScanArgs(args[1..], trailing, rest, k);
    }
  }

  function CstWeight(c: Cst): nat {
    match c
    case Lit(v) => if v != 0 then 1 else 0
    case Var(_) => 1
    case HoleC => 1
    case ParenC(x) => CstWeight(x)
    case NegC(x) => 1 + CstWeight(x)
    case InfixC(_, l, r) => CstWeight(l) + 1 + CstWeight(r)
    case AppC(_, args, _) => 1 + ArgsWeight(args)
  }

  function ArgsWeight(args: seq<Cst>): nat {
    if args == [] then 0 else CstWeight(args[0]) + ArgsWeight(args[1..])
  }

  /** A tree weighs as much as what it means. */
  lemma {:induction false} AstWeight(c: Cst)
    ensures CstWeight(c) == NodeWeight(Ast(c))
    decreases c
  {
    match c
    case ParenC(x) => AstWeight(x);
    case NegC(x) =>
      AstWeight(x);
      NegationWeight(Ast(x));
    case InfixC(o, l, r) =>
      AstWeight(l);
      AstWeight(r);
      InfixWeight(o, Ast(l), Ast(r));
    case AppC(f, args, trailing) =>
      AstsWeight(args);
      CallWeight(f, Asts(args));
    case _ =>
  }

  lemma {:induction false} AstsWeight(args: seq<Cst>)
    ensures ArgsWeight(args) == NodesWeight(Asts(args))
    decreases args
  {
    if args != [] {
      AstWeight(args[0]);
      AstsWeight(args[1..]);
      AstsCons(args);
    }
  }

  /** And as much as its tokens. */
  lemma {:induction false} WeighTree(c: Cst, rest: List<Tok>)
    ensures Weight(Toks(c, rest)) == CstWeight(c) + Weight(rest)
    decreases c
  {
    match c
    case ParenC(x) => WeighTree(x, Cons(Close(Paren), rest));
    case NegC(x) => WeighTree(x, rest);
    case InfixC(o, l, r) =>
      WeighTree(l, Cons(OpTok(o), Toks(r, rest)));
      WeighTree(r, rest);
    case AppC(f, args, trailing) => WeighInside(args, trailing, rest);
    case _ =>
  }

  lemma {:induction false} WeighInside(args: seq<Cst>, trailing: bool, rest: List<Tok>)
    ensures Weight(Inside(args, trailing, rest)) == ArgsWeight(args) + Weight(rest)
    decreases args, 1
  {
    WeighArgs(args, trailing, rest);
    LoneComma(rest, 0);
  }

  lemma {:induction false} WeighArgs(args: seq<Cst>, trailing: bool, rest: List<Tok>)
    ensures Weight(ArgToks(args, trailing, rest)) == ArgsWeight(args) + Weight(rest)
    decreases args, 0
  {
    if args != [] {
      WeighTree(args[0], AfterArg(args, trailing, rest));
      WeighArgs(args[1..], trailing, rest);
    }
  }

  /** Also in front of a closing bracket. */
  lemma {:induction false} WeighToClose(c: Cst, rest: List<Tok>, k: nat)
    ensures WeightToClose(Toks(c, rest), k) == CstWeight(c) + WeightToClose(rest, k)
    decreases c
  {
    match c
    case ParenC(x) => WeighToClose(x, Cons(Close(Paren), rest), k + 1);
    case NegC(x) => WeighToClose(x, rest, k);
    case InfixC(o, l, r) =>
      WeighToClose(l, Cons(OpTok(o), Toks(r, rest)), k);
      WeighToClose(r, rest, k);
    case AppC(f, args, trailing) => WeighInsideToClose(args, trailing, rest, k);
    case _ =>
  }

  lemma {:induction false} WeighInsideToClose(args: seq<Cst>, trailing: bool, rest: List<Tok>, k: nat)
    ensures WeightToClose(Inside(args, trailing, rest), k + 1) == ArgsWeight(args) + WeightToClose(rest, k)
    decreases args, 1
  {
    WeighArgsToClose(args, trailing, rest, k + 1);
    LoneComma(rest, k + 1);
  }

  lemma {:induction false} WeighArgsToClose(args: seq<Cst>, trailing: bool, rest: List<Tok>, k: nat)
    ensures WeightToClose(ArgToks(args, trailing, rest), k) ==
            ArgsWeight(args) + (if k > 0 then WeightToClose(rest, k - 1) else 0)
    decreases args, 0
  {
    if args != [] {
      WeighToClose(args[0], AfterArg(args, trailing, rest), k);
      WeighArgsToClose(args[1..], trailing, rest, k);
    }
  }

  /** The operand at the left end of a tree. Unless it is the whole tree, it weighs less. */
  lemma {:induction false} Leftmost(c: Cst, rest: List<Tok>) returns (u: Cst, after: List<Tok>)
    ensures !u.InfixC? && Toks(u, after) == Toks(c, rest)
    ensures if c.InfixC? then CstWeight(u) < CstWeight(c) else u == c && after == rest
    decreases c
  {
    if c.InfixC? {
      var InfixC(o, l, r) := c;
      u, after := Leftmost(l, Cons(OpTok(o), Toks(r, rest)));
    } else {
      u, after := c, rest;
    }
  }

  /** A parenthesised tree is read like nothing else. */
  lemma ParenOnly(x: Cst, d: Cst, r1: List<Tok>, r2: List<Tok>)
    requires Toks(ParenC(x), r1) == Toks(d, r2) && Ast(x) == Ast(d)
    ensures d.ParenC?
  {
    if d.InfixC? {
      var u, after := Leftmost(d, r2);
      assert u.ParenC?;
      AstWeight(x);
      AstWeight(d);
      WeighToClose(x, Cons(Close(Paren), r1), 0);
      WeighToClose(u.inner, Cons(Close(Paren), after), 0);
    }
  }

  /** An operator applied in prefix form is not read as one between its operands, nor as a sign. */
  lemma {:induction false} AppOnly(c: Cst, d: Cst, r1: List<Tok>, r2: List<Tok>)
    requires c.AppC? && Toks(c, r1) == Toks(d, r2) && Ast(c) == Ast(d)
    ensures d.AppC?
  {
    if d.InfixC? || d.NegC? {
      var AppC(f, args, trailing) := c;
      assert |Asts(args)| == 2;
      var u, after := Leftmost(d, r2);
      if u.AppC? {
        AstWeight(c);
        AstWeight(d);
        WeighArgsToClose(args, trailing, r1, 0);
        WeighArgsToClose(u.args, u.trailing, after, 0);
      } else {
        var v, after' := Leftmost(u.inner, after);
        ScanArgs(args, trailing, r1, 0);
        ScanTree(v.inner, Cons(Close(Paren), after'), 0);
      }
    }
  }

  /** A number starts with its digits or with a bracket. */
  lemma {:induction false} StartOfNumber(c: Cst, rest: List<Tok>)
    requires Ast(c).Num?
    ensures Toks(c, rest).head.Number? || Toks(c, rest).head.Open?
  {
  }

  lemma {:induction false} SameTree(c: Cst, d: Cst, r1: List<Tok>, r2: List<Tok>)
    requires Toks(c, r1) == Toks(d, r2) && Ast(c) == Ast(d) && Plain(Ast(c))
    ensures c == d && r1 == r2
    decreases c, 1
  {
    if c.ParenC? {
      ParenOnly(c.inner, d, r1, r2);
      SameTree(c.inner, d.inner, Cons(Close(Paren), r1), Cons(Close(Paren), r2));
    } else if d.ParenC? {
      ParenOnly(d.inner, c, r2, r1);
    } else if c.AppC? {
      AppOnly(c, d, r1, r2);
      SameInside(c.args, c.trailing, d.args, d.trailing, r1, r2);
    } else if d.AppC? {
      AppOnly(d, c, r2, r1);
    } else if c.NegC? && d.NegC? {
      assert Ast(c.inner) == Ast(c).args[1] == Ast(d).args[1] == Ast(d.inner);
      SameTree(c.inner, d.inner, r1, r2);
    } else if c.InfixC? && d.InfixC? {
      SameSides(c, d, r1, r2);
    } else if c.InfixC? && d.NegC? {
      StartOfNumber(c.left, Cons(OpTok(c.op), Toks(c.right, r1)));
    } else if c.NegC? && d.InfixC? {
      StartOfNumber(d.left, Cons(OpTok(d.op), Toks(d.right, r2)));
    }
  }

  lemma SidesPlain(c: Cst)
    requires c.InfixC? && Plain(Ast(c))
    ensures Plain(Ast(c.left)) && (Ast(c.right).Sym? || Plain(Ast(c.right)))
  {
    var l, r := Ast(c.left), Ast(c.right);
    if c.op.Logic? {
      assert l in Ast(c).operands && r in Ast(c).operands;
    } else {
      assert l in Ast(c).args && (r.Sym? || r in Ast(c).args);
    }
  }

  lemma {:induction false} SameSides(c: Cst, d: Cst, r1: List<Tok>, r2: List<Tok>)
    requires Toks(c, r1) == Toks(d, r2) && Ast(c) == Ast(d) && Plain(Ast(c)) && c.InfixC? && d.InfixC?
    ensures c == d && r1 == r2
    decreases c, 0
  {
    SidesPlain(c);
    SameTree(c.left, d.left, Cons(OpTok(c.op), Toks(c.right, r1)), Cons(OpTok(d.op), Toks(d.right, r2)));
    SameTree(c.right, d.right, r1, r2);
  }

  lemma {:induction false} SameInside(cs: seq<Cst>, t1: bool, ds: seq<Cst>, t2: bool, r1: List<Tok>, r2: List<Tok>)
    requires Inside(cs, t1, r1) == Inside(ds, t2, r2) && Asts(cs) == Asts(ds)
    requires forall a :: a in Asts(cs) ==> Plain(a)
    ensures cs == ds && t1 == t2 && r1 == r2
    decreases cs, 1
  {
    assert |cs| == |Asts(cs)| == |Asts(ds)| == |ds|;
    if cs != [] { SameArgs(cs, t1, ds, t2, r1, r2); }
  }

  lemma {:induction false} SameArgs(cs: seq<Cst>, t1: bool, ds: seq<Cst>, t2: bool, r1: List<Tok>, r2: List<Tok>)
    requires ArgToks(cs, t1, r1) == ArgToks(ds, t2, r2) && Asts(cs) == Asts(ds)
    requires forall a :: a in Asts(cs) ==> Plain(a)
    ensures cs == ds && r1 == r2 && (cs != [] ==> t1 == t2)
    decreases cs, 0
  {
    assert |cs| == |Asts(cs)| == |Asts(ds)| == |ds|;
    if cs != [] {
      AstsCons(cs);
      AstsCons(ds);
      assert Ast(cs[0]) in Asts(cs);
      SameTree(cs[0], ds[0], AfterArg(cs, t1, r1), AfterArg(ds, t2, r2));
      if AfterArg(cs, t1, r1).head == Comma {
        SameArgs(cs[1..], t1, ds[1..], t2, r1, r2);
      }
      assert cs == [cs[0]] + cs[1..] && ds == [ds[0]] + ds[1..];
    }
  }

  /** A tree is read back as its meaning exactly when the grammar generates it and no name in it stands where it is a
      word. */
  lemma ReadsBack(c: Cst)
    requires Plain(Ast(c)) && Clean(Toks(c, Nil))
    ensures ParseAll(Toks(c, Nil)) == Some(Ast(c)) <==> WF(c) && Placed(c, true, None)
  {
    if WF(c) && Placed(c, true, None) { Complete(c, Nil, 0); }
    if ParseAll(Toks(c, Nil)) == Some(Ast(c)) {
      var d := SoundExpr(Toks(c, Nil), 0);
      SameTree(c, d, Nil, Nil);
    }
  }
}
