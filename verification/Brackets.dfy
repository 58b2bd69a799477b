/** Which of the parentheses that the printer writes are needed, anywhere in an expression. */
module Brackets {
  import opened Options
  import opened Syntax
  import opened Docs
  import opened Names
  import opened Grammar
  import opened Parser
  import opened ParserProofs
  import opened Reading
  import opened Signs
  import opened Printer
  import opened PrintedTrees
  import opened RoundTrip

  /** The way down a tree. */
  datatype Step = Inner | Left | Right | Arg(index: nat)

  /** At `p` in `c` stands a pair of parentheses. */
  predicate ParenAt(c: Cst, p: seq<Step>) {
    if p == [] then c.ParenC?
    else
      match c
      case ParenC(x) => p[0].Inner? && ParenAt(x, p[1..])
      case NegC(x) => p[0].Inner? && ParenAt(x, p[1..])
      case InfixC(_, l, r) => (p[0].Left? && ParenAt(l, p[1..])) || (p[0].Right? && ParenAt(r, p[1..]))
      case AppC(_, args, _) => p[0].Arg? && p[0].index < |args| && ParenAt(args[p[0].index], p[1..])
      case _ => false
  }

  /** The tree without them. */
  function Removed(c: Cst, p: seq<Step>): Cst
    requires ParenAt(c, p)
  {
    if p == [] then c.inner
    else
      match c
      case ParenC(x) => ParenC(Removed(x, p[1..]))
      case NegC(x) => NegC(Removed(x, p[1..]))
      case InfixC(o, l, r) =>
        if p[0].Left? then InfixC(o, Removed(l, p[1..]), r) else InfixC(o, l, Removed(r, p[1..]))
      case AppC(f, args, trailing) => AppC(f, args[p[0].index := Removed(args[p[0].index], p[1..])], trailing)
  }

  /** They are around a sign, around an operator in prefix form, or around a power on the right of a power whose last
      name is no word in front of what follows the parentheses. `next`: what follows `c`. */
  predicate Redundant(c: Cst, p: seq<Step>, next: Option<Tok>)
    requires ParenAt(c, p)
  {
    if p == [] then true
    else
      match c
      case ParenC(x) => Redundant(x, p[1..], Some(Close(Paren)))
      case NegC(x) => Redundant(x, p[1..], next)
      case InfixC(o, l, r) =>
        assert ParenAt(if p[0].Left? then l else r, p[1..]);
        if p[1..] == [] then
          if p[0].Left? then !l.inner.InfixC?
          else r.inner.InfixC? ==> o == Arith(Pow) && r.inner.op == Arith(Pow) && Placed(r.inner, true, next)
        else if p[0].Left? then Redundant(l, p[1..], Some(OpTok(o))) else Redundant(r, p[1..], next)
      case AppC(_, args, _) => Redundant(args[p[0].index], p[1..], Some(Close(Paren)))
  }

  // Parentheses have no meaning of their own.

  lemma {:induction false} RemovedMeans(c: Cst, p: seq<Step>)
    requires ParenAt(c, p)
    ensures Ast(Removed(c, p)) == Ast(c)
    decreases p
  {
    if p != [] {
      match c
      case ParenC(x) => RemovedMeans(x, p[1..]);
      case NegC(x) => RemovedMeans(x, p[1..]);
      case InfixC(_, l, r) => RemovedMeans(if p[0].Left? then l else r, p[1..]);
      case AppC(_, args, _) =>
        RemovedMeans(args[p[0].index], p[1..]);
        SameMeanings(args, p[0].index, Removed(args[p[0].index], p[1..]));
    }
  }

  lemma {:induction false} SameMeanings(args: seq<Cst>, i: nat, x: Cst)
    requires i < |args| && Ast(x) == Ast(args[i])
    ensures Asts(args[i := x]) == Asts(args)
  {
    AstsCons(args);
    AstsCons(args[i := x]);
    if i > 0 {
      SameMeanings(args[1..], i - 1, x);
      assert args[i := x][1..] == args[1..][i - 1 := x];
    } else {
      assert args[i := x][1..] == args[1..];
    }
    assert Asts(args) == [Asts(args)[0]] + Asts(args)[1..];
    assert Asts(args[i := x]) == [Asts(args[i := x])[0]] + Asts(args[i := x])[1..];
  }

  // The printer only puts operands in parentheses that bind no tighter.

  predicate Tight(c: Cst)
    decreases c, 0
  {
    match c
    case ParenC(_) => false
    case NegC(x) => Tight(x)
    case InfixC(o, l, r) => TightOperand(o, l, false) && TightOperand(o, r, true)
    case AppC(_, args, _) => forall a :: a in args ==> Tight(a)
    case _ => true
  }

  predicate TightOperand(o: InfixOp, x: Cst, isRight: bool)
    decreases x, 1
  {
    if x.ParenC? then Tight(x.inner) && o.Arith? && Bracketed(o.op, x.inner, isRight) else Tight(x)
  }

  predicate Bracketed(op: BinOp, x: Cst, isRight: bool) {
    if x.InfixC? then
      x.op.Arith? && (Precedence(x.op.op) < Precedence(op) || (isRight && Precedence(x.op.op) == Precedence(op)))
    else x.NegC? || (x.AppC? && x.callee.OpCallee?)
  }

  lemma {:induction false} TreeIsTight(lay: Layout, n: Node, ind: nat)
    requires Plain(n)
    ensures Tight(Tree(lay, n, ind))
    decreases n, 1
  {
    if n.Call? {
      if IsNegation(n) {
        NegationUnfolds(lay, n, ind);
        TreeIsTight(lay, n.args[1], ind);
      } else if IsPipe(n) {
        PipeUnfolds(lay, n, ind);
        SpineIsTight(lay, n.args[0], PipeIndent(lay, n, ind));
      } else if IsInfix(n) {
        InfixUnfolds(lay, n, ind);
        OperandIsTight(lay, n.fn.builtin.op, n.args[0], false, ind);
        OperandIsTight(lay, n.fn.builtin.op, n.args[1], true, ind);
      } else if IsNamedInfix(n) {
        NamedUnfolds(lay, n, ind);
        TreeIsTight(lay, n.args[0], ind);
        TreeIsTight(lay, n.args[1], RightIndent(lay, n, ind));
      } else {
        ApplicationUnfolds(lay, n, ind);
        AllTight(lay, n.args, ArgIndent(lay, n, ind));
      }
    } else if n.Chain? {
      TreeIsTight(lay, n.operands[0], ind);
      OthersAreTight(lay, n.op, Tree(lay, n.operands[0], ind), n.operands[1..], ChainIndent(lay, n, ind));
    }
  }

  lemma {:induction false} OthersAreTight(lay: Layout, op: ChainOp, left: Cst, ns: seq<Node>, ind: nat)
    requires Tight(left) && forall a :: a in ns ==> Plain(a)
    ensures Tight(TreeChain(lay, op, left, ns, ind))
    decreases ns, 0
  {
    if ns != [] {
      TreeIsTight(lay, ns[0], ind);
      OthersAreTight(lay, op, InfixC(Logic(op), left, Tree(lay, ns[0], ind)), ns[1..], ind);
    }
  }

  lemma {:induction false} SpineIsTight(lay: Layout, n: Node, ind: nat)
    requires Plain(n)
    ensures Tight(TreeSpine(lay, n, ind))
    decreases n, 2
  {
    if IsPipeCall(n) { SpineIsTight(lay, n.args[0], ind); } else { TreeIsTight(lay, n, ind); }
  }

  lemma {:induction false} OperandIsTight(lay: Layout, op: BinOp, a: Node, isRight: bool, ind: nat)
    requires Plain(a)
    ensures TightOperand(Arith(op), TreeOperand(lay, op, a, isRight, ind), isRight)
    decreases a, 2
  {
    TreeIsTight(lay, a, ind);
    if NeedsParens(op, a, isRight) { BracketedOperand(lay, op, a, isRight, ind); }
  }

  lemma BracketedOperand(lay: Layout, op: BinOp, a: Node, isRight: bool, ind: nat)
    requires Plain(a) && NeedsParens(op, a, isRight)
    ensures Bracketed(op, Tree(lay, a, ind), isRight)
  {
    if IsNegation(a) {
      NegationUnfolds(lay, a, ind);
    } else if IsInfix(a) {
      InfixUnfolds(lay, a, ind);
    } else {
      ApplicationUnfolds(lay, a, ind);
    }
  }

  lemma {:induction false} AllTight(lay: Layout, ns: seq<Node>, ind: nat)
    requires forall a :: a in ns ==> Plain(a)
    ensures forall c :: c in TreeAll(lay, ns, ind) ==> Tight(c)
    decreases ns, 0
  {
    if ns != [] {
      TreeIsTight(lay, ns[0], ind);
      AllTight(lay, ns[1..], ind);
    }
  }

  // Without one pair, the tree is generated by the grammar exactly when that pair was redundant.

  /** Below the top nothing changes at the top. */
  lemma RemovedShape(c: Cst, p: seq<Step>)
    requires ParenAt(c, p) && p != []
    ensures var d := Removed(c, p);
            && (c.InfixC? <==> d.InfixC?) && (c.InfixC? ==> d.op == c.op)
            && (c.AppC? <==> d.AppC?) && (c.AppC? ==> d.callee == c.callee && (d.args == [] <==> c.args == []))
            && !c.Lit? && !c.Var?
  {
  }

  lemma {:induction false} RemovedExactly(c: Cst, p: seq<Step>, at: Spot)
    requires ParenAt(c, p) && p != [] && (if c.ParenC? then Tight(c.inner) else Tight(c))
    requires WF(c) && Clear(c, at.behind) && Placed(c, at.start, at.next)
    ensures var d := Removed(c, p);
            WF(d) && Clear(d, at.behind) && Placed(d, at.start, at.next) <==> Redundant(c, p, at.next)
    decreases p
  {
    match c
    case ParenC(x) => RemovedExactly(x, p[1..], INSIDE);
    case NegC(x) =>
      RemovedExactly(x, p[1..], at.BehindMinus());
      RemovedShape(x, p[1..]);
    case InfixC(o, l, r) =>
      if p[1..] == [] {
        OneRemoved(o, l, r, p[0].Left?, at);
      } else if p[0].Left? {
        RemovedExactly(l, p[1..], at.LeftOf(o));
        RemovedShape(l, p[1..]);
      } else {
        RemovedExactly(r, p[1..], at.RightOf(o));
        RemovedShape(r, p[1..]);
      }
    case AppC(f, args, trailing) =>
      assert args[p[0].index] in args;
      RemovedExactly(args[p[0].index], p[1..], INSIDE);
      ReplacedArg(args, p[0].index, Removed(args[p[0].index], p[1..]));
  }

  lemma OneRemoved(o: InfixOp, l: Cst, r: Cst, isLeft: bool, at: Spot)
    requires var c := InfixC(o, l, r); WF(c) && Clear(c, at.behind) && Placed(c, at.start, at.next) && Tight(c)
    requires if isLeft then l.ParenC? else r.ParenC?
    ensures var x := if isLeft then l.inner else r.inner;
            var d := if isLeft then InfixC(o, x, r) else InfixC(o, l, x);
            WF(d) && Clear(d, at.behind) && Placed(d, at.start, at.next) <==>
            (x.InfixC? ==> !isLeft && o == Arith(Pow) && x.op == Arith(Pow) && Placed(x, true, at.next))
  {
    var x := if isLeft then l.inner else r.inner;
    assert TightOperand(o, l, false) && TightOperand(o, r, true);
    assert Bracketed(o.op, x, !isLeft);
    BracketedFits(o.op, x, !isLeft);
    assert WF(x) && Clear(x, false) && (x.InfixC? || Clear(x, at.behind));
    if !x.InfixC? { BracketedPlaced(x, if isLeft then at.LeftOf(o) else at.RightOf(o)); }
  }

  /** A sign, or an operator in prefix form, may stand anywhere. */
  lemma BracketedPlaced(x: Cst, at: Spot)
    requires WF(x) && (x.NegC? || (x.AppC? && x.callee.OpCallee?)) && Placed(x, true, Some(Close(Paren)))
    ensures Placed(x, at.start, at.next)
  {
  }

  lemma BracketedFits(op: BinOp, x: Cst, isRight: bool)
    requires Bracketed(op, x, isRight)
    ensures (if isRight then RightOk(Arith(op), x) else LeftOk(Arith(op), x)) <==>
            (x.InfixC? ==> isRight && op == Pow && x.op == Arith(Pow))
  {
    TablesAgree();
    assert Precedence(op) == POW <==> op == Pow;
  }

  lemma ReplacedArg(args: seq<Cst>, i: nat, x: Cst)
    requires i < |args| && forall a :: a in args ==> Fine(a)
    ensures (forall a :: a in args[i := x] ==> Fine(a)) <==> Fine(x)
  {
    assert args[i := x][i] == x;
  }

  /** Leaving out any pair of parentheses of a printed expression that comes back changes how the text is read,
      except around a sign, an operator in prefix form, and a power on the right of a power. */
  lemma ParensNeeded(lay: Layout, n: Node, ind: nat, p: seq<Step>)
    requires Plain(n) && Faithful(n, ALONE) && EmptyCallsFit(lay, n, ind) && ParenAt(Tree(lay, n, ind), p)
    ensures ParseAll(Read(Removed(Tree(lay, n, ind), p))) == Some(n) <==> Redundant(Tree(lay, n, ind), p, None)
  {
    var c := Tree(lay, n, ind);
    FaithfulIsGood(lay, n, ind, ALONE);
    TreeIsTight(lay, n, ind);
    RemovedExactly(c, p, ALONE);
    RemovedMeans(c, p);
    TextReadsBack(Removed(c, p));
  }
}
