/** Printing an operator expression and parsing the text again: exactly which expressions come back. */
module RoundTrip {
  import opened Options
  import opened Syntax
  import opened Docs
  import opened Names
  import opened Grammar
  import opened Parser
  import opened ParserProofs
  import opened Reading
  import opened Signs
  import opened Printer
  import opened PrintedTrees

  // Which expressions survive.

  /** An operand of an operator between its operands: named infix calls, logical chains and pipes are never put in
      parentheses, and a power on the left of a power reads as standing on its right. */
  predicate OperandOk(op: BinOp, a: Node, isRight: bool) {
    && !IsPipeCall(a) && !IsNamedCall(a) && !a.Chain?
    && !(op == Pow && !isRight && IsInfix(a) && a.fn.builtin.op == Pow)
  }

  /** An operand of a logical chain: a chain on the right reads as standing on the left. */
  predicate LogicalOk(a: Node, isRight: bool) { !IsPipeCall(a) && !IsNamedCall(a) && !(isRight && a.Chain?) }

  /** An operand of a prefix minus: a name, a call of a name, or a number that does not merge with the minus. Every
      other expression would hand it only its first operand. */
  predicate MinusOk(x: Node, behind: bool) {
    x.Sym? || (x.Num? && (x.value < 0 || behind)) || (x.Call? && x.fn.Sym? && x.hints == PLAIN)
  }

  /** Where an expression stands: directly behind the name of an infix function, where no number has a sign; where an
      expression starts, where some names are words; and in front of what. */
  datatype Spot = Spot(behind: bool, start: bool, next: Option<Tok>) {
    function LeftOf(o: InfixOp): Spot { this.(next := Some(OpTok(o))) }

    function RightOf(o: InfixOp): Spot { Spot(o.NameOp?, true, next) }

    function BehindMinus(): Spot { Spot(false, false, next) }
  }

  const ALONE := Spot(false, true, None)
  const INSIDE := Spot(false, true, Some(Close(Paren)))

  function OperandSpot(op: BinOp, a: Node, isRight: bool, at: Spot): Spot {
    if NeedsParens(op, a, isRight) then INSIDE else if isRight then at.RightOf(Arith(op)) else at.LeftOf(Arith(op))
  }

  /** A name that is read as itself at the spot, where it is followed by what `next` says. */
  predicate NameOk(name: string, at: Spot) { at.start ==> !IsWord(name, at.next) }

  predicate Faithful(n: Node, at: Spot)
    decreases n, 1
  {
    match n
    case Num(v) => v < 0 ==> !at.behind
    case Sym(name) => NameOk(name, at)
    case Call(_, _, _) =>
      if IsNegation(n) then Faithful(n.args[1], at.BehindMinus()) && MinusOk(n.args[1], at.behind)
      else if IsPipeCall(n) then
        IsPipe(n) && FaithfulSpine(n.args[0], at.LeftOf(PipeOp)) && n.fn.Sym? && NameOk(n.fn.name, at.RightOf(PipeOp))
      else if IsInfix(n) then
        var op, l, r := n.fn.builtin.op, n.args[0], n.args[1];
        && Faithful(l, OperandSpot(op, l, false, at)) && Faithful(r, OperandSpot(op, r, true, at))
        && OperandOk(op, l, false) && OperandOk(op, r, true)
      else if IsNamedInfix(n) then
        && n.fn.Sym? && IsOperatorName(n.fn.name)
        && Faithful(n.args[0], at.LeftOf(NameOp(n.fn.name))) && Faithful(n.args[1], at.RightOf(NameOp(n.fn.name)))
        && !IsPipeCall(n.args[0]) && !IsPipeCall(n.args[1]) && !IsNamedCall(n.args[1])
      else
        && (n.fn.Sym? ==> NameOk(n.fn.name, at.(next := Some(Open(Paren)))))
        && (n.fn.Builtin? && n.fn.builtin.Infix? ==> Takes(n.fn.builtin.op, |n.args|))
        && forall a :: a in n.args ==> Faithful(a, INSIDE)
    case Chain(op, operands) =>
      && |operands| == 2 && LogicalOk(operands[0], false) && LogicalOk(operands[1], true)
      && Faithful(operands[0], at.LeftOf(Logic(op))) && Faithful(operands[1], at.RightOf(Logic(op)))
    case _ => true
  }

  predicate FaithfulSpine(n: Node, at: Spot)
    decreases n, 2
  {
    if IsPipeCall(n) then
      && n.args != [] && FaithfulSpine(n.args[0], at.LeftOf(PipeOp))
      && n.fn.Sym? && NameOk(n.fn.name, at.RightOf(PipeOp))
    else Faithful(n, at)
  }

  /** No call without arguments is broken over lines. */
  predicate EmptyCallsFit(lay: Layout, n: Node, ind: nat)
    requires Plain(n)
    decreases n, 1
  {
    match n
    case Call(_, _, _) =>
      (forall a :: a in n.args ==> Plain(a)) &&
      if IsNegation(n) then EmptyCallsFit(lay, n.args[1], ind)
      else if IsPipe(n) then EmptyCallsFitSpine(lay, n.args[0], PipeIndent(lay, n, ind))
      else if IsInfix(n) then EmptyCallsFit(lay, n.args[0], ind) && EmptyCallsFit(lay, n.args[1], ind)
      else if IsNamedInfix(n) then
        EmptyCallsFit(lay, n.args[0], ind) && EmptyCallsFit(lay, n.args[1], RightIndent(lay, n, ind))
      else
        (n.args == [] ==> !Broken(lay, n, ind)) &&
        forall a :: a in n.args ==> EmptyCallsFit(lay, a, ArgIndent(lay, n, ind))
    case Chain(_, operands) =>
      && EmptyCallsFit(lay, operands[0], ind)
      && forall a :: a in operands[1..] ==> EmptyCallsFit(lay, a, ChainIndent(lay, n, ind))
    case _ => true
  }

  predicate EmptyCallsFitSpine(lay: Layout, n: Node, ind: nat)
    requires Plain(n)
    decreases n, 2
  {
    if IsPipeCall(n) then EmptyCallsFitSpine(lay, n.args[0], ind) else EmptyCallsFit(lay, n, ind)
  }

  // They are the ones whose tree is well-formed, clear and placed where it may be, and means them.

  ghost predicate Good(c: Cst, n: Node, at: Spot) {
    WF(c) && Clear(c, at.behind) && Placed(c, at.start, at.next) && Ast(c) == n
  }

  lemma {:induction false} FaithfulIsGood(lay: Layout, n: Node, ind: nat, at: Spot)
    requires Plain(n)
    ensures Good(Tree(lay, n, ind), n, at) <==> Faithful(n, at) && EmptyCallsFit(lay, n, ind)
    decreases n, 1
  {
    if n.Call? {
      if IsNegation(n) {
        NegationUnfolds(lay, n, ind);
        FaithfulIsGood(lay, n.args[1], ind, at.BehindMinus());
        GoodNegation(lay, n, ind, at);
      } else if IsPipe(n) {
        PipeUnfolds(lay, n, ind);
        FaithfulSpineIsGood(lay, n.args[0], PipeIndent(lay, n, ind), at.LeftOf(PipeOp));
        GoodPipe(lay, n, ind, at);
      } else if IsInfix(n) {
        InfixUnfolds(lay, n, ind);
        FaithfulIsGood(lay, n.args[0], ind, OperandSpot(n.fn.builtin.op, n.args[0], false, at));
        FaithfulIsGood(lay, n.args[1], ind, OperandSpot(n.fn.builtin.op, n.args[1], true, at));
        GoodInfix(lay, n, ind, at);
      } else if IsNamedInfix(n) {
        NamedUnfolds(lay, n, ind);
        FaithfulIsGood(lay, n.args[0], ind, at.LeftOf(NameOp(n.fn.name)));
        FaithfulIsGood(lay, n.args[1], RightIndent(lay, n, ind), at.RightOf(NameOp(n.fn.name)));
        GoodNamed(lay, n, ind, at);
      } else {
        ApplicationUnfolds(lay, n, ind);
        AllGood(lay, n.args, ArgIndent(lay, n, ind));
        GoodApplication(lay, n, ind, at);
      }
    } else if n.Chain? {
      FaithfulChainIsGood(lay, n, ind, at);
    }
  }

  lemma {:induction false} FaithfulChainIsGood(lay: Layout, n: Node, ind: nat, at: Spot)
    requires Plain(n) && n.Chain?
    ensures Good(Tree(lay, n, ind), n, at) <==> Faithful(n, at) && EmptyCallsFit(lay, n, ind)
    decreases n, 0
  {
    if |n.operands| == 2 {
      PairUnfolds(lay, n, ind);
      FaithfulIsGood(lay, n.operands[0], ind, at.LeftOf(Logic(n.op)));
      FaithfulIsGood(lay, n.operands[1], ChainIndent(lay, n, ind), at.RightOf(Logic(n.op)));
      GoodPair(lay, n, ind, at);
    } else {
      ChainMeans(lay, n, ind);
    }
  }

  lemma GoodPair(lay: Layout, n: Node, ind: nat, at: Spot)
    requires Plain(n) && n.Chain? && |n.operands| == 2 && Plain(n.operands[0]) && Plain(n.operands[1])
    requires var l, there := n.operands[0], at.LeftOf(Logic(n.op));
             Good(Tree(lay, l, ind), l, there) <==> Faithful(l, there) && EmptyCallsFit(lay, l, ind)
    requires var r, there, deeper := n.operands[1], at.RightOf(Logic(n.op)), ChainIndent(lay, n, ind);
             Good(Tree(lay, r, deeper), r, there) <==> Faithful(r, there) && EmptyCallsFit(lay, r, deeper)
    ensures Good(Tree(lay, n, ind), n, at) <==> Faithful(n, at) && EmptyCallsFit(lay, n, ind)
  {
    var l, r, deeper := n.operands[0], n.operands[1], ChainIndent(lay, n, ind);
    PairUnfolds(lay, n, ind);
    GoodSides(Logic(n.op), Tree(lay, l, ind), l, Tree(lay, r, deeper), r, at);
    LogicalShape(lay, n.op, l, ind, false);
    LogicalShape(lay, n.op, r, deeper, true);
    assert n.operands[1..] == [r];
  }

  lemma LogicalShape(lay: Layout, op: ChainOp, a: Node, ind: nat, isRight: bool)
    requires Plain(a)
    ensures var c := Tree(lay, a, ind);
            Ast(c) == a ==>
              ((if isRight then RightOk(Logic(op), c) else LeftOk(Logic(op), c)) <==> LogicalOk(a, isRight))
  {
    if Ast(Tree(lay, a, ind)) == a {
      MeaningKeeps(lay, a, ind);
      TreeShape(lay, a, ind);
    }
  }

  lemma GoodNegation(lay: Layout, n: Node, ind: nat, at: Spot)
    requires Plain(n) && IsNegation(n) && Plain(n.args[1])
    requires Good(Tree(lay, n.args[1], ind), n.args[1], at.BehindMinus()) <==>
             Faithful(n.args[1], at.BehindMinus()) && EmptyCallsFit(lay, n.args[1], ind)
    ensures Good(Tree(lay, n, ind), n, at) <==> Faithful(n, at) && EmptyCallsFit(lay, n, ind)
  {
    var x, below := n.args[1], at.BehindMinus();
    var c := Tree(lay, x, ind);
    NegationUnfolds(lay, n, ind);
    assert Negation(Ast(c)).args[1] == Ast(c);
    assert Good(NegC(c), n, at) <==>
           Good(c, x, below) && NegOperand(c) && (Start(c).Number? ==> at.behind) && !MakesArrow(Start(c));
    if Good(c, x, below) { OperandOfMinus(lay, x, ind, at.behind); }
  }

  lemma OperandOfMinus(lay: Layout, x: Node, ind: nat, behind: bool)
    requires Plain(x) && Ast(Tree(lay, x, ind)) == x
    ensures var c := Tree(lay, x, ind);
            NegOperand(c) && (Start(c).Number? ==> behind) && !MakesArrow(Start(c)) <==> MinusOk(x, behind)
  {
    if x.Chain? {
      ChainMeans(lay, x, ind);
      PairUnfolds(lay, x, ind);
    }
  }

  /** A pipe takes everything on its left. */
  lemma PipeTakes(c: Cst, l: Node, f: Node, at: Spot)
    requires f.Sym?
    ensures Good(InfixC(PipeOp, c, Var(f.name)), InfixNode(PipeOp, l, f), at) <==>
            Good(c, l, at.LeftOf(PipeOp)) && NameOk(f.name, at.RightOf(PipeOp))
  {
    if c.InfixC? { assert Prec(c.op) >= 2; }
    GoodSides(PipeOp, c, l, Var(f.name), f, at);
  }

  lemma GoodPipe(lay: Layout, n: Node, ind: nat, at: Spot)
    requires Plain(n) && IsPipe(n) && Plain(n.args[0])
    requires var x, deeper := n.args[0], PipeIndent(lay, n, ind);
             Good(TreeSpine(lay, x, deeper), x, at.LeftOf(PipeOp)) <==>
             FaithfulSpine(x, at.LeftOf(PipeOp)) && EmptyCallsFitSpine(lay, x, deeper)
    ensures Good(Tree(lay, n, ind), n, at) <==> Faithful(n, at) && EmptyCallsFit(lay, n, ind)
  {
    PipeUnfolds(lay, n, ind);
    PipeTakes(TreeSpine(lay, n.args[0], PipeIndent(lay, n, ind)), n.args[0], n.fn, at);
    assert n.args == [n.args[0]];
  }

  lemma {:induction false} FaithfulSpineIsGood(lay: Layout, n: Node, ind: nat, at: Spot)
    requires Plain(n)
    ensures Good(TreeSpine(lay, n, ind), n, at) <==> FaithfulSpine(n, at) && EmptyCallsFitSpine(lay, n, ind)
    decreases n, 2
  {
    if IsPipeCall(n) {
      assert n.args == [n.args[0]] && n == InfixNode(PipeOp, n.args[0], n.fn);
      FaithfulSpineIsGood(lay, n.args[0], ind, at.LeftOf(PipeOp));
      PipeTakes(TreeSpine(lay, n.args[0], ind), n.args[0], n.fn, at);
    } else {
      FaithfulIsGood(lay, n, ind, at);
    }
  }

  /** Which expressions are written with an operator between operands, and which operator. */
  lemma TreeShape(lay: Layout, a: Node, ind: nat)
    requires Plain(a) && Kept(a)
    ensures var c := Tree(lay, a, ind);
            && (c.InfixC? <==>
                a.Chain? || (a.Call? && !IsNegation(a) && (IsPipeCall(a) || IsInfix(a) || IsNamedCall(a))))
            && (c.InfixC? ==>
                c.op == if a.Chain? then Logic(a.op)
                        else if IsPipeCall(a) then PipeOp
                        else if IsInfix(a) then Arith(a.fn.builtin.op) else NameOp(a.fn.name))
  {
    if a.Chain? { PairUnfolds(lay, a, ind); }
  }

  /** What is written as a pipe or a chain, and read as one. */
  predicate Kept(a: Node) { (IsPipeCall(a) ==> IsPipe(a)) && (a.Chain? ==> |a.operands| == 2) }

  lemma MeaningKeeps(lay: Layout, a: Node, ind: nat)
    requires Plain(a) && Ast(Tree(lay, a, ind)) == a
    ensures Kept(a)
  {
    if a.Chain? { ChainMeans(lay, a, ind); }
  }

  lemma OperandShape(lay: Layout, op: BinOp, a: Node, isRight: bool, ind: nat)
    requires Plain(a) && Kept(a)
    ensures var c := TreeOperand(lay, op, a, isRight, ind);
            (if isRight then RightOk(Arith(op), c) else LeftOk(Arith(op), c)) <==> OperandOk(op, a, isRight)
  {
    TreeShape(lay, a, ind);
    TablesAgree();
  }

  /** The printer and the parser have a table each. */
  lemma TablesAgree()
    ensures forall op :: Precedence(op) == Prec(Arith(op))
  {
  }

  lemma GoodOperand(lay: Layout, op: BinOp, a: Node, isRight: bool, ind: nat, at: Spot)
    requires Plain(a)
    requires var inner := OperandSpot(op, a, isRight, at);
             Good(Tree(lay, a, ind), a, inner) <==> Faithful(a, inner) && EmptyCallsFit(lay, a, ind)
    ensures var inner := OperandSpot(op, a, isRight, at);
            var outer := if isRight then at.RightOf(Arith(op)) else at.LeftOf(Arith(op));
            var c := TreeOperand(lay, op, a, isRight, ind);
            Good(c, a, outer) && (if isRight then RightOk(Arith(op), c) else LeftOk(Arith(op), c)) <==>
            Faithful(a, inner) && EmptyCallsFit(lay, a, ind) && OperandOk(op, a, isRight)
  {
    BracketsAreGood(lay, op, a, isRight, ind, at);
    if Ast(Tree(lay, a, ind)) == a {
      MeaningKeeps(lay, a, ind);
      OperandShape(lay, op, a, isRight, ind);
    }
  }

  lemma BracketsAreGood(lay: Layout, op: BinOp, a: Node, isRight: bool, ind: nat, at: Spot)
    requires Plain(a)
    ensures Good(TreeOperand(lay, op, a, isRight, ind), a,
                 if isRight then at.RightOf(Arith(op)) else at.LeftOf(Arith(op))) <==>
            Good(Tree(lay, a, ind), a, OperandSpot(op, a, isRight, at))
  {
  }

  lemma GoodSides(o: InfixOp, c: Cst, l: Node, d: Cst, r: Node, at: Spot)
    ensures Good(InfixC(o, c, d), InfixNode(o, l, r), at) <==>
            && Good(c, l, at.LeftOf(o)) && LeftOk(o, c) && Good(d, r, at.RightOf(o)) && RightOk(o, d)
            && (o.NameOp? ==> IsOperatorName(o.name))
  {
    SameNode(o, Ast(c), l, Ast(d), r);
  }

  lemma GoodInfix(lay: Layout, n: Node, ind: nat, at: Spot)
    requires Plain(n) && IsInfix(n) && !IsNegation(n) && Plain(n.args[0]) && Plain(n.args[1])
    requires var l := n.args[0]; var inner := OperandSpot(n.fn.builtin.op, l, false, at);
             Good(Tree(lay, l, ind), l, inner) <==> Faithful(l, inner) && EmptyCallsFit(lay, l, ind)
    requires var r := n.args[1]; var inner := OperandSpot(n.fn.builtin.op, r, true, at);
             Good(Tree(lay, r, ind), r, inner) <==> Faithful(r, inner) && EmptyCallsFit(lay, r, ind)
    ensures Good(Tree(lay, n, ind), n, at) <==> Faithful(n, at) && EmptyCallsFit(lay, n, ind)
  {
    var op, l, r := n.fn.builtin.op, n.args[0], n.args[1];
    InfixUnfolds(lay, n, ind);
    GoodOperand(lay, op, l, false, ind, at);
    GoodOperand(lay, op, r, true, ind, at);
    GoodSides(Arith(op), TreeOperand(lay, op, l, false, ind), l, TreeOperand(lay, op, r, true, ind), r, at);
  }

  lemma GoodNamed(lay: Layout, n: Node, ind: nat, at: Spot)
    requires Plain(n) && !IsInfix(n) && !IsNegation(n) && IsNamedInfix(n) && n.fn.Sym?
    requires Plain(n.args[0]) && Plain(n.args[1])
    requires var l, there := n.args[0], at.LeftOf(NameOp(n.fn.name));
             Good(Tree(lay, l, ind), l, there) <==> Faithful(l, there) && EmptyCallsFit(lay, l, ind)
    requires var r, there, deeper := n.args[1], at.RightOf(NameOp(n.fn.name)), RightIndent(lay, n, ind);
             Good(Tree(lay, r, deeper), r, there) <==> Faithful(r, there) && EmptyCallsFit(lay, r, deeper)
    ensures Good(Tree(lay, n, ind), n, at) <==> Faithful(n, at) && EmptyCallsFit(lay, n, ind)
  {
    var l, r, deeper := n.args[0], n.args[1], RightIndent(lay, n, ind);
    NamedUnfolds(lay, n, ind);
    GoodSides(NameOp(n.fn.name), Tree(lay, l, ind), l, Tree(lay, r, deeper), r, at);
    NamedShape(lay, n.fn.name, l, ind, false);
    NamedShape(lay, n.fn.name, r, deeper, true);
  }

  lemma NamedShape(lay: Layout, f: string, a: Node, ind: nat, isRight: bool)
    requires Plain(a)
    ensures var c := Tree(lay, a, ind);
            Ast(c) == a ==>
              ((if isRight then RightOk(NameOp(f), c) else LeftOk(NameOp(f), c)) <==>
               !IsPipeCall(a) && !(isRight && IsNamedCall(a)))
  {
    if Ast(Tree(lay, a, ind)) == a {
      MeaningKeeps(lay, a, ind);
      TreeShape(lay, a, ind);
    }
  }

  /** An argument that is as it should be. */
  predicate Fine(c: Cst) { WF(c) && Clear(c, false) && Placed(c, true, Some(Close(Paren))) }

  lemma GoodApplication(lay: Layout, n: Node, ind: nat, at: Spot)
    requires Plain(n) && IsApplication(n) && forall a :: a in n.args ==> Plain(a)
    requires var cs := TreeAll(lay, n.args, ArgIndent(lay, n, ind));
             (forall c :: c in cs ==> Fine(c)) && Asts(cs) == n.args <==>
             forall a :: a in n.args ==> Faithful(a, INSIDE) && EmptyCallsFit(lay, a, ArgIndent(lay, n, ind))
    ensures Good(Tree(lay, n, ind), n, at) <==> Faithful(n, at) && EmptyCallsFit(lay, n, ind)
  {
    ApplicationUnfolds(lay, n, ind);
  }

  lemma {:induction false} AllGood(lay: Layout, ns: seq<Node>, ind: nat)
    requires forall a :: a in ns ==> Plain(a)
    ensures var cs := TreeAll(lay, ns, ind);
            (forall c :: c in cs ==> Fine(c)) && Asts(cs) == ns <==>
            forall a :: a in ns ==> Faithful(a, INSIDE) && EmptyCallsFit(lay, a, ind)
    decreases ns, 0
  {
    if ns != [] {
      FaithfulIsGood(lay, ns[0], ind, INSIDE);
      AllGood(lay, ns[1..], ind);
      var cs := TreeAll(lay, ns, ind);
      assert ns == [ns[0]] + ns[1..] && cs[1..] == TreeAll(lay, ns[1..], ind);
      GoodFirst(cs, ns);
    }
  }

  lemma GoodFirst(cs: seq<Cst>, ns: seq<Node>)
    requires cs != [] && ns != []
    ensures (forall c :: c in cs ==> Fine(c)) && Asts(cs) == ns <==>
            Good(cs[0], ns[0], INSIDE) && (forall c :: c in cs[1..] ==> Fine(c)) && Asts(cs[1..]) == ns[1..]
  {
    FirstMeans(cs, ns);
    FirstAndOthers(cs, c => Fine(c));
  }

  lemma FirstAndOthers<T>(s: seq<T>, p: T -> bool)
    requires s != []
    ensures (forall x :: x in s ==> p(x)) <==> p(s[0]) && forall x :: x in s[1..] ==> p(x)
  {
    assert s == [s[0]] + s[1..];
  }

  lemma FirstMeans(cs: seq<Cst>, ns: seq<Node>)
    requires cs != [] && ns != []
    ensures Asts(cs) == ns <==> Ast(cs[0]) == ns[0] && Asts(cs[1..]) == ns[1..]
  {
    AstsCons(cs);
    assert ns == [ns[0]] + ns[1..] && Asts(cs) == [Asts(cs)[0]] + Asts(cs)[1..];
  }

  // The round trip.

  lemma PrintedIsRead(lay: Layout, n: Node, ind: nat, root: bool)
    requires Plain(n)
    ensures Tokens(Print(lay, n, ind, root)) == Read(Tree(lay, n, ind))
  {
    PrintsTree(lay, n, ind, root, Nil);
  }

  /** The printed text of an operator expression, as it is written, under any layout, at any indent: it parses back to
      the expression exactly when that is faithful, and no call without arguments is broken over lines. */
  lemma PrintedParsesBack(lay: Layout, n: Node, ind: nat, root: bool)
    requires Plain(n)
    ensures ParseAll(Tokens(Print(lay, n, ind, root))) == Some(n) <==> Faithful(n, ALONE) && EmptyCallsFit(lay, n, ind)
  {
    var c := Tree(lay, n, ind);
    PrintedIsRead(lay, n, ind, root);
    FaithfulIsGood(lay, n, ind, ALONE);
    TreeMeans(lay, n, ind);
    if ParseAll(Read(c)) == Some(n) { ReadIsClear(c, n); }
    if Ast(c) == n { TextReadsBack(c); }
  }

  // What the others are read as.

  function Binary(op: BinOp, l: Node, r: Node): Node { InfixNode(Arith(op), l, r) }
  function Named(f: string, l: Node, r: Node): Node { InfixNode(NameOp(f), l, r) }

  /** A name that is never a word. */
  predicate IsOrdinary(name: string) { IsUserName(name) && !IsOpener(name) && name != "resume" && name != "type" }

  /** An expression is read as whatever well-formed tree has the tokens of its text. */
  lemma ReadAs(lay: Layout, n: Node, ind: nat, root: bool, c: Cst)
    requires Plain(n) && WF(c) && Placed(c, true, None) && Toks(c, Nil) == Read(Tree(lay, n, ind))
    ensures ParseAll(Tokens(Print(lay, n, ind, root))) == Some(Ast(c))
  {
    PrintedIsRead(lay, n, ind, root);
    Complete(c, Nil, 0);
  }

  /** `(a ^ b) ^ c` is printed without the brackets it needs, and read as `a ^ (b ^ c)`. */
  lemma PowerOnTheLeft(lay: Layout, ind: nat, root: bool, a: string, b: string, c: string)
    requires IsOrdinary(a) && IsOrdinary(b) && IsOrdinary(c)
    ensures var n := Binary(Pow, Binary(Pow, Sym(a), Sym(b)), Sym(c));
            ParseAll(Tokens(Print(lay, n, ind, root))) == Some(Binary(Pow, Sym(a), Binary(Pow, Sym(b), Sym(c))))
  {
    var n := Binary(Pow, Binary(Pow, Sym(a), Sym(b)), Sym(c));
    PowerTree(lay, ind, a, b, c);
    LexClear(Tree(lay, n, ind), false, Nil);
    TwoNames(Pow, b, c);
    ReadAs(lay, n, ind, root, InfixC(Arith(Pow), Var(a), InfixC(Arith(Pow), Var(b), Var(c))));
  }

  lemma PowerTree(lay: Layout, ind: nat, a: string, b: string, c: string)
    requires IsUserName(a) && IsUserName(b) && IsUserName(c)
    ensures var n := Binary(Pow, Binary(Pow, Sym(a), Sym(b)), Sym(c));
            Plain(n) &&
            Tree(lay, n, ind) == InfixC(Arith(Pow), InfixC(Arith(Pow), Var(a), Var(b)), Var(c))
  {
    var inner := Binary(Pow, Sym(a), Sym(b));
    PlainPair(Pow, Sym(a), Sym(b));
    PlainPair(Pow, inner, Sym(c));
    InfixUnfolds(lay, inner, ind);
    InfixUnfolds(lay, Binary(Pow, inner, Sym(c)), ind);
  }

  lemma TwoNames(op: BinOp, a: string, b: string)
    requires IsOrdinary(a) && IsOrdinary(b)
    ensures var c := InfixC(Arith(op), Var(a), Var(b));
            Ast(c) == Binary(op, Sym(a), Sym(b)) && WF(c) && Placed(c, true, None)
  {
    assert WF(Var(a)) && Placed(Var(a), true, Some(Op(Bin(op)))) && Placed(Var(b), true, None);
  }

  lemma PlainPair(op: BinOp, l: Node, r: Node)
    requires Plain(l) && Plain(r)
    ensures Plain(Binary(op, l, r))
  {
  }

  /** `0 - a * b` is printed `-a * b`, and read as `(0 - a) * b`. */
  lemma MinusBeforeProduct(lay: Layout, ind: nat, root: bool, a: string, b: string)
    requires IsUserName(a) && IsOrdinary(b)
    ensures ParseAll(Tokens(Print(lay, Negation(Binary(Mul, Sym(a), Sym(b))), ind, root))) ==
            Some(Binary(Mul, Negation(Sym(a)), Sym(b)))
  {
    var c, d := InfixC(Arith(Mul), Var(a), Var(b)), InfixC(Arith(Mul), NegC(Var(a)), Var(b));
    ProductTree(lay, ind, a, b);
    assert Clear(c.left, false) && Clear(c.right, false) && Start(c.left) == Ident(a);
    LexClear(NegC(c), false, Nil);
    assert Ast(NegC(Var(a))) == Negation(Sym(a)) && WF(d.left) && Placed(d.left, true, Some(Op(Bin(Mul))));
    ReadAs(lay, Negation(Binary(Mul, Sym(a), Sym(b))), ind, root, d);
  }

  lemma ProductTree(lay: Layout, ind: nat, a: string, b: string)
    requires IsUserName(a) && IsUserName(b)
    ensures var n := Negation(Binary(Mul, Sym(a), Sym(b)));
            Plain(n) && Tree(lay, n, ind) == NegC(InfixC(Arith(Mul), Var(a), Var(b)))
  {
    var product := Binary(Mul, Sym(a), Sym(b));
    PlainPair(Mul, Sym(a), Sym(b));
    PlainPair(Sub, Num(0), product);
    InfixUnfolds(lay, product, ind);
    NegationUnfolds(lay, Negation(product), ind);
  }

  /** `0 - 5` is printed `-5`, and read as the number. */
  lemma MinusBeforeNumber(lay: Layout, ind: nat, root: bool, v: int)
    requires v >= 0
    ensures ParseAll(Tokens(Print(lay, Negation(Num(v)), ind, root))) == Some(Num(-v))
  {
    NegationUnfolds(lay, Negation(Num(v)), ind);
    assert Text(NegC(Lit(v)), Nil) == Cons(Dash, Cons(Number(v), Nil));
    assert Read(NegC(Lit(v))) == LexDash(false, Cons(Number(v), Nil)) == Cons(Number(-v), Nil);
    ReadAs(lay, Negation(Num(v)), ind, root, Lit(-v));
  }

  /** `(a f b) * c` is printed without its brackets, and read as `a f (b * c)`. */
  lemma NamedInfixInProduct(lay: Layout, ind: nat, root: bool, a: string, f: string, b: string, c: string)
    requires IsOrdinary(a) && IsOrdinary(b) && IsOrdinary(c) && IsUserName(f) && IsOperatorName(f)
    ensures ParseAll(Tokens(Print(lay, Binary(Mul, Named(f, Sym(a), Sym(b)), Sym(c)), ind, root))) ==
            Some(Named(f, Sym(a), Binary(Mul, Sym(b), Sym(c))))
  {
    var n := Binary(Mul, Named(f, Sym(a), Sym(b)), Sym(c));
    NamedTree(lay, ind, a, f, b, c);
    LexClear(Tree(lay, n, ind), false, Nil);
    TwoNames(Mul, b, c);
    ReadAs(lay, n, ind, root, InfixC(NameOp(f), Var(a), InfixC(Arith(Mul), Var(b), Var(c))));
  }

  lemma NamedTree(lay: Layout, ind: nat, a: string, f: string, b: string, c: string)
    requires IsUserName(a) && IsUserName(b) && IsUserName(c) && IsUserName(f)
    ensures var n := Binary(Mul, Named(f, Sym(a), Sym(b)), Sym(c));
            Plain(n) &&
            Tree(lay, n, ind) == InfixC(Arith(Mul), InfixC(NameOp(f), Var(a), Var(b)), Var(c))
  {
    var inner := Named(f, Sym(a), Sym(b));
    PlainNamed(f, Sym(a), Sym(b));
    PlainPair(Mul, inner, Sym(c));
    NamedUnfolds(lay, inner, ind);
    InfixUnfolds(lay, Binary(Mul, inner, Sym(c)), ind);
  }

  lemma PlainNamed(f: string, l: Node, r: Node)
    requires IsUserName(f) && Plain(l) && Plain(r)
    ensures Plain(Named(f, l, r))
  {
  }

  /** Behind the name of an infix function a number has no sign: `a f -5` is read as `a f (0 - 5)`. */
  lemma SignBehindName(lay: Layout, ind: nat, root: bool, a: string, f: string, v: int)
    requires v < 0 && IsOrdinary(a) && IsUserName(f) && IsOperatorName(f)
    ensures ParseAll(Tokens(Print(lay, Named(f, Sym(a), Num(v)), ind, root))) ==
            Some(Named(f, Sym(a), Negation(Num(-v))))
  {
    SignTree(lay, ind, a, f, v);
    SignIsSplit(a, f, v);
    MinusNumber(a, f, -v);
    ReadAs(lay, Named(f, Sym(a), Num(v)), ind, root, InfixC(NameOp(f), Var(a), NegC(Lit(-v))));
  }

  lemma SignTree(lay: Layout, ind: nat, a: string, f: string, v: int)
    requires IsUserName(a) && IsUserName(f)
    ensures var n := Named(f, Sym(a), Num(v)); Plain(n) && Tree(lay, n, ind) == InfixC(NameOp(f), Var(a), Lit(v))
  {
    PlainNamed(f, Sym(a), Num(v));
    NamedUnfolds(lay, Named(f, Sym(a), Num(v)), ind);
  }

  lemma MinusNumber(a: string, f: string, v: nat)
    requires IsOrdinary(a) && IsOperatorName(f)
    ensures var c := InfixC(NameOp(f), Var(a), NegC(Lit(v)));
            WF(c) && Placed(c, true, None) && Ast(c) == Named(f, Sym(a), Negation(Num(v)))
  {
    assert Ast(Lit(v)) == Num(v) && WF(Lit(v)) && Placed(Lit(v), false, None);
  }

  lemma SignIsSplit(a: string, f: string, v: int)
    requires v < 0
    ensures Read(InfixC(NameOp(f), Var(a), Lit(v))) == Toks(InfixC(NameOp(f), Var(a), NegC(Lit(-v))), Nil)
  {
    var minus := Cons(Dash, Cons(Number(-v), Nil));
    assert Text(InfixC(NameOp(f), Var(a), Lit(v)), Nil) == Cons(Ident(a), Cons(Ident(f), minus));
    assert Lex(true, minus) == LexDash(true, Cons(Number(-v), Nil)) == Toks(NegC(Lit(-v)), Nil);
    assert Lex(true, Cons(Ident(f), minus)) == Cons(Ident(f), Lex(true, minus));
  }

  // Words.

  lemma WordsAreNames()
    ensures IsUserName("resume") && IsUserName("type")
  {
  }

  /** `(resume) + 1` is printed `resume + 1`, where `resume` is the function that resumes, and no longer a name. */
  lemma ResumeBeforeOperator(lay: Layout, ind: nat, root: bool, op: BinOp, v: nat)
    ensures ParseAll(Tokens(Print(lay, Binary(op, Sym("resume"), Num(v)), ind, root))) ==
            Some(Binary(op, Resume(None), Num(v)))
  {
    var n := Binary(op, Sym("resume"), Num(v));
    WordsAreNames();
    PlainPair(op, Sym("resume"), Num(v));
    InfixUnfolds(lay, n, ind);
    PrintedIsRead(lay, n, ind, root);
    LexClear(InfixC(Arith(op), Var("resume"), Lit(v)), false, Nil);
    ResumeParses(op, v);
  }

  lemma ResumeParses(op: BinOp, v: nat)
    ensures ParseAll(Toks(InfixC(Arith(op), Var("resume"), Lit(v)), Nil)) == Some(Binary(op, Resume(None), Num(v)))
  {
    var rest := Cons(Op(Bin(op)), Cons(Number(v), Nil));
    Complete(Lit(v), Nil, Prec(Arith(op)));
    assert ParseExpr(rest.tail, Prec(Arith(op))) == Some((Num(v), Nil));
    assert ParseLoop(Resume(None), rest, 0) == Some((Binary(op, Resume(None), Num(v)), Nil));
    assert ParseExpr(Cons(Ident("resume"), rest), 0) == ParseLoop(Resume(None), rest, 0);
  }

  /** As an argument it is still a name. */
  lemma ResumeAsArgument(lay: Layout, ind: nat, root: bool, f: string)
    requires IsOrdinary(f)
    ensures var n := Call(Sym(f), [Sym("resume")], PLAIN); ParseAll(Tokens(Print(lay, n, ind, root))) == Some(n)
  {
    WordsAreNames();
    var n := Call(Sym(f), [Sym("resume")], PLAIN);
    assert Plain(n) && IsApplication(n) && Faithful(n, ALONE) && EmptyCallsFit(lay, n, ind);
    PrintedParsesBack(lay, n, ind, root);
  }

  /** `(type) Foo x` is printed `type Foo x`, which starts a declaration. */
  lemma TypeBeforeName(lay: Layout, ind: nat, root: bool, f: string, x: string)
    requires IsUserName(f) && IsUserName(x) && IsCapitalized(f)
    ensures ParseAll(Tokens(Print(lay, Named(f, Sym("type"), Sym(x)), ind, root))) == None
  {
    var n := Named(f, Sym("type"), Sym(x));
    WordsAreNames();
    PlainNamed(f, Sym("type"), Sym(x));
    NamedUnfolds(lay, n, ind);
    PrintedIsRead(lay, n, ind, root);
    LexClear(InfixC(NameOp(f), Var("type"), Var(x)), false, Nil);
    TypeParses(f, x);
  }

  lemma TypeParses(f: string, x: string)
    requires IsCapitalized(f)
    ensures ParseAll(Toks(InfixC(NameOp(f), Var("type"), Var(x)), Nil)) == None
  {
    var ts := Cons(Ident("type"), Cons(Ident(f), Cons(Ident(x), Nil)));
    assert StartsWord(ts) && ParseExpr(ts, 0) == None;
  }

  /** A call without arguments comes back exactly if it fits on its line and its name is no word; broken, it has a comma
      between its brackets and cannot be read at all. */
  lemma EmptyCall(lay: Layout, ind: nat, root: bool, f: string)
    requires IsUserName(f)
    ensures var n := Call(Sym(f), [], PLAIN);
            ParseAll(Tokens(Print(lay, n, ind, root))) ==
            if !(lay.oneLine(Tok(Ident(f))) && lay.oneLine(Empty) &&
                 lay.fits(Tok(Ident(f)).Then(LPAREN).Then(Empty).Then(RPAREN), ind))
            then None
            else if f == "resume" then Some(Resume(Some(NULL)))
            else if IsOpener(f) then None else Some(n)
  {
    var n := Call(Sym(f), [], PLAIN);
    assert Plain(n) && IsApplication(n);
    ApplicationUnfolds(lay, n, ind);
    EmptyCallPrints(lay, ind, f);
    PrintedIsRead(lay, n, ind, root);
    var c := AppC(NameCallee(f), [], Broken(lay, n, ind));
    assert Tree(lay, n, ind) == c;
    LexClear(c, false, Nil);
    assert Read(c) == Cons(Ident(f), Cons(Open(Paren), Inside([], Broken(lay, n, ind), Nil)));
    EmptyCallParses(f);
    CommaIsNoArgument(f);
  }

  lemma EmptyCallPrints(lay: Layout, ind: nat, f: string)
    ensures var n := Call(Sym(f), [], PLAIN);
            Broken(lay, n, ind) <==>
            !(lay.oneLine(Tok(Ident(f))) && lay.oneLine(Empty) &&
              lay.fits(Tok(Ident(f)).Then(LPAREN).Then(Empty).Then(RPAREN), ind))
  {
    assert PrintSep(lay, [], ind, false, Empty, COMMA_SP) == Empty;
    assert PrintCallee(lay, Sym(f), ind) == Tok(Ident(f));
  }

  lemma EmptyCallParses(f: string)
    ensures ParseAll(Cons(Ident(f), Cons(Open(Paren), Cons(Close(Paren), Nil)))) ==
            if f == "resume" then Some(Resume(Some(NULL)))
            else if IsOpener(f) then None else Some(Call(Sym(f), [], PLAIN))
  {
    var bracket := Cons(Close(Paren), Nil);
    var ts := Cons(Ident(f), Cons(Open(Paren), bracket));
    if f == "resume" {
      assert ParseWord(ts) == ParseResume(bracket) == Some((Resume(Some(NULL)), Nil));
      assert ParseExpr(ts, 0) == ParseLoop(Resume(Some(NULL)), Nil, 0);
    } else if !IsOpener(f) {
      Complete(AppC(NameCallee(f), [], false), Nil, 0);
    }
  }

  lemma {:induction false} CommaIsNoArgument(name: string)
    ensures ParseAll(Cons(Ident(name), Cons(Open(Paren), Cons(Comma, Cons(Close(Paren), Nil))))) == None
  {
    var bracket := Cons(Comma, Cons(Close(Paren), Nil));
    var open := Cons(Open(Paren), bracket);
    assert ParseExpr(bracket, 0) == None by { assert ParseOperand(bracket) == None; }
    assert ParseCalls(Sym(name), open) == None by { assert ParseArgs(bracket) == None; }
    assert ParseOperand(Cons(Ident(name), open)) == None;
    assert ParseResume(bracket) == None;
  }
}
