/** The concrete syntax tree that the printer writes for an operator expression, layout by layout. */
module PrintedTrees {
  import opened Syntax
  import opened Docs
  import opened Names
  import opened Grammar
  import opened ParserProofs
  import opened Reading
  import opened Signs
  import opened Printer

  // The tree that the printer writes down. The layout decides about the commas in it, and nothing else.

  /** Where the steps of a pipe are printed. */
  function PipeIndent(lay: Layout, n: Node, ind: nat): nat {
    var flat := PrintSpine(lay, n, PipeChain(n), ind, SP.Add(Op(PipeSign)).Then(SP));
    if lay.oneLine(flat) && lay.fits(flat, ind) then ind else ind + 1
  }

  /** Where the right operand of a named infix is printed. */
  function RightIndent(lay: Layout, n: Node, ind: nat): nat
    requires IsNamedInfix(n)
  {
    if lay.oneLine(Print(lay, n.args[1], ind, false)) then ind else ind + 1
  }

  /** An argument list is printed with one argument a line. */
  predicate Broken(lay: Layout, n: Node, ind: nat)
    requires n.Call?
  {
    var fn := PrintCallee(lay, n.fn, ind);
    var here := PrintSep(lay, n.args, ind, false, Empty, COMMA_SP);
    !(lay.oneLine(fn) && lay.oneLine(here) && lay.fits(fn.Then(LPAREN).Then(here).Then(RPAREN), ind))
  }

  function ArgIndent(lay: Layout, n: Node, ind: nat): nat
    requires n.Call?
  {
    if Broken(lay, n, ind) then ind + 1 else ind
  }

  /** Where the operands of a chain but the first are printed. */
  function ChainIndent(lay: Layout, n: Node, ind: nat): nat
    requires n.Chain?
  {
    var flat := PrintSep(lay, n.operands, ind, false, Empty, SP.Add(Op(ChainSign(n.op))).Then(SP));
    if lay.oneLine(flat) && lay.fits(flat, ind) then ind else ind + 1
  }

  function Tree(lay: Layout, n: Node, ind: nat): Cst
    requires Plain(n)
    decreases n, 1
  {
    match n
    case Num(v) => Lit(v)
    case Sym(name) => Var(name)
    case Call(_, _, _) => TreeCall(lay, n, ind)
    case Chain(op, operands) =>
      TreeChain(lay, op, Tree(lay, operands[0], ind), operands[1..], ChainIndent(lay, n, ind))
    case _ => HoleC
  }

  /** What is read as one operator after the other, each with all that stands on its left. */
  function TreeChain(lay: Layout, op: ChainOp, left: Cst, ns: seq<Node>, ind: nat): Cst
    requires forall a :: a in ns ==> Plain(a)
    decreases ns, 0
  {
    if ns == [] then left
    else TreeChain(lay, op, InfixC(Logic(op), left, Tree(lay, ns[0], ind)), ns[1..], ind)
  }

  function TreeCall(lay: Layout, n: Node, ind: nat): Cst
    requires Plain(n) && n.Call?
    decreases n, 0
  {
    assert forall a :: a in n.args ==> Plain(a);
    if IsNegation(n) then NegC(Tree(lay, n.args[1], ind))
    else if IsPipe(n) then InfixC(PipeOp, TreeSpine(lay, n.args[0], PipeIndent(lay, n, ind)), Var(n.fn.name))
    else if IsInfix(n) then
      var op := n.fn.builtin.op;
      InfixC(Arith(op), TreeOperand(lay, op, n.args[0], false, ind), TreeOperand(lay, op, n.args[1], true, ind))
    else if IsNamedInfix(n) then
      InfixC(NameOp(n.fn.name), Tree(lay, n.args[0], ind), Tree(lay, n.args[1], RightIndent(lay, n, ind)))
    else AppC(CalleeOf(n.fn), TreeAll(lay, n.args, ArgIndent(lay, n, ind)), Broken(lay, n, ind))
  }

  function CalleeOf(fn: Node): Callee
    requires fn.Sym? || (fn.Builtin? && fn.builtin.Infix?)
  {
    if fn.Sym? then NameCallee(fn.name) else OpCallee(fn.builtin.op)
  }

  function TreeOperand(lay: Layout, op: BinOp, a: Node, isRight: bool, ind: nat): Cst
    requires Plain(a)
    decreases a, 2
  {
    if NeedsParens(op, a, isRight) then ParenC(Tree(lay, a, ind)) else Tree(lay, a, ind)
  }

  /** Below a pipe, further pipes extend the same chain, even a single one. */
  function TreeSpine(lay: Layout, n: Node, ind: nat): Cst
    requires Plain(n)
    decreases n, 2
  {
    if IsPipeCall(n) then InfixC(PipeOp, TreeSpine(lay, n.args[0], ind), Var(n.fn.name)) else Tree(lay, n, ind)
  }

  function TreeAll(lay: Layout, ns: seq<Node>, ind: nat): (r: seq<Cst>)
    requires forall a :: a in ns ==> Plain(a)
    ensures |r| == |ns|
    decreases ns, 0
  {
    if ns == [] then [] else [Tree(lay, ns[0], ind)] + TreeAll(lay, ns[1..], ind)
  }

  predicate IsPipeCall(n: Node) { n.Call? && n.hints.isPipe }
  predicate IsNamedCall(n: Node) { n.Call? && n.hints.isInfix }

  // The definitions above, for each kind of call.

  lemma NegationUnfolds(lay: Layout, n: Node, ind: nat)
    requires Plain(n) && IsNegation(n)
    ensures Plain(n.args[1]) && n == Negation(n.args[1]) && Tree(lay, n, ind) == NegC(Tree(lay, n.args[1], ind))
  {
    assert n.args == [n.args[0], n.args[1]];
  }

  lemma PipeUnfolds(lay: Layout, n: Node, ind: nat)
    requires Plain(n) && IsPipe(n)
    ensures Plain(n.args[0]) && n.fn.Sym? && n == InfixNode(PipeOp, n.args[0], n.fn)
    ensures Tree(lay, n, ind) == InfixC(PipeOp, TreeSpine(lay, n.args[0], PipeIndent(lay, n, ind)), Var(n.fn.name))
  {
    assert n.args == [n.args[0]];
  }

  lemma InfixUnfolds(lay: Layout, n: Node, ind: nat)
    requires Plain(n) && IsInfix(n) && !IsNegation(n)
    ensures var op, l, r := n.fn.builtin.op, n.args[0], n.args[1];
            && Plain(l) && Plain(r) && n == InfixNode(Arith(op), l, r)
            && Tree(lay, n, ind) ==
               InfixC(Arith(op), TreeOperand(lay, op, l, false, ind), TreeOperand(lay, op, r, true, ind))
  {
    assert n.args == [n.args[0], n.args[1]];
  }

  lemma NamedUnfolds(lay: Layout, n: Node, ind: nat)
    requires Plain(n) && IsNamedInfix(n)
    ensures var l, r := n.args[0], n.args[1];
            && Plain(l) && Plain(r) && n.fn.Sym? && n == InfixNode(NameOp(n.fn.name), l, r)
            && Tree(lay, n, ind) == InfixC(NameOp(n.fn.name), Tree(lay, l, ind), Tree(lay, r, RightIndent(lay, n, ind)))
  {
    assert n.args == [n.args[0], n.args[1]];
  }

  predicate IsApplication(n: Node) {
    n.Call? && !IsNegation(n) && !IsPipe(n) && !IsInfix(n) && !IsNamedInfix(n)
  }

  lemma ApplicationUnfolds(lay: Layout, n: Node, ind: nat)
    requires Plain(n) && IsApplication(n)
    ensures (n.fn.Sym? || (n.fn.Builtin? && n.fn.builtin.Infix?)) && n.fn == CalleeNode(CalleeOf(n.fn))
    ensures forall a :: a in n.args ==> Plain(a)
    ensures Tree(lay, n, ind) ==
            AppC(CalleeOf(n.fn), TreeAll(lay, n.args, ArgIndent(lay, n, ind)), Broken(lay, n, ind))
  {
  }

  // The printed text is the text of that tree.

  lemma {:induction false} PrintsTree(lay: Layout, n: Node, ind: nat, root: bool, rest: List<Tok>)
    requires Plain(n)
    ensures Write(Print(lay, n, ind, root), rest) == Text(Tree(lay, n, ind), rest)
    decreases n, 2
  {
    if n.Call? {
      if IsNegation(n) {
        PrintsNegation(lay, n, ind, rest);
      } else if IsPipe(n) {
        PrintsPipe(lay, n, ind, rest);
      } else if IsInfix(n) {
        PrintsInfix(lay, n, ind, rest);
      } else if IsNamedInfix(n) {
        PrintsNamed(lay, n, ind, rest);
      } else {
        PrintsApplication(lay, n, ind, rest);
      }
    } else if n.Chain? {
      PrintsChain(lay, n, ind, rest);
    } else {
      WriteRules();
    }
  }

  lemma {:induction false} PrintsChain(lay: Layout, n: Node, ind: nat, rest: List<Tok>)
    requires Plain(n) && n.Chain?
    ensures Write(PrintChain(lay, n, ind), rest) == Text(Tree(lay, n, ind), rest)
    decreases n, 1
  {
    var first, others := n.operands[0], n.operands[1..];
    var flat, broken := SP.Add(Op(ChainSign(n.op))).Then(SP), NewLine(ind + 1).Add(Op(ChainSign(n.op))).Then(SP);
    WriteRules();
    var at, sep := ChainIndent(lay, n, ind), if ChainIndent(lay, n, ind) == ind then flat else broken;
    if others == [] {
      PrintsTree(lay, first, ind, false, rest);
    } else {
      var behind := Cons(OpTok(Logic(n.op)), Write(PrintSep(lay, others, at, false, Empty, sep), rest));
      PrintsTree(lay, first, ind, false, behind);
      PrintsOthers(lay, n.op, Tree(lay, first, ind), others, at, sep, rest);
    }
  }

  lemma {:induction false} PrintsOthers(lay: Layout, op: ChainOp, left: Cst, ns: seq<Node>, ind: nat, sep: Doc,
                                        rest: List<Tok>)
    requires ns != [] && (forall a :: a in ns ==> Plain(a)) && WritesAs(sep, OpTok(Logic(op)))
    ensures Text(TreeChain(lay, op, left, ns, ind), rest) ==
            Text(left, Cons(OpTok(Logic(op)), Write(PrintSep(lay, ns, ind, false, Empty, sep), rest)))
    decreases ns, 0
  {
    WriteRules();
    if |ns| == 1 {
      PrintsTree(lay, ns[0], ind, false, rest);
      assert ns[1..] == [];
    } else {
      var behind := Cons(OpTok(Logic(op)), Write(PrintSep(lay, ns[1..], ind, false, Empty, sep), rest));
      PrintsTree(lay, ns[0], ind, false, behind);
      PrintsOthers(lay, op, InfixC(Logic(op), left, Tree(lay, ns[0], ind)), ns[1..], ind, sep, rest);
    }
  }

  lemma {:induction false} PrintsNegation(lay: Layout, n: Node, ind: nat, rest: List<Tok>)
    requires Plain(n) && IsNegation(n)
    ensures Write(PrintCall(lay, n, ind), rest) == Text(Tree(lay, n, ind), rest)
    decreases n, 1
  {
    NegationUnfolds(lay, n, ind);
    PrintsTree(lay, n.args[1], ind, false, rest);
  }

  /** Separators that are written as `t`. */
  ghost predicate WritesAs(sep: Doc, t: Tok) { forall rest :: Write(sep, rest) == Cons(t, rest) }

  lemma {:induction false} PrintsPipe(lay: Layout, n: Node, ind: nat, rest: List<Tok>)
    requires Plain(n) && IsPipe(n)
    ensures Write(PrintCall(lay, n, ind), rest) == Text(Tree(lay, n, ind), rest)
    decreases n, 1
  {
    PipeUnfolds(lay, n, ind);
    WriteRules();
    var flat := SP.Add(Op(PipeSign)).Then(SP);
    var broken := NewLine(ind + 1).Add(Op(PipeSign)).Then(SP);
    assert WritesAs(flat, Op(PipeSign)) && WritesAs(broken, Op(PipeSign));
    assert PipeChain(n) == PipeSpine(n.args[0]) + [n.fn];
    PrintsStep(lay, n, n, ind, flat, rest);
    PrintsStep(lay, n, n, ind + 1, broken, rest);
  }

  /** One step of the chain of `n`, with the steps below it. */
  lemma {:induction false} PrintsStep(lay: Layout, n: Node, x: Node, ind: nat, sep: Doc, rest: List<Tok>)
    requires Plain(x) && IsPipeCall(x) && (x == n || x < n) && WritesAs(sep, Op(PipeSign))
    ensures forall y :: y in PipeSpine(x.args[0]) + [x.fn] ==> y < n
    ensures Write(PrintSpine(lay, n, PipeSpine(x.args[0]) + [x.fn], ind, sep), rest) ==
            Text(InfixC(PipeOp, TreeSpine(lay, x.args[0], ind), Var(x.fn.name)), rest)
    decreases x, 0
  {
    var y := x.args[0];
    assert y in x.args;
    PrintsSpine(lay, n, y, ind, sep, Cons(Op(PipeSign), Cons(Ident(x.fn.name), rest)));
    PrintSpineLast(lay, n, PipeSpine(y), x.fn, ind, sep, rest);
  }

  lemma {:induction false} PrintsSpine(lay: Layout, n: Node, x: Node, ind: nat, sep: Doc, rest: List<Tok>)
    requires Plain(x) && x < n && WritesAs(sep, Op(PipeSign))
    ensures forall y :: y in PipeSpine(x) ==> y < n
    ensures Write(PrintSpine(lay, n, PipeSpine(x), ind, sep), rest) == Text(TreeSpine(lay, x, ind), rest)
    decreases x, 3
  {
    if IsPipeCall(x) { PrintsStep(lay, n, x, ind, sep, rest); } else { PrintsTree(lay, x, ind, false, rest); }
  }

  lemma {:induction false} PrintSpineLast(lay: Layout, n: Node, chain: seq<Node>, f: Node, ind: nat, sep: Doc,
                                          rest: List<Tok>)
    requires chain != [] && f.Sym? && f < n && (forall x :: x in chain ==> x < n) && WritesAs(sep, Op(PipeSign))
    ensures Write(PrintSpine(lay, n, chain + [f], ind, sep), rest) ==
            Write(PrintSpine(lay, n, chain, ind, sep), Cons(Op(PipeSign), Cons(Ident(f.name), rest)))
    decreases |chain|
  {
    var all := chain + [f];
    if |chain| == 1 {
      assert chain[0] in chain;
      PrintSpinePair(lay, n, chain[0], f, ind, sep, rest);
      assert all == [chain[0], f] && chain == [chain[0]];
    } else {
      WriteRules();
      assert all[1..] == chain[1..] + [f];
      assert forall x :: x in chain[1..] ==> x in chain;
      PrintSpineLast(lay, n, chain[1..], f, ind, sep, rest);
    }
  }

  lemma WriteTwo(d: Doc, sep: Doc, t: Tok, rest: List<Tok>)
    ensures Write(d.Then(sep).Then(Tok(t)), rest) == Write(d, Write(sep, Cons(t, rest)))
  {
  }

  lemma PrintSpinePair(lay: Layout, n: Node, x: Node, f: Node, ind: nat, sep: Doc, rest: List<Tok>)
    requires f.Sym? && f < n && x < n && WritesAs(sep, Op(PipeSign))
    ensures Write(PrintSpine(lay, n, [x, f], ind, sep), rest) ==
            Write(PrintSpine(lay, n, [x], ind, sep), Cons(Op(PipeSign), Cons(Ident(f.name), rest)))
  {
    assert [x, f][1..] == [f];
    var d := Print(lay, x, ind, false);
    assert PrintSpine(lay, n, [f], ind, sep) == Print(lay, f, ind, false) == Tok(Ident(f.name));
    assert PrintSpine(lay, n, [x, f], ind, sep) == d.Then(sep).Then(Tok(Ident(f.name)));
    assert PrintSpine(lay, n, [x], ind, sep) == d;
    WriteTwo(d, sep, Ident(f.name), rest);
  }

  lemma {:induction false} PrintsOperand(lay: Layout, op: BinOp, a: Node, isRight: bool, ind: nat, rest: List<Tok>)
    requires Plain(a)
    ensures Write(PrintOperand(lay, op, a, isRight, ind), rest) == Text(TreeOperand(lay, op, a, isRight, ind), rest)
    decreases a, 3
  {
    WriteRules();
    PrintsTree(lay, a, ind, false, if NeedsParens(op, a, isRight) then Cons(Close(Paren), rest) else rest);
  }

  lemma {:induction false} PrintsInfix(lay: Layout, n: Node, ind: nat, rest: List<Tok>)
    requires Plain(n) && IsInfix(n) && !IsNegation(n)
    ensures Write(PrintCall(lay, n, ind), rest) == Text(Tree(lay, n, ind), rest)
    decreases n, 1
  {
    var op, l, r := n.fn.builtin.op, n.args[0], n.args[1];
    InfixUnfolds(lay, n, ind);
    WriteRules();
    var right := Text(TreeOperand(lay, op, r, true, ind), rest);
    PrintsOperand(lay, op, r, true, ind, rest);
    PrintsOperand(lay, op, l, false, ind, Cons(Op(Bin(op)), right));
  }

  lemma {:induction false} PrintsNamed(lay: Layout, n: Node, ind: nat, rest: List<Tok>)
    requires Plain(n) && IsNamedInfix(n)
    ensures Write(PrintCall(lay, n, ind), rest) == Text(Tree(lay, n, ind), rest)
    decreases n, 1
  {
    var l, r, at := n.args[0], n.args[1], RightIndent(lay, n, ind);
    NamedUnfolds(lay, n, ind);
    PrintsTree(lay, r, at, false, rest);
    PrintsTree(lay, l, ind, false, Cons(Ident(n.fn.name), Text(Tree(lay, r, at), rest)));
    NamedWrites(lay, n, ind, rest);
  }

  /** However it is broken. */
  lemma NamedWrites(lay: Layout, n: Node, ind: nat, rest: List<Tok>)
    requires Plain(n) && IsNamedInfix(n)
    ensures Write(PrintCall(lay, n, ind), rest) ==
            Write(Print(lay, n.args[0], ind, false),
                  Cons(Ident(n.fn.name), Write(Print(lay, n.args[1], RightIndent(lay, n, ind), false), rest)))
  {
    NamedUnfolds(lay, n, ind);
    assert PrintCall(lay, n, ind) == PrintNamedInfix(lay, n, ind);
    WriteRules();
  }

  lemma {:induction false} PrintsApplication(lay: Layout, n: Node, ind: nat, rest: List<Tok>)
    requires Plain(n) && IsApplication(n)
    ensures Write(PrintCall(lay, n, ind), rest) == Text(Tree(lay, n, ind), rest)
    decreases n, 1
  {
    ApplicationUnfolds(lay, n, ind);
    PrintsArgs(lay, n.args, ind, rest);
    ApplicationWrites(lay, n, ind, rest);
  }

  lemma CalleePrints(lay: Layout, fn: Node, ind: nat)
    requires fn.Sym? || (fn.Builtin? && fn.builtin.Infix?)
    ensures PrintCallee(lay, fn, ind) == Tok(CalleeTok(CalleeOf(fn)))
  {
    assert Print(lay, fn, ind, false) == if fn.Sym? then Tok(Ident(fn.name)) else Tok(BuiltinTok(fn.builtin));
  }

  lemma ApplicationWrites(lay: Layout, n: Node, ind: nat, rest: List<Tok>)
    requires Plain(n) && IsApplication(n)
    ensures var inner := if Broken(lay, n, ind) then PrintBrokenList(lay, n.args, ind)
                         else PrintSep(lay, n.args, ind, false, Empty, COMMA_SP);
            Write(PrintCall(lay, n, ind), rest) ==
            Cons(CalleeTok(CalleeOf(n.fn)), Cons(Open(Paren), Write(inner, Cons(Close(Paren), rest))))
  {
    ApplicationUnfolds(lay, n, ind);
    assert !IsSafeAccess(n);
    var fn := PrintCallee(lay, n.fn, ind);
    if |n.args| >= 2 { assert n.args[|n.args| - 1] in n.args; }
    assert !HangsLambda(lay, n, fn, ind);
    CalleePrints(lay, n.fn, ind);
    assert PrintCall(lay, n, ind) == PrintApplication(lay, n, ind);
    WriteRules();
  }

  lemma {:induction false} PrintsArgs(lay: Layout, ns: seq<Node>, ind: nat, rest: List<Tok>)
    requires forall a :: a in ns ==> Plain(a)
    ensures Write(PrintSep(lay, ns, ind, false, Empty, COMMA_SP), Cons(Close(Paren), rest)) ==
            TextInside(TreeAll(lay, ns, ind), false, rest)
    ensures Write(PrintBrokenList(lay, ns, ind), Cons(Close(Paren), rest)) ==
            TextInside(TreeAll(lay, ns, ind + 1), true, rest)
    decreases ns, 1
  {
    WriteRules();
    if ns != [] {
      PrintsSep(lay, ns, ind, Empty, COMMA_SP, false, rest);
      PrintsSep(lay, ns, ind + 1, Blank(false, ind + 1), Cat(Tok(Comma), NewLine(0)), true, rest);
    }
  }

  lemma {:induction false} PrintsSep(lay: Layout, ns: seq<Node>, ind: nat, lead: Doc, sep: Doc, trailing: bool,
                                     rest: List<Tok>)
    requires ns != [] && forall a :: a in ns ==> Plain(a)
    requires WritesAs(sep, Comma) && forall ts :: Write(lead, ts) == ts
    ensures var close := Cons(Close(Paren), rest);
            Write(PrintSep(lay, ns, ind, false, lead, sep), if trailing then Cons(Comma, close) else close) ==
            TextArgs(TreeAll(lay, ns, ind), trailing, rest)
    decreases ns, 0
  {
    WriteRules();
    var cs := TreeAll(lay, ns, ind);
    assert cs[0] == Tree(lay, ns[0], ind) && cs[1..] == TreeAll(lay, ns[1..], ind);
    PrintsTree(lay, ns[0], ind, false, TextAfter(cs, trailing, rest));
    if |ns| > 1 {
      PrintsSep(lay, ns[1..], ind, lead, sep, trailing, rest);
    } else {
      assert cs[1..] == [];
    }
  }

  // The tree has the numbers of the expression, and means it unless it weighs less.

  lemma {:induction false} TreeMeans(lay: Layout, n: Node, ind: nat)
    requires Plain(n)
    ensures Means(Tree(lay, n, ind), n)
    decreases n, 1
  {
    if n.Call? {
      if IsNegation(n) {
        NegationUnfolds(lay, n, ind);
        TreeMeans(lay, n.args[1], ind);
        NegationMeans(Tree(lay, n.args[1], ind), n.args[1]);
      } else if IsPipe(n) {
        PipeUnfolds(lay, n, ind);
        SpineMeans(lay, n.args[0], PipeIndent(lay, n, ind));
        InfixMeans(PipeOp, TreeSpine(lay, n.args[0], PipeIndent(lay, n, ind)), n.args[0], Var(n.fn.name), n.fn);
      } else if IsInfix(n) {
        TreeInfixMeans(lay, n, ind);
      } else if IsNamedInfix(n) {
        NamedUnfolds(lay, n, ind);
        TreeMeans(lay, n.args[0], ind);
        TreeMeans(lay, n.args[1], RightIndent(lay, n, ind));
        InfixMeans(NameOp(n.fn.name), Tree(lay, n.args[0], ind), n.args[0],
                   Tree(lay, n.args[1], RightIndent(lay, n, ind)), n.args[1]);
      } else {
        ApplicationUnfolds(lay, n, ind);
        AllMean(lay, n.args, ArgIndent(lay, n, ind));
        ApplicationMeans(lay, n, ind);
      }
    } else if n.Chain? {
      ChainMeans(lay, n, ind);
    }
  }

  lemma {:induction false} ChainMeans(lay: Layout, n: Node, ind: nat)
    requires Plain(n) && n.Chain?
    ensures Means(Tree(lay, n, ind), n)
    ensures CstWeight(Tree(lay, n, ind)) == NodeWeight(n) ==> |n.operands| == 2
    decreases n, 0, 1
  {
    if |n.operands| == 2 { PairMeans(lay, n, ind); } else { OtherChainMeans(lay, n, ind); }
  }

  lemma {:induction false} PairUnfolds(lay: Layout, n: Node, ind: nat)
    requires Plain(n) && n.Chain? && |n.operands| == 2
    ensures var l, r := n.operands[0], n.operands[1];
            && Plain(l) && Plain(r) && n == InfixNode(Logic(n.op), l, r)
            && Tree(lay, n, ind) == InfixC(Logic(n.op), Tree(lay, l, ind), Tree(lay, r, ChainIndent(lay, n, ind)))
  {
    var l, r, at := n.operands[0], n.operands[1], ChainIndent(lay, n, ind);
    assert n.operands == [l, r] && n.operands[1..] == [r] && [r][1..] == [];
    var c := InfixC(Logic(n.op), Tree(lay, l, ind), Tree(lay, r, at));
    assert TreeChain(lay, n.op, Tree(lay, l, ind), [r], at) == TreeChain(lay, n.op, c, [], at) == c;
  }

  lemma {:induction false} PairMeans(lay: Layout, n: Node, ind: nat)
    requires Plain(n) && n.Chain? && |n.operands| == 2
    ensures Means(Tree(lay, n, ind), n)
    decreases n, 0, 0
  {
    var l, r, at := n.operands[0], n.operands[1], ChainIndent(lay, n, ind);
    PairUnfolds(lay, n, ind);
    TreeMeans(lay, l, ind);
    TreeMeans(lay, r, at);
    InfixMeans(Logic(n.op), Tree(lay, l, ind), l, Tree(lay, r, at), r);
  }

  lemma {:induction false} OtherChainMeans(lay: Layout, n: Node, ind: nat)
    requires Plain(n) && n.Chain? && |n.operands| != 2
    ensures Means(Tree(lay, n, ind), n) && CstWeight(Tree(lay, n, ind)) < NodeWeight(n)
    decreases n, 0, 0
  {
    var l, others := n.operands[0], n.operands[1..];
    TreeMeans(lay, l, ind);
    OthersWeigh(lay, n.op, Tree(lay, l, ind), others, ChainIndent(lay, n, ind));
    AstWeight(Tree(lay, n, ind));
    assert NodesWeight(n.operands) == NodeWeight(l) + NodesWeight(others);
    assert NodesNums(n.operands) == NodeNums(l) + NodesNums(others);
  }

  lemma {:induction false} OthersWeigh(lay: Layout, op: ChainOp, left: Cst, ns: seq<Node>, ind: nat)
    requires forall a :: a in ns ==> Plain(a)
    ensures var c := TreeChain(lay, op, left, ns, ind);
            CstNums(c) == CstNums(left) + NodesNums(ns) && CstWeight(c) <= CstWeight(left) + |ns| + NodesWeight(ns)
    decreases ns, 0
  {
    if ns != [] {
      var c := Tree(lay, ns[0], ind);
      TreeMeans(lay, ns[0], ind);
      OthersWeigh(lay, op, InfixC(Logic(op), left, c), ns[1..], ind);
      assert CstNums(left) + CstNums(c) + NodesNums(ns[1..]) == CstNums(left) + (CstNums(c) + NodesNums(ns[1..]));
    }
  }

  ghost predicate Means(c: Cst, n: Node) {
    CstNums(c) == NodeNums(n) && CstWeight(c) <= NodeWeight(n) && (CstWeight(c) == NodeWeight(n) <==> Ast(c) == n)
  }

  lemma NegationMeans(c: Cst, n: Node)
    requires Means(c, n)
    ensures Means(NegC(c), Negation(n))
  {
    NegationWeight(n);
    NegationNums(n);
    assert Negation(Ast(c)).args[1] == Ast(c) && Negation(n).args[1] == n;
  }

  lemma InfixMeans(o: InfixOp, c1: Cst, n1: Node, c2: Cst, n2: Node)
    requires Means(c1, n1) && Means(c2, n2)
    ensures Means(InfixC(o, c1, c2), InfixNode(o, n1, n2))
  {
    InfixWeight(o, n1, n2);
    InfixNums(o, n1, n2);
    SameNode(o, Ast(c1), n1, Ast(c2), n2);
  }

  lemma SameNode(o: InfixOp, a1: Node, n1: Node, a2: Node, n2: Node)
    ensures InfixNode(o, a1, a2) == InfixNode(o, n1, n2) <==> a1 == n1 && a2 == n2
  {
    var a, n := InfixNode(o, a1, a2), InfixNode(o, n1, n2);
    if o.Logic? {
      assert a.operands[0] == a1 && n.operands[0] == n1 && a.operands[1] == a2 && n.operands[1] == n2;
    } else {
      assert a.args[0] == a1 && n.args[0] == n1;
      if !o.PipeOp? { assert a.args[1] == a2 && n.args[1] == n2; }
    }
  }

  lemma {:induction false} TreeInfixMeans(lay: Layout, n: Node, ind: nat)
    requires Plain(n) && IsInfix(n) && !IsNegation(n)
    ensures Means(Tree(lay, n, ind), n)
    decreases n, 0
  {
    var op, l, r := n.fn.builtin.op, n.args[0], n.args[1];
    InfixUnfolds(lay, n, ind);
    TreeMeans(lay, l, ind);
    TreeMeans(lay, r, ind);
    InfixMeans(Arith(op), TreeOperand(lay, op, l, false, ind), l, TreeOperand(lay, op, r, true, ind), r);
  }

  lemma {:induction false} SpineMeans(lay: Layout, n: Node, ind: nat)
    requires Plain(n)
    ensures Means(TreeSpine(lay, n, ind), n)
    decreases n, 2
  {
    if IsPipeCall(n) {
      assert n.args == [n.args[0]] && n == InfixNode(PipeOp, n.args[0], n.fn);
      SpineMeans(lay, n.args[0], ind);
      InfixMeans(PipeOp, TreeSpine(lay, n.args[0], ind), n.args[0], Var(n.fn.name), n.fn);
    } else {
      TreeMeans(lay, n, ind);
    }
  }

  lemma ApplicationMeans(lay: Layout, n: Node, ind: nat)
    requires Plain(n) && IsApplication(n)
    requires AllMeant(TreeAll(lay, n.args, ArgIndent(lay, n, ind)), n.args)
    ensures Means(Tree(lay, n, ind), n)
  {
    ApplicationUnfolds(lay, n, ind);
    CallWeight(CalleeOf(n.fn), n.args);
    assert NodeNums(n.fn) == [];
    assert n.fn == CalleeNode(CalleeOf(n.fn));
  }

  ghost predicate AllMeant(cs: seq<Cst>, ns: seq<Node>) {
    ArgsNums(cs) == NodesNums(ns) && ArgsWeight(cs) <= NodesWeight(ns) &&
      (ArgsWeight(cs) == NodesWeight(ns) <==> Asts(cs) == ns)
  }

  lemma {:induction false} AllMean(lay: Layout, ns: seq<Node>, ind: nat)
    requires forall a :: a in ns ==> Plain(a)
    ensures AllMeant(TreeAll(lay, ns, ind), ns)
    decreases ns, 0
  {
    if ns != [] {
      var cs := TreeAll(lay, ns, ind);
      TreeMeans(lay, ns[0], ind);
      AllMean(lay, ns[1..], ind);
      assert cs[1..] == TreeAll(lay, ns[1..], ind);
      AstsCons(cs);
      assert ns == [ns[0]] + ns[1..] && Asts(cs) == [Asts(cs)[0]] + Asts(cs)[1..];
    }
  }
}
