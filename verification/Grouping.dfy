/** How operators group, said without a table of precedences: both the parser's table and the printer's must fit. */
module Grouping {
  import opened Options
  import opened Syntax
  import opened Docs
  import opened Names
  import opened Grammar
  import opened Parser
  import opened ParserProofs
  import opened Reading
  import opened Signs
  import opened Printer
  import opened PrintedTrees
  import opened RoundTrip

  /** The operators between numbers, from the loosest to the tightest. */
  const CLASSES: seq<set<BinOp>> := [
    {BitAnd, BitOr, Xor}, {Eq, Neq}, {Lt, Gt, Le, Ge}, {Concat}, {Shl, Shr, UShr}, {Add, Sub}, {Mul, Div, Rem}, {Pow}]

  /** `p` binds tighter than `o`. Pipes are the loosest, then come the names of functions, then logical operators. */
  predicate Tighter(p: InfixOp, o: InfixOp) {
    match o
    case PipeOp => !p.PipeOp?
    case NameOp(_) => p.Logic? || p.Arith?
    case Logic(_) => p.Arith?
    case Arith(op) => p.Arith? && exists i, j :: 0 <= i < j < |CLASSES| && op in CLASSES[i] && p.op in CLASSES[j]
  }

  lemma ClassIs(op: BinOp, i: nat)
    requires i < |CLASSES|
    ensures op in CLASSES[i] <==> Prec(Arith(op)) == i + 5
  {
    assert |CLASSES| == 8;
  }

  lemma TighterIsHigher(p: InfixOp, o: InfixOp)
    ensures Tighter(p, o) <==> Prec(p) > Prec(o)
  {
    if p.Arith? && o.Arith? {
      forall i | 0 <= i < |CLASSES|
        ensures (o.op in CLASSES[i] <==> Prec(o) == i + 5) && (p.op in CLASSES[i] <==> Prec(p) == i + 5)
      {
        ClassIs(o.op, i);
        ClassIs(p.op, i);
      }
      assert |CLASSES| == 8;
      var i, j := Prec(o) - 5, Prec(p) - 5;
      assert o.op in CLASSES[i] && p.op in CLASSES[j];
    }
  }

  predicate GroupsRight(o: InfixOp, p: InfixOp) { Tighter(p, o) || (o == Arith(Pow) && p == Arith(Pow)) }

  predicate IsOperator(o: InfixOp) { o.NameOp? ==> IsOperatorName(o.name) }

  function Three(o: InfixOp, p: InfixOp, a: string, b: string, c: string): List<Tok> {
    Cons(Ident(a), Cons(OpTok(o), Cons(Ident(b), Cons(OpTok(p), Cons(Ident(c), Nil)))))
  }

  /** In `a o b p c` the name in the middle goes with the second operator if that binds tighter or both are powers, and
      with the first one otherwise. */
  lemma Groups(o: InfixOp, p: InfixOp, a: string, b: string, c: string)
    requires IsOrdinary(a) && IsOrdinary(b) && IsOrdinary(c) && IsOperator(o) && IsOperator(p)
    ensures ParseAll(Three(o, p, a, b, c)) ==
            Some(if GroupsRight(o, p) then InfixNode(o, Sym(a), InfixNode(p, Sym(b), Sym(c)))
                 else InfixNode(p, InfixNode(o, Sym(a), Sym(b)), Sym(c)))
  {
    TighterIsHigher(p, o);
    assert forall q :: Prec(q) == POW <==> q == Arith(Pow);
    if GroupsRight(o, p) { GroupedRight(o, p, a, b, c); } else { GroupedLeft(o, p, a, b, c); }
  }

  /** A tree of one operator between names. */
  lemma OneOperator(o: InfixOp, a: string, b: string, next: Option<Tok>, rest: List<Tok>)
    ensures var c := InfixC(o, Var(a), Var(b));
            && Ast(c) == InfixNode(o, Sym(a), Sym(b)) && Clear(c, false) && Clear(c, true)
            && Toks(c, rest) == Cons(Ident(a), Cons(OpTok(o), Cons(Ident(b), rest)))
            && (IsOrdinary(a) && IsOrdinary(b) ==> Placed(c, true, next) && (IsOperator(o) ==> WF(c)))
  {
    assert Ast(Var(a)) == Sym(a) && Ast(Var(b)) == Sym(b) && WF(Var(a)) && WF(Var(b));
    assert Toks(Var(b), rest) == Cons(Ident(b), rest);
  }

  /** A tree of two, grouped to the left or to the right. */
  function Grouped(o: InfixOp, p: InfixOp, a: string, b: string, c: string, toRight: bool): Cst {
    if toRight then InfixC(o, Var(a), InfixC(p, Var(b), Var(c))) else InfixC(p, InfixC(o, Var(a), Var(b)), Var(c))
  }

  lemma TwoOperators(o: InfixOp, p: InfixOp, a: string, b: string, c: string, toRight: bool)
    ensures var d := Grouped(o, p, a, b, c, toRight);
            && Clear(d, false) && Toks(d, Nil) == Three(o, p, a, b, c)
            && Ast(d) == if toRight then InfixNode(o, Sym(a), InfixNode(p, Sym(b), Sym(c)))
                         else InfixNode(p, InfixNode(o, Sym(a), Sym(b)), Sym(c))
  {
    OneOperator(p, b, c, None, Nil);
    OneOperator(o, a, b, Some(OpTok(p)), Cons(OpTok(p), Cons(Ident(c), Nil)));
    assert Toks(Var(c), Nil) == Cons(Ident(c), Nil) && Ast(Var(a)) == Sym(a) && Ast(Var(c)) == Sym(c);
    assert Toks(Var(a), Cons(OpTok(o), Toks(InfixC(p, Var(b), Var(c)), Nil))) == Three(o, p, a, b, c);
  }

  lemma GroupedRight(o: InfixOp, p: InfixOp, a: string, b: string, c: string)
    requires IsOrdinary(a) && IsOrdinary(b) && IsOrdinary(c) && IsOperator(o) && IsOperator(p)
    requires Continues(Prec(p), Prec(o))
    ensures ParseAll(Three(o, p, a, b, c)) == Some(InfixNode(o, Sym(a), InfixNode(p, Sym(b), Sym(c))))
  {
    OneOperator(p, b, c, None, Nil);
    TwoOperators(o, p, a, b, c, true);
    Complete(Grouped(o, p, a, b, c, true), Nil, 0);
  }

  lemma GroupedLeft(o: InfixOp, p: InfixOp, a: string, b: string, c: string)
    requires IsOrdinary(a) && IsOrdinary(b) && IsOrdinary(c) && IsOperator(o) && IsOperator(p)
    requires !Continues(Prec(p), Prec(o))
    ensures ParseAll(Three(o, p, a, b, c)) == Some(InfixNode(p, InfixNode(o, Sym(a), Sym(b)), Sym(c)))
  {
    OneOperator(o, a, b, Some(OpTok(p)), Nil);
    TwoOperators(o, p, a, b, c, false);
    Complete(Grouped(o, p, a, b, c, false), Nil, 0);
  }

  // What the printer makes of either grouping.

  function Bracketed(a: string, op: BinOp, b: string, rest: List<Tok>): List<Tok> {
    Cons(Open(Paren), Cons(Ident(a), Cons(Op(Bin(op)), Cons(Ident(b), Cons(Close(Paren), rest)))))
  }

  /** What a bracketed pair of names is read as. */
  lemma BracketedToks(o: BinOp, a: string, b: string, rest: List<Tok>)
    ensures var c := ParenC(InfixC(Arith(o), Var(a), Var(b)));
            Toks(c, rest) == Bracketed(a, o, b, rest) && Clear(c, false)
  {
    OneOperator(Arith(o), a, b, None, Cons(Close(Paren), rest));
  }

  lemma PairTree(lay: Layout, ind: nat, o: BinOp, a: string, b: string)
    requires IsUserName(a) && IsUserName(b)
    ensures var n := Binary(o, Sym(a), Sym(b));
            Plain(n) && Tree(lay, n, ind) == InfixC(Arith(o), Var(a), Var(b)) && IsInfixCall(n)
  {
    PlainPair(o, Sym(a), Sym(b));
    InfixUnfolds(lay, Binary(o, Sym(a), Sym(b)), ind);
  }

  /** `(a o b) p c` is printed with its brackets exactly if `p` binds tighter than `o`. */
  lemma LeftPrinted(lay: Layout, ind: nat, root: bool, o: BinOp, p: BinOp, a: string, b: string, c: string)
    requires IsUserName(a) && IsUserName(b) && IsUserName(c)
    ensures Tokens(Print(lay, Binary(p, Binary(o, Sym(a), Sym(b)), Sym(c)), ind, root)) ==
            if Tighter(Arith(p), Arith(o)) then Bracketed(a, o, b, Cons(Op(Bin(p)), Cons(Ident(c), Nil)))
            else Three(Arith(o), Arith(p), a, b, c)
  {
    var n := Binary(p, Binary(o, Sym(a), Sym(b)), Sym(c));
    LeftTree(lay, ind, o, p, a, b, c);
    PrintedIsRead(lay, n, ind, root);
    BracketedToks(o, a, b, Cons(Op(Bin(p)), Cons(Ident(c), Nil)));
    TwoOperators(Arith(o), Arith(p), a, b, c, false);
    assert Toks(Var(c), Nil) == Cons(Ident(c), Nil);
    LexClear(Tree(lay, n, ind), false, Nil);
  }

  lemma LeftTree(lay: Layout, ind: nat, o: BinOp, p: BinOp, a: string, b: string, c: string)
    requires IsUserName(a) && IsUserName(b) && IsUserName(c)
    ensures var n, l := Binary(p, Binary(o, Sym(a), Sym(b)), Sym(c)), InfixC(Arith(o), Var(a), Var(b));
            && Plain(n)
            && Tree(lay, n, ind) ==
               InfixC(Arith(p), if Tighter(Arith(p), Arith(o)) then ParenC(l) else l, Var(c))
  {
    var inner := Binary(o, Sym(a), Sym(b));
    TighterIsHigher(Arith(p), Arith(o));
    TablesAgree();
    PairTree(lay, ind, o, a, b);
    PlainPair(p, inner, Sym(c));
    InfixUnfolds(lay, Binary(p, inner, Sym(c)), ind);
  }

  /** `a o (b p c)` exactly if it does not. */
  lemma RightPrinted(lay: Layout, ind: nat, root: bool, o: BinOp, p: BinOp, a: string, b: string, c: string)
    requires IsUserName(a) && IsUserName(b) && IsUserName(c)
    ensures Tokens(Print(lay, Binary(o, Sym(a), Binary(p, Sym(b), Sym(c))), ind, root)) ==
            if Tighter(Arith(p), Arith(o)) then Three(Arith(o), Arith(p), a, b, c)
            else Cons(Ident(a), Cons(Op(Bin(o)), Bracketed(b, p, c, Nil)))
  {
    var n := Binary(o, Sym(a), Binary(p, Sym(b), Sym(c)));
    RightTree(lay, ind, o, p, a, b, c);
    PrintedIsRead(lay, n, ind, root);
    BracketedToks(p, b, c, Nil);
    TwoOperators(Arith(o), Arith(p), a, b, c, true);
    assert Toks(Var(a), Cons(Op(Bin(o)), Bracketed(b, p, c, Nil))) ==
           Cons(Ident(a), Cons(Op(Bin(o)), Bracketed(b, p, c, Nil)));
    LexClear(Tree(lay, n, ind), false, Nil);
  }

  lemma RightTree(lay: Layout, ind: nat, o: BinOp, p: BinOp, a: string, b: string, c: string)
    requires IsUserName(a) && IsUserName(b) && IsUserName(c)
    ensures var n, r := Binary(o, Sym(a), Binary(p, Sym(b), Sym(c))), InfixC(Arith(p), Var(b), Var(c));
            && Plain(n)
            && Tree(lay, n, ind) ==
               InfixC(Arith(o), Var(a), if Tighter(Arith(p), Arith(o)) then r else ParenC(r))
  {
    var inner := Binary(p, Sym(b), Sym(c));
    TighterIsHigher(Arith(p), Arith(o));
    TablesAgree();
    PairTree(lay, ind, p, b, c);
    PlainPair(o, Sym(a), inner);
    InfixUnfolds(lay, Binary(o, Sym(a), inner), ind);
  }

  // Logical chains.

  function LogicTok(op: ChainOp): Tok {
    match op case And => Op(AndSign) case Or => Op(OrSign) case Qq => Op(QqSign)
  }

  function Logical(op: ChainOp, l: Node, r: Node): Node { Chain(op, [l, r]) }

  lemma LogicalTree(lay: Layout, ind: nat, op: ChainOp, l: Node, r: Node)
    requires Plain(l) && Plain(r)
    ensures var n := Logical(op, l, r);
            && Plain(n)
            && Tree(lay, n, ind) == InfixC(Logic(op), Tree(lay, l, ind), Tree(lay, r, ChainIndent(lay, n, ind)))
  {
    PairUnfolds(lay, Logical(op, l, r), ind);
  }

  /** However it is broken, a chain is printed with its own sign between its operands. */
  lemma ChainPrinted(lay: Layout, ind: nat, root: bool, op: ChainOp, a: string, b: string)
    requires IsUserName(a) && IsUserName(b)
    ensures Tokens(Print(lay, Logical(op, Sym(a), Sym(b)), ind, root)) ==
            Cons(Ident(a), Cons(LogicTok(op), Cons(Ident(b), Nil)))
  {
    var n := Logical(op, Sym(a), Sym(b));
    LogicalTree(lay, ind, op, Sym(a), Sym(b));
    PrintedIsRead(lay, n, ind, root);
    OneOperator(Logic(op), a, b, None, Nil);
    LexClear(Tree(lay, n, ind), false, Nil);
  }

  /** What is printed as two operators between names is read as they group. */
  lemma PrintedGroups(lay: Layout, n: Node, ind: nat, root: bool, o: InfixOp, p: InfixOp, a: string, b: string,
                      c: string, toRight: bool)
    requires Plain(n) && Tree(lay, n, ind) == Grouped(o, p, a, b, c, toRight)
    requires IsOrdinary(a) && IsOrdinary(b) && IsOrdinary(c) && IsOperator(o) && IsOperator(p)
    ensures ParseAll(Tokens(Print(lay, n, ind, root))) ==
            Some(if GroupsRight(o, p) then InfixNode(o, Sym(a), InfixNode(p, Sym(b), Sym(c)))
                 else InfixNode(p, InfixNode(o, Sym(a), Sym(b)), Sym(c)))
  {
    PrintedIsRead(lay, n, ind, root);
    TwoOperators(o, p, a, b, c, toRight);
    LexClear(Tree(lay, n, ind), false, Nil);
    Groups(o, p, a, b, c);
  }

  /** `a && (b || c)` is printed without its brackets, whatever the signs, and read as `(a && b) || c`. */
  lemma ChainOnTheRight(lay: Layout, ind: nat, root: bool, o: ChainOp, p: ChainOp, a: string, b: string, c: string)
    requires IsOrdinary(a) && IsOrdinary(b) && IsOrdinary(c)
    ensures ParseAll(Tokens(Print(lay, Logical(o, Sym(a), Logical(p, Sym(b), Sym(c))), ind, root))) ==
            Some(Logical(p, Logical(o, Sym(a), Sym(b)), Sym(c)))
  {
    var n := Logical(o, Sym(a), Logical(p, Sym(b), Sym(c)));
    LogicalTree(lay, ChainIndent(lay, n, ind), p, Sym(b), Sym(c));
    LogicalTree(lay, ind, o, Sym(a), Logical(p, Sym(b), Sym(c)));
    PrintedGroups(lay, n, ind, root, Logic(o), Logic(p), a, b, c, true);
  }

  /** `(a && b) + c` is printed without its brackets, whatever the signs, and read as `a && (b + c)`. */
  lemma ChainInSum(lay: Layout, ind: nat, root: bool, o: ChainOp, p: BinOp, a: string, b: string, c: string)
    requires IsOrdinary(a) && IsOrdinary(b) && IsOrdinary(c)
    ensures ParseAll(Tokens(Print(lay, Binary(p, Logical(o, Sym(a), Sym(b)), Sym(c)), ind, root))) ==
            Some(Logical(o, Sym(a), Binary(p, Sym(b), Sym(c))))
  {
    var inner := Logical(o, Sym(a), Sym(b));
    LogicalTree(lay, ind, o, Sym(a), Sym(b));
    PlainPair(p, inner, Sym(c));
    InfixUnfolds(lay, Binary(p, inner, Sym(c)), ind);
    PrintedGroups(lay, Binary(p, inner, Sym(c)), ind, root, Logic(o), Arith(p), a, b, c, false);
  }

  /** A chain of three, which the prefix form makes, is read as a chain of two in one. */
  lemma ChainOfThree(lay: Layout, ind: nat, root: bool, op: ChainOp, a: string, b: string, c: string)
    requires IsOrdinary(a) && IsOrdinary(b) && IsOrdinary(c)
    ensures ParseAll(Tokens(Print(lay, Chain(op, [Sym(a), Sym(b), Sym(c)]), ind, root))) ==
            Some(Logical(op, Logical(op, Sym(a), Sym(b)), Sym(c)))
  {
    var n := Chain(op, [Sym(a), Sym(b), Sym(c)]);
    assert Plain(n) by { assert Plain(Sym(a)) && Plain(Sym(b)) && Plain(Sym(c)); }
    ThreeUnfold(lay, n, ind, a, b, c);
    PrintedGroups(lay, n, ind, root, Logic(op), Logic(op), a, b, c, false);
  }

  lemma ThreeUnfold(lay: Layout, n: Node, ind: nat, a: string, b: string, c: string)
    requires Plain(n) && n.Chain? && n.operands == [Sym(a), Sym(b), Sym(c)]
    ensures Tree(lay, n, ind) == InfixC(Logic(n.op), InfixC(Logic(n.op), Var(a), Var(b)), Var(c))
  {
    var at, pair := ChainIndent(lay, n, ind), InfixC(Logic(n.op), Var(a), Var(b));
    assert n.operands[1..] == [Sym(b), Sym(c)] && [Sym(b), Sym(c)][1..] == [Sym(c)] && [Sym(c)][1..] == [];
    assert Plain(Sym(b)) && Plain(Sym(c)) && forall x :: x in [Sym(b), Sym(c)] ==> Plain(x);
    assert TreeChain(lay, n.op, pair, [Sym(c)], at) == InfixC(Logic(n.op), pair, Var(c));
    assert TreeChain(lay, n.op, Var(a), [Sym(b), Sym(c)], at) == TreeChain(lay, n.op, pair, [Sym(c)], at);
  }
}
