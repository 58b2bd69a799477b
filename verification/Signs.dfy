/** Minus signs in the text of operator expressions: the tokenizer may join one to a number, take one off, or
    make an arrow of it, and then something is lost that the parser's answer shows. */
module Signs {
  import opened Options
  import opened Syntax
  import opened Docs
  import opened Names
  import opened Grammar
  import opened Parser
  import opened ParserProofs
  import opened Reading

  /** The text of `c` in front of `rest`. A minus sign stands directly against its operand or its digits. */
  function Text(c: Cst, rest: List<Tok>): List<Tok>
    decreases c
  {
    match c
    case Lit(v) => if v < 0 then Cons(Dash, Cons(Number(-v), rest)) else Cons(Number(v), rest)
    case Var(name) => Cons(Ident(name), rest)
    case HoleC => Cons(Keyword(WReserved(Hole)), rest)
    case ParenC(x) => Cons(Open(Paren), Text(x, Cons(Close(Paren), rest)))
    case NegC(x) => Cons(Dash, Text(x, rest))
    case InfixC(o, l, r) => Text(l, Cons(OpTok(o), Text(r, rest)))
    case AppC(f, args, trailing) => Cons(CalleeTok(f), Cons(Open(Paren), TextInside(args, trailing, rest)))
  }

  function TextInside(args: seq<Cst>, trailing: bool, rest: List<Tok>): List<Tok>
    decreases args, 1
  {
    if args == [] && trailing then Cons(Comma, Cons(Close(Paren), rest)) else TextArgs(args, trailing, rest)
  }

  function TextArgs(args: seq<Cst>, trailing: bool, rest: List<Tok>): List<Tok>
    decreases args, 0
  {
    if args == [] then Cons(Close(Paren), rest)
    else if |args| == 1 && !trailing then Text(args[0], Cons(Close(Paren), rest))
    else Text(args[0], Cons(Comma, TextArgs(args[1..], trailing, rest)))
  }

  /** What stands behind the first argument. */
  function TextAfter(args: seq<Cst>, trailing: bool, rest: List<Tok>): List<Tok>
    requires args != []
  {
    if |args| == 1 && !trailing then Cons(Close(Paren), rest) else Cons(Comma, TextArgs(args[1..], trailing, rest))
  }

  /** The tokens that a reader of the text of `c` sees. */
  function Read(c: Cst): List<Tok> { Lex(false, Text(c, Nil)) }

  /** How the text of `c` starts. */
  function Start(c: Cst): Tok {
    match c
    case Lit(v) => if v < 0 then Dash else Number(v)
    case Var(name) => Ident(name)
    case HoleC => Keyword(WReserved(Hole))
    case ParenC(_) => Open(Paren)
    case NegC(_) => Dash
    case InfixC(_, l, _) => Start(l)
    case AppC(f, _, _) => CalleeTok(f)
  }

  lemma StartIs(c: Cst, rest: List<Tok>)
    ensures Text(c, rest).Cons? && Text(c, rest).head == Start(c) && !Start(c).Close?
  {
  }

  /** With a minus sign in front, an arrow. */
  predicate MakesArrow(t: Tok) { t in {Op(Bin(Gt)), Op(Bin(Ge)), Op(Bin(Shr)), Op(Bin(UShr))} }

  /** Every minus sign in the text of `c` is read as what it was written for. `behind`: an operand, or the name of
      an operator, has just ended. */
  predicate Clear(c: Cst, behind: bool)
    decreases c
  {
    match c
    case Lit(v) => v < 0 ==> !behind
    case ParenC(x) => Clear(x, false)
    case NegC(x) => Clear(x, false) && (Start(x).Number? ==> behind) && !MakesArrow(Start(x))
    case InfixC(o, l, r) => Clear(l, behind) && Clear(r, o.NameOp?)
    case AppC(_, args, _) => forall a :: a in args ==> Clear(a, false)
    case _ => true
  }

  /** Then the reader sees the tokens of `c`. */
  lemma {:induction false} LexClear(c: Cst, behind: bool, rest: List<Tok>)
    requires Clear(c, behind)
    ensures Lex(behind, Text(c, rest)) == Toks(c, Lex(true, rest))
    decreases c
  {
    match c
    case ParenC(x) => LexClear(x, false, Cons(Close(Paren), rest));
    case NegC(x) =>
      LexClear(x, false, rest);
      StartIs(x, rest);
    case InfixC(o, l, r) =>
      LexClear(l, behind, Cons(OpTok(o), Text(r, rest)));
      LexClear(r, o.NameOp?, rest);
    case AppC(f, args, trailing) => LexClearInside(args, trailing, rest);
    case _ =>
  }

  lemma {:induction false} LexClearInside(args: seq<Cst>, trailing: bool, rest: List<Tok>)
    requires forall a :: a in args ==> Clear(a, false)
    ensures Lex(false, TextInside(args, trailing, rest)) == Inside(args, trailing, Lex(true, rest))
    decreases args, 1
  {
    LexClearArgs(args, trailing, rest);
  }

  lemma {:induction false} LexClearArgs(args: seq<Cst>, trailing: bool, rest: List<Tok>)
    requires forall a :: a in args ==> Clear(a, false)
    ensures Lex(false, TextArgs(args, trailing, rest)) == ArgToks(args, trailing, Lex(true, rest))
    decreases args, 0
  {
    if args != [] {
      LexClear(args[0], false, TextAfter(args, trailing, rest));
      LexClearArgs(args[1..], trailing, rest);
    }
  }

  // Otherwise the numbers change, or the weight does.

  /** The numbers other than zero, with their signs. */
  function Signed(ts: List<Tok>): seq<int> {
    if ts.Nil? then []
    else if ts.head.Number? && ts.head.value != 0 then [ts.head.value] + Signed(ts.tail)
    else Signed(ts.tail)
  }

  function Nonzero(v: int): seq<int> { if v != 0 then [v] else [] }

  function CstNums(c: Cst): seq<int> {
    match c
    case Lit(v) => Nonzero(v)
    case ParenC(x) => CstNums(x)
    case NegC(x) => CstNums(x)
    case InfixC(_, l, r) => CstNums(l) + CstNums(r)
    case AppC(_, args, _) => ArgsNums(args)
    case _ => []
  }

  function ArgsNums(args: seq<Cst>): seq<int> {
    if args == [] then [] else CstNums(args[0]) + ArgsNums(args[1..])
  }

  /** The numbers of an expression in the order in which they are written. */
  function NodeNums(n: Node): seq<int> {
    match n
    case Num(v) => Nonzero(v)
    case Call(fn, args, h) => if h.isPipe then NodesNums(args) + NodeNums(fn) else NodeNums(fn) + NodesNums(args)
    case Chain(_, operands) => NodesNums(operands)
    case _ => []
  }

  function NodesNums(ns: seq<Node>): seq<int> {
    if ns == [] then [] else NodeNums(ns[0]) + NodesNums(ns[1..])
  }

  lemma NodesNums1(a: Node)
    ensures NodesNums([a]) == NodeNums(a)
  {
    assert [a][1..] == [];
  }

  lemma NodesNums2(a: Node, b: Node)
    ensures NodesNums([a, b]) == NodeNums(a) + NodeNums(b)
  {
    assert [a, b][1..] == [b];
    NodesNums1(b);
  }

  lemma InfixNums(o: InfixOp, l: Node, r: Node)
    ensures NodeNums(InfixNode(o, l, r)) == NodeNums(l) + NodeNums(r)
  {
    match o
    case PipeOp => PipedNums(l, r);
    case Logic(op) => ChainNums(op, l, r);
    case Arith(op) => CalledNums(Builtin(Infix(op)), l, r, PLAIN);
    case NameOp(name) => CalledNums(Sym(name), l, r, Hints(true, false));
  }

  lemma PipedNums(l: Node, r: Node)
    ensures NodeNums(Call(r, [l], Hints(false, true))) == NodeNums(l) + NodeNums(r)
  {
    NodesNums1(l);
  }

  lemma ChainNums(op: ChainOp, l: Node, r: Node)
    ensures NodeNums(Chain(op, [l, r])) == NodeNums(l) + NodeNums(r)
  {
    NodesNums2(l, r);
  }

  lemma CalledNums(fn: Node, l: Node, r: Node, h: Hints)
    requires NodeNums(fn) == [] && !h.isPipe
    ensures NodeNums(Call(fn, [l, r], h)) == NodeNums(l) + NodeNums(r)
  {
    NodesNums2(l, r);
    var nums := NodesNums([l, r]);
    assert NodeNums(Call(fn, [l, r], h)) == [] + nums;
    assert [] + nums == nums;
  }

  lemma NegationNums(x: Node)
    ensures NodeNums(Negation(x)) == NodeNums(x)
  {
    NodesNums2(Num(0), x);
  }

  lemma {:induction false} AstNums(c: Cst)
    ensures CstNums(c) == NodeNums(Ast(c))
    decreases c
  {
    match c
    case ParenC(x) => AstNums(x);
    case NegC(x) =>
      AstNums(x);
      NegationNums(Ast(x));
    case InfixC(o, l, r) =>
      AstNums(l);
      AstNums(r);
      InfixNums(o, Ast(l), Ast(r));
    case AppC(f, args, _) =>
      AstsNums(args);
      assert NodeNums(CalleeNode(f)) == [];
    case _ =>
  }

  lemma {:induction false} AstsNums(args: seq<Cst>)
    ensures ArgsNums(args) == NodesNums(Asts(args))
    decreases args
  {
    if args != [] {
      AstNums(args[0]);
      AstsNums(args[1..]);
      AstsCons(args);
    }
  }

  lemma {:induction false} NumsTree(c: Cst, rest: List<Tok>)
    ensures Signed(Toks(c, rest)) == CstNums(c) + Signed(rest)
    decreases c
  {
    match c
    case ParenC(x) => NumsTree(x, Cons(Close(Paren), rest));
    case NegC(x) => NumsTree(x, rest);
    case InfixC(o, l, r) =>
      NumsTree(l, Cons(OpTok(o), Toks(r, rest)));
      NumsTree(r, rest);
    case AppC(f, args, trailing) => NumsInside(args, trailing, rest);
    case _ =>
  }

  lemma {:induction false} NumsInside(args: seq<Cst>, trailing: bool, rest: List<Tok>)
    ensures Signed(Inside(args, trailing, rest)) == ArgsNums(args) + Signed(rest)
    decreases args, 1
  {
    NumsArgs(args, trailing, rest);
  }

  lemma {:induction false} NumsArgs(args: seq<Cst>, trailing: bool, rest: List<Tok>)
    ensures Signed(ArgToks(args, trailing, rest)) == ArgsNums(args) + Signed(rest)
    decreases args, 0
  {
    if args != [] {
      NumsTree(args[0], AfterArg(args, trailing, rest));
      NumsArgs(args[1..], trailing, rest);
    }
  }

  /** `ts` is what is read for something with the numbers `nums` and the given weight, in front of `after`. It has
      as many numbers, `s`. If these are the same, `ts` weighs no more, and less if a minus sign is not clear. */
  ghost predicate Reads(ts: List<Tok>, s: seq<int>, after: List<Tok>, nums: seq<int>, weight: nat, clear: bool) {
    && Signed(ts) == s + Signed(after) && |s| == |nums|
    && (s == nums ==> Weight(ts) <= weight + Weight(after) && (!clear ==> Weight(ts) < weight + Weight(after)))
  }

  lemma {:induction false} LexAny(c: Cst, behind: bool, rest: List<Tok>) returns (s: seq<int>)
    ensures Reads(Lex(behind, Text(c, rest)), s, Lex(true, rest), CstNums(c), CstWeight(c), Clear(c, behind))
    decreases c, 1
  {
    if c.ParenC? {
      s := LexParen(c.inner, behind, rest);
    } else if c.NegC? {
      s := LexNegation(c.inner, behind, rest);
    } else if c.InfixC? {
      s := LexInfix(c.op, c.left, c.right, behind, rest);
    } else if c.AppC? {
      s := LexCall(c.callee, c.args, c.trailing, behind, rest);
    } else {
      s := LexLeaf(c, behind, rest);
    }
  }

  lemma LexLeaf(c: Cst, behind: bool, rest: List<Tok>) returns (s: seq<int>)
    requires c.Lit? || c.Var? || c.HoleC?
    ensures Reads(Lex(behind, Text(c, rest)), s, Lex(true, rest), CstNums(c), CstWeight(c), Clear(c, behind))
  {
    s := if c.Lit? && c.value < 0 && behind then [-c.value] else CstNums(c);
  }

  lemma {:induction false} LexParen(x: Cst, behind: bool, rest: List<Tok>) returns (s: seq<int>)
    ensures Reads(Lex(behind, Text(ParenC(x), rest)), s, Lex(true, rest), CstNums(x), CstWeight(x), Clear(x, false))
    decreases x, 2
  {
    s := LexAny(x, false, Cons(Close(Paren), rest));
    assert Lex(true, Cons(Close(Paren), rest)) == Cons(Close(Paren), Lex(true, rest));
  }

  lemma {:induction false} LexCall(f: Callee, args: seq<Cst>, trailing: bool, behind: bool, rest: List<Tok>)
      returns (s: seq<int>)
    ensures var c := AppC(f, args, trailing);
            Reads(Lex(behind, Text(c, rest)), s, Lex(true, rest), CstNums(c), CstWeight(c), Clear(c, behind))
    decreases args, 3
  {
    s := LexInside(args, trailing, rest);
    var inside := TextInside(args, trailing, rest);
    assert Lex(behind, Cons(CalleeTok(f), Cons(Open(Paren), inside))) ==
           Cons(CalleeTok(f), Cons(Open(Paren), Lex(false, inside)));
  }

  lemma {:induction false} LexNegation(x: Cst, behind: bool, rest: List<Tok>) returns (s: seq<int>)
    ensures Reads(Lex(behind, Text(NegC(x), rest)), s, Lex(true, rest), CstNums(x), 1 + CstWeight(x),
                  Clear(NegC(x), behind))
    decreases x, 2
  {
    var s' := LexAny(x, false, rest);
    StartIs(x, rest);
    if Start(x).Number? && Start(x).value != 0 { StartsWithNumber(x); }
    s := if Start(x).Number? && !behind && Start(x).value != 0 then [-Start(x).value] + s'[1..] else s';
    MinusInFront(behind, Text(x, rest), s', s, Lex(true, rest), CstNums(x), CstWeight(x), Clear(x, false));
  }

  /** What a minus sign in front of `ts` does to it. */
  lemma MinusInFront(behind: bool, ts: List<Tok>, s': seq<int>, s: seq<int>, after: List<Tok>, nums: seq<int>,
                     weight: nat, clear: bool)
    requires ts.Cons? && Reads(Lex(false, ts), s', after, nums, weight, clear)
    requires ts.head.Number? && ts.head.value != 0 ==> nums != [] && nums[0] == ts.head.value
    requires s == if ts.head.Number? && !behind && ts.head.value != 0 then [-ts.head.value] + s'[1..] else s'
    ensures Reads(LexDash(behind, ts), s, after, nums, 1 + weight,
                  clear && (ts.head.Number? ==> behind) && !MakesArrow(ts.head))
  {
    if ts.head.Number? && ts.head.value != 0 {
      assert Signed(Lex(false, ts)) == [ts.head.value] + Signed(Lex(true, ts.tail));
      TakeFirst(ts.head.value, Signed(Lex(true, ts.tail)), s', Signed(after));
    }
  }

  lemma TakeFirst(v: int, a: seq<int>, s: seq<int>, b: seq<int>)
    requires [v] + a == s + b && s != []
    ensures s[0] == v && a == s[1..] + b && [-v] + a == ([-v] + s[1..]) + b
  {
    assert s[0] == (s + b)[0] == v;
    assert a == ([v] + a)[1..] == (s + b)[1..] == s[1..] + b;
  }

  /** Two pieces with a token between them that is no number. */
  lemma JoinReads(ts: List<Tok>, s1: seq<int>, t: Tok, mid: List<Tok>, s2: seq<int>, after: List<Tok>,
                  n1: seq<int>, w1: nat, c1: bool, n2: seq<int>, w2: nat, c2: bool)
    requires Reads(ts, s1, Cons(t, mid), n1, w1, c1) && Reads(mid, s2, after, n2, w2, c2) && !t.Number?
    ensures Reads(ts, s1 + s2, after, n1 + n2, w1 + TokWeight(t) + w2, c1 && c2)
  {
    assert Signed(Cons(t, mid)) == Signed(mid);
    assert s1 + (s2 + Signed(after)) == (s1 + s2) + Signed(after);
    SplitEqual(s1, s2, n1, n2);
  }

  lemma {:induction false} StartsWithNumber(c: Cst)
    requires Start(c).Number? && Start(c).value != 0
    ensures CstNums(c) != [] && CstNums(c)[0] == Start(c).value
  {
    if c.InfixC? { StartsWithNumber(c.left); }
  }

  lemma {:induction false} LexInfix(o: InfixOp, l: Cst, r: Cst, behind: bool, rest: List<Tok>) returns (s: seq<int>)
    ensures var c := InfixC(o, l, r);
            Reads(Lex(behind, Text(c, rest)), s, Lex(true, rest), CstNums(c), CstWeight(c), Clear(c, behind))
    decreases InfixC(o, l, r), 0
  {
    var s1 := LexAny(l, behind, Cons(OpTok(o), Text(r, rest)));
    var s2 := LexAny(r, o.NameOp?, rest);
    s := s1 + s2;
    LexSides(o, l, r, behind, rest, s1, s2);
  }

  lemma LexSides(o: InfixOp, l: Cst, r: Cst, behind: bool, rest: List<Tok>, s1: seq<int>, s2: seq<int>)
    requires var right := Cons(OpTok(o), Text(r, rest));
             Reads(Lex(behind, Text(l, right)), s1, Lex(true, right), CstNums(l), CstWeight(l), Clear(l, behind))
    requires Reads(Lex(o.NameOp?, Text(r, rest)), s2, Lex(true, rest), CstNums(r), CstWeight(r), Clear(r, o.NameOp?))
    ensures Reads(Lex(behind, Text(InfixC(o, l, r), rest)), s1 + s2, Lex(true, rest), CstNums(l) + CstNums(r),
                  CstWeight(l) + 1 + CstWeight(r), Clear(l, behind) && Clear(r, o.NameOp?))
  {
    var mid := Lex(o.NameOp?, Text(r, rest));
    assert Lex(true, Cons(OpTok(o), Text(r, rest))) == Cons(OpTok(o), mid);
    JoinReads(Lex(behind, Text(InfixC(o, l, r), rest)), s1, OpTok(o), mid, s2, Lex(true, rest),
              CstNums(l), CstWeight(l), Clear(l, behind), CstNums(r), CstWeight(r), Clear(r, o.NameOp?));
  }

  lemma SplitEqual(a: seq<int>, b: seq<int>, c: seq<int>, d: seq<int>)
    requires |a| == |c|
    ensures a + b == c + d <==> a == c && b == d
  {
    if a + b == c + d {
      assert a == (a + b)[..|a|] == c;
      assert b == (a + b)[|a|..] == d;
    }
  }

  lemma {:induction false} LexInside(args: seq<Cst>, trailing: bool, rest: List<Tok>) returns (s: seq<int>)
    ensures Reads(Lex(false, TextInside(args, trailing, rest)), s, Lex(true, rest), ArgsNums(args), ArgsWeight(args),
                  forall a :: a in args ==> Clear(a, false))
    decreases args, 2
  {
    s := LexArgs(args, trailing, rest);
  }

  lemma {:induction false} LexArgs(args: seq<Cst>, trailing: bool, rest: List<Tok>) returns (s: seq<int>)
    ensures Reads(Lex(false, TextArgs(args, trailing, rest)), s, Lex(true, rest), ArgsNums(args), ArgsWeight(args),
                  forall a :: a in args ==> Clear(a, false))
    decreases args, 0
  {
    s := [];
    if args != [] {
      var a, others := args[0], args[1..];
      var s1 := LexAny(a, false, TextAfter(args, trailing, rest));
      var s2 := LexArgs(others, trailing, rest);
      s := s1 + s2;
      assert args == [a] + others;
      LexFirst(args, trailing, rest, s1, s2);
    }
  }

  lemma LexFirst(args: seq<Cst>, trailing: bool, rest: List<Tok>, s1: seq<int>, s2: seq<int>)
    requires args != []
    requires var a := args[0];
             Reads(Lex(false, Text(a, TextAfter(args, trailing, rest))), s1, Lex(true, TextAfter(args, trailing, rest)),
                   CstNums(a), CstWeight(a), Clear(a, false))
    requires Reads(Lex(false, TextArgs(args[1..], trailing, rest)), s2, Lex(true, rest), ArgsNums(args[1..]),
                   ArgsWeight(args[1..]), forall a :: a in args[1..] ==> Clear(a, false))
    ensures Reads(Lex(false, TextArgs(args, trailing, rest)), s1 + s2, Lex(true, rest), ArgsNums(args),
                  ArgsWeight(args), Clear(args[0], false) && forall a :: a in args[1..] ==> Clear(a, false))
  {
    var a, others := args[0], args[1..];
    var t := TextAfter(args, trailing, rest).head;
    var mid := if t == Comma then Lex(false, TextArgs(others, trailing, rest)) else Lex(true, rest);
    assert Lex(true, TextAfter(args, trailing, rest)) == Cons(t, mid);
    JoinReads(Lex(false, TextArgs(args, trailing, rest)), s1, t, mid, s2, Lex(true, rest), CstNums(a), CstWeight(a),
              Clear(a, false), ArgsNums(others), ArgsWeight(others), forall a :: a in others ==> Clear(a, false));
  }

  // Brackets stay what they are.

  predicate StartsOpen(ts: List<Tok>) { ts.Cons? && ts.head.Open? }

  lemma {:induction false} CleanLexed(behind: bool, ts: List<Tok>)
    requires Clean(ts)
    ensures Clean(Lex(behind, ts)) && (StartsOpen(Lex(behind, ts)) ==> StartsOpen(ts))
    decreases ts
  {
    if ts.Cons? {
      var t, rest := ts.head, ts.tail;
      if IsPrefix(ts) {
        CleanLexed(false, rest.tail);
      } else if !t.Dash? {
        CleanLexed(EndsOperand(t), rest);
      } else if rest.Cons? {
        CleanLexed(true, rest.tail);
        CleanLexed(false, rest.tail);
        CleanLexed(false, rest);
        CleanDash(behind, rest);
      }
    }
  }

  lemma CleanDash(behind: bool, ts: List<Tok>)
    requires ts.Cons? && Clean(Lex(true, ts.tail)) && Clean(Lex(false, ts.tail)) && Clean(Lex(false, ts))
    ensures Clean(LexDash(behind, ts)) && LexDash(behind, ts).Cons? && !StartsOpen(LexDash(behind, ts))
  {
    forall a: Tok, b: Tok, rest | Clean(rest) && !a.Close? && !b.Close? ensures Clean(Cons(a, Cons(b, rest))) {
      assert Clean(Cons(b, rest));
    }
    forall a: Tok, rest | Clean(rest) && !a.Close? ensures Clean(Cons(a, rest)) { }
  }

  lemma {:induction false} CleanText(c: Cst, rest: List<Tok>)
    requires Clean(rest) && !StartsOpen(rest)
    ensures Clean(Text(c, rest))
    decreases c
  {
    match c
    case ParenC(x) => CleanText(x, Cons(Close(Paren), rest));
    case NegC(x) => CleanText(x, rest);
    case InfixC(o, l, r) =>
      CleanText(r, rest);
      CleanText(l, Cons(OpTok(o), Text(r, rest)));
    case AppC(f, args, trailing) => CleanTextArgs(args, trailing, rest);
    case _ =>
  }

  lemma {:induction false} CleanTextArgs(args: seq<Cst>, trailing: bool, rest: List<Tok>)
    requires Clean(rest) && !StartsOpen(rest)
    ensures Clean(TextArgs(args, trailing, rest)) && Clean(TextInside(args, trailing, rest))
    decreases args
  {
    if args != [] {
      CleanTextArgs(args[1..], trailing, rest);
      CleanText(args[0], TextAfter(args, trailing, rest));
    }
  }

  lemma CleanRead(c: Cst)
    ensures Clean(Read(c))
  {
    CleanText(c, Nil);
    CleanLexed(false, Text(c, Nil));
  }

  // A tree and its text.

  /** Whatever the parser makes of the text of `c` has the numbers and the weight of what is read. */
  lemma ParsedWeighs(c: Cst, n: Node)
    requires Plain(n) && ParseAll(Read(c)) == Some(n)
    ensures Signed(Read(c)) == NodeNums(n) && Weight(Read(c)) == NodeWeight(n)
  {
    CleanRead(c);
    var d := SoundExpr(Read(c), 0);
    WeighTree(d, Nil);
    AstWeight(d);
    NumsTree(d, Nil);
    AstNums(d);
  }

  /** If that is no less than `c` has, every minus sign in the text was clear. */
  lemma ReadIsClear(c: Cst, n: Node)
    requires Plain(n) && ParseAll(Read(c)) == Some(n)
    requires CstNums(c) == NodeNums(n) && CstWeight(c) <= NodeWeight(n)
    ensures Clear(c, false) && CstWeight(c) == NodeWeight(n)
  {
    ParsedWeighs(c, n);
    var s := LexAny(c, false, Nil);
    assert s == s + Signed(Nil);
  }

  /** The text of a tree is read back as its meaning exactly when the grammar generates the tree, every minus sign in
      its text is clear, and no name in it stands where it is a word. */
  lemma TextReadsBack(c: Cst)
    requires Plain(Ast(c))
    ensures ParseAll(Read(c)) == Some(Ast(c)) <==> WF(c) && Clear(c, false) && Placed(c, true, None)
  {
    CleanRead(c);
    if ParseAll(Read(c)) == Some(Ast(c)) {
      AstNums(c);
      AstWeight(c);
      ReadIsClear(c, Ast(c));
    }
    if Clear(c, false) {
      LexClear(c, false, Nil);
      ReadsBack(c);
    }
  }
}
