/** The parser accepts exactly the well-formed concrete syntax trees and gives back their meaning. */
module ParserProofs {
  import opened Options
  import opened Syntax
  import opened Docs
  import opened Names
  import opened Grammar
  import opened Parser

  // Completeness: a well-formed tree parses to its meaning.

  /** `c` may be read at precedence `p`. */
  predicate ReadableAt(c: Cst, p: nat) { c.InfixC? ==> Continues(Prec(c.op), p) }

  /** Nothing at the front of `ts` would be drawn into `c`. */
  predicate Ends(c: Cst, ts: List<Tok>) {
    !(ts.Cons? && ts.head == Open(Paren)) && (c.InfixC? ==> Stops(ts, Prec(c.op)))
  }

  lemma {:induction false} Complete(c: Cst, ts: List<Tok>, p: nat)
    requires WF(c) && ReadableAt(c, p) && Ends(c, ts) && Placed(c, true, Head(ts))
    ensures ParseExpr(Toks(c, ts), p) == ParseLoop(Ast(c), ts, p)
    decreases c, 1
  {
    if c.InfixC? {
      var InfixC(o, l, r) := c;
      var after := Toks(r, ts);
      NextIs(o, after);
      EndsLeft(c, ts);
      Complete(l, Cons(OpTok(o), after), p);
      Complete(r, ts, Prec(o));
    } else {
      StartsNoWord(c, ts);
      PlacedLater(c, Head(ts));
      CompleteOperand(c, ts);
    }
  }

  lemma NextIs(o: InfixOp, after: List<Tok>)
    requires o.NameOp? ==> IsOperatorName(o.name)
    ensures NextOp(Cons(OpTok(o), after)) == Some(o) && OpTok(o) != Open(Paren)
  {
  }

  /** The left operand ends in front of its operator, and can be read where the whole can. */
  lemma EndsLeft(c: Cst, ts: List<Tok>)
    requires WF(c) && c.InfixC?
    ensures Ends(c.left, Cons(OpTok(c.op), Toks(c.right, ts)))
    ensures forall p :: ReadableAt(c, p) ==> ReadableAt(c.left, p)
  {
    NextIs(c.op, Toks(c.right, ts));
  }

  lemma StartsNoWord(c: Cst, ts: List<Tok>)
    requires Placed(c, true, Head(ts)) && !c.InfixC?
    ensures !StartsWord(Toks(c, ts))
  {
  }

  lemma {:induction false} CompleteOperand(c: Cst, ts: List<Tok>)
    requires WF(c) && !c.InfixC? && Ends(c, ts) && Placed(c, false, Head(ts))
    ensures ParseOperand(Toks(c, ts)) == Some((Ast(c), ts))
    decreases c, 0
  {
    match c
    case ParenC(x) =>
      Complete(x, Cons(Close(Paren), ts), 0);
      CompleteParen(x, ts);
    case NegC(x) =>
      CompleteOperand(x, ts);
      CompleteNeg(x, ts);
    case AppC(f, args, trailing) =>
      CompleteArgs(args, trailing, ts);
      CompleteApp(f, args, trailing, ts);
    case _ =>
  }

  lemma {:induction false} CompleteParen(x: Cst, ts: List<Tok>)
    requires var after := Cons(Close(Paren), ts); ParseExpr(Toks(x, after), 0) == Some((Ast(x), after))
    requires WF(ParenC(x)) && Ends(ParenC(x), ts)
    ensures ParseOperand(Toks(ParenC(x), ts)) == Some((Ast(ParenC(x)), ts))
  {
  }

  lemma {:induction false} CompleteNeg(x: Cst, ts: List<Tok>)
    requires WF(NegC(x)) && Ends(NegC(x), ts) && ParseOperand(Toks(x, ts)) == Some((Ast(x), ts))
    ensures ParseOperand(Toks(NegC(x), ts)) == Some((Ast(NegC(x)), ts))
  {
  }

  lemma {:induction false} CompleteApp(f: Callee, args: seq<Cst>, trailing: bool, ts: List<Tok>)
    requires ParseArgs(Inside(args, trailing, ts)) == Some((Asts(args), ts)) && CalleeTakes(f, |args|)
    requires !(ts.Cons? && ts.head == Open(Paren))
    ensures ParseOperand(Toks(AppC(f, args, trailing), ts)) == Some((Ast(AppC(f, args, trailing)), ts))
  {
    var open := Cons(Open(Paren), Inside(args, trailing, ts));
    var call := Call(CalleeNode(f), Asts(args), PLAIN);
    assert ParsePart(Cons(CalleeTok(f), open)) == Some((CalleeNode(f), open));
    assert ParseCalls(CalleeNode(f), open) == ParseCalls(call, ts) == Some((call, ts));
  }

  lemma {:induction false} CompleteArgs(args: seq<Cst>, trailing: bool, ts: List<Tok>)
    requires forall a :: a in args ==> WF(a) && Placed(a, true, Some(Close(Paren)))
    ensures ParseArgs(ArgToks(args, trailing, ts)) == Some((Asts(args), ts))
    decreases args, 0
  {
    if args != [] {
      var last := |args| == 1 && !trailing;
      var after := if last then Cons(Close(Paren), ts) else Cons(Comma, ArgToks(args[1..], trailing, ts));
      CompleteArg(args[0], after);
      if last {
        CompleteLastArg(args, ts);
      } else {
        CompleteArgs(args[1..], trailing, ts);
        CompleteFirstArg(args, trailing, ts);
      }
    }
  }

  lemma {:induction false} CompleteLastArg(args: seq<Cst>, ts: List<Tok>)
    requires |args| == 1
    requires var toks := Toks(args[0], Cons(Close(Paren), ts));
             && ParseExpr(toks, 0) == Some((Ast(args[0]), Cons(Close(Paren), ts)))
             && toks.Cons? && !toks.head.Close?
    ensures ParseArgs(ArgToks(args, false, ts)) == Some((Asts(args), ts))
  {
    assert Asts(args) == [Ast(args[0])];
  }

  lemma {:induction false} CompleteFirstArg(args: seq<Cst>, trailing: bool, ts: List<Tok>)
    requires |args| > 1 || (|args| == 1 && trailing)
    requires var rest := ArgToks(args[1..], trailing, ts); var toks := Toks(args[0], Cons(Comma, rest));
             && ParseExpr(toks, 0) == Some((Ast(args[0]), Cons(Comma, rest)))
             && toks.Cons? && !toks.head.Close?
             && ParseArgs(rest) == Some((Asts(args[1..]), ts))
    ensures ParseArgs(ArgToks(args, trailing, ts)) == Some((Asts(args), ts))
  {
  }

  lemma {:induction false} CompleteArg(a: Cst, after: List<Tok>)
    requires WF(a) && Placed(a, true, Some(Close(Paren)))
    requires after.Cons? && (after.head == Close(Paren) || after.head == Comma)
    ensures ParseExpr(Toks(a, after), 0) == Some((Ast(a), after))
    ensures Toks(a, after).Cons? && !Toks(a, after).head.Close?
    decreases a, 2
  {
    PlacedBefore(a, true);
    Complete(a, after, 0);
    StartsExpr(a, after);
  }

  /** No expression starts with a closing bracket. */
  lemma StartsExpr(c: Cst, ts: List<Tok>)
    ensures Toks(c, ts).Cons? && !Toks(c, ts).head.Close?
  {
  }

  // Soundness: what parses is the meaning of a well-formed tree.

  /** Operator expressions as the parser builds them: numbers, user-defined names, the placeholder, calls of a name or
      an operator, marked the way they were written, and chains of logical operators that have an operand. */
  predicate Plain(n: Node) {
    match n
    case Num(_) => true
    case Sym(name) => IsUserName(name)
    case Reserved(w) => w.Hole?
    case Call(fn, args, h) => CallShape(fn, args, h) && forall a :: a in args ==> Plain(a)
    case Chain(_, operands) => operands != [] && forall a :: a in operands ==> Plain(a)
    case _ => false
  }

  predicate CallShape(fn: Node, args: seq<Node>, h: Hints) {
    && (fn.Sym? ==> IsUserName(fn.name))
    && if h.isPipe then !h.isInfix && |args| == 1 && fn.Sym?
       else if h.isInfix then |args| == 2 && fn.Sym?
       else fn.Sym? || (fn.Builtin? && fn.builtin.Infix?)
  }

  /** No closing bracket is directly followed by an opening one: nothing but a name or an operator is called. */
  predicate Clean(ts: List<Tok>) {
    ts.Cons? ==>
      Clean(ts.tail) && (ts.head.Close? && ts.tail.Cons? ==> !ts.tail.head.Open?)
  }

  // Parsing leaves a suffix, so what is left of clean tokens is clean.

  lemma {:induction false} CleanExpr(ts: List<Tok>, p: nat)
    requires Clean(ts) && ParseExpr(ts, p).Some?
    ensures Clean(ParseExpr(ts, p).value.1)
    decreases Len(ts), 3
  {
    if StartsWord(ts) { CleanWord(ts); } else { CleanOperand(ts); }
    var (a, rest) := (if StartsWord(ts) then ParseWord(ts) else ParseOperand(ts)).value;
    CleanLoop(a, rest, p);
  }

  lemma {:induction false} CleanWord(ts: List<Tok>)
    requires Clean(ts) && StartsWord(ts) && ParseWord(ts).Some?
    ensures Clean(ParseWord(ts).value.1)
    decreases Len(ts), 0
  {
    assert Clean(ts.tail);
    if ts.tail.Cons? && ts.tail.head == Open(Paren) {
      assert Len(ts.tail) == 1 + Len(ts.tail.tail);
      CleanResume(ts.tail.tail);
    }
  }

  lemma {:induction false} CleanResume(ts: List<Tok>)
    requires Clean(ts) && ParseResume(ts).Some?
    ensures Clean(ParseResume(ts).value.1)
    decreases Len(ts), 4
  {
    if ts.Nil? || ts.head != Close(Paren) { CleanExpr(ts, 0); }
  }

  lemma {:induction false} CleanLoop(left: Node, ts: List<Tok>, p: nat)
    requires Clean(ts) && ParseLoop(left, ts, p).Some?
    ensures Clean(ParseLoop(left, ts, p).value.1)
    decreases Len(ts), 2
  {
    if !Stops(ts, p) {
      var o := NextOp(ts).value;
      CleanExpr(ts.tail, Prec(o));
      var (b, rest) := ParseExpr(ts.tail, Prec(o)).value;
      CleanLoop(InfixNode(o, left, b), rest, p);
    }
  }

  lemma {:induction false} CleanOperand(ts: List<Tok>)
    requires Clean(ts) && ParseOperand(ts).Some?
    ensures Clean(ParseOperand(ts).value.1)
    decreases Len(ts), 2
  {
    CleanPart(ts);
    var (f, rest) := ParsePart(ts).value;
    CleanCalls(f, rest);
  }

  lemma {:induction false} CleanCalls(f: Node, ts: List<Tok>)
    requires Clean(ts) && ParseCalls(f, ts).Some?
    ensures Clean(ParseCalls(f, ts).value.1)
    decreases Len(ts), 1
  {
    if ts.Cons? && ts.head == Open(Paren) {
      CleanArgs(ts.tail);
      var (args, rest) := ParseArgs(ts.tail).value;
      CleanCalls(Call(f, args, PLAIN), rest);
    }
  }

  lemma {:induction false} CleanArgs(ts: List<Tok>)
    requires Clean(ts) && ParseArgs(ts).Some?
    ensures Clean(ParseArgs(ts).value.1)
    decreases Len(ts), 4
  {
    if ts.head != Close(Paren) {
      CleanExpr(ts, 0);
      var (a, rest) := ParseExpr(ts, 0).value;
      if rest.head == Comma { CleanArgs(rest.tail); }
    }
  }

  lemma {:induction false} CleanPart(ts: List<Tok>)
    requires Clean(ts) && ParsePart(ts).Some?
    ensures Clean(ParsePart(ts).value.1)
    decreases Len(ts), 0
  {
    match ts.head
    case Open(Paren) => CleanExpr(ts.tail, 0);
    case Op(Bin(op)) =>
      if op == Sub && ts.tail.Cons? && (ts.tail.head.Number? || ts.tail.head.Ident?) { CleanOperand(ts.tail); }
    case _ =>
  }

  /** The loop only ever wraps what it has. */
  lemma {:induction false} LoopKeeps(left: Node, ts: List<Tok>, p: nat)
    requires ParseLoop(left, ts, p).Some? && Plain(ParseLoop(left, ts, p).value.0)
    ensures Plain(left)
    decreases Len(ts)
  {
    if !Stops(ts, p) {
      var o := NextOp(ts).value;
      var (b, rest) := ParseExpr(ts.tail, Prec(o)).value;
      var node := InfixNode(o, left, b);
      LoopKeeps(node, rest, p);
      assert if o.Logic? then left in node.operands else left in node.args;
    }
  }

  /** An expression ends where nothing continues it. */
  lemma {:induction false} LoopStops(left: Node, ts: List<Tok>, p: nat)
    requires ParseLoop(left, ts, p).Some?
    ensures Stops(ParseLoop(left, ts, p).value.1, p)
    decreases Len(ts)
  {
    if !Stops(ts, p) {
      var o := NextOp(ts).value;
      var (b, rest) := ParseExpr(ts.tail, Prec(o)).value;
      LoopStops(InfixNode(o, left, b), rest, p);
    }
  }

  lemma ExprStops(ts: List<Tok>, p: nat)
    requires ParseExpr(ts, p).Some?
    ensures Stops(ParseExpr(ts, p).value.1, p)
  {
    var (a, rest) := (if StartsWord(ts) then ParseWord(ts) else ParseOperand(ts)).value;
    LoopStops(a, rest, p);
  }

  /** A call of a call is not plain. */
  lemma {:induction false} CallsOnce(f: Node, ts: List<Tok>)
    requires f.Call? && ParseCalls(f, ts).Some? && Plain(ParseCalls(f, ts).value.0)
    ensures ParseCalls(f, ts) == Some((f, ts)) && !(ts.Cons? && ts.head == Open(Paren))
    decreases Len(ts)
  {
    if ts.Cons? && ts.head == Open(Paren) {
      var (args, rest) := ParseArgs(ts.tail).value;
      CallsOnce(Call(f, args, PLAIN), rest);
      assert false;
    }
  }

  lemma {:induction false} SoundExpr(ts: List<Tok>, p: nat) returns (c: Cst)
    requires ParseExpr(ts, p).Some? && Plain(ParseExpr(ts, p).value.0) && Clean(ts)
    ensures WF(c) && ReadableAt(c, p) && Ast(c) == ParseExpr(ts, p).value.0
    ensures Toks(c, ParseExpr(ts, p).value.1) == ts && Placed(c, true, Head(ParseExpr(ts, p).value.1))
    decreases Len(ts), 3
  {
    NoWord(ts, p);
    var (a, rest) := ParseOperand(ts).value;
    LoopKeeps(a, rest, p);
    CleanOperand(ts);
    var left := SoundOperand(ts);
    PlacedAtStart(left, rest);
    c := SoundLoop(left, rest, p);
  }

  /** What a word starts is no operator expression. */
  lemma NoWord(ts: List<Tok>, p: nat)
    requires ParseExpr(ts, p).Some? && Plain(ParseExpr(ts, p).value.0)
    ensures !StartsWord(ts)
  {
    if StartsWord(ts) {
      var (a, rest) := ParseWord(ts).value;
      LoopKeeps(a, rest, p);
    }
  }

  lemma PlacedAtStart(c: Cst, rest: List<Tok>)
    requires Placed(c, false, Head(rest)) && !c.InfixC? && !StartsWord(Toks(c, rest))
    ensures Placed(c, true, Head(rest))
  {
  }

  lemma {:induction false} SoundLoop(left: Cst, ts: List<Tok>, p: nat) returns (c: Cst)
    requires WF(left) && ReadableAt(left, p) && (left.InfixC? ==> Stops(ts, Prec(left.op)))
    requires Placed(left, true, Head(ts))
    requires ParseLoop(Ast(left), ts, p).Some? && Plain(ParseLoop(Ast(left), ts, p).value.0) && Clean(ts)
    ensures WF(c) && ReadableAt(c, p) && Ast(c) == ParseLoop(Ast(left), ts, p).value.0
    ensures Toks(c, ParseLoop(Ast(left), ts, p).value.1) == Toks(left, ts)
    ensures Placed(c, true, Head(ParseLoop(Ast(left), ts, p).value.1))
    decreases Len(ts), 2
  {
    if Stops(ts, p) {
      c := left;
    } else {
      var o := NextOp(ts).value;
      var (b, rest) := ParseExpr(ts.tail, Prec(o)).value;
      ExprStops(ts.tail, Prec(o));
      LoopKeeps(InfixNode(o, Ast(left), b), rest, p);
      assert if o.Logic? then b in InfixNode(o, Ast(left), b).operands
             else b.Sym? || b in InfixNode(o, Ast(left), b).args;
      CleanExpr(ts.tail, Prec(o));
      var right := SoundExpr(ts.tail, Prec(o));
      assert ts == Cons(OpTok(o), ts.tail);
      c := SoundLoop(InfixC(o, left, right), rest, p);
    }
  }

  lemma {:induction false} SoundOperand(ts: List<Tok>) returns (c: Cst)
    requires ParseOperand(ts).Some? && Plain(ParseOperand(ts).value.0) && Clean(ts)
    ensures WF(c) && !c.InfixC? && Ast(c) == ParseOperand(ts).value.0
    ensures Toks(c, ParseOperand(ts).value.1) == ts && Placed(c, false, Head(ParseOperand(ts).value.1))
    decreases Len(ts), 2
  {
    var (f, rest) := ParsePart(ts).value;
    if rest.Cons? && rest.head == Open(Paren) {
      c := SoundCall(ts);
    } else {
      c := SoundPart(ts);
    }
  }

  lemma {:induction false} SoundPart(ts: List<Tok>) returns (c: Cst)
    requires ParsePart(ts).Some? && Plain(ParsePart(ts).value.0) && Clean(ts)
    ensures WF(c) && !c.InfixC? && Ast(c) == ParsePart(ts).value.0
    ensures Toks(c, ParsePart(ts).value.1) == ts && Placed(c, false, Head(ParsePart(ts).value.1))
    decreases Len(ts), 0
  {
    match ts.head
    case Number(v) => c := Lit(v);
    case Ident(name) => c := Var(name);
    case Keyword(_) => c := HoleC;
    case Open(_) =>
      var x := SoundExpr(ts.tail, 0);
      c := ParenC(x);
    case Op(_) =>
      var x := ParseOperand(ts.tail).value.0;
      assert x in Negation(x).args;
      var inner := SoundOperand(ts.tail);
      c := NegC(inner);
  }

  lemma {:induction false} SoundCall(ts: List<Tok>) returns (c: Cst)
    requires ParseOperand(ts).Some? && Plain(ParseOperand(ts).value.0) && Clean(ts)
    requires var rest := ParsePart(ts).value.1; rest.Cons? && rest.head == Open(Paren)
    ensures WF(c) && !c.InfixC? && Ast(c) == ParseOperand(ts).value.0
    ensures Toks(c, ParseOperand(ts).value.1) == ts && Placed(c, false, Head(ParseOperand(ts).value.1))
    decreases Len(ts), 1
  {
    var callee, inside := CalledPart(ts);
    if ParseArgs(inside).value.0 == [] {
      NoArgs(inside);
      c := AppC(callee, [], false);
    } else {
      var csts, trailing := SoundArgs(inside);
      c := AppC(callee, csts, trailing);
    }
  }

  lemma CalledPart(ts: List<Tok>) returns (callee: Callee, inside: List<Tok>)
    requires ParseOperand(ts).Some? && Plain(ParseOperand(ts).value.0) && Clean(ts)
    requires var rest := ParsePart(ts).value.1; rest.Cons? && rest.head == Open(Paren)
    ensures ts == Cons(CalleeTok(callee), Cons(Open(Paren), inside)) && Clean(inside)
    ensures && ParseArgs(inside).Some?
            && var (args, rest) := ParseArgs(inside).value;
               && ParseOperand(ts) == Some((Call(CalleeNode(callee), args, PLAIN), rest))
               && CalleeTakes(callee, |args|) && forall a :: a in args ==> Plain(a)
  {
    var (f, open) := ParsePart(ts).value;
    var (args, rest) := ParseArgs(open.tail).value;
    CallsOnce(Call(f, args, PLAIN), rest);
    CalledIsBare(ts);
    callee, inside := if f.Sym? then NameCallee(f.name) else OpCallee(f.builtin.op), open.tail;
  }

  /** What is called is a single token. */
  lemma {:induction false} CalledIsBare(ts: List<Tok>)
    requires Clean(ts) && ParsePart(ts).Some?
    requires var (f, rest) := ParsePart(ts).value;
             rest.Cons? && rest.head == Open(Paren) && (f.Sym? || (f.Builtin? && f.builtin.Infix?))
    ensures var (f, rest) := ParsePart(ts).value;
            rest == ts.tail && ts.head == (if f.Sym? then Ident(f.name) else Op(Bin(f.builtin.op)))
  {
    if ts.head == Open(Paren) {
      CleanExpr(ts.tail, 0);
      assert false;
    }
  }

  lemma {:induction false} SoundArgs(ts: List<Tok>) returns (args: seq<Cst>, trailing: bool)
    requires ParseArgs(ts).Some? && ParseArgs(ts).value.0 != [] && Clean(ts)
    requires forall a :: a in ParseArgs(ts).value.0 ==> Plain(a)
    ensures args != [] && Asts(args) == ParseArgs(ts).value.0
    ensures forall a :: a in args ==> WF(a) && Placed(a, true, Some(Close(Paren)))
    ensures ArgToks(args, trailing, ParseArgs(ts).value.1) == ts
    decreases Len(ts), 4
  {
    var (a, rest) := ParseExpr(ts, 0).value;
    assert ParseArgs(ts).value.0[0] == a;
    var c := SoundExpr(ts, 0);
    PlacedBefore(c, true);
    CleanExpr(ts, 0);
    if rest.head == Close(Paren) {
      args, trailing := [c], false;
    } else {
      var others := ParseArgs(rest.tail).value;
      assert ParseArgs(ts).value.0 == [a] + others.0;
      if others.0 == [] {
        args, trailing := [c], true;
        NoArgs(rest.tail);
        assert Asts(args) == [Ast(c)];
      } else {
        var cs, t := SoundArgs(rest.tail);
        args, trailing := [c] + cs, t;
        assert args[1..] == cs;
      }
    }
  }

  lemma {:induction false} NoArgs(ts: List<Tok>)
    requires ParseArgs(ts).Some? && ParseArgs(ts).value.0 == []
    ensures ts == Cons(Close(Paren), ParseArgs(ts).value.1)
  {
  }
}
