/** Absent operands aside, a printed node reads as its spelling under every layout, at every indent. */
module LayoutIndependence {
  import opened Options
  import opened Syntax
  import opened Docs
  import opened Printer
  import opened Spelling

  /** Separators that read as `t`, and text that reads as nothing. */
  ghost predicate ReadsAs(sep: Doc, t: Tok) { !t.Undefined? && forall rest :: Emit(sep, rest) == Push(t, rest) }
  ghost predicate ReadsAsNothing(d: Doc) { forall rest :: Emit(d, rest) == rest }

  lemma {:induction false} Reads(lay: Layout, n: Node, ind: nat, root: bool)
    ensures forall rest {:trigger Emit(Print(lay, n, ind, root), rest)} ::
              Emit(Print(lay, n, ind, root), rest) == Spell(n, rest)
    decreases n, 6
  {
    if IsAtom(n) {
      ReadsAtom(lay, n, ind, root);
    } else if IsWrapped(n) {
      ReadsWrapped(lay, n, ind, root);
    } else if IsStatement(n) {
      ReadsStatement(lay, n, ind, root);
    } else {
      ReadsExpression(lay, n, ind, root);
    }
  }

  // The node kinds in four groups.

  predicate IsAtom(n: Node) {
    n.Num? || n.Atom? || n.Str? || n.Reserved? || n.Sym? || n.Builtin? || n.Effect? || n.Import? || n.Splice? ||
      n.Unknown?
  }

  predicate IsWrapped(n: Node) { n.Recur? || n.Spread? || n.TmplStr? || n.Wrap? || n.Resume? || n.Pattern? }

  predicate IsStatement(n: Node) {
    n.MacroCall? || n.Block? || n.Let? || n.WithHandler? || n.Handler? || n.CodeTmpl? || n.Loop? || n.For?
  }

  lemma ReadsAtom(lay: Layout, n: Node, ind: nat, root: bool)
    requires IsAtom(n)
    ensures forall rest {:trigger Emit(Print(lay, n, ind, root), rest)} ::
              Emit(Print(lay, n, ind, root), rest) == Spell(n, rest)
  {
    EmitRules();
  }

  lemma {:induction false} ReadsStatement(lay: Layout, n: Node, ind: nat, root: bool)
    requires IsStatement(n)
    ensures forall rest {:trigger Emit(Print(lay, n, ind, root), rest)} ::
              Emit(Print(lay, n, ind, root), rest) == Spell(n, rest)
    decreases n, 5
  {
    match n
    case MacroCall(_, _) => ReadsMacroCall(lay, n, ind, root);
    case Block(_) => ReadsBlock(lay, n, ind);
    case Let(_, _) => ReadsLet(lay, n, ind);
    case WithHandler(_, _) => ReadsWithHandler(lay, n, ind);
    case Handler(_, _) => ReadsHandler(lay, n, ind);
    case CodeTmpl(_, _) => ReadsCodeTemplate(lay, n, ind);
    case Loop(_, _) => ReadsLoop(lay, n, ind);
    case For(_, _) => ReadsFor(lay, n, ind);
  }

  lemma {:induction false} ReadsExpression(lay: Layout, n: Node, ind: nat, root: bool)
    requires !IsAtom(n) && !IsWrapped(n) && !IsStatement(n)
    ensures forall rest {:trigger Emit(Print(lay, n, ind, root), rest)} ::
              Emit(Print(lay, n, ind, root), rest) == Spell(n, rest)
    decreases n, 5
  {
    match n
    case Call(_, _, _) => ReadsCall(lay, n, ind);
    case If(_, _, _) => ReadsIf(lay, n, ind);
    case Function(_, _, _) => ReadsFunction(lay, n, ind);
    case Macro(_, _) => ReadsMacro(lay, n, ind);
    case Perform(_, _) => ReadsPerform(lay, n, ind);
    case Array(_) => ReadsArray(lay, n, ind);
    case Object(_) => ReadsObject(lay, n, ind);
    case Chain(_, _) => ReadsChain(lay, n, ind);
    case Match(_, _) => ReadsMatch(lay, n, ind);
  }

  /** The kinds that only put tokens around what they hold. */
  lemma {:induction false} ReadsWrapped(lay: Layout, n: Node, ind: nat, root: bool)
    requires IsWrapped(n)
    ensures forall rest {:trigger Emit(Print(lay, n, ind, root), rest)} ::
              Emit(Print(lay, n, ind, root), rest) == Spell(n, rest)
    decreases n, 5
  {
    if n.Recur? {
      ReadsArguments(lay, Kw(WRecur), n.operands, ind);
      EmitRules();
    } else if n.TmplStr? {
      ReadsSegments(lay, n.segments);
      EmitRules();
    } else if n.Pattern? {
      ReadsTarget(lay, n.target);
    } else if n.Spread? {
      ReadsSpread(lay, n, ind, root);
    } else if n.Wrap? {
      ReadsWrap(lay, n, ind, root);
    } else {
      ReadsResume(lay, n, ind, root);
    }
  }

  lemma {:induction false} ReadsSpread(lay: Layout, n: Node, ind: nat, root: bool)
    requires n.Spread?
    ensures forall rest {:trigger Emit(Print(lay, n, ind, root), rest)} ::
              Emit(Print(lay, n, ind, root), rest) == Spell(n, rest)
    decreases n, 4
  {
    EmitRules();
    Reads(lay, n.inner, ind, false);
  }

  lemma {:induction false} ReadsWrap(lay: Layout, n: Node, ind: nat, root: bool)
    requires n.Wrap?
    ensures forall rest {:trigger Emit(Print(lay, n, ind, root), rest)} ::
              Emit(Print(lay, n, ind, root), rest) == Spell(n, rest)
    decreases n, 4
  {
    EmitRules();
    Reads(lay, n.inner, ind, false);
  }

  lemma {:induction false} ReadsResume(lay: Layout, n: Node, ind: nat, root: bool)
    requires n.Resume?
    ensures forall rest {:trigger Emit(Print(lay, n, ind, root), rest)} ::
              Emit(Print(lay, n, ind, root), rest) == Spell(n, rest)
    decreases n, 4
  {
    EmitRules();
    if n.arg.Some? { Reads(lay, n.arg.value, ind, false); }
  }

  lemma {:induction false} ReadsSep(lay: Layout, ns: seq<Node>, ind: nat, root: bool, lead: Doc, sep: Doc, t: Tok)
    requires ReadsAsNothing(lead) && ReadsAs(sep, t)
    ensures forall rest {:trigger Emit(PrintSep(lay, ns, ind, root, lead, sep), rest)} ::
              Emit(PrintSep(lay, ns, ind, root, lead, sep), rest) == SpellSep(ns, t, rest)
    decreases ns, 0
  {
    EmitRules();
    if ns != [] {
      Reads(lay, ns[0], ind, root);
      ReadsSep(lay, ns[1..], ind, root, lead, sep, t);
    }
  }

  /** A bracketed list reads the same on one line and broken over several. */
  lemma {:induction false} ReadsList(lay: Layout, ns: seq<Node>, ind: nat)
    ensures forall rest {:trigger Emit(PrintSep(lay, ns, ind, false, Empty, COMMA_SP), rest)} ::
              Emit(PrintSep(lay, ns, ind, false, Empty, COMMA_SP), rest) == SpellSep(ns, Comma, rest)
    ensures forall b, rest {:trigger Emit(PrintBrokenList(lay, ns, ind), Cons(Close(b), rest))} ::
              Emit(PrintBrokenList(lay, ns, ind), Cons(Close(b), rest)) == SpellSep(ns, Comma, Cons(Close(b), rest))
    decreases ns, 1
  {
    EmitRules();
    ReadsSep(lay, ns, ind, false, Empty, COMMA_SP, Comma);
    ReadsSep(lay, ns, ind + 1, false, Blank(false, ind + 1), Cat(Tok(Comma), NewLine(0)), Comma);
  }

  lemma {:induction false} ReadsArguments(lay: Layout, name: Doc, ns: seq<Node>, ind: nat)
    ensures forall rest {:trigger Emit(PrintArguments(lay, name, ns, ind), rest)} ::
              Emit(PrintArguments(lay, name, ns, ind), rest) ==
              Emit(name, Lb(Paren, SpellSep(ns, Comma, Rb(Paren, rest))))
    decreases ns, 2
  {
    EmitRules();
    ReadsList(lay, ns, ind);
  }

  lemma {:induction false} ReadsStatements(lay: Layout, opener: Doc, stmts: seq<Node>, ind: nat)
    ensures forall rest {:trigger Emit(PrintStatements(lay, opener, stmts, ind), rest)} ::
              Emit(PrintStatements(lay, opener, stmts, ind), rest) == Emit(opener, SpellBlock(stmts, rest))
    decreases stmts, 1
  {
    EmitRules();
    ReadsSep(lay, stmts, ind + 1, true, Blank(false, ind + 1), Cat(Tok(Semicolon), NewLine(0)), Semicolon);
  }

  lemma {:induction false} ReadsArrow(lay: Layout, head: Doc, body: seq<Node>, ind: nat)
    ensures forall rest {:trigger Emit(PrintArrow(lay, head, body, ind), rest)} ::
              Emit(PrintArrow(lay, head, body, ind), rest) == Emit(head, O(Arrow, SpellBody(body, rest)))
    decreases body, 2
  {
    EmitRules();
    if |body| == 1 {
      Reads(lay, body[0], ind, false);
      Reads(lay, body[0], ind + 1, false);
    }
    ReadsStatements(lay, head.Add(Op(Arrow)).Then(SP).Add(Keyword(WDo)), body, ind);
  }

  lemma {:induction false} ReadsLoopBody(lay: Layout, head: Doc, body: Node, ind: nat)
    ensures forall rest {:trigger Emit(PrintLoopBody(lay, head, body, ind), rest)} ::
              Emit(PrintLoopBody(lay, head, body, ind), rest) == Emit(head, O(Arrow, Spell(body, rest)))
    decreases body, 7
  {
    EmitRules();
    Reads(lay, body, ind, true);
    Reads(lay, body, ind + 1, true);
  }

  lemma {:induction false} ReadsOperand(lay: Layout, outer: BinOp, operand: Node, isRight: bool, ind: nat)
    ensures forall rest {:trigger Emit(PrintOperand(lay, outer, operand, isRight, ind), rest)} ::
              Emit(PrintOperand(lay, outer, operand, isRight, ind), rest) == SpellOperand(outer, operand, isRight, rest)
    decreases operand, 7
  {
    EmitRules();
    Reads(lay, operand, ind, false);
  }

  lemma {:induction false} ReadsCallee(lay: Layout, fn: Node, ind: nat)
    ensures forall rest {:trigger Emit(PrintCallee(lay, fn, ind), rest)} ::
              Emit(PrintCallee(lay, fn, ind), rest) == SpellCallee(fn, rest)
    decreases fn, 7
  {
    EmitRules();
    Reads(lay, fn, ind, false);
  }

  lemma {:induction false} ReadsSpine(lay: Layout, n: Node, chain: seq<Node>, ind: nat, sep: Doc)
    requires ReadsAs(sep, Op(PipeSign))
    requires forall x :: x in chain ==> x < n
    ensures forall rest {:trigger Emit(PrintSpine(lay, n, chain, ind, sep), rest)} ::
              Emit(PrintSpine(lay, n, chain, ind, sep), rest) == SpellSpine(n, chain, rest)
    decreases n, 0, |chain|
  {
    EmitRules();
    if chain != [] {
      assert chain[0] in chain && forall x :: x in chain[1..] ==> x in chain;
      Reads(lay, chain[0], ind, false);
      ReadsSpine(lay, n, chain[1..], ind, sep);
    }
  }

  lemma {:induction false} ReadsCall(lay: Layout, n: Node, ind: nat)
    requires n.Call?
    ensures forall rest {:trigger Emit(PrintCall(lay, n, ind), rest)} ::
              Emit(PrintCall(lay, n, ind), rest) == SpellCall(n, rest)
    decreases n, 2
  {
    EmitRules();
    if IsNegation(n) {
      Reads(lay, n.args[1], ind, false);
    } else if IsSafeAccess(n) {
      Reads(lay, n.args[0], ind, false);
    } else if IsPipe(n) {
      ReadsSpine(lay, n, PipeChain(n), ind, SP.Add(Op(PipeSign)).Then(SP));
      ReadsSpine(lay, n, PipeChain(n), ind + 1, NewLine(ind + 1).Add(Op(PipeSign)).Then(SP));
    } else if IsInfix(n) {
      ReadsOperand(lay, n.fn.builtin.op, n.args[0], false, ind);
      ReadsOperand(lay, n.fn.builtin.op, n.args[1], true, ind);
    } else if IsNamedInfix(n) {
      ReadsNamedInfix(lay, n, ind);
    } else {
      ReadsApplication(lay, n, ind);
    }
  }

  lemma {:induction false} ReadsNamedInfix(lay: Layout, n: Node, ind: nat)
    requires IsNamedInfix(n)
    ensures forall rest {:trigger Emit(PrintNamedInfix(lay, n, ind), rest)} ::
              Emit(PrintNamedInfix(lay, n, ind), rest) ==
              Spell(n.args[0], Cons(NameTok(n.fn), Spell(n.args[1], rest)))
    decreases n, 1
  {
    Reads(lay, n.args[0], ind, false);
    Reads(lay, n.args[1], ind, false);
    Reads(lay, n.args[1], ind + 1, false);
    forall rest
      ensures Emit(PrintNamedInfix(lay, n, ind), rest) == Spell(n.args[0], Cons(NameTok(n.fn), Spell(n.args[1], rest)))
    {
      ReadsNamedInfixParts(lay, n, ind, rest);
    }
  }

  lemma ReadsNamedInfixParts(lay: Layout, n: Node, ind: nat, rest: List<Tok>)
    requires IsNamedInfix(n)
    requires forall ts :: Emit(Print(lay, n.args[0], ind, false), ts) == Spell(n.args[0], ts)
    requires forall ts :: Emit(Print(lay, n.args[1], ind, false), ts) == Spell(n.args[1], ts)
    requires forall ts :: Emit(Print(lay, n.args[1], ind + 1, false), ts) == Spell(n.args[1], ts)
    ensures Emit(PrintNamedInfix(lay, n, ind), rest) == Spell(n.args[0], Cons(NameTok(n.fn), Spell(n.args[1], rest)))
  {
    var op, left := NameTok(n.fn), Print(lay, n.args[0], ind, false);
    var right, deeper := Print(lay, n.args[1], ind, false), Print(lay, n.args[1], ind + 1, false);
    AroundName(left, SP, op, SP, right, rest);
    AroundName(left, NewLine(ind + 1), op, SP, right, rest);
    AroundName(left, SP, op, NewLine(ind + 1), deeper, rest);
    AroundName(left, NewLine(ind + 1), op, NewLine(ind + 1), deeper, rest);
  }

  /** A name between two texts, whatever blanks are around it. */
  lemma AroundName(left: Doc, before: Doc, op: Tok, after: Doc, right: Doc, rest: List<Tok>)
    requires before.Blank? && after.Blank? && !op.Undefined? && !op.Comma? && !op.Semicolon?
    ensures Emit(left.Then(before).Then(Tok(op)).Then(after).Then(right), rest) ==
            Emit(left, Cons(op, Emit(right, rest)))
    ensures Emit(left.Then(before.Then(Tok(op)).Then(after).Then(right)), rest) ==
            Emit(left, Cons(op, Emit(right, rest)))
  {
    EmitRules();
  }

  lemma {:induction false} ReadsApplication(lay: Layout, n: Node, ind: nat)
    requires n.Call?
    ensures forall rest {:trigger Emit(PrintApplication(lay, n, ind), rest)} ::
              Emit(PrintApplication(lay, n, ind), rest) ==
              SpellCallee(n.fn, Lb(Paren, SpellSep(n.args, Comma, Rb(Paren, rest))))
    decreases n, 1
  {
    EmitRules();
    ReadsCallee(lay, n.fn, ind);
    ReadsList(lay, n.args, ind);
    var fn := PrintCallee(lay, n.fn, ind);
    if HangsLambda(lay, n, fn, ind) { ReadsHanging(lay, n, fn, ind); }
  }

  lemma {:induction false} ReadsHanging(lay: Layout, n: Node, fn: Doc, ind: nat)
    requires n.Call? && |n.args| >= 2
    ensures forall rest {:trigger Emit(PrintHanging(lay, n, fn, ind), rest)} ::
              Emit(PrintHanging(lay, n, fn, ind), rest) ==
                           Emit(fn, Lb(Paren, SpellSep(n.args, Comma, Rb(Paren, rest))))
    decreases n, 0
  {
    var k := |n.args| - 1;
    ReadsSep(lay, n.args[..k], ind, false, Empty, COMMA_SP, Comma);
    Reads(lay, n.args[k], ind, false);
    forall rest ensures Emit(PrintHanging(lay, n, fn, ind), rest) ==
                        Emit(fn, Lb(Paren, SpellSep(n.args, Comma, Rb(Paren, rest)))) {
      EmitRules();
      SpellSepLast(n.args, Comma, Rb(Paren, rest));
    }
  }

  /** The last element of a list comes behind the list of the others. */
  lemma {:induction false} SpellSepLast(ns: seq<Node>, sep: Tok, rest: List<Tok>)
    requires |ns| >= 2
    ensures SpellSep(ns, sep, rest) == SpellSep(ns[..|ns| - 1], sep, Push(sep, Spell(ns[|ns| - 1], rest)))
  {
    var k := |ns| - 1;
    if k > 1 {
      SpellSepLast(ns[1..], sep, rest);
      assert ns[1..][..k - 1] == ns[..k][1..];
    }
  }

  lemma {:induction false} ReadsMacroCall(lay: Layout, n: Node, ind: nat, root: bool)
    requires n.MacroCall?
    ensures forall rest {:trigger Emit(PrintMacroCall(lay, n, ind, root), rest)} ::
              Emit(PrintMacroCall(lay, n, ind, root), rest) == Spell(n, rest)
    decreases n, 2
  {
    EmitRules();
    Reads(lay, n.fn, ind, false);
    Reads(lay, n.operand, ind, true);
    Reads(lay, n.operand, ind, false);
    Reads(lay, n.operand, ind + 1, false);
  }

  lemma {:induction false} ReadsIf(lay: Layout, n: Node, ind: nat)
    requires n.If?
    ensures forall rest {:trigger Emit(PrintIf(lay, n, ind), rest)} ::
              Emit(PrintIf(lay, n, ind), rest) == Spell(n, rest)
    decreases n, 2
  {
    if n.els.None? {
      EmitRules();
    } else if n.els.value.If? {
      ReadsElseIf(lay, n, ind);
    } else {
      ReadsElse(lay, n, ind);
    }
  }

  lemma {:induction false} ReadsElseIf(lay: Layout, n: Node, ind: nat)
    requires n.If? && n.els.Some? && n.els.value.If?
    ensures forall rest {:trigger Emit(PrintIf(lay, n, ind), rest)} ::
              Emit(PrintIf(lay, n, ind), rest) == Spell(n, rest)
    decreases n, 1
  {
    Reads(lay, n.cond, ind, false);
    Reads(lay, n.thn, ind, false);
    Reads(lay, n.thn, ind + 1, false);
    ReadsIf(lay, n.els.value, ind);
    EmitRules();
  }

  lemma {:induction false} ReadsElse(lay: Layout, n: Node, ind: nat)
    requires n.If? && n.els.Some? && !n.els.value.If?
    ensures forall rest {:trigger Emit(PrintIf(lay, n, ind), rest)} ::
              Emit(PrintIf(lay, n, ind), rest) == Spell(n, rest)
    decreases n, 1
  {
    Reads(lay, n.cond, ind, false);
    Reads(lay, n.thn, ind, false);
    Reads(lay, n.thn, ind + 1, false);
    Reads(lay, n.els.value, ind, false);
    Reads(lay, n.els.value, ind + 1, false);
    forall rest
      ensures Emit(PrintIf(lay, n, ind), rest) == Spell(n, rest)
    {
      ReadsElseParts(lay, n, ind, rest);
    }
  }

  lemma ReadsElseParts(lay: Layout, n: Node, ind: nat, rest: List<Tok>)
    requires n.If? && n.els.Some? && !n.els.value.If?
    requires forall ts :: Emit(Print(lay, n.cond, ind, false), ts) == Spell(n.cond, ts)
    requires forall ts :: Emit(Print(lay, n.thn, ind, false), ts) == Spell(n.thn, ts)
    requires forall ts :: Emit(Print(lay, n.thn, ind + 1, false), ts) == Spell(n.thn, ts)
    requires forall ts :: Emit(Print(lay, n.els.value, ind, false), ts) == Spell(n.els.value, ts)
    requires forall ts :: Emit(Print(lay, n.els.value, ind + 1, false), ts) == Spell(n.els.value, ts)
    ensures Emit(PrintIf(lay, n, ind), rest) == Spell(n, rest)
  {
    EmitRules();
  }

  lemma {:induction false} ReadsBlock(lay: Layout, n: Node, ind: nat)
    requires n.Block?
    ensures forall rest {:trigger Emit(PrintBlock(lay, n, ind), rest)} ::
              Emit(PrintBlock(lay, n, ind), rest) == Spell(n, rest)
    decreases n, 2
  {
    EmitRules();
    if |n.stmts| == 1 {
      Reads(lay, n.stmts[0], ind, false);
      assert forall rest :: SpellBlock(n.stmts, rest) == Spell(n.stmts[0], K(WEnd, rest));
    }
    ReadsStatements(lay, Kw(WDo), n.stmts, ind);
  }

  lemma {:induction false} ReadsLet(lay: Layout, n: Node, ind: nat)
    requires n.Let?
    ensures forall rest {:trigger Emit(PrintLet(lay, n, ind), rest)} ::
              Emit(PrintLet(lay, n, ind), rest) == Spell(n, rest)
    decreases n, 2
  {
    EmitRules();
    ReadsTarget(lay, n.target);
    Reads(lay, n.bound, ind, false);
    Reads(lay, n.bound, ind + 1, false);
  }

  lemma {:induction false} ReadsFunction(lay: Layout, n: Node, ind: nat)
    requires n.Function?
    ensures forall rest {:trigger Emit(PrintFunction(lay, n, ind), rest)} ::
              Emit(PrintFunction(lay, n, ind), rest) == Spell(n, rest)
    decreases n, 2
  {
    ReadsTargets(lay, n.params);
    var head := if n.shorthand then Empty else Parens(PrintTargets(lay, n.params)).Then(SP);
    ReadsArrow(lay, head, n.body, ind);
    forall rest
      ensures Emit(PrintFunction(lay, n, ind), rest) == Spell(n, rest)
    {
      var body := O(Arrow, SpellBody(n.body, rest));
      assert Emit(PrintArrow(lay, head, n.body, ind), rest) == Emit(head, body);
      if !n.shorthand {
        EmitRules();
        assert Emit(head, body) == Lb(Paren, SpellTargets(n.params, Rb(Paren, body)));
      }
    }
  }

  lemma {:induction false} ReadsMacro(lay: Layout, n: Node, ind: nat)
    requires n.Macro?
    ensures forall rest {:trigger Emit(PrintMacro(lay, n, ind), rest)} ::
              Emit(PrintMacro(lay, n, ind), rest) == Spell(n, rest)
    decreases n, 2
  {
    ReadsTargets(lay, n.params);
    var head := Kw(WMacro).Then(SP).Then(Parens(PrintTargets(lay, n.params))).Then(SP);
    ReadsArrow(lay, head, n.body, ind);
    forall rest
      ensures Emit(PrintMacro(lay, n, ind), rest) == Spell(n, rest)
    {
      var body := O(Arrow, SpellBody(n.body, rest));
      assert Emit(PrintArrow(lay, head, n.body, ind), rest) == Emit(head, body);
      EmitRules();
      assert Emit(head, body) == K(WMacro, Lb(Paren, SpellTargets(n.params, Rb(Paren, body))));
    }
  }

  lemma {:induction false} ReadsPerform(lay: Layout, n: Node, ind: nat)
    requires n.Perform?
    ensures forall rest {:trigger Emit(PrintPerform(lay, n, ind), rest)} ::
              Emit(PrintPerform(lay, n, ind), rest) == Spell(n, rest)
    decreases n, 2
  {
    Reads(lay, n.effect, ind, false);
    if n.arg.Some? {
      Reads(lay, n.arg.value, ind, false);
      Reads(lay, n.arg.value, ind + 1, false);
      ReadsPerformArg(lay, n, ind);
    } else {
      EmitRules();
    }
  }

  lemma {:induction false} ReadsPerformArg(lay: Layout, n: Node, ind: nat)
    requires n.Perform? && n.arg.Some?
    requires forall rest :: Emit(Print(lay, n.effect, ind, false), rest) == Spell(n.effect, rest)
    requires forall rest :: Emit(Print(lay, n.arg.value, ind, false), rest) == Spell(n.arg.value, rest)
    requires forall rest :: Emit(Print(lay, n.arg.value, ind + 1, false), rest) == Spell(n.arg.value, rest)
    ensures forall rest {:trigger Emit(PrintPerform(lay, n, ind), rest)} ::
              Emit(PrintPerform(lay, n, ind), rest) == Spell(n, rest)
  {
    var eff := Print(lay, n.effect, ind, false);
    forall rest
      ensures Emit(PrintPerform(lay, n, ind), rest) == Spell(n, rest)
    {
      PerformWrites(eff, Print(lay, n.arg.value, ind, false), ind, rest);
      PerformWrites(eff, Print(lay, n.arg.value, ind + 1, false), ind, rest);
    }
  }

  lemma PerformWrites(eff: Doc, arg: Doc, ind: nat, rest: List<Tok>)
    ensures var ts := K(WPerform, Lb(Paren, Emit(eff, Push(Comma, Emit(arg, Rb(Paren, rest))))));
            && Emit(Kw(WPerform).Then(LPAREN).Then(eff).Then(COMMA_SP).Then(arg).Then(RPAREN), rest) == ts
            && Emit(Kw(WPerform).Then(LPAREN).Then(NewLine(ind + 1)).Then(eff).Add(Comma).Then(NewLine(ind + 1))
                    .Then(arg).Add(Comma).Then(NewLine(ind)).Then(RPAREN), rest) == ts
  {
    EmitRules();
  }

  lemma {:induction false} ReadsArray(lay: Layout, n: Node, ind: nat)
    requires n.Array?
    ensures forall rest {:trigger Emit(PrintArray(lay, n, ind), rest)} ::
              Emit(PrintArray(lay, n, ind), rest) == Spell(n, rest)
    decreases n, 2
  {
    EmitRules();
    ReadsList(lay, n.elements, ind);
  }

  lemma {:induction false} ReadsObject(lay: Layout, n: Node, ind: nat)
    requires n.Object?
    ensures forall rest {:trigger Emit(PrintObject(lay, n, ind), rest)} ::
              Emit(PrintObject(lay, n, ind), rest) == Spell(n, rest)
    decreases n, 2
  {
    EmitRules();
    ReadsEntries(lay, n.entries, ind, Empty, COMMA_SP);
    ReadsEntries(lay, n.entries, ind + 1, Blank(false, ind + 1), Cat(Tok(Comma), NewLine(0)));
  }

  lemma {:induction false} ReadsEntries(lay: Layout, es: seq<Entry>, ind: nat, lead: Doc, sep: Doc)
    requires ReadsAsNothing(lead) && ReadsAs(sep, Comma)
    ensures forall rest {:trigger Emit(PrintEntries(lay, es, ind, lead, sep), rest)} ::
              Emit(PrintEntries(lay, es, ind, lead, sep), rest) == SpellEntries(es, rest)
    decreases es, 0
  {
    EmitRules();
    if es != [] {
      ReadsEntry(lay, es[0], ind);
      ReadsEntries(lay, es[1..], ind, lead, sep);
    }
  }

  lemma {:induction false} ReadsEntry(lay: Layout, e: Entry, ind: nat)
    ensures forall rest {:trigger Emit(PrintEntry(lay, e, ind), rest)} ::
              Emit(PrintEntry(lay, e, ind), rest) == SpellEntry(e, rest)
    decreases e, 0
  {
    EmitRules();
    match e
    case SpreadEntry(x) => Reads(lay, x, ind, false);
    case Pair(key, value) =>
      Reads(lay, key, ind, false);
      Reads(lay, value, ind, false);
  }

  lemma {:induction false} ReadsChain(lay: Layout, n: Node, ind: nat)
    requires n.Chain?
    ensures forall rest {:trigger Emit(PrintChain(lay, n, ind), rest)} ::
              Emit(PrintChain(lay, n, ind), rest) == Spell(n, rest)
    decreases n, 2
  {
    EmitRules();
    var op := Op(ChainSign(n.op));
    ReadsSep(lay, n.operands, ind, false, Empty, SP.Add(op).Then(SP), op);
    if n.operands != [] {
      Reads(lay, n.operands[0], ind, false);
      ReadsSep(lay, n.operands[1..], ind + 1, false, Empty, NewLine(ind + 1).Add(op).Then(SP), op);
    }
  }

  lemma {:induction false} ReadsLoop(lay: Layout, n: Node, ind: nat)
    requires n.Loop?
    ensures forall rest {:trigger Emit(PrintLoop(lay, n, ind), rest)} ::
              Emit(PrintLoop(lay, n, ind), rest) == Spell(n, rest)
    decreases n, 2
  {
    EmitRules();
    ReadsBindings(lay, n.bindings, ind, COMMA_SP, Comma);
    ReadsLoopBody(lay, Kw(WLoop).Then(SP).Then(Parens(PrintBindings(lay, n.bindings, ind, COMMA_SP))), n.loopBody, ind);
  }

  lemma {:induction false} ReadsFor(lay: Layout, n: Node, ind: nat)
    requires n.For?
    ensures forall rest {:trigger Emit(PrintFor(lay, n, ind), rest)} ::
              Emit(PrintFor(lay, n, ind), rest) == Spell(n, rest)
    decreases n, 2
  {
    EmitRules();
    ReadsLevels(lay, n.levels, ind);
    ReadsLoopBody(lay, Kw(WFor).Then(SP).Then(Parens(PrintLevels(lay, n.levels, ind))), n.loopBody, ind);
  }

  lemma {:induction false} ReadsBindings(lay: Layout, bs: seq<Binding>, ind: nat, sep: Doc, t: Tok)
    requires ReadsAs(sep, t)
    ensures forall rest {:trigger Emit(PrintBindings(lay, bs, ind, sep), rest)} ::
              Emit(PrintBindings(lay, bs, ind, sep), rest) == SpellBindings(bs, t, rest)
    decreases bs, 0
  {
    EmitRules();
    if bs != [] {
      ReadsBinding(lay, bs[0], ind);
      ReadsBindings(lay, bs[1..], ind, sep, t);
    }
  }

  lemma {:induction false} ReadsBinding(lay: Layout, b: Binding, ind: nat)
    ensures forall rest {:trigger Emit(PrintBinding(lay, b, ind), rest)} ::
              Emit(PrintBinding(lay, b, ind), rest) == SpellBinding(b, rest)
    decreases b, 0
  {
    EmitRules();
    ReadsTarget(lay, b.target);
    Reads(lay, b.value, ind, false);
  }

  lemma {:induction false} ReadsLevels(lay: Layout, levels: seq<Level>, ind: nat)
    ensures forall rest {:trigger Emit(PrintLevels(lay, levels, ind), rest)} ::
              Emit(PrintLevels(lay, levels, ind), rest) == SpellLevels(levels, rest)
    decreases levels, 0
  {
    EmitRules();
    if levels != [] {
      ReadsLevel(lay, levels[0], ind);
      ReadsLevels(lay, levels[1..], ind);
    }
  }

  lemma {:induction false} ReadsLevel(lay: Layout, level: Level, ind: nat)
    ensures forall rest {:trigger Emit(PrintLevel(lay, level, ind), rest)} ::
              Emit(PrintLevel(lay, level, ind), rest) == SpellLevel(level, rest)
    decreases level, 0
  {
    EmitRules();
    ReadsTarget(lay, level.target);
    Reads(lay, level.collection, ind, false);
    ReadsBindings(lay, level.lets, ind, SP.Add(Keyword(WLet)).Then(SP), Keyword(WLet));
    ReadsGuard(lay, WWhen, level.whenGuard, ind);
    ReadsGuard(lay, WWhile, level.whileGuard, ind);
  }

  lemma {:induction false} ReadsGuard(lay: Layout, word: Word, guard: Option<Node>, ind: nat)
    ensures forall rest {:trigger Emit(PrintGuard(lay, word, guard, ind), rest)} ::
              Emit(PrintGuard(lay, word, guard, ind), rest) == SpellGuard(word, guard, rest)
    decreases guard, 0
  {
    EmitRules();
    if guard.Some? { Reads(lay, guard.value, ind, false); }
  }

  lemma {:induction false} ReadsMatch(lay: Layout, n: Node, ind: nat)
    requires n.Match?
    ensures forall rest {:trigger Emit(PrintMatch(lay, n, ind), rest)} ::
              Emit(PrintMatch(lay, n, ind), rest) == Spell(n, rest)
    decreases n, 2
  {
    EmitRules();
    Reads(lay, n.subject, ind, false);
    ReadsCases(lay, n.cases, ind, false);
    ReadsCases(lay, n.cases, ind, true);
  }

  lemma {:induction false} ReadsCases(lay: Layout, cases: seq<Case>, ind: nat, broken: bool)
    ensures forall rest {:trigger Emit(PrintCases(lay, cases, ind, broken), rest)} ::
              Emit(PrintCases(lay, cases, ind, broken), rest) == SpellCases(cases, rest)
    decreases cases, 0
  {
    EmitRules();
    if cases != [] {
      ReadsCase(lay, cases[0], ind, broken);
      ReadsCases(lay, cases[1..], ind, broken);
    }
  }

  lemma {:induction false} ReadsCase(lay: Layout, c: Case, ind: nat, broken: bool)
    ensures forall rest {:trigger Emit(PrintCase(lay, c, ind, broken), rest)} ::
              Emit(PrintCase(lay, c, ind, broken), rest) == SpellCase(c, rest)
    decreases c, 0
  {
    EmitRules();
    var at := if broken then ind + 1 else ind;
    ReadsTarget(lay, c.pattern);
    ReadsGuard(lay, WWhen, c.guard, at);
    Reads(lay, c.result, at, false);
    Reads(lay, c.result, ind + 2, false);
  }

  lemma {:induction false} ReadsSegments(lay: Layout, segments: seq<Node>)
    ensures forall rest {:trigger Emit(PrintSegments(lay, segments), rest)} ::
              Emit(PrintSegments(lay, segments), rest) == SpellSegments(segments, rest)
    decreases segments, 0
  {
    EmitRules();
    if segments != [] {
      Reads(lay, segments[0], 0, false);
      ReadsSegments(lay, segments[1..]);
    }
  }

  lemma TemplateSeparators(ind: nat)
    ensures ReadsAsNothing(Empty) && ReadsAsNothing(Blank(false, ind + 1))
    ensures ReadsAs(Cat(Tok(Semicolon), NewLine(0)), Semicolon)
  {
    EmitRules();
  }

  lemma {:induction false} ReadsCodeTemplate(lay: Layout, n: Node, ind: nat)
    requires n.CodeTmpl?
    ensures forall rest {:trigger Emit(PrintTemplate(lay, n, ind), rest)} ::
              Emit(PrintTemplate(lay, n, ind), rest) == Spell(n, rest)
    decreases n, 2
  {
    TemplateSeparators(ind);
    if |n.body| == 1 { ReadsSpliced(lay, n, 0, ind, Empty, Empty); }
    ReadsSpliced(lay, n, 0, ind + 1, Blank(false, ind + 1), Cat(Tok(Semicolon), NewLine(0)));
    forall rest
      ensures Emit(PrintTemplate(lay, n, ind), rest) == Spell(n, rest)
    {
      EmitRules();
    }
  }

  lemma {:induction false} ReadsSpliced(lay: Layout, n: Node, k: nat, ind: nat, lead: Doc, sep: Doc)
    requires ReadsAsNothing(lead)
    requires n.CodeTmpl? && k <= |n.body| && (ReadsAs(sep, Semicolon) || |n.body| == k + 1)
    ensures forall rest {:trigger Emit(PrintSpliced(lay, n, k, ind, lead, sep), rest)} ::
              Emit(PrintSpliced(lay, n, k, ind, lead, sep), rest) == SpellTemplate(n, k, rest)
    decreases n, 1, |n.body| - k
  {
    EmitRules();
    if k < |n.body| {
      ReadsTemplateStatement(lay, n, k, ind);
      if k + 1 < |n.body| { ReadsSpliced(lay, n, k + 1, ind, lead, sep); }
    }
  }

  lemma {:induction false} ReadsTemplateStatement(lay: Layout, n: Node, k: nat, ind: nat)
    requires n.CodeTmpl? && k < |n.body|
    ensures forall rest {:trigger Emit(PrintTemplateStatement(lay, n, k, ind), rest)} ::
              Emit(PrintTemplateStatement(lay, n, k, ind), rest) == SpellTemplateStatement(n, k, rest)
    decreases n, 0
  {
    EmitRules();
    var stmt := n.body[k];
    if !stmt.Splice? {
      Reads(lay, stmt, ind, true);
    } else if stmt.index < |n.splices| {
      Reads(lay, n.splices[stmt.index], ind, false);
    }
  }

  lemma {:induction false} ReadsHandler(lay: Layout, n: Node, ind: nat)
    requires n.Handler?
    ensures forall rest {:trigger Emit(PrintHandler(lay, n, ind), rest)} ::
              Emit(PrintHandler(lay, n, ind), rest) == Spell(n, rest)
    decreases n, 2
  {
    EmitRules();
    ReadsClauses(lay, n.clauses, ind + 1, SP);
    ReadsClauses(lay, n.clauses, ind, SP);
    ReadsClauses(lay, n.clauses, ind + 1, NewLine(ind + 1));
    ReadsTransform(lay, n.transform, ind);
  }

  lemma {:induction false} ReadsHandlerBody(lay: Layout, body: seq<Node>, ind: nat)
    ensures forall rest {:trigger Emit(PrintHandlerBody(lay, body, ind), rest)} ::
              Emit(PrintHandlerBody(lay, body, ind), rest) == SpellBody(body, rest)
    decreases body, 2
  {
    EmitRules();
    if |body| == 1 { Reads(lay, body[0], ind, false); }
    ReadsStatements(lay, Kw(WDo), body, ind);
  }

  lemma {:induction false} ReadsClauses(lay: Layout, cs: seq<Clause>, ind: nat, lead: Doc)
    requires ReadsAsNothing(lead)
    ensures forall rest {:trigger Emit(PrintClauses(lay, cs, ind, lead), rest)} ::
              Emit(PrintClauses(lay, cs, ind, lead), rest) == SpellClauses(cs, rest)
    decreases cs, 0
  {
    EmitRules();
    if cs != [] {
      ReadsClause(lay, cs[0], ind);
      ReadsClauses(lay, cs[1..], ind, lead);
    }
  }

  lemma {:induction false} ReadsClause(lay: Layout, c: Clause, ind: nat)
    ensures forall rest {:trigger Emit(PrintClause(lay, c, ind), rest)} ::
              Emit(PrintClause(lay, c, ind), rest) == SpellClause(c, rest)
    decreases c, 0
  {
    EmitRules();
    ReadsTargets(lay, c.params);
    ReadsHandlerBody(lay, c.body, ind);
  }

  lemma {:induction false} ReadsTransform(lay: Layout, t: Option<Transform>, ind: nat)
    ensures forall rest {:trigger Emit(PrintTransform(lay, t, ind), rest)} ::
              Emit(PrintTransform(lay, t, ind), rest) == SpellTransform(t, rest)
    decreases t, 0
  {
    EmitRules();
    if t.Some? {
      ReadsTarget(lay, t.value.param);
      ReadsHandlerBody(lay, t.value.body, ind + 1);
    }
  }

  lemma {:induction false} ReadsWithHandler(lay: Layout, n: Node, ind: nat)
    requires n.WithHandler?
    ensures forall rest {:trigger Emit(PrintWithHandler(lay, n, ind), rest)} ::
              Emit(PrintWithHandler(lay, n, ind), rest) == Spell(n, rest)
    decreases n, 2
  {
    EmitRules();
    Reads(lay, n.handler, ind, false);
    ReadsSep(lay, n.body, ind, false, Blank(false, ind), Cat(Tok(Semicolon), NewLine(0)), Semicolon);
  }

  lemma {:induction false} ReadsDefault(lay: Layout, default: Option<Node>)
    ensures forall rest {:trigger Emit(PrintDefault(lay, default), rest)} ::
              Emit(PrintDefault(lay, default), rest) == SpellDefault(default, rest)
    decreases default, 0
  {
    EmitRules();
    if default.Some? { Reads(lay, default.value, 0, false); }
  }

  lemma {:induction false} ReadsTarget(lay: Layout, t: Target)
    ensures forall rest {:trigger Emit(PrintTarget(lay, t), rest)} ::
              Emit(PrintTarget(lay, t), rest) == SpellTarget(t, rest)
    decreases t, 1
  {
    EmitRules();
    match t
    case SymbolTarget(_, default) => ReadsDefault(lay, default);
    case RestTarget(_, default) => ReadsDefault(lay, default);
    case ArrayTarget(items, default) => ReadsItems(lay, items); ReadsDefault(lay, default);
    case ObjectTarget(fields, default) => ReadsFields(lay, fields); ReadsDefault(lay, default);
    case LiteralTarget(e) => Reads(lay, e, 0, false);
    case Wildcard =>
    case UnknownTarget(_) =>
  }

  lemma {:induction false} ReadsTargets(lay: Layout, ts: seq<Target>)
    ensures forall rest {:trigger Emit(PrintTargets(lay, ts), rest)} ::
              Emit(PrintTargets(lay, ts), rest) == SpellTargets(ts, rest)
    decreases ts, 0
  {
    EmitRules();
    if ts != [] {
      ReadsTarget(lay, ts[0]);
      ReadsTargets(lay, ts[1..]);
    }
  }

  lemma {:induction false} ReadsItems(lay: Layout, ts: seq<Option<Target>>)
    ensures forall rest {:trigger Emit(PrintItems(lay, ts), rest)} ::
              Emit(PrintItems(lay, ts), rest) == SpellItems(ts, rest)
    decreases ts, 0
  {
    EmitRules();
    if ts != [] {
      ReadsItem(lay, ts[0]);
      ReadsItems(lay, ts[1..]);
    }
  }

  lemma {:induction false} ReadsFields(lay: Layout, fs: seq<Field>)
    ensures forall rest {:trigger Emit(PrintFields(lay, fs), rest)} ::
              Emit(PrintFields(lay, fs), rest) == SpellFields(fs, rest)
    decreases fs, 0
  {
    EmitRules();
    if fs != [] {
      ReadsField(lay, fs[0]);
      ReadsFields(lay, fs[1..]);
    }
  }

  lemma {:induction false} ReadsItem(lay: Layout, t: Option<Target>)
    ensures forall rest {:trigger Emit(PrintItem(lay, t), rest)} :: Emit(PrintItem(lay, t), rest) == SpellItem(t, rest)
    decreases t, 0
  {
    EmitRules();
    if t.Some? { ReadsTarget(lay, t.value); }
  }

  lemma {:induction false} ReadsField(lay: Layout, f: Field)
    ensures forall rest {:trigger Emit(PrintField(lay, f), rest)} ::
              Emit(PrintField(lay, f), rest) == SpellField(f, rest)
    decreases f, 0
  {
    EmitRules();
    ReadsTarget(lay, f.target);
  }
}
