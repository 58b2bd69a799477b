/** Logical chains without operands: they are what a layout can show or hide, and there is nothing else. */
module EmptyChains {
  import opened Options
  import opened Syntax
  import opened Docs
  import opened Printer
  import opened Spelling
  import opened LayoutIndependence

  /** No logical chain among what is printed is without operands. */
  predicate Filled(n: Node)
    decreases n, 2, 0
  {
    match n
    case Call(fn, args, _) => Filled(fn) && FilledAll(args)
    case MacroCall(fn, operand) => Filled(fn) && Filled(operand)
    case If(cond, thn, els) => els.Some? ==> Filled(cond) && Filled(thn) && Filled(els.value)
    case Block(stmts) => FilledAll(stmts)
    case Let(t, v) => FilledTarget(t) && Filled(v)
    case Function(params, body, shorthand) =>
      (!shorthand ==> FilledTargets(params)) && FilledAll(body)
    case Macro(params, body) => FilledTargets(params) && FilledAll(body)
    case Perform(eff, arg) => Filled(eff) && (arg.Some? ==> Filled(arg.value))
    case Array(elements) => FilledAll(elements)
    case Object(entries) => FilledEntries(entries)
    case Spread(x) => Filled(x)
    case Chain(_, operands) => operands != [] && FilledAll(operands)
    case Recur(operands) => FilledAll(operands)
    case Loop(bindings, body) => FilledBindings(bindings) && Filled(body)
    case For(levels, body) => FilledLevels(levels) && Filled(body)
    case Match(subject, cases) => Filled(subject) && FilledCases(cases)
    case TmplStr(segments) => FilledAll(segments)
    case Wrap(_, x) => Filled(x)
    case CodeTmpl(_, _) => FilledFrom(n, 0)
    case Handler(clauses, transform) => FilledClauses(clauses) && FilledTransform(transform)
    case Resume(arg) => arg.Some? ==> Filled(arg.value)
    case WithHandler(h, body) => Filled(h) && FilledAll(body)
    case Pattern(t) => FilledTarget(t)
    case _ => true
  }

  predicate FilledAll(ns: seq<Node>)
    decreases ns
  {
    ns == [] || (Filled(ns[0]) && FilledAll(ns[1..]))
  }

  predicate FilledTargets(ts: seq<Target>)
    decreases ts
  {
    ts == [] || (FilledTarget(ts[0]) && FilledTargets(ts[1..]))
  }

  predicate FilledItems(ts: seq<Option<Target>>)
    decreases ts
  {
    ts == [] || (FilledItem(ts[0]) && FilledItems(ts[1..]))
  }

  predicate FilledFields(fs: seq<Field>)
    decreases fs
  {
    fs == [] || (FilledField(fs[0]) && FilledFields(fs[1..]))
  }

  predicate FilledEntries(es: seq<Entry>)
    decreases es
  {
    es == [] || (FilledEntry(es[0]) && FilledEntries(es[1..]))
  }

  predicate FilledBindings(bs: seq<Binding>)
    decreases bs
  {
    bs == [] || (FilledBinding(bs[0]) && FilledBindings(bs[1..]))
  }

  predicate FilledLevels(levels: seq<Level>)
    decreases levels
  {
    levels == [] || (FilledLevel(levels[0]) && FilledLevels(levels[1..]))
  }

  predicate FilledCases(cases: seq<Case>)
    decreases cases
  {
    cases == [] || (FilledCase(cases[0]) && FilledCases(cases[1..]))
  }

  predicate FilledClauses(clauses: seq<Clause>)
    decreases clauses
  {
    clauses == [] || (FilledClause(clauses[0]) && FilledClauses(clauses[1..]))
  }

  predicate FilledDefault(default: Option<Node>)
    decreases default
  {
    default.Some? ==> Filled(default.value)
  }

  predicate FilledTarget(t: Target)
    decreases t
  {
    match t
    case SymbolTarget(_, default) => FilledDefault(default)
    case RestTarget(_, default) => FilledDefault(default)
    case ArrayTarget(items, default) => FilledItems(items) && FilledDefault(default)
    case ObjectTarget(fields, default) => FilledFields(fields) && FilledDefault(default)
    case LiteralTarget(e) => Filled(e)
    case _ => true
  }

  predicate FilledItem(t: Option<Target>)
    decreases t
  {
    t.Some? ==> FilledTarget(t.value)
  }

  /** Of a rest field only the name is printed. */
  predicate FilledField(f: Field)
    decreases f
  {
    f.target.RestTarget? || FilledTarget(f.target)
  }

  predicate FilledEntry(e: Entry)
    decreases e
  {
    match e case SpreadEntry(x) => Filled(x) case Pair(key, value) => Filled(key) && Filled(value)
  }

  predicate FilledBinding(b: Binding)
    decreases b
  {
    FilledTarget(b.target) && Filled(b.value)
  }

  predicate FilledGuard(guard: Option<Node>)
    decreases guard
  {
    guard.Some? ==> Filled(guard.value)
  }

  predicate FilledLevel(l: Level)
    decreases l
  {
    && FilledTarget(l.target) && Filled(l.collection) && FilledBindings(l.lets)
    && FilledGuard(l.whenGuard) && FilledGuard(l.whileGuard)
  }

  predicate FilledCase(c: Case)
    decreases c
  {
    FilledTarget(c.pattern) && FilledGuard(c.guard) && Filled(c.result)
  }

  predicate FilledClause(c: Clause)
    decreases c
  {
    FilledTargets(c.params) && FilledAll(c.body)
  }

  predicate FilledTransform(t: Option<Transform>)
    decreases t
  {
    t.Some? ==> FilledTarget(t.value.param) && FilledAll(t.value.body)
  }

  /** The statements of a template from the `k`-th on; for a splice, what is spliced in. */
  predicate FilledFrom(n: Node, k: nat)
    requires n.CodeTmpl? && k <= |n.body|
    decreases n, 1, |n.body| - k
  {
    k == |n.body| || (FilledStatement(n, k) && FilledFrom(n, k + 1))
  }

  predicate FilledStatement(n: Node, k: nat)
    requires n.CodeTmpl? && k < |n.body|
    decreases n, 0, 0
  {
    var stmt := n.body[k];
    if stmt.Splice? then stmt.index < |n.splices| ==> Filled(n.splices[stmt.index]) else Filled(stmt)
  }

  lemma FilledOne(ns: seq<Node>)
    requires |ns| == 1
    ensures FilledAll(ns) <==> Filled(ns[0])
  {
  }

  lemma FilledTwo(ns: seq<Node>)
    requires |ns| == 2
    ensures FilledAll(ns) <==> Filled(ns[0]) && Filled(ns[1])
  {
    FilledOne(ns[1..]);
  }

  lemma {:induction false} FilledLast(ns: seq<Node>)
    requires ns != []
    ensures FilledAll(ns) <==> FilledAll(ns[..|ns| - 1]) && Filled(ns[|ns| - 1])
    decreases |ns|
  {
    if |ns| == 1 {
      FilledOne(ns);
    } else {
      FilledLast(ns[1..]);
      assert ns[1..][..|ns| - 2] == ns[..|ns| - 1][1..];
    }
  }

  // What is shown.

  /** An absent operand is shown. */
  predicate Shows(d: Doc) { d == Tok(Undefined) || (d.Cat? && (Shows(d.left) || Shows(d.right))) }

  /** Shows as rewrite rules. */
  lemma ShowsRules()
    ensures !Shows(Empty)
    ensures forall b, i {:trigger Shows(Blank(b, i))} :: !Shows(Blank(b, i))
    ensures forall t {:trigger Shows(Tok(t))} :: Shows(Tok(t)) <==> t.Undefined?
    ensures forall a, b {:trigger Shows(Cat(a, b))} :: Shows(Cat(a, b)) <==> Shows(a) || Shows(b)
  {
  }

  lemma {:induction false} ShowsWritten(d: Doc, rest: List<Tok>)
    ensures Has(Write(d, rest), Undefined) <==> Shows(d) || Has(rest, Undefined)
  {
    if d.Cat? {
      ShowsWritten(d.right, rest);
      ShowsWritten(d.left, Write(d.right, rest));
    }
  }

  /** The empty text fits on its line at every indent, or at none. */
  ghost predicate Always(lay: Layout) { lay.oneLine(Empty) && forall ind: nat :: lay.fits(Empty, ind) }
  ghost predicate Never(lay: Layout) { forall ind: nat :: !(lay.oneLine(Empty) && lay.fits(Empty, ind)) }

  /** Only a chain without operands is ever shown, and only if the empty text does not fit. */
  ghost predicate Fair(lay: Layout, d: Doc, filled: bool) {
    (Shows(d) ==> !filled && !Always(lay)) && (Never(lay) && !filled ==> Shows(d))
  }

  lemma {:induction false} ShowsNode(lay: Layout, n: Node, ind: nat, root: bool)
    ensures Fair(lay, Print(lay, n, ind, root), Filled(n))
    decreases n, 6
  {
    if IsAtom(n) {
      ShowsRules();
    } else if IsWrapped(n) {
      ShowsWrapped(lay, n, ind, root);
    } else if IsStatement(n) {
      ShowsStatement(lay, n, ind, root);
    } else {
      ShowsExpression(lay, n, ind, root);
    }
  }

  lemma {:induction false} ShowsWrapped(lay: Layout, n: Node, ind: nat, root: bool)
    requires IsWrapped(n)
    ensures Fair(lay, Print(lay, n, ind, root), Filled(n))
    decreases n, 5
  {
    ShowsRules();
    match n
    case Recur(operands) => ShowsArguments(lay, Kw(WRecur), operands, ind);
    case Spread(x) => ShowsNode(lay, x, ind, false);
    case TmplStr(segments) => ShowsSegments(lay, segments);
    case Wrap(_, x) => ShowsNode(lay, x, ind, false);
    case Resume(arg) => if arg.Some? { ShowsNode(lay, arg.value, ind, false); }
    case Pattern(t) => ShowsTarget(lay, t);
  }

  lemma {:induction false} ShowsStatement(lay: Layout, n: Node, ind: nat, root: bool)
    requires IsStatement(n)
    ensures Fair(lay, Print(lay, n, ind, root), Filled(n))
    decreases n, 5
  {
    match n
    case MacroCall(_, _) => ShowsMacroCall(lay, n, ind, root);
    case Block(_) => ShowsBlock(lay, n, ind);
    case Let(_, _) => ShowsLet(lay, n, ind);
    case WithHandler(_, _) => ShowsWithHandler(lay, n, ind);
    case Handler(_, _) => ShowsHandler(lay, n, ind);
    case CodeTmpl(_, _) => ShowsTemplate(lay, n, ind);
    case Loop(_, _) => ShowsLoop(lay, n, ind);
    case For(_, _) => ShowsFor(lay, n, ind);
  }

  lemma {:induction false} ShowsExpression(lay: Layout, n: Node, ind: nat, root: bool)
    requires !IsAtom(n) && !IsWrapped(n) && !IsStatement(n)
    ensures Fair(lay, Print(lay, n, ind, root), Filled(n))
    decreases n, 5
  {
    match n
    case Call(_, _, _) => ShowsCall(lay, n, ind);
    case If(_, _, _) => ShowsIf(lay, n, ind);
    case Function(_, _, _) => ShowsFunction(lay, n, ind);
    case Macro(_, _) => ShowsMacro(lay, n, ind);
    case Perform(_, _) => ShowsPerform(lay, n, ind);
    case Array(_) => ShowsArray(lay, n, ind);
    case Object(_) => ShowsObject(lay, n, ind);
    case Chain(_, _) => ShowsChain(lay, n, ind);
    case Match(_, _) => ShowsMatch(lay, n, ind);
  }

  lemma {:induction false} ShowsSep(lay: Layout, ns: seq<Node>, ind: nat, root: bool, lead: Doc, sep: Doc)
    requires !Shows(lead) && !Shows(sep)
    ensures Fair(lay, PrintSep(lay, ns, ind, root, lead, sep), FilledAll(ns))
    decreases ns, 0
  {
    ShowsRules();
    if ns != [] {
      ShowsNode(lay, ns[0], ind, root);
      ShowsSep(lay, ns[1..], ind, root, lead, sep);
    }
  }

  lemma {:induction false} ShowsSpine(lay: Layout, n: Node, chain: seq<Node>, ind: nat, sep: Doc)
    requires !Shows(sep) && forall x :: x in chain ==> x < n
    ensures Fair(lay, PrintSpine(lay, n, chain, ind, sep), FilledAll(chain))
    decreases n, 0, |chain|
  {
    ShowsRules();
    if chain != [] {
      assert chain[0] in chain && forall x :: x in chain[1..] ==> x in chain;
      ShowsNode(lay, chain[0], ind, false);
      ShowsSpine(lay, n, chain[1..], ind, sep);
    }
  }

  lemma {:induction false} ShowsOperand(lay: Layout, outer: BinOp, operand: Node, isRight: bool, ind: nat)
    ensures Fair(lay, PrintOperand(lay, outer, operand, isRight, ind), Filled(operand))
    decreases operand, 7
  {
    ShowsRules();
    ShowsNode(lay, operand, ind, false);
  }

  lemma {:induction false} ShowsCallee(lay: Layout, fn: Node, ind: nat)
    ensures Fair(lay, PrintCallee(lay, fn, ind), Filled(fn))
    decreases fn, 7
  {
    ShowsRules();
    ShowsNode(lay, fn, ind, false);
  }

  lemma {:induction false} ShowsCall(lay: Layout, n: Node, ind: nat)
    requires n.Call?
    ensures Fair(lay, PrintCall(lay, n, ind), Filled(n))
    decreases n, 2
  {
    ShowsRules();
    if IsNegation(n) {
      FilledTwo(n.args);
      assert Filled(n.fn) && Filled(n.args[0]);
      ShowsNode(lay, n.args[1], ind, false);
    } else if IsSafeAccess(n) {
      FilledTwo(n.args);
      assert Filled(n.fn) && Filled(n.args[1]);
      ShowsNode(lay, n.args[0], ind, false);
    } else if IsPipe(n) {
      ShowsPipe(lay, n, ind);
    } else if IsInfix(n) {
      FilledTwo(n.args);
      assert Filled(n.fn);
      ShowsOperand(lay, n.fn.builtin.op, n.args[0], false, ind);
      ShowsOperand(lay, n.fn.builtin.op, n.args[1], true, ind);
    } else if IsNamedInfix(n) {
      ShowsNamedInfix(lay, n, ind);
    } else {
      ShowsApplication(lay, n, ind);
    }
  }

  lemma {:induction false} ShowsPipe(lay: Layout, n: Node, ind: nat)
    requires IsPipe(n) && !IsNegation(n) && !IsSafeAccess(n)
    ensures Fair(lay, PrintCall(lay, n, ind), Filled(n))
    decreases n, 1
  {
    ShowsRules();
    ShowsSpine(lay, n, PipeChain(n), ind, SP.Add(Op(PipeSign)).Then(SP));
    ShowsSpine(lay, n, PipeChain(n), ind + 1, NewLine(ind + 1).Add(Op(PipeSign)).Then(SP));
    FilledChain(n);
  }

  lemma {:induction false} FilledSpine(n: Node)
    ensures FilledAll(PipeSpine(n)) <==> Filled(n)
    decreases n
  {
    if IsPipeStep(n) && n.hints.isPipe {
      FilledSpine(n.args[0]);
      FilledOne(n.args);
      FilledLast(PipeSpine(n));
    } else {
      FilledOne([n]);
    }
  }

  lemma FilledChain(n: Node)
    requires IsPipe(n)
    ensures FilledAll(PipeChain(n)) <==> Filled(n)
  {
    FilledSpine(n.args[0]);
    FilledOne(n.args);
    FilledLast(PipeChain(n));
  }

  lemma {:induction false} ShowsNamedInfix(lay: Layout, n: Node, ind: nat)
    requires IsNamedInfix(n)
    ensures Fair(lay, PrintNamedInfix(lay, n, ind), Filled(n))
    decreases n, 1
  {
    ShowsRules();
    FilledTwo(n.args);
    assert Filled(n.fn);
    ShowsNode(lay, n.args[0], ind, false);
    ShowsNode(lay, n.args[1], ind, false);
    ShowsNode(lay, n.args[1], ind + 1, false);
  }

  lemma {:induction false} ShowsApplication(lay: Layout, n: Node, ind: nat)
    requires n.Call?
    ensures Fair(lay, PrintApplication(lay, n, ind), Filled(n))
    decreases n, 1
  {
    ShowsRules();
    ShowsCallee(lay, n.fn, ind);
    ShowsSep(lay, n.args, ind, false, Empty, COMMA_SP);
    ShowsBrokenList(lay, n.args, ind);
    var fn := PrintCallee(lay, n.fn, ind);
    if HangsLambda(lay, n, fn, ind) { ShowsHanging(lay, n, fn, ind); }
  }

  lemma {:induction false} ShowsHanging(lay: Layout, n: Node, fn: Doc, ind: nat)
    requires n.Call? && |n.args| >= 2 && Fair(lay, fn, Filled(n.fn))
    ensures Fair(lay, PrintHanging(lay, n, fn, ind), Filled(n))
    decreases n, 0
  {
    ShowsRules();
    var k := |n.args| - 1;
    ShowsSep(lay, n.args[..k], ind, false, Empty, COMMA_SP);
    ShowsNode(lay, n.args[k], ind, false);
    FilledLast(n.args);
  }

  lemma {:induction false} ShowsBrokenList(lay: Layout, ns: seq<Node>, ind: nat)
    ensures Fair(lay, PrintBrokenList(lay, ns, ind), FilledAll(ns))
    decreases ns, 1
  {
    ShowsRules();
    ShowsSep(lay, ns, ind + 1, false, Blank(false, ind + 1), Cat(Tok(Comma), NewLine(0)));
  }

  lemma {:induction false} ShowsArguments(lay: Layout, name: Doc, ns: seq<Node>, ind: nat)
    requires !Shows(name)
    ensures Fair(lay, PrintArguments(lay, name, ns, ind), FilledAll(ns))
    decreases ns, 2
  {
    ShowsRules();
    ShowsSep(lay, ns, ind, false, Empty, COMMA_SP);
    ShowsBrokenList(lay, ns, ind);
  }

  lemma {:induction false} ShowsMacroCall(lay: Layout, n: Node, ind: nat, root: bool)
    requires n.MacroCall?
    ensures Fair(lay, PrintMacroCall(lay, n, ind, root), Filled(n))
    decreases n, 2
  {
    ShowsRules();
    ShowsNode(lay, n.fn, ind, false);
    ShowsNode(lay, n.operand, ind, true);
    ShowsNode(lay, n.operand, ind, false);
    ShowsNode(lay, n.operand, ind + 1, false);
  }

  lemma {:induction false} ShowsIf(lay: Layout, n: Node, ind: nat)
    requires n.If?
    ensures Fair(lay, PrintIf(lay, n, ind), Filled(n))
    decreases n, 2
  {
    ShowsRules();
    if n.els.Some? {
      var els := n.els.value;
      ShowsNode(lay, n.cond, ind, false);
      ShowsNode(lay, n.thn, ind, false);
      ShowsNode(lay, n.thn, ind + 1, false);
      if els.If? {
        ShowsIf(lay, els, ind);
      } else {
        ShowsNode(lay, els, ind, false);
        ShowsNode(lay, els, ind + 1, false);
      }
    }
  }

  lemma {:induction false} ShowsStatements(lay: Layout, opener: Doc, filled: bool, stmts: seq<Node>, ind: nat)
    requires Fair(lay, opener, filled)
    ensures Fair(lay, PrintStatements(lay, opener, stmts, ind), filled && FilledAll(stmts))
    decreases stmts, 1
  {
    ShowsRules();
    ShowsSep(lay, stmts, ind + 1, true, Blank(false, ind + 1), Cat(Tok(Semicolon), NewLine(0)));
  }

  lemma {:induction false} ShowsBlock(lay: Layout, n: Node, ind: nat)
    requires n.Block?
    ensures Fair(lay, PrintBlock(lay, n, ind), Filled(n))
    decreases n, 2
  {
    ShowsRules();
    if |n.stmts| == 1 {
      FilledOne(n.stmts);
      ShowsNode(lay, n.stmts[0], ind, false);
    }
    ShowsStatements(lay, Kw(WDo), true, n.stmts, ind);
  }

  lemma {:induction false} ShowsLet(lay: Layout, n: Node, ind: nat)
    requires n.Let?
    ensures Fair(lay, PrintLet(lay, n, ind), Filled(n))
    decreases n, 2
  {
    ShowsRules();
    ShowsTarget(lay, n.target);
    ShowsNode(lay, n.bound, ind, false);
    ShowsNode(lay, n.bound, ind + 1, false);
  }

  lemma {:induction false} ShowsFunction(lay: Layout, n: Node, ind: nat)
    requires n.Function?
    ensures Fair(lay, PrintFunction(lay, n, ind), Filled(n))
    decreases n, 2
  {
    ShowsRules();
    ShowsTargets(lay, n.params);
    var head := if n.shorthand then Empty else Parens(PrintTargets(lay, n.params)).Then(SP);
    ShowsArrow(lay, head, n.shorthand || FilledTargets(n.params), n.body, ind);
  }

  lemma {:induction false} ShowsMacro(lay: Layout, n: Node, ind: nat)
    requires n.Macro?
    ensures Fair(lay, PrintMacro(lay, n, ind), Filled(n))
    decreases n, 2
  {
    ShowsRules();
    ShowsTargets(lay, n.params);
    var head := Kw(WMacro).Then(SP).Then(Parens(PrintTargets(lay, n.params))).Then(SP);
    ShowsArrow(lay, head, FilledTargets(n.params), n.body, ind);
  }

  lemma {:induction false} ShowsArrow(lay: Layout, head: Doc, filled: bool, body: seq<Node>, ind: nat)
    requires Fair(lay, head, filled)
    ensures Fair(lay, PrintArrow(lay, head, body, ind), filled && FilledAll(body))
    decreases body, 2
  {
    ShowsRules();
    if |body| == 1 {
      FilledOne(body);
      ShowsNode(lay, body[0], ind, false);
      ShowsNode(lay, body[0], ind + 1, false);
    }
    ShowsStatements(lay, head.Add(Op(Arrow)).Then(SP).Add(Keyword(WDo)), filled, body, ind);
  }

  lemma {:induction false} ShowsPerform(lay: Layout, n: Node, ind: nat)
    requires n.Perform?
    ensures Fair(lay, PrintPerform(lay, n, ind), Filled(n))
    decreases n, 2
  {
    ShowsRules();
    ShowsNode(lay, n.effect, ind, false);
    if n.arg.Some? {
      ShowsNode(lay, n.arg.value, ind, false);
      ShowsNode(lay, n.arg.value, ind + 1, false);
    }
  }

  lemma {:induction false} ShowsArray(lay: Layout, n: Node, ind: nat)
    requires n.Array?
    ensures Fair(lay, PrintArray(lay, n, ind), Filled(n))
    decreases n, 2
  {
    ShowsRules();
    ShowsSep(lay, n.elements, ind, false, Empty, COMMA_SP);
    ShowsBrokenList(lay, n.elements, ind);
  }

  lemma {:induction false} ShowsObject(lay: Layout, n: Node, ind: nat)
    requires n.Object?
    ensures Fair(lay, PrintObject(lay, n, ind), Filled(n))
    decreases n, 2
  {
    ShowsRules();
    ShowsEntries(lay, n.entries, ind, Empty, COMMA_SP);
    ShowsEntries(lay, n.entries, ind + 1, Blank(false, ind + 1), Cat(Tok(Comma), NewLine(0)));
  }

  lemma {:induction false} ShowsEntries(lay: Layout, es: seq<Entry>, ind: nat, lead: Doc, sep: Doc)
    requires !Shows(lead) && !Shows(sep)
    ensures Fair(lay, PrintEntries(lay, es, ind, lead, sep), FilledEntries(es))
    decreases es, 0
  {
    ShowsRules();
    if es != [] {
      ShowsEntry(lay, es[0], ind);
      ShowsEntries(lay, es[1..], ind, lead, sep);
    }
  }

  lemma {:induction false} ShowsEntry(lay: Layout, e: Entry, ind: nat)
    ensures Fair(lay, PrintEntry(lay, e, ind), FilledEntry(e))
    decreases e, 0
  {
    ShowsRules();
    match e
    case SpreadEntry(x) => ShowsNode(lay, x, ind, false);
    case Pair(key, value) =>
      ShowsNode(lay, key, ind, false);
      ShowsNode(lay, value, ind, false);
  }

  lemma {:induction false} ShowsChain(lay: Layout, n: Node, ind: nat)
    requires n.Chain?
    ensures Fair(lay, PrintChain(lay, n, ind), Filled(n))
    decreases n, 2
  {
    ShowsRules();
    var op := Op(ChainSign(n.op));
    if n.operands != [] {
      if |n.operands| == 1 { FilledOne(n.operands); }
      assert Filled(n) <==> FilledAll(n.operands);
      ShowsSep(lay, n.operands, ind, false, Empty, SP.Add(op).Then(SP));
      ShowsNode(lay, n.operands[0], ind, false);
      ShowsSep(lay, n.operands[1..], ind + 1, false, Empty, NewLine(ind + 1).Add(op).Then(SP));
    } else {
      assert PrintSep(lay, n.operands, ind, false, Empty, SP.Add(op).Then(SP)) == Empty;
    }
  }

  lemma {:induction false} ShowsLoopBody(lay: Layout, head: Doc, filled: bool, body: Node, ind: nat)
    requires Fair(lay, head, filled)
    ensures Fair(lay, PrintLoopBody(lay, head, body, ind), filled && Filled(body))
    decreases body, 7
  {
    ShowsRules();
    ShowsNode(lay, body, ind, true);
    ShowsNode(lay, body, ind + 1, true);
  }

  lemma {:induction false} ShowsLoop(lay: Layout, n: Node, ind: nat)
    requires n.Loop?
    ensures Fair(lay, PrintLoop(lay, n, ind), Filled(n))
    decreases n, 2
  {
    ShowsRules();
    ShowsBindings(lay, n.bindings, ind, COMMA_SP);
    var head := Kw(WLoop).Then(SP).Then(Parens(PrintBindings(lay, n.bindings, ind, COMMA_SP)));
    ShowsLoopBody(lay, head, FilledBindings(n.bindings), n.loopBody, ind);
  }

  lemma {:induction false} ShowsFor(lay: Layout, n: Node, ind: nat)
    requires n.For?
    ensures Fair(lay, PrintFor(lay, n, ind), Filled(n))
    decreases n, 2
  {
    ShowsRules();
    ShowsLevels(lay, n.levels, ind);
    var head := Kw(WFor).Then(SP).Then(Parens(PrintLevels(lay, n.levels, ind)));
    ShowsLoopBody(lay, head, FilledLevels(n.levels), n.loopBody, ind);
  }

  lemma {:induction false} ShowsBindings(lay: Layout, bs: seq<Binding>, ind: nat, sep: Doc)
    requires !Shows(sep)
    ensures Fair(lay, PrintBindings(lay, bs, ind, sep), FilledBindings(bs))
    decreases bs, 0
  {
    ShowsRules();
    if bs != [] {
      ShowsBinding(lay, bs[0], ind);
      ShowsBindings(lay, bs[1..], ind, sep);
    }
  }

  lemma {:induction false} ShowsBinding(lay: Layout, b: Binding, ind: nat)
    ensures Fair(lay, PrintBinding(lay, b, ind), FilledBinding(b))
    decreases b, 0
  {
    ShowsRules();
    ShowsTarget(lay, b.target);
    ShowsNode(lay, b.value, ind, false);
  }

  lemma {:induction false} ShowsLevels(lay: Layout, levels: seq<Level>, ind: nat)
    ensures Fair(lay, PrintLevels(lay, levels, ind), FilledLevels(levels))
    decreases levels, 0
  {
    ShowsRules();
    if levels != [] {
      ShowsLevel(lay, levels[0], ind);
      ShowsLevels(lay, levels[1..], ind);
    }
  }

  lemma {:induction false} ShowsLevel(lay: Layout, level: Level, ind: nat)
    ensures Fair(lay, PrintLevel(lay, level, ind), FilledLevel(level))
    decreases level, 0
  {
    ShowsRules();
    ShowsTarget(lay, level.target);
    ShowsNode(lay, level.collection, ind, false);
    ShowsBindings(lay, level.lets, ind, SP.Add(Keyword(WLet)).Then(SP));
    ShowsGuard(lay, WWhen, level.whenGuard, ind);
    ShowsGuard(lay, WWhile, level.whileGuard, ind);
  }

  lemma {:induction false} ShowsGuard(lay: Layout, word: Word, guard: Option<Node>, ind: nat)
    ensures Fair(lay, PrintGuard(lay, word, guard, ind), FilledGuard(guard))
    decreases guard, 0
  {
    ShowsRules();
    if guard.Some? { ShowsNode(lay, guard.value, ind, false); }
  }

  lemma {:induction false} ShowsMatch(lay: Layout, n: Node, ind: nat)
    requires n.Match?
    ensures Fair(lay, PrintMatch(lay, n, ind), Filled(n))
    decreases n, 2
  {
    ShowsRules();
    ShowsNode(lay, n.subject, ind, false);
    ShowsCases(lay, n.cases, ind, false);
    ShowsCases(lay, n.cases, ind, true);
  }

  lemma {:induction false} ShowsCases(lay: Layout, cases: seq<Case>, ind: nat, broken: bool)
    ensures Fair(lay, PrintCases(lay, cases, ind, broken), FilledCases(cases))
    decreases cases, 0
  {
    ShowsRules();
    if cases != [] {
      ShowsCase(lay, cases[0], ind, broken);
      ShowsCases(lay, cases[1..], ind, broken);
    }
  }

  lemma {:induction false} ShowsCase(lay: Layout, c: Case, ind: nat, broken: bool)
    ensures Fair(lay, PrintCase(lay, c, ind, broken), FilledCase(c))
    decreases c, 0
  {
    ShowsRules();
    var at := if broken then ind + 1 else ind;
    ShowsTarget(lay, c.pattern);
    ShowsGuard(lay, WWhen, c.guard, at);
    ShowsNode(lay, c.result, at, false);
    ShowsNode(lay, c.result, ind + 2, false);
  }

  lemma {:induction false} ShowsSegments(lay: Layout, segments: seq<Node>)
    ensures Fair(lay, PrintSegments(lay, segments), FilledAll(segments))
    decreases segments, 0
  {
    ShowsRules();
    if segments != [] {
      ShowsNode(lay, segments[0], 0, false);
      ShowsSegments(lay, segments[1..]);
    }
  }

  lemma {:induction false} ShowsTemplate(lay: Layout, n: Node, ind: nat)
    requires n.CodeTmpl?
    ensures Fair(lay, PrintTemplate(lay, n, ind), Filled(n))
    decreases n, 2
  {
    ShowsRules();
    ShowsSpliced(lay, n, 0, ind, Empty, Empty);
    ShowsSpliced(lay, n, 0, ind + 1, Blank(false, ind + 1), Cat(Tok(Semicolon), NewLine(0)));
  }

  lemma {:induction false} ShowsSpliced(lay: Layout, n: Node, k: nat, ind: nat, lead: Doc, sep: Doc)
    requires n.CodeTmpl? && k <= |n.body| && !Shows(lead) && !Shows(sep)
    ensures Fair(lay, PrintSpliced(lay, n, k, ind, lead, sep), FilledFrom(n, k))
    decreases n, 1, |n.body| - k
  {
    ShowsRules();
    if k < |n.body| {
      ShowsTemplateStatement(lay, n, k, ind);
      ShowsSpliced(lay, n, k + 1, ind, lead, sep);
    }
  }

  lemma {:induction false} ShowsTemplateStatement(lay: Layout, n: Node, k: nat, ind: nat)
    requires n.CodeTmpl? && k < |n.body|
    ensures Fair(lay, PrintTemplateStatement(lay, n, k, ind), FilledStatement(n, k))
    decreases n, 0
  {
    ShowsRules();
    var stmt := n.body[k];
    if !stmt.Splice? {
      ShowsNode(lay, stmt, ind, true);
    } else if stmt.index < |n.splices| {
      ShowsNode(lay, n.splices[stmt.index], ind, false);
    }
  }

  lemma {:induction false} ShowsHandlerBody(lay: Layout, body: seq<Node>, ind: nat)
    ensures Fair(lay, PrintHandlerBody(lay, body, ind), FilledAll(body))
    decreases body, 2
  {
    ShowsRules();
    if |body| == 1 {
      FilledOne(body);
      ShowsNode(lay, body[0], ind, false);
    }
    ShowsStatements(lay, Kw(WDo), true, body, ind);
  }

  lemma {:induction false} ShowsClause(lay: Layout, c: Clause, ind: nat)
    ensures Fair(lay, PrintClause(lay, c, ind), FilledClause(c))
    decreases c, 0
  {
    ShowsRules();
    ShowsTargets(lay, c.params);
    ShowsHandlerBody(lay, c.body, ind);
  }

  lemma {:induction false} ShowsClauses(lay: Layout, cs: seq<Clause>, ind: nat, lead: Doc)
    requires !Shows(lead)
    ensures Fair(lay, PrintClauses(lay, cs, ind, lead), FilledClauses(cs))
    decreases cs, 0
  {
    ShowsRules();
    if cs != [] {
      ShowsClause(lay, cs[0], ind);
      ShowsClauses(lay, cs[1..], ind, lead);
    }
  }

  lemma {:induction false} ShowsTransform(lay: Layout, t: Option<Transform>, ind: nat)
    ensures Fair(lay, PrintTransform(lay, t, ind), FilledTransform(t))
    decreases t, 0
  {
    ShowsRules();
    if t.Some? {
      ShowsTarget(lay, t.value.param);
      ShowsHandlerBody(lay, t.value.body, ind + 1);
    }
  }

  lemma {:induction false} ShowsHandler(lay: Layout, n: Node, ind: nat)
    requires n.Handler?
    ensures Fair(lay, PrintHandler(lay, n, ind), Filled(n))
    decreases n, 2
  {
    ShowsRules();
    ShowsClauses(lay, n.clauses, ind + 1, SP);
    ShowsClauses(lay, n.clauses, ind, SP);
    ShowsClauses(lay, n.clauses, ind + 1, NewLine(ind + 1));
    ShowsTransform(lay, n.transform, ind);
  }

  lemma {:induction false} ShowsWithHandler(lay: Layout, n: Node, ind: nat)
    requires n.WithHandler?
    ensures Fair(lay, PrintWithHandler(lay, n, ind), Filled(n))
    decreases n, 2
  {
    ShowsRules();
    ShowsNode(lay, n.handler, ind, false);
    ShowsSep(lay, n.body, ind, false, Blank(false, ind), Cat(Tok(Semicolon), NewLine(0)));
  }

  lemma {:induction false} ShowsDefault(lay: Layout, default: Option<Node>)
    ensures Fair(lay, PrintDefault(lay, default), FilledDefault(default))
    decreases default, 0
  {
    ShowsRules();
    if default.Some? { ShowsNode(lay, default.value, 0, false); }
  }

  lemma {:induction false} ShowsTarget(lay: Layout, t: Target)
    ensures Fair(lay, PrintTarget(lay, t), FilledTarget(t))
    decreases t, 1
  {
    ShowsRules();
    match t
    case SymbolTarget(_, default) => ShowsDefault(lay, default);
    case RestTarget(_, default) => ShowsDefault(lay, default);
    case ArrayTarget(items, default) => ShowsItems(lay, items); ShowsDefault(lay, default);
    case ObjectTarget(fields, default) => ShowsFields(lay, fields); ShowsDefault(lay, default);
    case LiteralTarget(e) => ShowsNode(lay, e, 0, false);
    case _ =>
  }

  lemma {:induction false} ShowsTargets(lay: Layout, ts: seq<Target>)
    ensures Fair(lay, PrintTargets(lay, ts), FilledTargets(ts))
    decreases ts, 0
  {
    ShowsRules();
    if ts != [] {
      ShowsTarget(lay, ts[0]);
      ShowsTargets(lay, ts[1..]);
    }
  }

  lemma {:induction false} ShowsItems(lay: Layout, ts: seq<Option<Target>>)
    ensures Fair(lay, PrintItems(lay, ts), FilledItems(ts))
    decreases ts, 0
  {
    ShowsRules();
    if ts != [] {
      ShowsItem(lay, ts[0]);
      ShowsItems(lay, ts[1..]);
    }
  }

  lemma {:induction false} ShowsItem(lay: Layout, t: Option<Target>)
    ensures Fair(lay, PrintItem(lay, t), FilledItem(t))
    decreases t, 0
  {
    ShowsRules();
    if t.Some? { ShowsTarget(lay, t.value); }
  }

  lemma {:induction false} ShowsFields(lay: Layout, fs: seq<Field>)
    ensures Fair(lay, PrintFields(lay, fs), FilledFields(fs))
    decreases fs, 0
  {
    ShowsRules();
    if fs != [] {
      ShowsField(lay, fs[0]);
      ShowsFields(lay, fs[1..]);
    }
  }

  lemma {:induction false} ShowsField(lay: Layout, f: Field)
    ensures Fair(lay, PrintField(lay, f), FilledField(f))
    decreases f, 0
  {
    ShowsRules();
    ShowsTarget(lay, f.target);
  }

  // The printed text reads the same under every layout.

  lemma {:induction false} PrintedCore(lay: Layout, n: Node, ind: nat, root: bool)
    ensures Core(Write(Print(lay, n, ind, root), Nil)) == Spell(n, Nil)
  {
    EmitCore(Print(lay, n, ind, root), Nil);
    Reads(lay, n, ind, root);
  }

  lemma {:induction false} PrintedErased(lay: Layout, n: Node, ind: nat, root: bool)
    requires !Shows(Print(lay, n, ind, root))
    ensures Erase(Tokens(Print(lay, n, ind, root))) == Lex(false, Spell(n, Nil))
  {
    var d := Print(lay, n, ind, root);
    ShowsWritten(d, Nil);
    CoreErases(Write(d, Nil));
    PrintedCore(lay, n, ind, root);
    LexErased(false, Write(d, Nil));
  }

  /** What a reader makes of the printed text, up to optional separators. */
  function Reading(lay: Layout, n: Node, ind: nat, root: bool): List<Tok> { Erase(Tokens(Print(lay, n, ind, root))) }

  /** Any two layouts at any two indents. */
  lemma {:induction false} SameTokens(n: Node, lay1: Layout, ind1: nat, root1: bool, lay2: Layout, ind2: nat,
                                      root2: bool)
    requires Filled(n)
    ensures Reading(lay1, n, ind1, root1) == Reading(lay2, n, ind2, root2)
  {
    ShowsNode(lay1, n, ind1, root1);
    ShowsNode(lay2, n, ind2, root2);
    PrintedErased(lay1, n, ind1, root1);
    PrintedErased(lay2, n, ind2, root2);
  }

  /** An absent operand stays in sight. */
  lemma {:induction false} HasErased(ts: List<Tok>)
    ensures Has(Erase(ts), Undefined) <==> Has(ts, Undefined)
  {
    if ts.Cons? { HasErased(ts.tail); }
  }

  lemma {:induction false} HasLexed(behind: bool, ts: List<Tok>)
    ensures Has(Lex(behind, ts), Undefined) <==> Has(ts, Undefined)
    decreases ts
  {
    if ts.Cons? {
      var t, rest := ts.head, ts.tail;
      if IsPrefix(ts) {
        HasLexed(false, rest.tail);
      } else if !t.Dash? {
        HasLexed(EndsOperand(t), rest);
      } else if rest.Cons? {
        HasLexed(true, rest.tail);
        HasLexed(false, rest.tail);
        HasLexed(false, rest);
      }
    }
  }

  lemma {:induction false} ReadingShows(lay: Layout, n: Node, ind: nat, root: bool)
    ensures Has(Reading(lay, n, ind, root), Undefined) <==> Shows(Print(lay, n, ind, root))
  {
    var d := Print(lay, n, ind, root);
    ShowsWritten(d, Nil);
    HasLexed(false, Write(d, Nil));
    HasErased(Tokens(d));
  }

  /** A page on which everything fits, and one on which nothing does. */
  const ROOMY := Layout((d, i) => true, d => true, (d, e) => true, (d, e, i) => true, (d, i) => true, 10)
  const TIGHT := Layout((d, i) => false, d => false, (d, e) => false, (d, e, i) => false, (d, i) => false, 0)

  /** Whether the text depends on the layout is a matter of the logical chains alone. */
  lemma {:induction false} SameTokensExactly(n: Node, ind: nat, root: bool)
    ensures Filled(n) <==>
            forall lay1, lay2 :: Reading(lay1, n, ind, root) == Reading(lay2, n, ind, root)
  {
    if Filled(n) {
      forall lay1, lay2 ensures Reading(lay1, n, ind, root) == Reading(lay2, n, ind, root) {
        SameTokens(n, lay1, ind, root, lay2, ind, root);
      }
    } else {
      ShowsNode(ROOMY, n, ind, root);
      ReadingShows(ROOMY, n, ind, root);
      ShowsNode(TIGHT, n, ind, root);
      ReadingShows(TIGHT, n, ind, root);
    }
  }

  /** A chain without operands prints as `undefined` exactly where the empty text does not fit on its line. */
  lemma {:induction false} EmptyChainBreaks(lay: Layout, op: ChainOp, ind: nat, root: bool)
    ensures var text := Write(Print(lay, Chain(op, []), ind, root), Nil);
            if lay.oneLine(Empty) && lay.fits(Empty, ind) then text == Nil else text == Cons(Undefined, Nil)
  {
    assert PrintSep(lay, [], ind, false, Empty, SP.Add(Op(ChainSign(op))).Then(SP)) == Empty;
  }

  /** A page as the program has it: 80 columns, and two of them for every level. */
  ghost predicate IsPage(lay: Layout, width: Doc -> nat) {
    && width(Empty) == 0 && lay.oneLine(Empty)
    && forall d, ind: nat :: lay.fits(d, ind) <==> 2 * ind + width(d) <= 80
  }

  /** On such a page a chain without operands reads as nothing up to level 40, and as `undefined` beyond it. */
  lemma EmptyChainOnPage(lay: Layout, width: Doc -> nat, op: ChainOp, ind: nat, root: bool)
    requires IsPage(lay, width)
    ensures Reading(lay, Chain(op, []), ind, root) == if ind <= 40 then Nil else Cons(Undefined, Nil)
  {
    assert lay.fits(Empty, ind) <==> 2 * ind + width(Empty) <= 80;
    EmptyChainBreaks(lay, op, ind, root);
    assert Lex(false, Cons(Undefined, Nil)) == Cons(Undefined, Nil);
    assert Erase(Cons(Undefined, Nil)) == Cons(Undefined, Nil);
  }
}
