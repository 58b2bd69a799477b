/** What is printed for a construct is read as that construct, with all that is in it. */
module ConstructProofs {
  import opened Options
  import opened Syntax
  import opened Docs
  import opened Names
  import opened Parser
  import opened ParserProofs
  import opened Printer
  import opened Spelling
  import opened EmptyChains
  import opened RoundTrip
  import opened Constructs
  import opened ConstructReads
  import opened Readable

  lemma {:induction false} ExprComes(n: Node, behind: bool, final: bool)
    requires Readable.Readable(n, behind, final)
    ensures Comes(n, behind, final)
    decreases n, 10
  {
    if n.If? || n.Match? || n.Block? {
      BranchingComes(n, behind, final);
    } else if n.Function? || n.Macro? || n.Handler? {
      LambdaComes(n, behind, final);
    } else if n.Let? || n.Loop? {
      BindingComesBack(n, behind, final);
    } else if n.For? {
      ForComesBack(n, behind, final);
    } else {
      OtherComes(n, behind, final);
    }
  }

  lemma {:induction false} OtherComes(n: Node, behind: bool, final: bool)
    requires Readable.Readable(n, behind, final)
    requires !n.If? && !n.Match? && !n.Block? && !n.Function? && !n.Macro? && !n.Handler? && !n.Let? && !n.Loop?
    requires !n.For?
    ensures Comes(n, behind, final)
    decreases n, 9
  {
    if n.Array? || n.Object? || n.MacroCall? {
      ListComes(n, behind, final);
    } else if n.Perform? {
      PerformComesBack(n, behind, final);
    } else if n.Recur? || n.Wrap? || n.Resume? {
      SpecialComes(n, behind, final);
    } else {
      OperandComes(n, behind, final);
    }
  }

  lemma {:induction false} BranchingComes(n: Node, behind: bool, final: bool)
    requires Readable.Readable(n, behind, final) && (n.If? || n.Match? || n.Block?)
    ensures Comes(n, behind, final)
    decreases n, 8
  {
    match n
    case If(_, _, _) =>
      BranchesComeIn(n);
      IfComes(n, behind, final);
    case Match(subject, cases) =>
      ExprComes(subject, true, true);
      CasesComeIn(cases);
      MatchComes(n, behind, final);
    case Block(stmts) =>
      StatementsComeIn(stmts, true);
      BlockComes(n, behind, final);
  }

  lemma {:induction false} LambdaComes(n: Node, behind: bool, final: bool)
    requires Readable.Readable(n, behind, final) && (n.Function? || n.Macro? || n.Handler?)
    ensures Comes(n, behind, final)
    decreases n, 8
  {
    match n
    case Function(params, body, _) =>
      TargetsComeIn(params, true);
      ParensMatchIn(params);
      BodyComesIn(body, final);
      FunctionComes(n, behind, final);
    case Macro(params, body) =>
      TargetsComeIn(params, true);
      BodyComesIn(body, final);
      MacroComes(n, behind, final);
    case Handler(clauses, transform) =>
      ClausesComeIn(clauses, transform.None?);
      TransformComesIn(transform);
      HandlerComes(n, behind, final);
  }

  lemma {:induction false} BranchesComeIn(n: Node)
    requires n.If? && Readable.Readable(n, true, true)
    ensures BranchesCome(n)
    decreases n, 7
  {
    ExprComes(n.cond, true, true);
    ExprComes(n.thn, true, true);
    if n.els.value.If? { BranchesComeIn(n.els.value); } else { ExprComes(n.els.value, true, true); }
    IfBranches(n);
  }

  lemma {:induction false} BindingComesBack(n: Node, behind: bool, final: bool)
    requires Readable.Readable(n, behind, final) && (n.Let? || n.Loop?)
    ensures Comes(n, behind, final)
    decreases n, 8
  {
    match n
    case Let(t, v) =>
      ExprComes(v, false, final);
      PartsComeIn(t, false);
      LetComes(n, behind, final);
    case Loop(bindings, body) =>
      BindingsComeIn(bindings);
      ExprComes(body, false, final);
      LoopComes(n, behind, final);
  }

  lemma {:induction false} ForComesBack(n: Node, behind: bool, final: bool)
    requires Readable.Readable(n, behind, final) && n.For?
    ensures Comes(n, behind, final)
    decreases n, 8
  {
    LevelsComeIn(n.levels);
    ExprComes(n.loopBody, false, final);
    ForComes(n, behind, final);
  }

  lemma {:induction false} ListComes(n: Node, behind: bool, final: bool)
    requires Readable.Readable(n, behind, final) && (n.Array? || n.Object? || n.MacroCall?)
    ensures Comes(n, behind, final)
    decreases n, 8
  {
    match n
    case Array(elements) =>
      ElementsComeIn(elements, Square);
      ArrayComes(n, behind, final);
    case Object(entries) =>
      EntriesComeIn(entries);
      ObjectComes(n, behind, final);
    case MacroCall(_, operand) =>
      ExprComes(operand, false, final);
      MacroCallComes(n, behind, final);
  }

  lemma {:induction false} SpecialComes(n: Node, behind: bool, final: bool)
    requires Readable.Readable(n, behind, final) && (n.Recur? || n.Wrap? || n.Resume?)
    ensures Comes(n, behind, final)
    decreases n, 8
  {
    match n
    case Recur(operands) =>
      ElementsComeIn(operands, Paren);
      RecurComes(n, behind, final);
    case Wrap(_, x) =>
      ArgComes(x);
      WrapComes(n, behind, final);
    case Resume(arg) =>
      ExprComes(arg.value, false, false);
      ResumeComes(n, behind, final);
  }

  lemma {:induction false} PerformComesBack(n: Node, behind: bool, final: bool)
    requires Readable.Readable(n, behind, final) && n.Perform?
    ensures Comes(n, behind, final)
    decreases n, 7
  {
    if n.arg.None? {
      ArgComes(n.effect);
      PerformComes(n, behind, final);
    } else {
      ArgComes(n.arg.value);
      ElementComesIn(n.effect);
      TwoArgs(n.effect, n.arg.value);
      PerformWithComes(n, behind, final);
    }
  }

  lemma TwoArgs(x: Node, y: Node)
    requires ElementComes(x) && ElementsCome([y], Paren)
    ensures ElementsCome([x, y], Paren)
  {
    assert [x, y][1..] == [y];
    MoreElements([x, y], Paren);
  }

  lemma OperandComes(n: Node, behind: bool, final: bool)
    requires Readable.Readable(n, behind, final)
    requires !n.If? && !n.Match? && !n.Block? && !n.Function? && !n.Macro? && !n.Handler? && !n.Let? && !n.Loop?
    requires !n.For? && !n.Array? && !n.Object? && !n.MacroCall? && !n.Perform? && !n.Recur? && !n.Wrap? && !n.Resume?
    ensures Comes(n, behind, final)
  {
    if n.Atom? || n.Str? || n.Effect? {
      LeafComes(n, behind, final);
    } else if n.Reserved? && n.word.Constant? {
      ConstantComes(n, behind, final);
    } else if n.Import? {
      ImportComes(n, behind, final);
    } else {
      PlainComes(n, behind, final);
    }
  }

  // Elements and entries.

  lemma {:induction false} ArgComes(x: Node)
    requires Readable.Readable(x, false, false)
    ensures ElementsCome([x], Paren)
    decreases x, 12
  {
    ElementComesIn(x);
    OneElement([x], Paren);
  }

  lemma {:induction false} ElementComesIn(e: Node)
    requires ReadableElement(e) || Readable.Readable(e, false, false)
    ensures ElementComes(e)
    decreases e, 11
  {
    if e.Spread? {
      ExprComes(e.inner, false, false);
      SpreadComes(e);
    } else {
      ExprComes(e, false, false);
      PlainElementComes(e);
    }
  }

  lemma {:induction false} ElementsComeIn(es: seq<Node>, close: Bracket)
    requires ReadableElements(es)
    ensures ElementsCome(es, close)
    decreases es, 0
  {
    if es == [] {
      NoElements(close);
    } else {
      ElementComesIn(es[0]);
      if |es| == 1 {
        OneElement(es, close);
      } else {
        ElementsComeIn(es[1..], close);
        MoreElements(es, close);
      }
    }
  }

  lemma {:induction false} EntryComesIn(e: Entry)
    requires ReadableEntry(e)
    ensures EntryComes(e)
    decreases e, 0
  {
    match e
    case SpreadEntry(x) =>
      ExprComes(x, false, false);
      SpreadEntryComes(e);
    case Pair(key, value) =>
      if key.Str? && IsIdentifier(key.text) && value == Sym(key.text) {
        ShortEntryComes(e);
      } else {
        ExprComes(value, false, false);
        if !key.Str? { ExprComes(key, false, false); }
        PairComes(e);
      }
  }

  lemma {:induction false} EntriesComeIn(es: seq<Entry>)
    requires ReadableEntries(es)
    ensures EntriesCome(es)
    decreases es, 0
  {
    if es == [] {
      NoEntries();
    } else {
      EntryComesIn(es[0]);
      if |es| == 1 {
        OneEntry(es);
      } else {
        EntriesComeIn(es[1..]);
        MoreEntries(es);
      }
    }
  }

  // Statements.

  lemma {:induction false} StatementsComeIn(stmts: seq<Node>, behind: bool)
    requires ReadableStatements(stmts, behind)
    ensures StatementsCome(stmts, behind)
    decreases stmts, 0
  {
    if |stmts| == 1 {
      LastComesIn(stmts, behind);
    } else {
      ExprComes(stmts[0], behind, false);
      StatementsComeIn(stmts[1..], false);
      MoreStatements(stmts, behind);
    }
  }

  lemma {:induction false} LastComesIn(stmts: seq<Node>, behind: bool)
    requires |stmts| == 1 && ReadableLast(stmts[0], behind)
    ensures StatementsCome(stmts, behind)
    decreases stmts[0], 11
  {
    var x := stmts[0];
    if x.WithHandler? {
      ExprComes(x.handler, true, false);
      StatementsComeIn(x.body, false);
      OneInstalled(stmts, behind);
    } else {
      ExprComes(x, behind, true);
      OneStatement(stmts, behind);
    }
  }

  lemma {:induction false} BodyComesIn(body: seq<Node>, final: bool)
    requires ReadableBody(body, final)
    ensures BodyComes(body, final)
    decreases body, 1
  {
    if |body| == 1 && !body[0].WithHandler? {
      ExprComes(body[0], false, final);
      ExprBody(body, final);
    } else {
      StatementsComeIn(body, true);
      BlockBody(body, final);
    }
  }

  // Targets.

  lemma {:induction false} PartsComeIn(t: Target, pattern: bool)
    requires ReadableHead(t, pattern) && TakesDefault(t)
    ensures PartsCome(t, pattern)
    decreases t, 0
  {
    match t
    case ArrayTarget(items, _) => ItemsComeIn(items, pattern);
    case ObjectTarget(fields, _) => FieldsComeIn(fields, pattern);
    case _ =>
  }

  lemma {:induction false} TargetComesIn(t: Target, pattern: bool, final: bool)
    requires ReadableTarget(t, pattern, final)
    ensures TargetComes(t, pattern, final)
    decreases t, 1
  {
    if TakesDefault(t) {
      PartsComeIn(t, pattern);
      DefaultComesIn(Default(t), final);
      DefaultTargetComes(t, pattern, final);
    } else if t.RestTarget? {
      RestTargetComes(t, pattern, final);
    } else if t.Wildcard? {
      WildcardComes(t, final);
    } else {
      LiteralComes(t, final);
    }
  }

  lemma {:induction false} DefaultComesIn(d: Option<Node>, final: bool)
    requires d.Some? ==> Readable.Readable(d.value, false, final)
    ensures d.Some? ==> Comes(d.value, false, final)
    decreases d, 0
  {
    if d.Some? { ExprComes(d.value, false, final); }
  }

  lemma {:induction false} ItemsComeIn(items: seq<Option<Target>>, pattern: bool)
    requires ReadableItems(items, pattern)
    ensures ItemsCome(items, pattern)
    decreases items, 0
  {
    if items == [] {
      NoItems(pattern);
    } else {
      ItemComesIn(items[0], pattern);
      if |items| == 1 {
        OneItem(items, pattern);
      } else {
        ItemsComeIn(items[1..], pattern);
        MoreItems(items, pattern);
      }
    }
  }

  lemma {:induction false} ItemComesIn(item: Option<Target>, pattern: bool)
    requires ReadableItem(item, pattern)
    ensures item.Some? ==> TargetComes(item.value, pattern, false)
    decreases item, 0
  {
    if item.Some? { TargetComesIn(item.value, pattern, false); }
  }

  lemma {:induction false} FieldsComeIn(fs: seq<Field>, pattern: bool)
    requires ReadableFields(fs, pattern)
    ensures FieldsCome(fs, pattern)
    decreases fs, 0
  {
    if fs == [] {
      NoFields(pattern);
    } else {
      FieldComesIn(fs[0], pattern);
      if |fs| == 1 {
        OneField(fs, pattern);
      } else {
        FieldsComeIn(fs[1..], pattern);
        MoreFields(fs, pattern);
      }
    }
  }

  lemma {:induction false} FieldComesIn(f: Field, pattern: bool)
    requires ReadableField(f, pattern)
    ensures FieldComes(f, pattern)
    decreases f, 0
  {
    TargetComesIn(f.target, pattern, false);
    assert ReadableHead(f.target, pattern);
    match f.target
    case RestTarget(_, _) => RestFieldComes(f, pattern);
    case SymbolTarget(_, _) => SymbolFieldComes(f, pattern);
    case _ => OpenedFieldComes(f, pattern);
  }

  lemma {:induction false} TargetsComeIn(ts: seq<Target>, strict: bool)
    requires ReadableTargets(ts)
    ensures TargetsCome(ts, strict)
    decreases ts, 0
  {
    if ts == [] {
      NoTargets(strict);
    } else {
      TargetComesIn(ts[0], false, false);
      if |ts| == 1 {
        OneTarget(ts, strict);
      } else {
        TargetsComeIn(ts[1..], strict);
        MoreTargets(ts, strict);
      }
    }
  }

  // The brackets among parameters.

  lemma {:induction false} ParensMatchIn(ts: seq<Target>)
    requires ReadableTargets(ts) && SimpleAll(ts)
    ensures TargetsMatch(ts)
    decreases ts, 0
  {
    if ts == [] {
      NoTargetsMatch();
    } else {
      TargetMatchesIn(ts[0]);
      ParensMatchIn(ts[1..]);
      TargetsComeIn(ts[1..], true);
      MoreTargetsMatch(ts);
    }
  }

  lemma {:induction false} TargetMatchesIn(t: Target)
    requires ReadableTarget(t, false, false) && Simple(t)
    ensures TargetMatches(t)
    decreases t, 1
  {
    if Default(t).Some? { PlainMatches(Default(t).value); } else { NoDefaultMatches(); }
    match t
    case ArrayTarget(items, _) =>
      ItemsMatchIn(items);
      ArrayMatches(t);
    case ObjectTarget(fields, _) =>
      FieldsMatchIn(fields);
      ObjectMatches(t);
    case _ => NameMatches(t);
  }

  lemma {:induction false} ItemsMatchIn(items: seq<Option<Target>>)
    requires ReadableItems(items, false) && SimpleItems(items)
    ensures ItemsMatch(items)
    decreases items, 0
  {
    if items == [] {
      NoItemsMatch();
    } else {
      ItemMatchesIn(items[0]);
      if |items| == 1 {
        OneItemMatches(items);
      } else {
        ItemsMatchIn(items[1..]);
        ItemsComeIn(items[1..], false);
        MoreItemsMatch(items);
      }
    }
  }

  lemma {:induction false} ItemMatchesIn(item: Option<Target>)
    requires ReadableItem(item, false) && SimpleItem(item)
    ensures item.Some? ==> TargetMatches(item.value)
    decreases item, 0
  {
    if item.Some? { TargetMatchesIn(item.value); }
  }

  lemma {:induction false} FieldsMatchIn(fs: seq<Field>)
    requires ReadableFields(fs, false) && SimpleFields(fs)
    ensures FieldsMatch(fs)
    decreases fs, 0
  {
    if fs == [] {
      NoFieldsMatch();
    } else {
      FieldMatchesIn(fs[0]);
      FieldsMatchIn(fs[1..]);
      FieldsComeIn(fs[1..], false);
      MoreFieldsMatch(fs);
    }
  }

  lemma {:induction false} FieldMatchesIn(f: Field)
    requires ReadableField(f, false) && SimpleField(f)
    ensures TargetMatches(f.target) && (f.target.RestTarget? ==> f.target.default.None?)
    decreases f, 0
  {
    TargetMatchesIn(f.target);
  }

  // Bindings and levels.

  lemma {:induction false} BindingComesIn(b: Binding, final: bool)
    requires ReadableBinding(b, final)
    ensures BindingComes(b, final)
    decreases b, 0
  {
    ExprComes(b.value, false, final);
    PartsComeIn(b.target, false);
    BoundComes(b, final);
  }

  lemma {:induction false} BindingsComeIn(bs: seq<Binding>)
    requires ReadableBindings(bs) && bs != []
    ensures BindingsCome(bs)
    decreases bs, 0
  {
    BindingComesIn(bs[0], false);
    if |bs| == 1 {
      OneBinding(bs);
    } else {
      BindingsComeIn(bs[1..]);
      MoreBindings(bs);
    }
  }

  lemma {:induction false} LevelsComeIn(ls: seq<Level>)
    requires ReadableLevels(ls)
    ensures LevelsCome(ls)
    decreases ls, 0
  {
    if ls == [] {
      NoLevels();
    } else {
      LevelComesIn(ls[0]);
      if |ls| == 1 {
        OneLevel(ls);
      } else {
        LevelsComeIn(ls[1..]);
        MoreLevels(ls);
      }
    }
  }

  lemma {:induction false} LevelComesIn(l: Level)
    requires ReadableLevel(l)
    ensures LevelComes(l)
    decreases l, 0
  {
    ExprComes(l.collection, true, l.lets == [] && Guarded(l));
    LetsComeIn(l.lets, Guarded(l));
    GuardComesIn(l.whenGuard, l.whileGuard.Some?);
    GuardComesIn(l.whileGuard, false);
    OneLevelComes(l);
  }

  lemma {:induction false} GuardComesIn(guard: Option<Node>, final: bool)
    requires ReadableGuard(guard, final)
    ensures GuardComes(guard, final)
    decreases guard, 0
  {
    if guard.Some? { ExprComes(guard.value, true, final); }
  }

  lemma {:induction false} LetsComeIn(bs: seq<Binding>, final: bool)
    requires ReadableLets(bs, final)
    ensures LetsCome(bs, final)
    decreases bs, 0
  {
    if bs == [] {
      NoLets(final);
    } else {
      BindingComesIn(bs[0], |bs| == 1 && final);
      if |bs| == 1 {
        OneLet(bs, final);
      } else {
        LetsComeIn(bs[1..], final);
        MoreLets(bs, final);
      }
    }
  }

  // Cases and clauses.

  lemma {:induction false} CasesComeIn(cs: seq<Case>)
    requires ReadableCases(cs)
    ensures CasesCome(cs)
    decreases cs, 0
  {
    if cs == [] {
      NoCases();
    } else {
      CaseComesIn(cs[0]);
      CasesComeIn(cs[1..]);
      MoreCases(cs);
    }
  }

  lemma {:induction false} CaseComesIn(c: Case)
    requires ReadableCase(c)
    ensures CaseComes(c)
    decreases c, 0
  {
    TargetComesIn(c.pattern, true, true);
    GuardComesIn(c.guard, true);
    ExprComes(c.result, true, true);
    OneCase(c);
  }

  lemma {:induction false} ClausesComeIn(cs: seq<Clause>, last: bool)
    requires ReadableClauses(cs, last)
    ensures ClausesCome(cs, last)
    decreases cs, 0
  {
    if cs == [] {
      NoClauses(last);
    } else {
      ClauseComesIn(cs[0], |cs| == 1 && last);
      ClausesComeIn(cs[1..], last);
      MoreClauses(cs, last);
    }
  }

  lemma {:induction false} ClauseComesIn(c: Clause, final: bool)
    requires ReadableClause(c, final)
    ensures ClauseComes(c, final)
    decreases c, 0
  {
    TargetsComeIn(c.params, false);
    BodyComesIn(c.body, final);
    OneClauseComes(c, final);
  }

  lemma {:induction false} TransformComesIn(t: Option<Transform>)
    requires ReadableTransform(t)
    ensures TransformComes(t)
    decreases t, 0
  {
    if t.Some? { TransformerComesIn(t.value); }
  }

  lemma {:induction false} TransformerComesIn(t: Transform)
    requires ReadableTransformer(t)
    ensures PartsCome(t.param, false) && Default(t.param).None? && BodyComes(t.body, true)
    decreases t, 0
  {
    PartsComeIn(t.param, false);
    BodyComesIn(t.body, true);
  }

  // The printed text.

  /** What is printed for a readable node, under any layout, at any indent, is read as that node, but for separators
      that may be left out. */
  lemma PrintedComesBack(lay: Layout, n: Node, ind: nat, root: bool)
    requires Readable.Readable(n, false, true) && Filled(n)
    ensures ReadAll(EmptyChains.Reading(lay, n, ind, root)) == Some(n)
  {
    ShowsNode(lay, n, ind, root);
    PrintedErased(lay, n, ind, root);
    SpelledComesBack(n);
  }

  lemma SpelledComesBack(n: Node)
    requires Readable.Readable(n, false, true)
    ensures ReadAll(Lex(false, Spell(n, Nil))) == Some(n)
  {
    ExprComes(n, false, true);
    AloneReads(n);
  }

  lemma AloneReads(n: Node)
    requires Comes(n, false, true)
    ensures ReadAll(Lex(false, Spell(n, Nil))) == Some(n)
  {
    assert Arrives(n, false, Nil);
  }

  // What does not come back: different nodes with the same text.

  lemma SameText(lay: Layout, n: Node, m: Node, ind: nat, root: bool)
    requires Filled(n) && Filled(m) && Spell(n, Nil) == Spell(m, Nil)
    ensures EmptyChains.Reading(lay, n, ind, root) == EmptyChains.Reading(lay, m, ind, root)
  {
    ShowsNode(lay, n, ind, root);
    ShowsNode(lay, m, ind, root);
    PrintedErased(lay, n, ind, root);
    PrintedErased(lay, m, ind, root);
  }

  /** A function with one block for its body looks like one with the statements of the block. */
  lemma BlockBodyMerges(lay: Layout, params: seq<Target>, stmts: seq<Node>, ind: nat, root: bool)
    requires |stmts| > 1 && FilledTargets(params) && FilledAll(stmts)
    ensures EmptyChains.Reading(lay, Function(params, [Block(stmts)], false), ind, root) ==
            EmptyChains.Reading(lay, Function(params, stmts, false), ind, root)
  {
    var n, m := Function(params, [Block(stmts)], false), Function(params, stmts, false);
    assert SpellBody([Block(stmts)], Nil) == Spell(Block(stmts), Nil) == SpellBody(stmts, Nil);
    assert Filled(n) by { assert [Block(stmts)][1..] == [] && Filled(Block(stmts)); }
    SameText(lay, n, m, ind, root);
  }

  /** `get(a + b, "k")` is printed `a + b?.k`, like `a + get(b, "k")`. */
  lemma AccessOfSum(lay: Layout, op: BinOp, a: string, b: string, key: string, ind: nat, root: bool)
    requires IsIdentifier(key)
    ensures EmptyChains.Reading(lay, Access(Binary(op, Sym(a), Sym(b)), key), ind, root) ==
            EmptyChains.Reading(lay, Binary(op, Sym(a), Access(Sym(b), key)), ind, root)
  {
    var n, m := Access(Binary(op, Sym(a), Sym(b)), key), Binary(op, Sym(a), Access(Sym(b), key));
    AccessSpells(Binary(op, Sym(a), Sym(b)), key, Nil);
    AccessSpells(Sym(b), key, Nil);
    SumSpells(op, a, Sym(b), O(SafeDot, Cons(Ident(key), Nil)));
    SumSpells(op, a, Access(Sym(b), key), Nil);
    PairFilled(Sym(a), Sym(b));
    AccessFilled(Binary(op, Sym(a), Sym(b)), key);
    AccessFilled(Sym(b), key);
    PairFilled(Sym(a), Access(Sym(b), key));
    SameText(lay, n, m, ind, root);
  }

  function Access(x: Node, key: string): Node { Call(Builtin(Get), [x, Str(key)], Hints(false, false)) }

  lemma AccessFilled(x: Node, key: string)
    requires Filled(x)
    ensures Filled(Access(x, key))
  {
    PairFilled(x, Str(key));
  }

  lemma AccessSpells(x: Node, key: string, rest: List<Tok>)
    requires IsIdentifier(key)
    ensures Spell(Access(x, key), rest) == Spell(x, O(SafeDot, Cons(Ident(key), rest)))
  {
    assert IsSafeAccess(Access(x, key));
  }

  lemma SumSpells(op: BinOp, a: string, r: Node, rest: List<Tok>)
    requires r.Sym? || (r.Call? && r.fn == Builtin(Get))
    ensures Spell(Binary(op, Sym(a), r), rest) == Cons(Ident(a), O(Bin(op), Spell(r, rest)))
  {
    var n := Binary(op, Sym(a), r);
    assert n.args[0] == Sym(a) && n.args[1] == r && HOLE !in n.args;
    assert !IsNegation(n) && !IsSafeAccess(n) && !IsPipe(n) && IsInfix(n);
    assert SpellOperand(op, r, true, rest) == Spell(r, rest);
    assert SpellOperand(op, Sym(a), false, O(Bin(op), Spell(r, rest))) == Cons(Ident(a), O(Bin(op), Spell(r, rest)));
  }

  lemma PairFilled(x: Node, y: Node)
    requires Filled(x) && Filled(y)
    ensures FilledAll([x, y])
  {
    assert [x, y][1..] == [y] && [y][1..] == [];
    assert FilledAll([y]);
  }

  /** The function that resumes, in a list, is read as a name. */
  lemma ResumeInList(lay: Layout, ind: nat, root: bool)
    ensures ReadAll(EmptyChains.Reading(lay, Array([Resume(None)]), ind, root)) == Some(Array([Sym("resume")]))
  {
    var n := Array([Resume(None)]);
    assert Filled(n) by { assert [Resume(None)][1..] == [] && Filled(Resume(None)); }
    ShowsNode(lay, n, ind, root);
    PrintedErased(lay, n, ind, root);
    ListSpells();
    ListReads();
  }

  const LIST := Cons(Keyword(WResume), Cons(Close(Square), Nil))

  lemma ListSpells()
    ensures Lex(false, Spell(Array([Resume(None)]), Nil)) == Cons(Open(Square), LIST)
  {
    assert SpellSep([Resume(None)], Comma, Cons(Close(Square), Nil)) == LIST && Lex(false, LIST) == LIST;
  }

  lemma ListReads()
    ensures ReadAll(Cons(Open(Square), LIST)) == Some(Array([Sym("resume")]))
  {
    ResumeAloneReads(Cons(Close(Square), Nil));
    LastRead(Sym("resume"), Square, LIST, Nil);
    var ts := Cons(Open(Square), LIST);
    assert ReadConstruct(ts) == Some((Array([Sym("resume")]), Nil));
    assert ReadExpr(ts) == ParseLoop(Array([Sym("resume")]), Nil, 0);
  }

  lemma ResumeAloneReads(close: List<Tok>)
    requires At(close, Close(Square))
    ensures ReadExpr(Cons(Keyword(WResume), close)) == Some((Sym("resume"), close))
  {
    assert ReadResume(close) == Some((Sym("resume"), close));
    ResumeWord(close);
    assert ReadConstruct(Cons(Keyword(WResume), close)) == Some((Sym("resume"), close));
    assert ParseLoop(Sym("resume"), close, 0) == Some((Sym("resume"), close));
  }
}
