/** Which nodes come back, and how the ones among them that are operator expressions are read inside of others. */
module Readable {
  import opened Options
  import opened Syntax
  import opened Docs
  import opened Names
  import opened Grammar
  import opened Parser
  import opened ParserProofs
  import opened Signs
  import opened Printer
  import opened Spelling
  import opened LayoutIndependence
  import opened EmptyChains
  import opened PrintedTrees
  import opened RoundTrip
  import opened StringLiterals
  import opened Constructs
  import opened ConstructReads

  // Which nodes come back. `behind`: a word stands in front, where a number has no sign; `final`: a reserved word or
  // nothing follows.

  function Where(behind: bool, final: bool): Spot { Spot(behind, true, if final then None else Some(Close(Paren))) }

  predicate Readable(n: Node, behind: bool, final: bool)
    decreases n, 9
  {
    match n
    case Atom(_) => true
    case Str(_) => true
    case Effect(name) => KnownEffect(name)
    case Reserved(Constant(word)) => word in {"true", "false", "null"}
    case MacroCall(fn, operand) => fn.Sym? && IsIdentifier(fn.name) && Readable(operand, false, final)
    case If(cond, thn, els) =>
      els.Some? && Readable(cond, true, true) && Readable(thn, true, true) && Readable(els.value, true, true)
    case Block(stmts) => ReadableStatements(stmts, true)
    case Let(t, v) => Default(t).None? && !t.RestTarget? && ReadableHead(t, false) && Readable(v, false, final)
    case Function(params, body, shorthand) =>
      !shorthand && ReadableTargets(params) && ParamsOk(params) && SimpleAll(params) && ReadableBody(body, final)
    case Macro(params, body) => ReadableTargets(params) && ParamsOk(params) && ReadableBody(body, final)
    case Perform(eff, arg) => Readable(eff, false, false) && (arg.Some? ==> Readable(arg.value, false, false))
    case Array(elements) => ReadableElements(elements)
    case Object(entries) => ReadableEntries(entries)
    case Recur(operands) => ReadableElements(operands)
    case Loop(bindings, body) => bindings != [] && ReadableBindings(bindings) && Readable(body, false, final)
    case For(levels, body) =>
      ReadableLevels(levels) && Apart(LevelNames(levels)) && Readable(body, false, final)
    case Match(subject, cases) => Readable(subject, true, true) && ReadableCases(cases)
    case Import(name) => BareOk(name)
    case Wrap(_, x) => Readable(x, false, false)
    case Handler(clauses, transform) =>
      && (clauses != [] || transform.Some?) && ReadableClauses(clauses, transform.None?) && Apart(Effects(clauses))
      && ReadableTransform(transform)
    case Resume(arg) => arg.Some? && Readable(arg.value, false, false)
    case _ => Plain(n) && Faithful(n, Where(behind, final))
  }

  predicate ReadableElements(es: seq<Node>)
    decreases es, 0
  {
    es == [] || (ReadableElement(es[0]) && ReadableElements(es[1..]))
  }

  predicate ReadableElement(e: Node)
    decreases e, 10
  {
    if e.Spread? then Readable(e.inner, false, false) else Readable(e, false, false)
  }

  /** A key without quotes is one symbol, one in quotes has nothing to escape. */
  predicate ReadableEntries(es: seq<Entry>)
    decreases es, 0
  {
    es == [] || (ReadableEntry(es[0]) && ReadableEntries(es[1..]))
  }

  predicate ReadableEntry(e: Entry)
    decreases e, 0
  {
    match e
    case SpreadEntry(x) => Readable(x, false, false)
    case Pair(key, value) =>
      && (if key.Str? then if IsIdentifier(key.text) then IsName(key.text) else BareOk(key.text)
          else Readable(key, false, false))
      && (Readable(value, false, false) || (key.Str? && IsIdentifier(key.text) && value == Sym(key.text)))
  }

  /** A handler that is installed is the last statement. */
  predicate ReadableStatements(stmts: seq<Node>, behind: bool)
    decreases stmts, 0
  {
    stmts != [] &&
    if |stmts| == 1 then ReadableLast(stmts[0], behind)
    else Readable(stmts[0], behind, false) && ReadableStatements(stmts[1..], false)
  }

  predicate ReadableLast(x: Node, behind: bool)
    decreases x, 10
  {
    if x.WithHandler? then Readable(x.handler, true, false) && ReadableStatements(x.body, false)
    else Readable(x, behind, true)
  }

  /** A body that is one block would be taken for the statements of the block. */
  predicate ReadableBody(body: seq<Node>, final: bool)
    decreases body, 1
  {
    if |body| == 1 && !body[0].WithHandler? then !body[0].Block? && Readable(body[0], false, final)
    else ReadableStatements(body, true)
  }

  // Targets.

  predicate ReadableTarget(t: Target, pattern: bool, final: bool)
    decreases t, 1
  {
    ReadableHead(t, pattern) && (Default(t).Some? ==> !t.RestTarget? && Readable(Default(t).value, false, final))
  }

  predicate ReadableHead(t: Target, pattern: bool)
    decreases t, 0
  {
    match t
    case SymbolTarget(name, _) => IsUserName(name)
    case RestTarget(name, default) => IsUserName(name) && default.None?
    case ArrayTarget(items, _) => ReadableItems(items, pattern)
    case ObjectTarget(fields, _) => ReadableFields(fields, pattern) && Apart(Keys(fields))
    case LiteralTarget(e) => pattern && IsLiteralNode(e)
    case Wildcard => pattern
    case UnknownTarget(_) => false
  }

  /** A skipped item is not the last one, a rest is. */
  predicate ReadableItems(items: seq<Option<Target>>, pattern: bool)
    decreases items, 0
  {
    items == [] ||
    (ReadableItem(items[0], pattern) &&
     if |items| == 1 then items[0].Some? else !IsRest(items[0]) && ReadableItems(items[1..], pattern))
  }

  predicate ReadableItem(item: Option<Target>, pattern: bool)
    decreases item, 0
  {
    item.Some? ==> ReadableTarget(item.value, pattern, false)
  }

  predicate ReadableFields(fs: seq<Field>, pattern: bool)
    decreases fs, 0
  {
    fs == [] ||
    (ReadableField(fs[0], pattern) && (|fs| > 1 ==> !fs[0].target.RestTarget?) && ReadableFields(fs[1..], pattern))
  }

  predicate ReadableField(f: Field, pattern: bool)
    decreases f, 0
  {
    && ReadableTarget(f.target, pattern, false) && IsName(f.key) && !f.target.Wildcard?
    && (f.target.RestTarget? ==> f.key == f.target.name)
  }

  predicate ReadableTargets(ts: seq<Target>)
    decreases ts, 0
  {
    ts == [] || (ReadableTarget(ts[0], false, false) && ReadableTargets(ts[1..]))
  }

  predicate ReadableBindings(bs: seq<Binding>)
    decreases bs, 0
  {
    bs == [] || (ReadableBinding(bs[0], false) && ReadableBindings(bs[1..]))
  }

  /** What is bound has no default of its own. */
  predicate ReadableBinding(b: Binding, final: bool)
    decreases b, 0
  {
    Default(b.target).None? && !b.target.RestTarget? && ReadableHead(b.target, false) && Readable(b.value, false, final)
  }

  predicate ReadableLevels(ls: seq<Level>)
    decreases ls, 0
  {
    ls == [] || (ReadableLevel(ls[0]) && ReadableLevels(ls[1..]))
  }

  predicate ReadableLevel(l: Level)
    decreases l, 0
  {
    && l.target.SymbolTarget? && l.target.default.None? && IsUserName(l.target.name)
    && Readable(l.collection, true, l.lets == [] && Guarded(l)) && ReadableLets(l.lets, Guarded(l))
    && Apart(BoundNames(l.lets))
    && ReadableGuard(l.whenGuard, l.whileGuard.Some?) && ReadableGuard(l.whileGuard, false)
  }

  predicate ReadableLets(bs: seq<Binding>, final: bool)
    decreases bs, 0
  {
    bs == [] || (ReadableBinding(bs[0], |bs| == 1 && final) && ReadableLets(bs[1..], final))
  }

  predicate ReadableGuard(guard: Option<Node>, final: bool)
    decreases guard, 0
  {
    guard.Some? ==> Readable(guard.value, true, final)
  }

  predicate ReadableCases(cs: seq<Case>)
    decreases cs, 0
  {
    cs == [] || (ReadableCase(cs[0]) && ReadableCases(cs[1..]))
  }

  predicate ReadableCase(c: Case)
    decreases c, 0
  {
    ReadableTarget(c.pattern, true, true) && ReadableGuard(c.guard, true) && Readable(c.result, true, true)
  }

  /** `last`: nothing but `end` follows. */
  predicate ReadableClauses(cs: seq<Clause>, last: bool)
    decreases cs, 0
  {
    cs == [] || (ReadableClause(cs[0], |cs| == 1 && last) && ReadableClauses(cs[1..], last))
  }

  predicate ReadableClause(c: Clause, final: bool)
    decreases c, 0
  {
    ReadableTargets(c.params) && ReadableBody(c.body, final)
  }

  predicate ReadableTransform(t: Option<Transform>)
    decreases t, 0
  {
    t.Some? ==> ReadableTransformer(t.value)
  }

  predicate ReadableTransformer(t: Transform)
    decreases t, 0
  {
    Default(t.param).None? && TakesDefault(t.param) && ReadableHead(t.param, false) && ReadableBody(t.body, true)
  }

  // Parameters of lambdas: their defaults, and the defaults inside of them, are operator expressions.

  predicate SimpleAll(ts: seq<Target>)
    decreases ts, 0
  {
    ts == [] || (Simple(ts[0]) && SimpleAll(ts[1..]))
  }

  predicate Simple(t: Target)
    decreases t, 1
  {
    && (Default(t).Some? ==> Plain(Default(t).value))
    && match t
       case ArrayTarget(items, _) => SimpleItems(items)
       case ObjectTarget(fields, _) => SimpleFields(fields)
       case _ => true
  }

  predicate SimpleItems(items: seq<Option<Target>>)
    decreases items, 0
  {
    items == [] || (SimpleItem(items[0]) && SimpleItems(items[1..]))
  }

  predicate SimpleItem(item: Option<Target>)
    decreases item, 0
  {
    item.Some? ==> Simple(item.value)
  }

  predicate SimpleFields(fs: seq<Field>)
    decreases fs, 0
  {
    fs == [] || (SimpleField(fs[0]) && SimpleFields(fs[1..]))
  }

  predicate SimpleField(f: Field)
    decreases f, 0
  {
    Simple(f.target)
  }

  // The spelling of an operator expression is the text of a tree.

  /** The tokens without those that can be left out, in front of `rest`. */
  function PlaceAll(ts: List<Tok>, rest: List<Tok>): List<Tok> {
    if ts.Nil? then rest else Place(ts.head, PlaceAll(ts.tail, rest))
  }

  lemma {:induction false} EmitPlaces(d: Doc, ts: List<Tok>, rest: List<Tok>)
    ensures PlaceAll(Write(d, ts), rest) == Emit(d, PlaceAll(ts, rest))
  {
    if d.Cat? {
      EmitPlaces(d.right, ts, rest);
      EmitPlaces(d.left, Write(d.right, ts), rest);
    }
  }

  predicate NoTrailing(c: Cst)
    decreases c
  {
    match c
    case ParenC(x) => NoTrailing(x)
    case NegC(x) => NoTrailing(x)
    case InfixC(_, l, r) => NoTrailing(l) && NoTrailing(r)
    case AppC(_, args, trailing) => !trailing && forall a :: a in args ==> NoTrailing(a)
    case _ => true
  }

  lemma {:induction false} TextPlaced(c: Cst, ts: List<Tok>, rest: List<Tok>)
    requires NoTrailing(c)
    ensures PlaceAll(Text(c, ts), rest) == Text(c, PlaceAll(ts, rest))
    decreases c
  {
    match c
    case ParenC(x) => TextPlaced(x, Cons(Close(Paren), ts), rest);
    case NegC(x) => TextPlaced(x, ts, rest);
    case InfixC(o, l, r) =>
      TextPlaced(r, ts, rest);
      TextPlaced(l, Cons(OpTok(o), Text(r, ts)), rest);
    case AppC(_, args, _) => TextArgsPlaced(args, ts, rest);
    case _ =>
  }

  lemma {:induction false} TextArgsPlaced(args: seq<Cst>, ts: List<Tok>, rest: List<Tok>)
    requires forall a :: a in args ==> NoTrailing(a)
    ensures PlaceAll(TextArgs(args, false, ts), rest) == TextArgs(args, false, PlaceAll(ts, rest))
    decreases args
  {
    if args != [] {
      TextPlaced(args[0], TextAfter(args, false, ts), rest);
      if |args| > 1 {
        TextArgsPlaced(args[1..], ts, rest);
        ArgsStart(args[1..], PlaceAll(ts, rest));
      }
    }
  }

  lemma ArgsStart(args: seq<Cst>, rest: List<Tok>)
    requires args != []
    ensures TextArgs(args, false, rest).Cons? && !TextArgs(args, false, rest).head.Close?
  {
    StartIs(args[0], TextAfter(args, false, rest));
  }

  /** Where everything fits, no list has a comma at its end. */
  lemma {:induction false} RoomyTree(n: Node, ind: nat)
    requires Plain(n)
    ensures NoTrailing(Tree(ROOMY, n, ind)) && EmptyCallsFit(ROOMY, n, ind)
    decreases n, 1
  {
    if n.Call? {
      RoomyCall(n, ind);
    } else if n.Chain? {
      RoomyTree(n.operands[0], ind);
      RoomyOthers(n.op, Tree(ROOMY, n.operands[0], ind), n.operands[1..], ChainIndent(ROOMY, n, ind));
    }
  }

  lemma {:induction false} RoomyCall(n: Node, ind: nat)
    requires Plain(n) && n.Call?
    ensures NoTrailing(Tree(ROOMY, n, ind)) && EmptyCallsFit(ROOMY, n, ind)
    decreases n, 0
  {
    if IsNegation(n) {
      NegationUnfolds(ROOMY, n, ind);
      RoomyTree(n.args[1], ind);
    } else if IsPipe(n) {
      PipeUnfolds(ROOMY, n, ind);
      RoomySpine(n.args[0], PipeIndent(ROOMY, n, ind));
    } else if IsInfix(n) {
      InfixUnfolds(ROOMY, n, ind);
      RoomyTree(n.args[0], ind);
      RoomyTree(n.args[1], ind);
    } else if IsNamedInfix(n) {
      NamedUnfolds(ROOMY, n, ind);
      RoomyTree(n.args[0], ind);
      RoomyTree(n.args[1], RightIndent(ROOMY, n, ind));
    } else {
      ApplicationUnfolds(ROOMY, n, ind);
      RoomyAll(n.args, ArgIndent(ROOMY, n, ind));
    }
  }

  lemma {:induction false} RoomySpine(n: Node, ind: nat)
    requires Plain(n)
    ensures NoTrailing(TreeSpine(ROOMY, n, ind)) && EmptyCallsFitSpine(ROOMY, n, ind)
    decreases n, 2
  {
    if IsPipeCall(n) { RoomySpine(n.args[0], ind); } else { RoomyTree(n, ind); }
  }

  lemma {:induction false} RoomyAll(ns: seq<Node>, ind: nat)
    requires forall a :: a in ns ==> Plain(a)
    ensures forall c :: c in TreeAll(ROOMY, ns, ind) ==> NoTrailing(c)
    ensures forall a :: a in ns ==> EmptyCallsFit(ROOMY, a, ind)
    decreases ns, 0
  {
    if ns != [] {
      RoomyTree(ns[0], ind);
      RoomyAll(ns[1..], ind);
      assert ns == [ns[0]] + ns[1..];
    }
  }

  lemma {:induction false} RoomyOthers(op: ChainOp, left: Cst, ns: seq<Node>, ind: nat)
    requires NoTrailing(left) && forall a :: a in ns ==> Plain(a)
    ensures NoTrailing(TreeChain(ROOMY, op, left, ns, ind))
    ensures forall a :: a in ns ==> EmptyCallsFit(ROOMY, a, ind)
    decreases ns, 0
  {
    if ns != [] {
      RoomyTree(ns[0], ind);
      RoomyOthers(op, InfixC(Logic(op), left, Tree(ROOMY, ns[0], ind)), ns[1..], ind);
      assert ns == [ns[0]] + ns[1..];
    }
  }

  lemma SpellIsText(n: Node, rest: List<Tok>)
    requires Plain(n)
    ensures Spell(n, rest) == Text(Tree(ROOMY, n, 0), rest)
  {
    var d, c := Print(ROOMY, n, 0, false), Tree(ROOMY, n, 0);
    LayoutIndependence.Reads(ROOMY, n, 0, false);
    assert Emit(d, rest) == Spell(n, rest);
    EmitPlaces(d, Nil, rest);
    PrintsTree(ROOMY, n, 0, false, Nil);
    RoomyTree(n, 0);
    TextPlaced(c, Nil, rest);
  }

  // Operator expressions.

  lemma {:induction false} PlacedWhere(c: Cst, start: bool, rest: List<Tok>)
    requires Ended(rest)
    ensures Placed(c, start, Head(rest)) <==> Placed(c, start, Where(false, Final(rest)).next)
    decreases c
  {
    match c
    case NegC(x) => PlacedWhere(x, false, rest);
    case InfixC(_, _, r) => PlacedWhere(r, true, rest);
    case _ =>
  }

  /** The brackets of a tree match. */
  lemma {:induction false} ScanParens(c: Cst, rest: List<Tok>, k: nat)
    ensures AfterParen(Toks(c, rest), k) == AfterParen(rest, k)
    decreases c
  {
    match c
    case ParenC(x) => ScanParens(x, Cons(Close(Paren), rest), k + 1);
    case NegC(x) => ScanParens(x, rest, k);
    case InfixC(o, l, r) =>
      ScanParens(l, Cons(OpTok(o), Toks(r, rest)), k);
      ScanParens(r, rest, k);
    case AppC(f, args, trailing) =>
      ScanArgParens(args, trailing, rest, k);
      assert AfterParen(Cons(Comma, Cons(Close(Paren), rest)), k + 1) == AfterParen(rest, k);
    case _ =>
  }

  lemma {:induction false} ScanArgParens(args: seq<Cst>, trailing: bool, rest: List<Tok>, k: nat)
    ensures AfterParen(ArgToks(args, trailing, rest), k + 1) == AfterParen(rest, k)
    decreases args
  {
    if args != [] {
      ScanParens(args[0], if |args| == 1 && !trailing then Cons(Close(Paren), rest)
                          else Cons(Comma, ArgToks(args[1..], trailing, rest)), k + 1);
      ScanArgParens(args[1..], trailing, rest, k);
    }
  }

  /** A bracket that an operator expression starts with does not open parameters. */
  lemma {:induction false} NoLambda(c: Cst, rest: List<Tok>)
    requires !At(rest, Op(Arrow))
    ensures !IsLambda(Toks(c, rest)) && Toks(c, rest).Cons? && !Opens(Toks(c, rest)) && !AtWord(Toks(c, rest), WLet)
    decreases c
  {
    match c
    case ParenC(x) => ScanParens(x, Cons(Close(Paren), rest), 0);
    case InfixC(o, l, r) => NoLambda(l, Cons(OpTok(o), Toks(r, rest)));
    case _ =>
  }

  /** What is read for the spelling of an operator expression: the tokens of its tree. */
  lemma LexPlain(n: Node, behind: bool, rest: List<Tok>)
    requires Plain(n) && Faithful(n, Where(behind, Final(rest))) && Ended(rest)
    ensures var c := Tree(ROOMY, n, 0);
            && Lex(behind, Spell(n, rest)) == Toks(c, Lex(true, rest))
            && WF(c) && Placed(c, true, Head(rest)) && Ast(c) == n
  {
    var c := Tree(ROOMY, n, 0);
    RoomyTree(n, 0);
    FaithfulIsGood(ROOMY, n, 0, Where(behind, Final(rest)));
    SpellIsText(n, rest);
    LexClear(c, behind, rest);
    PlacedWhere(c, true, rest);
  }

  lemma TreeReads(c: Cst, after: List<Tok>)
    requires WF(c) && Placed(c, true, Head(after))
    requires Stops(after, 0) && !At(after, Open(Paren)) && !At(after, Op(Arrow))
    ensures ReadExpr(Toks(c, after)) == Some((Ast(c), after))
  {
    NoLambda(c, after);
    Complete(c, after, 0);
    assert ParseLoop(Ast(c), after, 0) == Some((Ast(c), after));
  }

  lemma {:induction false} TreeStarts(c: Cst, rest: List<Tok>)
    ensures Starter(Start(c)) && Start(c) != Keyword(WDo) && Start(c) != Keyword(WIf)
    ensures var ts := Toks(c, rest);
            ts.Cons? && Starter(ts.head) && ts.head != Keyword(WDo) && ts.head != Keyword(WIf)
    decreases c
  {
    if c.InfixC? { TreeStarts(c.left, Cons(OpTok(c.op), Toks(c.right, rest))); }
  }

  lemma PlainArrives(n: Node, behind: bool, rest: List<Tok>)
    requires Plain(n) && Faithful(n, Where(behind, Final(rest))) && Ended(rest)
    ensures Arrives(n, behind, rest)
  {
    var c := Tree(ROOMY, n, 0);
    LexPlain(n, behind, rest);
    LexEnded(true, rest);
    TreeReads(c, Lex(true, rest));
    TreeStarts(c, Lex(true, rest));
    SpellIsText(n, rest);
    StartIs(c, rest);
  }

  /** An operator expression that is faithful comes back. */
  lemma PlainComes(n: Node, behind: bool, final: bool)
    requires Plain(n) && Faithful(n, Where(behind, final))
    ensures Comes(n, behind, final)
  {
    forall rest | Ended(rest) && (Final(rest) <==> final)
      ensures Arrives(n, behind, rest)
    {
      PlainArrives(n, behind, rest);
    }
  }

  /** And its brackets match. */
  lemma PlainMatches(n: Node)
    requires Plain(n) && Faithful(n, Where(false, false))
    ensures DefaultMatches(Some(n))
  {
    forall rest, k: nat | Ended(rest) && !Final(rest)
      ensures AfterParen(Lex(true, SpellDefault(Some(n), rest)), k) == AfterParen(Lex(true, rest), k)
    {
      PlainMatchesAt(n, rest, k);
      assert Lex(true, O(Equals, Spell(n, rest))) == Cons(Op(Equals), Lex(false, Spell(n, rest)));
    }
  }

  lemma PlainMatchesAt(n: Node, rest: List<Tok>, k: nat)
    requires Plain(n) && Faithful(n, Where(false, false)) && Ended(rest) && !Final(rest)
    ensures AfterParen(Lex(false, Spell(n, rest)), k) == AfterParen(Lex(true, rest), k)
  {
    LexPlain(n, false, rest);
    ScanParens(Tree(ROOMY, n, 0), Lex(true, rest), k);
  }
}
