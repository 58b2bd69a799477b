/** The concrete syntax of every node kind as a token stream: what a printed node must read as, whatever
    its layout. Each function gives the tokens of its node in front of `rest`. */
module Spelling {
  import opened Options
  import opened Syntax
  import opened Docs
  import opened Printer

  function K(w: Word, rest: List<Tok>): List<Tok> { Cons(Keyword(w), rest) }
  function O(s: Sign, rest: List<Tok>): List<Tok> { Cons(Op(s), rest) }
  function Lb(b: Bracket, rest: List<Tok>): List<Tok> { Cons(Open(b), rest) }
  function Rb(b: Bracket, rest: List<Tok>): List<Tok> { Cons(Close(b), rest) }

  function Spell(n: Node, rest: List<Tok>): List<Tok>
    decreases n, 3
  {
    match n
    case Num(v) => if v < 0 then Cons(Dash, Cons(Number(-v), rest)) else Cons(Number(v), rest)
    case Atom(a) => Cons(AtomTok(a), rest)
    case Str(s) => Cons(Quoted(s), rest)
    case Reserved(w) => K(WReserved(w), rest)
    case Sym(s) => Cons(Ident(s), rest)
    case Builtin(b) => Cons(BuiltinTok(b), rest)
    case Effect(s) => Cons(EffectTok(s), rest)
    case Call(_, _, _) => SpellCall(n, rest)
    case MacroCall(f, operand) => Cons(Hash, Spell(f, Spell(operand, rest)))
    case If(cond, thn, els) =>
      if els.None? then Cons(Failed(MissingElse), rest)
      else
        var end := if els.value.If? then rest else K(WEnd, rest);
        K(WIf, Spell(cond, K(WThen, Spell(thn, K(WElse, Spell(els.value, end))))))
    case Block(stmts) => if stmts == [] then Cons(Failed(EmptyBlock), rest) else K(WDo, SpellBlock(stmts, rest))
    case Let(t, v) => K(WLet, SpellTarget(t, O(Equals, Spell(v, rest))))
    case Function(params, body, shorthand) =>
      if shorthand then O(Arrow, SpellBody(body, rest))
      else Lb(Paren, SpellTargets(params, Rb(Paren, O(Arrow, SpellBody(body, rest)))))
    case Macro(params, body) =>
      K(WMacro, Lb(Paren, SpellTargets(params, Rb(Paren, O(Arrow, SpellBody(body, rest))))))
    case Perform(eff, arg) =>
      K(WPerform, Lb(Paren, Spell(eff,
        if arg.None? then Rb(Paren, rest) else Push(Comma, Spell(arg.value, Rb(Paren, rest))))))
    case Array(elements) => Lb(Square, SpellSep(elements, Comma, Rb(Square, rest)))
    case Object(entries) => Lb(Curly, SpellEntries(entries, Rb(Curly, rest)))
    case Spread(x) => O(Dots, Spell(x, rest))
    case Chain(op, operands) => SpellSep(operands, Op(ChainSign(op)), rest)
    case Recur(operands) => K(WRecur, Lb(Paren, SpellSep(operands, Comma, Rb(Paren, rest))))
    case Loop(bindings, body) =>
      K(WLoop, Lb(Paren, SpellBindings(bindings, Comma, Rb(Paren, O(Arrow, Spell(body, rest))))))
    case For(levels, body) => K(WFor, Lb(Paren, SpellLevels(levels, Rb(Paren, O(Arrow, Spell(body, rest))))))
    case Match(subject, cases) => K(WMatch, Spell(subject, SpellCases(cases, K(WEnd, rest))))
    case Import(name) => K(WImport, Lb(Paren, Cons(BareQuoted(name), Rb(Paren, rest))))
    case TmplStr(segments) => Cons(Backtick, SpellSegments(segments, Cons(Backtick, rest)))
    case Wrap(w, x) => K(WrapperWord(w), Lb(Paren, Spell(x, Rb(Paren, rest))))
    case CodeTmpl(_, _) => K(WQuote, SpellTemplate(n, 0, K(WEnd, rest)))
    case Splice(_) => Cons(SpliceMark, rest)
    case Handler(clauses, transform) => K(WHandler, SpellClauses(clauses, SpellTransform(transform, K(WEnd, rest))))
    case Resume(arg) => K(WResume, if arg.None? then rest else Lb(Paren, Spell(arg.value, Rb(Paren, rest))))
    case WithHandler(h, body) => K(WWith, Spell(h, Push(Semicolon, SpellSep(body, Semicolon, rest))))
    case Pattern(t) => SpellTarget(t, rest)
    case Unknown(tag) => Cons(Raw(tag), rest)
  }

  function SpellSep(ns: seq<Node>, sep: Tok, rest: List<Tok>): List<Tok>
    decreases ns, 0
  {
    if ns == [] then rest
    else if |ns| == 1 then Spell(ns[0], rest)
    else Spell(ns[0], Push(sep, SpellSep(ns[1..], sep, rest)))
  }

  function SpellSpine(n: Node, chain: seq<Node>, rest: List<Tok>): List<Tok>
    requires forall x :: x in chain ==> x < n
    decreases n, 0, |chain|
  {
    if chain == [] then rest
    else
      assert chain[0] in chain && forall x :: x in chain[1..] ==> x in chain;
      if |chain| == 1 then Spell(chain[0], rest)
      else Spell(chain[0], O(PipeSign, SpellSpine(n, chain[1..], rest)))
  }

  function SpellBlock(stmts: seq<Node>, rest: List<Tok>): List<Tok>
    decreases stmts, 1
  {
    SpellSep(stmts, Semicolon, K(WEnd, rest))
  }

  function SpellBody(body: seq<Node>, rest: List<Tok>): List<Tok>
    decreases body, 2
  {
    if |body| == 1 && !body[0].WithHandler? then Spell(body[0], rest) else K(WDo, SpellBlock(body, rest))
  }

  function SpellOperand(outer: BinOp, operand: Node, isRight: bool, rest: List<Tok>): List<Tok>
    decreases operand, 4
  {
    if NeedsParens(outer, operand, isRight) then Lb(Paren, Spell(operand, Rb(Paren, rest))) else Spell(operand, rest)
  }

  function SpellCallee(fn: Node, rest: List<Tok>): List<Tok>
    decreases fn, 4
  {
    if fn.Function? || fn.Macro? then Lb(Paren, Spell(fn, Rb(Paren, rest))) else Spell(fn, rest)
  }

  function SpellCall(n: Node, rest: List<Tok>): List<Tok>
    requires n.Call?
    decreases n, 2
  {
    if IsNegation(n) then Cons(Dash, Spell(n.args[1], rest))
    else if IsSafeAccess(n) then Spell(n.args[0], O(SafeDot, Cons(Ident(n.args[1].text), rest)))
    else if IsPipe(n) then SpellSpine(n, PipeChain(n), rest)
    else if IsInfix(n) then
      var op := n.fn.builtin.op;
      SpellOperand(op, n.args[0], false, O(Bin(op), SpellOperand(op, n.args[1], true, rest)))
    else if IsNamedInfix(n) then
      Spell(n.args[0], Cons(NameTok(n.fn), Spell(n.args[1], rest)))
    else SpellCallee(n.fn, Lb(Paren, SpellSep(n.args, Comma, Rb(Paren, rest))))
  }

  function SpellEntries(es: seq<Entry>, rest: List<Tok>): List<Tok>
    decreases es, 0
  {
    if es == [] then rest
    else if |es| == 1 then SpellEntry(es[0], rest)
    else SpellEntry(es[0], Push(Comma, SpellEntries(es[1..], rest)))
  }

  function SpellEntry(e: Entry, rest: List<Tok>): List<Tok>
    decreases e, 0
  {
    match e
    case SpreadEntry(x) => O(Dots, Spell(x, rest))
    case Pair(key, value) =>
      if key.Str? && IsIdentifier(key.text) && value == Sym(key.text) then Cons(Ident(key.text), rest)
      else if key.Str? then
        Cons(if IsIdentifier(key.text) then Ident(key.text) else BareQuoted(key.text), O(Colon, Spell(value, rest)))
      else Lb(Square, Spell(key, Rb(Square, O(Colon, Spell(value, rest)))))
  }

  function SpellBindings(bs: seq<Binding>, sep: Tok, rest: List<Tok>): List<Tok>
    decreases bs, 0
  {
    if bs == [] then rest
    else if |bs| == 1 then SpellBinding(bs[0], rest)
    else SpellBinding(bs[0], Push(sep, SpellBindings(bs[1..], sep, rest)))
  }

  function SpellBinding(b: Binding, rest: List<Tok>): List<Tok>
    decreases b, 0
  {
    SpellTarget(b.target, O(Equals, Spell(b.value, rest)))
  }

  function SpellLevels(levels: seq<Level>, rest: List<Tok>): List<Tok>
    decreases levels, 0
  {
    if levels == [] then rest
    else if |levels| == 1 then SpellLevel(levels[0], rest)
    else SpellLevel(levels[0], Push(Comma, SpellLevels(levels[1..], rest)))
  }

  function SpellLevel(level: Level, rest: List<Tok>): List<Tok>
    decreases level, 0
  {
    var guards := SpellGuard(WWhen, level.whenGuard, SpellGuard(WWhile, level.whileGuard, rest));
    SpellTarget(level.target, K(WIn, Spell(level.collection,
      if level.lets == [] then guards else K(WLet, SpellBindings(level.lets, Keyword(WLet), guards)))))
  }

  function SpellGuard(word: Word, guard: Option<Node>, rest: List<Tok>): List<Tok>
    decreases guard, 0
  {
    if guard.None? then rest else K(word, Spell(guard.value, rest))
  }

  function SpellCases(cases: seq<Case>, rest: List<Tok>): List<Tok>
    decreases cases, 0
  {
    if cases == [] then rest else SpellCase(cases[0], SpellCases(cases[1..], rest))
  }

  function SpellCase(c: Case, rest: List<Tok>): List<Tok>
    decreases c, 0
  {
    K(WCase, SpellTarget(c.pattern, SpellGuard(WWhen, c.guard, K(WThen, Spell(c.result, rest)))))
  }

  function SpellSegments(segments: seq<Node>, rest: List<Tok>): List<Tok>
    decreases segments, 0
  {
    if segments == [] then rest
    else if segments[0].Str? then Cons(Raw(segments[0].text), SpellSegments(segments[1..], rest))
    else Lb(TemplateHole, Spell(segments[0], Rb(Curly, SpellSegments(segments[1..], rest))))
  }

  function SpellTemplate(n: Node, k: nat, rest: List<Tok>): List<Tok>
    requires n.CodeTmpl? && k <= |n.body|
    decreases n, 1, |n.body| - k
  {
    if k == |n.body| then rest
    else if k + 1 == |n.body| then SpellTemplateStatement(n, k, rest)
    else SpellTemplateStatement(n, k, Push(Semicolon, SpellTemplate(n, k + 1, rest)))
  }

  function SpellTemplateStatement(n: Node, k: nat, rest: List<Tok>): List<Tok>
    requires n.CodeTmpl? && k < |n.body|
    decreases n, 0
  {
    var stmt := n.body[k];
    if !stmt.Splice? then Spell(stmt, rest)
    else if stmt.index < |n.splices| then Lb(SpliceHole, Spell(n.splices[stmt.index], Rb(Curly, rest)))
    else Cons(Failed(BadSplice), rest)
  }

  function SpellClauses(cs: seq<Clause>, rest: List<Tok>): List<Tok>
    decreases cs, 0
  {
    if cs == [] then rest else SpellClause(cs[0], SpellClauses(cs[1..], rest))
  }

  function SpellClause(c: Clause, rest: List<Tok>): List<Tok>
    decreases c, 0
  {
    Cons(EffectTok(c.effectName), Lb(Paren, SpellTargets(c.params, Rb(Paren, O(Arrow, SpellBody(c.body, rest))))))
  }

  function SpellTransform(t: Option<Transform>, rest: List<Tok>): List<Tok>
    decreases t, 0
  {
    if t.None? then rest else K(WTransform, SpellTarget(t.value.param, O(Arrow, SpellBody(t.value.body, rest))))
  }

  function SpellDefault(default: Option<Node>, rest: List<Tok>): List<Tok>
    decreases default, 0
  {
    if default.None? then rest else O(Equals, Spell(default.value, rest))
  }

  function SpellTarget(t: Target, rest: List<Tok>): List<Tok>
    decreases t, 1
  {
    match t
    case SymbolTarget(name, default) => Cons(Ident(name), SpellDefault(default, rest))
    case RestTarget(name, default) => O(Dots, Cons(Ident(name), SpellDefault(default, rest)))
    case ArrayTarget(items, default) => Lb(Square, SpellItems(items, Rb(Square, SpellDefault(default, rest))))
    case ObjectTarget(fields, default) => Lb(Curly, SpellFields(fields, Rb(Curly, SpellDefault(default, rest))))
    case LiteralTarget(e) => Spell(e, rest)
    case Wildcard => K(WReserved(Hole), rest)
    case UnknownTarget(tag) => Cons(Raw(tag), rest)
  }

  function SpellTargets(ts: seq<Target>, rest: List<Tok>): List<Tok>
    decreases ts, 0
  {
    if ts == [] then rest
    else if |ts| == 1 then SpellTarget(ts[0], rest)
    else SpellTarget(ts[0], Push(Comma, SpellTargets(ts[1..], rest)))
  }

  function SpellItems(ts: seq<Option<Target>>, rest: List<Tok>): List<Tok>
    decreases ts, 0
  {
    if ts == [] then rest
    else if |ts| == 1 then SpellItem(ts[0], rest)
    else SpellItem(ts[0], Push(Comma, SpellItems(ts[1..], rest)))
  }

  function SpellItem(t: Option<Target>, rest: List<Tok>): List<Tok>
    decreases t, 0
  {
    if t.None? then rest else SpellTarget(t.value, rest)
  }

  function SpellFields(fs: seq<Field>, rest: List<Tok>): List<Tok>
    decreases fs, 0
  {
    if fs == [] then rest
    else if |fs| == 1 then SpellField(fs[0], rest)
    else SpellField(fs[0], Push(Comma, SpellFields(fs[1..], rest)))
  }

  function SpellField(f: Field, rest: List<Tok>): List<Tok>
    decreases f, 0
  {
    match f.target
    case RestTarget(name, _) => O(Dots, Cons(Ident(name), rest))
    case SymbolTarget(name, _) =>
      if name == f.key then SpellTarget(f.target, rest)
      else Cons(Ident(f.key), K(WAs, SpellTarget(f.target, rest)))
    case _ => Cons(Ident(f.key), O(Colon, SpellTarget(f.target, rest)))
  }
}
