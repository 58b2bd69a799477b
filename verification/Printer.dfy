/** The pretty printer. Every compound printer first tries one line and breaks when that does not fit;
    what fits is left to an arbitrary `Layout`, so nothing here depends on the width of a page. */
module Printer {
  import opened Options
  import opened Syntax
  import opened Docs

  /** The printer's questions about text it has already produced. */
  datatype Layout = Layout(
    fits: (Doc, nat) -> bool,      // does the text fit on one line at this indent?
    oneLine: Doc -> bool,          // is the text free of line breaks?
    fitsLast: (Doc, Doc) -> bool,  // does the second text still fit on the first text's last line?
    fitsOpening: (Doc, Doc, nat) -> bool,  // does the first line of the second text fit behind the first text?
    hangs: (Doc, nat) -> bool,     // does the text end in an `end` at this indent?
    maxInline: nat)                // how many elements a one-line array or object may have

  function Kw(w: Word): Doc { Tok(Keyword(w)) }

  const LPAREN := Tok(Open(Paren))
  const RPAREN := Tok(Close(Paren))
  const COMMA_SP := Cat(Tok(Comma), SP)

  function Parens(d: Doc): Doc { LPAREN.Then(d).Then(RPAREN) }

  function ChainSign(op: ChainOp): Sign {
    match op case And => AndSign case Or => OrSign case Qq => QqSign
  }

  function WrapperWord(w: Wrapper): Word {
    match w case Parallel => WParallel case Race => WRace case Settled => WSettled
  }

  /** How a builtin's name reads. */
  function BuiltinTok(b: BuiltinName): Tok {
    match b
    case Infix(op) => Op(Bin(op))
    case Bang => Op(BangSign)
    case Get => Ident("get")
    case Named(name) => Ident(name)
  }

  /** How a function's name reads between operands. */
  function NameTok(fn: Node): Tok
    requires fn.Sym? || fn.Builtin?
  {
    if fn.Builtin? then BuiltinTok(fn.builtin) else Ident(fn.name)
  }

  // The branches of the call printer, in the order in which it tries them.

  predicate IsNegation(n: Node) {
    n.Call? && n.fn == Builtin(Infix(Sub)) && |n.args| == 2 && n.args[0] == Num(0)
  }

  predicate IsSafeAccess(n: Node) {
    n.Call? && n.fn == Builtin(Get) && |n.args| == 2 && n.args[1].Str? && IsIdentifier(n.args[1].text)
  }

  predicate IsPipe(n: Node) {
    n.Call? && n.hints.isPipe && |PipeChain(n)| > 0
  }

  predicate IsInfixCall(n: Node) {
    n.Call? && n.fn.Builtin? && n.fn.builtin.Infix? && |n.args| == 2
  }

  predicate IsInfix(n: Node) { IsInfixCall(n) && HOLE !in n.args }

  predicate IsNamedInfix(n: Node) {
    n.Call? && n.hints.isInfix && (n.fn.Sym? || n.fn.Builtin?) && |n.args| == 2
  }

  /** The printer's own table; higher binds tighter. */
  function Precedence(op: BinOp): nat {
    match op
    case BitAnd | BitOr | Xor => 5
    case Eq | Neq => 6
    case Lt | Gt | Le | Ge => 7
    case Concat => 8
    case Shl | Shr | UShr => 9
    case Add | Sub => 10
    case Mul | Div | Rem => 11
    case Pow => 12
  }

  /** An operand is put in parentheses when its operator binds looser than the outer one, or equally tight
      on the right-hand side. */
  predicate NeedsParens(outer: BinOp, operand: Node, isRight: bool) {
    IsInfixCall(operand) &&
    (Precedence(operand.fn.builtin.op) < Precedence(outer) ||
     (isRight && Precedence(operand.fn.builtin.op) == Precedence(outer)))
  }

  // Pipe chains.

  predicate IsPipeStep(n: Node) {
    n.Call? && |n.args| == 1 && (n.fn.Sym? || n.fn.Builtin?)
  }

  /** The innermost argument followed by the callees, inner first, of the calls at `n` that were authored
      as pipe steps. */
  function PipeSpine(n: Node): (chain: seq<Node>)
    ensures |chain| > 0 && forall x :: x in chain ==> x == n || x < n
  {
    if IsPipeStep(n) && n.hints.isPipe then PipeSpine(n.args[0]) + [n.fn] else [n]
  }

  /** The chain of a call, or nothing when it has fewer than two steps. The outermost call need not be
      marked as a pipe here: its caller has looked at that. */
  function PipeChain(n: Node): (chain: seq<Node>)
    ensures forall x :: x in chain ==> x < n
  {
    if !IsPipeStep(n) then [] else
      var spine := PipeSpine(n.args[0]);
      assert n.args[0] < n;
      if |spine| < 2 then [] else spine + [n.fn]
  }

  // Printing.

  function Print(L: Layout, n: Node, ind: nat, root: bool): Doc
    decreases n, 3
  {
    match n
    case Num(v) => if v < 0 then Tok(Dash).Add(Number(-v)) else Tok(Number(v))
    case Atom(a) => Tok(AtomTok(a))
    case Str(s) => Tok(Quoted(s))
    case Reserved(w) => Tok(Keyword(WReserved(w)))
    case Sym(s) => Tok(Ident(s))
    case Builtin(b) => Tok(BuiltinTok(b))
    case Effect(s) => Tok(EffectTok(s))
    case Call(_, _, _) => PrintCall(L, n, ind)
    case MacroCall(_, _) => PrintMacroCall(L, n, ind, root)
    case If(_, _, _) => PrintIf(L, n, ind)
    case Block(_) => PrintBlock(L, n, ind)
    case Let(_, _) => PrintLet(L, n, ind)
    case Function(_, _, _) => PrintFunction(L, n, ind)
    case Macro(_, _) => PrintMacro(L, n, ind)
    case Perform(_, _) => PrintPerform(L, n, ind)
    case Array(_) => PrintArray(L, n, ind)
    case Object(_) => PrintObject(L, n, ind)
    case Spread(x) => Tok(Op(Dots)).Then(Print(L, x, ind, false))
    case Chain(_, _) => PrintChain(L, n, ind)
    case Recur(operands) => PrintArguments(L, Kw(WRecur), operands, ind)
    case Loop(_, _) => PrintLoop(L, n, ind)
    case For(_, _) => PrintFor(L, n, ind)
    case Match(_, _) => PrintMatch(L, n, ind)
    case Import(name) => Kw(WImport).Then(Parens(Tok(BareQuoted(name))))
    case TmplStr(segments) => Tok(Backtick).Then(PrintSegments(L, segments)).Add(Backtick)
    case Wrap(w, x) => Kw(WrapperWord(w)).Then(Parens(Print(L, x, ind, false)))
    case CodeTmpl(_, _) => PrintTemplate(L, n, ind)
    case Splice(_) => Tok(SpliceMark)
    case Handler(_, _) => PrintHandler(L, n, ind)
    case Resume(arg) =>
      if arg.None? then Kw(WResume) else Kw(WResume).Then(Parens(Print(L, arg.value, ind, false)))
    case WithHandler(_, _) => PrintWithHandler(L, n, ind)
    case Pattern(t) => PrintTarget(L, t)
    case Unknown(tag) => Tok(Raw(tag))
  }

  /** The nodes `ns`, each behind the blank `lead`, separated by `sep`. */
  function PrintSep(L: Layout, ns: seq<Node>, ind: nat, root: bool, lead: Doc, sep: Doc): Doc
    decreases ns, 0
  {
    if ns == [] then Empty
    else
      var first := lead.Then(Print(L, ns[0], ind, root));
      if |ns| == 1 then first else first.Then(sep).Then(PrintSep(L, ns[1..], ind, root, lead, sep))
  }

  /** The same for a chain of nodes that all lie below `n`. */
  function PrintSpine(L: Layout, n: Node, chain: seq<Node>, ind: nat, sep: Doc): Doc
    requires forall x :: x in chain ==> x < n
    decreases n, 0, |chain|
  {
    if chain == [] then Empty
    else
      assert chain[0] in chain && forall x :: x in chain[1..] ==> x in chain;
      var first := Print(L, chain[0], ind, false);
      if |chain| == 1 then first else first.Then(sep).Then(PrintSpine(L, n, chain[1..], ind, sep))
  }

  function PrintOperand(L: Layout, outer: BinOp, operand: Node, isRight: bool, ind: nat): Doc
    decreases operand, 4
  {
    var d := Print(L, operand, ind, false);
    if NeedsParens(outer, operand, isRight) then Parens(d) else d
  }

  function PrintCall(L: Layout, n: Node, ind: nat): Doc
    requires n.Call?
    decreases n, 2
  {
    if IsNegation(n) then
      Tok(Dash).Then(Print(L, n.args[1], ind, false))
    else if IsSafeAccess(n) then
      Print(L, n.args[0], ind, false).Add(Op(SafeDot)).Add(Ident(n.args[1].text))
    else if IsPipe(n) then
      var flat := PrintSpine(L, n, PipeChain(n), ind, SP.Add(Op(PipeSign)).Then(SP));
      if L.oneLine(flat) && L.fits(flat, ind) then flat
      else PrintSpine(L, n, PipeChain(n), ind + 1, NewLine(ind + 1).Add(Op(PipeSign)).Then(SP))
    else if IsInfix(n) then
      var op := n.fn.builtin.op;
      PrintOperand(L, op, n.args[0], false, ind).Then(SP).Add(Op(Bin(op))).Then(SP)
      .Then(PrintOperand(L, op, n.args[1], true, ind))
    else if IsNamedInfix(n) then
      PrintNamedInfix(L, n, ind)
    else
      PrintApplication(L, n, ind)
  }

  /** `a foo b`, broken around the operator name as its operands require. */
  function PrintNamedInfix(L: Layout, n: Node, ind: nat): Doc
    requires IsNamedInfix(n)
    decreases n, 1
  {
    var op := Tok(NameTok(n.fn));
    var left := Print(L, n.args[0], ind, false);
    var right := Print(L, n.args[1], ind, false);
    var flat := left.Then(SP).Then(op).Then(SP).Then(right);
    var broken := left.Then(NewLine(ind + 1)).Then(op).Then(SP).Then(right);
    if L.oneLine(left) && L.oneLine(right) then
      if L.fits(flat, ind) then flat else broken
    else if !L.oneLine(right) then
      var deeper := Print(L, n.args[1], ind + 1, false);
      if L.oneLine(left) then left.Then(SP).Then(op).Then(NewLine(ind + 1)).Then(deeper)
      else left.Then(NewLine(ind + 1)).Then(op).Then(NewLine(ind + 1)).Then(deeper)
    else
      var trailing := SP.Then(op).Then(SP).Then(right);
      if L.fitsLast(left, trailing) then left.Then(trailing) else broken
  }

  /** A lambda or macro in callee position is put in parentheses. */
  function PrintCallee(L: Layout, fn: Node, ind: nat): Doc
    decreases fn, 4
  {
    if fn.Function? || fn.Macro? then Parens(Print(L, fn, ind, false)) else Print(L, fn, ind, false)
  }

  /** `f(a, b)`: on one line, with a trailing lambda hanging from the opening line, or one argument a line. */
  function PrintApplication(L: Layout, n: Node, ind: nat): Doc
    requires n.Call?
    decreases n, 1
  {
    var fn := PrintCallee(L, n.fn, ind);
    var here := PrintSep(L, n.args, ind, false, Empty, COMMA_SP);
    var flat := fn.Then(LPAREN).Then(here).Then(RPAREN);
    if L.oneLine(fn) && L.oneLine(here) && L.fits(flat, ind) then flat
    else if HangsLambda(L, n, fn, ind) then PrintHanging(L, n, fn, ind)
    else fn.Then(LPAREN).Then(PrintBrokenList(L, n.args, ind)).Then(RPAREN)
  }

  /** The last argument is a lambda whose block can hang from the line that opens the call. */
  predicate HangsLambda(L: Layout, n: Node, fn: Doc, ind: nat)
    requires n.Call?
    decreases n, 0
  {
    |n.args| >= 2 && n.args[|n.args| - 1].Function? &&
    var leading := PrintSep(L, n.args[..|n.args| - 1], ind, false, Empty, COMMA_SP);
    var lambda := Print(L, n.args[|n.args| - 1], ind, false);
    L.oneLine(leading) && !L.oneLine(lambda) && L.hangs(lambda, ind) &&
    L.fitsOpening(fn.Then(LPAREN).Then(leading).Then(COMMA_SP), lambda, ind)
  }

  function PrintHanging(L: Layout, n: Node, fn: Doc, ind: nat): Doc
    requires n.Call? && |n.args| >= 2
    decreases n, 0
  {
    fn.Then(LPAREN).Then(PrintSep(L, n.args[..|n.args| - 1], ind, false, Empty, COMMA_SP)).Then(COMMA_SP)
    .Then(Print(L, n.args[|n.args| - 1], ind, false)).Then(RPAREN)
  }

  /** The inside of a bracket with one element a line and a comma after the last, even when there is none. */
  function PrintBrokenList(L: Layout, ns: seq<Node>, ind: nat): Doc
    decreases ns, 1
  {
    NewLine(0).Then(PrintSep(L, ns, ind + 1, false, Blank(false, ind + 1), Cat(Tok(Comma), NewLine(0))))
    .Add(Comma).Then(NewLine(ind))
  }

  function PrintArguments(L: Layout, name: Doc, ns: seq<Node>, ind: nat): Doc
    decreases ns, 2
  {
    var here := PrintSep(L, ns, ind, false, Empty, COMMA_SP);
    var flat := name.Then(LPAREN).Then(here).Then(RPAREN);
    if L.oneLine(here) && L.fits(flat, ind) then flat
    else name.Then(LPAREN).Then(PrintBrokenList(L, ns, ind)).Then(RPAREN)
  }

  /** `#name operand`; in a statement position a decorated `let` or macro call starts its own line. */
  function PrintMacroCall(L: Layout, n: Node, ind: nat, root: bool): Doc
    requires n.MacroCall?
    decreases n, 2
  {
    var macro := Tok(Hash).Then(Print(L, n.fn, ind, false));
    var here := Print(L, n.operand, ind, false);
    var flat := macro.Then(SP).Then(here);
    if root && (n.operand.Let? || n.operand.MacroCall?) then
      macro.Then(NewLine(ind)).Then(Print(L, n.operand, ind, true))
    else if L.oneLine(here) && L.fits(flat, ind) then flat
    else macro.Then(NewLine(ind + 1)).Then(Print(L, n.operand, ind + 1, false))
  }

  /** An `else if` chain shares one `end`, which its innermost `if` prints. */
  function PrintIf(L: Layout, n: Node, ind: nat): Doc
    requires n.If?
    decreases n, 2
  {
    if n.els.None? then Tok(Failed(MissingElse)) else
    var els := n.els.value;
    var cond := Print(L, n.cond, ind, false);
    var thn := Print(L, n.thn, ind, false);
    var other := if els.If? then PrintIf(L, els, ind) else Print(L, els, ind, false);
    var head := Kw(WIf).Then(SP).Then(cond).Then(SP).Add(Keyword(WThen));
    var flat0 := head.Then(SP).Then(thn).Then(SP).Add(Keyword(WElse)).Then(SP).Then(other);
    var flat := if els.If? then flat0 else flat0.Then(SP).Add(Keyword(WEnd));
    if L.oneLine(cond) && L.oneLine(thn) && L.oneLine(other) && L.fits(flat, ind) then flat
    else
      var top := head.Then(NewLine(ind + 1)).Then(Print(L, n.thn, ind + 1, false))
                 .Then(NewLine(ind)).Add(Keyword(WElse));
      if els.If? then top.Then(SP).Then(other)
      else top.Then(NewLine(ind + 1)).Then(Print(L, els, ind + 1, false)).Then(NewLine(ind)).Add(Keyword(WEnd))
  }

  /** Statements one a line up to `end`, each closed by a semicolon, the last one too. */
  function PrintStatements(L: Layout, opener: Doc, stmts: seq<Node>, ind: nat): Doc
    decreases stmts, 1
  {
    opener.Then(NewLine(0))
    .Then(PrintSep(L, stmts, ind + 1, true, Blank(false, ind + 1), Cat(Tok(Semicolon), NewLine(0))))
    .Then(if stmts == [] then Empty else Tok(Semicolon)).Then(NewLine(ind)).Add(Keyword(WEnd))
  }

  function PrintBlock(L: Layout, n: Node, ind: nat): Doc
    requires n.Block?
    decreases n, 2
  {
    if n.stmts == [] then Tok(Failed(EmptyBlock))
    else if |n.stmts| == 1 then
      var only := Print(L, n.stmts[0], ind, false);
      var flat := Kw(WDo).Then(SP).Then(only).Then(SP).Add(Keyword(WEnd));
      if L.oneLine(only) && L.fits(flat, ind) then flat else PrintStatements(L, Kw(WDo), n.stmts, ind)
    else PrintStatements(L, Kw(WDo), n.stmts, ind)
  }

  function PrintLet(L: Layout, n: Node, ind: nat): Doc
    requires n.Let?
    decreases n, 2
  {
    var prefix := Kw(WLet).Then(SP).Then(PrintTarget(L, n.target)).Then(SP).Add(Op(Equals)).Then(SP);
    var value := Print(L, n.bound, ind, false);
    if L.oneLine(value) && !L.fits(prefix.Then(value), ind) then
      prefix.Then(NewLine(ind + 1)).Then(Print(L, n.bound, ind + 1, false))
    else prefix.Then(value)
  }

  function PrintFunction(L: Layout, n: Node, ind: nat): Doc
    requires n.Function?
    decreases n, 2
  {
    PrintArrow(L, if n.shorthand then Empty else Parens(PrintTargets(L, n.params)).Then(SP), n.body, ind)
  }

  function PrintMacro(L: Layout, n: Node, ind: nat): Doc
    requires n.Macro?
    decreases n, 2
  {
    PrintArrow(L, Kw(WMacro).Then(SP).Then(Parens(PrintTargets(L, n.params))).Then(SP), n.body, ind)
  }

  /** A lambda or macro body behind its arrow. A body of several statements, or one that starts a `with`,
      always becomes a block. */
  function PrintArrow(L: Layout, head: Doc, body: seq<Node>, ind: nat): Doc
    decreases body, 2
  {
    var arrow := head.Add(Op(Arrow));
    if |body| == 1 && !body[0].WithHandler? then
      var here := Print(L, body[0], ind, false);
      var flat := arrow.Then(SP).Then(here);
      if L.oneLine(here) && L.fits(flat, ind) then flat
      else arrow.Then(NewLine(ind + 1)).Then(Print(L, body[0], ind + 1, false))
    else
      PrintStatements(L, arrow.Then(SP).Add(Keyword(WDo)), body, ind)
  }

  function PrintPerform(L: Layout, n: Node, ind: nat): Doc
    requires n.Perform?
    decreases n, 2
  {
    var eff := Print(L, n.effect, ind, false);
    if n.arg.None? then Kw(WPerform).Then(Parens(eff)) else
    var arg := Print(L, n.arg.value, ind, false);
    var flat := Kw(WPerform).Then(LPAREN).Then(eff).Then(COMMA_SP).Then(arg).Then(RPAREN);
    if L.oneLine(eff) && L.oneLine(arg) && L.fits(flat, ind) then flat
    else Kw(WPerform).Then(LPAREN).Then(NewLine(ind + 1)).Then(eff).Add(Comma).Then(NewLine(ind + 1))
         .Then(Print(L, n.arg.value, ind + 1, false)).Add(Comma).Then(NewLine(ind)).Then(RPAREN)
  }

  function PrintArray(L: Layout, n: Node, ind: nat): Doc
    requires n.Array?
    decreases n, 2
  {
    var here := PrintSep(L, n.elements, ind, false, Empty, COMMA_SP);
    var flat := Tok(Open(Square)).Then(here).Add(Close(Square));
    if n.elements == [] then Tok(Open(Square)).Add(Close(Square))
    else if |n.elements| <= L.maxInline && L.oneLine(here) && L.fits(flat, ind) then flat
    else Tok(Open(Square)).Then(PrintBrokenList(L, n.elements, ind)).Add(Close(Square))
  }

  function PrintObject(L: Layout, n: Node, ind: nat): Doc
    requires n.Object?
    decreases n, 2
  {
    var here := PrintEntries(L, n.entries, ind, Empty, COMMA_SP);
    var flat := Tok(Open(Curly)).Then(SP).Then(here).Then(SP).Add(Close(Curly));
    if n.entries == [] then Tok(Open(Curly)).Add(Close(Curly))
    else if |n.entries| <= L.maxInline && L.oneLine(here) && L.fits(flat, ind) then flat
    else
      Tok(Open(Curly)).Then(NewLine(0))
      .Then(PrintEntries(L, n.entries, ind + 1, Blank(false, ind + 1), Cat(Tok(Comma), NewLine(0))))
      .Add(Comma).Then(NewLine(ind)).Add(Close(Curly))
  }

  function PrintEntries(L: Layout, es: seq<Entry>, ind: nat, lead: Doc, sep: Doc): Doc
    decreases es, 0
  {
    if es == [] then Empty
    else
      var first := lead.Then(PrintEntry(L, es[0], ind));
      if |es| == 1 then first else first.Then(sep).Then(PrintEntries(L, es[1..], ind, lead, sep))
  }

  /** `{ x: x }` shortens to `{ x }`; a key that is no identifier goes between quotes as it is. */
  function PrintEntry(L: Layout, e: Entry, ind: nat): Doc
    decreases e, 0
  {
    match e
    case SpreadEntry(x) => Tok(Op(Dots)).Then(Print(L, x, ind, false))
    case Pair(key, value) =>
      if key.Str? then
        if IsIdentifier(key.text) && value == Sym(key.text) then Tok(Ident(key.text))
        else
          Tok(if IsIdentifier(key.text) then Ident(key.text) else BareQuoted(key.text))
          .Add(Op(Colon)).Then(SP).Then(Print(L, value, ind, false))
      else
        Tok(Open(Square)).Then(Print(L, key, ind, false)).Add(Close(Square)).Add(Op(Colon)).Then(SP)
        .Then(Print(L, value, ind, false))
  }

  function PrintChain(L: Layout, n: Node, ind: nat): Doc
    requires n.Chain?
    decreases n, 2
  {
    var op := Op(ChainSign(n.op));
    var flat := PrintSep(L, n.operands, ind, false, Empty, SP.Add(op).Then(SP));
    if L.oneLine(flat) && L.fits(flat, ind) then flat
    else if n.operands == [] then Tok(Undefined).Then(NewLine(0))
    else if |n.operands| == 1 then Print(L, n.operands[0], ind, false).Then(NewLine(0))
    else
      Print(L, n.operands[0], ind, false).Then(NewLine(ind + 1)).Add(op).Then(SP)
      .Then(PrintSep(L, n.operands[1..], ind + 1, false, Empty, NewLine(ind + 1).Add(op).Then(SP)))
  }

  function PrintLoop(L: Layout, n: Node, ind: nat): Doc
    requires n.Loop?
    decreases n, 2
  {
    PrintLoopBody(L, Kw(WLoop).Then(SP).Then(Parens(PrintBindings(L, n.bindings, ind, COMMA_SP))), n.loopBody, ind)
  }

  function PrintFor(L: Layout, n: Node, ind: nat): Doc
    requires n.For?
    decreases n, 2
  {
    PrintLoopBody(L, Kw(WFor).Then(SP).Then(Parens(PrintLevels(L, n.levels, ind))), n.loopBody, ind)
  }

  /** The bracketed head of a loop stays on its line, the body may move to the next. */
  function PrintLoopBody(L: Layout, head: Doc, body: Node, ind: nat): Doc
    decreases body, 4
  {
    var arrow := head.Then(SP).Add(Op(Arrow));
    var here := Print(L, body, ind, true);
    var flat := arrow.Then(SP).Then(here);
    if L.oneLine(head) && L.oneLine(here) && L.fits(flat, ind) then flat
    else arrow.Then(NewLine(ind + 1)).Then(Print(L, body, ind + 1, true))
  }

  function PrintBindings(L: Layout, bs: seq<Binding>, ind: nat, sep: Doc): Doc
    decreases bs, 0
  {
    if bs == [] then Empty
    else
      var first := PrintBinding(L, bs[0], ind);
      if |bs| == 1 then first else first.Then(sep).Then(PrintBindings(L, bs[1..], ind, sep))
  }

  function PrintBinding(L: Layout, b: Binding, ind: nat): Doc
    decreases b, 0
  {
    PrintTarget(L, b.target).Then(SP).Add(Op(Equals)).Then(SP).Then(Print(L, b.value, ind, false))
  }

  function PrintLevels(L: Layout, levels: seq<Level>, ind: nat): Doc
    decreases levels, 0
  {
    if levels == [] then Empty
    else
      var first := PrintLevel(L, levels[0], ind);
      if |levels| == 1 then first else first.Then(COMMA_SP).Then(PrintLevels(L, levels[1..], ind))
  }

  function PrintLevel(L: Layout, level: Level, ind: nat): Doc
    decreases level, 0
  {
    var head := PrintTarget(L, level.target).Then(SP).Add(Keyword(WIn)).Then(SP)
                .Then(Print(L, level.collection, ind, false));
    var lets := if level.lets == [] then Empty
                else SP.Add(Keyword(WLet)).Then(SP)
                     .Then(PrintBindings(L, level.lets, ind, SP.Add(Keyword(WLet)).Then(SP)));
    head.Then(lets).Then(PrintGuard(L, WWhen, level.whenGuard, ind)).Then(PrintGuard(L, WWhile, level.whileGuard, ind))
  }

  function PrintGuard(L: Layout, word: Word, guard: Option<Node>, ind: nat): Doc
    decreases guard, 0
  {
    if guard.None? then Empty else SP.Add(Keyword(word)).Then(SP).Then(Print(L, guard.value, ind, false))
  }

  function PrintMatch(L: Layout, n: Node, ind: nat): Doc
    requires n.Match?
    decreases n, 2
  {
    var head := Kw(WMatch).Then(SP).Then(Print(L, n.subject, ind, false));
    var flatCases := PrintCases(L, n.cases, ind, false);
    var flat := head.Then(flatCases).Then(SP).Add(Keyword(WEnd));
    if L.oneLine(flatCases) && L.fits(flat, ind) then flat
    else head.Then(PrintCases(L, n.cases, ind, true)).Then(NewLine(ind)).Add(Keyword(WEnd))
  }

  /** The cases of a match behind one another; broken over lines, a case whose body has line breaks itself
      moves that body below its `then`. */
  function PrintCases(L: Layout, cases: seq<Case>, ind: nat, broken: bool): Doc
    decreases cases, 0
  {
    if cases == [] then Empty
    else PrintCase(L, cases[0], ind, broken).Then(PrintCases(L, cases[1..], ind, broken))
  }

  function PrintCase(L: Layout, c: Case, ind: nat, broken: bool): Doc
    decreases c, 0
  {
    var at := if broken then ind + 1 else ind;
    var head := (if broken then NewLine(at) else SP).Add(Keyword(WCase)).Then(SP).Then(PrintTarget(L, c.pattern))
                .Then(PrintGuard(L, WWhen, c.guard, at)).Then(SP).Add(Keyword(WThen));
    var result := Print(L, c.result, at, false);
    if !broken || L.oneLine(result) then head.Then(SP).Then(result)
    else head.Then(NewLine(ind + 2)).Then(Print(L, c.result, ind + 2, false))
  }

  function PrintSegments(L: Layout, segments: seq<Node>): Doc
    decreases segments, 0
  {
    if segments == [] then Empty
    else
      var first := if segments[0].Str? then Tok(Raw(segments[0].text))
                   else Tok(Open(TemplateHole)).Then(Print(L, segments[0], 0, false)).Add(Close(Curly));
      first.Then(PrintSegments(L, segments[1..]))
  }

  function PrintTemplate(L: Layout, n: Node, ind: nat): Doc
    requires n.CodeTmpl?
    decreases n, 2
  {
    var only := PrintSpliced(L, n, 0, ind, Empty, Empty);
    var flat := Kw(WQuote).Then(SP).Then(only).Then(SP).Add(Keyword(WEnd));
    if |n.body| == 1 && L.oneLine(only) && L.fits(flat, ind) then flat
    else
      Kw(WQuote).Then(NewLine(0))
      .Then(PrintSpliced(L, n, 0, ind + 1, Blank(false, ind + 1), Cat(Tok(Semicolon), NewLine(0))))
      .Then(if n.body == [] then Empty else Tok(Semicolon)).Then(NewLine(ind)).Add(Keyword(WEnd))
  }

  /** Template statements from the `k`-th on. */
  function PrintSpliced(L: Layout, n: Node, k: nat, ind: nat, lead: Doc, sep: Doc): Doc
    requires n.CodeTmpl? && k <= |n.body|
    decreases n, 1, |n.body| - k
  {
    if k == |n.body| then Empty
    else
      var first := lead.Then(PrintTemplateStatement(L, n, k, ind));
      if k + 1 == |n.body| then first else first.Then(sep).Then(PrintSpliced(L, n, k + 1, ind, lead, sep))
  }

  /** A statement that is a splice shows the spliced expression. */
  function PrintTemplateStatement(L: Layout, n: Node, k: nat, ind: nat): Doc
    requires n.CodeTmpl? && k < |n.body|
    decreases n, 0
  {
    var stmt := n.body[k];
    if stmt.Splice? then
      if stmt.index < |n.splices| then
        Tok(Open(SpliceHole)).Then(Print(L, n.splices[stmt.index], ind, false)).Add(Close(Curly))
      else Tok(Failed(BadSplice))
    else Print(L, stmt, ind, true)
  }

  /** A clause body: bare when it is one expression, otherwise a block. */
  function PrintHandlerBody(L: Layout, body: seq<Node>, ind: nat): Doc
    decreases body, 2
  {
    if |body| == 1 && !body[0].WithHandler? then Print(L, body[0], ind, false)
    else PrintStatements(L, Kw(WDo), body, ind)
  }

  function PrintClause(L: Layout, c: Clause, ind: nat): Doc
    decreases c, 0
  {
    Tok(EffectTok(c.effectName)).Then(Parens(PrintTargets(L, c.params))).Then(SP).Add(Op(Arrow)).Then(SP)
    .Then(PrintHandlerBody(L, c.body, ind))
  }

  function PrintClauses(L: Layout, cs: seq<Clause>, ind: nat, lead: Doc): Doc
    decreases cs, 0
  {
    if cs == [] then Empty
    else lead.Then(PrintClause(L, cs[0], ind)).Then(PrintClauses(L, cs[1..], ind, lead))
  }

  function PrintTransform(L: Layout, t: Option<Transform>, ind: nat): Doc
    decreases t, 0
  {
    if t.None? then Empty
    else NewLine(ind).Add(Keyword(WTransform)).Then(NewLine(ind + 1)).Then(PrintTarget(L, t.value.param))
         .Then(SP).Add(Op(Arrow)).Then(SP).Then(PrintHandlerBody(L, t.value.body, ind + 1))
  }

  function PrintHandler(L: Layout, n: Node, ind: nat): Doc
    requires n.Handler?
    decreases n, 2
  {
    var inline := PrintClauses(L, n.clauses, ind + 1, SP);
    var flat := Kw(WHandler).Then(inline).Then(SP).Add(Keyword(WEnd));
    if n.transform.None? && L.oneLine(inline) && L.fits(flat, ind) then flat
    else
      var clauses := if |n.clauses| == 1 then PrintClauses(L, n.clauses, ind, SP)
                     else PrintClauses(L, n.clauses, ind + 1, NewLine(ind + 1));
      Kw(WHandler).Then(clauses).Then(PrintTransform(L, n.transform, ind)).Then(NewLine(ind)).Add(Keyword(WEnd))
  }

  /** `with` always stands on its own line; its body statements are siblings at the same indent. */
  function PrintWithHandler(L: Layout, n: Node, ind: nat): Doc
    requires n.WithHandler?
    decreases n, 2
  {
    Kw(WWith).Then(SP).Then(Print(L, n.handler, ind, false)).Add(Semicolon)
    .Then(NewLine(0)).Then(PrintSep(L, n.body, ind, false, Blank(false, ind), Cat(Tok(Semicolon), NewLine(0))))
  }

  // Binding targets are printed the same way at every indent.

  function PrintDefault(L: Layout, default: Option<Node>): Doc
    decreases default, 0
  {
    if default.None? then Empty else SP.Add(Op(Equals)).Then(SP).Then(Print(L, default.value, 0, false))
  }

  function PrintTarget(L: Layout, t: Target): Doc
    decreases t, 1
  {
    match t
    case SymbolTarget(name, default) => Tok(Ident(name)).Then(PrintDefault(L, default))
    case RestTarget(name, default) => Tok(Op(Dots)).Add(Ident(name)).Then(PrintDefault(L, default))
    case ArrayTarget(items, default) =>
      Tok(Open(Square)).Then(PrintItems(L, items)).Add(Close(Square)).Then(PrintDefault(L, default))
    case ObjectTarget(fields, default) =>
      Tok(Open(Curly)).Then(SP).Then(PrintFields(L, fields)).Then(SP).Add(Close(Curly)).Then(PrintDefault(L, default))
    case LiteralTarget(e) => Print(L, e, 0, false)
    case Wildcard => Kw(WReserved(Hole))
    case UnknownTarget(tag) => Tok(Raw(tag))
  }

  function PrintTargets(L: Layout, ts: seq<Target>): Doc
    decreases ts, 0
  {
    if ts == [] then Empty
    else if |ts| == 1 then PrintTarget(L, ts[0])
    else PrintTarget(L, ts[0]).Then(COMMA_SP).Then(PrintTargets(L, ts[1..]))
  }

  function PrintItems(L: Layout, ts: seq<Option<Target>>): Doc
    decreases ts, 0
  {
    if ts == [] then Empty
    else if |ts| == 1 then PrintItem(L, ts[0])
    else PrintItem(L, ts[0]).Then(COMMA_SP).Then(PrintItems(L, ts[1..]))
  }

  /** A skipped slot of an array pattern is an empty piece of text. */
  function PrintItem(L: Layout, t: Option<Target>): Doc
    decreases t, 0
  {
    if t.None? then Empty else PrintTarget(L, t.value)
  }

  function PrintFields(L: Layout, fs: seq<Field>): Doc
    decreases fs, 0
  {
    if fs == [] then Empty
    else if |fs| == 1 then PrintField(L, fs[0])
    else PrintField(L, fs[0]).Then(COMMA_SP).Then(PrintFields(L, fs[1..]))
  }

  function PrintField(L: Layout, f: Field): Doc
    decreases f, 0
  {
    match f.target
    case RestTarget(name, _) => Tok(Op(Dots)).Add(Ident(name))
    case SymbolTarget(name, _) =>
      if name == f.key then PrintTarget(L, f.target)
      else Tok(Ident(f.key)).Then(SP).Add(Keyword(WAs)).Then(SP).Then(PrintTarget(L, f.target))
    case _ => Tok(Ident(f.key)).Add(Op(Colon)).Then(SP).Then(PrintTarget(L, f.target))
  }
}
