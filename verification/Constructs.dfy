/** The parser of all that words, brackets and marks open, on top of the one for operator expressions. */
module Constructs {
  import opened Options
  import opened Syntax
  import opened Docs
  import opened Names
  import opened Grammar
  import opened Parser

  type Got<T> = Option<(T, List<Tok>)>

  predicate At(ts: List<Tok>, t: Tok) { ts.Cons? && ts.head == t }

  predicate AtWord(ts: List<Tok>, w: Word) { At(ts, Keyword(w)) }

  /** Under `dvala.` there are only these effects, and patterns. */
  predicate KnownEffect(name: string) {
    "dvala." <= name && '*' !in name ==>
      name in {"dvala.io.print", "dvala.io.error", "dvala.io.read", "dvala.io.readStdin", "dvala.io.pick",
               "dvala.io.confirm", "dvala.random", "dvala.random.uuid", "dvala.random.int", "dvala.random.item",
               "dvala.random.shuffle", "dvala.time.now", "dvala.time.zone", "dvala.sleep", "dvala.error",
               "dvala.checkpoint", "dvala.host", "dvala.env", "dvala.args"}
  }

  /** What follows the bracket that closes the enclosing one; `k` brackets are open in between. */
  function AfterParen(ts: List<Tok>, k: nat): List<Tok> {
    if ts.Nil? then Nil
    else if ts.head == Open(Paren) then AfterParen(ts.tail, k + 1)
    else if ts.head == Close(Paren) then if k == 0 then ts.tail else AfterParen(ts.tail, k - 1)
    else AfterParen(ts.tail, k)
  }

  /** The bracket opens the parameters of a lambda. */
  predicate IsLambda(ts: List<Tok>) { At(ts, Open(Paren)) && At(AfterParen(ts.tail, 0), Op(Arrow)) }

  predicate Opens(ts: List<Tok>) {
    ts.Cons? &&
    match ts.head
    case Keyword(w) =>
      w in {WIf, WMatch, WLoop, WFor, WMacro, WDo, WHandler, WResume, WImport, WPerform, WRecur, WParallel, WRace,
            WSettled}
    case Quoted(_) => true
    case AtomTok(_) => true
    case EffectTok(_) => true
    case Hash => true
    case Open(b) => b == Square || b == Curly || IsLambda(ts)
    case _ => false
  }

  /** An expression that starts with a construct may go on with operators, but for a `let`. */
  function ReadExpr(ts: List<Tok>): (r: Got<Node>)
    ensures r.Some? ==> Len(r.value.1) < Len(ts)
    decreases Len(ts), 10
  {
    if AtWord(ts, WLet) then
      var b := ReadBinding(ts.tail);
      if b.None? then None else Some((Let(b.value.0.target, b.value.0.value), b.value.1))
    else if Opens(ts) then
      var left := ReadConstruct(ts);
      if left.None? then None else ParseLoop(left.value.0, left.value.1, 0)
    else ParseExpr(ts, 0)
  }

  function ReadConstruct(ts: List<Tok>): (r: Got<Node>)
    requires ts.Cons?
    ensures r.Some? ==> Len(r.value.1) < Len(ts)
    decreases Len(ts), 9
  {
    match ts.head
    case Quoted(s) => Some((Str(s), ts.tail))
    case AtomTok(a) => Some((Atom(a), ts.tail))
    case EffectTok(e) => if KnownEffect(e) then Some((Effect(e), ts.tail)) else None
    case Hash => ReadMacroCall(ts.tail)
    case Open(Square) =>
      var es := ReadElements(ts.tail, Square);
      if es.None? then None else Some((Array(es.value.0), es.value.1))
    case Open(Curly) =>
      var es := ReadEntries(ts.tail);
      if es.None? then None else Some((Object(es.value.0), es.value.1))
    case Open(_) =>
      var f := ReadLambda(ts.tail);
      if f.None? then None else Some((Function(f.value.0.0, f.value.0.1, false), f.value.1))
    case Keyword(w) => ReadWord(w, ts.tail)
    case _ => None
  }

  /** What stands behind a word. */
  function ReadWord(w: Word, ts: List<Tok>): (r: Got<Node>)
    ensures r.Some? ==> Len(r.value.1) <= Len(ts)
    decreases Len(ts), 14
  {
    match w
    case WIf => ReadIf(ts)
    case WMatch => ReadMatch(ts)
    case WLoop => ReadLoop(ts)
    case WFor => ReadFor(ts)
    case WMacro =>
      if !At(ts, Open(Paren)) then None else
      var f := ReadLambda(ts.tail);
      if f.None? then None else Some((Macro(f.value.0.0, f.value.0.1), f.value.1))
    case WDo =>
      var s := ReadStatements(ts);
      if s.None? || s.value.0 == [] then None else Some((Block(s.value.0), s.value.1))
    case WHandler => ReadHandler(ts)
    case WResume => ReadResume(ts)
    case WImport =>
      if At(ts, Open(Paren)) && ts.tail.Cons? && ts.tail.head.BareQuoted? && At(ts.tail.tail, Close(Paren)) then
        assert Len(ts.tail) == 1 + Len(ts.tail.tail) && Len(ts.tail.tail) == 1 + Len(ts.tail.tail.tail);
        Some((Import(ts.tail.head.text), ts.tail.tail.tail))
      else None
    case _ =>
      if !At(ts, Open(Paren)) then None else
      var args := ReadElements(ts.tail, Paren);
      if args.None? then None else
      var n := Special(w, args.value.0);
      if n.None? then None else Some((n.value, args.value.1))
  }

  /** Special expressions in the form of a call, with the right number of arguments. */
  function Special(w: Word, args: seq<Node>): Option<Node> {
    match w
    case WPerform =>
      if |args| == 1 then Some(Perform(args[0], None))
      else if |args| == 2 then Some(Perform(args[0], Some(args[1]))) else None
    case WRecur => Some(Recur(args))
    case WParallel => if |args| == 1 then Some(Wrap(Parallel, args[0])) else None
    case WRace => if |args| == 1 then Some(Wrap(Race, args[0])) else None
    case WSettled => if |args| == 1 then Some(Wrap(Settled, args[0])) else None
    case _ => None
  }

  function ReadMacroCall(ts: List<Tok>): (r: Got<Node>)
    ensures r.Some? ==> Len(r.value.1) < Len(ts)
    decreases Len(ts), 0
  {
    if ts.Nil? || !ts.head.Ident? then None else
    var x := ReadExpr(ts.tail);
    if x.None? then None else Some((MacroCall(Sym(ts.head.text), x.value.0), x.value.1))
  }

  /** `resume` with an argument, or alone; in front of anything but a reserved word, an operator or the end it is a
      name. */
  function ReadResume(ts: List<Tok>): (r: Got<Node>)
    ensures r.Some? ==> Len(r.value.1) <= Len(ts)
    decreases Len(ts), 0
  {
    if At(ts, Open(Paren)) then
      if At(ts.tail, Close(Paren)) then Some((Resume(Some(NULL)), ts.tail.tail)) else
      var x := ReadExpr(ts.tail);
      if x.None? || !At(x.value.1, Close(Paren)) then None else Some((Resume(Some(x.value.0)), x.value.1.tail))
    else if ts.Nil? || IsReservedTok(ts.head) || IsBinaryTok(ts.head) then Some((Resume(None), ts))
    else Some((Sym("resume"), ts))
  }

  // Elements and entries.

  /** Elements up to the bracket that closes, each of them perhaps behind three dots. */
  function ReadElements(ts: List<Tok>, close: Bracket): (r: Got<seq<Node>>)
    ensures r.Some? ==> Len(r.value.1) < Len(ts)
    decreases Len(ts), 12
  {
    if ts.Nil? then None
    else if At(ts, Close(close)) then Some(([], ts.tail))
    else
      var x := ReadElement(ts);
      if x.None? then None
      else if At(x.value.1, Close(close)) then Some(([x.value.0], x.value.1.tail))
      else if At(x.value.1, Comma) then
        var others := ReadElements(x.value.1.tail, close);
        if others.None? then None else Some(([x.value.0] + others.value.0, others.value.1))
      else None
  }

  function ReadElement(ts: List<Tok>): (r: Got<Node>)
    ensures r.Some? ==> Len(r.value.1) < Len(ts)
    decreases Len(ts), 11
  {
    if At(ts, Op(Dots)) then
      var x := ReadExpr(ts.tail);
      if x.None? then None else Some((Spread(x.value.0), x.value.1))
    else ReadExpr(ts)
  }

  function ReadEntries(ts: List<Tok>): (r: Got<seq<Entry>>)
    ensures r.Some? ==> Len(r.value.1) < Len(ts)
    decreases Len(ts), 2
  {
    if ts.Nil? then None
    else if At(ts, Close(Curly)) then Some(([], ts.tail))
    else
      var e := ReadEntry(ts);
      if e.None? then None
      else if At(e.value.1, Close(Curly)) then Some(([e.value.0], e.value.1.tail))
      else if At(e.value.1, Comma) then
        var others := ReadEntries(e.value.1.tail);
        if others.None? then None else Some(([e.value.0] + others.value.0, others.value.1))
      else None
  }

  function ReadEntry(ts: List<Tok>): (r: Got<Entry>)
    requires ts.Cons?
    ensures r.Some? ==> Len(r.value.1) < Len(ts)
    decreases Len(ts), 1
  {
    match ts.head
    case Op(Dots) =>
      var x := ReadExpr(ts.tail);
      if x.None? then None else Some((SpreadEntry(x.value.0), x.value.1))
    case Ident(key) =>
      if !At(ts.tail, Op(Colon)) then Some((Pair(Str(key), Sym(key)), ts.tail)) else ReadValue(Str(key), ts.tail)
    case BareQuoted(key) => ReadValue(Str(key), ts.tail)
    case Open(Square) =>
      var key := ReadExpr(ts.tail);
      if key.None? || !At(key.value.1, Close(Square)) then None else ReadValue(key.value.0, key.value.1.tail)
    case _ => None
  }

  function ReadValue(key: Node, ts: List<Tok>): (r: Got<Entry>)
    ensures r.Some? ==> Len(r.value.1) < Len(ts)
    decreases Len(ts), 0
  {
    if !At(ts, Op(Colon)) then None else
    var x := ReadExpr(ts.tail);
    if x.None? then None else Some((Pair(key, x.value.0), x.value.1))
  }

  // Conditionals and blocks.

  function ReadIf(ts: List<Tok>): (r: Got<Node>)
    ensures r.Some? ==> Len(r.value.1) < Len(ts)
    decreases Len(ts), 13
  {
    var n := ReadBranches(ts);
    if n.None? || !AtWord(n.value.1, WEnd) then None else Some((n.value.0, n.value.1.tail))
  }

  /** Everything but the `end`, which an `else if` shares with the `if` it belongs to. */
  function ReadBranches(ts: List<Tok>): (r: Got<Node>)
    ensures r.Some? ==> Len(r.value.1) < Len(ts)
    decreases Len(ts), 12
  {
    var cond := ReadExpr(ts);
    if cond.None? || !AtWord(cond.value.1, WThen) then None else
    var thn := ReadImplicit(cond.value.1.tail, WElse, WEnd);
    if thn.None? || !AtWord(thn.value.1, WElse) then None else
    var els := ReadElse(thn.value.1.tail);
    if els.None? then None else Some((If(cond.value.0, thn.value.0, Some(els.value.0)), els.value.1))
  }

  function ReadElse(ts: List<Tok>): (r: Got<Node>)
    ensures r.Some? ==> Len(r.value.1) <= Len(ts)
    decreases Len(ts), 13
  {
    if AtWord(ts, WIf) then ReadBranches(ts.tail) else ReadImplicit(ts, WEnd, WEnd)
  }

  /** Expressions up to one of two words; several of them make a block. */
  function ReadImplicit(ts: List<Tok>, w: Word, v: Word): (r: Got<Node>)
    ensures r.Some? ==> Len(r.value.1) <= Len(ts)
    decreases Len(ts), 12
  {
    var ns := ReadNodes(ts, w, v);
    if ns.None? || ns.value.0 == [] then None
    else Some((if |ns.value.0| == 1 then ns.value.0[0] else Block(ns.value.0), ns.value.1))
  }

  function ReadNodes(ts: List<Tok>, w: Word, v: Word): (r: Got<seq<Node>>)
    ensures r.Some? ==> Len(r.value.1) <= Len(ts)
    decreases Len(ts), 11
  {
    if ts.Nil? then None
    else if AtWord(ts, w) || AtWord(ts, v) then Some(([], ts))
    else if At(ts, Semicolon) then ReadNodes(ts.tail, w, v)
    else
      var x := ReadExpr(ts);
      if x.None? then None else
      var others := ReadNodes(x.value.1, w, v);
      if others.None? then None else Some(([x.value.0] + others.value.0, others.value.1))
  }

  /** Statements and their `end`. A handler that is installed takes all that follow it. */
  function ReadStatements(ts: List<Tok>): (r: Got<seq<Node>>)
    ensures r.Some? ==> Len(r.value.1) < Len(ts)
    decreases Len(ts), 11
  {
    if ts.Nil? then None
    else if AtWord(ts, WEnd) then Some(([], ts.tail))
    else if AtWord(ts, WWith) then
      var h := ReadExpr(ts.tail);
      if h.None? || !At(h.value.1, Semicolon) then None else
      var body := ReadStatements(h.value.1.tail);
      if body.None? then None else Some(([WithHandler(h.value.0, body.value.0)], body.value.1))
    else
      var x := ReadExpr(ts);
      if x.None? then None
      else if AtWord(x.value.1, WEnd) then Some(([x.value.0], x.value.1.tail))
      else if At(x.value.1, Semicolon) then
        var others := ReadStatements(x.value.1.tail);
        if others.None? then None else Some(([x.value.0] + others.value.0, others.value.1))
      else None
  }

  // Binding targets.

  /** With literals and the wildcard where `pattern` says so. */
  function ReadTarget(ts: List<Tok>, pattern: bool): (r: Got<Target>)
    ensures r.Some? ==> Len(r.value.1) < Len(ts)
    decreases Len(ts), 5
  {
    if ts.Nil? then None else
    match ts.head
    case Ident(name) =>
      if IsSpecial(name) then None else
      var d := ReadDefault(ts.tail);
      if d.None? then None else Some((SymbolTarget(name, d.value.0), d.value.1))
    case Op(Dots) =>
      if ts.tail.Nil? || !ts.tail.head.Ident? || IsSpecial(ts.tail.head.text) || At(ts.tail.tail, Op(Equals)) then None
      else Some((RestTarget(ts.tail.head.text, None), ts.tail.tail))
    case Open(Square) =>
      var items := ReadItems(ts.tail, pattern);
      if items.None? then None else
      var d := ReadDefault(items.value.1);
      if d.None? then None else Some((ArrayTarget(items.value.0, d.value.0), d.value.1))
    case Open(Curly) =>
      var fields := ReadFields(ts.tail, pattern);
      if fields.None? || !Apart(Keys(fields.value.0)) then None else
      var d := ReadDefault(fields.value.1);
      if d.None? then None else Some((ObjectTarget(fields.value.0, d.value.0), d.value.1))
    case Keyword(WReserved(Hole)) => if pattern then Some((Wildcard, ts.tail)) else None
    case _ =>
      if pattern && IsLiteral(ts.head) then Some((LiteralTarget(Literal(ts.head)), ts.tail)) else None
  }

  predicate IsLiteral(t: Tok) {
    t.Number? || t.Quoted? || t.AtomTok? ||
    (t.Keyword? && t.word.WReserved? && t.word.word.Constant? && t.word.word.name in {"true", "false", "null"})
  }

  function Literal(t: Tok): Node
    requires IsLiteral(t)
  {
    match t
    case Number(v) => Num(v)
    case Quoted(s) => Str(s)
    case AtomTok(a) => Atom(a)
    case Keyword(WReserved(w)) => Reserved(w)
  }

  function ReadDefault(ts: List<Tok>): (r: Got<Option<Node>>)
    ensures r.Some? ==> Len(r.value.1) <= Len(ts)
    decreases Len(ts), 0
  {
    if !At(ts, Op(Equals)) then Some((None, ts)) else
    var x := ReadExpr(ts.tail);
    if x.None? then None else Some((Some(x.value.0), x.value.1))
  }

  /** A comma in front of an item stands for one that is skipped; nothing follows a rest. */
  function ReadItems(ts: List<Tok>, pattern: bool): (r: Got<seq<Option<Target>>>)
    ensures r.Some? ==> Len(r.value.1) < Len(ts)
    decreases Len(ts), 6
  {
    if ts.Nil? then None
    else if At(ts, Close(Square)) then Some(([], ts.tail))
    else if At(ts, Comma) then
      var others := ReadItems(ts.tail, pattern);
      if others.None? then None else Some(([None] + others.value.0, others.value.1))
    else
      var t := ReadTarget(ts, pattern);
      if t.None? then None
      else if At(t.value.1, Close(Square)) then Some(([Some(t.value.0)], t.value.1.tail))
      else if At(t.value.1, Comma) then
        var others := ReadItems(t.value.1.tail, pattern);
        if others.None? || (t.value.0.RestTarget? && others.value.0 != []) then None
        else Some(([Some(t.value.0)] + others.value.0, others.value.1))
      else None
  }

  function ReadFields(ts: List<Tok>, pattern: bool): (r: Got<seq<Field>>)
    ensures r.Some? ==> Len(r.value.1) < Len(ts)
    decreases Len(ts), 7
  {
    if ts.Nil? then None
    else if At(ts, Close(Curly)) then Some(([], ts.tail))
    else
      var f := ReadField(ts, pattern);
      if f.None? then None
      else if At(f.value.1, Close(Curly)) then Some(([f.value.0], f.value.1.tail))
      else if At(f.value.1, Comma) then
        var others := ReadFields(f.value.1.tail, pattern);
        if others.None? || (f.value.0.target.RestTarget? && others.value.0 != []) then None
        else Some(([f.value.0] + others.value.0, others.value.1))
      else None
  }

  /** A field under its own name, under another one, or taken apart; or all the fields that are left. */
  function ReadField(ts: List<Tok>, pattern: bool): (r: Got<Field>)
    requires ts.Cons?
    ensures r.Some? ==> Len(r.value.1) < Len(ts)
    decreases Len(ts), 6
  {
    match ts.head
    case Op(Dots) =>
      if ts.tail.Nil? || !ts.tail.head.Ident? || IsSpecial(ts.tail.head.text) || At(ts.tail.tail, Op(Equals)) then None
      else Some((Field(ts.tail.head.text, RestTarget(ts.tail.head.text, None)), ts.tail.tail))
    case Ident(key) =>
      var rest := ts.tail;
      assert rest.Cons? ==> Len(rest) == 1 + Len(rest.tail);
      if AtWord(rest, WAs) then
        if rest.tail.Nil? || !rest.tail.head.Ident? then None else
        var t := ReadTarget(rest.tail, pattern);
        if t.None? then None else Some((Field(key, t.value.0), t.value.1))
      else if At(rest, Op(Colon)) then
        if rest.tail.Nil? || !(rest.tail.head in {Open(Curly), Open(Square)} || (pattern && IsLiteral(rest.tail.head)))
        then None else
        var t := ReadTarget(rest.tail, pattern);
        if t.None? then None else Some((Field(key, t.value.0), t.value.1))
      else
        var t := ReadTarget(ts, pattern);
        if t.None? then None else Some((Field(key, t.value.0), t.value.1))
    case _ => None
  }

  function Keys(fs: seq<Field>): seq<string> { if fs == [] then [] else [fs[0].key] + Keys(fs[1..]) }

  predicate Apart(names: seq<string>) { forall i, j :: 0 <= i < j < |names| ==> names[i] != names[j] }

  // Bindings and levels.

  function Bare(t: Target): Target {
    match t
    case SymbolTarget(name, _) => SymbolTarget(name, None)
    case ArrayTarget(items, _) => ArrayTarget(items, None)
    case ObjectTarget(fields, _) => ObjectTarget(fields, None)
    case _ => t
  }

  function Default(t: Target): Option<Node> {
    match t
    case SymbolTarget(_, d) => d
    case RestTarget(_, d) => d
    case ArrayTarget(_, d) => d
    case ObjectTarget(_, d) => d
    case _ => None
  }

  /** A target with its default, which is the value bound. */
  function ReadBinding(ts: List<Tok>): (r: Got<Binding>)
    ensures r.Some? ==> Len(r.value.1) < Len(ts)
    decreases Len(ts), 6
  {
    var t := ReadTarget(ts, false);
    if t.None? || t.value.0.RestTarget? || Default(t.value.0).None? then None
    else Some((Binding(Bare(t.value.0), Default(t.value.0).value), t.value.1))
  }

  function ReadBindings(ts: List<Tok>): (r: Got<seq<Binding>>)
    ensures r.Some? ==> Len(r.value.1) < Len(ts)
    decreases Len(ts), 7
  {
    if ts.Nil? then None
    else if At(ts, Close(Paren)) then Some(([], ts.tail))
    else
      var b := ReadBinding(ts);
      if b.None? then None else
      var others := ReadBindings(if At(b.value.1, Comma) then b.value.1.tail else b.value.1);
      if others.None? then None else Some(([b.value.0] + others.value.0, others.value.1))
  }

  function ReadLoop(ts: List<Tok>): (r: Got<Node>)
    ensures r.Some? ==> Len(r.value.1) < Len(ts)
    decreases Len(ts), 0
  {
    if !At(ts, Open(Paren)) then None else
    var bs := ReadBindings(ts.tail);
    if bs.None? || bs.value.0 == [] || !At(bs.value.1, Op(Arrow)) then None else
    var body := ReadExpr(bs.value.1.tail);
    if body.None? then None else Some((Loop(bs.value.0, body.value.0), body.value.1))
  }

  function ReadFor(ts: List<Tok>): (r: Got<Node>)
    ensures r.Some? ==> Len(r.value.1) < Len(ts)
    decreases Len(ts), 0
  {
    if !At(ts, Open(Paren)) then None else
    var ls := ReadLevels(ts.tail);
    if ls.None? || !Apart(LevelNames(ls.value.0)) || !At(ls.value.1, Op(Arrow)) then None else
    var body := ReadExpr(ls.value.1.tail);
    if body.None? then None else Some((For(ls.value.0, body.value.0), body.value.1))
  }

  function ReadLevels(ts: List<Tok>): (r: Got<seq<Level>>)
    ensures r.Some? ==> Len(r.value.1) < Len(ts)
    decreases Len(ts), 2
  {
    if ts.Nil? then None
    else if At(ts, Close(Paren)) then Some(([], ts.tail))
    else
      var l := ReadLevel(ts);
      if l.None? || !(At(l.value.1, Comma) || At(l.value.1, Close(Paren))) then None else
      var others := ReadLevels(if At(l.value.1, Comma) then l.value.1.tail else l.value.1);
      if others.None? then None else Some(([l.value.0] + others.value.0, others.value.1))
  }

  /** A name and a collection, then any number of bindings, then at most one condition of either kind. */
  function ReadLevel(ts: List<Tok>): (r: Got<Level>)
    ensures r.Some? ==> Len(r.value.1) < Len(ts)
    decreases Len(ts), 1
  {
    if ts.Nil? || !ts.head.Ident? || IsSpecial(ts.head.text) || !AtWord(ts.tail, WIn) then None else
    assert Len(ts.tail) == 1 + Len(ts.tail.tail);
    var c := ReadExpr(ts.tail.tail);
    if c.None? then None else
    var lets := ReadLets(c.value.1);
    if lets.None? || !Apart(BoundNames(lets.value.0)) then None else
    var guards := ReadGuards(lets.value.1, None, None);
    if guards.None? then None else
    var (w, v) := guards.value.0;
    Some((Level(SymbolTarget(ts.head.text, None), c.value.0, lets.value.0, w, v), guards.value.1))
  }

  function ReadLets(ts: List<Tok>): (r: Got<seq<Binding>>)
    ensures r.Some? ==> Len(r.value.1) <= Len(ts)
    decreases Len(ts), 0
  {
    if !AtWord(ts, WLet) then Some(([], ts)) else
    var b := ReadBinding(ts.tail);
    if b.None? then None else
    var others := ReadLets(b.value.1);
    if others.None? then None else Some(([b.value.0] + others.value.0, others.value.1))
  }

  function ReadGuards(ts: List<Tok>, w: Option<Node>, v: Option<Node>): (r: Got<(Option<Node>, Option<Node>)>)
    ensures r.Some? ==> Len(r.value.1) <= Len(ts)
    decreases Len(ts), 0
  {
    if (AtWord(ts, WWhen) && w.None?) || (AtWord(ts, WWhile) && v.None?) then
      var x := ReadExpr(ts.tail);
      if x.None? then None
      else if AtWord(ts, WWhen) then ReadGuards(x.value.1, Some(x.value.0), v)
      else ReadGuards(x.value.1, w, Some(x.value.0))
    else Some(((w, v), ts))
  }

  function LevelNames(ls: seq<Level>): seq<string> {
    if ls == [] then [] else (if ls[0].target.SymbolTarget? then [ls[0].target.name] else []) + LevelNames(ls[1..])
  }

  function BoundNames(bs: seq<Binding>): seq<string> {
    if bs == [] then [] else TargetNames(bs[0].target) + BoundNames(bs[1..])
  }

  function TargetNames(t: Target): seq<string>
    decreases t, 1
  {
    match t
    case SymbolTarget(name, _) => [name]
    case RestTarget(name, _) => [name]
    case ArrayTarget(items, _) => ItemNames(items)
    case ObjectTarget(fields, _) => FieldNames(fields)
    case _ => []
  }

  function ItemNames(items: seq<Option<Target>>): seq<string>
    decreases items, 0
  {
    if items == [] then [] else ItemName(items[0]) + ItemNames(items[1..])
  }

  function ItemName(item: Option<Target>): seq<string>
    decreases item, 0
  {
    if item.None? then [] else TargetNames(item.value)
  }

  function FieldNames(fs: seq<Field>): seq<string>
    decreases fs, 0
  {
    if fs == [] then [] else TargetNames(fs[0].target) + FieldNames(fs[1..])
  }

  // Matches.

  function ReadMatch(ts: List<Tok>): (r: Got<Node>)
    ensures r.Some? ==> Len(r.value.1) < Len(ts)
    decreases Len(ts), 11
  {
    var subject := ReadExpr(ts);
    if subject.None? then None else
    var cases := ReadCases(subject.value.1);
    if cases.None? then None else Some((Match(subject.value.0, cases.value.0), cases.value.1))
  }

  function ReadCases(ts: List<Tok>): (r: Got<seq<Case>>)
    ensures r.Some? ==> Len(r.value.1) < Len(ts)
    decreases Len(ts), 1
  {
    if AtWord(ts, WEnd) then Some(([], ts.tail))
    else if !AtWord(ts, WCase) then None
    else
      var c := ReadCase(ts.tail);
      if c.None? then None else
      var others := ReadCases(c.value.1);
      if others.None? then None else Some(([c.value.0] + others.value.0, others.value.1))
  }

  function ReadCase(ts: List<Tok>): (r: Got<Case>)
    ensures r.Some? ==> Len(r.value.1) < Len(ts)
    decreases Len(ts), 6
  {
    var p := ReadTarget(ts, true);
    if p.None? then None else
    var guard := if AtWord(p.value.1, WWhen) then ReadGuard(p.value.1.tail) else Some((None, p.value.1));
    if guard.None? || !AtWord(guard.value.1, WThen) then None else
    var result := ReadImplicit(guard.value.1.tail, WCase, WEnd);
    if result.None? then None else Some((Case(p.value.0, result.value.0, guard.value.0), result.value.1))
  }

  function ReadGuard(ts: List<Tok>): (r: Got<Option<Node>>)
    ensures r.Some? ==> Len(r.value.1) < Len(ts)
    decreases Len(ts), 11
  {
    var x := ReadExpr(ts);
    if x.None? then None else Some((Some(x.value.0), x.value.1))
  }

  // Functions and handlers.

  /** The parameters up to the bracket that closes, the arrow, and the body. */
  function ReadLambda(ts: List<Tok>): (r: Got<(seq<Target>, seq<Node>)>)
    ensures r.Some? ==> Len(r.value.1) < Len(ts)
    decreases Len(ts), 8
  {
    var params := ReadTargets(ts, true);
    if params.None? || !ParamsOk(params.value.0) || !At(params.value.1, Op(Arrow)) then None else
    var body := ReadBody(params.value.1.tail);
    if body.None? then None else Some(((params.value.0, body.value.0), body.value.1))
  }

  /** A rest comes last, and behind a default there are only others with defaults. */
  predicate ParamsOk(ps: seq<Target>) {
    forall i, j :: 0 <= i < j < |ps| ==> !ps[i].RestTarget? && (Default(ps[i]).Some? ==> Default(ps[j]).Some?)
  }

  /** `strict`: they are separated by commas. */
  function ReadTargets(ts: List<Tok>, strict: bool): (r: Got<seq<Target>>)
    ensures r.Some? ==> Len(r.value.1) < Len(ts)
    decreases Len(ts), 7
  {
    if ts.Nil? then None
    else if At(ts, Close(Paren)) then Some(([], ts.tail))
    else
      var t := ReadTarget(ts, false);
      if t.None? || (strict && !At(t.value.1, Comma) && !At(t.value.1, Close(Paren))) then None else
      var others := ReadTargets(if At(t.value.1, Comma) then t.value.1.tail else t.value.1, strict);
      if others.None? then None else Some(([t.value.0] + others.value.0, others.value.1))
  }

  /** The statements of a block are those of the body. */
  function ReadBody(ts: List<Tok>): (r: Got<seq<Node>>)
    ensures r.Some? ==> Len(r.value.1) < Len(ts)
    decreases Len(ts), 11
  {
    if AtWord(ts, WDo) then
      var s := ReadStatements(ts.tail);
      if s.None? || s.value.0 == [] then None else s
    else
      var x := ReadExpr(ts);
      if x.None? then None else Some(([x.value.0], x.value.1))
  }

  function ReadHandler(ts: List<Tok>): (r: Got<Node>)
    ensures r.Some? ==> Len(r.value.1) < Len(ts)
    decreases Len(ts), 2
  {
    if ts.Nil? || !(ts.head.EffectTok? || AtWord(ts, WTransform)) then None else
    var clauses := ReadClauses(ts);
    if clauses.None? || !Apart(Effects(clauses.value.0)) then None else
    var transform := ReadTransform(clauses.value.1);
    if transform.None? || !AtWord(transform.value.1, WEnd) then None
    else Some((Handler(clauses.value.0, transform.value.0), transform.value.1.tail))
  }

  function Effects(cs: seq<Clause>): seq<string> { if cs == [] then [] else [cs[0].effectName] + Effects(cs[1..]) }

  function ReadClauses(ts: List<Tok>): (r: Got<seq<Clause>>)
    ensures r.Some? ==> Len(r.value.1) <= Len(ts)
    decreases Len(ts), 1
  {
    if ts.Nil? || !ts.head.EffectTok? then Some(([], ts)) else
    var c := ReadClause(ts.head.name, ts.tail);
    if c.None? then None else
    var others := ReadClauses(c.value.1);
    if others.None? then None else Some(([c.value.0] + others.value.0, others.value.1))
  }

  function ReadClause(name: string, ts: List<Tok>): (r: Got<Clause>)
    ensures r.Some? ==> Len(r.value.1) < Len(ts)
    decreases Len(ts), 1
  {
    var params := if At(ts, Open(Paren)) then ReadTargets(ts.tail, false) else Some(([], ts));
    if params.None? || !At(params.value.1, Op(Arrow)) then None else
    var body := ReadBody(params.value.1.tail);
    if body.None? then None else Some((Clause(name, params.value.0, body.value.0), body.value.1))
  }

  function ReadTransform(ts: List<Tok>): (r: Got<Option<Transform>>)
    ensures r.Some? ==> Len(r.value.1) <= Len(ts)
    decreases Len(ts), 1
  {
    if !AtWord(ts, WTransform) then Some((None, ts)) else
    var t := ReadTarget(ts.tail, false);
    if t.None? || !At(t.value.1, Op(Arrow)) then None else
    var body := ReadBody(t.value.1.tail);
    if body.None? then None else Some((Some(Transform(t.value.0, body.value.0)), body.value.1))
  }

  /** A whole token stream as one expression. */
  function ReadAll(ts: List<Tok>): Option<Node> {
    var r := ReadExpr(ts);
    if r.Some? && r.value.1.Nil? then Some(r.value.0) else None
  }
}
