/** The precedence-climbing expression parser, on the tokens that operator expressions consist of. */
module Parser {
  import opened Options
  import opened Syntax
  import opened Docs
  import opened Names
  import opened Grammar

  type Parse = Option<(Node, List<Tok>)>

  function Len(ts: List<Tok>): nat {
    if ts.Nil? then 0 else 1 + Len(ts.tail)
  }

  /** The operator at the front of `ts`, if there is one. */
  function NextOp(ts: List<Tok>): Option<InfixOp> {
    if ts.Nil? then None else
    match ts.head
    case Op(Bin(op)) => Some(Arith(op))
    case Op(AndSign) => Some(Logic(And))
    case Op(OrSign) => Some(Logic(Or))
    case Op(QqSign) => Some(Logic(Qq))
    case Op(PipeSign) => Some(PipeOp)
    case Ident(name) => if IsOperatorName(name) then Some(NameOp(name)) else None
    case _ => None
  }

  /** The front of `ts` does not continue an expression read at precedence `p`. */
  predicate Stops(ts: List<Tok>, p: nat) {
    NextOp(ts).None? || !Continues(Prec(NextOp(ts).value), p)
  }

  const NULL := Reserved(Constant("null"))

  /** A builtin is not called with a wrong number of arguments. */
  predicate CanCall(f: Node, n: nat) { f.Builtin? && f.builtin.Infix? ==> Takes(f.builtin.op, n) }

  function ParseExpr(ts: List<Tok>, p: nat): (r: Parse)
    ensures r.Some? ==> Len(r.value.1) < Len(ts)
    decreases Len(ts), 3
  {
    var left := if StartsWord(ts) then ParseWord(ts) else ParseOperand(ts);
    if left.None? then None else ParseLoop(left.value.0, left.value.1, p)
  }

  /** Of the constructs that words start only `resume` is parsed here: all others end in something that is no operator
      expression, or in an error. */
  function ParseWord(ts: List<Tok>): (r: Parse)
    requires StartsWord(ts)
    ensures r.Some? ==> Len(r.value.1) < Len(ts) && r.value.0.Resume?
    decreases Len(ts), 0
  {
    if ts.head.text != "resume" then None
    else if ts.tail.Nil? || ts.tail.head != Open(Paren) then Some((Resume(None), ts.tail))
    else
      assert Len(ts.tail) == 1 + Len(ts.tail.tail);
      ParseResume(ts.tail.tail)
  }

  /** What stands between the brackets of `resume`: an expression, or nothing, which counts as null. */
  function ParseResume(ts: List<Tok>): (r: Parse)
    ensures r.Some? ==> Len(r.value.1) < Len(ts) && r.value.0.Resume?
    decreases Len(ts), 4
  {
    if ts.Cons? && ts.head == Close(Paren) then Some((Resume(Some(NULL)), ts.tail))
    else
      var arg := ParseExpr(ts, 0);
      if arg.None? || arg.value.1.Nil? || arg.value.1.head != Close(Paren) then None
      else Some((Resume(Some(arg.value.0)), arg.value.1.tail))
  }

  /** Operators that continue `left` at precedence `p`. */
  function ParseLoop(left: Node, ts: List<Tok>, p: nat): (r: Parse)
    ensures r.Some? ==> Len(r.value.1) <= Len(ts)
    decreases Len(ts), 2
  {
    if Stops(ts, p) then Some((left, ts))
    else
      var o := NextOp(ts).value;
      var right := ParseExpr(ts.tail, Prec(o));
      if right.None? then None
      else ParseLoop(InfixNode(o, left, right.value.0), right.value.1, p)
  }

  /** An operand with the calls that follow it. */
  function ParseOperand(ts: List<Tok>): (r: Parse)
    ensures r.Some? ==> Len(r.value.1) < Len(ts)
    decreases Len(ts), 2
  {
    var part := ParsePart(ts);
    if part.None? then None else ParseCalls(part.value.0, part.value.1)
  }

  function ParseCalls(f: Node, ts: List<Tok>): (r: Parse)
    ensures r.Some? ==> Len(r.value.1) <= Len(ts)
    decreases Len(ts), 1
  {
    if ts.Cons? && ts.head == Open(Paren) then
      var args := ParseArgs(ts.tail);
      if args.None? || !CanCall(f, |args.value.0|) then None
      else ParseCalls(Call(f, args.value.0, PLAIN), args.value.1)
    else Some((f, ts))
  }

  /** Arguments up to the closing parenthesis; a comma may stand before it. */
  function ParseArgs(ts: List<Tok>): (r: Option<(seq<Node>, List<Tok>)>)
    ensures r.Some? ==> Len(r.value.1) < Len(ts)
    decreases Len(ts), 4
  {
    if ts.Nil? then None
    else if ts.head == Close(Paren) then Some(([], ts.tail))
    else
      var first := ParseExpr(ts, 0);
      if first.None? || first.value.1.Nil? then None
      else
        var (a, rest) := first.value;
        if rest.head == Close(Paren) then Some(([a], rest.tail))
        else if rest.head == Comma then
          var others := ParseArgs(rest.tail);
          if others.None? then None else Some(([a] + others.value.0, others.value.1))
        else None
  }

  /** A minus in front of a number or a name is a prefix; any other operator in operand position is the
      operator itself, as a value. */
  function ParsePart(ts: List<Tok>): (r: Parse)
    ensures r.Some? ==> Len(r.value.1) < Len(ts)
    decreases Len(ts), 0
  {
    if ts.Nil? then None else
    match ts.head
    case Number(v) => Some((Num(v), ts.tail))
    case Ident(name) => Some((Sym(name), ts.tail))
    case Keyword(WReserved(w)) => Some((Reserved(w), ts.tail))
    case Open(Paren) =>
      var inner := ParseExpr(ts.tail, 0);
      if inner.None? || inner.value.1.Nil? || inner.value.1.head != Close(Paren) then None
      else Some((inner.value.0, inner.value.1.tail))
    case Op(Bin(op)) =>
      if op == Sub && ts.tail.Cons? && (ts.tail.head.Number? || ts.tail.head.Ident?) then
        var x := ParseOperand(ts.tail);
        if x.None? then None else Some((Negation(x.value.0), x.value.1))
      else Some((Builtin(Infix(op)), ts.tail))
    case _ => None
  }

  /** A whole token stream as one expression. */
  function ParseAll(ts: List<Tok>): Option<Node> {
    var r := ParseExpr(ts, 0);
    if r.Some? && r.value.1.Nil? then Some(r.value.0) else None
  }
}
