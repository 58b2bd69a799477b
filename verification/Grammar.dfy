/** Concrete syntax trees for operator expressions: what was written, parentheses included, together with
    the tokens and the abstract syntax of each. */
module Grammar {
  import opened Options
  import opened Syntax
  import opened Docs
  import opened Names

  /** Operators written between operands: the arithmetic kind, a function name, a logical one, or a pipe. */
  datatype InfixOp = Arith(op: BinOp) | NameOp(name: string) | Logic(chain: ChainOp) | PipeOp

  datatype Callee = NameCallee(name: string) | OpCallee(op: BinOp)

  datatype Cst =
    | Lit(value: int)
    | Var(name: string)
    | HoleC
    | ParenC(inner: Cst)
    | NegC(inner: Cst)
    | InfixC(op: InfixOp, left: Cst, right: Cst)
    | AppC(callee: Callee, args: seq<Cst>, trailing: bool)  // `trailing`: a comma before the bracket closes

  const PLAIN := Hints(false, false)

  function OpTok(o: InfixOp): Tok {
    match o
    case Arith(op) => Op(Bin(op))
    case NameOp(name) => Ident(name)
    case Logic(And) => Op(AndSign)
    case Logic(Or) => Op(OrSign)
    case Logic(Qq) => Op(QqSign)
    case PipeOp => Op(PipeSign)
  }

  function CalleeTok(f: Callee): Tok {
    match f case NameCallee(name) => Ident(name) case OpCallee(op) => Op(Bin(op))
  }

  function CalleeNode(f: Callee): Node {
    match f case NameCallee(name) => Sym(name) case OpCallee(op) => Builtin(Infix(op))
  }

  /** The tokens of `c` in front of `rest`. */
  function Toks(c: Cst, rest: List<Tok>): List<Tok>
    decreases c
  {
    match c
    case Lit(v) => Cons(Number(v), rest)
    case Var(name) => Cons(Ident(name), rest)
    case HoleC => Cons(Keyword(WReserved(Hole)), rest)
    case ParenC(x) => Cons(Open(Paren), Toks(x, Cons(Close(Paren), rest)))
    case NegC(x) => Cons(Op(Bin(Sub)), Toks(x, rest))
    case InfixC(o, l, r) => Toks(l, Cons(OpTok(o), Toks(r, rest)))
    case AppC(f, args, trailing) => Cons(CalleeTok(f), Cons(Open(Paren), Inside(args, trailing, rest)))
  }

  /** What stands between the brackets of a call, and the closing one. */
  function Inside(args: seq<Cst>, trailing: bool, rest: List<Tok>): List<Tok>
    decreases args, 1
  {
    if args == [] && trailing then Cons(Comma, Cons(Close(Paren), rest)) else ArgToks(args, trailing, rest)
  }

  function ArgToks(args: seq<Cst>, trailing: bool, rest: List<Tok>): List<Tok>
    decreases args, 0
  {
    if args == [] then Cons(Close(Paren), rest)
    else if |args| == 1 && !trailing then Toks(args[0], Cons(Close(Paren), rest))
    else Toks(args[0], Cons(Comma, ArgToks(args[1..], trailing, rest)))
  }

  function InfixNode(o: InfixOp, l: Node, r: Node): Node {
    match o
    case Arith(op) => Call(Builtin(Infix(op)), [l, r], PLAIN)
    case NameOp(name) => Call(Sym(name), [l, r], Hints(true, false))
    case Logic(op) => Chain(op, [l, r])
    case PipeOp => Call(r, [l], Hints(false, true))
  }

  function Negation(x: Node): Node { Call(Builtin(Infix(Sub)), [Num(0), x], PLAIN) }

  function Ast(c: Cst): Node {
    match c
    case Lit(v) => Num(v)
    case Var(name) => Sym(name)
    case HoleC => HOLE
    case ParenC(x) => Ast(x)
    case NegC(x) => Negation(Ast(x))
    case InfixC(o, l, r) => InfixNode(o, Ast(l), Ast(r))
    case AppC(f, args, _) => Call(CalleeNode(f), Asts(args), PLAIN)
  }

  function Asts(args: seq<Cst>): (r: seq<Node>)
    ensures |r| == |args|
  {
    if args == [] then [] else [Ast(args[0])] + Asts(args[1..])
  }

  // Precedence.

  /** The parser's own table; higher binds tighter. */
  function Prec(o: InfixOp): nat {
    match o
    case Arith(Pow) => 12
    case Arith(Mul) => 11
    case Arith(Div) => 11
    case Arith(Rem) => 11
    case Arith(Add) => 10
    case Arith(Sub) => 10
    case Arith(Shl) => 9
    case Arith(Shr) => 9
    case Arith(UShr) => 9
    case Arith(Concat) => 8
    case Arith(Lt) => 7
    case Arith(Le) => 7
    case Arith(Gt) => 7
    case Arith(Ge) => 7
    case Arith(Eq) => 6
    case Arith(Neq) => 6
    case Arith(BitAnd) => 5
    case Arith(Xor) => 5
    case Arith(BitOr) => 5
    case Logic(_) => 4
    case NameOp(_) => 3
    case PipeOp => 2
  }

  const POW := 12

  /** An operator of precedence `q` continues an expression read at precedence `p`; exponentiation alone
      associates to the right. */
  predicate Continues(q: nat, p: nat) { q > p || (q == POW && p == POW) }

  predicate LeftOk(o: InfixOp, l: Cst) { l.InfixC? ==> !Continues(Prec(o), Prec(l.op)) }

  predicate RightOk(o: InfixOp, r: Cst) { r.InfixC? ==> Continues(Prec(r.op), Prec(o)) }

  /** Operands that a prefix minus reads: the token after the minus is a number or a name. */
  predicate NegOperand(x: Cst) { x.Lit? || x.Var? || (x.AppC? && x.callee.NameCallee?) }

  /** How many arguments an operator takes in prefix form. */
  predicate Takes(op: BinOp, n: nat) {
    match op
    case Add | Sub | Mul | Div => true
    case Pow | Rem | Shl | Shr | UShr => n == 2
    case BitAnd | BitOr | Xor => n >= 2
    case _ => n >= 1
  }

  predicate CalleeTakes(f: Callee, n: nat) { f.OpCallee? ==> Takes(f.op, n) }

  /** What the grammar generates, words apart. */
  predicate WF(c: Cst)
    decreases c
  {
    match c
    case ParenC(x) => WF(x)
    case NegC(x) => WF(x) && NegOperand(x)
    case InfixC(o, l, r) =>
      WF(l) && WF(r) && LeftOk(o, l) && RightOk(o, r) && (o.NameOp? ==> IsOperatorName(o.name))
    case AppC(f, args, trailing) =>
      (args != [] || !trailing) && CalleeTakes(f, |args|) && forall a :: a in args ==> WF(a)
    case _ => true
  }

  // Words that are not reserved: where an expression starts, some names start something else.

  /** Of the words that have tokens of their own only these are reserved; the others are symbols to the tokenizer. */
  predicate IsReservedTok(t: Tok) {
    t.Keyword? &&
    (t.word.WReserved? || t.word in {WThen, WElse, WEnd, WDo, WIn, WWhen, WWhile, WCase, WQuote, WWith, WAs})
  }

  predicate IsBinaryTok(t: Tok) { t.Op? && (t.sign.Bin? || t.sign in {PipeSign, AndSign, OrSign, QqSign}) }

  /** At the start of an expression, in front of `next`, the name is no name: it opens a construct, or it is `resume` at
      the end, in front of a bracket, a reserved word or an operator, or `type` in front of a capitalized name. */
  predicate IsWord(name: string, next: Option<Tok>) {
    || IsOpener(name)
    || (name == "resume" &&
        (next.None? || next.value == Open(Paren) || IsReservedTok(next.value) || IsBinaryTok(next.value)))
    || (name == "type" && next.Some? && next.value.Ident? && IsCapitalized(next.value.text))
  }

  predicate IsCapitalized(name: string) { name != "" && 'A' <= name[0] <= 'Z' }

  function Head(ts: List<Tok>): Option<Tok> { if ts.Nil? then None else Some(ts.head) }

  predicate StartsWord(ts: List<Tok>) { ts.Cons? && ts.head.Ident? && IsWord(ts.head.text, Head(ts.tail)) }

  /** No name of `c` stands where it is a word. `start`: an expression starts with `c`. `next`: what follows it. */
  predicate Placed(c: Cst, start: bool, next: Option<Tok>)
    decreases c
  {
    match c
    case Var(name) => start ==> !IsWord(name, next)
    case ParenC(x) => Placed(x, true, Some(Close(Paren)))
    case NegC(x) => Placed(x, false, next)
    case InfixC(o, l, r) => Placed(l, start, Some(OpTok(o))) && Placed(r, true, next)
    case AppC(f, args, _) =>
      && (start && f.NameCallee? ==> !IsWord(f.name, Some(Open(Paren))))
      && forall a :: a in args ==> Placed(a, true, Some(Close(Paren)))
    case _ => true
  }

  /** In front of a comma and in front of a bracket that closes it is the same. */
  lemma {:induction false} PlacedBefore(c: Cst, start: bool)
    ensures Placed(c, start, Some(Comma)) <==> Placed(c, start, Some(Close(Paren)))
    decreases c
  {
    match c
    case NegC(x) => PlacedBefore(x, false);
    case InfixC(_, _, r) => PlacedBefore(r, true);
    case _ =>
  }

  lemma {:induction false} PlacedLater(c: Cst, next: Option<Tok>)
    requires Placed(c, true, next)
    ensures Placed(c, false, next)
    decreases c
  {
    if c.InfixC? { PlacedLater(c.left, Some(OpTok(c.op))); }
  }
}
