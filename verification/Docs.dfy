/** Printed text as a rope of tokens and blank space, and the token stream that a reader of the text sees. */
module Docs {
  import opened Syntax

  datatype List<+T> = Nil | Cons(head: T, tail: List<T>)

  datatype Word =
    | WIf | WThen | WElse | WEnd | WDo | WLet | WMacro | WPerform | WRecur | WLoop | WFor | WIn | WWhen | WWhile
    | WMatch | WCase | WImport | WParallel | WRace | WSettled | WQuote | WHandler | WTransform | WResume | WWith
    | WAs | WReserved(word: ReservedWord)

  /** Operator tokens that are not binary operators of the arithmetic kind. */
  datatype Sign = Bin(op: BinOp) | Arrow | Equals | Colon | Dots | SafeDot | PipeSign | AndSign | OrSign | QqSign
    | BangSign

  datatype Bracket = Paren | Square | Curly | TemplateHole | SpliceHole

  datatype Failure = MissingElse | EmptyBlock | BadSplice

  datatype Tok =
    | Number(value: int)
    | Ident(text: string)
    | Quoted(text: string)      // a string literal, given by the value it denotes
    | BareQuoted(text: string)  // text put between quotes as it is
    | AtomTok(name: string)
    | EffectTok(name: string)
    | Keyword(word: Word)
    | Op(sign: Sign)
    | Dash                      // a minus sign written directly against the text that follows
    | Open(bracket: Bracket)
    | Close(bracket: Bracket)
    | Comma
    | Semicolon
    | Hash
    | Backtick
    | SpliceMark                // a splice outside of its template
    | Undefined                 // the text that an absent value turns into
    | Raw(text: string)         // template segments and the `<kind>` fallback
    | Failed(reason: Failure)   // the printer threw here

  datatype Doc =
    | Empty
    | Blank(breaks: bool, indent: nat)
    | Tok(tok: Tok)
    | Cat(left: Doc, right: Doc)
  {
    function Then(d: Doc): Doc { Cat(this, d) }
    function Add(t: Tok): Doc { Cat(this, Tok(t)) }
  }

  const SP := Blank(false, 1)

  function NewLine(level: nat): Doc { Blank(true, level) }

  // What is written.

  /** The tokens of `d` as they are written, followed by `rest`. */
  function Write(d: Doc, rest: List<Tok>): List<Tok> {
    match d
    case Empty => rest
    case Blank(_, _) => rest
    case Tok(t) => Cons(t, rest)
    case Cat(a, b) => Write(a, Write(b, rest))
  }

  // What is read. The text of a number has no sign: a minus sign is a character of its own.

  /** A token after which a minus sign does not belong to the number behind it. */
  predicate EndsOperand(t: Tok) { t.Number? || t.Ident? || t.AtomTok? || t.Keyword? || t.Close? || t.Undefined? }

  /** The tokenizer takes the longest match. A minus sign and the digits directly behind it are one number, unless an
      operand ends in front of them; with `>` it is an arrow. `behind`: an operand has just ended. */
  function Lex(behind: bool, ts: List<Tok>): List<Tok>
    decreases ts, 0
  {
    if ts.Nil? then Nil
    else if ts.head.Dash? then if ts.tail.Nil? then Cons(Op(Bin(Sub)), Nil) else LexDash(behind, ts.tail)
    else if IsPrefix(ts) then Cons(ts.head, Cons(ts.tail.head, Lex(false, ts.tail.tail)))
    else Cons(ts.head, Lex(EndsOperand(ts.head), ts.tail))
  }

  /** The prefix of a macro call is one token for the tokenizer, and ends no operand. */
  predicate IsPrefix(ts: List<Tok>) { ts.Cons? && ts.head.Hash? && ts.tail.Cons? && ts.tail.head.Ident? }

  /** The same behind a minus sign. */
  function LexDash(behind: bool, ts: List<Tok>): List<Tok>
    requires ts.Cons?
    decreases ts, 1
  {
    match ts.head
    case Number(v) =>
      if behind then Cons(Op(Bin(Sub)), Cons(ts.head, Lex(true, ts.tail))) else Cons(Number(-v), Lex(true, ts.tail))
    case Op(Bin(Gt)) => Cons(Op(Arrow), Lex(false, ts.tail))
    case Op(Bin(Ge)) => Cons(Op(Arrow), Cons(Op(Equals), Lex(false, ts.tail)))
    case Op(Bin(Shr)) => Cons(Op(Arrow), Cons(Op(Bin(Gt)), Lex(false, ts.tail)))
    case Op(Bin(UShr)) => Cons(Op(Arrow), Cons(Op(Bin(Shr)), Lex(false, ts.tail)))
    case _ => Cons(Op(Bin(Sub)), Lex(false, ts))
  }

  /** The tokens that a reader of the text sees. */
  function Tokens(d: Doc): List<Tok> { Lex(false, Write(d, Nil)) }

  // What matters: a comma before a closing bracket and a semicolon before `end` are optional.

  function Push(t: Tok, rest: List<Tok>): List<Tok> {
    if t.Comma? && rest.Cons? && rest.head.Close? then rest
    else if t.Semicolon? && rest.Cons? && rest.head == Keyword(WEnd) then rest
    else Cons(t, rest)
  }

  function Erase(ts: List<Tok>): List<Tok> { if ts.Nil? then Nil else Push(ts.head, Erase(ts.tail)) }

  /** The same, where an absent value counts for nothing. */
  function Place(t: Tok, rest: List<Tok>): List<Tok> { if t.Undefined? then rest else Push(t, rest) }

  function Core(ts: List<Tok>): List<Tok> { if ts.Nil? then Nil else Place(ts.head, Core(ts.tail)) }

  /** What remains of the tokens of `d`, followed by `rest`. */
  function Emit(d: Doc, rest: List<Tok>): List<Tok> {
    match d
    case Empty => rest
    case Blank(_, _) => rest
    case Tok(t) => Place(t, rest)
    case Cat(a, b) => Emit(a, Emit(b, rest))
  }

  lemma {:induction false} EmitCore(d: Doc, rest: List<Tok>)
    ensures Emit(d, Core(rest)) == Core(Write(d, rest))
  {
    if d.Cat? {
      EmitCore(d.right, rest);
      EmitCore(d.left, Write(d.right, rest));
    }
  }

  predicate Has(ts: List<Tok>, t: Tok) { ts.Cons? && (ts.head == t || Has(ts.tail, t)) }

  lemma {:induction false} CoreErases(ts: List<Tok>)
    requires !Has(ts, Undefined)
    ensures Core(ts) == Erase(ts)
  {
    if ts.Cons? { CoreErases(ts.tail); }
  }

  /** Optional separators never come between a minus sign and what it belongs to. */
  lemma {:induction false} LexErased(behind: bool, ts: List<Tok>)
    ensures Lex(behind, Erase(ts)) == Erase(Lex(behind, ts))
    decreases ts
  {
    if ts.Cons? {
      var t, rest := ts.head, ts.tail;
      if IsPrefix(ts) {
        LexErased(false, rest.tail);
      } else if !t.Dash? {
        LexErased(EndsOperand(t), rest);
      } else if rest.Cons? {
        LexErased(true, rest.tail);
        LexErased(false, rest.tail);
        LexErased(false, rest);
        ErasedDash(behind, rest);
      }
    }
  }

  lemma {:induction false} ErasedDash(behind: bool, ts: List<Tok>)
    requires ts.Cons? && forall b :: Lex(b, Erase(ts.tail)) == Erase(Lex(b, ts.tail))
    requires Lex(false, Erase(ts)) == Erase(Lex(false, ts))
    ensures Erase(ts).Cons? && LexDash(behind, Erase(ts)) == Erase(LexDash(behind, ts))
  {
  }

  /** Emit as rewrite rules. */
  lemma EmitRules()
    ensures forall rest {:trigger Emit(Empty, rest)} :: Emit(Empty, rest) == rest
    ensures forall b, i, rest {:trigger Emit(Blank(b, i), rest)} :: Emit(Blank(b, i), rest) == rest
    ensures forall t, rest {:trigger Emit(Tok(t), rest)} :: Emit(Tok(t), rest) == Place(t, rest)
    ensures forall a, b, rest {:trigger Emit(Cat(a, b), rest)} :: Emit(Cat(a, b), rest) == Emit(a, Emit(b, rest))
  {
  }

  lemma WriteRules()
    ensures forall rest {:trigger Write(Empty, rest)} :: Write(Empty, rest) == rest
    ensures forall b, i, rest {:trigger Write(Blank(b, i), rest)} :: Write(Blank(b, i), rest) == rest
    ensures forall t, rest {:trigger Write(Tok(t), rest)} :: Write(Tok(t), rest) == Cons(t, rest)
    ensures forall a, b, rest {:trigger Write(Cat(a, b), rest)} :: Write(Cat(a, b), rest) == Write(a, Write(b, rest))
  {
  }
}
