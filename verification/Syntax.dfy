/** The abstract syntax that the pretty printer receives, one constructor per node kind.
    Node ids are dropped: with comment hints gone the printer never looks at them. */
module Syntax {
  import opened Options

  /** The third component of a call's payload; both flags are optional there and default to false. */
  datatype Hints = Hints(isInfix: bool, isPipe: bool)

  datatype ChainOp = And | Or | Qq
  datatype Wrapper = Parallel | Race | Settled

  /** The placeholder `_` of a partial application, and the other reserved words that stand for values. */
  datatype ReservedWord = Hole | Constant(name: string)

  /** The binary operators that the printer writes between their operands. */
  datatype BinOp =
    | Add | Sub | Mul | Div | Rem | Pow | Eq | Neq | Lt | Gt | Le | Ge | Concat
    | BitAnd | BitOr | Xor | Shl | Shr | UShr

  datatype BuiltinName = Infix(op: BinOp) | Bang | Get | Named(name: string)

  datatype Node =
    | Num(value: int)
    | Atom(name: string)
    | Str(text: string)
    | Reserved(word: ReservedWord)
    | Sym(name: string)
    | Builtin(builtin: BuiltinName)
    | Effect(name: string)
    | Call(fn: Node, args: seq<Node>, hints: Hints)
    | MacroCall(fn: Node, operand: Node)
    | If(cond: Node, thn: Node, els: Option<Node>)
    | Block(stmts: seq<Node>)
    | Let(target: Target, bound: Node)
    | Function(params: seq<Target>, body: seq<Node>, shorthand: bool)
    | Macro(params: seq<Target>, body: seq<Node>)
    | Perform(effect: Node, arg: Option<Node>)
    | Array(elements: seq<Node>)
    | Object(entries: seq<Entry>)
    | Spread(inner: Node)
    | Chain(op: ChainOp, operands: seq<Node>)
    | Recur(operands: seq<Node>)
    | Loop(bindings: seq<Binding>, loopBody: Node)
    | For(levels: seq<Level>, loopBody: Node)
    | Match(subject: Node, cases: seq<Case>)
    | Import(name: string)
    | TmplStr(segments: seq<Node>)
    | Wrap(wrapper: Wrapper, inner: Node)
    | CodeTmpl(body: seq<Node>, splices: seq<Node>)
    | Splice(index: nat)
    | Handler(clauses: seq<Clause>, transform: Option<Transform>)
    | Resume(arg: Option<Node>)
    | WithHandler(handler: Node, body: seq<Node>)
    | Pattern(target: Target)
    | Unknown(tag: string)

  datatype Target =
    | SymbolTarget(name: string, default: Option<Node>)
    | RestTarget(name: string, default: Option<Node>)
    | ArrayTarget(items: seq<Option<Target>>, default: Option<Node>)
    | ObjectTarget(fields: seq<Field>, default: Option<Node>)
    | LiteralTarget(expr: Node)
    | Wildcard
    | UnknownTarget(tag: string)

  datatype Field = Field(key: string, target: Target)
  datatype Entry = SpreadEntry(inner: Node) | Pair(key: Node, value: Node)
  datatype Binding = Binding(target: Target, value: Node)
  datatype Level = Level(target: Target, collection: Node, lets: seq<Binding>,
                         whenGuard: Option<Node>, whileGuard: Option<Node>)
  datatype Case = Case(pattern: Target, result: Node, guard: Option<Node>)
  datatype Clause = Clause(effectName: string, params: seq<Target>, body: seq<Node>)
  datatype Transform = Transform(param: Target, body: seq<Node>)

  /** Letters, digits, `_` and `$`, not starting with a digit. */
  predicate IsIdentifier(name: string) {
    name != "" && IsIdentifierStart(name[0]) && forall i :: 0 <= i < |name| ==> IsIdentifierChar(name[i])
  }

  predicate IsIdentifierStart(c: char) {
    'a' <= c <= 'z' || 'A' <= c <= 'Z' || c == '_' || c == '$'
  }

  predicate IsIdentifierChar(c: char) {
    IsIdentifierStart(c) || '0' <= c <= '9'
  }

  const HOLE := Reserved(Hole)
}
