/** Tokens and expression trees, and how an expression is written as tokens: operators with their
    levels, and parentheses exactly where an operand is of a lower level than its place asks for.
    The levels are those of the parser's functions, from the loosest to the tightest. */
module Syntax {
  import opened Wrappers

  const MAX_LITERAL: nat := 0x7fff_ffff_ffff_ffff

  // What a 64-bit integer literal can be.
  type Literal = n: nat | n <= MAX_LITERAL

  datatype Symbol =
    | LParen | RParen | LBracket | RBracket | Comma | Dot | Arrow | ColonEq | KwInit
    | DoubleQuestion | KwOr | KwAnd | KwNot | KwIn | Pipe | Caret | Amp | LShift | RShift
    | EqEq | NotEq | Less | More | LessEq | MoreEq | Plus | Minus | Star | Slash | DoubleSlash | Percent
    | Tilde | LeftArrow | DoubleStar

  datatype Token = Ident(name: string) | Int(n: nat) | Sym(s: Symbol)

  datatype BinOp =
    | NullCoalesce | Or | And | BitOr | BitXor | BitAnd | Shl | Shr
    | Eq | Neq | Lt | Gt | Lte | Gte | In | NotIn | Add | Sub | Mul | Div | IntDiv | Mod | Power

  datatype UnOp = Not | Neg | BitNot | Recv

  datatype Expr =
    | Name(x: string)
    | Num(n: Literal)
    | Bin(op: BinOp, left: Expr, right: Expr)
    | Un(uop: UnOp, operand: Expr)
    | Call(callee: Expr, typeArgs: seq<string>, args: seq<Expr>)
    | Member(object: Expr, member: string)
    | Index(base: Expr, index: Expr)
    | Tuple(elems: seq<Expr>)
    | List(items: seq<Expr>)
    | Lambda(param: string, body: Expr)
    | Walrus(target: string, value: Expr)
    | Spread(operand: Expr)
    | DictSpread(operand: Expr)

  // ---- precedence ----

  const COMPARISON: nat := 9
  const ARITHMETIC: nat := 10
  const POSTFIX: nat := 14
  const PRIMARY: nat := 15

  /** The operator a token stands for between two operands; `not in` takes two tokens. */
  function OpOf(s: Symbol): Option<BinOp> {
    match s
    case DoubleQuestion => Some(NullCoalesce)
    case KwOr => Some(Or)
    case KwAnd => Some(And)
    case Pipe => Some(BitOr)
    case Caret => Some(BitXor)
    case Amp => Some(BitAnd)
    case LShift => Some(Shl)
    case RShift => Some(Shr)
    case EqEq => Some(Eq)
    case NotEq => Some(Neq)
    case Less => Some(Lt)
    case More => Some(Gt)
    case LessEq => Some(Lte)
    case MoreEq => Some(Gte)
    case KwIn => Some(In)
    case Plus => Some(Add)
    case Minus => Some(Sub)
    case Star => Some(Mul)
    case Slash => Some(Div)
    case DoubleSlash => Some(IntDiv)
    case Percent => Some(Mod)
    case DoubleStar => Some(Power)
    case _ => None
  }

  /** How tightly an operator binds: 1 is the loosest. Level 4 is `not`, 12 the other prefixes. */
  function OpLevel(op: BinOp): (r: nat)
    ensures 1 <= r <= 13 && r != 4 && r != 12
  {
    match op
    case NullCoalesce => 1
    case Or => 2
    case And => 3
    case BitOr => 5
    case BitXor => 6
    case BitAnd => 7
    case Shl => 8
    case Shr => 8
    case Eq => COMPARISON
    case Neq => COMPARISON
    case Lt => COMPARISON
    case Gt => COMPARISON
    case Lte => COMPARISON
    case Gte => COMPARISON
    case In => COMPARISON
    case NotIn => COMPARISON
    case Add => ARITHMETIC
    case Sub => ARITHMETIC
    case Mul => 11
    case Div => 11
    case IntDiv => 11
    case Mod => 11
    case Power => 13
  }

  /** The levels whose operators associate to the left. */
  predicate LeftAssoc(k: nat) {
    1 <= k <= 11 && k != 4 && k != COMPARISON
  }

  function Level(e: Expr): (r: nat)
    ensures r <= PRIMARY
  {
    match e
    case Name(_) => PRIMARY
    case Num(_) => PRIMARY
    case Tuple(_) => PRIMARY
    case List(_) => PRIMARY
    case Bin(op, _, _) => OpLevel(op)
    case Un(op, _) => if op == Not then 4 else 12
    case Spread(_) => 12
    case DictSpread(_) => 12
    case Call(_, _, _) => POSTFIX
    case Member(_, _) => POSTFIX
    case Index(_, _) => POSTFIX
    case Lambda(_, _) => 0
    case Walrus(_, _) => 0
  }

  // ---- writing ----

  function SymbolOf(op: BinOp): Symbol
    requires op != NotIn
  {
    match op
    case NullCoalesce => DoubleQuestion
    case Or => KwOr
    case And => KwAnd
    case BitOr => Pipe
    case BitXor => Caret
    case BitAnd => Amp
    case Shl => LShift
    case Shr => RShift
    case Eq => EqEq
    case Neq => NotEq
    case Lt => Less
    case Gt => More
    case Lte => LessEq
    case Gte => MoreEq
    case In => KwIn
    case Add => Plus
    case Sub => Minus
    case Mul => Star
    case Div => Slash
    case IntDiv => DoubleSlash
    case Mod => Percent
    case Power => DoubleStar
  }

  function OpTokens(op: BinOp): (r: seq<Token>)
    ensures r != []
  {
    if op == NotIn then [Sym(KwNot), Sym(KwIn)] else [Sym(SymbolOf(op))]
  }

  function PrefixToken(op: UnOp): Token {
    match op
    case Not => Sym(KwNot)
    case Neg => Sym(Minus)
    case BitNot => Sym(Tilde)
    case Recv => Sym(LeftArrow)
  }

  // The levels at which the two operands are written.
  function LeftLevel(op: BinOp): nat {
    if op.Power? then POSTFIX else if OpLevel(op) == COMPARISON then ARITHMETIC else OpLevel(op)
  }

  function RightLevel(op: BinOp): nat {
    if op.Power? then 12 else OpLevel(op) + 1
  }

  /** The expression where level `k` is expected: in parentheses if it binds more loosely. */
  function Show(e: Expr, k: nat): seq<Token>
    decreases e, 1
  {
    if Level(e) >= k then Body(e) else [Sym(LParen)] + Body(e) + [Sym(RParen)]
  }

  function Body(e: Expr): seq<Token>
    decreases e, 0
  {
    match e
    case Name(x) => [Ident(x)]
    case Num(n) => [Int(n)]
    case Bin(op, l, r) => Show(l, LeftLevel(op)) + OpTokens(op) + Show(r, RightLevel(op))
    case Un(op, x) => [PrefixToken(op)] + Show(x, Level(e))
    case Spread(x) => [Sym(Star)] + Show(x, 12)
    case DictSpread(x) => [Sym(DoubleStar)] + Show(x, 12)
    case Call(f, names, args) => Show(f, POSTFIX) + ShowTypeArgs(names) + [Sym(LParen)] + ShowItems(args) + [Sym(RParen)]
    case Member(o, m) => Show(o, POSTFIX) + [Sym(Dot), Ident(m)]
    case Index(b, i) => Show(b, POSTFIX) + [Sym(LBracket)] + Show(i, 0) + [Sym(RBracket)]
    case Tuple(es) => [Sym(LParen)] + ShowItems(es) + (if |es| == 1 then [Sym(Comma), Sym(RParen)] else [Sym(RParen)])
    case List(es) => [Sym(LBracket)] + ShowItems(es) + [Sym(RBracket)]
    case Lambda(p, b) => [Ident(p), Sym(Arrow)] + Show(b, 0)
    case Walrus(x, v) => [Ident(x), Sym(ColonEq)] + Show(v, 0)
  }

  /** Items between commas. Comparisons among them are in parentheses: `f(a < b, c > (d))`
      would read as a call with type arguments. */
  function ShowItems(es: seq<Expr>): seq<Token>
    decreases es
  {
    if es == [] then []
    else if |es| == 1 then Show(es[0], ARITHMETIC)
    else Show(es[0], ARITHMETIC) + [Sym(Comma)] + ShowItems(es[1..])
  }

  function ShowTypeArgs(names: seq<string>): seq<Token> {
    if names == [] then [] else [Sym(Less), Ident(names[0])] + ShowMoreTypeArgs(names[1..])
  }

  function ShowMoreTypeArgs(names: seq<string>): seq<Token> {
    if names == [] then [Sym(More)] else [Sym(Comma), Ident(names[0])] + ShowMoreTypeArgs(names[1..])
  }
}
