/** What the expression parser reads off a token sequence: the tree and the tokens left. One function
    for each level of precedence, loops for the operators that associate to the left, and for a
    comparison chain the conjunction it stands for, with copies of the operands in between. */
module Parsing {
  import opened Wrappers
  import opened Syntax

  predicate Next(ts: seq<Token>, s: Symbol) {
    ts != [] && ts[0] == Sym(s)
  }

  /** The operator of level `k` that comes next, and the tokens after it. */
  function OpAt(k: nat, ts: seq<Token>): (r: Option<(BinOp, seq<Token>)>)
    ensures r.Some? ==> |r.value.1| < |ts|
  {
    if ts != [] && ts[0].Sym? && OpOf(ts[0].s).Some? && OpLevel(OpOf(ts[0].s).value) == k then Some((OpOf(ts[0].s).value, ts[1..]))
    else if k == COMPARISON && |ts| >= 2 && ts[0] == Sym(KwNot) && ts[1] == Sym(KwIn) then Some((NotIn, ts[2..]))
    else None
  }

  /** The names of `<T1, T2>(`, if that comes next. */
  function TypeArgsAt(ts: seq<Token>): (r: Option<(seq<string>, seq<Token>)>)
    ensures r.Some? ==> |r.value.1| < |ts|
  {
    if |ts| >= 2 && ts[0] == Sym(Less) && ts[1].Ident? then MoreTypeArgsAt([ts[1].name], ts[2..]) else None
  }

  function MoreTypeArgsAt(names: seq<string>, ts: seq<Token>): (r: Option<(seq<string>, seq<Token>)>)
    ensures r.Some? ==> |r.value.1| < |ts|
    decreases |ts|
  {
    if Next(ts, Comma) then
      if |ts| >= 2 && ts[1].Ident? then MoreTypeArgsAt(names + [ts[1].name], ts[2..]) else None
    else if |ts| >= 2 && ts[0] == Sym(More) && ts[1] == Sym(LParen) then Some((names, ts[2..]))
    else None
  }

  function PrefixOf(t: Token): Option<UnOp> {
    if t == Sym(Minus) then Some(Neg)
    else if t == Sym(Tilde) then Some(BitNot)
    else if t == Sym(LeftArrow) then Some(Recv)
    else None
  }

  /** Reads an expression of level `k`; None is a syntax error. */
  function Parse(k: nat, ts: seq<Token>): (r: Option<(Expr, seq<Token>)>)
    requires k <= PRIMARY
    ensures r.Some? ==> |r.value.1| < |ts|
    decreases |ts|, 20 - k, 0
  {
    if k == 0 then ParseExpression(ts)
    else if k == 4 then
      if Next(ts, KwNot) then
        var (e, rest) :- Parse(4, ts[1..]);
        Some((Un(Not, e), rest))
      else Parse(5, ts)
    else if k == COMPARISON then
      var (e, rest) :- Parse(ARITHMETIC, ts);
      Chain([e], [], rest)
    else if k == 12 then
      if ts != [] && PrefixOf(ts[0]).Some? then
        var (e, rest) :- Parse(12, ts[1..]);
        Some((Un(PrefixOf(ts[0]).value, e), rest))
      else Parse(13, ts)
    else if k == 13 then
      var (b, rest) :- Parse(POSTFIX, ts);
      if Next(rest, DoubleStar) then
        var (x, rest2) :- Parse(12, rest[1..]);
        Some((Bin(Power, b, x), rest2))
      else Some((b, rest))
    else if k == POSTFIX then
      var (e, rest) :- Parse(PRIMARY, ts);
      Postfix(e, rest)
    else if k == PRIMARY then ParsePrimary(ts)
    else
      var (e, rest) :- Parse(k + 1, ts);
      Loop(k, e, rest)
  }

  /** A lambda or an assignment expression is told by its second token. */
  function ParseExpression(ts: seq<Token>): (r: Option<(Expr, seq<Token>)>)
    ensures r.Some? ==> |r.value.1| < |ts|
    decreases |ts|, 19, 1
  {
    if |ts| >= 2 && ts[0].Ident? && ts[1] == Sym(Arrow) then
      var (b, rest) :- Parse(0, ts[2..]);
      Some((Lambda(ts[0].name, b), rest))
    else if |ts| >= 2 && ts[0].Ident? && ts[1] == Sym(ColonEq) then
      var (v, rest) :- Parse(0, ts[2..]);
      Some((Walrus(ts[0].name, v), rest))
    else Parse(1, ts)
  }

  /** Operators of one level, from left to right. */
  function Loop(k: nat, left: Expr, ts: seq<Token>): (r: Option<(Expr, seq<Token>)>)
    requires LeftAssoc(k)
    ensures r.Some? ==> |r.value.1| <= |ts|
    decreases |ts|, 20, 0
  {
    match OpAt(k, ts)
    case None => Some((left, ts))
    case Some((op, after)) =>
      var (right, rest) :- Parse(k + 1, after);
      Loop(k, Bin(op, left, right), rest)
  }

  /** Collects the operands and operators of a comparison chain. */
  function Chain(operands: seq<Expr>, ops: seq<BinOp>, ts: seq<Token>): (r: Option<(Expr, seq<Token>)>)
    requires |operands| == |ops| + 1
    ensures r.Some? ==> |r.value.1| <= |ts|
    decreases |ts|, 20, 0
  {
    match OpAt(COMPARISON, ts)
    case None => Some((Desugar(operands, ops), ts))
    case Some((op, after)) =>
      var (right, rest) :- Parse(ARITHMETIC, after);
      Chain(operands + [right], ops + [op], rest)
  }

  /** `a < b < c` becomes `(a < b) and (b < c)`, where the first `b` is a copy. */
  function Desugar(operands: seq<Expr>, ops: seq<BinOp>): Expr
    requires |operands| == |ops| + 1
  {
    if ops == [] then operands[0] else DesugarUpTo(|ops|, operands, ops)
  }

  // The first `i` comparisons.
  function DesugarUpTo(i: nat, operands: seq<Expr>, ops: seq<BinOp>): Expr
    requires 0 < i <= |ops| == |operands| - 1
  {
    var right := if i < |ops| then Clone(operands[i]) else operands[i];
    var last := Bin(ops[i - 1], operands[i - 1], right);
    if i == 1 then last else Bin(And, DesugarUpTo(i - 1, operands, ops), last)
  }

  /** The copy of a subtree; a call loses its type arguments. */
  function Clone(e: Expr): Expr
    decreases e
  {
    match e
    case Name(_) => e
    case Num(_) => e
    case Bin(op, l, r) => Bin(op, Clone(l), Clone(r))
    case Un(op, x) => Un(op, Clone(x))
    case Call(f, _, args) => Call(Clone(f), [], CloneAll(args))
    case Member(o, m) => Member(Clone(o), m)
    case Index(b, i) => Index(Clone(b), Clone(i))
    case Tuple(es) => Tuple(CloneAll(es))
    case List(es) => List(CloneAll(es))
    case Lambda(p, b) => Lambda(p, Clone(b))
    case Walrus(x, v) => Walrus(x, Clone(v))
    case Spread(x) => Spread(Clone(x))
    case DictSpread(x) => DictSpread(Clone(x))
  }

  function CloneAll(es: seq<Expr>): (r: seq<Expr>)
    ensures |r| == |es|
    decreases es
  {
    if es == [] then [] else [Clone(es[0])] + CloneAll(es[1..])
  }

  /** Calls, members and indexes after an expression. A `<` that does not begin type
      arguments is left alone. */
  function Postfix(e: Expr, ts: seq<Token>): (r: Option<(Expr, seq<Token>)>)
    ensures r.Some? ==> |r.value.1| <= |ts|
    decreases |ts|, 20, 0
  {
    if Next(ts, LParen) then
      var (args, rest) :- Arguments(ts[1..]);
      Postfix(Call(e, [], args), rest)
    else if Next(ts, Dot) then
      if Next(ts[1..], KwInit) then Postfix(Member(e, "init"), ts[2..])
      else if |ts| >= 2 && ts[1].Ident? then Postfix(Member(e, ts[1].name), ts[2..])
      else None
    else if Next(ts, Less) then
      match TypeArgsAt(ts)
      case None => Some((e, ts))
      case Some((names, after)) =>
        var (args, rest) :- Arguments(after);
        Postfix(Call(e, names, args), rest)
    else if Next(ts, LBracket) then
      if Next(ts[1..], RBracket) then None
      else
        var (i, rest) :- Parse(0, ts[1..]);
        if Next(rest, RBracket) then Postfix(Index(e, i), rest[1..]) else None
    else Some((e, ts))
  }

  /** The arguments of a call and the parenthesis that ends them. */
  function Arguments(ts: seq<Token>): (r: Option<(seq<Expr>, seq<Token>)>)
    ensures r.Some? ==> |r.value.1| < |ts|
    decreases |ts|, 22, 0
  {
    if Next(ts, RParen) then Some(([], ts[1..]))
    else
      var (args, rest) :- Items([], ts);
      if Next(rest, RParen) then Some((args, rest[1..])) else None
  }

  /** At least one expression, and more as long as commas follow. */
  function Items(es: seq<Expr>, ts: seq<Token>): (r: Option<(seq<Expr>, seq<Token>)>)
    ensures r.Some? ==> |r.value.1| < |ts|
    decreases |ts|, 21, 0
  {
    var (e, rest) :- Parse(0, ts);
    if Next(rest, Comma) then Items(es + [e], rest[1..]) else Some((es + [e], rest))
  }

  /** Like `Items`, but a comma may come last. */
  function ListItems(es: seq<Expr>, ts: seq<Token>): (r: Option<(seq<Expr>, seq<Token>)>)
    ensures r.Some? ==> |r.value.1| < |ts|
    decreases |ts|, 21, 0
  {
    var (e, rest) :- Parse(0, ts);
    if Next(rest, Comma) && !Next(rest[1..], RBracket) then ListItems(es + [e], rest[1..])
    else Some((es + [e], if Next(rest, Comma) then rest[1..] else rest))
  }

  function ParsePrimary(ts: seq<Token>): (r: Option<(Expr, seq<Token>)>)
    ensures r.Some? ==> |r.value.1| < |ts|
    decreases |ts|, 4, 0
  {
    if ts == [] then None
    else
      match ts[0]
      case Int(n) => if n <= MAX_LITERAL then Some((Num(n), ts[1..])) else None
      case Ident(x) => Some((Name(x), ts[1..]))
      case Sym(Star) =>
        var (e, rest) :- Parse(12, ts[1..]);
        Some((Spread(e), rest))
      case Sym(DoubleStar) =>
        var (e, rest) :- Parse(12, ts[1..]);
        Some((DictSpread(e), rest))
      case Sym(LParen) => ParseParen(ts[1..])
      case Sym(LBracket) =>
        if Next(ts[1..], RBracket) then Some((List([]), ts[2..]))
        else
          var (es, rest) :- ListItems([], ts[1..]);
          if Next(rest, RBracket) then Some((List(es), rest[1..])) else None
      case Sym(_) => None
  }

  /** After an opening parenthesis: a tuple if a comma follows the first expression. */
  function ParseParen(ts: seq<Token>): (r: Option<(Expr, seq<Token>)>)
    ensures r.Some? ==> |r.value.1| < |ts|
    decreases |ts|, 22, 0
  {
    if Next(ts, RParen) then Some((Tuple([]), ts[1..]))
    else
      var (first, rest) :- Parse(0, ts);
      if Next(rest, Comma) then
        if Next(rest[1..], RParen) then Some((Tuple([first]), rest[2..]))
        else
          var (es, rest2) :- Items([first], rest[1..]);
          if Next(rest2, RParen) then Some((Tuple(es), rest2[1..])) else None
      else if Next(rest, RParen) then Some((first, rest[1..]))
      else None
  }
}
