/** The statements and expressions whose lowering is modelled: 64-bit integer
    variables and the boolean conditions over them. */
module Ast {
  import opened Wrappers

  const TWO_63: int := 0x8000_0000_0000_0000
  const TWO_64: int := 0x1_0000_0000_0000_0000

  type Int64 = n: int | -TWO_63 <= n < TWO_63

  datatype ArithOp = Add | Sub | Mul

  datatype CmpOp = Eq | Neq | Lt | Gt | Lte | Gte

  datatype Expr =
    | Lit(n: Int64)
    | Var(name: string)
    | Arith(op: ArithOp, left: Expr, right: Expr)
    | Neg(operand: Expr)
    | Pow(base: Expr, exponent: Expr)

  datatype Cond =
    | Cmp(cmp: CmpOp, lhs: Expr, rhs: Expr)
    | Truth(e: Expr)
    | Not(c: Cond)
    | And(c0: Cond, c1: Cond)
    | Or(c0: Cond, c1: Cond)

  datatype Elsif = Elsif(cond: Cond, body: seq<Stmt>)

  // A case without a pattern is the wildcard.
  datatype Case = Case(pattern: Option<Expr>, guard: Option<Cond>, body: seq<Stmt>)

  datatype Stmt =
    | Assign(name: string, value: Expr)
    | Pass
    | If(cond: Cond, thn: seq<Stmt>, elsifs: seq<Elsif>, els: seq<Stmt>)
    | While(cond: Cond, body: seq<Stmt>, els: seq<Stmt>)
    | Break
    | Continue
    | Return(result: Option<Expr>)
    | Match(subject: Expr, cases: seq<Case>)
    | Yield(yielded: Option<Expr>)

  /** The test that makes a function a generator. It looks into every nested
      list except the else branch of a while loop. */
  predicate ContainsYield(ss: seq<Stmt>)
    decreases ss
  {
    ss != [] && (StmtContainsYield(ss[0]) || ContainsYield(ss[1..]))
  }

  predicate StmtContainsYield(s: Stmt)
    decreases s, 0
  {
    match s
    case Yield(_) => true
    case If(_, thn, elsifs, els) =>
      ContainsYield(thn) || (exists i :: 0 <= i < |elsifs| && ContainsYield(elsifs[i].body)) || ContainsYield(els)
    case While(_, body, _) => ContainsYield(body)
    case Match(_, cases) => exists i :: 0 <= i < |cases| && ContainsYield(cases[i].body)
    case _ => false
  }

  /** Whether a statement yields anywhere, the else branches of loops included. */
  predicate HasYield(ss: seq<Stmt>)
    decreases ss
  {
    ss != [] && (StmtHasYield(ss[0]) || HasYield(ss[1..]))
  }

  predicate StmtHasYield(s: Stmt)
    decreases s, 0
  {
    match s
    case Yield(_) => true
    case If(_, thn, elsifs, els) =>
      HasYield(thn) || (exists i :: 0 <= i < |elsifs| && HasYield(elsifs[i].body)) || HasYield(els)
    case While(_, body, els) => HasYield(body) || HasYield(els)
    case Match(_, cases) => exists i :: 0 <= i < |cases| && HasYield(cases[i].body)
    case _ => false
  }

  /** A yield in the else branch of a loop, which the test does not see. */
  predicate ElseYields(ss: seq<Stmt>)
    decreases ss
  {
    ss != [] && (StmtElseYields(ss[0]) || ElseYields(ss[1..]))
  }

  predicate StmtElseYields(s: Stmt)
    decreases s, 0
  {
    match s
    case If(_, thn, elsifs, els) =>
      ElseYields(thn) || (exists i :: 0 <= i < |elsifs| && ElseYields(elsifs[i].body)) || ElseYields(els)
    case While(_, body, els) => ElseYields(body) || HasYield(els)
    case Match(_, cases) => exists i :: 0 <= i < |cases| && ElseYields(cases[i].body)
    case _ => false
  }

  /** The test finds a yield if there is one, except exactly where all of them are in the else
      branches of loops: such a function is compiled as an ordinary one. */
  lemma {:induction false} YieldsMissed(ss: seq<Stmt>)
    ensures HasYield(ss) <==> ContainsYield(ss) || ElseYields(ss)
    decreases ss
  {
    if ss != [] {
      StmtYieldsMissed(ss[0]);
      YieldsMissed(ss[1..]);
    }
  }

  lemma {:induction false} StmtYieldsMissed(s: Stmt)
    ensures StmtHasYield(s) <==> StmtContainsYield(s) || StmtElseYields(s)
    decreases s, 0
  {
    match s
    case If(_, thn, elsifs, els) =>
      YieldsMissed(thn);
      YieldsMissed(els);
      forall i | 0 <= i < |elsifs|
        ensures HasYield(elsifs[i].body) <==> ContainsYield(elsifs[i].body) || ElseYields(elsifs[i].body)
      {
        YieldsMissed(elsifs[i].body);
      }
    case While(_, body, els) => YieldsMissed(body);
    case Match(_, cases) =>
      forall i | 0 <= i < |cases|
        ensures HasYield(cases[i].body) <==> ContainsYield(cases[i].body) || ElseYields(cases[i].body)
      {
        YieldsMissed(cases[i].body);
      }
    case _ =>
  }

  /** No loop with an else branch yields in its body. */
  predicate FlagsSafe(ss: seq<Stmt>)
    decreases ss
  {
    ss == [] || (StmtFlagsSafe(ss[0]) && FlagsSafe(ss[1..]))
  }

  predicate StmtFlagsSafe(s: Stmt)
    decreases s, 0
  {
    match s
    case If(_, thn, elsifs, els) =>
      FlagsSafe(thn) && (forall i :: 0 <= i < |elsifs| ==> FlagsSafe(elsifs[i].body)) && FlagsSafe(els)
    case While(_, body, els) => (els == [] || !HasYield(body)) && FlagsSafe(body) && FlagsSafe(els)
    case Match(_, cases) => forall i :: 0 <= i < |cases| ==> FlagsSafe(cases[i].body)
    case _ => true
  }
}
