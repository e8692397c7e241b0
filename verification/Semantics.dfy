/** The structured meaning of statements: what a reader of the source program expects of each of them. */
module Semantics {
  import opened Wrappers
  import opened Ast

  /** Two's complement wrap-around of 64-bit arithmetic. */
  function Wrap(n: int): Int64 {
    (n + TWO_63) % TWO_64 - TWO_63
  }

  function ArithValue(op: ArithOp, a: Int64, b: Int64): Int64 {
    match op
    case Add => Wrap(a + b)
    case Sub => Wrap(a - b)
    case Mul => Wrap(a * b)
  }

  predicate CmpHolds(op: CmpOp, a: Int64, b: Int64) {
    match op
    case Eq => a == b
    case Neq => a != b
    case Lt => a < b
    case Gt => a > b
    case Lte => a <= b
    case Gte => a >= b
  }

  /** Integer power; a negative exponent counts as zero. */
  function Power(b: int, n: int): int
    decreases if n <= 0 then 0 else n
  {
    if n <= 0 then 1 else Power(b, n - 1) * b
  }

  // The names in scope and their values. No name is ever in scope twice,
  // so leaving a block is forgetting the names first assigned in it.
  type Env = map<string, Int64>

  function Restrict(env: Env, names: set<string>): Env {
    map x | x in env && x in names :: env[x]
  }

  /** None when the expression reads a name that is not in scope. */
  function Eval(e: Expr, env: Env): Option<Int64> {
    match e
    case Lit(n) => Some(n)
    case Var(x) => if x in env then Some(env[x]) else None
    case Arith(op, l, r) =>
      var a :- Eval(l, env);
      var b :- Eval(r, env);
      Some(ArithValue(op, a, b))
    case Neg(o) =>
      var a :- Eval(o, env);
      Some(Wrap(0 - a))
    case Pow(b, n) =>
      var a :- Eval(b, env);
      var k :- Eval(n, env);
      Some(Wrap(Power(a, k)))
  }

  /** `And` and `Or` decide without their right side where the left side settles it. */
  function Test(c: Cond, env: Env): Option<bool> {
    match c
    case Cmp(op, l, r) =>
      var a :- Eval(l, env);
      var b :- Eval(r, env);
      Some(CmpHolds(op, a, b))
    case Truth(e) =>
      var a :- Eval(e, env);
      Some(a != 0)
    case Not(d) =>
      var b :- Test(d, env);
      Some(!b)
    case And(d0, d1) =>
      var b :- Test(d0, env);
      if b then Test(d1, env) else Some(false)
    case Or(d0, d1) =>
      var b :- Test(d0, env);
      if b then Some(true) else Test(d1, env)
  }

  datatype Outcome =
    | Fell                       // ran to the end of the statement
    | Broke
    | Continued
    | Returned(v: Option<Int64>)
    | Starved                    // the fuel ran out: the run is longer than the fuel shows
    | Stuck                      // read a name that is not in scope

  /** `trace` holds the values yielded on the way. */
  datatype Result = Result(outcome: Outcome, env: Env, trace: seq<Int64>)

  /** Whether the function is a generator, and whether a loop encloses the statement. */
  datatype Place = Place(gen: bool, inLoop: bool)

  function After(trace: seq<Int64>, r: Result): Result {
    r.(trace := trace + r.trace)
  }

  function Exec(s: Stmt, env: Env, p: Place, fuel: nat): Result
    decreases fuel, s, 2
  {
    match s
    case Assign(x, e) =>
      (match Eval(e, env)
       case None => Result(Stuck, env, [])
       case Some(v) => Result(Fell, env[x := v], []))
    case Pass => Result(Fell, env, [])
    case If(c, thn, _, _) =>
      (match Test(c, env)
       case None => Result(Stuck, env, [])
       case Some(b) => if b then ExecBlock(thn, env, p, fuel) else ExecElsifs(s, 0, env, p, fuel))
    case While(_, _, _) => ExecLoop(s, env, p, fuel)
    case Break => Result(if p.inLoop then Broke else Fell, env, [])
    case Continue => Result(if p.inLoop then Continued else Fell, env, [])
    case Return(e) =>
      if p.gen || e.None? then Result(Returned(None), env, [])
      else
        (match Eval(e.value, env)
         case None => Result(Stuck, env, [])
         case Some(v) => Result(Returned(Some(v)), env, []))
    case Match(subject, cases) =>
      if cases == [] then Result(Fell, env, [])
      else
        (match Eval(subject, env)
         case None => Result(Stuck, env, [])
         case Some(v) => ExecCases(s, 0, v, env, p, fuel))
    case Yield(e) =>
      if !p.gen then Result(Fell, env, [])
      else if e.None? then Result(Fell, env, [0])
      else
        (match Eval(e.value, env)
         case None => Result(Stuck, env, [])
         case Some(v) => Result(Fell, env, [v]))
  }

  /** A nested list: the names it introduces do not outlive it. */
  function ExecBlock(ss: seq<Stmt>, env: Env, p: Place, fuel: nat): Result
    decreases fuel, ss, 1
  {
    var r := ExecList(ss, env, p, fuel);
    r.(env := Restrict(r.env, env.Keys))
  }

  function ExecList(ss: seq<Stmt>, env: Env, p: Place, fuel: nat): Result
    decreases fuel, ss, 0
  {
    if ss == [] then Result(Fell, env, [])
    else
      var r := Exec(ss[0], env, p, fuel);
      if r.outcome.Fell? then After(r.trace, ExecList(ss[1..], r.env, p, fuel)) else r
  }

  /** The branches of an if statement from elsif `i` on, then its else branch. */
  function ExecElsifs(s: Stmt, i: nat, env: Env, p: Place, fuel: nat): Result
    requires s.If? && i <= |s.elsifs|
    decreases fuel, s, 1, |s.elsifs| - i
  {
    if i == |s.elsifs| then ExecBlock(s.els, env, p, fuel)
    else
      match Test(s.elsifs[i].cond, env)
      case None => Result(Stuck, env, [])
      case Some(b) =>
        if b then ExecBlock(s.elsifs[i].body, env, p, fuel) else ExecElsifs(s, i + 1, env, p, fuel)
  }

  /** One unit of fuel for each time round; the else branch runs when the condition
      fails, and not when the body breaks. */
  function ExecLoop(s: Stmt, env: Env, p: Place, fuel: nat): Result
    requires s.While?
    decreases fuel, s, 1
  {
    if fuel == 0 then Result(Starved, env, [])
    else
      match Test(s.cond, env)
      case None => Result(Stuck, env, [])
      case Some(false) => ExecBlock(s.els, env, p, fuel)
      case Some(true) =>
        var r := ExecBlock(s.body, env, p.(inLoop := true), fuel);
        if r.outcome.Fell? || r.outcome.Continued? then After(r.trace, ExecLoop(s, r.env, p, fuel - 1))
        else if r.outcome.Broke? then r.(outcome := Fell)
        else r
  }

  /** Whether a case takes the subject `v`: its pattern is equal to it, and its guard holds. */
  function Takes(c: Case, v: Int64, env: Env): Option<bool> {
    var fits :- if c.pattern.None? then Some(true)
                else (var w :- Eval(c.pattern.value, env); Some(v == w));
    if !fits || c.guard.None? then Some(fits) else Test(c.guard.value, env)
  }

  /** The first case that takes the subject runs, and no other. */
  function ExecCases(s: Stmt, i: nat, v: Int64, env: Env, p: Place, fuel: nat): Result
    requires s.Match? && i <= |s.cases|
    decreases fuel, s, 1, |s.cases| - i
  {
    if i == |s.cases| then Result(Fell, env, [])
    else
      match Takes(s.cases[i], v, env)
      case None => Result(Stuck, env, [])
      case Some(b) =>
        if b then ExecBlock(s.cases[i].body, env, p, fuel) else ExecCases(s, i + 1, v, env, p, fuel)
  }
}
