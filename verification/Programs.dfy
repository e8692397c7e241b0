/** What programs do, in plain numbers: loops, branches, matches and values. */
module Programs {
  import opened Wrappers
  import opened Ast
  import opened Semantics
  import opened Lowering

  // ---- values ----

  /** Wrapping keeps a number up to multiples of 2 to the 64, and gives one that fits. */
  lemma WrapIs(n: int) returns (k: int)
    ensures -0x8000_0000_0000_0000 <= Wrap(n) <= 0x7FFF_FFFF_FFFF_FFFF && Wrap(n) == n + k * 0x1_0000_0000_0000_0000
  {
    k := 0 - (n + TWO_63) / TWO_64;
  }

  predicate Fits(n: int) {
    -0x8000_0000_0000_0000 <= n <= 0x7FFF_FFFF_FFFF_FFFF
  }

  lemma FitsStays(n: int)
    ensures Fits(n) ==> Wrap(n) == n
  {
  }

  /** Where nothing overflows the operators are those of integers. */
  lemma ValuesAre(a: Int64, b: Int64)
    ensures Fits(a + b) ==> Eval(Arith(Add, Lit(a), Lit(b)), map[]) == Some(a + b)
    ensures Fits(a - b) ==> Eval(Arith(Sub, Lit(a), Lit(b)), map[]) == Some(a - b)
    ensures Fits(a * b) ==> Eval(Arith(Mul, Lit(a), Lit(b)), map[]) == Some(a * b)
    ensures Fits(0 - a) ==> Eval(Neg(Lit(a)), map[]) == Some(0 - a)
    ensures Eval(Arith(Add, Lit(0x7FFF_FFFF_FFFF_FFFF), Lit(1)), map[]) == Some(-0x8000_0000_0000_0000)
    ensures Eval(Neg(Lit(-0x8000_0000_0000_0000)), map[]) == Some(-0x8000_0000_0000_0000)
  {
    FitsStays(a + b);
    FitsStays(a - b);
    FitsStays(a * b);
    FitsStays(0 - a);
  }

  lemma {:induction false} PowerIs(n: nat)
    ensures Power(2, n) > 0 && Power(2, n + 1) == 2 * Power(2, n) && Power(-1, n) == if n % 2 == 0 then 1 else -1
    decreases n
  {
    if n > 0 {
      PowerIs(n - 1);
    }
  }

  /** Exactly the comparisons that hold of integers hold. */
  lemma ComparesAs(a: Int64, b: Int64)
    ensures var t := (op: CmpOp) => Test(Cmp(op, Lit(a), Lit(b)), map[]);
            && (a < b ==> t(Lt) == t(Lte) == t(Neq) == Some(true) && t(Gt) == t(Gte) == t(Eq) == Some(false))
            && (a == b ==> t(Eq) == t(Lte) == t(Gte) == Some(true) && t(Lt) == t(Gt) == t(Neq) == Some(false))
            && (a > b ==> t(Gt) == t(Gte) == t(Neq) == Some(true) && t(Lt) == t(Lte) == t(Eq) == Some(false))
  {
  }

  /** Conditions over truth values: zero is false and everything else true. */
  lemma ConnectivesAre(a: Int64, b: Int64)
    ensures Test(Truth(Lit(a)), map[]) == Some(a != 0) && Test(Not(Truth(Lit(a))), map[]) == Some(a == 0)
    ensures Test(And(Truth(Lit(a)), Truth(Lit(b))), map[]) == Some(a != 0 && b != 0)
    ensures Test(Or(Truth(Lit(a)), Truth(Lit(b))), map[]) == Some(a != 0 || b != 0)
    ensures Test(And(Truth(Lit(a)), Truth(Var("x"))), map[]) == if a == 0 then Some(false) else None
    ensures Test(Or(Truth(Lit(a)), Truth(Var("x"))), map[]) == if a != 0 then Some(true) else None
  {
  }

  // ---- a loop that counts ----

  // while i op bound: yield i; i = i + step
  function Loop(op: CmpOp, bound: Int64, step: Int64): Stmt {
    While(Cmp(op, Var("i"), Lit(bound)), [Yield(Some(Var("i"))), Assign("i", Arith(Add, Var("i"), Lit(step)))], [])
  }

  function Progression(x: int, step: int, k: nat): (r: seq<int>)
    ensures |r| == k && forall j :: 0 <= j < k ==> r[j] == x + j * step
  {
    seq(k, j requires 0 <= j < k => x + j * step)
  }

  lemma BodyRuns(op: CmpOp, bound: Int64, step: Int64, x: Int64, fuel: nat)
    requires Fits(x + step)
    ensures var r := ExecBlock(Loop(op, bound, step).body, map["i" := x], Place(true, true), fuel);
            r == Result(Fell, map["i" := x + step], [x])
  {
    var ss, env, p := Loop(op, bound, step).body, map["i" := x], Place(true, true);
    var tail := ss[1..];
    FitsStays(x + step);
    assert tail == [Assign("i", Arith(Add, Var("i"), Lit(step)))] && tail[1..] == [];
    assert Eval(tail[0].value, env) == Some(x + step);
    assert Exec(tail[0], env, p, fuel) == Result(Fell, env["i" := x + step], []);
    assert env["i" := x + step] == map["i" := x + step];
    assert ExecList(tail, env, p, fuel) == Result(Fell, map["i" := x + step], []);
    assert Exec(ss[0], env, p, fuel) == Result(Fell, env, [x]);
    assert [x] + [] == [x];
    assert Restrict(map["i" := x + step], env.Keys) == map["i" := x + step];
  }

  lemma LoopStops(op: CmpOp, bound: Int64, step: Int64, x: Int64, fuel: nat)
    requires fuel > 0 && !CmpHolds(op, x, bound)
    ensures ExecLoop(Loop(op, bound, step), map["i" := x], Place(true, false), fuel) == Result(Fell, map["i" := x], [])
  {
    var env: Env := map["i" := x];
    assert Test(Loop(op, bound, step).cond, env) == Some(false);
    assert ExecBlock([], env, Place(true, false), fuel) == Result(Fell, Restrict(env, env.Keys), []);
    assert Restrict(env, env.Keys) == env;
  }

  /** The comparison holds for the first `k` numbers, and not for the next one. */
  ghost predicate CountsTo(op: CmpOp, x: int, step: int, bound: Int64, k: nat) {
    forall j :: 0 <= j <= k ==> Holding(op, x + j * step, bound, j < k)
  }

  predicate Holding(op: CmpOp, x: int, bound: Int64, yes: bool) {
    Fits(x) && CmpHolds(op, x, bound) == yes
  }

  lemma CountsNext(op: CmpOp, x: int, step: int, bound: Int64, k: nat)
    requires CountsTo(op, x, step, bound, k)
    ensures Holding(op, x, bound, k > 0)
    ensures k > 0 ==> Fits(x + step) && CountsTo(op, x + step, step, bound, k - 1)
  {
    assert Holding(op, x + 0 * step, bound, 0 < k);
    if k > 0 {
      assert Holding(op, x + 1 * step, bound, 1 < k);
      forall j | 0 <= j <= k - 1
        ensures Holding(op, x + step + j * step, bound, j < k - 1)
      {
        assert x + step + j * step == x + (j + 1) * step;
        assert Holding(op, x + (j + 1) * step, bound, j + 1 < k);
      }
    }
  }

  lemma {:induction false} LoopRuns(op: CmpOp, bound: Int64, step: Int64, x: Int64, k: nat, fuel: nat)
    requires fuel > k && CountsTo(op, x, step, bound, k)
    ensures var r := ExecLoop(Loop(op, bound, step), map["i" := x], Place(true, false), fuel);
            r.outcome == Fell && r.trace == Progression(x, step, k)
    decreases k
  {
    hide CmpHolds, CountsTo;
    CountsNext(op, x, step, bound, k);
    if k == 0 {
      LoopStops(op, bound, step, x, fuel);
    } else {
      LoopRuns(op, bound, step, x + step, k - 1, fuel - 1);
      RoundRuns(op, bound, step, x, fuel);
      assert x + step + (k - 1) * step == x + k * step;
      Prepended(x, step, k);
    }
  }

  lemma Prepended(x: int, step: int, k: nat)
    requires k > 0
    ensures [x] + Progression(x + step, step, k - 1) == Progression(x, step, k)
  {
    forall j | 0 < j < k
      ensures (x + step) + (j - 1) * step == x + j * step
    {
    }
  }

  lemma RoundRuns(op: CmpOp, bound: Int64, step: Int64, x: Int64, fuel: nat)
    requires fuel > 0 && Fits(x + step) && CmpHolds(op, x, bound)
    ensures ExecLoop(Loop(op, bound, step), map["i" := x], Place(true, false), fuel) ==
            After([x], ExecLoop(Loop(op, bound, step), map["i" := x + step], Place(true, false), fuel - 1))
  {
    hide CmpHolds;
    BodyRuns(op, bound, step, x, fuel);
    assert Test(Loop(op, bound, step).cond, map["i" := x]) == Some(true);
  }

  function Counting(op: CmpOp, from: Int64, bound: Int64, step: Int64): seq<Stmt> {
    [Assign("i", Lit(from)), Loop(op, bound, step)]
  }

  lemma CountingRuns(op: CmpOp, from: Int64, bound: Int64, step: Int64, k: nat)
    requires CountsTo(op, from, step, bound, k)
    ensures var r := Generated(Counting(op, from, bound, step), map[], k + 1);
            r.outcome == Fell && r.trace == Progression(from, step, k)
  {
    hide CmpHolds, ExecLoop, CountsTo;
    var ss, p := Counting(op, from, bound, step), Place(true, false);
    var env: Env, tail := map["i" := from], ss[1..];
    LoopRuns(op, bound, step, from, k, k + 1);
    assert tail == [Loop(op, bound, step)] && tail[1..] == [];
    assert Exec(ss[0], map[], p, k + 1) == Result(Fell, env, []);
    var r := ExecLoop(Loop(op, bound, step), env, p, k + 1);
    assert Exec(tail[0], env, p, k + 1) == r && r.trace + [] == r.trace && [] + r.trace == r.trace;
    assert ExecList(tail, env, p, k + 1) == r;
  }

  /** Counting up from 0: below n, up to n, and until n. */
  lemma CountsUp(n: nat)
    requires n < 0x7FFF_FFFF_FFFF_FFFF
    ensures Generated(Counting(Lt, 0, n, 1), map[], n + 1).trace == Progression(0, 1, n)
    ensures Generated(Counting(Lte, 0, n, 1), map[], n + 2).trace == Progression(0, 1, n + 1)
    ensures Generated(Counting(Neq, 0, n, 1), map[], n + 1).trace == Progression(0, 1, n)
  {
    hide Generated;
    CountingRuns(Lt, 0, n, 1, n);
    CountingRuns(Lte, 0, n, 1, n + 1);
    CountingRuns(Neq, 0, n, 1, n);
  }

  /** Counting down from n: above 0, down to 0; and a loop that runs once at 0. */
  lemma CountsDown(n: nat)
    requires n < 0x7FFF_FFFF_FFFF_FFFF
    ensures Generated(Counting(Gt, n, 0, -1), map[], n + 1).trace == Progression(n, -1, n)
    ensures Generated(Counting(Gte, n, 0, -1), map[], n + 2).trace == Progression(n, -1, n + 1)
    ensures Generated(Counting(Eq, 0, 0, 1), map[], 2).trace == [0]
  {
    hide Generated;
    CountingRuns(Gt, n, 0, -1, n);
    CountingRuns(Gte, n, 0, -1, n + 1);
    CountingRuns(Eq, 0, 0, 1, 1);
    assert Progression(0, 1, 1) == [0];
  }
}
