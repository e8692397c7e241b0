/** What branches, matches, loops and returns do, each in a program of its own. */
module ControlFlow {
  import opened Wrappers
  import opened Ast
  import opened Semantics
  import opened Lowering

  const GEN := Place(true, false)

  function YieldLit(n: Int64): seq<Stmt> {
    [Yield(Some(Lit(n)))]
  }

  lemma YieldLitRuns(n: Int64, env: Env, p: Place, fuel: nat)
    requires p.gen
    ensures ExecList(YieldLit(n), env, p, fuel) == Result(Fell, env, [n])
    ensures ExecBlock(YieldLit(n), env, p, fuel) == Result(Fell, env, [n])
  {
    var ss := YieldLit(n);
    assert ss[1..] == [] && [n] + [] == [n] && Restrict(env, env.Keys) == env;
    assert Exec(ss[0], env, p, fuel) == Result(Fell, env, [n]);
  }

  lemma OneStmt(s: Stmt, env: Env, p: Place, fuel: nat)
    ensures ExecList([s], env, p, fuel) == Exec(s, env, p, fuel)
  {
    var r := Exec(s, env, p, fuel);
    assert [s][1..] == [] && r.trace + [] == r.trace;
  }

  // ---- branches ----

  // if x < 0: 1; elsif x == 0: 2; elsif x < 5: 3; else: 4
  const BRANCHES := If(Cmp(Lt, Var("x"), Lit(0)), YieldLit(1),
                       [Elsif(Cmp(Eq, Var("x"), Lit(0)), YieldLit(2)), Elsif(Cmp(Lt, Var("x"), Lit(5)), YieldLit(3))], YieldLit(4))

  /** The first branch whose condition holds runs, and the else branch if none does. */
  lemma BranchesRun(x: Int64, fuel: nat)
    ensures Generated([BRANCHES], map["x" := x], fuel).trace == [if x < 0 then 1 else if x == 0 then 2 else if x < 5 then 3 else 4]
  {
    hide ExecBlock, ExecList;
    var env: Env := map["x" := x];
    OneStmt(BRANCHES, env, GEN, fuel);
    YieldLitRuns(1, env, GEN, fuel);
    YieldLitRuns(2, env, GEN, fuel);
    YieldLitRuns(3, env, GEN, fuel);
    YieldLitRuns(4, env, GEN, fuel);
    assert ExecElsifs(BRANCHES, 2, env, GEN, fuel) == Result(Fell, env, [4]);
    assert ExecElsifs(BRANCHES, 1, env, GEN, fuel) == Result(Fell, env, [if x < 5 then 3 else 4]);
    assert ExecElsifs(BRANCHES, 0, env, GEN, fuel) == Result(Fell, env, [if x == 0 then 2 else if x < 5 then 3 else 4]);
  }

  // match x: case 1: 10; case 2 if y > 0: 20; case 2: 25; case _: 30
  const MATCHES := Match(Var("x"), [Case(Some(Lit(1)), None, YieldLit(10)), Case(Some(Lit(2)), Some(Cmp(Gt, Var("y"), Lit(0))), YieldLit(20)),
                                    Case(Some(Lit(2)), None, YieldLit(25)), Case(None, None, YieldLit(30))])

  /** The first case that fits runs; a guard that fails passes the subject on to the next case. */
  lemma MatchesRun(x: Int64, y: Int64, fuel: nat)
    ensures Generated([MATCHES], map["x" := x, "y" := y], fuel).trace ==
            [if x == 1 then 10 else if x == 2 then (if y > 0 then 20 else 25) else 30]
  {
    hide ExecBlock, ExecList;
    var env: Env := map["x" := x, "y" := y];
    OneStmt(MATCHES, env, GEN, fuel);
    YieldLitRuns(10, env, GEN, fuel);
    YieldLitRuns(20, env, GEN, fuel);
    YieldLitRuns(25, env, GEN, fuel);
    YieldLitRuns(30, env, GEN, fuel);
    assert ExecCases(MATCHES, 3, x, env, GEN, fuel) == Result(Fell, env, [30]);
    assert ExecCases(MATCHES, 2, x, env, GEN, fuel) == Result(Fell, env, [if x == 2 then 25 else 30]);
    assert ExecCases(MATCHES, 1, x, env, GEN, fuel) == Result(Fell, env, [if x == 2 then (if y > 0 then 20 else 25) else 30]);
  }

  // ---- leaving a loop ----

  // while x: <stmt>; yield 5; else: yield 9; and then yield 1
  function Leaving(s: Stmt): seq<Stmt> {
    [While(Truth(Var("x")), [s] + YieldLit(5), YieldLit(9))] + YieldLit(1)
  }

  /** A break leaves the loop without the rest of its body or its else branch; if the condition
      fails at once the else branch runs. */
  lemma BreakLeaves(x: Int64, fuel: nat)
    requires fuel > 0
    ensures Generated(Leaving(Break), map["x" := x], fuel).trace == if x != 0 then [1] else [9, 1]
  {
    hide ExecList;
    var env: Env := map["x" := x];
    var ss, p := Leaving(Break), Place(true, true);
    var loop, body := ss[0], [Break] + YieldLit(5);
    YieldLitRuns(9, env, GEN, fuel);
    YieldLitRuns(1, env, GEN, fuel);
    StopsAt(body, env, p, fuel, Result(Broke, env, []));
    assert Restrict(env, env.Keys) == env;
    assert ExecBlock(body, env, p, fuel) == Result(Broke, env, []);
    assert Exec(loop, env, GEN, fuel) == Result(Fell, env, if x != 0 then [] else [9]);
    assert ss[1..] == YieldLit(1) && [9] + [1] == [9, 1] && [] + [1] == [1];
    GoesOn(ss, env, GEN, fuel, if x != 0 then [] else [9]);
  }

  lemma StopsAt(ss: seq<Stmt>, env: Env, p: Place, fuel: nat, r: Result)
    requires ss != [] && Exec(ss[0], env, p, fuel) == r && !r.outcome.Fell?
    ensures ExecList(ss, env, p, fuel) == r
  {
    hide Exec;
  }

  lemma GoesOn(ss: seq<Stmt>, env: Env, p: Place, fuel: nat, trace: seq<Int64>)
    requires ss != [] && Exec(ss[0], env, p, fuel) == Result(Fell, env, trace)
    ensures ExecList(ss, env, p, fuel) == After(trace, ExecList(ss[1..], env, p, fuel))
  {
    hide Exec;
  }

  // while x: x = 0; continue; yield 5; else: yield 9
  const GOES_ON := While(Truth(Var("x")), [Assign("x", Lit(0)), Continue] + YieldLit(5), YieldLit(9))

  /** A continue goes back to the condition; when that fails the else branch runs. */
  lemma ContinueGoesBack(x: Int64, fuel: nat)
    requires fuel > 1
    ensures Generated([GOES_ON], map["x" := x], fuel) == Result(Fell, map["x" := 0], [9])
  {
    hide ExecList;
    var env, zero: Env := map["x" := x], map["x" := 0];
    var p, body := Place(true, true), GOES_ON.body;
    OneStmt(GOES_ON, env, GEN, fuel);
    YieldLitRuns(9, zero, GEN, fuel);
    YieldLitRuns(9, zero, GEN, fuel - 1);
    assert env["x" := 0] == zero;
    assert Exec(body[0], env, p, fuel) == Result(Fell, zero, []);
    assert Exec(body[1], zero, p, fuel) == Result(Continued, zero, []);
    StopsAt(body[1..], zero, p, fuel, Result(Continued, zero, []));
    Moves(body, env, zero, p, fuel);
    assert Restrict(zero, env.Keys) == zero;
    assert ExecBlock(body, env, p, fuel) == Result(Continued, zero, []);
    assert ExecLoop(GOES_ON, zero, GEN, fuel) == Result(Fell, zero, [9]) == ExecLoop(GOES_ON, zero, GEN, fuel - 1);
    assert [] + [9] == [9];
    if x != 0 {
      assert ExecLoop(GOES_ON, env, GEN, fuel) == After([], ExecLoop(GOES_ON, zero, GEN, fuel - 1));
    } else {
      assert env == zero;
    }
  }

  lemma Moves(ss: seq<Stmt>, env: Env, env': Env, p: Place, fuel: nat)
    requires ss != [] && Exec(ss[0], env, p, fuel) == Result(Fell, env', [])
    ensures ExecList(ss, env, p, fuel) == ExecList(ss[1..], env', p, fuel)
  {
    hide Exec;
    var r := ExecList(ss[1..], env', p, fuel);
    assert [] + r.trace == r.trace;
  }

  // while x: <while x: break>; x = 0; yield 5
  const INNER := While(Truth(Var("x")), [Break], YieldLit(7))
  const OUTER := While(Truth(Var("x")), [INNER, Assign("x", Lit(0))] + YieldLit(5), YieldLit(9))

  /** A break leaves the innermost loop only. */
  lemma BreakLeavesInnermost(x: Int64, fuel: nat)
    requires fuel > 1 && x != 0
    ensures Generated([OUTER], map["x" := x], fuel).trace == [5, 9]
  {
    hide ExecList;
    var env, zero: Env := map["x" := x], map["x" := 0];
    var p, body := Place(true, true), OUTER.body;
    OneStmt(OUTER, env, GEN, fuel);
    StopsAt([Break], env, p, fuel, Result(Broke, env, []));
    assert Restrict(env, env.Keys) == env && env["x" := 0] == zero && Restrict(zero, env.Keys) == zero;
    assert ExecBlock([Break], env, p, fuel) == Result(Broke, env, []);
    assert Exec(body[0], env, p, fuel) == Result(Fell, env, []);
    assert Exec(body[1], env, p, fuel) == Result(Fell, zero, []);
    YieldLitRuns(5, zero, p, fuel);
    YieldLitRuns(9, zero, GEN, fuel - 1);
    Moves(body, env, env, p, fuel);
    Moves(body[1..], env, zero, p, fuel);
    assert body[1..][1..] == YieldLit(5);
    assert ExecBlock(body, env, p, fuel) == Result(Fell, zero, [5]);
    assert ExecLoop(OUTER, zero, GEN, fuel - 1) == Result(Fell, zero, [9]);
    assert ExecLoop(OUTER, env, GEN, fuel) == After([5], Result(Fell, zero, [9]));
    assert [5] + [9] == [5, 9];
  }

  // ---- yielding and returning ----

  /** A yield without a value yields zero; one with a value yields that. */
  lemma BareYield(a: Int64, fuel: nat)
    ensures Generated([Yield(None)] + YieldLit(a), map[], fuel).trace == [0, a]
  {
    hide ExecList;
    var ss := [Yield(None)] + YieldLit(a);
    assert Exec(ss[0], map[], GEN, fuel) == Result(Fell, map[], [0]) && ss[1..] == YieldLit(a);
    GoesOn(ss, map[], GEN, fuel, [0]);
    YieldLitRuns(a, map[], GEN, fuel);
    assert [0] + [a] == [0, a];
  }

  // if x: return a - b; and then nothing
  const RETURNS := [If(Truth(Var("x")), [Return(Some(Arith(Sub, Var("a"), Var("b"))))], [], [])]

  /** The parameters have their arguments in order, a return gives its value, and the end gives zero. */
  lemma ReturnGives(x: Int64, a: Int64, b: Int64)
    requires -0x8000_0000_0000_0000 <= a - b <= 0x7FFF_FFFF_FFFF_FFFF
    ensures Evaluates(RETURNS, Arguments(["x", "a", "b"], [x, a, b]), Some(if x != 0 then a - b else 0))
  {
    hide ExecList;
    var env, p := Arguments(["x", "a", "b"], [x, a, b]), Place(false, false);
    ThreeArguments(x, a, b);
    OneStmt(RETURNS[0], env, p, 0);
    var s := RETURNS[0].thn[0];
    assert Eval(s.result.value, env) == Some(a - b);
    StopsAt(RETURNS[0].thn, env, p, 0, Result(Returned(Some(a - b)), env, []));
    NothingRuns(env, p, 0);
    assert Restrict(env, env.Keys) == env;
    assert Finishes(ExecList(RETURNS, env, p, 0), Some(if x != 0 then a - b else 0));
  }

  lemma NothingRuns(env: Env, p: Place, fuel: nat)
    ensures ExecList([], env, p, fuel) == Result(Fell, env, [])
  {
  }

  lemma ThreeArguments(x: Int64, a: Int64, b: Int64)
    ensures Arguments(["x", "a", "b"], [x, a, b]) == map["x" := x, "a" := a, "b" := b]
  {
    var params, args := ["x", "a", "b"], [x, a, b];
    assert params[..2] == ["x", "a"] && args[..2] == [x, a] && params[..2][..1] == ["x"] && args[..2][..1] == [x];
    assert params[..2][..1][..0] == [] && args[..2][..1][..0] == [];
    assert Arguments(["x"], [x]) == map["x" := x];
    assert Arguments(["x", "a"], [x, a]) == map["x" := x, "a" := a];
  }

  /** A return ends a generator, and its value is dropped. */
  lemma ReturnEnds(a: Int64, fuel: nat)
    ensures Generated(YieldLit(a) + [Return(Some(Lit(3)))] + YieldLit(2), map[], fuel) == Result(Returned(None), map[], [a])
  {
    hide ExecList;
    var ss := YieldLit(a) + [Return(Some(Lit(3)))] + YieldLit(2);
    assert Exec(ss[0], map[], GEN, fuel) == Result(Fell, map[], [a]);
    GoesOn(ss, map[], GEN, fuel, [a]);
    StopsAt(ss[1..], map[], GEN, fuel, Result(Returned(None), map[], []));
    assert [a] + [] == [a];
  }
}
