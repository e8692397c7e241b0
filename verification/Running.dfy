/** Running emitted code: expressions and conditions leave their value in a register. `Has` says
    that the finished program holds a state's code, also where blocks grew later; `Yielded` says
    that the machine comes from one state's end to another's with a value, variables unchanged. */
module Running {
  import opened Wrappers
  import opened Ast
  import opened Semantics
  import opened Machine
  import opened Emit
  import opened Shape

  // The machine is where the emitter appends.
  ghost predicate AtEnd(c: Config, e: State) {
    c.Run? && e.cur < |e.blocks| && c.block == e.cur && c.pc == |e.blocks[e.cur].instrs|
  }

  // The machine runs a program that contains the code emitted so far.
  ghost predicate Has(m: Machine, e: State) {
    Extends(e.blocks, m.prog.blocks)
  }

  // Every name in scope has a slot that holds its value, and no other name has a value.
  ghost predicate Holds(scopes: seq<map<string, nat>>, env: Env, mem: map<nat, Int64>) {
    forall x {:trigger Lookup(scopes, x)} :: SlotHolds(Lookup(scopes, x), x, env, mem)
  }

  ghost predicate SlotHolds(slot: Option<nat>, x: string, env: Env, mem: map<nat, Int64>) {
    if slot.Some? then x in env && env[x] == Get(mem, slot.value) else x !in env
  }

  ghost predicate SameBelow(r0: map<nat, Int64>, r1: map<nat, Int64>, n: nat) {
    forall k: nat {:trigger Get(r1, k)} :: k < n ==> Get(r1, k) == Get(r0, k)
  }

  ghost predicate Known(v: Value, n: nat) {
    v.Reg? ==> v.r < n
  }

  // What running an expression changes: where the machine is, and registers from `n` on.
  ghost predicate Computed(c: Config, d: Config, n: nat) {
    && c.Run? && d.Run? && d.mem == c.mem && d.rec == c.rec && d.out == c.out
    && SameBelow(c.regs, d.regs, n)
  }

  // The expression's value is in `v` at the end of its code.
  ghost predicate Yielded(m: Machine, e: State, r: State, v: Value, value: Int64, c: Config, n: nat, d: Config) {
    Steps(m, c, n) == d && AtEnd(d, r) && Computed(c, d, e.nextReg) && Known(v, r.nextReg) && ValueIn(v, d.regs) == value
  }

  lemma HasEarlier(m: Machine, e: State, r: State, open: set<nat>)
    requires Touches(e, r, open) && Has(m, r)
    ensures Has(m, e)
  {
    TouchesExtends(e, r, open, m.prog.blocks);
  }

  lemma FetchInstr(m: Machine, e: State, c: Config, i: Instr)
    requires e.Valid() && AtEnd(c, e) && Has(m, e.Append(i))
    ensures Step(m, c) == Perform(i, c)
  {
    assert ExtendsAt(e.Append(i).blocks, m.prog.blocks, e.cur);
    var x, y := e.Append(i).blocks[e.cur], m.prog.blocks[e.cur];
    assert y.instrs[c.pc] == x.instrs[c.pc] == i;
  }

  lemma FetchTerm(m: Machine, e: State, c: Config, t: Term)
    requires e.Valid() && AtEnd(c, e) && Has(m, e.Close(t))
    ensures Step(m, c) == Leave(m, t, c)
  {
    assert ExtendsAt(e.Close(t).blocks, m.prog.blocks, e.cur);
  }

  lemma Then(m: Machine, c: Config, n: nat, d: Config)
    requires Steps(m, c, n) == d
    ensures Steps(m, c, n + 1) == Step(m, d)
  {
    StepsAdd(m, c, n, 1);
    assert Steps(m, Step(m, d), 0) == Step(m, d);
  }

  /** One more instruction that defines a register. */
  lemma Extend(m: Machine, e: State, r: State, v: Value, was: Int64, i: Instr, c: Config, n: nat, b: Config, value: Int64)
    returns (d: Config)
    requires r.Valid() && e.nextReg <= r.nextReg && Yielded(m, e, r, v, was, c, n, b)
    requires Has(m, Define(r, i)) && Perform(i, b) == b.(pc := b.pc + 1, regs := b.regs[r.nextReg := value])
    ensures Yielded(m, e, Define(r, i), Reg(r.nextReg), value, c, n + 1, d)
    ensures d.regs == b.regs[r.nextReg := value]
  {
    FetchInstr(m, r, b, i);
    d := Step(m, b);
    Then(m, c, n, b);
    forall k: nat | k < e.nextReg
      ensures Get(d.regs, k) == Get(c.regs, k)
    {
      assert Get(b.regs, k) == Get(c.regs, k);
    }
  }

  lemma ValueKept(v: Value, r0: map<nat, Int64>, r1: map<nat, Int64>, n: nat)
    requires Known(v, n) && SameBelow(r0, r1, n)
    ensures ValueIn(v, r1) == ValueIn(v, r0)
  {
  }

  lemma Compose(m: Machine, e: State, e1: State, c: Config, n1: nat, c1: Config, n2: nat, c2: Config)
    requires Steps(m, c, n1) == c1 && Computed(c, c1, e.nextReg) && e.nextReg <= e1.nextReg
    requires Steps(m, c1, n2) == c2 && Computed(c1, c2, e1.nextReg)
    ensures Steps(m, c, n1 + n2) == c2 && Computed(c, c2, e.nextReg)
  {
    StepsAdd(m, c, n1, n2);
    forall k: nat | k < e.nextReg
      ensures Get(c2.regs, k) == Get(c.regs, k)
    {
      assert Get(c1.regs, k) == Get(c.regs, k);
    }
  }

  /** The left operand keeps its value while the right one runs. */
  lemma Both(m: Machine, e: State, e1: State, a: Value, va: Int64, e2: State, b: Value, vb: Int64,
             c: Config, n1: nat, c1: Config, n2: nat, c2: Config)
    requires e.nextReg <= e1.nextReg <= e2.nextReg
    requires Yielded(m, e, e1, a, va, c, n1, c1) && Yielded(m, e1, e2, b, vb, c1, n2, c2)
    ensures Yielded(m, e, e2, b, vb, c, n1 + n2, c2) && Known(a, e2.nextReg) && ValueIn(a, c2.regs) == va
  {
    Compose(m, e, e1, c, n1, c1, n2, c2);
    ValueKept(a, c1.regs, c2.regs, e1.nextReg);
  }

  lemma {:induction false} ExprRuns(m: Machine, x: Expr, e: State, env: Env, c: Config) returns (n: nat, d: Config)
    requires e.Valid() && e.Open() && EmitExpr(x, e).Some? && Has(m, EmitExpr(x, e).value.0)
    requires AtEnd(c, e) && Holds(e.scopes, env, c.mem)
    ensures Eval(x, env).Some?
    ensures Yielded(m, e, EmitExpr(x, e).value.0, EmitExpr(x, e).value.1, Eval(x, env).value, c, n, d)
    decreases x, 1
  {
    hide Touches, Has, Yielded, Holds, Computed, SameBelow;
    match x
    case Lit(_) =>
      n, d := 0, c;
      LitRuns(m, x, e, c);
    case Var(name) =>
      n, d := VarRuns(m, name, e, env, c);
    case Arith(op, y, z) =>
      var (e1, a) := EmitExpr(y, e).value;
      var (e2, b) := EmitExpr(z, e1).value;
      var c2;
      n, c2 := PairRuns(m, x, y, z, e, e1, a, e2, b, env, c, Calc(e2.nextReg, op, a, b));
      d := Extend(m, e, e2, b, Eval(z, env).value, Calc(e2.nextReg, op, a, b), c, n, c2, Eval(x, env).value);
      n := n + 1;
    case Neg(y) =>
      var (e1, a) := EmitExpr(y, e).value;
      SingleHas(m, y, e, Calc(e1.nextReg, Sub, Imm(0), a));
      var n1, c1 := ExprRuns(m, y, e, env, c);
      YieldedAt(m, e, e1, a, Eval(y, env).value, c, n1, c1);
      d := Extend(m, e, e1, a, Eval(y, env).value, Calc(e1.nextReg, Sub, Imm(0), a), c, n1, c1, Eval(x, env).value);
      n := n1 + 1;
    case Pow(y, z) =>
      var (e1, a) := EmitExpr(y, e).value;
      var (e2, b) := EmitExpr(z, e1).value;
      n, d := PowExprRuns(m, x, y, z, e, e1, a, e2, b, env, c);
  }

  lemma {:induction false} PowExprRuns(m: Machine, x: Expr, y: Expr, z: Expr, e: State, e1: State, a: Value, e2: State, b: Value, env: Env, c: Config)
    returns (n: nat, d: Config)
    requires x == Pow(y, z) && e.Valid() && e.Open() && EmitExpr(y, e) == Some((e1, a)) && EmitExpr(z, e1) == Some((e2, b))
    requires Has(m, EmitPow(e2, a, b).0) && AtEnd(c, e) && Holds(e.scopes, env, c.mem)
    ensures Eval(x, env).Some?
    ensures Yielded(m, e, EmitPow(e2, a, b).0, EmitPow(e2, a, b).1, Eval(x, env).value, c, n, d)
    decreases x, 0, 1
  {
    hide Touches, Has, Yielded, Holds, Computed, SameBelow, EmitPow, EmitExpr;
    PowAfterPair(m, y, z, e, e1, a, e2, b);
    var n2, c2 := PairRuns(m, x, y, z, e, e1, a, e2, b, env, c, SetState(0));
    YieldedAt(m, e, e2, b, Eval(z, env).value, c, n2, c2);
    var n3;
    n3, d := PowRuns(m, e2, a, b, Eval(y, env).value, Eval(z, env).value, c2);
    PowTouches(e2, a, b);
    n := n2 + n3;
    Thrice(m, e, e2, EmitPow(e2, a, b).0, EmitPow(e2, a, b).1, Eval(x, env).value, c, n2, c2, n3, d);
  }

  /** Two operands, left then right; both values are there afterwards. */
  lemma {:induction false} PairRuns(m: Machine, x: Expr, y: Expr, z: Expr, e: State, e1: State, a: Value, e2: State, b: Value,
                                    env: Env, c: Config, i: Instr)
    returns (n: nat, d: Config)
    requires e.Valid() && e.Open() && EmitExpr(y, e) == Some((e1, a)) && EmitExpr(z, e1) == Some((e2, b))
    requires Has(m, Define(e2, i)) || Has(m, e2)
    requires AtEnd(c, e) && Holds(e.scopes, env, c.mem) && y < x && z < x
    ensures Eval(y, env).Some? && Eval(z, env).Some?
    ensures Yielded(m, e, e2, b, Eval(z, env).value, c, n, d)
    ensures Known(a, e2.nextReg) && Known(b, e2.nextReg)
    ensures ValueIn(a, d.regs) == Eval(y, env).value && ValueIn(b, d.regs) == Eval(z, env).value
    ensures Has(m, e2) && e2.Open() && AtEnd(d, e2) && d.mem == c.mem
    decreases x, 0, 0
  {
    hide Touches, Has, Holds, EmitExpr, Yielded;
    PairHas(m, y, z, e, i);
    var n1, c1 := ExprRuns(m, y, e, env, c);
    YieldedAt(m, e, e1, a, Eval(y, env).value, c, n1, c1);
    var n2;
    n2, d := ExprRuns(m, z, e1, env, c1);
    Both(m, e, e1, a, Eval(y, env).value, e2, b, Eval(z, env).value, c, n1, c1, n2, d);
    n := n1 + n2;
    YieldedAt(m, e, e2, b, Eval(z, env).value, c, n, d);
  }

  lemma PowAfterPair(m: Machine, y: Expr, z: Expr, e: State, e1: State, a: Value, e2: State, b: Value)
    requires e.Valid() && e.Open() && EmitExpr(y, e) == Some((e1, a)) && EmitExpr(z, e1) == Some((e2, b))
    requires Has(m, EmitPow(e2, a, b).0)
    ensures Has(m, e2) && e2.Open()
  {
    hide EmitExpr, Touches;
    ExprTouches(y, e);
    ExprTouches(z, e1);
    PowTouches(e2, a, b);
    HasEarlier(m, e2, EmitPow(e2, a, b).0, {EmitPow(e2, a, b).0.cur});
  }

  lemma LitRuns(m: Machine, x: Expr, e: State, c: Config)
    requires x.Lit? && e.Valid() && AtEnd(c, e)
    ensures Yielded(m, e, e, Imm(x.n), x.n, c, 0, c)
  {
  }

  lemma VarRuns(m: Machine, name: string, e: State, env: Env, c: Config) returns (n: nat, d: Config)
    requires e.Valid() && Lookup(e.scopes, name).Some? && Has(m, Define(e, Load(e.nextReg, Lookup(e.scopes, name).value)))
    requires AtEnd(c, e) && Holds(e.scopes, env, c.mem)
    ensures name in env
    ensures Yielded(m, e, Define(e, Load(e.nextReg, Lookup(e.scopes, name).value)), Reg(e.nextReg), env[name], c, n, d)
  {
    var slot := Lookup(e.scopes, name).value;
    assert SlotHolds(Lookup(e.scopes, name), name, env, c.mem);
    n := 1;
    d := Extend(m, e, e, Imm(0), 0, Load(e.nextReg, slot), c, 0, c, env[name]);
  }

  lemma YieldedAt(m: Machine, e: State, r: State, v: Value, value: Int64, c: Config, n: nat, d: Config)
    requires Yielded(m, e, r, v, value, c, n, d)
    ensures AtEnd(d, r) && Computed(c, d, e.nextReg) && Known(v, r.nextReg) && ValueIn(v, d.regs) == value
    ensures Steps(m, c, n) == d && d.mem == c.mem && d.rec == c.rec && d.out == c.out
  {
  }

  lemma Thrice(m: Machine, e: State, e2: State, r: State, v: Value, value: Int64, c: Config, n: nat, c2: Config, n3: nat, d: Config)
    requires e.nextReg <= e2.nextReg && Steps(m, c, n) == c2 && Computed(c, c2, e.nextReg)
    requires Yielded(m, e2, r, v, value, c2, n3, d)
    ensures Yielded(m, e, r, v, value, c, n + n3, d)
  {
    Compose(m, e, e2, c, n, c2, n3, d);
  }

  lemma SingleHas(m: Machine, y: Expr, e: State, i: Instr)
    requires e.Valid() && e.Open() && EmitExpr(y, e).Some? && Has(m, Define(EmitExpr(y, e).value.0, i))
    ensures Has(m, EmitExpr(y, e).value.0) && EmitExpr(y, e).value.0.Open()
  {
    var e1 := EmitExpr(y, e).value.0;
    ExprTouches(y, e);
    AppendTouches(e1, i);
    HasEarlier(m, e1, Define(e1, i), {e1.cur});
  }

  lemma PairHas(m: Machine, y: Expr, z: Expr, e: State, i: Instr)
    requires e.Valid() && e.Open() && EmitExpr(y, e).Some? && EmitExpr(z, EmitExpr(y, e).value.0).Some?
    requires var e2 := EmitExpr(z, EmitExpr(y, e).value.0).value.0; Has(m, Define(e2, i)) || Has(m, e2)
    ensures Has(m, EmitExpr(y, e).value.0) && EmitExpr(y, e).value.0.Open()
    ensures var e2 := EmitExpr(z, EmitExpr(y, e).value.0).value.0; Has(m, e2) && e2.Open()
  {
    hide EmitExpr, Touches, Has;
    var e1 := EmitExpr(y, e).value.0;
    ExprTouches(y, e);
    var e2 := EmitExpr(z, e1).value.0;
    ExprTouches(z, e1);
    if !Has(m, e2) {
      AppendTouches(e2, i);
      HasEarlier(m, e2, Define(e2, i), {e2.cur});
    }
    HasEarlier(m, e1, e2, {e2.cur});
  }

  // ---- integer power ----

  lemma {:induction false} WrapMul(p: int, b: int)
    ensures Wrap(Wrap(p) * b) == Wrap(p * b)
  {
    var q := (p + TWO_63) / TWO_64;
    assert Wrap(p) == p - TWO_64 * q;
    assert Wrap(p) * b + TWO_63 == p * b + TWO_63 + TWO_64 * (-q * b);
    ModShift(p * b + TWO_63, -q * b);
  }

  lemma ModShift(x: int, k: int)
    ensures (x + TWO_64 * k) % TWO_64 == x % TWO_64
  {
  }

  // The blocks of the power loop, in the finished program.
  ghost predicate PowCode(m: Machine, e: State, base: Value, exp: Value) {
    var n, g, p := |e.blocks|, e.nextReg, m.prog.blocks;
    && e.cur < n && n + 2 < |p|
    && p[n] == Block([Phi(g, e.cur, Imm(1), n + 2, Reg(g + 3)), Phi(g + 1, e.cur, exp, n + 2, Reg(g + 4)),
                      Compare(g + 2, Lte, Reg(g + 1), Imm(0))], Some(CondBr(Reg(g + 2), n + 1, n + 2)))
    && p[n + 2] == Block([Calc(g + 3, Mul, Reg(g), base), Calc(g + 4, Sub, Reg(g + 1), Imm(1))], Some(Br(n)))
  }

  // The machine at the test of the power loop, with the product and the count in their registers.
  ghost predicate AtPowTest(c0: Config, c: Config, e: State, acc: Int64, count: Int64) {
    && Computed(c0, c, e.nextReg) && c.block == |e.blocks| && c.pc == 2
    && Get(c.regs, e.nextReg) == acc && Get(c.regs, e.nextReg + 1) == count
  }

  // The machine at the end of the power loop.
  ghost predicate AtPowDone(c0: Config, d: Config, e: State, value: Int64) {
    Computed(c0, d, e.nextReg) && d.block == |e.blocks| + 1 && d.pc == 0 && Get(d.regs, e.nextReg) == value
  }

  lemma PowExit(m: Machine, e: State, base: Value, exp: Value, c0: Config, c: Config, acc: Int64, count: Int64) returns (d: Config)
    requires PowCode(m, e, base, exp) && AtPowTest(c0, c, e, acc, count) && count <= 0
    ensures Steps(m, c, 2) == d && AtPowDone(c0, d, e, acc)
  {
    var c1 := Step(m, c);
    d := Step(m, c1);
    Then(m, c, 0, c);
    Then(m, c, 1, c1);
    assert forall k: nat :: k < e.nextReg ==> Get(d.regs, k) == Get(c.regs, k);
  }

  lemma PowRound(m: Machine, e: State, base: Value, exp: Value, c0: Config, c: Config, b: Int64, acc: Int64, count: Int64) returns (d: Config)
    requires PowCode(m, e, base, exp) && AtPowTest(c0, c, e, acc, count) && count > 0
    requires Known(base, e.nextReg) && ValueIn(base, c0.regs) == b
    ensures Steps(m, c, 7) == d && AtPowTest(c0, d, e, Wrap(acc * b), count - 1)
  {
    ValueKept(base, c0.regs, c.regs, e.nextReg);
    var c1 := Step(m, c);
    var c2 := Step(m, c1);
    assert c2.block == |e.blocks| + 2 && c2.pc == 0;
    var c3 := Step(m, c2);
    assert SameBelow(c0.regs, c2.regs, e.nextReg) by {
      assert forall k: nat :: k < e.nextReg ==> Get(c2.regs, k) == Get(c.regs, k);
    }
    ValueKept(base, c0.regs, c2.regs, e.nextReg);
    assert Get(c3.regs, e.nextReg + 3) == Wrap(acc * b);
    var c4 := Step(m, c3);
    assert Get(c4.regs, e.nextReg + 4) == count - 1;
    var c5 := Step(m, c4);
    assert c5.block == |e.blocks| && c5.prev == |e.blocks| + 2;
    var c6 := Step(m, c5);
    d := Step(m, c6);
    Then(m, c, 0, c);
    Then(m, c, 1, c1);
    Then(m, c, 2, c2);
    Then(m, c, 3, c3);
    Then(m, c, 4, c4);
    Then(m, c, 5, c5);
    Then(m, c, 6, c6);
    assert forall k: nat :: k < e.nextReg ==> Get(d.regs, k) == Get(c.regs, k);
  }

  /** Each time round, the product is the power of the rounds so far, wrapped. */
  lemma {:induction false} PowLoop(m: Machine, e: State, base: Value, exp: Value, c0: Config, c: Config, b: Int64, k: Int64, count: Int64)
    returns (n: nat, d: Config)
    requires PowCode(m, e, base, exp) && AtPowTest(c0, c, e, Wrap(Power(b, k - count)), count)
    requires Known(base, e.nextReg) && ValueIn(base, c0.regs) == b && count <= k && (count < 0 ==> count == k)
    ensures Steps(m, c, n) == d && AtPowDone(c0, d, e, Wrap(Power(b, k)))
    decreases if count < 0 then 0 else count
  {
    hide PowCode, Wrap, Steps, AtPowTest, AtPowDone;
    if count <= 0 {
      n := 2;
      d := PowExit(m, e, base, exp, c0, c, Wrap(Power(b, k - count)), count);
    } else {
      var c1 := PowRound(m, e, base, exp, c0, c, b, Wrap(Power(b, k - count)), count);
      WrapMul(Power(b, k - count), b);
      var n1;
      n1, d := PowLoop(m, e, base, exp, c0, c1, b, k, count - 1);
      n := 7 + n1;
      StepsAdd(m, c, 7, n1);
    }
  }

  lemma PowHas(m: Machine, e: State, base: Value, exp: Value)
    requires e.Valid() && e.Open() && Has(m, EmitPow(e, base, exp).0)
    ensures PowCode(m, e, base, exp)
    ensures Has(m, e.Close(Br(|e.blocks|)))
  {
    hide Touches;
    PowTouches(e, base, exp);
    var r, n, p := EmitPow(e, base, exp).0, |e.blocks|, m.prog.blocks;
    assert ExtendsAt(r.blocks, p, n) && ExtendsAt(r.blocks, p, n + 2) && ExtendsAt(r.blocks, p, e.cur);
    HasEarlier(m, e, r, {r.cur});
    forall b: nat
      ensures ExtendsAt(e.Close(Br(n)).blocks, p, b)
    {
      assert ExtendsAt(e.blocks, p, b);
    }
  }

  lemma PowRuns(m: Machine, e: State, base: Value, exp: Value, b: Int64, k: Int64, c: Config) returns (n: nat, d: Config)
    requires e.Valid() && e.Open() && Has(m, EmitPow(e, base, exp).0) && AtEnd(c, e)
    requires Known(base, e.nextReg) && Known(exp, e.nextReg) && ValueIn(base, c.regs) == b && ValueIn(exp, c.regs) == k
    ensures Yielded(m, e, EmitPow(e, base, exp).0, Reg(e.nextReg), Wrap(Power(b, k)), c, n, d)
  {
    hide EmitPow, Touches, Has;
    PowHas(m, e, base, exp);
    FetchTerm(m, e, c, Br(|e.blocks|));
    var c1 := Step(m, c);
    var c2 := Step(m, c1);
    var c3 := Step(m, c2);
    ValueKept(exp, c.regs, c2.regs, e.nextReg);
    Then(m, c, 0, c);
    Then(m, c, 1, c1);
    Then(m, c, 2, c2);
    assert AtPowTest(c, c3, e, 1, k);
    assert Power(b, 0) == 1;
    var n1;
    n1, d := PowLoop(m, e, base, exp, c, c3, b, k, k);
    n := 3 + n1;
    StepsAdd(m, c, 3, n1);
    PowTouches(e, base, exp);
  }

  // ---- conditions ----

  lemma {:induction false} CondRuns(m: Machine, x: Cond, e: State, env: Env, c: Config) returns (n: nat, d: Config)
    requires e.Valid() && e.Open() && EmitCond(x, e).Some? && Has(m, EmitCond(x, e).value.0)
    requires AtEnd(c, e) && Holds(e.scopes, env, c.mem)
    ensures Test(x, env).Some?
    ensures Yielded(m, e, EmitCond(x, e).value.0, EmitCond(x, e).value.1, Bit(Test(x, env).value), c, n, d)
    decreases x, 1
  {
    hide Touches, Has, Yielded, Holds, Computed, SameBelow, EmitExpr;
    match x
    case Cmp(op, y, z) =>
      var (e1, a) := EmitExpr(y, e).value;
      var (e2, b) := EmitExpr(z, e1).value;
      var c2;
      n, c2 := PairRuns(m, Arith(Add, y, z), y, z, e, e1, a, e2, b, env, c, Compare(e2.nextReg, op, a, b));
      d := Extend(m, e, e2, b, Eval(z, env).value, Compare(e2.nextReg, op, a, b), c, n, c2, Bit(Test(x, env).value));
      n := n + 1;
    case Truth(y) =>
      var (e1, a) := EmitExpr(y, e).value;
      SingleHas(m, y, e, Compare(e1.nextReg, Neq, a, Imm(0)));
      var n1, c1 := ExprRuns(m, y, e, env, c);
      YieldedAt(m, e, e1, a, Eval(y, env).value, c, n1, c1);
      d := Extend(m, e, e1, a, Eval(y, env).value, Compare(e1.nextReg, Neq, a, Imm(0)), c, n1, c1, Bit(Test(x, env).value));
      n := n1 + 1;
    case Not(y) =>
      var (e1, a) := EmitCond(y, e).value;
      CondTouches(y, e);
      AppendTouches(e1, Invert(e1.nextReg, a));
      HasEarlier(m, e1, Define(e1, Invert(e1.nextReg, a)), {e1.cur});
      var n1, c1 := CondRuns(m, y, e, env, c);
      YieldedAt(m, e, e1, a, Bit(Test(y, env).value), c, n1, c1);
      d := Extend(m, e, e1, a, Bit(Test(y, env).value), Invert(e1.nextReg, a), c, n1, c1, Bit(Test(x, env).value));
      n := n1 + 1;
    case And(d0, d1) =>
      n, d := JoinRuns(m, x, d0, d1, e, env, c);
    case Or(d0, d1) =>
      n, d := JoinRuns(m, x, d0, d1, e, env, c);
  }

  lemma JoinHas(m: Machine, c: Cond, d0: Cond, d1: Cond, e: State, l: State, a: Value, h: State, r: State, b: Value)
    requires ShortCircuitStages(c, d0, d1, e, l, a, h, r, b) && e.Open() && Has(m, Joined(c, e, l, r, b))
    ensures Has(m, l) && l.Open() && Has(m, l.Close(Decide(c, a, |e.blocks|))) && l.cur != r.cur
    ensures Has(m, h) && h.Open() && h.blocks[h.cur] == EmptyBlock
    ensures Has(m, r) && r.Open() && Has(m, r.Close(Br(|e.blocks| + 1))) && r.blocks[|e.blocks| + 1] == EmptyBlock && r.cur != |e.blocks| + 1
  {
    hide EmitCond, Touches;
    ShortCircuitTouches(c, d0, d1, e, l, a, h, r, b);
    var j := r.Close(Br(|e.blocks| + 1)).At(|e.blocks| + 1);
    AppendTouches(j, JoinPhi(c, l, r, b));
    HasEarlier(m, j, Joined(c, e, l, r, b), {j.cur});
    assert Has(m, r.Close(Br(|e.blocks| + 1)));
    CloseTouches(r, Br(|e.blocks| + 1));
    HasEarlier(m, r, r.Close(Br(|e.blocks| + 1)), {});
    HasEarlier(m, h, r, {r.cur});
    assert Has(m, l.Close(Decide(c, a, |e.blocks|)));
    CloseTouches(l, Decide(c, a, |e.blocks|));
    HasEarlier(m, l, l.Close(Decide(c, a, |e.blocks|)), {});
  }

  /** At the merge block, the phi picks the value the way here decided. */
  lemma JoinEnds(m: Machine, c: Cond, e: State, l: State, r: State, b: Value, c0: Config, n: nat, c1: Config, value: Int64)
    returns (d: Config)
    requires r.Valid() && |e.blocks| + 1 < |r.blocks| && r.blocks[|e.blocks| + 1] == EmptyBlock && r.cur != |e.blocks| + 1
    requires Has(m, Joined(c, e, l, r, b)) && e.nextReg <= r.nextReg && l.cur != r.cur
    requires Steps(m, c0, n) == c1 && Computed(c0, c1, e.nextReg) && c1.block == |e.blocks| + 1 && c1.pc == 0
    requires (c1.prev == l.cur && value == Bit(c.Or?)) || (c1.prev == r.cur && value == ValueIn(b, c1.regs))
    ensures Yielded(m, e, Joined(c, e, l, r, b), Reg(r.nextReg), value, c0, n + 1, d)
  {
    var j := r.Close(Br(|e.blocks| + 1)).At(|e.blocks| + 1);
    assert Yielded(m, e, j, Imm(0), 0, c0, n, c1);
    d := Extend(m, e, j, Imm(0), 0, JoinPhi(c, l, r, b), c0, n, c1, value);
  }

  lemma {:induction false} JoinRuns(m: Machine, x: Cond, d0: Cond, d1: Cond, e: State, env: Env, c: Config) returns (n: nat, d: Config)
    requires e.Valid() && e.Open() && EmitCond(x, e).Some? && Has(m, EmitCond(x, e).value.0)
    requires (x == And(d0, d1) || x == Or(d0, d1)) && AtEnd(c, e) && Holds(e.scopes, env, c.mem)
    ensures Test(x, env).Some?
    ensures Yielded(m, e, EmitCond(x, e).value.0, EmitCond(x, e).value.1, Bit(Test(x, env).value), c, n, d)
    decreases x, 0, 1
  {
    hide Touches, Has, Yielded, Holds, Computed, SameBelow, Test, Steps, EmitExpr, EmitCond, Joined;
    var l, a, h, r, b := JoinUnfolds(x, d0, d1, e);
    n, d := JoinStagesRun(m, x, d0, d1, e, l, a, h, r, b, env, c);
  }

  lemma JumpComputed(m: Machine, t: Term, n: nat, c: Config, c1: Config)
    requires Computed(c, c1, n) && (t.Br? || t.CondBr?)
    ensures Computed(c, Leave(m, t, c1), n) && Leave(m, t, c1).pc == 0 && Leave(m, t, c1).prev == c1.block && Leave(m, t, c1).regs == c1.regs
    ensures Leave(m, t, c1).block == if t.Br? then t.to else if ValueIn(t.on, c1.regs) != 0 then t.yes else t.no
  {
  }

  /** From the end of the right side to after the phi. */
  lemma JoinRight(m: Machine, x: Cond, e: State, l: State, h: State, r: State, b: Value, c: Config, n2: nat, c2: Config,
                  n3: nat, c3: Config, value: Int64)
    returns (d: Config)
    requires r.Valid() && |e.blocks| + 1 < |r.blocks| && r.blocks[|e.blocks| + 1] == EmptyBlock && r.cur != |e.blocks| + 1 && l.cur != r.cur
    requires Has(m, Joined(x, e, l, r, b)) && Has(m, r.Close(Br(|e.blocks| + 1))) && e.nextReg <= h.nextReg <= r.nextReg
    requires Steps(m, c, n2) == c2 && Computed(c, c2, e.nextReg) && Yielded(m, h, r, b, value, c2, n3, c3)
    ensures Yielded(m, e, Joined(x, e, l, r, b), Reg(r.nextReg), value, c, n2 + n3 + 2, d)
  {
    hide Has, Yielded, Computed, Steps, Step, Leave, Joined, JoinPhi;
    YieldedAt(m, h, r, b, value, c2, n3, c3);
    FetchTerm(m, r, c3, Br(|e.blocks| + 1));
    Compose(m, e, h, c, n2, c2, n3, c3);
    JumpComputed(m, Br(|e.blocks| + 1), e.nextReg, c, c3);
    Then(m, c, n2 + n3, c3);
    d := JoinEnds(m, x, e, l, r, b, c, n2 + n3 + 1, Step(m, c3), value);
  }

  lemma {:induction false} JoinStagesRun(m: Machine, x: Cond, d0: Cond, d1: Cond, e: State, l: State, a: Value, h: State, r: State, b: Value,
                                         env: Env, c: Config)
    returns (n: nat, d: Config)
    requires ShortCircuitStages(x, d0, d1, e, l, a, h, r, b) && e.Open() && Has(m, Joined(x, e, l, r, b))
    requires AtEnd(c, e) && Holds(e.scopes, env, c.mem)
    ensures Test(x, env).Some?
    ensures Yielded(m, e, Joined(x, e, l, r, b), Reg(r.nextReg), Bit(Test(x, env).value), c, n, d)
    decreases x, 0, 0
  {
    hide Touches, Has, Yielded, Holds, Computed, EmitCond, Steps, Step, Leave, Joined, JoinPhi;
    JoinHas(m, x, d0, d1, e, l, a, h, r, b);
    var n1, c1 := CondRuns(m, d0, e.NewBlock().NewBlock(), env, c);
    var t0 := Test(d0, env).value;
    YieldedAt(m, e.NewBlock().NewBlock(), l, a, Bit(t0), c, n1, c1);
    FetchTerm(m, l, c1, Decide(x, a, |e.blocks|));
    JumpComputed(m, Decide(x, a, |e.blocks|), e.nextReg, c, c1);
    var c2 := Step(m, c1);
    Then(m, c, n1, c1);
    if t0 == x.Or? {
      n := n1 + 2;
      d := JoinEnds(m, x, e, l, r, b, c, n1 + 1, c2, Bit(x.Or?));
    } else {
      var n3, c3 := CondRuns(m, d1, h, env, c2);
      d := JoinRight(m, x, e, l, h, r, b, c, n1 + 1, c2, n3, c3, Bit(Test(d1, env).value));
      n := n1 + n3 + 3;
    }
  }
}
