/** The code generator as it works: an object that appends to a current block and keeps
    scopes, loops and tracked slots in fields. Each operation does what `Emit` says. */
module Codegen {
  import opened Wrappers
  import opened Ast
  import opened Machine
  import E = Emit

  class Generator {
    var blocks: seq<Block>
    var cur: nat
    var nextReg: nat
    var nextSlot: nat
    var scopes: seq<map<string, nat>>
    var loops: seq<E.Loop>
    var tracked: seq<nat>
    var resume: seq<nat>
    var gen: bool

    ghost function Now(): E.State
      reads this
    {
      E.State(blocks, cur, nextReg, nextSlot, scopes, loops, tracked, resume, gen)
    }

    ghost predicate Valid()
      reads this
    {
      Now().Valid()
    }

    /** The entry block of an ordinary function of `arity` parameters. */
    constructor Function(arity: nat)
      ensures Now() == E.State([EmptyBlock], 0, arity, 0, [map[]], [], [], [], false)
    {
      blocks, cur, nextReg, nextSlot := [EmptyBlock], 0, arity, 0;
      scopes, loops, tracked, resume, gen := [map[]], [], [], [], false;
    }

    /** The entry, dispatch and done blocks of a resume function, and its first resume block. */
    constructor Resume()
      ensures Now() == E.ResumeEntry()
    {
      blocks := [Block([], Some(Br(1))), Block([], Some(Dispatch(2))), EmptyBlock, EmptyBlock];
      cur, nextReg, nextSlot := 3, 0, 0;
      scopes, loops, tracked, resume, gen := [map[]], [], [], [3], true;
    }

    // ---- the builder ----

    predicate Open()
      requires cur < |blocks|
      reads this
    {
      blocks[cur].term.None?
    }

    method Append(i: Instr)
      requires Valid()
      modifies `blocks
      ensures Now() == old(Now()).Append(i)
    {
      blocks := blocks[cur := blocks[cur].(instrs := blocks[cur].instrs + [i])];
    }

    method Close(t: Term)
      requires Valid()
      modifies `blocks
      ensures Now() == old(Now()).Close(t)
    {
      blocks := blocks[cur := blocks[cur].(term := Some(t))];
    }

    method CloseIfOpen(b: nat)
      requires Valid()
      modifies `blocks
      ensures Now() == E.CloseIfOpen(old(Now()), b)
    {
      if Open() {
        Close(Br(b));
      }
    }

    method NewBlock() returns (b: nat)
      modifies `blocks
      ensures Now() == old(Now()).NewBlock() && b == old(|blocks|)
    {
      b := |blocks|;
      blocks := blocks + [EmptyBlock];
    }

    method AddBlocks(n: nat)
      modifies `blocks
      ensures Now() == E.AddBlocks(old(Now()), n)
    {
      var i := 0;
      while i < n
        invariant i <= n && E.AddBlocks(old(Now()), n) == E.AddBlocks(Now(), n - i)
      {
        var b := NewBlock();
        i := i + 1;
      }
    }

    /** Creates `n` blocks, branches on `v` to the first of them or to `no`, and enters the first. */
    method Fork(v: Value, n: nat, no: nat)
      requires Valid() && n > 0
      modifies `blocks, `cur
      ensures Now() == E.Fork(old(Now()), v, n, no)
    {
      var first := |blocks|;
      AddBlocks(n);
      Close(CondBr(v, first, no));
      cur := first;
    }

    /** Appends an instruction that defines the next register. */
    method Define(i: Instr) returns (v: Value)
      requires Valid()
      modifies `blocks, `nextReg
      ensures Now() == E.Define(old(Now()), i) && v == Reg(old(nextReg))
    {
      Append(i);
      v := Reg(nextReg);
      nextReg := nextReg + 1;
    }

    // ---- names ----

    method PushScope()
      modifies `scopes
      ensures Now() == old(Now()).PushScope()
    {
      scopes := scopes + [map[]];
    }

    method PopScope()
      modifies `scopes
      ensures Now() == old(Now()).PopScope()
    {
      if scopes != [] {
        scopes := scopes[..|scopes| - 1];
      }
    }

    /** From the innermost scope outwards. */
    method LookupVar(x: string) returns (slot: Option<nat>)
      ensures slot == E.Lookup(scopes, x)
    {
      var i := |scopes|;
      assert scopes[..i] == scopes;
      while i > 0
        invariant i <= |scopes| && E.Lookup(scopes, x) == E.Lookup(scopes[..i], x)
      {
        if x in scopes[i - 1] {
          return Some(scopes[i - 1][x]);
        }
        assert scopes[..i][..i - 1] == scopes[..i - 1];
        i := i - 1;
      }
      slot := None;
    }

    method NewSlot() returns (slot: nat)
      modifies `nextSlot
      ensures slot == old(nextSlot) && nextSlot == slot + 1
    {
      slot := nextSlot;
      nextSlot := nextSlot + 1;
    }

    /** A generator saves each declared slot once. */
    method DeclareVar(x: string, slot: nat)
      modifies `scopes, `tracked
      ensures Now() == old(Now()).Declare(x, slot)
    {
      if scopes != [] {
        scopes := E.Bind(scopes, x, slot);
      }
      if gen {
        var i := 0;
        while i < |tracked|
          invariant i <= |tracked| && slot !in tracked[..i]
        {
          if tracked[i] == slot {
            return;
          }
          i := i + 1;
        }
        tracked := tracked + [slot];
      }
    }

    // ---- expressions ----

    /** None when a name is not in scope. */
    method EmitExpr(x: Expr) returns (r: Option<Value>)
      requires Valid()
      modifies this
      ensures r.Some? ==> E.EmitExpr(x, old(Now())) == Some((Now(), r.value))
      ensures r.None? ==> E.EmitExpr(x, old(Now())).None?
      decreases x
    {
      match x
      case Lit(n) => r := Some(Imm(n));
      case Var(name) =>
        var slot := LookupVar(name);
        if slot.None? {
          return None;
        }
        var v := Define(Load(nextReg, slot.value));
        r := Some(v);
      case Arith(op, y, z) =>
        var a := EmitExpr(y);
        if a.None? {
          return None;
        }
        var b := EmitExpr(z);
        if b.None? {
          return None;
        }
        var v := Define(Calc(nextReg, op, a.value, b.value));
        r := Some(v);
      case Neg(y) =>
        var a := EmitExpr(y);
        if a.None? {
          return None;
        }
        var v := Define(Calc(nextReg, Sub, Imm(0), a.value));
        r := Some(v);
      case Pow(y, z) =>
        var a := EmitExpr(y);
        if a.None? {
          return None;
        }
        var b := EmitExpr(z);
        if b.None? {
          return None;
        }
        var v := EmitPow(a.value, b.value);
        r := Some(v);
    }

    method EmitPow(base: Value, exp: Value) returns (v: Value)
      requires Valid()
      modifies this
      ensures (Now(), v) == E.EmitPow(old(Now()), base, exp)
    {
      hide E.PowHeader;
      var loop, count := |blocks|, Reg(nextReg + 1);
      v := Reg(nextReg);
      EmitPowHeader(exp);
      var product := Define(Calc(nextReg, Mul, v, base));
      var left := Define(Calc(nextReg, Sub, count, Imm(1)));
      Close(Br(loop));
      cur := loop + 1;
    }

    /** The phis of the loop header name registers that the loop body defines later. */
    method EmitPowHeader(exp: Value)
      requires Valid()
      modifies this
      ensures Now() == E.PowHeader(old(Now()), exp)
    {
      hide E.Define;
      var pre := cur;
      var done := EnterPow();
      EmitPowTest(pre, exp, done);
    }

    method EnterPow() returns (done: nat)
      requires Valid()
      modifies `blocks, `cur
      ensures Now() == old(Now().NewBlock().NewBlock().Close(Br(|blocks|)).At(|blocks|)) && done == old(|blocks|) + 1
    {
      var loop := NewBlock();
      done := NewBlock();
      Close(Br(loop));
      cur := loop;
    }

    /** The phis and the test in the header; enters the body. */
    method EmitPowTest(pre: nat, exp: Value, done: nat)
      requires Valid()
      modifies this
      ensures Now() == E.PowTest(old(Now()), pre, exp, done)
    {
      hide E.Define;
      var body, g := |blocks|, nextReg;
      var product := Define(Phi(g, pre, Imm(1), body, Reg(g + 3)));
      var count := Define(Phi(g + 1, pre, exp, body, Reg(g + 4)));
      var isDone := Define(Compare(g + 2, Lte, count, Imm(0)));
      body := NewBlock();
      Close(CondBr(isDone, done, body));
      cur := body;
    }

    method EmitCond(c: Cond) returns (r: Option<Value>)
      requires Valid()
      modifies this
      ensures r.Some? ==> E.EmitCond(c, old(Now())) == Some((Now(), r.value))
      ensures r.None? ==> E.EmitCond(c, old(Now())).None?
      decreases c, 1
    {
      hide E.EmitExpr;
      match c
      case Cmp(op, y, z) =>
        var a := EmitExpr(y);
        if a.None? {
          return None;
        }
        var b := EmitExpr(z);
        if b.None? {
          return None;
        }
        var v := Define(Compare(nextReg, op, a.value, b.value));
        r := Some(v);
      case Truth(y) =>
        var a := EmitExpr(y);
        if a.None? {
          return None;
        }
        var v := Define(Compare(nextReg, Neq, a.value, Imm(0)));
        r := Some(v);
      case Not(d) =>
        var a := EmitCond(d);
        if a.None? {
          return None;
        }
        var v := Define(Invert(nextReg, a.value));
        r := Some(v);
      case And(d0, d1) => r := EmitAnd(d0, d1);
      case Or(d0, d1) => r := EmitOr(d0, d1);
    }

    /** The merge block of `And` and `Or`, where the left side comes with its own value. */
    method Join(leftEnd: nat, short: Value, b: Value, merge: nat, ghost c: Cond, ghost e: E.State, ghost l: E.State) returns (v: Value)
      requires Valid() && merge == |e.blocks| + 1 < |blocks| && leftEnd == l.cur && short == Imm(Bit(c.Or?))
      modifies `blocks, `cur, `nextReg
      ensures Now() == E.Joined(c, e, l, old(Now()), b) && v == Reg(old(nextReg))
    {
      hide E.Define;
      var rightEnd := cur;
      Close(Br(merge));
      cur := merge;
      v := Define(Phi(nextReg, leftEnd, short, rightEnd, b));
    }

    static lemma JoinUnfolds(c: Cond, left: Cond, right: Cond, e: E.State)
      requires e.Valid() && (c == And(left, right) || c == Or(left, right))
      ensures E.EmitCond(c, e) == AfterLeft(c, right, e, E.EmitCond(left, e.NewBlock().NewBlock()))
    {
      hide E.EmitExpr, E.Define, E.Joined;
    }

    static ghost function AfterLeft(c: Cond, right: Cond, e: E.State, x: Option<(E.State, Value)>): Option<(E.State, Value)>
      requires e.Valid() && (x.Some? ==> E.OnlyCode(e.NewBlock().NewBlock(), x.value.0))
    {
      var (l, a) :- x;
      var (r, b) :- E.EmitCond(right, l.Close(E.Decide(c, a, |e.blocks|)).At(|e.blocks|));
      Some((E.Joined(c, e, l, r, b), Reg(r.nextReg)))
    }

    method EmitAnd(left: Cond, right: Cond) returns (r: Option<Value>)
      requires Valid()
      modifies this
      ensures r.Some? ==> E.EmitCond(And(left, right), old(Now())) == Some((Now(), r.value))
      ensures r.None? ==> E.EmitCond(And(left, right), old(Now())).None?
      decreases And(left, right), 0
    {
      hide E.EmitCond, E.Joined;
      ghost var c, was := And(left, right), Now();
      JoinUnfolds(c, left, right, was);
      var rhs := NewBlock();
      var merge := NewBlock();
      var a := EmitCond(left);
      if a.None? {
        return None;
      }
      ghost var l := Now();
      var leftEnd := cur;
      Close(CondBr(a.value, rhs, merge));
      cur := rhs;
      var b := EmitCond(right);
      if b.None? {
        return None;
      }
      var v := Join(leftEnd, Imm(0), b.value, merge, c, was, l);
      r := Some(v);
    }

    method EmitOr(left: Cond, right: Cond) returns (r: Option<Value>)
      requires Valid()
      modifies this
      ensures r.Some? ==> E.EmitCond(Or(left, right), old(Now())) == Some((Now(), r.value))
      ensures r.None? ==> E.EmitCond(Or(left, right), old(Now())).None?
      decreases Or(left, right), 0
    {
      hide E.EmitCond, E.Joined;
      ghost var c, was := Or(left, right), Now();
      JoinUnfolds(c, left, right, was);
      var rhs := NewBlock();
      var merge := NewBlock();
      var a := EmitCond(left);
      if a.None? {
        return None;
      }
      ghost var l := Now();
      var leftEnd := cur;
      Close(CondBr(a.value, merge, rhs));
      cur := rhs;
      var b := EmitCond(right);
      if b.None? {
        return None;
      }
      var v := Join(leftEnd, Imm(1), b.value, merge, c, was, l);
      r := Some(v);
    }

    // ---- statements ----

    method EmitStmt(s: Stmt) returns (ok: bool)
      requires Valid()
      modifies this
      ensures ok ==> E.EmitStmt(s, old(Now())) == Some(Now())
      ensures !ok ==> E.EmitStmt(s, old(Now())).None?
      decreases s, 2
    {
      match s
      case Assign(x, v) => ok := EmitAssign(x, v);
      case Pass => ok := true;
      case If(_, _, _, _) => ok := EmitIf(s);
      case While(_, _, _) => ok := EmitWhile(s);
      case Break => EmitBreak(); ok := true;
      case Continue => EmitContinue(); ok := true;
      case Return(x) => ok := EmitReturn(x);
      case Match(_, _) => ok := EmitMatch(s);
      case Yield(x) => ok := EmitYield(x);
    }

    /** Stops after the first statement that ended the current block. */
    method EmitList(ss: seq<Stmt>) returns (ok: bool)
      requires Valid()
      modifies this
      ensures ok ==> E.EmitList(ss, old(Now())) == Some(Now())
      ensures !ok ==> E.EmitList(ss, old(Now())).None?
      decreases ss, 0
    {
      var i := 0;
      while i < |ss|
        invariant i <= |ss| && Valid() && E.EmitList(ss, old(Now())) == E.EmitList(ss[i..], Now())
      {
        assert ss[i..][0] == ss[i] && ss[i..][1..] == ss[i + 1..];
        ok := EmitStmt(ss[i]);
        if !ok {
          return;
        }
        if !Open() {
          return;
        }
        i := i + 1;
      }
      ok := true;
    }

    method EmitBlock(ss: seq<Stmt>) returns (ok: bool)
      requires Valid()
      modifies this
      ensures ok ==> E.EmitBlock(ss, old(Now())) == Some(Now())
      ensures !ok ==> E.EmitBlock(ss, old(Now())).None?
      decreases ss, 1
    {
      PushScope();
      ok := EmitList(ss);
      if ok {
        PopScope();
      }
    }

    method EmitAssign(x: string, v: Expr) returns (ok: bool)
      requires Valid()
      modifies this
      ensures ok ==> E.EmitAssign(x, v, old(Now())) == Some(Now())
      ensures !ok ==> E.EmitAssign(x, v, old(Now())).None?
    {
      hide E.EmitExpr, E.Lookup, E.Bind;
      var a := EmitExpr(v);
      if a.None? {
        return false;
      }
      var slot := LookupVar(x);
      if slot.Some? {
        Append(Store(slot.value, a.value));
      } else {
        var added := NewSlot();
        Append(Store(added, a.value));
        DeclareVar(x, added);
      }
      ok := true;
    }

    method EmitBreak()
      requires Valid()
      modifies `blocks
      ensures Now() == E.EmitBreak(old(Now()))
    {
      if loops != [] {
        var l := loops[|loops| - 1];
        if l.didBreak.Some? {
          Append(Store(l.didBreak.value, Imm(1)));
        }
        Close(Br(l.exit));
      }
    }

    method EmitContinue()
      requires Valid()
      modifies `blocks
      ensures Now() == E.EmitContinue(old(Now()))
    {
      if loops != [] {
        Close(Br(loops[|loops| - 1].header));
      }
    }

    method EmitReturn(x: Option<Expr>) returns (ok: bool)
      requires Valid()
      modifies this
      ensures ok ==> E.EmitReturn(x, old(Now())) == Some(Now())
      ensures !ok ==> E.EmitReturn(x, old(Now())).None?
    {
      if gen {
        Append(SetState(-1));
        Close(Ret(Some(Imm(SENTINEL))));
      } else if x.None? {
        Close(Ret(None));
      } else {
        var v := EmitExpr(x.value);
        if v.None? {
          return false;
        }
        Close(Ret(Some(v.value)));
      }
      ok := true;
    }

    /** The block after the statement is created before the blocks of the rest. */
    method EmitIf(s: Stmt) returns (ok: bool)
      requires s.If? && Valid()
      modifies this
      ensures ok ==> E.EmitIf(s, old(Now())) == Some(Now())
      ensures !ok ==> E.EmitIf(s, old(Now())).None?
      decreases s, 1
    {
      hide E.EmitBlock, E.EmitCond, E.Fork, E.CloseIfOpen, E.EmitElsifs;
      var v := EmitCond(s.cond);
      if v.None? {
        return false;
      }
      var thenB, ways := |blocks|, if s.elsifs != [] || s.els != [] then 3 else 2;
      var merge, rest := thenB + 1, thenB + ways - 1;
      Fork(v.value, ways, rest);
      ok := EmitBlock(s.thn);
      if !ok {
        return;
      }
      CloseIfOpen(merge);
      if ways == 3 {
        cur := rest;
        ok := EmitElsifs(s, merge);
        if !ok {
          return;
        }
      }
      cur := merge;
    }

    method EmitElsifs(s: Stmt, merge: nat) returns (ok: bool)
      requires s.If? && Valid() && merge < |blocks|
      modifies this
      ensures ok ==> E.EmitElsifs(s, 0, merge, old(Now())) == Some(Now())
      ensures !ok ==> E.EmitElsifs(s, 0, merge, old(Now())).None?
      decreases s, 0, 1
    {
      hide E.EmitBlock, E.EmitCond, E.Fork;
      var i := 0;
      while i < |s.elsifs|
        invariant i <= |s.elsifs| && Valid() && merge < |blocks|
        invariant E.EmitElsifs(s, 0, merge, old(Now())) == E.EmitElsifs(s, i, merge, Now())
      {
        ok := EmitElsif(s, i, merge);
        if !ok {
          return;
        }
        i := i + 1;
      }
      ok := true;
      if s.els != [] {
        ok := EmitBlock(s.els);
        if ok {
          CloseIfOpen(merge);
        }
      }
    }

    /** The test and the body of one elsif; the rest goes on in the block its failed test leads to. */
    method EmitElsif(s: Stmt, i: nat, merge: nat) returns (ok: bool)
      requires s.If? && i < |s.elsifs| && Valid() && merge < |blocks|
      modifies this
      ensures !ok ==> E.EmitElsif(s, i, merge, old(Now())).None?
      ensures ok ==> Valid() && merge < |blocks| && E.EmitElsif(s, i, merge, old(Now())) == Some(Now())
      decreases s, 0, 0
    {
      hide E.EmitBlock, E.EmitCond, E.Fork, E.CloseIfOpen;
      var v := EmitCond(s.elsifs[i].cond);
      if v.None? {
        return false;
      }
      var more := i + 1 < |s.elsifs| || s.els != [];
      var next := if more then |blocks| + 1 else merge;
      Fork(v.value, if more then 2 else 1, next);
      ok := EmitBlock(s.elsifs[i].body);
      if !ok {
        return;
      }
      CloseIfOpen(merge);
      if more {
        cur := next;
      }
    }

    method EmitWhile(s: Stmt) returns (ok: bool)
      requires s.While? && Valid()
      modifies this
      ensures ok ==> E.EmitWhile(s, old(Now())) == Some(Now())
      ensures !ok ==> E.EmitWhile(s, old(Now())).None?
      decreases s, 1
    {
      hide E.EmitBlock, E.EmitCond, E.EmitLoopElse, E.OpenLoop, E.EnterBody, E.LeaveBody;
      var flag: Option<nat> := None;
      if s.els != [] {
        var slot := NewSlot();
        Append(Store(slot, Imm(0)));
        flag := Some(slot);
      }
      var header := OpenLoop();
      var v := EmitCond(s.cond);
      if v.None? {
        return false;
      }
      EnterBody(v.value, header, flag);
      ok := EmitBlock(s.body);
      if !ok {
        return;
      }
      LeaveBody(header);
      ok := EmitLoopElse(s, flag);
    }

    /** The header, body and exit blocks of a loop; enters the header. */
    method OpenLoop() returns (header: nat)
      requires Valid()
      modifies `blocks, `cur
      ensures Now() == E.OpenLoop(old(Now())) && header == cur
    {
      header := NewBlock();
      var body := NewBlock();
      var exit := NewBlock();
      Close(Br(header));
      cur := header;
    }

    method EnterBody(v: Value, header: nat, flag: Option<nat>)
      requires Valid() && header + 2 < |blocks|
      modifies `blocks, `cur, `loops
      ensures Now() == E.EnterBody(old(Now()), v, header, flag)
    {
      Close(CondBr(v, header + 1, header + 2));
      cur := header + 1;
      loops := loops + [E.Loop(header, header + 2, flag)];
    }

    method LeaveBody(header: nat)
      requires Valid() && header + 2 < |blocks|
      modifies `blocks, `cur, `loops
      ensures Now() == E.LeaveBody(old(Now()), header)
    {
      if loops != [] {
        loops := loops[..|loops| - 1];
      }
      CloseIfOpen(header);
      cur := header + 2;
    }

    method EmitLoopElse(s: Stmt, flag: Option<nat>) returns (ok: bool)
      requires s.While? && (flag.None? <==> s.els == []) && Valid()
      modifies this
      ensures ok ==> E.EmitLoopElse(s, flag, old(Now())) == Some(Now())
      ensures !ok ==> E.EmitLoopElse(s, flag, old(Now())).None?
      decreases s, 0
    {
      ok := true;
      if s.els != [] {
        var elseB := NewBlock();
        var after := NewBlock();
        var v := Define(Load(nextReg, flag.value));
        Close(CondBr(v, after, elseB));
        cur := elseB;
        ok := EmitBlock(s.els);
        if ok {
          CloseIfOpen(after);
          cur := after;
        }
      }
    }

    // ---- match ----

    method EmitMatch(s: Stmt) returns (ok: bool)
      requires s.Match? && Valid()
      modifies this
      ensures ok ==> E.EmitMatch(s, old(Now())) == Some(Now())
      ensures !ok ==> E.EmitMatch(s, old(Now())).None?
      decreases s, 1
    {
      hide E.EmitExpr, E.EmitCases, E.EmitCase;
      if s.cases == [] {
        return true;
      }
      var v := EmitExpr(s.subject);
      if v.None? {
        return false;
      }
      ghost var e1 := Now();
      var slot := NewSlot();
      Append(Store(slot, v.value));
      var merge := |blocks|;
      AddBlocks(1 + |s.cases|);
      assert Now() == E.StartMatch(s, e1, v.value);
      ghost var e2 := Now();
      var i := 0;
      while i < |s.cases|
        invariant i <= |s.cases| && Valid() && merge + |s.cases| < |blocks|
        invariant i < |s.cases| ==> E.EmitCases(s, 0, slot, merge, e2) == E.EmitCases(s, i, slot, merge, Now())
        invariant i == |s.cases| ==> E.EmitCases(s, 0, slot, merge, e2) == Some(Now())
      {
        E.NextCase(s, i, slot, merge, Now());
        ok := EmitCase(s, i, slot, merge);
        if !ok {
          return;
        }
        i := i + 1;
      }
      cur := merge;
      ok := true;
    }

    /** The check and the body of one case; the next case goes on in its miss block. */
    method EmitCase(s: Stmt, i: nat, slot: nat, merge: nat) returns (ok: bool)
      requires s.Match? && i < |s.cases| && Valid() && merge + |s.cases| < |blocks|
      modifies this
      ensures !ok ==> E.EmitCase(s, i, slot, merge, old(Now())).None?
      ensures ok ==> Valid() && old(|blocks|) <= |blocks| && E.EmitCase(s, i, slot, merge, old(Now())) == Some(Now())
      decreases s, 0
    {
      hide E.EmitBlock, E.EmitCheck, E.CloseIfOpen;
      var miss, more := merge, i + 1 < |s.cases|;
      if more {
        miss := NewBlock();
      }
      ok := EmitCheck(s.cases[i], slot, merge + 1 + i, miss);
      if !ok {
        return;
      }
      cur := merge + 1 + i;
      ok := EmitBlock(s.cases[i].body);
      if !ok {
        return;
      }
      CloseIfOpen(merge);
      if more {
        cur := miss;
      }
    }

    method EmitCheck(c: Case, slot: nat, body: nat, miss: nat) returns (ok: bool)
      requires Valid()
      modifies this
      ensures ok ==> E.EmitCheck(c, slot, body, miss, old(Now())) == Some(Now())
      ensures !ok ==> E.EmitCheck(c, slot, body, miss, old(Now())).None?
    {
      if c.guard.Some? {
        var guardB := NewBlock();
        ok := EmitPattern(c.pattern, slot, guardB, miss);
        if !ok {
          return;
        }
        cur := guardB;
        var v := EmitCond(c.guard.value);
        if v.None? {
          return false;
        }
        Close(CondBr(v.value, body, miss));
      } else {
        ok := EmitPattern(c.pattern, slot, body, miss);
      }
    }

    method EmitPattern(pattern: Option<Expr>, slot: nat, hit: nat, miss: nat) returns (ok: bool)
      requires Valid()
      modifies this
      ensures ok ==> E.EmitPattern(pattern, slot, hit, miss, old(Now())) == Some(Now())
      ensures !ok ==> E.EmitPattern(pattern, slot, hit, miss, old(Now())).None?
    {
      if pattern.None? {
        Close(Br(hit));
      } else {
        var subject := Define(Load(nextReg, slot));
        var w := EmitExpr(pattern.value);
        if w.None? {
          return false;
        }
        var v := Define(Compare(nextReg, Eq, subject, w.value));
        Close(CondBr(v, hit, miss));
      }
      ok := true;
    }

    // ---- generators ----

    method SaveVars()
      requires Valid()
      modifies `blocks, `nextReg
      ensures Now() == E.SaveFrom(0, old(Now()))
    {
      var i := 0;
      while i < |tracked|
        invariant i <= |tracked| && Valid() && E.SaveFrom(0, old(Now())) == E.SaveFrom(i, Now())
      {
        var v := Define(Load(nextReg, tracked[i]));
        Append(StoreSaved(i, v));
        i := i + 1;
      }
    }

    method RestoreVars()
      requires Valid()
      modifies `blocks, `nextReg
      ensures Now() == E.RestoreFrom(0, old(Now()))
    {
      var i := 0;
      while i < |tracked|
        invariant i <= |tracked| && Valid() && E.RestoreFrom(0, old(Now())) == E.RestoreFrom(i, Now())
      {
        var v := Define(LoadSaved(nextReg, i));
        Append(Store(tracked[i], v));
        i := i + 1;
      }
    }

    method EmitYield(x: Option<Expr>) returns (ok: bool)
      requires Valid()
      modifies this
      ensures ok ==> E.EmitYield(x, old(Now())) == Some(Now())
      ensures !ok ==> E.EmitYield(x, old(Now())).None?
    {
      hide E.EmitExpr, E.EmitYield, E.FinishYield;
      E.YieldUnfolds(x, Now());
      ok := true;
      if gen {
        var v := Some(Imm(0));
        if x.Some? {
          v := EmitExpr(x.value);
        }
        ok := v.Some?;
        if ok {
          FinishYield(v.value);
        }
      }
    }

    method FinishYield(v: Value)
      requires Valid()
      modifies this
      ensures Now() == E.FinishYield(v, old(Now()))
    {
      hide E.FinishYield, E.Suspend, E.RestoreFrom;
      E.FinishUnfolds(v, Now());
      Suspend(v);
      RestoreVars();
    }

    /** Saves the slots, sets the next state and returns; goes on in a new resume block. */
    method Suspend(v: Value)
      requires Valid()
      modifies this
      ensures Now() == E.Suspend(v, old(Now()))
    {
      hide E.SaveFrom, E.Split;
      SaveVars();
      Append(SetState(|resume|));
      Split(v);
    }

    method Split(v: Value)
      requires Valid()
      modifies `blocks, `cur, `resume
      ensures Now() == E.Split(v, old(Now()))
    {
      var retB := NewBlock();
      Close(Br(retB));
      cur := retB;
      Close(Ret(Some(v)));
      var nextB := NewBlock();
      resume := resume + [nextB];
      cur := nextB;
    }

    // ---- parameters, and the end of a resume function ----

    method BindParams(params: seq<string>)
      requires Valid()
      modifies this
      ensures Now() == E.BindParams(0, params, old(Now()))
    {
      var i := 0;
      while i < |params|
        invariant i <= |params| && Valid() && E.BindParams(0, params, old(Now())) == E.BindParams(i, params, Now())
      {
        BindParam(params[i], i);
        i := i + 1;
      }
    }

    method BindParam(x: string, reg: nat)
      requires Valid()
      modifies this
      ensures Now() == old(Now().(nextSlot := nextSlot + 1).Append(Store(nextSlot, Reg(reg))).Declare(x, nextSlot))
    {
      hide E.Bind;
      var slot := NewSlot();
      Append(Store(slot, Reg(reg)));
      DeclareVar(x, slot);
    }

    method DeclareParams(params: seq<string>)
      requires Valid()
      modifies this
      ensures Now() == E.DeclareParams(0, params, old(Now()))
    {
      hide E.Bind;
      var i := 0;
      while i < |params|
        invariant i <= |params| && Valid() && E.DeclareParams(0, params, old(Now())) == E.DeclareParams(i, params, Now())
      {
        E.NextParam(i, params, Now());
        DeclareParam(params[i]);
        i := i + 1;
      }
    }

    method DeclareParam(x: string)
      modifies this
      ensures Now() == old(Now().(nextSlot := nextSlot + 1).Declare(x, nextSlot))
    {
      hide E.Bind;
      var slot := NewSlot();
      DeclareVar(x, slot);
    }

    method FinishResume()
      requires Valid() && 2 < |blocks|
      modifies `blocks, `cur
      ensures Now() == E.FinishResume(old(Now()))
    {
      CloseIfOpen(2);
      cur := 2;
      Append(SetState(-1));
      Close(Ret(Some(Imm(SENTINEL))));
    }
  }

  // ---- whole functions ----

  method EmitFunction(params: seq<string>, body: seq<Stmt>) returns (p: Option<Program>)
    ensures p == E.EmitFunction(params, body)
  {
    hide E.BindParams, E.EmitList;
    var g := new Generator.Function(|params|);
    g.BindParams(params);
    var ok := g.EmitList(body);
    if !ok {
      return None;
    }
    if g.Open() {
      g.Close(Ret(Some(Imm(0))));
    }
    p := Some(Program(g.blocks, g.resume, false));
  }

  method EmitResume(params: seq<string>, body: seq<Stmt>) returns (p: Option<Program>)
    ensures p == E.EmitResume(params, body)
  {
    hide E.DeclareParams, E.EmitList, E.RestoreFrom, E.FinishResume;
    var g := new Generator.Resume();
    g.DeclareParams(params);
    g.RestoreVars();
    var ok := g.EmitList(body);
    if !ok {
      return None;
    }
    g.FinishResume();
    p := Some(Program(g.blocks, g.resume, true));
  }

  method Lower(params: seq<string>, body: seq<Stmt>) returns (p: Option<Program>)
    ensures p == E.Lower(params, body)
  {
    if ContainsYield(body) {
      p := EmitResume(params, body);
    } else {
      p := EmitFunction(params, body);
    }
  }
}
