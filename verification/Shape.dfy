/** The shape of emitted code: what emitting touches, and which blocks it leaves unfinished. Code
    emitted for a statement appends to the current block and adds new ones; the other blocks stay
    as they are, and of the new ones all are ended but those named. */
module Shape {
  import opened Wrappers
  import opened Ast
  import opened Semantics
  import opened Machine
  import opened Emit

  /** Code only grows at the end of a block, and a block with a terminator is final. */
  ghost predicate BlockExtends(x: Block, y: Block) {
    x.instrs <= y.instrs && (x.term.Some? ==> x == y)
  }

  ghost predicate ExtendsAt(bs: seq<Block>, p: seq<Block>, b: nat) {
    b < |bs| && b < |p| ==> BlockExtends(bs[b], p[b])
  }

  ghost predicate Extends(bs: seq<Block>, p: seq<Block>) {
    |bs| <= |p| && forall b: nat {:trigger ExtendsAt(bs, p, b)} :: ExtendsAt(bs, p, b)
  }

  /** The block ends, and the blocks it may go on to exist. */
  ghost predicate Ends(t: Option<Term>, n: nat) {
    match t
    case None => false
    case Some(Br(b)) => b < n
    case Some(CondBr(_, yes, no)) => yes < n && no < n
    case Some(Ret(_)) => true
    case Some(Dispatch(done)) => done < n
  }

  // Block `b` is as it was.
  ghost predicate Kept(e: State, r: State, b: nat) {
    b < |e.blocks| && b < |r.blocks| && r.blocks[b] == e.blocks[b]
  }

  ghost predicate Ended(r: State, b: nat) {
    b < |r.blocks| && Ends(r.blocks[b].term, |r.blocks|)
  }

  ghost predicate Waits(r: State, b: nat) {
    b < |r.blocks| && r.blocks[b].term.None?
  }

  // The blocks code emitted from `e` to `r` may touch.
  ghost predicate Within(e: State, r: State, b: nat) {
    b == e.cur || |e.blocks| <= b < |r.blocks|
  }

  /** From `e` to `r` only the block `e` appends to and new blocks were touched, and of
      these exactly the ones in `open` have no terminator yet. */
  ghost predicate Touches(e: State, r: State, open: set<nat>) {
    && e.cur < |e.blocks| <= |r.blocks| && Within(e, r, r.cur)
    && BlockExtends(e.blocks[e.cur], r.blocks[e.cur])
    && (forall b: nat {:trigger Kept(e, r, b)} :: b < |e.blocks| && b != e.cur ==> Kept(e, r, b))
    && (forall b: nat {:trigger Ended(r, b)} :: Within(e, r, b) && b !in open ==> Ended(r, b))
    && (forall b: nat {:trigger Waits(r, b)} :: b in open ==> Within(e, r, b) && Waits(r, b))
  }

  lemma TouchesExtends(e: State, r: State, open: set<nat>, p: seq<Block>)
    requires Touches(e, r, open) && Extends(r.blocks, p)
    ensures Extends(e.blocks, p)
  {
    forall b: nat
      ensures ExtendsAt(e.blocks, p, b)
    {
      assert ExtendsAt(r.blocks, p, b);
      assert b < |e.blocks| && b != e.cur ==> Kept(e, r, b);
    }
  }

  lemma Chain(e: State, e1: State, open1: set<nat>, e2: State, open2: set<nat>)
    requires Touches(e, e1, open1) && e1.cur in open1 && Touches(e1, e2, open2)
    ensures Touches(e, e2, open1 - {e1.cur} + open2)
  {
    var open := open1 - {e1.cur} + open2;
    assert Waits(e1, e1.cur);
    forall b: nat | b < |e.blocks| && b != e.cur
      ensures Kept(e, e2, b)
    {
      assert Kept(e, e1, b) && Kept(e1, e2, b);
    }
    forall b: nat | Within(e, e2, b) && b !in open
      ensures Ended(e2, b)
    {
      if Within(e1, e2, b) {
        assert Ended(e2, b);
      } else {
        assert Ended(e1, b) && Kept(e1, e2, b);
      }
    }
    forall b: nat | b in open
      ensures Within(e, e2, b) && Waits(e2, b)
    {
      if b in open2 {
        assert Waits(e2, b);
      } else {
        assert Waits(e1, b);
        if b != e1.cur {
          assert Kept(e1, e2, b);
        }
      }
    }
    assert e.cur != e1.cur ==> Kept(e1, e2, e.cur);
  }

  lemma Onward(e: State, e1: State, e2: State, open: set<nat>)
    requires Touches(e, e1, {e1.cur}) && Touches(e1, e2, open)
    ensures Touches(e, e2, open)
  {
    Chain(e, e1, {e1.cur}, e2, open);
    assert {e1.cur} - {e1.cur} + open == open;
  }

  lemma KeptBy(e: State, r: State, open: set<nat>, b: nat)
    requires Touches(e, r, open) && b < |e.blocks| && b != e.cur
    ensures b < |r.blocks| && r.blocks[b] == e.blocks[b]
  {
    assert Kept(e, r, b);
  }

  lemma WaitsBy(e: State, r: State, open: set<nat>, b: nat)
    requires Touches(e, r, open) && b in open
    ensures b < |r.blocks| && r.blocks[b].term.None? && Within(e, r, b)
  {
    assert Waits(r, b);
  }

  // The blocks a statement leaves unfinished: the current one, unless it ended.
  ghost function OpenOf(e: State): set<nat>
    requires e.cur < |e.blocks|
  {
    if e.Open() then {e.cur} else {}
  }

  // The blocks a break or continue may go to exist.
  ghost predicate Linked(e: State) {
    e.loops != [] ==> e.loops[|e.loops| - 1].header < |e.blocks| && e.loops[|e.loops| - 1].exit < |e.blocks|
  }

  /** One step of the emitter: the current block grows into `x`, and new blocks follow. */
  lemma Local(r: State, t: State, x: Block, added: seq<Block>, open: set<nat>)
    requires r.cur < |r.blocks| && t.blocks == r.blocks[r.cur := x] + added && BlockExtends(r.blocks[r.cur], x)
    requires Within(r, t, t.cur)
    requires if r.cur in open then x.term.None? else Ends(x.term, |t.blocks|)
    requires forall k: nat {:trigger added[k]} :: k < |added| ==>
               if |r.blocks| + k in open then added[k].term.None? else Ends(added[k].term, |t.blocks|)
    requires forall b :: b in open ==> Within(r, t, b)
    ensures Touches(r, t, open)
    ensures forall b: nat :: b < |r.blocks| && b != r.cur ==> t.blocks[b] == r.blocks[b]
  {
    forall b: nat | b < |r.blocks| && b != r.cur
      ensures Kept(r, t, b)
    {
    }
    forall b: nat | Within(r, t, b) && b !in open
      ensures Ended(t, b)
    {
      assert b != r.cur ==> t.blocks[b] == added[b - |r.blocks|];
    }
    forall b: nat | b in open
      ensures Within(r, t, b) && Waits(t, b)
    {
      assert b != r.cur ==> t.blocks[b] == added[b - |r.blocks|];
    }
  }

  lemma CloseTouches(r: State, t: Term)
    requires r.Valid() && Ends(Some(t), |r.blocks|) && r.Open()
    ensures Touches(r, r.Close(t), {})
  {
    Local(r, r.Close(t), r.Close(t).blocks[r.cur], [], {});
  }

  lemma AppendTouches(r: State, i: Instr)
    requires r.Valid() && r.Open()
    ensures Touches(r, Define(r, i), {r.cur}) && Touches(r, r.Append(i), {r.cur})
  {
    Local(r, r.Append(i), r.Append(i).blocks[r.cur], [], {r.cur});
    Local(r, Define(r, i), r.Append(i).blocks[r.cur], [], {r.cur});
  }

  /** Ending the current block leaves the others as they were. */
  lemma ChainClose(e: State, r: State, open: set<nat>, t: Term)
    requires r.Valid() && Touches(e, r, open) && r.cur in open && Ends(Some(t), |r.blocks|)
    ensures Touches(e, r.Close(t), open - {r.cur})
  {
    assert Waits(r, r.cur);
    CloseTouches(r, t);
    Chain(e, r, open, r.Close(t), {});
    assert open - {r.cur} + {} == open - {r.cur};
  }

  lemma ChainAppend(e: State, r: State, i: Instr)
    requires r.Valid() && Touches(e, r, {r.cur})
    ensures Touches(e, Define(r, i), {r.cur}) && Touches(e, r.Append(i), {r.cur})
  {
    assert Waits(r, r.cur);
    AppendTouches(r, i);
    Onward(e, r, Define(r, i), {r.cur});
    Onward(e, r, r.Append(i), {r.cur});
  }

  // The block numbers from `lo` up to but not including `hi`.
  ghost function Ids(lo: nat, hi: nat): (r: set<nat>)
    ensures forall b :: b in r <==> lo <= b < hi
    decreases hi - lo
  {
    if lo >= hi then {} else {lo} + Ids(lo + 1, hi)
  }

  lemma AddTouches(r: State, n: nat)
    requires r.Valid() && r.Open()
    ensures Touches(r, AddBlocks(r, n), {r.cur} + Ids(|r.blocks|, |r.blocks| + n))
    ensures AddBlocks(r, n).blocks[r.cur] == r.blocks[r.cur]
  {
    var t := AddBlocks(r, n);
    assert t.blocks == r.blocks[r.cur := r.blocks[r.cur]] + t.blocks[|r.blocks|..];
    Local(r, t, r.blocks[r.cur], t.blocks[|r.blocks|..], {r.cur} + Ids(|r.blocks|, |r.blocks| + n));
  }

  lemma ForkTouches(r: State, v: Value, n: nat, no: nat)
    requires r.Valid() && r.Open() && n > 0 && no < |r.blocks| + n
    ensures var t := Fork(r, v, n, no);
            && Touches(r, t, Ids(|r.blocks|, |r.blocks| + n))
            && t.blocks[r.cur] == r.Close(CondBr(v, |r.blocks|, no)).blocks[r.cur]
            && forall b: nat :: |r.blocks| <= b < |r.blocks| + n ==> t.blocks[b] == EmptyBlock
  {
    var t := Fork(r, v, n, no);
    var x := r.Close(CondBr(v, |r.blocks|, no)).blocks[r.cur];
    assert t.blocks == r.blocks[r.cur := x] + t.blocks[|r.blocks|..];
    Local(r, t, x, t.blocks[|r.blocks|..], Ids(|r.blocks|, |r.blocks| + n));
  }

  lemma {:induction false} ExprTouches(x: Expr, e: State)
    requires e.Valid() && e.Open() && EmitExpr(x, e).Some?
    ensures var r := EmitExpr(x, e).value.0; r.Open() && Touches(e, r, {r.cur})
    decreases x
  {
    match x
    case Lit(_) => Local(e, e, e.blocks[e.cur], [], {e.cur});
    case Var(name) => AppendTouches(e, Load(e.nextReg, Lookup(e.scopes, name).value));
    case Arith(op, y, z) =>
      ExprTouches(y, e);
      var (e1, a) := EmitExpr(y, e).value;
      ExprTouches(z, e1);
      var (e2, b) := EmitExpr(z, e1).value;
      Onward(e, e1, e2, {e2.cur});
      ChainAppend(e, e2, Calc(e2.nextReg, op, a, b));
    case Neg(y) =>
      ExprTouches(y, e);
      var (e1, a) := EmitExpr(y, e).value;
      ChainAppend(e, e1, Calc(e1.nextReg, Sub, Imm(0), a));
    case Pow(y, z) =>
      ExprTouches(y, e);
      var (e1, a) := EmitExpr(y, e).value;
      ExprTouches(z, e1);
      var (e2, b) := EmitExpr(z, e1).value;
      Onward(e, e1, e2, {e2.cur});
      PowTouches(e2, a, b);
      var r := EmitPow(e2, a, b).0;
      Onward(e, e2, r, {r.cur});
  }

  lemma PowBlocks(e: State, base: Value, exp: Value) returns (added: seq<Block>)
    requires e.Valid() && e.Open()
    ensures var n, g, r := |e.blocks|, e.nextReg, EmitPow(e, base, exp).0;
            && r.blocks == e.blocks[e.cur := e.Close(Br(n)).blocks[e.cur]] + added && |added| == 3 && r.cur == n + 1
            && added[0] == Block([Phi(g, e.cur, Imm(1), n + 2, Reg(g + 3)), Phi(g + 1, e.cur, exp, n + 2, Reg(g + 4)),
                                  Compare(g + 2, Lte, Reg(g + 1), Imm(0))], Some(CondBr(Reg(g + 2), n + 1, n + 2)))
            && added[1] == EmptyBlock
            && added[2] == Block([Calc(g + 3, Mul, Reg(g), base), Calc(g + 4, Sub, Reg(g + 1), Imm(1))], Some(Br(n)))
  {
    var n, r := |e.blocks|, EmitPow(e, base, exp).0;
    added := r.blocks[n..];
    assert r.blocks[..n] == e.blocks[e.cur := e.Close(Br(n)).blocks[e.cur]];
  }

  lemma PowTouches(e: State, base: Value, exp: Value)
    requires e.Valid() && e.Open()
    ensures var n, g, r := |e.blocks|, e.nextReg, EmitPow(e, base, exp).0;
            && r.Open() && Touches(e, r, {r.cur}) && r.cur == n + 1 && g < r.nextReg && EmitPow(e, base, exp).1 == Reg(g)
            && r.blocks[e.cur] == e.Close(Br(n)).blocks[e.cur]
            && r.blocks[n] == Block([Phi(g, e.cur, Imm(1), n + 2, Reg(g + 3)), Phi(g + 1, e.cur, exp, n + 2, Reg(g + 4)),
                                     Compare(g + 2, Lte, Reg(g + 1), Imm(0))], Some(CondBr(Reg(g + 2), n + 1, n + 2)))
            && r.blocks[n + 1] == EmptyBlock
            && r.blocks[n + 2] == Block([Calc(g + 3, Mul, Reg(g), base), Calc(g + 4, Sub, Reg(g + 1), Imm(1))], Some(Br(n)))
  {
    var n, r := |e.blocks|, EmitPow(e, base, exp).0;
    var x := e.Close(Br(n)).blocks[e.cur];
    var added := PowBlocks(e, base, exp);
    Local(e, r, x, added, {n + 1});
  }

  lemma {:induction false} CondTouches(c: Cond, e: State)
    requires e.Valid() && e.Open() && EmitCond(c, e).Some?
    ensures var r := EmitCond(c, e).value.0; r.Open() && Touches(e, r, {r.cur})
    decreases c, 1
  {
    match c
    case Cmp(op, y, z) =>
      ExprTouches(y, e);
      var (e1, a) := EmitExpr(y, e).value;
      ExprTouches(z, e1);
      var (e2, b) := EmitExpr(z, e1).value;
      Onward(e, e1, e2, {e2.cur});
      ChainAppend(e, e2, Compare(e2.nextReg, op, a, b));
    case Truth(y) =>
      ExprTouches(y, e);
      var (e1, a) := EmitExpr(y, e).value;
      ChainAppend(e, e1, Compare(e1.nextReg, Neq, a, Imm(0)));
    case Not(d) =>
      CondTouches(d, e);
      var (e1, a) := EmitCond(d, e).value;
      ChainAppend(e, e1, Invert(e1.nextReg, a));
    case And(d0, d1) => JoinTouches(c, d0, d1, e);
    case Or(d0, d1) => JoinTouches(c, d0, d1, e);
  }

  lemma JoinUnfolds(x: Cond, d0: Cond, d1: Cond, e: State) returns (l: State, a: Value, h: State, r: State, b: Value)
    requires e.Valid() && EmitCond(x, e).Some? && (x == And(d0, d1) || x == Or(d0, d1))
    ensures ShortCircuitStages(x, d0, d1, e, l, a, h, r, b) && EmitCond(x, e) == Some((Joined(x, e, l, r, b), Reg(r.nextReg)))
  {
    var left := EmitCond(d0, e.NewBlock().NewBlock()).value;
    l, a := left.0, left.1;
    h := l.Close(Decide(x, a, |e.blocks|)).At(|e.blocks|);
    var right := EmitCond(d1, h).value;
    r, b := right.0, right.1;
  }

  lemma {:induction false} JoinTouches(c: Cond, d0: Cond, d1: Cond, e: State)
    requires e.Valid() && e.Open() && EmitCond(c, e).Some? && (c == And(d0, d1) || c == Or(d0, d1))
    ensures var r := EmitCond(c, e).value.0; r.Open() && Touches(e, r, {r.cur})
    decreases c, 0, 1
  {
    hide Touches, EmitCond;
    var l, a, m, r, b := JoinUnfolds(c, d0, d1, e);
    ShortCircuitTouches(c, d0, d1, e, l, a, m, r, b);
    var j := r.Close(Br(|e.blocks| + 1)).At(|e.blocks| + 1);
    ChainAppend(e, j, Phi(j.nextReg, l.cur, Imm(Bit(c.Or?)), r.cur, b));
  }

  // The stages of `And` and `Or`: after the left side, before the right side, and after it.
  ghost predicate ShortCircuitStages(c: Cond, d0: Cond, d1: Cond, e: State, l: State, a: Value, m: State, r: State, b: Value) {
    && e.Valid() && (c == And(d0, d1) || c == Or(d0, d1))
    && EmitCond(d0, e.NewBlock().NewBlock()) == Some((l, a))
    && m == l.Close(Decide(c, a, |e.blocks|)).At(|e.blocks|)
    && EmitCond(d1, m) == Some((r, b))
  }

  lemma TwoBlocksTouch(e: State)
    requires e.Valid() && e.Open()
    ensures Touches(e, e.NewBlock().NewBlock(), {e.cur, |e.blocks|, |e.blocks| + 1})
    ensures e.NewBlock().NewBlock().blocks == e.blocks + [EmptyBlock, EmptyBlock]
  {
    var t := e.NewBlock().NewBlock();
    assert t.blocks == e.blocks[e.cur := e.blocks[e.cur]] + [EmptyBlock, EmptyBlock];
    Local(e, t, e.blocks[e.cur], [EmptyBlock, EmptyBlock], {e.cur, |e.blocks|, |e.blocks| + 1});
  }

  // `And` and `Or` differ only in which way the left side decides.
  lemma {:induction false} ShortCircuitTouches(c: Cond, d0: Cond, d1: Cond, e: State, l: State, a: Value, m: State, r: State, b: Value)
    requires ShortCircuitStages(c, d0, d1, e, l, a, m, r, b) && e.Open()
    ensures Touches(e.NewBlock().NewBlock(), l, {l.cur}) && l.Open()
    ensures Touches(e, m, {|e.blocks|, |e.blocks| + 1}) && m.Open() && m.blocks[m.cur] == EmptyBlock
    ensures Touches(m, r, {r.cur}) && r.Open() && r.cur != |e.blocks| + 1 && r.blocks[|e.blocks| + 1] == EmptyBlock
    ensures Touches(e, r.Close(Br(|e.blocks| + 1)).At(|e.blocks| + 1), {|e.blocks| + 1}) && l.cur != r.cur
    decreases c, 0, 0
  {
    hide EmitCond, Touches;
    TwoBlocksTouch(e);
    CondTouches(d0, e.NewBlock().NewBlock());
    LeftTouches(e, l, Decide(c, a, |e.blocks|));
    CondTouches(d1, m);
    RightTouches(e, m, r);
    SeparateEnds(e, l, m, r);
  }

  lemma SeparateEnds(e: State, l: State, m: State, r: State)
    requires l.cur < |l.blocks| && l.cur != |e.blocks| && m.cur == |e.blocks| && |m.blocks| == |l.blocks| && Touches(m, r, {r.cur})
    ensures l.cur != r.cur
  {
  }

  lemma LeftTouches(e: State, l: State, t: Term)
    requires e.Valid() && e.Open() && l.Valid() && Touches(e.NewBlock().NewBlock(), l, {l.cur}) && Ends(Some(t), |l.blocks|)
    ensures l.cur != |e.blocks| && l.cur != |e.blocks| + 1 && l.Open()
    ensures var n, m := |e.blocks|, l.Close(t).At(|e.blocks|);
            Touches(e, m, {n, n + 1}) && m.blocks[n] == m.blocks[n + 1] == EmptyBlock
  {
    var n, e0, m := |e.blocks|, e.NewBlock().NewBlock(), l.Close(t).At(|e.blocks|);
    TwoBlocksTouch(e);
    Chain(e, e0, {e.cur, n, n + 1}, l, {l.cur});
    assert {e.cur, n, n + 1} - {e.cur} + {l.cur} == {l.cur, n, n + 1};
    assert Waits(l, l.cur) && Kept(e0, l, n) && Kept(e0, l, n + 1);
    ChainClose(e, l, {l.cur, n, n + 1}, t);
    assert {l.cur, n, n + 1} - {l.cur} == {n, n + 1};
    MoveTouches(e, l.Close(t), {n, n + 1}, n);
  }

  lemma RightTouches(e: State, m: State, r: State)
    requires e.Valid() && Touches(e, m, {|e.blocks|, |e.blocks| + 1}) && m.cur == |e.blocks| && r.Valid()
    requires |e.blocks| + 1 < |m.blocks| && m.blocks[|e.blocks| + 1] == EmptyBlock && Touches(m, r, {r.cur})
    ensures r.cur != |e.blocks| + 1 && r.blocks[|e.blocks| + 1] == EmptyBlock && r.Open()
    ensures Touches(e, r.Close(Br(|e.blocks| + 1)).At(|e.blocks| + 1), {|e.blocks| + 1})
  {
    var n := |e.blocks|;
    assert Waits(m, n + 1) && Kept(m, r, n + 1) && Waits(r, r.cur);
    Chain(e, m, {n, n + 1}, r, {r.cur});
    assert {n, n + 1} - {n} + {r.cur} == {n + 1, r.cur};
    ChainClose(e, r, {n + 1, r.cur}, Br(n + 1));
    assert {n + 1, r.cur} - {r.cur} == {n + 1};
    MoveTouches(e, r.Close(Br(n + 1)), {n + 1}, n + 1);
  }

  /** After a fork whose first block was filled and ended, its other blocks wait, still empty. */
  lemma ForkBranch(e: State, e1: State, v: Value, n: nat, no: nat, e2: State)
    requires e1.Valid() && Touches(e, e1, {e1.cur}) && n > 0 && no < |e1.blocks| + n
    requires Touches(Fork(e1, v, n, no), e2, {})
    ensures Touches(e, e2, Ids(|e1.blocks| + 1, |e1.blocks| + n))
    ensures forall b: nat :: |e1.blocks| < b < |e1.blocks| + n ==> e2.blocks[b] == EmptyBlock
  {
    assert Waits(e1, e1.cur);
    ForkTouches(e1, v, n, no);
    var f, ids := Fork(e1, v, n, no), Ids(|e1.blocks|, |e1.blocks| + n);
    Onward(e, e1, f, ids);
    Chain(e, f, ids, e2, {});
    assert ids - {f.cur} + {} == Ids(|e1.blocks| + 1, |e1.blocks| + n);
    forall b: nat | |e1.blocks| < b < |e1.blocks| + n
      ensures e2.blocks[b] == EmptyBlock
    {
      assert Kept(f, e2, b);
    }
  }

  lemma {:induction false} StmtTouches(s: Stmt, e: State)
    requires e.Valid() && e.Open() && Linked(e) && EmitStmt(s, e).Some?
    ensures var r := EmitStmt(s, e).value; Touches(e, r, OpenOf(r))
    decreases s, 2
  {
    match s
    case Assign(x, v) => AssignTouches(x, v, e);
    case Pass => Local(e, e, e.blocks[e.cur], [], {e.cur});
    case If(_, _, _, _) => IfTouches(s, e);
    case While(_, _, _) => WhileTouches(s, e);
    case Break => BreakTouches(e);
    case Continue => BreakTouches(e);
    case Return(x) => ReturnTouches(x, e);
    case Match(_, _) => MatchTouches(s, e);
    case Yield(x) => YieldTouches(x, e);
  }

  lemma AssignTouches(x: string, v: Expr, e: State)
    requires e.Valid() && e.Open() && Linked(e) && EmitAssign(x, v, e).Some?
    ensures var r := EmitAssign(x, v, e).value; r.Open() && Touches(e, r, {r.cur})
  {
    ExprTouches(v, e);
    var (e1, a) := EmitExpr(v, e).value;
    var slot := if Lookup(e1.scopes, x).Some? then Lookup(e1.scopes, x).value else e1.nextSlot;
    ChainAppend(e, e1, Store(slot, a));
    ShiftTouches(e, e1.Append(Store(slot, a)), e, EmitAssign(x, v, e).value, {e1.cur});
  }

  lemma BreakTouches(e: State)
    requires e.Valid() && e.Open() && Linked(e)
    ensures var r := EmitBreak(e); Touches(e, r, OpenOf(r))
    ensures var r := EmitContinue(e); Touches(e, r, OpenOf(r))
  {
    if e.loops == [] {
      Local(e, e, e.blocks[e.cur], [], {e.cur});
    } else {
      var l := e.loops[|e.loops| - 1];
      CloseTouches(e, Br(l.header));
      var x := EmitBreak(e).blocks[e.cur];
      Local(e, EmitBreak(e), x, [], {});
    }
  }

  lemma ReturnTouches(x: Option<Expr>, e: State)
    requires e.Valid() && e.Open() && Linked(e) && EmitReturn(x, e).Some?
    ensures var r := EmitReturn(x, e).value; Touches(e, r, {}) && OpenOf(r) == {}
  {
    if e.gen {
      Local(e, EmitReturn(x, e).value, EmitReturn(x, e).value.blocks[e.cur], [], {});
    } else if x.None? {
      CloseTouches(e, Ret(None));
    } else {
      ExprTouches(x.value, e);
      var (e1, v) := EmitExpr(x.value, e).value;
      ChainClose(e, e1, {e1.cur}, Ret(Some(v)));
      assert {e1.cur} - {e1.cur} == {};
    }
  }

  lemma {:induction false} ListTouches(ss: seq<Stmt>, e: State)
    requires e.Valid() && e.Open() && Linked(e) && EmitList(ss, e).Some?
    ensures var r := EmitList(ss, e).value; Touches(e, r, OpenOf(r))
    decreases ss, 0
  {
    if ss == [] {
      Local(e, e, e.blocks[e.cur], [], {e.cur});
    } else {
      StmtTouches(ss[0], e);
      var e1 := EmitStmt(ss[0], e).value;
      if e1.Open() {
        ListTouches(ss[1..], e1);
        var r := EmitList(ss[1..], e1).value;
        Onward(e, e1, r, OpenOf(r));
      }
    }
  }

  lemma {:induction false} BlockTouches(ss: seq<Stmt>, e: State)
    requires e.Valid() && e.Open() && Linked(e) && EmitBlock(ss, e).Some?
    ensures var r := EmitBlock(ss, e).value; Touches(e, r, OpenOf(r))
    decreases ss, 1
  {
    ListTouches(ss, e.PushScope());
    ShiftTouches(e.PushScope(), EmitList(ss, e.PushScope()).value, e, EmitBlock(ss, e).value, OpenOf(EmitBlock(ss, e).value));
  }

  /** Only the blocks and the insertion points count. */
  lemma ShiftTouches(e: State, r: State, e': State, r': State, open: set<nat>)
    requires Touches(e, r, open) && e'.blocks == e.blocks && e'.cur == e.cur && r'.blocks == r.blocks && Within(e, r, r'.cur)
    ensures Touches(e', r', open)
  {
    forall b: nat | b < |e.blocks| && b != e.cur
      ensures Kept(e', r', b)
    {
      assert Kept(e, r, b);
    }
    forall b: nat | Within(e', r', b) && b !in open
      ensures Ended(r', b)
    {
      assert Within(e, r, b) && Ended(r, b);
    }
    forall b: nat | b in open
      ensures Within(e', r', b) && Waits(r', b)
    {
      assert Within(e, r, b) && Waits(r, b);
    }
  }

  lemma MoveTouches(e: State, r: State, open: set<nat>, b: nat)
    requires Touches(e, r, open) && b in open
    ensures Touches(e, r.At(b), open) && r.At(b).cur < |r.blocks| && r.At(b).Open()
  {
    assert Waits(r, b) && Within(e, r, b);
    ShiftTouches(e, r, e, r.At(b), open);
  }

  /** A nested block that goes on to `merge` leaves nothing unfinished. */
  lemma {:induction false} BranchTouches(ss: seq<Stmt>, e: State, merge: nat)
    requires e.Valid() && e.Open() && Linked(e) && EmitBlock(ss, e).Some? && merge < |e.blocks|
    ensures var r := CloseIfOpen(EmitBlock(ss, e).value, merge); Touches(e, r, {})
    decreases ss, 2
  {
    BlockTouches(ss, e);
    var r := EmitBlock(ss, e).value;
    if r.Open() {
      ChainClose(e, r, {r.cur}, Br(merge));
      assert {r.cur} - {r.cur} == {};
    }
  }

  // The stages of the first branch: after the condition, in the branch, and after it.
  ghost predicate IfStages(s: Stmt, e: State, c: State, v: Value, b: State, t: State) {
    && s.If? && e.Valid() && EmitCond(s.cond, e) == Some((c, v))
    && b == Fork(c, v, Ways(s), |c.blocks| + Ways(s) - 1)
    && EmitBlock(s.thn, b).Some?
    && t == CloseIfOpen(EmitBlock(s.thn, b).value, |c.blocks| + 1)
  }

  lemma IfUnfolds(s: Stmt, e: State) returns (g: State, v: Value, b: State, t: State)
    requires s.If? && e.Valid() && EmitIf(s, e).Some?
    ensures IfStages(s, e, g, v, b, t)
    ensures var merge := |g.blocks| + 1;
            if Ways(s) == 2 then EmitIf(s, e) == Some(t.At(merge))
            else EmitElsifs(s, 0, merge, t.At(merge + 1)).Some?
                 && EmitIf(s, e) == Some(EmitElsifs(s, 0, merge, t.At(merge + 1)).value.At(merge))
    ensures GrownInScope(e, b) && GrownInScope(e, t)
  {
    hide EmitCond, EmitBlock, EmitElsifs, Fork, CloseIfOpen;
    g, v := EmitCond(s.cond, e).value.0, EmitCond(s.cond, e).value.1;
    b := Fork(g, v, Ways(s), |g.blocks| + Ways(s) - 1);
    t := CloseIfOpen(EmitBlock(s.thn, b).value, |g.blocks| + 1);
  }

  lemma {:induction false} ThenTouches(s: Stmt, e: State, c: State, v: Value, b: State, t: State)
    requires IfStages(s, e, c, v, b, t) && e.Open() && Linked(e)
    ensures c.Open() && Touches(e, c, {c.cur})
    ensures b.Open() && Linked(b) && Touches(c, b, Ids(|c.blocks|, |c.blocks| + Ways(s)))
    ensures b.blocks[b.cur] == EmptyBlock && b.blocks[c.cur] == c.Close(CondBr(v, |c.blocks|, |c.blocks| + Ways(s) - 1)).blocks[c.cur]
    ensures Touches(b, t, {}) && Touches(e, t, Ids(|c.blocks| + 1, |c.blocks| + Ways(s)))
    ensures forall k: nat :: |c.blocks| < k < |c.blocks| + Ways(s) ==> t.blocks[k] == EmptyBlock
    decreases s, 0
  {
    hide EmitCond, EmitBlock, Touches;
    CondTouches(s.cond, e);
    ForkTouches(c, v, Ways(s), |c.blocks| + Ways(s) - 1);
    BranchTouches(s.thn, b, |c.blocks| + 1);
    ForkBranch(e, c, v, Ways(s), |c.blocks| + Ways(s) - 1, t);
  }

  lemma {:induction false} IfTouches(s: Stmt, e: State)
    requires s.If? && e.Valid() && e.Open() && Linked(e) && EmitIf(s, e).Some?
    ensures var r := EmitIf(s, e).value; r.Open() && Touches(e, r, {r.cur}) && r.blocks[r.cur] == EmptyBlock
    decreases s, 1, |s.elsifs| + 1
  {
    hide EmitCond, EmitBlock, EmitElsifs, EmitIf, Touches, Fork, Waits, CloseIfOpen;
    var c, v, b, t := IfUnfolds(s, e);
    var merge := |c.blocks| + 1;
    ThenTouches(s, e, c, v, b, t);
    if Ways(s) == 2 {
      assert Ids(merge, merge + 1) == {merge};
      MoveTouches(e, t, {merge}, merge);
    } else {
      assert Ids(merge, merge + 2) == {merge, merge + 1};
      MoveTouches(e, t, {merge, merge + 1}, merge + 1);
      ElsifsTouches(s, 0, merge, t.At(merge + 1));
      var r := EmitElsifs(s, 0, merge, t.At(merge + 1)).value;
      Rejoin(e, t.At(merge + 1), {merge, merge + 1}, r, merge);
    }
  }

  /** Once nothing but `merge` waits, code goes on there. */
  lemma Rejoin(e: State, r: State, open: set<nat>, t: State, merge: nat)
    requires Touches(e, r, open) && Touches(r, t, {}) && open == {merge, r.cur} && r.cur != merge
    requires merge < |r.blocks| && r.blocks[merge] == EmptyBlock
    ensures Touches(e, t.At(merge), {merge}) && merge < |t.blocks| && t.blocks[merge] == EmptyBlock
  {
    assert Waits(r, merge);
    Chain(e, r, open, t, {});
    assert open - {r.cur} + {} == {merge};
    assert Kept(r, t, merge);
    MoveTouches(e, t, {merge}, merge);
  }

  // The stages of elsif `i`: after its test, in its body, and after its body.
  ghost predicate ElsifStages(s: Stmt, i: nat, merge: nat, e: State, c: State, v: Value, b: State, t: State) {
    && s.If? && i < |s.elsifs| && e.Valid() && EmitCond(s.elsifs[i].cond, e) == Some((c, v))
    && b == Fork(c, v, if More(s, i) then 2 else 1, if More(s, i) then |c.blocks| + 1 else merge)
    && EmitBlock(s.elsifs[i].body, b).Some?
    && t == CloseIfOpen(EmitBlock(s.elsifs[i].body, b).value, merge)
  }

  lemma {:induction false} ElsifBranchTouches(s: Stmt, i: nat, merge: nat, e: State, c: State, v: Value, b: State, t: State)
    requires ElsifStages(s, i, merge, e, c, v, b, t) && e.Open() && Linked(e) && merge < |e.blocks|
    ensures c.Open() && Touches(e, c, {c.cur})
    ensures b.Open() && Linked(b) && Touches(c, b, Ids(|c.blocks|, |c.blocks| + if More(s, i) then 2 else 1))
    ensures b.blocks[b.cur] == EmptyBlock
    ensures b.blocks[c.cur] == c.Close(CondBr(v, |c.blocks|, if More(s, i) then |c.blocks| + 1 else merge)).blocks[c.cur]
    ensures Touches(b, t, {}) && Touches(e, t, if More(s, i) then {|c.blocks| + 1} else {})
    ensures More(s, i) ==> t.blocks[|c.blocks| + 1] == EmptyBlock
    decreases s, 0
  {
    hide EmitCond, EmitBlock, Touches;
    CondTouches(s.elsifs[i].cond, e);
    var n, no := if More(s, i) then 2 else 1, if More(s, i) then |c.blocks| + 1 else merge;
    ForkTouches(c, v, n, no);
    BranchTouches(s.elsifs[i].body, b, merge);
    ForkBranch(e, c, v, n, no, t);
    assert Ids(|c.blocks| + 1, |c.blocks| + n) == if More(s, i) then {|c.blocks| + 1} else {};
  }

  lemma ElsifUnfolds(s: Stmt, i: nat, merge: nat, e: State) returns (g: State, v: Value, b: State, t: State)
    requires s.If? && i < |s.elsifs| && e.Valid() && merge < |e.blocks| && EmitElsifs(s, i, merge, e).Some?
    ensures ElsifStages(s, i, merge, e, g, v, b, t)
    ensures GrownInScope(e, b) && GrownInScope(e, t)
    ensures EmitElsifs(s, i, merge, e) == EmitElsifs(s, i + 1, merge, if More(s, i) then t.At(|g.blocks| + 1) else t)
  {
    hide EmitCond, EmitBlock, Fork, CloseIfOpen;
    g, v := EmitCond(s.elsifs[i].cond, e).value.0, EmitCond(s.elsifs[i].cond, e).value.1;
    b := Fork(g, v, if More(s, i) then 2 else 1, if More(s, i) then |g.blocks| + 1 else merge);
    t := CloseIfOpen(EmitBlock(s.elsifs[i].body, b).value, merge);
  }

  lemma NoElsif(s: Stmt, merge: nat, e: State)
    requires s.If? && s.els == [] && e.Valid() && merge < |e.blocks|
    ensures EmitElsifs(s, |s.elsifs|, merge, e) == Some(e)
  {
  }

  lemma {:induction false} ElsifsTouches(s: Stmt, i: nat, merge: nat, e: State)
    requires s.If? && i <= |s.elsifs| && (i < |s.elsifs| || s.els != [])
    requires e.Valid() && e.Open() && Linked(e) && merge < |e.blocks| && EmitElsifs(s, i, merge, e).Some?
    ensures var r := EmitElsifs(s, i, merge, e).value; Touches(e, r, {})
    decreases s, 1, |s.elsifs| - i
  {
    hide EmitCond, EmitBlock, Touches, Fork, Waits, CloseIfOpen, AddBlocks;
    if i == |s.elsifs| {
      BranchTouches(s.els, e, merge);
    } else {
      hide EmitElsifs;
      var c, v, b, t := ElsifUnfolds(s, i, merge, e);
      ElsifBranchTouches(s, i, merge, e, c, v, b, t);
      if More(s, i) {
        var e4 := t.At(|c.blocks| + 1);
        MoveTouches(e, t, {|c.blocks| + 1}, |c.blocks| + 1);
        ElsifsTouches(s, i + 1, merge, e4);
        Onward(e, e4, EmitElsifs(s, i + 1, merge, e4).value, {});
      } else {
        NoElsif(s, merge, t);
      }
    }
  }

  lemma OpenLoopTouches(e: State)
    requires e.Valid() && e.Open()
    ensures var n, r := |e.blocks|, OpenLoop(e);
            && r.Open() && Touches(e, r, {n, n + 1, n + 2}) && r.blocks[e.cur] == e.Close(Br(n)).blocks[e.cur]
            && r.blocks[n] == r.blocks[n + 1] == r.blocks[n + 2] == EmptyBlock
  {
    var n, r := |e.blocks|, OpenLoop(e);
    var x := e.Close(Br(n)).blocks[e.cur];
    assert r.blocks == e.blocks[e.cur := x] + [EmptyBlock, EmptyBlock, EmptyBlock];
    Local(e, r, x, [EmptyBlock, EmptyBlock, EmptyBlock], {n, n + 1, n + 2});
  }

  lemma TestFlagTouches(e: State, flag: nat)
    requires e.Valid() && e.Open()
    ensures var n, r := |e.blocks|, TestFlag(e, flag);
            && r.Open() && Touches(e, r, {n, n + 1}) && r.blocks[n] == r.blocks[n + 1] == EmptyBlock
            && r.blocks[e.cur] == e.Append(Load(e.nextReg, flag)).Close(CondBr(Reg(e.nextReg), n + 1, n)).blocks[e.cur]
  {
    var n, r := |e.blocks|, TestFlag(e, flag);
    var x := e.Append(Load(e.nextReg, flag)).Close(CondBr(Reg(e.nextReg), n + 1, n)).blocks[e.cur];
    assert r.blocks == e.blocks[e.cur := x] + [EmptyBlock, EmptyBlock];
    Local(e, r, x, [EmptyBlock, EmptyBlock], {n, n + 1});
  }

  lemma StartLoopTouches(s: Stmt, e: State)
    requires s.While? && e.Valid() && e.Open()
    ensures var r := StartLoop(s, e); r.Valid() && r.Open() && Touches(e, r, {e.cur})
  {
    Local(e, StartLoop(s, e), StartLoop(s, e).blocks[e.cur], [], {e.cur});
  }

  // The stages of a loop: at its header, after its condition, in its body, and at its exit.
  ghost predicate LoopStages(s: Stmt, e: State, h: State, c: State, v: Value, b: State, x: State) {
    && s.While? && e.Valid()
    && h == OpenLoop(StartLoop(s, e))
    && EmitCond(s.cond, h) == Some((c, v))
    && b == EnterBody(c, v, h.cur, FlagOf(s, e))
    && EmitBlock(s.body, b).Some?
    && x == LeaveBody(EmitBlock(s.body, b).value, h.cur)
  }

  lemma WhileUnfolds(s: Stmt, e: State) returns (h: State, g: State, v: Value, b: State, x: State)
    requires s.While? && e.Valid() && EmitWhile(s, e).Some?
    ensures LoopStages(s, e, h, g, v, b, x) && EmitWhile(s, e) == EmitLoopElse(s, FlagOf(s, e), x)
    ensures GrownInScope(e, h) && GrownInScope(e, g) && GrownInScope(h, x) && GrownInScope(g, b.PopLoop())
    ensures h.cur + 2 < |h.blocks| && b.loops == e.loops + [Loop(h.cur, h.cur + 2, FlagOf(s, e))] && b.cur == h.cur + 1
    ensures x.cur == h.cur + 2 && b.scopes == e.scopes && b.resume == e.resume
  {
    hide EmitCond, EmitBlock, EmitLoopElse, CloseIfOpen;
    h := OpenLoop(StartLoop(s, e));
    g, v := EmitCond(s.cond, h).value.0, EmitCond(s.cond, h).value.1;
    b := EnterBody(g, v, h.cur, FlagOf(s, e));
    x := LeaveBody(EmitBlock(s.body, b).value, h.cur);
  }

  // What each stage of a loop leaves to be done.
  ghost predicate LoopTouched(s: Stmt, e: State, h: State, c: State, v: Value, b: State, x: State) {
    && s.While? && h.Valid() && c.Valid() && b.Valid() && x.Valid()
    && h.Open() && Touches(h, c, {c.cur}) && c.Open() && Touches(e, b, {h.cur + 1, h.cur + 2})
    && b.blocks[b.cur] == EmptyBlock && b.Open() && Linked(b)
    && c.cur < |b.blocks| && b.blocks[c.cur] == c.Close(CondBr(v, h.cur + 1, h.cur + 2)).blocks[c.cur]
    && x.Open() && x.blocks[x.cur] == EmptyBlock && Touches(e, x, {x.cur})
    && EmitBlock(s.body, b).Some? && Touches(b, CloseIfOpen(EmitBlock(s.body, b).value.PopLoop(), h.cur), {})
  }

  lemma {:induction false} LoopTouches(s: Stmt, e: State, h: State, c: State, v: Value, b: State, x: State)
    requires LoopStages(s, e, h, c, v, b, x) && e.Open() && Linked(e)
    ensures LoopTouched(s, e, h, c, v, b, x)
    decreases s, 0
  {
    hide EmitCond, EmitBlock, Touches, StartLoop;
    StartLoopTouches(s, e);
    OpenLoopTouches(StartLoop(s, e));
    CondTouches(s.cond, h);
    HeaderTouches(e, StartLoop(s, e), h, c, v);
    ShiftTouches(e, c.Close(CondBr(v, h.cur + 1, h.cur + 2)).At(h.cur + 1), e, b, {h.cur + 1, h.cur + 2});
    BodyTouches(s, e, h, b, x);
  }

  lemma HeaderTouches(e: State, e1: State, h: State, c: State, v: Value)
    requires e1.Valid() && Touches(e, e1, {e1.cur}) && h == OpenLoop(e1) && c.Valid() && Touches(h, c, {c.cur})
    requires Touches(e1, h, {h.cur, h.cur + 1, h.cur + 2})
    requires h.blocks[h.cur + 1] == h.blocks[h.cur + 2] == EmptyBlock
    ensures c.cur != h.cur + 1 && c.cur != h.cur + 2 && c.Open()
    ensures c.blocks[h.cur + 1] == c.blocks[h.cur + 2] == EmptyBlock
    ensures Touches(e, c.Close(CondBr(v, h.cur + 1, h.cur + 2)).At(h.cur + 1), {h.cur + 1, h.cur + 2})
  {
    var n := h.cur;
    Onward(e, e1, h, {n, n + 1, n + 2});
    Chain(e, h, {n, n + 1, n + 2}, c, {c.cur});
    assert {n, n + 1, n + 2} - {n} + {c.cur} == {c.cur, n + 1, n + 2};
    assert Waits(h, n + 1) && Waits(h, n + 2) && Waits(c, c.cur);
    assert Kept(h, c, n + 1) && Kept(h, c, n + 2);
    ChainClose(e, c, {c.cur, n + 1, n + 2}, CondBr(v, n + 1, n + 2));
    assert {c.cur, n + 1, n + 2} - {c.cur} == {n + 1, n + 2};
    MoveTouches(e, c.Close(CondBr(v, n + 1, n + 2)), {n + 1, n + 2}, n + 1);
  }

  lemma {:induction false} BodyTouches(s: Stmt, e: State, h: State, b: State, x: State)
    requires s.While? && b.Valid() && b.Open() && Linked(b) && b.cur == h.cur + 1 && b.loops != []
    requires Touches(e, b, {h.cur + 1, h.cur + 2}) && h.cur + 2 < |b.blocks| && b.blocks[h.cur + 2] == EmptyBlock
    requires EmitBlock(s.body, b).Some? && x == LeaveBody(EmitBlock(s.body, b).value, h.cur)
    ensures x.Open() && x.blocks[x.cur] == EmptyBlock && Touches(e, x, {x.cur})
    ensures Touches(b, CloseIfOpen(EmitBlock(s.body, b).value.PopLoop(), h.cur), {})
    decreases s.body, 3
  {
    BranchTouches(s.body, b, h.cur);
    var r := CloseIfOpen(EmitBlock(s.body, b).value, h.cur);
    ShiftTouches(b, r, b, CloseIfOpen(EmitBlock(s.body, b).value.PopLoop(), h.cur), {});
    Rejoin(e, b, {h.cur + 1, h.cur + 2}, r, h.cur + 2);
    ShiftTouches(e, r.At(h.cur + 2), e, x, {h.cur + 2});
  }

  lemma {:induction false} WhileTouches(s: Stmt, e: State)
    requires s.While? && e.Valid() && e.Open() && Linked(e) && EmitWhile(s, e).Some?
    ensures var r := EmitWhile(s, e).value; r.Open() && Touches(e, r, {r.cur}) && r.blocks[r.cur] == EmptyBlock
    decreases s, 1
  {
    hide EmitCond, EmitBlock, Touches, StartLoop, OpenLoop, FlagOf;
    var h := OpenLoop(StartLoop(s, e));
    var (c, v) := EmitCond(s.cond, h).value;
    var b := EnterBody(c, v, h.cur, FlagOf(s, e));
    var x := LeaveBody(EmitBlock(s.body, b).value, h.cur);
    LoopTouches(s, e, h, c, v, b, x);
    if s.els != [] {
      LoopElseTouches(s, FlagOf(s, e), x);
      var r := EmitLoopElse(s, FlagOf(s, e), x).value;
      Onward(e, x, r, {r.cur});
    }
  }

  lemma {:induction false} LoopElseTouches(s: Stmt, flag: Option<nat>, e: State)
    requires s.While? && s.els != [] && flag.Some? && e.Valid() && e.Open() && Linked(e)
    requires EmitLoopElse(s, flag, e).Some?
    ensures var r := EmitLoopElse(s, flag, e).value; r.Open() && Touches(e, r, {r.cur}) && r.blocks[r.cur] == EmptyBlock
    ensures EmitLoopElse(s, flag, e).value.cur == |e.blocks| + 1
    ensures var t := TestFlag(e, flag.value); t.Open() && Linked(t) && Touches(t, CloseIfOpen(EmitBlock(s.els, t).value, |e.blocks| + 1), {})
    decreases s, 0
  {
    hide EmitBlock, Touches;
    var n, t := |e.blocks|, TestFlag(e, flag.value);
    TestFlagTouches(e, flag.value);
    BranchTouches(s.els, t, n + 1);
    var r := CloseIfOpen(EmitBlock(s.els, t).value, n + 1);
    Rejoin(e, t, {n, n + 1}, r, n + 1);
  }

  lemma StartMatchTouches(s: Stmt, e: State, v: Value)
    requires s.Match? && e.Valid() && e.Open()
    ensures var n, m := |e.blocks|, StartMatch(s, e, v);
            && m.Open() && m.Valid() && Touches(e, m, {m.cur, n} + Ids(n + 1, n + 1 + |s.cases|))
            && m.blocks[m.cur] == e.Append(Store(e.nextSlot, v)).blocks[e.cur]
            && (forall b: nat :: n <= b < n + 1 + |s.cases| ==> m.blocks[b] == EmptyBlock)
  {
    var n, m := |e.blocks|, StartMatch(s, e, v);
    var x := e.Append(Store(e.nextSlot, v)).blocks[e.cur];
    assert m.blocks[..n] == e.blocks[e.cur := x];
    assert m.blocks == e.blocks[e.cur := x] + m.blocks[n..];
    Local(e, m, x, m.blocks[n..], {m.cur, n} + Ids(n + 1, n + 1 + |s.cases|));
  }

  lemma {:induction false} MatchTouches(s: Stmt, e: State)
    requires s.Match? && e.Valid() && e.Open() && Linked(e) && EmitMatch(s, e).Some?
    ensures var r := EmitMatch(s, e).value; r.Open() && Touches(e, r, {r.cur})
    decreases s, 1, |s.cases| + 1
  {
    hide EmitExpr, EmitCases, Touches, Waits;
    if s.cases == [] {
      Local(e, e, e.blocks[e.cur], [], {e.cur});
    } else {
      ExprTouches(s.subject, e);
      var (e1, v) := EmitExpr(s.subject, e).value;
      StartMatchTouches(s, e1, v);
      var n, m := |e1.blocks|, StartMatch(s, e1, v);
      Onward(e, e1, m, {m.cur, n} + Ids(n + 1, n + 1 + |s.cases|));
      assert {m.cur, n} + Ids(n + 1, n + 1 + |s.cases|) == Unchecked(n, 0, |s.cases|, m.cur);
      CasesTouches(e, s, 0, e1.nextSlot, n, m);
      MoveTouches(e, EmitCases(s, 0, e1.nextSlot, n, m).value, {n}, n);
    }
  }

  // The stages of case `i`: before its check, after it, and after its body.
  ghost predicate CaseStages(s: Stmt, i: nat, slot: nat, merge: nat, e: State, c: State, k: State, t: State) {
    && s.Match? && i < |s.cases| && e.Valid()
    && c == (if i + 1 < |s.cases| then e.NewBlock() else e)
    && EmitCheck(s.cases[i], slot, merge + 1 + i, if i + 1 < |s.cases| then |e.blocks| else merge, c) == Some(k)
    && merge + 1 + i < |k.blocks|
    && EmitBlock(s.cases[i].body, k.At(merge + 1 + i)).Some?
    && t == CloseIfOpen(EmitBlock(s.cases[i].body, k.At(merge + 1 + i)).value, merge)
  }

  // What is unfinished before case `i` is checked, and after its body.
  ghost function Unchecked(merge: nat, i: nat, n: nat, check: nat): set<nat> {
    {merge} + Ids(merge + 1 + i, merge + 1 + n) + if i < n then {check} else {}
  }

  lemma CasesUnfold(s: Stmt, i: nat, slot: nat, merge: nat, e: State) returns (c: State, k: State, t: State)
    requires s.Match? && i < |s.cases| && e.Valid() && merge + |s.cases| < |e.blocks| && EmitCases(s, i, slot, merge, e).Some?
    ensures CaseStages(s, i, slot, merge, e, c, k, t) && GrownInScope(e, c) && GrownInScope(e, k) && GrownInScope(e, t)
    ensures |e.blocks| <= |k.blocks| <= |t.blocks|
    ensures if i + 1 < |s.cases| then |e.blocks| < |t.blocks| && EmitCases(s, i, slot, merge, e) == EmitCases(s, i + 1, slot, merge, t.At(|e.blocks|))
            else EmitCases(s, i, slot, merge, e) == Some(t)
  {
    hide EmitCheck, EmitBlock, CloseIfOpen;
    c := if i + 1 < |s.cases| then e.NewBlock() else e;
    k := EmitCheck(s.cases[i], slot, merge + 1 + i, if i + 1 < |s.cases| then |e.blocks| else merge, c).value;
    t := CloseIfOpen(EmitBlock(s.cases[i].body, k.At(merge + 1 + i)).value, merge);
  }

  // The case after case `i` waits for its check in block `next`.
  lemma UncheckedNext(merge: nat, i: nat, n: nat, cur: nat, next: nat)
    requires i < n && (cur < merge || merge + n < cur) && merge + n < next && cur < next
    ensures var body, miss := merge + 1 + i, if i + 1 < n then {next} else {};
            var left := Unchecked(merge, i, n, cur) - {cur} + ({cur} + miss) - {cur} + {};
            body in Unchecked(merge, i, n, cur) && cur in Unchecked(merge, i, n, cur)
            && body in left && left - {body} + {} == Unchecked(merge, i + 1, n, next)
  {
    var body, miss := merge + 1 + i, if i + 1 < n then {next} else {};
    var left := Unchecked(merge, i, n, cur) - {cur} + ({cur} + miss) - {cur} + {};
    assert left == {merge} + Ids(body, merge + 1 + n) + miss;
    assert left - {body} + {} == Unchecked(merge, i + 1, n, next);
  }

  lemma LastUnchecked(merge: nat, n: nat, next: nat)
    ensures Unchecked(merge, n, n, next) == {merge}
    ensures forall i :: 0 <= i < n ==> next in Unchecked(merge, i, n, next)
  {
  }

  lemma MissTouches(e: State, more: bool)
    requires e.Valid() && e.Open()
    ensures var c := if more then e.NewBlock() else e;
            c.Open() && Touches(e, c, {e.cur} + if more then {|e.blocks|} else {})
  {
    var c := if more then e.NewBlock() else e;
    Local(e, c, e.blocks[e.cur], if more then [EmptyBlock] else [], {e.cur} + if more then {|e.blocks|} else {});
  }

  lemma CaseChain(e0: State, e: State, c: State, k: State, t: State, merge: nat, i: nat, n: nat)
    requires e.Valid() && i < n && merge + n < |e.blocks| && (e.cur < merge || merge + n < e.cur)
    requires Touches(e0, e, Unchecked(merge, i, n, e.cur)) && Linked(k)
    requires c == (if i + 1 < n then e.NewBlock() else e) && Touches(c, k, {}) && Touches(k.At(merge + 1 + i), t, {})
    ensures Touches(e0, t, Unchecked(merge, i + 1, n, |e.blocks|))
    ensures i + 1 < n ==> Waits(t, |e.blocks|) && t.blocks[|e.blocks|] == EmptyBlock
    ensures forall b: nat {:trigger Kept(e, t, b)} :: b < |e.blocks| && b != e.cur && b != merge + 1 + i ==> Kept(e, t, b)
  {
    hide Touches, Unchecked;
    var body, more := merge + 1 + i, i + 1 < n;
    var open, miss := Unchecked(merge, i, n, e.cur), if more then {|e.blocks|} else {};
    UncheckedNext(merge, i, n, e.cur, |e.blocks|);
    WaitsBy(e0, e, open, e.cur);
    MissTouches(e, more);
    Chain(e0, e, open, c, {e.cur} + miss);
    Chain(e0, c, open - {e.cur} + ({e.cur} + miss), k, {});
    CaseKeeps(e, c, k, t, body, more);
    var left := open - {e.cur} + ({e.cur} + miss) - {c.cur} + {};
    MoveTouches(e0, k, left, body);
    Chain(e0, k.At(body), left, t, {});
    if more {
      KeptBy(c, k, {}, |e.blocks|);
      KeptBy(k.At(body), t, {}, |e.blocks|);
    }
  }

  // Everything but the current block and the case's own body is as it was.
  lemma CaseKeeps(e: State, c: State, k: State, t: State, body: nat, more: bool)
    requires e.Valid() && e.Open() && body < |e.blocks|
    requires c == (if more then e.NewBlock() else e) && Touches(c, k, {}) && Touches(k.At(body), t, {})
    ensures forall b: nat {:trigger Kept(e, t, b)} :: b < |e.blocks| && b != e.cur && b != body ==> Kept(e, t, b)
  {
    hide Touches;
    forall b: nat | b < |e.blocks| && b != e.cur && b != body
      ensures Kept(e, t, b)
    {
      KeptBy(c, k, {}, b);
      KeptBy(k.At(body), t, {}, b);
    }
  }

  /** The checks from case `i` on, within code that started at `e0`. */
  lemma {:induction false} CasesTouches(e0: State, s: Stmt, i: nat, slot: nat, merge: nat, e: State)
    requires s.Match? && i < |s.cases| && e.Valid() && e.Open() && Linked(e) && merge + |s.cases| < |e.blocks|
    requires e.cur < merge || merge + |s.cases| < e.cur
    requires Touches(e0, e, Unchecked(merge, i, |s.cases|, e.cur))
    requires e.blocks[merge] == EmptyBlock && EmitCases(s, i, slot, merge, e).Some?
    ensures var r := EmitCases(s, i, slot, merge, e).value;
            Touches(e0, r, {merge}) && r.blocks[merge] == EmptyBlock
    decreases s, 1, |s.cases| - i
  {
    hide EmitCheck, EmitBlock, EmitCases, CloseIfOpen, Touches, Unchecked;
    var c, k, t := CasesUnfold(s, i, slot, merge, e);
    CaseTouches(e0, s, i, slot, merge, e, c, k, t);
    assert Kept(e, t, merge);
    LastUnchecked(merge, |s.cases|, |e.blocks|);
    if i + 1 < |s.cases| {
      MoveTouches(e0, t, Unchecked(merge, i + 1, |s.cases|, |e.blocks|), |e.blocks|);
      CasesTouches(e0, s, i + 1, slot, merge, t.At(|e.blocks|));
    }
  }

  lemma {:induction false} CaseTouches(e0: State, s: Stmt, i: nat, slot: nat, merge: nat, e: State, c: State, k: State, t: State)
    requires CaseStages(s, i, slot, merge, e, c, k, t) && e.Open() && Linked(e) && merge + |s.cases| < |e.blocks|
    requires e.cur < merge || merge + |s.cases| < e.cur
    requires Touches(e0, e, Unchecked(merge, i, |s.cases|, e.cur))
    ensures Touches(c, k, {}) && k.At(merge + 1 + i).Open() && Linked(k.At(merge + 1 + i))
    ensures Touches(k.At(merge + 1 + i), t, {})
    ensures k.blocks[merge + 1 + i] == e.blocks[merge + 1 + i]
    ensures Touches(e0, t, Unchecked(merge, i + 1, |s.cases|, |e.blocks|))
    ensures i + 1 < |s.cases| ==> Waits(t, |e.blocks|) && t.blocks[|e.blocks|] == EmptyBlock
    ensures forall b: nat {:trigger Kept(e, t, b)} :: b < |e.blocks| && b != e.cur && b != merge + 1 + i ==> Kept(e, t, b)
    decreases s, 0
  {
    hide EmitCheck, EmitBlock, CloseIfOpen, Touches, Unchecked, Linked;
    var body := merge + 1 + i;
    BodyBlock(e0, s, i, slot, merge, e, c, k, t);
    BranchTouches(s.cases[i].body, k.At(body), merge);
    CaseChain(e0, e, c, k, t, merge, i, |s.cases|);
  }

  // The body of a case goes into a block that its check left as it was.
  lemma BodyBlock(e0: State, s: Stmt, i: nat, slot: nat, merge: nat, e: State, c: State, k: State, t: State)
    requires CaseStages(s, i, slot, merge, e, c, k, t) && e.Open() && Linked(e) && merge + |s.cases| < |e.blocks|
    requires e.cur < merge || merge + |s.cases| < e.cur
    requires Touches(e0, e, Unchecked(merge, i, |s.cases|, e.cur))
    ensures Touches(c, k, {}) && k.At(merge + 1 + i).Valid() && k.At(merge + 1 + i).Open() && Linked(k.At(merge + 1 + i)) && Linked(k)
    ensures k.blocks[merge + 1 + i] == e.blocks[merge + 1 + i]
  {
    hide EmitCheck, EmitBlock, CloseIfOpen, Touches, Unchecked;
    var body, more := merge + 1 + i, i + 1 < |s.cases|;
    MissTouches(e, more);
    CheckTouches(s.cases[i], slot, body, if more then |e.blocks| else merge, c);
    UncheckedNext(merge, i, |s.cases|, e.cur, |e.blocks|);
    WaitsBy(e0, e, Unchecked(merge, i, |s.cases|, e.cur), body);
    KeptBy(e, c, {e.cur} + if more then {|e.blocks|} else {}, body);
    KeptBy(c, k, {}, body);
  }

  lemma {:induction false} CheckTouches(c: Case, slot: nat, body: nat, miss: nat, e: State)
    requires e.Valid() && e.Open() && Linked(e) && body < |e.blocks| && miss < |e.blocks|
    requires EmitCheck(c, slot, body, miss, e).Some?
    ensures var r := EmitCheck(c, slot, body, miss, e).value; Touches(e, r, {})
  {
    hide EmitPattern, Touches;
    var guardB := |e.blocks|;
    if c.guard.None? {
      PatternTouches(c.pattern, slot, body, miss, e);
    } else {
      var e1 := e.NewBlock();
      MissTouches(e, true);
      PatternTouches(c.pattern, slot, guardB, miss, e1);
      var e2 := EmitPattern(c.pattern, slot, guardB, miss, e1).value;
      assert {e.cur} + {guardB} == {guardB, e1.cur};
      Rejoin(e, e1, {e.cur} + {guardB}, e2, guardB);
      CondTouches(c.guard.value, e2.At(guardB));
      var (e3, v) := EmitCond(c.guard.value, e2.At(guardB)).value;
      Onward(e, e2.At(guardB), e3, {e3.cur});
      ChainClose(e, e3, {e3.cur}, CondBr(v, body, miss));
      assert {e3.cur} - {e3.cur} == {};
    }
  }

  lemma PatternTouches(pattern: Option<Expr>, slot: nat, hit: nat, miss: nat, e: State)
    requires e.Valid() && e.Open() && Linked(e) && hit < |e.blocks| && miss < |e.blocks|
    requires EmitPattern(pattern, slot, hit, miss, e).Some?
    ensures var r := EmitPattern(pattern, slot, hit, miss, e).value; Touches(e, r, {})
  {
    if pattern.None? {
      CloseTouches(e, Br(hit));
    } else {
      var g := e.nextReg;
      AppendTouches(e, Load(g, slot));
      var e1 := Define(e, Load(g, slot));
      ExprTouches(pattern.value, e1);
      var (e2, w) := EmitExpr(pattern.value, e1).value;
      Onward(e, e1, e2, {e2.cur});
      ChainAppend(e, e2, Compare(e2.nextReg, Eq, Reg(g), w));
      var e3 := Define(e2, Compare(e2.nextReg, Eq, Reg(g), w));
      ChainClose(e, e3, {e3.cur}, CondBr(Reg(e2.nextReg), hit, miss));
      assert {e3.cur} - {e3.cur} == {};
    }
  }

  lemma {:induction false} SaveTouches(i: nat, e: State)
    requires e.Valid() && e.Open() && i <= |e.tracked|
    ensures SaveFrom(i, e).Open() && Touches(e, SaveFrom(i, e), {e.cur})
    decreases |e.tracked| - i
  {
    if i == |e.tracked| {
      Local(e, e, e.blocks[e.cur], [], {e.cur});
    } else {
      var e1 := Define(e, Load(e.nextReg, e.tracked[i]));
      AppendTouches(e, Load(e.nextReg, e.tracked[i]));
      ChainAppend(e, e1, StoreSaved(i, Reg(e.nextReg)));
      var e2 := e1.Append(StoreSaved(i, Reg(e.nextReg)));
      SaveTouches(i + 1, e2);
      Onward(e, e2, SaveFrom(i + 1, e2), {e.cur});
    }
  }

  lemma {:induction false} RestoreTouches(i: nat, e: State)
    requires e.Valid() && e.Open() && i <= |e.tracked|
    ensures RestoreFrom(i, e).Open() && Touches(e, RestoreFrom(i, e), {e.cur})
    decreases |e.tracked| - i
  {
    if i == |e.tracked| {
      Local(e, e, e.blocks[e.cur], [], {e.cur});
    } else {
      var e1 := Define(e, LoadSaved(e.nextReg, i));
      AppendTouches(e, LoadSaved(e.nextReg, i));
      ChainAppend(e, e1, Store(e.tracked[i], Reg(e.nextReg)));
      var e2 := e1.Append(Store(e.tracked[i], Reg(e.nextReg)));
      RestoreTouches(i + 1, e2);
      Onward(e, e2, RestoreFrom(i + 1, e2), {e.cur});
    }
  }

  lemma SplitTouches(v: Value, e: State)
    requires e.Valid() && e.Open() && Linked(e)
    ensures var ret, r := |e.blocks|, Split(v, e);
            && r.Valid() && r.Open() && Touches(e, r, {ret + 1})
            && r.blocks[e.cur] == e.Close(Br(ret)).blocks[e.cur]
            && r.blocks[ret] == Block([], Some(Ret(Some(v)))) && r.blocks[ret + 1] == EmptyBlock
  {
    var ret, r := |e.blocks|, Split(v, e);
    var x := e.Close(Br(ret)).blocks[e.cur];
    assert r.blocks == e.blocks[e.cur := x] + [Block([], Some(Ret(Some(v)))), EmptyBlock];
    Local(e, r, x, [Block([], Some(Ret(Some(v)))), EmptyBlock], {ret + 1});
  }

  lemma SuspendTouches(v: Value, e: State)
    requires e.Valid() && e.Open() && Linked(e)
    ensures var r := Suspend(v, e); r.Valid() && r.Open() && Touches(e, r, {r.cur})
  {
    hide Touches, SaveFrom;
    SaveTouches(0, e);
    var e1 := SaveFrom(0, e);
    ChainAppend(e, e1, SetState(|e.resume|));
    SplitTouches(v, e1.Append(SetState(|e.resume|)));
    Onward(e, e1.Append(SetState(|e.resume|)), Suspend(v, e), {|e.blocks| + 1});
  }

  lemma FinishYieldTouches(v: Value, e: State)
    requires e.Valid() && e.Open() && Linked(e)
    ensures var r := FinishYield(v, e); r.Open() && Touches(e, r, {r.cur}) && r == RestoreFrom(0, Suspend(v, e))
  {
    SuspendTouches(v, e);
    var e1 := Suspend(v, e);
    RestoreTouches(0, e1);
    Onward(e, e1, RestoreFrom(0, e1), {e1.cur});
  }

  lemma YieldTouches(x: Option<Expr>, e: State)
    requires e.Valid() && e.Open() && Linked(e) && EmitYield(x, e).Some?
    ensures var r := EmitYield(x, e).value; r.Open() && Touches(e, r, {r.cur})
  {
    if !e.gen {
      Local(e, e, e.blocks[e.cur], [], {e.cur});
    } else if x.None? {
      FinishYieldTouches(Imm(0), e);
    } else {
      ExprTouches(x.value, e);
      var (e1, v) := EmitExpr(x.value, e).value;
      FinishYieldTouches(v, e1);
      var r := FinishYield(v, e1);
      Onward(e, e1, r, {r.cur});
    }
  }
}
