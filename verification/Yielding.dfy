/** A yield: the tracked slots are saved, the call returns, and the next call restores them. */
module Yielding {
  import opened Wrappers
  import opened Ast
  import opened Semantics
  import opened Machine
  import opened Emit
  import opened Shape
  import opened Running
  import opened Simulation

  // The first `i` tracked slots are saved.
  ghost predicate SavedUpTo(i: nat, tracked: seq<nat>, mem: map<nat, Int64>, saved: map<nat, Int64>) {
    forall j {:trigger Get(saved, j)} :: 0 <= j < i && j < |tracked| ==> Get(saved, j) == Get(mem, tracked[j])
  }

  // The first `i` tracked slots hold what they held in `was`.
  ghost predicate RestoredUpTo(i: nat, tracked: seq<nat>, was: map<nat, Int64>, mem: map<nat, Int64>) {
    forall j {:trigger tracked[j]} :: 0 <= j < i && j < |tracked| ==> Get(mem, tracked[j]) == Get(was, tracked[j])
  }

  // The slots that are not tracked are left alone.
  ghost predicate Untracked(tracked: seq<nat>, was: map<nat, Int64>, mem: map<nat, Int64>) {
    forall k: nat {:trigger Get(mem, k)} :: k !in tracked ==> Get(mem, k) == Get(was, k)
  }

  lemma SaveHas(m: Machine, i: nat, e: State)
    requires e.Valid() && e.Open() && i < |e.tracked| && Has(m, SaveFrom(i, e))
    ensures var e1 := Define(e, Load(e.nextReg, e.tracked[i]));
            Has(m, e.Append(Load(e.nextReg, e.tracked[i]))) && Has(m, e1.Append(StoreSaved(i, Reg(e.nextReg))))
  {
    hide Touches;
    var e1 := Define(e, Load(e.nextReg, e.tracked[i]));
    var e2 := e1.Append(StoreSaved(i, Reg(e.nextReg)));
    SaveTouches(i + 1, e2);
    HasEarlier(m, e2, SaveFrom(i + 1, e2), {e.cur});
    AppendTouches(e1, StoreSaved(i, Reg(e.nextReg)));
    HasEarlier(m, e1, e2, {e.cur});
  }

  lemma {:induction false} SaveRuns(m: Machine, i: nat, e: State, c: Config) returns (n: nat, d: Config)
    requires e.Valid() && e.Open() && i <= |e.tracked| && Has(m, SaveFrom(i, e)) && AtEnd(c, e)
    requires SavedUpTo(i, e.tracked, c.mem, c.rec.saved)
    ensures Steps(m, c, n) == d && AtEnd(d, SaveFrom(i, e)) && d.mem == c.mem && d.out == c.out
    ensures SameBelow(c.regs, d.regs, e.nextReg) && SavedUpTo(|e.tracked|, e.tracked, c.mem, d.rec.saved)
    decreases |e.tracked| - i
  {
    hide Has;
    if i == |e.tracked| {
      n, d := 0, c;
    } else {
      var e1 := Define(e, Load(e.nextReg, e.tracked[i]));
      var e2 := e1.Append(StoreSaved(i, Reg(e.nextReg)));
      SaveHas(m, i, e);
      FetchInstr(m, e, c, Load(e.nextReg, e.tracked[i]));
      var c1 := Step(m, c);
      FetchInstr(m, e1, c1, StoreSaved(i, Reg(e.nextReg)));
      var c2 := Step(m, c1);
      Then(m, c, 0, c);
      Then(m, c, 1, c1);
      assert c2.rec.saved == c.rec.saved[i := Get(c.mem, e.tracked[i])];
      forall j | 0 <= j < i + 1
        ensures Get(c2.rec.saved, j) == Get(c.mem, e.tracked[j])
      {
        assert j < i ==> Get(c.rec.saved, j) == Get(c.mem, e.tracked[j]);
      }
      var n2;
      n2, d := SaveRuns(m, i + 1, e2, c2);
      n := 2 + n2;
      StepsAdd(m, c, 2, n2);
      forall k: nat | k < e.nextReg
        ensures Get(d.regs, k) == Get(c.regs, k)
      {
        assert Get(c2.regs, k) == Get(c.regs, k);
      }
    }
  }

  lemma RestoreHas(m: Machine, i: nat, e: State)
    requires e.Valid() && e.Open() && i < |e.tracked| && Has(m, RestoreFrom(i, e))
    ensures var e1 := Define(e, LoadSaved(e.nextReg, i));
            Has(m, e.Append(LoadSaved(e.nextReg, i))) && Has(m, e1.Append(Store(e.tracked[i], Reg(e.nextReg))))
  {
    hide Touches;
    var e1 := Define(e, LoadSaved(e.nextReg, i));
    var e2 := e1.Append(Store(e.tracked[i], Reg(e.nextReg)));
    RestoreTouches(i + 1, e2);
    HasEarlier(m, e2, RestoreFrom(i + 1, e2), {e.cur});
    AppendTouches(e1, Store(e.tracked[i], Reg(e.nextReg)));
    HasEarlier(m, e1, e2, {e.cur});
  }

  // One tracked slot is restored.
  lemma RestoreOne(m: Machine, i: nat, e: State, was: map<nat, Int64>, c: Config) returns (d: Config)
    requires e.Valid() && e.Open() && i < |e.tracked| && Has(m, RestoreFrom(i, e)) && AtEnd(c, e)
    requires SavedUpTo(|e.tracked|, e.tracked, was, c.rec.saved) && RestoredUpTo(i, e.tracked, was, c.mem)
    ensures var e2 := Define(e, LoadSaved(e.nextReg, i)).Append(Store(e.tracked[i], Reg(e.nextReg)));
            Steps(m, c, 2) == d && AtEnd(d, e2) && d.out == c.out && d.rec == c.rec && e2.Open()
    ensures RestoredUpTo(i + 1, e.tracked, was, d.mem) && Untracked(e.tracked, c.mem, d.mem)
  {
    hide Has, RestoreFrom;
    var e1 := Define(e, LoadSaved(e.nextReg, i));
    RestoreHas(m, i, e);
    FetchInstr(m, e, c, LoadSaved(e.nextReg, i));
    var c1 := Step(m, c);
    FetchInstr(m, e1, c1, Store(e.tracked[i], Reg(e.nextReg)));
    d := Step(m, c1);
    Then(m, c, 0, c);
    Then(m, c, 1, c1);
    assert Get(c.rec.saved, i) == Get(was, e.tracked[i]);
    assert d.mem == c.mem[e.tracked[i] := Get(was, e.tracked[i])];
  }

  lemma {:induction false} RestoreRuns(m: Machine, i: nat, e: State, was: map<nat, Int64>, c: Config) returns (n: nat, d: Config)
    requires e.Valid() && e.Open() && i <= |e.tracked| && Has(m, RestoreFrom(i, e)) && AtEnd(c, e)
    requires SavedUpTo(|e.tracked|, e.tracked, was, c.rec.saved) && RestoredUpTo(i, e.tracked, was, c.mem)
    ensures Steps(m, c, n) == d && AtEnd(d, RestoreFrom(i, e)) && d.out == c.out && d.rec == c.rec
    ensures RestoredUpTo(|e.tracked|, e.tracked, was, d.mem) && Untracked(e.tracked, c.mem, d.mem)
    decreases |e.tracked| - i
  {
    hide Has, SavedUpTo, RestoredUpTo, Get;
    if i == |e.tracked| {
      n, d := 0, c;
    } else {
      var c2 := RestoreOne(m, i, e, was, c);
      var n2;
      n2, d := RestoreRuns(m, i + 1, Define(e, LoadSaved(e.nextReg, i)).Append(Store(e.tracked[i], Reg(e.nextReg))), was, c2);
      n := 2 + n2;
      StepsAdd(m, c, 2, n2);
      UntrackedTrans(e.tracked, c.mem, c2.mem, d.mem);
    }
  }

  lemma UntrackedTrans(tracked: seq<nat>, m0: map<nat, Int64>, m1: map<nat, Int64>, m2: map<nat, Int64>)
    requires Untracked(tracked, m0, m1) && Untracked(tracked, m1, m2)
    ensures Untracked(tracked, m0, m2)
  {
    forall k: nat | k !in tracked
      ensures Get(m2, k) == Get(m0, k)
    {
      assert Get(m1, k) == Get(m0, k);
    }
  }

  // The record a call with state `k` starts from, after the values `out` were returned.
  ghost function Resumed(m: Machine, rec: Record, out: seq<Int64>): Config {
    Run(0, 0, 0, map[], m.junk(|out|), rec, out)
  }

  /** The entry block and the switch lead a new call to the resume block of its state. */
  lemma DispatchRuns(m: Machine, rec: Record, out: seq<Int64>) returns (d: Config)
    requires m.prog.gen && Enters(m) && 0 <= rec.state < |m.prog.resume|
    ensures Steps(m, Resumed(m, rec, out), 2) == d && d.Run? && d.block == m.prog.resume[rec.state] && d.pc == 0
    ensures d.mem == m.junk(|out|) && d.rec == rec && d.out == out
  {
    var c := Resumed(m, rec, out);
    var c1 := Step(m, c);
    d := Step(m, c1);
    Then(m, c, 0, c);
    Then(m, c, 1, c1);
  }

  lemma SuspendHas(m: Machine, v: Value, e: State)
    requires e.Valid() && e.Open() && Linked(e) && Loaded(m, FinishYield(v, e))
    ensures Has(m, Suspend(v, e)) && Suspend(v, e).Open() && Suspend(v, e).cur == |e.blocks| + 1
    ensures Suspend(v, e).blocks[|e.blocks| + 1] == EmptyBlock
    ensures |e.resume| < |m.prog.resume| && m.prog.resume[|e.resume|] == |e.blocks| + 1
  {
    hide Touches, SaveFrom, RestoreFrom, Has;
    var u, e1 := Suspend(v, e), SaveFrom(0, e).Append(SetState(|e.resume|));
    SaveTouches(0, e);
    SplitTouches(v, e1);
    RestoreTouches(0, u);
    HasEarlier(m, u, FinishYield(v, e), {u.cur});
    assert u.resume[|e.resume|] == |e.blocks| + 1;
  }

  lemma SavedHas(m: Machine, v: Value, s: State, k: int)
    requires s.Valid() && s.Open() && Linked(s) && Has(m, Split(v, s.Append(SetState(k))))
    ensures Has(m, s) && Has(m, s.Append(SetState(k))) && Has(m, s.Append(SetState(k)).Close(Br(|s.blocks|)))
    ensures |s.blocks| < |m.prog.blocks| && m.prog.blocks[|s.blocks|] == Block([], Some(Ret(Some(v))))
  {
    hide Touches, Has, Split;
    var e1 := s.Append(SetState(k));
    AppendTouches(s, SetState(k));
    SplitTouches(v, e1);
    SplitHas(m, v, e1);
    HasEarlier(m, e1, Split(v, e1), {|s.blocks| + 1});
    HasEarlier(m, s, e1, {s.cur});
  }

  lemma SplitHas(m: Machine, v: Value, e: State)
    requires e.Valid() && e.Open() && Linked(e) && Has(m, Split(v, e))
    ensures Has(m, e.Close(Br(|e.blocks|))) && |e.blocks| < |m.prog.blocks|
    ensures m.prog.blocks[|e.blocks|] == Block([], Some(Ret(Some(v))))
  {
    hide Touches;
    var r, p := Split(v, e), m.prog.blocks;
    SplitTouches(v, e);
    assert ExtendsAt(r.blocks, p, |e.blocks|);
    HasEarlier(m, e, r, {|e.blocks| + 1});
    forall b: nat
      ensures ExtendsAt(e.Close(Br(|e.blocks|)).blocks, p, b)
    {
      assert ExtendsAt(e.blocks, p, b) && ExtendsAt(r.blocks, p, b);
    }
  }

  lemma NothingSaved(e: State, c: Config)
    requires c.Run?
    ensures SavedUpTo(0, e.tracked, c.mem, c.rec.saved)
  {
  }

  /** Sets the next state and returns from block `b`. */
  lemma HandOver(m: Machine, v: Value, s: State, k: nat, b: nat, c: Config)
    requires s.Valid() && Has(m, s.Append(SetState(k))) && Has(m, s.Append(SetState(k)).Close(Br(b))) && AtEnd(c, s)
    requires b < |m.prog.blocks| && m.prog.blocks[b] == Block([], Some(Ret(Some(v)))) && m.prog.gen
    ensures Steps(m, c, 3) == Resumed(m, c.rec.(state := k), c.out + [ValueIn(v, c.regs)])
  {
    FetchInstr(m, s, c, SetState(k));
    var c2 := Step(m, c);
    FetchTerm(m, s.Append(SetState(k)), c2, Br(b));
    var c3 := Step(m, c2);
    assert Step(m, c3) == Resumed(m, c.rec.(state := k), c.out + [ValueIn(v, c.regs)]);
    Then(m, c, 0, c);
    Then(m, c, 1, c2);
    Then(m, c, 2, c3);
  }

  /** Up to the start of the resume block, in the next call. */
  lemma SuspendRuns(m: Machine, v: Value, value: Int64, e: State, c: Config) returns (n: nat, d: Config)
    requires e.Valid() && e.Open() && Linked(e) && Loaded(m, FinishYield(v, e)) && m.prog.gen && Enters(m)
    requires AtEnd(c, e) && Known(v, e.nextReg) && ValueIn(v, c.regs) == value
    ensures Steps(m, c, n) == d && AtEnd(d, Suspend(v, e)) && d.out == c.out + [value]
    ensures SavedUpTo(|e.tracked|, e.tracked, c.mem, d.rec.saved) && d.mem == m.junk(|c.out| + 1)
  {
    hide Has, Touches, SaveFrom, SavedUpTo, FinishYield, Steps, Split, Enters;
    SuspendHas(m, v, e);
    var s := SaveFrom(0, e);
    SaveTouches(0, e);
    SavedHas(m, v, s, |e.resume|);
    var e1 := s.Append(SetState(|e.resume|));
    NothingSaved(e, c);
    var n1, c1 := SaveRuns(m, 0, e, c);
    ValueKept(v, c.regs, c1.regs, e.nextReg);
    var rec := c1.rec.(state := |e.resume|);
    HandOver(m, v, s, |e.resume|, |e.blocks|, c1);
    StepsAdd(m, c, n1, 3);
    d := DispatchRuns(m, rec, c.out + [value]);
    n := n1 + 3 + 2;
    StepsAdd(m, c, n1 + 3, 2);
  }

  lemma FinishYieldRuns(m: Machine, v: Value, value: Int64, e: State, c: Config) returns (n: nat, d: Config)
    requires e.Valid() && e.Open() && Linked(e) && Loaded(m, FinishYield(v, e)) && m.prog.gen && Enters(m)
    requires AtEnd(c, e) && Known(v, e.nextReg) && ValueIn(v, c.regs) == value
    ensures Steps(m, c, n) == d && AtEnd(d, FinishYield(v, e)) && d.out == c.out + [value]
    ensures RestoredUpTo(|e.tracked|, e.tracked, c.mem, d.mem) && Untracked(e.tracked, m.junk(|c.out| + 1), d.mem)
  {
    hide Has, Touches, SaveFrom, RestoreFrom;
    SuspendHas(m, v, e);
    var n1, c1 := SuspendRuns(m, v, value, e, c);
    var n2;
    n2, d := RestoreRuns(m, 0, Suspend(v, e), c.mem, c1);
    n := n1 + n2;
    StepsAdd(m, c, n1, n2);
  }

  /** Whatever the slots held at the start of the next call, every name in scope has its value back. */
  lemma RestoredHolds(e: State, env: Env, was: map<nat, Int64>, mem: map<nat, Int64>)
    requires e.gen && Sound(e) && Holds(e.scopes, env, was) && RestoredUpTo(|e.tracked|, e.tracked, was, mem)
    ensures Holds(e.scopes, env, mem)
  {
    forall x
      ensures SlotHolds(Lookup(e.scopes, x), x, env, mem)
    {
      assert SlotHolds(Lookup(e.scopes, x), x, env, was);
      if Lookup(e.scopes, x).Some? {
        var j :| 0 <= j < |e.tracked| && e.tracked[j] == Lookup(e.scopes, x).value;
      }
    }
  }

  // The yielded value, where there is none a zero.
  lemma YieldedValueRuns(m: Machine, f: Frame, x: Option<Expr>, e: State, e1: State, v: Value, env: Env, c: Config) returns (n: nat, d: Config)
    requires Ready(m, f, e, env, c) && e.gen && (if x.None? then (e1, v) == (e, Imm(0)) else EmitExpr(x.value, e) == Some((e1, v)))
    requires Has(m, FinishYield(v, e1))
    ensures x.Some? ==> Eval(x.value, env).Some?
    ensures Steps(m, c, n) == d && Ready(m, f, e1, env, d) && Known(v, e1.nextReg) && d.out == c.out
    ensures ValueIn(v, d.regs) == (if x.None? then 0 else Eval(x.value, env).value) && d.mem == c.mem
  {
    hide Has, Touches, Yielded, FinishYield, EmitExpr, Eval;
    if x.None? {
      n, d := 0, c;
    } else {
      ExprTouches(x.value, e);
      FinishYieldTouches(v, e1);
      HasEarlier(m, e1, FinishYield(v, e1), {FinishYield(v, e1).cur});
      n, d := ExprRuns(m, x.value, e, env, c);
      YieldedAt(m, e, e1, v, Eval(x.value, env).value, c, n, d);
      ReadyGrows(m, f, e, env, c, e1, env, d);
    }
  }

  lemma UnmovedLands(m: Machine, f: Frame, env: Env, fuel: nat, c: Config)
    requires c.Run?
    ensures Lands(m, f, Result(Fell, env, []), fuel, c, 0, c)
  {
    assert c.out + [] == c.out;
  }

  lemma YieldRuns(m: Machine, f: Frame, x: Option<Expr>, e: State, env: Env, fuel: nat, c: Config) returns (n: nat, d: Config)
    requires Ready(m, f, e, env, c) && EmitYield(x, e).Some? && Loaded(m, EmitYield(x, e).value)
    ensures var y := Exec(Yield(x), env, PlaceOf(f), fuel);
            Lands(m, f, y, fuel, c, n, d) && FellTo(m, f, EmitYield(x, e).value, y, d)
  {
    hide Has, Touches, FinishYield, EmitYield, EmitExpr, Eval, Sound, Holds, Fits, Enters, RestoredUpTo, Untracked, KeepsFlags, KeepsFlag, Lands, Steps,
         Below, Private, SameNames;
    FitsGen(f, e);
    YieldUnfolds(x, e);
    if !e.gen {
      n, d := 0, c;
      UnmovedLands(m, f, env, fuel, c);
    } else {
      var (e1, v) := if x.None? then (e, Imm(0)) else EmitExpr(x.value, e).value;
      var n1, c1 := YieldedValueRuns(m, f, x, e, e1, v, env, c);
      FinishYieldTouches(v, e1);
      var n2;
      n2, d := FinishYieldRuns(m, v, ValueIn(v, c1.regs), e1, c1);
      n := n1 + n2;
      StepsAdd(m, c, n1, n2);
      RestoredHolds(e1, env, c1.mem, d.mem);
      ReadyGrows(m, f, e1, env, c1, FinishYield(v, e1), env, d);
      YieldedLands(m, f, e1, env, fuel, ValueIn(v, c1.regs), c, c1, n, d);
    }
  }

  /** A yield lands where its value is on the trace; the flags hold what the stack held. */
  lemma YieldedLands(m: Machine, f: Frame, e: State, env: Env, fuel: nat, value: Int64, c: Config, c1: Config, n: nat, d: Config)
    requires c.Run? && c1.Run? && d.Run? && Steps(m, c, n) == d && c1.out == c.out && d.out == c1.out + [value]
    requires Fits(f, e) && Untracked(e.tracked, m.junk(|c1.out| + 1), d.mem)
    ensures Lands(m, f, Result(Fell, env, [value]), fuel, c, n, d)
  {
    hide Steps;
    forall k | Private(e, k)
      ensures Get(d.mem, k) == Carried(m, c, d, k)
    {
    }
  }
}
