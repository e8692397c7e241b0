/** A flag that does not survive a yield, and what that does to a generator. */
module FlagLoss {
  import opened Wrappers
  import opened Ast
  import opened Semantics
  import opened Machine
  import opened Emit
  import opened Lowering
  import opened Flagged

  // while x < 1: x = 1, yield;  else: yield 7
  const LOOP: Stmt := While(Cmp(Lt, Var("x"), Lit(1)), [Assign("x", Lit(1)), Yield(None)], [Yield(Some(Lit(7)))])

  const BEFORE: Env := map["x" := 0]
  const AFTER: Env := map["x" := 1]

  lemma LoopFlags()
    ensures ContainsYield([LOOP]) && !FlagsSafe([LOOP])
  {
    assert LOOP.body[1..] == [Yield(None)];
    assert ContainsYield(LOOP.body[1..]) && HasYield(LOOP.body[1..]);
  }

  lemma OneDone(s: Stmt, w: Where, env: Env, p: Place, fuel: nat)
    ensures DoList([s], w, env, p, fuel) == Do(s, w, env, p, fuel)
  {
    hide Do;
    assert [s][1..] == [];
    var r := Do(s, w, env, p, fuel);
    assert r.trace + [] == r.trace;
  }

  lemma BodyYields(w: Where, fuel: nat)
    ensures DoBlock(LOOP.body, w, BEFORE, Place(true, true), fuel) == Result(Fell, AFTER, [0])
  {
    var body, p := LOOP.body, Place(true, true);
    var v := w.Past(StmtSlots(body[0], BEFORE.Keys, p)).After([]);
    assert BEFORE["x" := 1] == AFTER;
    assert Do(body[0], w, BEFORE, p, fuel) == Result(Fell, AFTER, []);
    OneDone(Yield(None), v, AFTER, p, fuel);
    assert body[1..] == [Yield(None)];
    assert [] + [0] == [0];
    assert DoList(body, w, BEFORE, p, fuel) == Result(Fell, AFTER, [0]);
    assert Restrict(AFTER, BEFORE.Keys) == AFTER;
  }

  lemma ElseYields(w: Where, fuel: nat)
    ensures DoBlock(LOOP.els, w, AFTER, Place(true, false), fuel) == Result(Fell, AFTER, [7])
  {
    OneDone(Yield(Some(Lit(7))), w, AFTER, Place(true, false), fuel);
    assert Restrict(AFTER, AFTER.Keys) == AFTER;
  }

  /** The condition fails after one yield: the else branch runs if the flag reads zero. */
  lemma LoopExits(w: Where, since: nat)
    requires w.returned == since + 1
    ensures DoLoop(LOOP, w, since, AFTER, Place(true, false), 1) ==
            Result(Fell, AFTER, if Get(w.stack(w.returned), w.slot) == 0 then [7] else [])
  {
    hide DoBlock, DoLoop, Slots;
    DoLoopUnfolds(LOOP, w, since, AFTER, Place(true, false), 1);
    ElseYields(w.Past(1 + Slots(LOOP.body, AFTER.Keys, Place(true, true))), 1);
  }

  /** One round, and the flag is read in the call after its yield. */
  lemma LoopYields(w: Where)
    ensures var y := DoLoop(LOOP, w, w.returned, BEFORE, Place(true, false), 2);
            y == Result(Fell, AFTER, if Get(w.stack(w.returned + 1), w.slot) == 0 then [0, 7] else [0])
  {
    hide DoBlock, DoLoop, Slots;
    BodyYields(w.Past(1), 2);
    DoLoopUnfolds(LOOP, w, w.returned, BEFORE, Place(true, false), 2);
    LoopExits(w.After([0]), w.returned);
    assert [0] + [7] == [0, 7] && [0] + [] == [0];
  }

  lemma LoopResumed(m: Machine)
    ensures Performed(m, ["x"], [LOOP], [0], 2) == Result(Fell, AFTER, if Get(m.junk(1), 1) == 0 then [0, 7] else [0])
  {
    hide DoLoop;
    var params, args: seq<Int64> := ["x"], [0];
    assert params[..0] == [] && args[..0] == [];
    assert Arguments(params, args) == BEFORE;
    var w := Where(m.junk, 1, 0);
    LoopYields(w);
    OneDone(LOOP, w, BEFORE, Place(true, false), 2);
  }

  /** The source yields 0 and 7. So does the lowered generator if the flag's slot is zero in
      its second call, and otherwise it returns 0 and is over. */
  lemma FlagLost(m: Machine)
    requires EmitResume(["x"], [LOOP]) == Some(m.prog)
    ensures ContainsYield([LOOP]) && !FlagsSafe([LOOP])
    ensures Generated([LOOP], Arguments(["x"], [0]), 2) == Result(Fell, AFTER, [0, 7])
    ensures exists n: nat :: Steps(m, FirstCall(m, [0]), n) == Idle(if Get(m.junk(1), 1) == 0 then [0, 7, -0x8000_0000_0000_0000] else [0, -0x8000_0000_0000_0000])
  {
    hide EmitResume, Performed, Generated, Zeroed;
    LoopFlags();
    var zeros := m.(junk := (k: nat) => map[]);
    LoopResumed(zeros);
    assert Zeroed(zeros.junk) by { NothingStored(); }
    KeptMeaning(zeros, ["x"], [LOOP], [0], 2);
    LoopResumed(m);
    var n, d := ResumeRuns(m, ["x"], [LOOP], [0], 2);
    assert Steps(m, FirstCall(m, [0]), n) == d;
    assert [0, 7] + [SENTINEL] == [0, 7, SENTINEL] && [0] + [SENTINEL] == [0, SENTINEL];
  }

  lemma NothingStored()
    ensures Zeroed((k: nat) => map[])
  {
  }
}
