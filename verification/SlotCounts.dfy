/** How many slots emitted code takes, and where the emitter stands after a statement. The counts
    of `Flagged` are the emitter's: so the slot of a loop's flag can be told from the statements
    before it and the names in scope, without the emitter. */
module SlotCounts {
  import opened Wrappers
  import opened Ast
  import opened Semantics
  import opened Machine
  import opened Emit
  import opened Shape
  import opened Flagged
  import Simulation

  ghost predicate NamesAre(scopes: seq<map<string, nat>>, names: set<string>) {
    forall x {:trigger Lookup(scopes, x)} :: Lookup(scopes, x).Some? <==> x in names
  }

  // The emitter stands in an open block, with these names in scope.
  ghost predicate Stands(e: State, names: set<string>, p: Place) {
    e.Valid() && e.Open() && Linked(e) && NamesAre(e.scopes, names) && p == Place(e.gen, e.loops != [])
  }

  lemma AssignNames(x: string, v: Expr, e: State, names: set<string>)
    requires e.Valid() && NamesAre(e.scopes, names) && EmitAssign(x, v, e).Some?
    ensures NamesAre(EmitAssign(x, v, e).value.scopes, names + {x})
  {
    hide EmitExpr;
    var (e1, a) := EmitExpr(v, e).value;
    var r := EmitAssign(x, v, e).value;
    forall y
      ensures Lookup(r.scopes, y).Some? <==> y in names + {x}
    {
      if Lookup(e1.scopes, x).None? {
        Simulation.LookupBind(e.scopes, x, e1.nextSlot, y);
      }
      assert Lookup(e.scopes, y).Some? <==> y in names;
    }
  }

  // What an emitted statement leaves for the next one.
  ghost predicate Follows(s: Stmt, e: State, names: set<string>, p: Place)
    requires e.Valid()
  {
    EmitStmt(s, e).Some? ==>
      var r := EmitStmt(s, e).value;
      r.Valid() && (if Leaves(s, p) then !r.Open() else Stands(r, Assigned(s, names), p))
  }

  lemma StmtFollows(s: Stmt, e: State, names: set<string>, p: Place)
    requires Stands(e, names, p) && EmitStmt(s, e).Some?
    ensures Follows(s, e, names, p)
  {
    hide EmitExpr, NamesAre, EmitIf, EmitWhile, EmitMatch, EmitAssign, EmitYield, Touches;
    match s
    case Assign(x, v) =>
      AssignTouches(x, v, e);
      AssignNames(x, v, e, names);
    case If(_, _, _, _) => IfTouches(s, e);
    case While(_, _, _) => WhileTouches(s, e);
    case Match(_, _) => MatchTouches(s, e);
    case Yield(x) => YieldTouches(x, e);
    case _ =>
  }

  lemma OpenStands(e: State, names: set<string>, p: Place)
    requires Stands(e, names, p)
    ensures e.Valid() && e.Open()
  {
  }

  lemma PushStands(e: State, names: set<string>, p: Place)
    requires Stands(e, names, p)
    ensures Stands(e.PushScope(), names, p)
  {
    forall x
      ensures Lookup(e.PushScope().scopes, x) == Lookup(e.scopes, x)
    {
      Simulation.LookupPush(e.scopes, x);
    }
  }

  // Code in a fresh block stands where the code before it stood.
  lemma FreshStands(e: State, b: State, names: set<string>, p: Place)
    requires Stands(e, names, p) && b.Valid() && b.Open() && b.scopes == e.scopes && b.loops == e.loops && b.gen == e.gen && |e.blocks| <= |b.blocks|
    ensures Stands(b, names, p)
  {
  }

  lemma ForkStands(e: State, c: State, v: Value, n: nat, no: nat, names: set<string>, p: Place)
    requires Stands(e, names, p) && OnlyCode(e, c) && c.Open() && n > 0 && no < |c.blocks| + n
    ensures Stands(Fork(c, v, n, no), names, p)
  {
    hide NamesAre, Touches;
    ForkTouches(c, v, n, no);
    FreshStands(e, Fork(c, v, n, no), names, p);
  }

  // A loop body stands in the loop, with the names of before.
  lemma BodyStands(s: Stmt, e: State, h: State, c: State, v: Value, names: set<string>, p: Place)
    requires s.While? && Stands(e, names, p) && StartLoop(s, e).Valid() && StartLoop(s, e).Open() && h == OpenLoop(StartLoop(s, e))
    requires EmitCond(s.cond, h) == Some((c, v)) && c.Valid() && h.cur + 2 < |c.blocks| && c.Open()
    requires EnterBody(c, v, h.cur, FlagOf(s, e)).Open() && Linked(EnterBody(c, v, h.cur, FlagOf(s, e)))
    ensures Stands(EnterBody(c, v, h.cur, FlagOf(s, e)), names, p.(inLoop := true))
  {
    hide EmitCond, NamesAre;
  }

  lemma LeaveLoops(r: State, header: nat, loops: seq<Loop>)
    requires r.Valid() && header + 2 < |r.blocks| && |r.loops| == |loops| + 1 && r.loops[..|loops|] == loops
    ensures LeaveBody(r, header).loops == loops && LeaveBody(r, header).scopes == r.scopes && LeaveBody(r, header).gen == r.gen
  {
  }

  lemma BodyWaits(e0: State, s: Stmt, i: nat, slot: nat, merge: nat, e: State, c: State, k: State)
    requires s.Match? && i < |s.cases| && e.Valid() && e.Open() && Linked(e) && merge + |s.cases| < |e.blocks|
    requires (e.cur < merge || merge + |s.cases| < e.cur) && Touches(e0, e, Unchecked(merge, i, |s.cases|, e.cur))
    requires c == if i + 1 < |s.cases| then e.NewBlock() else e
    requires EmitCheck(s.cases[i], slot, merge + 1 + i, if i + 1 < |s.cases| then |e.blocks| else merge, c) == Some(k)
    ensures k.At(merge + 1 + i).Open()
  {
    hide EmitCheck;
    var body := merge + 1 + i;
    MissTouches(e, i + 1 < |s.cases|);
    CheckTouches(s.cases[i], slot, body, if i + 1 < |s.cases| then |e.blocks| else merge, c);
    assert body in Unchecked(merge, i, |s.cases|, e.cur);
    assert Waits(e, body) && Kept(e, c, body) && Kept(c, k, body);
  }

  lemma NextWaits(e0: State, s: Stmt, i: nat, merge: nat, t: State, next: nat)
    requires s.Match? && i + 1 < |s.cases| && Touches(e0, t, Unchecked(merge, i + 1, |s.cases|, next))
    ensures Touches(e0, t.At(next), Unchecked(merge, i + 1, |s.cases|, next)) && next < |t.blocks| && t.At(next).Open()
  {
    hide Touches;
    MoveTouches(e0, t, Unchecked(merge, i + 1, |s.cases|, next), next);
  }

  // ---- slots ----

  lemma {:induction false} ListCounts(ss: seq<Stmt>, e: State, names: set<string>, p: Place)
    requires Stands(e, names, p) && EmitList(ss, e).Some?
    ensures EmitList(ss, e).value.nextSlot == e.nextSlot + Slots(ss, names, p)
    decreases ss, 0
  {
    hide EmitStmt, StmtSlots, Stands;
    OpenStands(e, names, p);
    if ss != [] {
      StmtCounts(ss[0], e, names, p);
      StmtFollows(ss[0], e, names, p);
      if !Leaves(ss[0], p) {
        OpenStands(EmitStmt(ss[0], e).value, Assigned(ss[0], names), p);
        ListCounts(ss[1..], EmitStmt(ss[0], e).value, Assigned(ss[0], names), p);
      }
    }
  }

  lemma {:induction false} BlockCounts(ss: seq<Stmt>, e: State, names: set<string>, p: Place)
    requires Stands(e, names, p) && EmitBlock(ss, e).Some?
    ensures EmitBlock(ss, e).value.nextSlot == e.nextSlot + Slots(ss, names, p)
    decreases ss, 1
  {
    hide EmitList, Slots;
    PushStands(e, names, p);
    ListCounts(ss, e.PushScope(), names, p);
  }

  lemma {:induction false} StmtCounts(s: Stmt, e: State, names: set<string>, p: Place)
    requires Stands(e, names, p) && EmitStmt(s, e).Some?
    ensures EmitStmt(s, e).value.nextSlot == e.nextSlot + StmtSlots(s, names, p)
    decreases s, 3
  {
    hide EmitExpr, EmitIf, EmitWhile, EmitMatch, Slots, ElsifSlots, CaseSlots, FinishYield;
    match s
    case Assign(x, v) =>
      assert Lookup(e.scopes, x).Some? <==> x in names;
    case If(_, _, _, _) => IfCounts(s, e, names, p);
    case While(_, _, _) => WhileCounts(s, e, names, p);
    case Match(_, _) => MatchCounts(s, e, names, p);
    case Yield(x) =>
      if e.gen {
        YieldCounts(if x.None? then Imm(0) else EmitExpr(x.value, e).value.1, if x.None? then e else EmitExpr(x.value, e).value.0);
      }
    case _ =>
  }

  lemma YieldCounts(v: Value, e: State)
    requires e.Valid()
    ensures FinishYield(v, e).nextSlot == e.nextSlot
  {
    hide SaveFrom, RestoreFrom;
  }

  lemma CloseCounts(e: State, b: nat)
    requires e.Valid()
    ensures CloseIfOpen(e, b).nextSlot == e.nextSlot
  {
  }

  lemma {:induction false} IfCounts(s: Stmt, e: State, names: set<string>, p: Place)
    requires s.If? && Stands(e, names, p) && EmitIf(s, e).Some?
    ensures EmitIf(s, e).value.nextSlot == e.nextSlot + StmtSlots(s, names, p)
    decreases s, 2
  {
    hide EmitCond, EmitBlock, EmitElsifs, Touches, Fork, NamesAre, Slots, ElsifSlots;
    var (c, v) := EmitCond(s.cond, e).value;
    CondTouches(s.cond, e);
    ForkStands(e, c, v, Ways(s), |c.blocks| + Ways(s) - 1, names, p);
    var b := Fork(c, v, Ways(s), |c.blocks| + Ways(s) - 1);
    BlockCounts(s.thn, b, names, p);
    var t := CloseIfOpen(EmitBlock(s.thn, b).value, |c.blocks| + 1);
    ThenTouches(s, e, c, v, b, t);
    if Ways(s) == 3 {
      FreshStands(e, t.At(|c.blocks| + 2), names, p);
      ElsifsCount(s, 0, |c.blocks| + 1, t.At(|c.blocks| + 2), names, p);
    } else {
      NoElsifSlots(s, names, p);
    }
  }

  lemma NoElsifSlots(s: Stmt, names: set<string>, p: Place)
    requires s.If? && s.els == []
    ensures ElsifSlots(s, |s.elsifs|, names, p) == 0
  {
  }

  lemma {:induction false} ElsifsCount(s: Stmt, i: nat, merge: nat, e: State, names: set<string>, p: Place)
    requires s.If? && i <= |s.elsifs| && (i < |s.elsifs| || s.els != []) && Stands(e, names, p) && merge < |e.blocks|
    requires EmitElsifs(s, i, merge, e).Some?
    ensures EmitElsifs(s, i, merge, e).value.nextSlot == e.nextSlot + ElsifSlots(s, i, names, p)
    decreases s, 1, |s.elsifs| - i
  {
    hide EmitCond, EmitBlock, Touches, Fork, NamesAre, Slots, CloseIfOpen;
    if i == |s.elsifs| {
      BlockCounts(s.els, e, names, p);
      CloseCounts(EmitBlock(s.els, e).value, merge);
    } else {
      hide EmitElsifs, ElsifSlots;
      var c, v, b, t := ElsifUnfolds(s, i, merge, e);
      ElsifSlotsUnfold(s, i, names, p);
      var more := More(s, i);
      CondTouches(s.elsifs[i].cond, e);
      ForkStands(e, c, v, if more then 2 else 1, if more then |c.blocks| + 1 else merge, names, p);
      BlockCounts(s.elsifs[i].body, b, names, p);
      CloseCounts(EmitBlock(s.elsifs[i].body, b).value, merge);
      ElsifBranchTouches(s, i, merge, e, c, v, b, t);
      if more {
        FreshStands(e, t.At(|c.blocks| + 1), names, p);
        ElsifsCount(s, i + 1, merge, t.At(|c.blocks| + 1), names, p);
      } else {
        NoElsif(s, merge, t);
        NoElsifSlots(s, names, p);
      }
    }
  }

  lemma ElsifSlotsUnfold(s: Stmt, i: nat, names: set<string>, p: Place)
    requires s.If? && i < |s.elsifs|
    ensures ElsifSlots(s, i, names, p) == Slots(s.elsifs[i].body, names, p) + ElsifSlots(s, i + 1, names, p)
  {
  }

  lemma {:induction false} WhileCounts(s: Stmt, e: State, names: set<string>, p: Place)
    requires s.While? && Stands(e, names, p) && EmitWhile(s, e).Some?
    ensures EmitWhile(s, e).value.nextSlot == e.nextSlot + StmtSlots(s, names, p)
    decreases s, 2
  {
    hide EmitCond, EmitBlock, EmitWhile, EmitLoopElse, Touches, NamesAre, LeaveBody, Slots;
    var h, c, v, b, x := WhileUnfolds(s, e);
    LoopTouches(s, e, h, c, v, b, x);
    BodyNames(s, e, h, c, v, b, x, names, p);
    BlockCounts(s.body, b, names, p.(inLoop := true));
    LeaveCounts(EmitBlock(s.body, b).value, h.cur);
    FreshStands(e, x, names, p);
    LoopElseCounts(s, FlagOf(s, e), x, names, p);
  }

  lemma BodyNames(s: Stmt, e: State, h: State, c: State, v: Value, b: State, x: State, names: set<string>, p: Place)
    requires LoopStages(s, e, h, c, v, b, x) && Stands(e, names, p) && LoopTouched(s, e, h, c, v, b, x)
    ensures Stands(b, names, p.(inLoop := true)) && b.nextSlot == e.nextSlot + FlagSlots(s)
    ensures x.scopes == e.scopes && x.loops == e.loops && x.gen == e.gen
  {
    hide EmitCond, EmitBlock, Touches, NamesAre;
    StartLoopTouches(s, e);
    BodyStands(s, e, h, c, v, names, p);
    LeaveLoops(EmitBlock(s.body, b).value, h.cur, e.loops);
  }

  lemma LeaveCounts(e: State, header: nat)
    requires e.Valid() && header + 2 < |e.blocks|
    ensures LeaveBody(e, header).nextSlot == e.nextSlot
  {
  }

  lemma {:induction false} LoopElseCounts(s: Stmt, flag: Option<nat>, e: State, names: set<string>, p: Place)
    requires s.While? && (flag.None? <==> s.els == []) && Stands(e, names, p) && EmitLoopElse(s, flag, e).Some?
    ensures EmitLoopElse(s, flag, e).value.nextSlot == e.nextSlot + Slots(s.els, names, p)
    decreases s, 1
  {
    hide EmitBlock, TestFlag, Touches, NamesAre;
    if flag.Some? {
      var t := TestFlag(e, flag.value);
      TestFlagTouches(e, flag.value);
      FreshStands(e, t, names, p);
      BlockCounts(s.els, t, names, p);
    }
  }

  lemma {:induction false} MatchCounts(s: Stmt, e: State, names: set<string>, p: Place)
    requires s.Match? && Stands(e, names, p) && EmitMatch(s, e).Some?
    ensures EmitMatch(s, e).value.nextSlot == e.nextSlot + StmtSlots(s, names, p)
    decreases s, 2
  {
    hide EmitExpr, EmitCases, Touches, NamesAre, StartMatch, CaseSlots;
    if s.cases != [] {
      var (e1, v) := EmitExpr(s.subject, e).value;
      var m, n := StartMatch(s, e1, v), |e1.blocks|;
      ExprTouches(s.subject, e);
      StartMatchTouches(s, e1, v);
      Onward(e, e1, m, {m.cur, n} + Ids(n + 1, n + 1 + |s.cases|));
      assert {m.cur, n} + Ids(n + 1, n + 1 + |s.cases|) == Unchecked(n, 0, |s.cases|, m.cur);
      FreshStands(e, m, names, p);
      StartCounts(s, e1, v);
      CasesCount(e, s, 0, e1.nextSlot, n, m, names, p);
    }
  }

  lemma StartCounts(s: Stmt, e: State, v: Value)
    requires s.Match? && e.Valid()
    ensures StartMatch(s, e, v).nextSlot == e.nextSlot + 1
  {
  }

  lemma CheckCounts(c: Case, slot: nat, body: nat, miss: nat, e: State)
    requires e.Valid() && EmitCheck(c, slot, body, miss, e).Some?
    ensures EmitCheck(c, slot, body, miss, e).value.nextSlot == e.nextSlot
  {
    hide EmitExpr, EmitCond;
  }

  lemma {:induction false} CasesCount(e0: State, s: Stmt, i: nat, slot: nat, merge: nat, e: State, names: set<string>, p: Place)
    requires s.Match? && i < |s.cases| && Stands(e, names, p) && merge + |s.cases| < |e.blocks|
    requires e.cur < merge || merge + |s.cases| < e.cur
    requires Touches(e0, e, Unchecked(merge, i, |s.cases|, e.cur)) && EmitCases(s, i, slot, merge, e).Some?
    ensures EmitCases(s, i, slot, merge, e).value.nextSlot == e.nextSlot + CaseSlots(s, i, names, p)
    decreases s, 1, |s.cases| - i
  {
    hide EmitCheck, EmitBlock, Touches, NamesAre, CloseIfOpen, Unchecked, Slots;
    var more, body := i + 1 < |s.cases|, merge + 1 + i;
    var miss := if more then |e.blocks| else merge;
    var c := if more then e.NewBlock() else e;
    var k := EmitCheck(s.cases[i], slot, body, miss, c).value;
    CheckCounts(s.cases[i], slot, body, miss, c);
    BodyWaits(e0, s, i, slot, merge, e, c, k);
    FreshStands(e, k.At(body), names, p);
    BlockCounts(s.cases[i].body, k.At(body), names, p);
    var t := CloseIfOpen(EmitBlock(s.cases[i].body, k.At(body)).value, merge);
    CloseCounts(EmitBlock(s.cases[i].body, k.At(body)).value, merge);
    CaseTouches(e0, s, i, slot, merge, e, c, k, t);
    if more {
      NextWaits(e0, s, i, merge, t, |e.blocks|);
      FreshStands(e, t.At(|e.blocks|), names, p);
      CasesCount(e0, s, i + 1, slot, merge, t.At(|e.blocks|), names, p);
    }
  }
}
