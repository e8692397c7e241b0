/** Which programs are lowered: exactly those in which every name that is read is in scope. */
module Scoping {
  import opened Wrappers
  import opened Ast
  import opened Semantics
  import opened Machine
  import opened Emit
  import opened Shape
  import opened Flagged
  import opened SlotCounts
  import opened Lowering

  predicate ExprScoped(x: Expr, names: set<string>) {
    match x
    case Lit(_) => true
    case Var(y) => y in names
    case Arith(_, l, r) => ExprScoped(l, names) && ExprScoped(r, names)
    case Neg(o) => ExprScoped(o, names)
    case Pow(b, n) => ExprScoped(b, names) && ExprScoped(n, names)
  }

  predicate CondScoped(c: Cond, names: set<string>) {
    match c
    case Cmp(_, l, r) => ExprScoped(l, names) && ExprScoped(r, names)
    case Truth(x) => ExprScoped(x, names)
    case Not(d) => CondScoped(d, names)
    case And(d0, d1) => CondScoped(d0, names) && CondScoped(d1, names)
    case Or(d0, d1) => CondScoped(d0, names) && CondScoped(d1, names)
  }

  /** Statements that cannot be reached are not looked at. */
  predicate ListScoped(ss: seq<Stmt>, names: set<string>, p: Place)
    decreases ss
  {
    ss == [] || (StmtScoped(ss[0], names, p) && (Leaves(ss[0], p) || ListScoped(ss[1..], Assigned(ss[0], names), p)))
  }

  /** The subject of a match without cases and a yield outside a generator are not looked at. */
  predicate StmtScoped(s: Stmt, names: set<string>, p: Place)
    decreases s, 0
  {
    match s
    case Assign(_, v) => ExprScoped(v, names)
    case If(c, thn, elsifs, els) =>
      && CondScoped(c, names) && ListScoped(thn, names, p) && ListScoped(els, names, p)
      && forall i :: 0 <= i < |elsifs| ==> CondScoped(elsifs[i].cond, names) && ListScoped(elsifs[i].body, names, p)
    case While(c, body, els) =>
      CondScoped(c, names) && ListScoped(body, names, p.(inLoop := true)) && ListScoped(els, names, p)
    case Return(x) => p.gen || OptionScoped(x, names)
    case Match(subject, cases) =>
      cases == [] ||
      (ExprScoped(subject, names) &&
       forall i :: 0 <= i < |cases| ==> CheckScoped(cases[i], names) && ListScoped(cases[i].body, names, p))
    case Yield(x) => !p.gen || OptionScoped(x, names)
    case _ => true
  }

  predicate OptionScoped(x: Option<Expr>, names: set<string>) {
    x.Some? ==> ExprScoped(x.value, names)
  }

  predicate CheckScoped(c: Case, names: set<string>) {
    OptionScoped(c.pattern, names) && (c.guard.Some? ==> CondScoped(c.guard.value, names))
  }

  // ---- the emitter accepts what is in scope ----

  lemma {:induction false} ExprAccepted(x: Expr, e: State, names: set<string>)
    requires e.Valid() && NamesAre(e.scopes, names)
    ensures EmitExpr(x, e).Some? <==> ExprScoped(x, names)
    decreases x
  {
    match x
    case Lit(_) =>
    case Var(y) => assert Lookup(e.scopes, y).Some? <==> y in names;
    case Arith(_, l, r) => PairAccepted(x, l, r, e, names);
    case Neg(o) => ExprAccepted(o, e, names);
    case Pow(b, n) => PairAccepted(x, b, n, e, names);
  }

  lemma {:induction false} PairAccepted(x: Expr, l: Expr, r: Expr, e: State, names: set<string>)
    requires e.Valid() && NamesAre(e.scopes, names) && l < x && r < x
    ensures EmitExpr(l, e).Some? <==> ExprScoped(l, names)
    ensures EmitExpr(l, e).Some? ==> (EmitExpr(r, EmitExpr(l, e).value.0).Some? <==> ExprScoped(r, names))
    decreases x, 0
  {
    hide EmitExpr, NamesAre;
    ExprAccepted(l, e, names);
    if EmitExpr(l, e).Some? {
      ExprAccepted(r, EmitExpr(l, e).value.0, names);
    }
  }

  lemma {:induction false} CondAccepted(c: Cond, e: State, names: set<string>)
    requires e.Valid() && NamesAre(e.scopes, names)
    ensures EmitCond(c, e).Some? <==> CondScoped(c, names)
    decreases c
  {
    hide EmitExpr, NamesAre;
    match c
    case Cmp(_, l, r) => PairAccepted(Arith(Add, l, r), l, r, e, names);
    case Truth(x) => ExprAccepted(x, e, names);
    case Not(d) => CondAccepted(d, e, names);
    case And(d0, d1) => JoinAccepted(c, d0, d1, e, names);
    case Or(d0, d1) => JoinAccepted(c, d0, d1, e, names);
  }

  lemma {:induction false} JoinAccepted(c: Cond, d0: Cond, d1: Cond, e: State, names: set<string>)
    requires e.Valid() && NamesAre(e.scopes, names) && (c == And(d0, d1) || c == Or(d0, d1))
    ensures EmitCond(c, e).Some? <==> CondScoped(d0, names) && CondScoped(d1, names)
    decreases c, 0
  {
    hide EmitExpr, NamesAre;
    var e0 := e.NewBlock().NewBlock();
    CondAccepted(d0, e0, names);
    if EmitCond(d0, e0).Some? {
      var (l, a) := EmitCond(d0, e0).value;
      CondAccepted(d1, l.Close(Decide(c, a, |e.blocks|)).At(|e.blocks|), names);
    }
  }

  lemma OptionAccepted(x: Option<Expr>, e: State, names: set<string>)
    requires e.Valid() && NamesAre(e.scopes, names)
    ensures x.Some? ==> (EmitExpr(x.value, e).Some? <==> OptionScoped(x, names))
  {
    if x.Some? {
      ExprAccepted(x.value, e, names);
    }
  }

  // ---- statements ----

  lemma {:induction false} StmtAccepted(s: Stmt, e: State, names: set<string>, p: Place)
    requires Stands(e, names, p)
    ensures EmitStmt(s, e).Some? <==> StmtScoped(s, names, p)
    decreases s, 3
  {
    hide EmitExpr, NamesAre, EmitIf, EmitWhile, EmitMatch, EmitAssign, EmitYield, Touches, ListScoped;
    match s
    case Assign(x, v) => AssignAccepted(x, v, e, names, p);
    case If(_, _, _, _) => IfAccepted(s, e, names, p);
    case While(_, _, _) => WhileAccepted(s, e, names, p);
    case Return(x) => OptionAccepted(x, e, names);
    case Match(_, _) => MatchAccepted(s, e, names, p);
    case Yield(x) => YieldAccepted(x, e, names, p);
    case _ =>
  }

  lemma AssignAccepted(x: string, v: Expr, e: State, names: set<string>, p: Place)
    requires Stands(e, names, p)
    ensures EmitAssign(x, v, e).Some? <==> ExprScoped(v, names)
  {
    hide EmitExpr, NamesAre, Touches;
    ExprAccepted(v, e, names);
  }

  lemma YieldAccepted(x: Option<Expr>, e: State, names: set<string>, p: Place)
    requires Stands(e, names, p)
    ensures EmitYield(x, e).Some? <==> !p.gen || OptionScoped(x, names)
  {
    hide EmitExpr, NamesAre, Touches, FinishYield;
    OptionAccepted(x, e, names);
  }

  lemma {:induction false} ListAccepted(ss: seq<Stmt>, e: State, names: set<string>, p: Place)
    requires Stands(e, names, p)
    ensures EmitList(ss, e).Some? <==> ListScoped(ss, names, p)
    decreases ss, 0
  {
    hide EmitStmt, StmtScoped, Stands;
    OpenStands(e, names, p);
    if ss != [] {
      StmtAccepted(ss[0], e, names, p);
      if EmitStmt(ss[0], e).Some? {
        StmtFollows(ss[0], e, names, p);
      }
      if EmitStmt(ss[0], e).Some? && !Leaves(ss[0], p) {
        OpenStands(EmitStmt(ss[0], e).value, Assigned(ss[0], names), p);
        ListAccepted(ss[1..], EmitStmt(ss[0], e).value, Assigned(ss[0], names), p);
      }
    }
  }

  lemma {:induction false} BlockAccepted(ss: seq<Stmt>, e: State, names: set<string>, p: Place)
    requires Stands(e, names, p)
    ensures EmitBlock(ss, e).Some? <==> ListScoped(ss, names, p)
    decreases ss, 1
  {
    hide EmitList, ListScoped;
    PushStands(e, names, p);
    ListAccepted(ss, e.PushScope(), names, p);
  }

  lemma NothingScoped(names: set<string>, p: Place)
    ensures ListScoped([], names, p)
  {
  }

  lemma {:induction false} IfAccepted(s: Stmt, e: State, names: set<string>, p: Place)
    requires s.If? && Stands(e, names, p)
    ensures EmitIf(s, e).Some? <==> StmtScoped(s, names, p)
    decreases s, 2
  {
    hide EmitCond, EmitBlock, EmitElsifs, Touches, Fork, NamesAre, ListScoped, CondScoped;
    CondAccepted(s.cond, e, names);
    NothingScoped(names, p);
    if EmitCond(s.cond, e).Some? {
      var (c, v) := EmitCond(s.cond, e).value;
      CondTouches(s.cond, e);
      ForkStands(e, c, v, Ways(s), |c.blocks| + Ways(s) - 1, names, p);
      var b := Fork(c, v, Ways(s), |c.blocks| + Ways(s) - 1);
      BlockAccepted(s.thn, b, names, p);
      if EmitBlock(s.thn, b).Some? {
        var t := CloseIfOpen(EmitBlock(s.thn, b).value, |c.blocks| + 1);
        ThenTouches(s, e, c, v, b, t);
        if Ways(s) == 3 {
          FreshStands(e, t.At(|c.blocks| + 2), names, p);
          ElsifsAccepted(s, 0, |c.blocks| + 1, t.At(|c.blocks| + 2), names, p);
        }
      }
    }
  }

  // The elsif branches from `i` on, and the else branch.
  predicate RestScoped(s: Stmt, i: nat, names: set<string>, p: Place)
    requires s.If?
  {
    && ListScoped(s.els, names, p)
    && forall k :: i <= k < |s.elsifs| ==> CondScoped(s.elsifs[k].cond, names) && ListScoped(s.elsifs[k].body, names, p)
  }

  lemma {:induction false} ElsifsAccepted(s: Stmt, i: nat, merge: nat, e: State, names: set<string>, p: Place)
    requires s.If? && i <= |s.elsifs| && (i < |s.elsifs| || s.els != []) && Stands(e, names, p) && merge < |e.blocks|
    ensures EmitElsifs(s, i, merge, e).Some? <==> RestScoped(s, i, names, p)
    decreases s, 1, |s.elsifs| - i
  {
    hide EmitCond, EmitBlock, Touches, Fork, NamesAre, ListScoped, CondScoped, CloseIfOpen;
    if i == |s.elsifs| {
      BlockAccepted(s.els, e, names, p);
    } else {
      CondAccepted(s.elsifs[i].cond, e, names);
      NothingScoped(names, p);
      if EmitCond(s.elsifs[i].cond, e).Some? {
        var (c, v) := EmitCond(s.elsifs[i].cond, e).value;
        var more := More(s, i);
        var n, next := if more then 2 else 1, if more then |c.blocks| + 1 else merge;
        CondTouches(s.elsifs[i].cond, e);
        ForkStands(e, c, v, n, next, names, p);
        var b := Fork(c, v, n, next);
        BlockAccepted(s.elsifs[i].body, b, names, p);
        if EmitBlock(s.elsifs[i].body, b).Some? {
          var t := CloseIfOpen(EmitBlock(s.elsifs[i].body, b).value, merge);
          ElsifBranchTouches(s, i, merge, e, c, v, b, t);
          if more {
            FreshStands(e, t.At(next), names, p);
            ElsifsAccepted(s, i + 1, merge, t.At(next), names, p);
          }
        }
      }
      assert RestScoped(s, i, names, p) <==>
             CondScoped(s.elsifs[i].cond, names) && ListScoped(s.elsifs[i].body, names, p) && RestScoped(s, i + 1, names, p);
    }
  }

  lemma {:induction false} WhileAccepted(s: Stmt, e: State, names: set<string>, p: Place)
    requires s.While? && Stands(e, names, p)
    ensures EmitWhile(s, e).Some? <==> StmtScoped(s, names, p)
    decreases s, 2
  {
    hide EmitCond, EmitBlock, EmitLoopElse, Touches, NamesAre, ListScoped, CondScoped, StartLoop, OpenLoop, LeaveBody;
    StartLoopTouches(s, e);
    OpenLoopTouches(StartLoop(s, e));
    var h := OpenLoop(StartLoop(s, e));
    CondAccepted(s.cond, h, names);
    if EmitCond(s.cond, h).Some? {
      var (c, v) := EmitCond(s.cond, h).value;
      CondTouches(s.cond, h);
      HeaderTouches(e, StartLoop(s, e), h, c, v);
      var b := EnterBody(c, v, h.cur, FlagOf(s, e));
      BodyStands(s, e, h, c, v, names, p);
      hide EnterBody;
      BlockAccepted(s.body, b, names, p.(inLoop := true));
      if EmitBlock(s.body, b).Some? {
        var x := LeaveBody(EmitBlock(s.body, b).value, h.cur);
        LoopTouches(s, e, h, c, v, b, x);
        LeaveLoops(EmitBlock(s.body, b).value, h.cur, e.loops);
        FreshStands(e, x, names, p);
        LoopElseAccepted(s, FlagOf(s, e), x, names, p);
      }
    }
  }

  lemma {:induction false} LoopElseAccepted(s: Stmt, flag: Option<nat>, e: State, names: set<string>, p: Place)
    requires s.While? && (flag.None? <==> s.els == []) && Stands(e, names, p)
    ensures EmitLoopElse(s, flag, e).Some? <==> ListScoped(s.els, names, p)
    decreases s, 0
  {
    hide EmitBlock, Touches, NamesAre, TestFlag;
    if flag.Some? {
      TestFlagTouches(e, flag.value);
      FreshStands(e, TestFlag(e, flag.value), names, p);
      BlockAccepted(s.els, TestFlag(e, flag.value), names, p);
    }
  }

  lemma CheckAccepted(c: Case, slot: nat, body: nat, miss: nat, e: State, names: set<string>)
    requires e.Valid() && NamesAre(e.scopes, names)
    ensures EmitCheck(c, slot, body, miss, e).Some? <==> CheckScoped(c, names)
  {
    hide EmitPattern, NamesAre, EmitCond;
    var guardB := |e.blocks|;
    if c.guard.None? {
      PatternAccepted(c.pattern, slot, body, miss, e, names);
    } else {
      PatternAccepted(c.pattern, slot, guardB, miss, e.NewBlock(), names);
      if EmitPattern(c.pattern, slot, guardB, miss, e.NewBlock()).Some? {
        CondAccepted(c.guard.value, EmitPattern(c.pattern, slot, guardB, miss, e.NewBlock()).value.At(guardB), names);
      }
    }
  }

  lemma PatternAccepted(pattern: Option<Expr>, slot: nat, hit: nat, miss: nat, e: State, names: set<string>)
    requires e.Valid() && NamesAre(e.scopes, names)
    ensures EmitPattern(pattern, slot, hit, miss, e).Some? <==> OptionScoped(pattern, names)
  {
    hide EmitExpr, NamesAre;
    if pattern.Some? {
      ExprAccepted(pattern.value, Define(e, Load(e.nextReg, slot)), names);
    }
  }

  lemma {:induction false} MatchAccepted(s: Stmt, e: State, names: set<string>, p: Place)
    requires s.Match? && Stands(e, names, p)
    ensures EmitMatch(s, e).Some? <==> StmtScoped(s, names, p)
    decreases s, 2
  {
    hide EmitExpr, EmitCases, Touches, NamesAre, ListScoped, ExprScoped, CheckScoped, StartMatch;
    if s.cases != [] {
      ExprAccepted(s.subject, e, names);
      if EmitExpr(s.subject, e).Some? {
        var (e1, v) := EmitExpr(s.subject, e).value;
        var m, n := StartMatch(s, e1, v), |e1.blocks|;
        ExprTouches(s.subject, e);
        StartMatchTouches(s, e1, v);
        Onward(e, e1, m, {m.cur, n} + Ids(n + 1, n + 1 + |s.cases|));
        assert {m.cur, n} + Ids(n + 1, n + 1 + |s.cases|) == Unchecked(n, 0, |s.cases|, m.cur);
        FreshStands(e, m, names, p);
        CasesAccepted(e, s, 0, e1.nextSlot, n, m, names, p);
      }
    }
  }

  // The cases from `i` on.
  predicate CasesScoped(s: Stmt, i: nat, names: set<string>, p: Place)
    requires s.Match?
  {
    forall k :: i <= k < |s.cases| ==> CheckScoped(s.cases[k], names) && ListScoped(s.cases[k].body, names, p)
  }

  lemma {:induction false} CasesAccepted(e0: State, s: Stmt, i: nat, slot: nat, merge: nat, e: State, names: set<string>, p: Place)
    requires s.Match? && i < |s.cases| && Stands(e, names, p) && merge + |s.cases| < |e.blocks|
    requires e.cur < merge || merge + |s.cases| < e.cur
    requires Touches(e0, e, Unchecked(merge, i, |s.cases|, e.cur))
    ensures EmitCases(s, i, slot, merge, e).Some? <==> CasesScoped(s, i, names, p)
    decreases s, 1, |s.cases| - i
  {
    hide EmitCheck, EmitBlock, Touches, NamesAre, ListScoped, CheckScoped, CloseIfOpen, Unchecked;
    var more, body := i + 1 < |s.cases|, merge + 1 + i;
    var miss := if more then |e.blocks| else merge;
    var c := if more then e.NewBlock() else e;
    CheckAccepted(s.cases[i], slot, body, miss, c, names);
    if EmitCheck(s.cases[i], slot, body, miss, c).Some? {
      var k := EmitCheck(s.cases[i], slot, body, miss, c).value;
      BodyWaits(e0, s, i, slot, merge, e, c, k);
      FreshStands(e, k.At(body), names, p);
      BlockAccepted(s.cases[i].body, k.At(body), names, p);
      if EmitBlock(s.cases[i].body, k.At(body)).Some? {
        var t := CloseIfOpen(EmitBlock(s.cases[i].body, k.At(body)).value, merge);
        CaseTouches(e0, s, i, slot, merge, e, c, k, t);
        if more {
          NextWaits(e0, s, i, merge, t, |e.blocks|);
          FreshStands(e, t.At(|e.blocks|), names, p);
          CasesAccepted(e0, s, i + 1, slot, merge, t.At(|e.blocks|), names, p);
        }
      }
    }
    assert CasesScoped(s, i, names, p) <==>
           CheckScoped(s.cases[i], names) && ListScoped(s.cases[i].body, names, p) && (more ==> CasesScoped(s, i + 1, names, p));
  }

  // ---- whole functions ----

  lemma BindNames(scopes: seq<map<string, nat>>, x: string, slot: nat, names: set<string>)
    requires NamesAre(scopes, names) && scopes != []
    ensures NamesAre(Bind(scopes, x, slot), names + {x}) && Bind(scopes, x, slot) != []
  {
    forall y
      ensures Lookup(Bind(scopes, x, slot), y).Some? <==> y in names + {x}
    {
      Simulation.LookupBind(scopes, x, slot, y);
      assert Lookup(scopes, y).Some? <==> y in names;
    }
  }

  lemma {:induction false} BoundNames(i: nat, params: seq<string>, e: State, names: set<string>)
    requires e.Valid() && NamesAre(e.scopes, names) && i <= |params|
    ensures NamesAre(BindParams(i, params, e).scopes, names + Named(params[i..]))
    decreases |params| - i
  {
    hide NamesAre, Bind;
    if i < |params| {
      var r := e.(nextSlot := e.nextSlot + 1).Append(Store(e.nextSlot, Reg(i))).Declare(params[i], e.nextSlot);
      assert r.scopes == Bind(e.scopes, params[i], e.nextSlot);
      BindNames(e.scopes, params[i], e.nextSlot, names);
      BoundNames(i + 1, params, r, names + {params[i]});
      assert names + {params[i]} + Named(params[i + 1..]) == names + Named(params[i..]);
    } else {
      assert names + Named(params[i..]) == names;
    }
  }

  lemma {:induction false} DeclaredNames(i: nat, params: seq<string>, e: State, names: set<string>)
    requires e.Valid() && NamesAre(e.scopes, names) && i <= |params|
    ensures NamesAre(DeclareParams(i, params, e).scopes, names + Named(params[i..]))
    decreases |params| - i
  {
    hide NamesAre, Bind;
    if i < |params| {
      var r := e.(nextSlot := e.nextSlot + 1).Declare(params[i], e.nextSlot);
      assert r.scopes == Bind(e.scopes, params[i], e.nextSlot);
      BindNames(e.scopes, params[i], e.nextSlot, names);
      DeclaredNames(i + 1, params, r, names + {params[i]});
      assert names + {params[i]} + Named(params[i + 1..]) == names + Named(params[i..]);
    } else {
      assert names + Named(params[i..]) == names;
    }
  }

  function Named(params: seq<string>): set<string> {
    set x | x in params
  }

  lemma NoNames()
    ensures NamesAre([map[]], {})
  {
    forall x
      ensures Lookup([map[]], x).None?
    {
      Simulation.LookupPush([], x);
    }
  }

  /** A function or generator is lowered exactly when every name it may read is in scope. */
  lemma LoweredIff(params: seq<string>, body: seq<Stmt>)
    ensures Lower(params, body).Some? <==> ListScoped(body, Named(params), Place(ContainsYield(body), false))
  {
    hide EmitList, ListScoped, Touches, BindParams, DeclareParams, RestoreFrom, NamesAre, FinishResume, ContainsYield;
    NoNames();
    assert {} + Named(params) == Named(params) && params[0..] == params;
    if ContainsYield(body) {
      var e := ResumeStart(params);
      DeclaredNames(0, params, ResumeEntry(), {});
      RestoreTouches(0, e);
      ListAccepted(body, RestoreFrom(0, e), Named(params), Place(true, false));
    } else {
      BoundNames(0, params, FunctionEntry(params), {});
      BindOpen(0, params, FunctionEntry(params));
      ListAccepted(body, BodyStart(params), Named(params), Place(false, false));
    }
  }

  // if 1: x = 1; and then return x
  function ReadAfter(before: seq<Stmt>): seq<Stmt> {
    before + [If(Truth(Lit(1)), [Assign("x", Lit(1))], [], [])] + [Return(Some(Var("x")))]
  }

  lemma {:induction false} ScopedBoth(ss: seq<Stmt>, ts: seq<Stmt>, names: set<string>, p: Place)
    requires |ss| == 1 && !Leaves(ss[0], p)
    ensures ListScoped(ss + ts, names, p) <==> StmtScoped(ss[0], names, p) && ListScoped(ts, Assigned(ss[0], names), p)
  {
    hide StmtScoped, Leaves;
    assert (ss + ts)[1..] == ts;
  }

  /** A name that a branch assigns is not in scope behind it, unless it was assigned before, as a
      statement or as a parameter. */
  lemma BranchScope()
    ensures Lower([], ReadAfter([])).None? && Lower([], ReadAfter([Assign("x", Lit(0))])).Some? && Lower(["x"], ReadAfter([])).Some?
  {
    hide Lower, ListScoped;
    var branch, last := If(Truth(Lit(1)), [Assign("x", Lit(1))], [], []), [Return(Some(Var("x")))];
    var first := [Assign("x", Lit(0))];
    NoYieldIn(branch, last, first);
    LoweredIff([], ReadAfter([]));
    LoweredIff([], ReadAfter(first));
    LoweredIff(["x"], ReadAfter([]));
    assert Named([]) == {} && Named(["x"]) == {"x"} && {} + {"x"} == {"x"} && {"x"} + {"x"} == {"x"};
    assert ReadAfter([]) == [branch] + last && ReadAfter(first) == first + ([branch] + last);
    var p := Place(false, false);
    BranchScoped(branch, {}, p);
    BranchScoped(branch, {"x"}, p);
    ReturnScoped({}, p);
    ReturnScoped({"x"}, p);
    ScopedBoth([branch], last, {}, p);
    ScopedBoth([branch], last, {"x"}, p);
    ScopedBoth(first, [branch] + last, {}, p);
  }

  lemma NoYieldIn(branch: Stmt, last: seq<Stmt>, first: seq<Stmt>)
    requires branch == If(Truth(Lit(1)), [Assign("x", Lit(1))], [], []) && last == [Return(Some(Var("x")))] && first == [Assign("x", Lit(0))]
    ensures !ContainsYield(ReadAfter([])) && !ContainsYield(ReadAfter(first))
  {
    var thn, s, t := branch.thn, ReadAfter([]), ReadAfter(first);
    assert thn[1..] == [] && !ContainsYield(thn);
    assert last[1..] == [] && !ContainsYield(last);
    assert s[1..] == last && t[1..] == s;
  }

  lemma BranchScoped(branch: Stmt, names: set<string>, p: Place)
    requires branch == If(Truth(Lit(1)), [Assign("x", Lit(1))], [], []) && !p.gen
    ensures StmtScoped(branch, names, p) && !Leaves(branch, p) && Assigned(branch, names) == names
  {
    assert branch.thn[1..] == [];
  }

  lemma ReturnScoped(names: set<string>, p: Place)
    requires !p.gen
    ensures ListScoped([Return(Some(Var("x")))], names, p) <==> "x" in names
  {
    var last := [Return(Some(Var("x")))];
    assert last[1..] == [];
  }
}
