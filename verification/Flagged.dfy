/** What a lowered body does, for every content of the stack: the structured meaning, except
    that the did-break flag of a loop with an else branch is not saved at a yield. */
module Flagged {
  import opened Wrappers
  import opened Ast
  import opened Semantics
  import opened Machine

  // ---- slots ----

  // Nothing after the statement in its list can be reached.
  predicate Leaves(s: Stmt, p: Place) {
    s.Return? || (p.inLoop && (s.Break? || s.Continue?))
  }

  function Assigned(s: Stmt, names: set<string>): set<string> {
    if s.Assign? then names + {s.name} else names
  }

  /** How many stack slots a list takes: one for each first assignment, one for each match and
      one for each loop with an else branch. Statements that cannot be reached take none. */
  function Slots(ss: seq<Stmt>, names: set<string>, p: Place): nat
    decreases ss, 0
  {
    if ss == [] then 0
    else StmtSlots(ss[0], names, p) + if Leaves(ss[0], p) then 0 else Slots(ss[1..], Assigned(ss[0], names), p)
  }

  function StmtSlots(s: Stmt, names: set<string>, p: Place): nat
    decreases s, 2
  {
    match s
    case Assign(x, _) => if x in names then 0 else 1
    case If(_, thn, _, _) => Slots(thn, names, p) + ElsifSlots(s, 0, names, p)
    case While(_, body, els) => FlagSlots(s) + Slots(body, names, p.(inLoop := true)) + Slots(els, names, p)
    case Match(_, cases) => if cases == [] then 0 else 1 + CaseSlots(s, 0, names, p)
    case _ => 0
  }

  // The slot of the flag, if the loop has one.
  function FlagSlots(s: Stmt): nat
    requires s.While?
  {
    if s.els == [] then 0 else 1
  }

  function ElsifSlots(s: Stmt, i: nat, names: set<string>, p: Place): nat
    requires s.If? && i <= |s.elsifs|
    decreases s, 1, |s.elsifs| - i
  {
    if i == |s.elsifs| then Slots(s.els, names, p) else Slots(s.elsifs[i].body, names, p) + ElsifSlots(s, i + 1, names, p)
  }

  function CaseSlots(s: Stmt, i: nat, names: set<string>, p: Place): nat
    requires s.Match? && i <= |s.cases|
    decreases s, 1, |s.cases| - i
  {
    if i == |s.cases| then 0 else Slots(s.cases[i].body, names, p) + CaseSlots(s, i + 1, names, p)
  }

  // ---- meaning ----

  /** Where a statement is in a run: what the stack holds in the call made after so many
      values were returned, the first slot the statement takes, and how many values were
      returned so far. */
  datatype Where = Where(stack: nat -> map<nat, Int64>, slot: nat, returned: nat) {
    function Past(slots: nat): Where {
      this.(slot := slot + slots)
    }

    function After(trace: seq<Int64>): Where {
      this.(returned := returned + |trace|)
    }
  }

  /** What a loop reads from its flag if it was not left by a break: zero, unless a yield came
      after the loop began. */
  function FlagRead(w: Where, since: nat): Int64 {
    if w.returned == since then 0 else Get(w.stack(w.returned), w.slot)
  }

  function Do(s: Stmt, w: Where, env: Env, p: Place, fuel: nat): Result
    decreases fuel, s, 2
  {
    match s
    case If(c, thn, _, _) =>
      (match Test(c, env)
       case None => Result(Stuck, env, [])
       case Some(b) =>
         if b then DoBlock(thn, w, env, p, fuel) else DoElsifs(s, 0, w.Past(Slots(thn, env.Keys, p)), env, p, fuel))
    case While(_, _, _) => DoLoop(s, w, w.returned, env, p, fuel)
    case Match(subject, cases) =>
      if cases == [] then Result(Fell, env, [])
      else
        (match Eval(subject, env)
         case None => Result(Stuck, env, [])
         case Some(v) => DoCases(s, 0, v, w.Past(1), env, p, fuel))
    case _ => Exec(s, env, p, fuel)
  }

  function DoBlock(ss: seq<Stmt>, w: Where, env: Env, p: Place, fuel: nat): Result
    decreases fuel, ss, 1
  {
    var r := DoList(ss, w, env, p, fuel);
    r.(env := Restrict(r.env, env.Keys))
  }

  function DoList(ss: seq<Stmt>, w: Where, env: Env, p: Place, fuel: nat): Result
    decreases fuel, ss, 0
  {
    if ss == [] then Result(Fell, env, [])
    else
      var r := Do(ss[0], w, env, p, fuel);
      if r.outcome.Fell? then
        After(r.trace, DoList(ss[1..], w.Past(StmtSlots(ss[0], env.Keys, p)).After(r.trace), r.env, p, fuel))
      else r
  }

  function DoElsifs(s: Stmt, i: nat, w: Where, env: Env, p: Place, fuel: nat): Result
    requires s.If? && i <= |s.elsifs|
    decreases fuel, s, 1, |s.elsifs| - i
  {
    if i == |s.elsifs| then DoBlock(s.els, w, env, p, fuel)
    else
      match Test(s.elsifs[i].cond, env)
      case None => Result(Stuck, env, [])
      case Some(b) =>
        if b then DoBlock(s.elsifs[i].body, w, env, p, fuel)
        else DoElsifs(s, i + 1, w.Past(Slots(s.elsifs[i].body, env.Keys, p)), env, p, fuel)
  }

  /** A loop that began when `since` values were returned. Where its condition fails, the else
      branch runs if the flag reads zero. */
  function DoLoop(s: Stmt, w: Where, since: nat, env: Env, p: Place, fuel: nat): Result
    requires s.While?
    decreases fuel, s, 1
  {
    if fuel == 0 then Result(Starved, env, [])
    else
      match Test(s.cond, env)
      case None => Result(Stuck, env, [])
      case Some(false) =>
        if FlagRead(w, since) == 0 then DoBlock(s.els, w.Past(FlagSlots(s) + Slots(s.body, env.Keys, p.(inLoop := true))), env, p, fuel)
        else Result(Fell, env, [])
      case Some(true) =>
        var r := DoBlock(s.body, w.Past(FlagSlots(s)), env, p.(inLoop := true), fuel);
        if r.outcome.Fell? || r.outcome.Continued? then After(r.trace, DoLoop(s, w.After(r.trace), since, r.env, p, fuel - 1))
        else if r.outcome.Broke? then r.(outcome := Fell)
        else r
  }

  // After the condition has failed.
  ghost function AtExit(s: Stmt, w: Where, since: nat, env: Env, p: Place, fuel: nat): Result
    requires s.While?
  {
    if FlagRead(w, since) == 0 then DoBlock(s.els, w.Past(FlagSlots(s) + Slots(s.body, env.Keys, p.(inLoop := true))), env, p, fuel)
    else Result(Fell, env, [])
  }

  lemma DoLoopUnfolds(s: Stmt, w: Where, since: nat, env: Env, p: Place, fuel: nat)
    requires s.While?
    ensures fuel == 0 ==> DoLoop(s, w, since, env, p, fuel) == Result(Starved, env, [])
    ensures fuel > 0 && Test(s.cond, env).Some? && !Test(s.cond, env).value ==> DoLoop(s, w, since, env, p, fuel) == AtExit(s, w, since, env, p, fuel)
    ensures fuel > 0 && Test(s.cond, env).Some? && Test(s.cond, env).value ==>
              var r := DoBlock(s.body, w.Past(FlagSlots(s)), env, p.(inLoop := true), fuel);
              DoLoop(s, w, since, env, p, fuel) ==
              if r.outcome.Fell? || r.outcome.Continued? then After(r.trace, DoLoop(s, w.After(r.trace), since, r.env, p, fuel - 1))
              else if r.outcome.Broke? then r.(outcome := Fell)
              else r
    ensures fuel > 0 && Test(s.cond, env).None? ==> DoLoop(s, w, since, env, p, fuel) == Result(Stuck, env, [])
  {
    hide DoBlock, Slots;
  }

  function DoCases(s: Stmt, i: nat, v: Int64, w: Where, env: Env, p: Place, fuel: nat): Result
    requires s.Match? && i <= |s.cases|
    decreases fuel, s, 1, |s.cases| - i
  {
    if i == |s.cases| then Result(Fell, env, [])
    else
      match Takes(s.cases[i], v, env)
      case None => Result(Stuck, env, [])
      case Some(b) =>
        if b then DoBlock(s.cases[i].body, w, env, p, fuel)
        else DoCases(s, i + 1, v, w.Past(Slots(s.cases[i].body, env.Keys, p)), env, p, fuel)
  }

  // ---- where it is the structured meaning ----

  /** Whatever the stack holds at the start of a call is zero. */
  ghost predicate Zeroed(stack: nat -> map<nat, Int64>) {
    forall k: nat, slot: nat {:trigger Get(stack(k), slot)} :: Get(stack(k), slot) == 0
  }

  // No flag is read after a yield, or what is read is zero.
  ghost predicate Reliable(ss: seq<Stmt>, w: Where, p: Place) {
    p.gen ==> FlagsSafe(ss) || Zeroed(w.stack)
  }

  ghost predicate StmtReliable(s: Stmt, w: Where, p: Place) {
    p.gen ==> StmtFlagsSafe(s) || Zeroed(w.stack)
  }

  lemma EmptyBlockExec(env: Env, w: Where, p: Place, fuel: nat)
    ensures ExecBlock([], env, p, fuel) == Result(Fell, env, []) == DoBlock([], w, env, p, fuel)
  {
    assert Restrict(env, env.Keys) == env;
  }

  // Without yields nothing is returned on the way.
  lemma {:induction false} QuietList(ss: seq<Stmt>, env: Env, p: Place, fuel: nat)
    requires p.gen ==> !HasYield(ss)
    ensures ExecList(ss, env, p, fuel).trace == []
    decreases fuel, ss, 0
  {
    if ss != [] {
      Quiet(ss[0], env, p, fuel);
      var r := Exec(ss[0], env, p, fuel);
      QuietList(ss[1..], r.env, p, fuel);
    }
  }

  lemma {:induction false} Quiet(s: Stmt, env: Env, p: Place, fuel: nat)
    requires p.gen ==> !StmtHasYield(s)
    ensures Exec(s, env, p, fuel).trace == []
    decreases fuel, s, 2
  {
    match s
    case If(_, thn, _, _) =>
      QuietList(thn, env, p, fuel);
      QuietElsifs(s, 0, env, p, fuel);
    case While(_, _, _) => QuietLoop(s, env, p, fuel);
    case Match(subject, cases) =>
      if cases != [] && Eval(subject, env).Some? {
        QuietCases(s, 0, Eval(subject, env).value, env, p, fuel);
      }
    case _ =>
  }

  lemma {:induction false} QuietElsifs(s: Stmt, i: nat, env: Env, p: Place, fuel: nat)
    requires s.If? && i <= |s.elsifs| && (p.gen ==> !StmtHasYield(s))
    ensures ExecElsifs(s, i, env, p, fuel).trace == []
    decreases fuel, s, 1, |s.elsifs| - i
  {
    if i == |s.elsifs| {
      QuietList(s.els, env, p, fuel);
    } else {
      QuietList(s.elsifs[i].body, env, p, fuel);
      QuietElsifs(s, i + 1, env, p, fuel);
    }
  }

  lemma {:induction false} QuietLoop(s: Stmt, env: Env, p: Place, fuel: nat)
    requires s.While? && (p.gen ==> !StmtHasYield(s))
    ensures ExecLoop(s, env, p, fuel).trace == []
    decreases fuel, s, 1
  {
    if fuel > 0 {
      QuietList(s.els, env, p, fuel);
      QuietList(s.body, env, p.(inLoop := true), fuel);
      QuietLoop(s, ExecBlock(s.body, env, p.(inLoop := true), fuel).env, p, fuel - 1);
    }
  }

  lemma {:induction false} QuietCases(s: Stmt, i: nat, v: Int64, env: Env, p: Place, fuel: nat)
    requires s.Match? && i <= |s.cases| && (p.gen ==> !StmtHasYield(s))
    ensures ExecCases(s, i, v, env, p, fuel).trace == []
    decreases fuel, s, 1, |s.cases| - i
  {
    if i < |s.cases| {
      QuietList(s.cases[i].body, env, p, fuel);
      QuietCases(s, i + 1, v, env, p, fuel);
    }
  }

  /** In an ordinary function, in a generator without yields in the bodies of loops with an
      else branch, and on a stack of zeros, a lowered body means what it says. */
  lemma {:induction false} ListAgrees(ss: seq<Stmt>, w: Where, env: Env, p: Place, fuel: nat)
    requires Reliable(ss, w, p)
    ensures DoList(ss, w, env, p, fuel) == ExecList(ss, env, p, fuel)
    decreases fuel, ss, 0
  {
    if ss != [] {
      Agrees(ss[0], w, env, p, fuel);
      var r := Exec(ss[0], env, p, fuel);
      ListAgrees(ss[1..], w.Past(StmtSlots(ss[0], env.Keys, p)).After(r.trace), r.env, p, fuel);
    }
  }

  lemma {:induction false} Agrees(s: Stmt, w: Where, env: Env, p: Place, fuel: nat)
    requires StmtReliable(s, w, p)
    ensures Do(s, w, env, p, fuel) == Exec(s, env, p, fuel)
    decreases fuel, s, 2
  {
    hide Zeroed;
    match s
    case If(_, thn, _, _) =>
      ListAgrees(thn, w, env, p, fuel);
      ElsifsAgree(s, 0, w.Past(Slots(thn, env.Keys, p)), env, p, fuel);
    case While(_, _, _) => LoopAgrees(s, w, w.returned, env, p, fuel);
    case Match(subject, cases) =>
      if cases != [] && Eval(subject, env).Some? {
        CasesAgree(s, 0, Eval(subject, env).value, w.Past(1), env, p, fuel);
      }
    case _ =>
  }

  lemma {:induction false} ElsifsAgree(s: Stmt, i: nat, w: Where, env: Env, p: Place, fuel: nat)
    requires s.If? && i <= |s.elsifs| && StmtReliable(s, w, p)
    ensures DoElsifs(s, i, w, env, p, fuel) == ExecElsifs(s, i, env, p, fuel)
    decreases fuel, s, 1, |s.elsifs| - i
  {
    hide Zeroed;
    if i == |s.elsifs| {
      ListAgrees(s.els, w, env, p, fuel);
    } else {
      ListAgrees(s.elsifs[i].body, w, env, p, fuel);
      ElsifsAgree(s, i + 1, w.Past(Slots(s.elsifs[i].body, env.Keys, p)), env, p, fuel);
    }
  }

  lemma {:induction false} CasesAgree(s: Stmt, i: nat, v: Int64, w: Where, env: Env, p: Place, fuel: nat)
    requires s.Match? && i <= |s.cases| && StmtReliable(s, w, p)
    ensures DoCases(s, i, v, w, env, p, fuel) == ExecCases(s, i, v, env, p, fuel)
    decreases fuel, s, 1, |s.cases| - i
  {
    hide Zeroed;
    if i < |s.cases| {
      ListAgrees(s.cases[i].body, w, env, p, fuel);
      CasesAgree(s, i + 1, v, w.Past(Slots(s.cases[i].body, env.Keys, p)), env, p, fuel);
    }
  }

  // The flag, if there is one, reads zero.
  ghost predicate Clear(s: Stmt, w: Where, since: nat, p: Place)
    requires s.While?
  {
    s.els == [] || w.returned == since || (p.gen && Zeroed(w.stack))
  }

  lemma ClearReads(s: Stmt, w: Where, since: nat, env: Env, p: Place, fuel: nat)
    requires s.While? && Clear(s, w, since, p)
    ensures s.els != [] ==> FlagRead(w, since) == 0
    ensures s.els == [] ==> ExecBlock(s.els, env, p, fuel) == Result(Fell, env, [])
  {
    EmptyBlockExec(env, w, p, fuel);
  }

  lemma ExecLoopUnfolds(s: Stmt, env: Env, p: Place, fuel: nat)
    requires s.While?
    ensures fuel == 0 ==> ExecLoop(s, env, p, fuel) == Result(Starved, env, [])
    ensures fuel > 0 && Test(s.cond, env).Some? && !Test(s.cond, env).value ==> ExecLoop(s, env, p, fuel) == ExecBlock(s.els, env, p, fuel)
    ensures fuel > 0 && Test(s.cond, env).Some? && Test(s.cond, env).value ==>
              var r := ExecBlock(s.body, env, p.(inLoop := true), fuel);
              ExecLoop(s, env, p, fuel) ==
              if r.outcome.Fell? || r.outcome.Continued? then After(r.trace, ExecLoop(s, r.env, p, fuel - 1))
              else if r.outcome.Broke? then r.(outcome := Fell)
              else r
    ensures fuel > 0 && Test(s.cond, env).None? ==> ExecLoop(s, env, p, fuel) == Result(Stuck, env, [])
  {
    hide ExecBlock;
  }

  lemma {:induction false} LoopAgrees(s: Stmt, w: Where, since: nat, env: Env, p: Place, fuel: nat)
    requires s.While? && StmtReliable(s, w, p) && Clear(s, w, since, p)
    ensures DoLoop(s, w, since, env, p, fuel) == ExecLoop(s, env, p, fuel)
    decreases fuel, s, 1
  {
    hide Zeroed, FlagRead, DoLoop, ExecLoop, Slots;
    DoLoopUnfolds(s, w, since, env, p, fuel);
    ExecLoopUnfolds(s, env, p, fuel);
    if fuel > 0 {
      var inside := p.(inLoop := true);
      ListAgrees(s.els, w.Past(FlagSlots(s) + Slots(s.body, env.Keys, inside)), env, p, fuel);
      ClearReads(s, w, since, env, p, fuel);
      EmptyBlockExec(env, w, p, fuel);
      ListAgrees(s.body, w.Past(FlagSlots(s)), env, inside, fuel);
      var r := ExecBlock(s.body, env, inside, fuel);
      if s.els != [] && !(p.gen && Zeroed(w.stack)) {
        QuietList(s.body, env, inside, fuel);
      }
      LoopAgrees(s, w.After(r.trace), since, r.env, p, fuel - 1);
    }
  }
}
