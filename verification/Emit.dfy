/** What the code generator emits, as a function from its state before to its state after. None is
    the error for a name that is not in scope. What each function leaves well formed, and what
    only grows, is in its contract; what the code does is proved in the modules that run it. */
module Emit {
  import opened Wrappers
  import opened Ast
  import opened Semantics
  import opened Machine

  // The header and exit blocks of a loop, and the slot of its did-break flag when it has an else branch.
  datatype Loop = Loop(header: nat, exit: nat, didBreak: Option<nat>)

  /** The generator's state: the blocks so far, the block it appends to, the next unused
      register and stack slot, the name scopes (innermost last), the enclosing loops
      (innermost last) and, for a generator, the slots saved at a yield and the resume blocks. */
  datatype State = State(blocks: seq<Block>, cur: nat, nextReg: nat, nextSlot: nat,
                         scopes: seq<map<string, nat>>, loops: seq<Loop>,
                         tracked: seq<nat>, resume: seq<nat>, gen: bool)
  {
    ghost predicate Valid() {
      cur < |blocks| && scopes != []
    }

    predicate Open() requires cur < |blocks| {
      blocks[cur].term.None?
    }

    function Append(i: Instr): State requires cur < |blocks| {
      this.(blocks := blocks[cur := blocks[cur].(instrs := blocks[cur].instrs + [i])])
    }

    function Close(t: Term): State requires cur < |blocks| {
      this.(blocks := blocks[cur := blocks[cur].(term := Some(t))])
    }

    function NewBlock(): State {
      this.(blocks := blocks + [EmptyBlock])
    }

    function At(b: nat): State {
      this.(cur := b)
    }

    function PushScope(): State {
      this.(scopes := scopes + [map[]])
    }

    function PopScope(): State {
      if scopes == [] then this else this.(scopes := scopes[..|scopes| - 1])
    }

    function PushLoop(l: Loop): State {
      this.(loops := loops + [l])
    }

    function PopLoop(): State {
      if loops == [] then this else this.(loops := loops[..|loops| - 1])
    }

    /** Binds the name in the innermost scope; a generator also saves the slot at its yields. */
    function Declare(x: string, slot: nat): State {
      var scoped := if scopes == [] then this else this.(scopes := Bind(scopes, x, slot));
      if gen && slot !in tracked then scoped.(tracked := tracked + [slot]) else scoped
    }
  }

  function Bind(scopes: seq<map<string, nat>>, x: string, slot: nat): seq<map<string, nat>>
    requires scopes != []
  {
    var inner: map<string, nat> := scopes[|scopes| - 1][x := slot];
    scopes[..|scopes| - 1] + [inner]
  }

  /** The innermost binding of a name. */
  function Lookup(scopes: seq<map<string, nat>>, x: string): Option<nat> {
    if scopes == [] then None
    else if x in scopes[|scopes| - 1] then Some(scopes[|scopes| - 1][x])
    else Lookup(scopes[..|scopes| - 1], x)
  }

  /** What emitting a statement leaves well formed. */
  ghost predicate Grown(e: State, r: State) {
    && e.scopes != [] && r.Valid() && |e.blocks| <= |r.blocks|
    && e.nextReg <= r.nextReg && e.nextSlot <= r.nextSlot
    && |r.scopes| == |e.scopes| && r.scopes[..|r.scopes| - 1] == e.scopes[..|e.scopes| - 1]
    && r.loops == e.loops && r.gen == e.gen && e.tracked <= r.tracked && e.resume <= r.resume && FreshTracked(e, r)
  }

  // Only slots that were taken since are saved in addition.
  ghost predicate FreshTracked(e: State, r: State) {
    forall t {:trigger t in r.tracked} :: t in r.tracked ==> t in e.tracked || e.nextSlot <= t < r.nextSlot
  }

  // Everything but an assignment leaves the names in scope as they were.
  ghost predicate GrownInScope(e: State, r: State) {
    Grown(e, r) && r.scopes == e.scopes
  }

  /** Emitting an expression adds code and registers, and nothing else. */
  ghost predicate OnlyCode(e: State, r: State) {
    && r.Valid() && |e.blocks| <= |r.blocks| && e.nextReg <= r.nextReg
    && r.nextSlot == e.nextSlot && r.scopes == e.scopes && r.loops == e.loops
    && r.tracked == e.tracked && r.resume == e.resume && r.gen == e.gen
  }

  /** Appends an instruction that defines the next register. */
  function Define(e: State, i: Instr): (r: State)
    requires e.Valid()
    ensures OnlyCode(e, r) && |r.blocks| == |e.blocks| && r.cur == e.cur && r.nextReg == e.nextReg + 1
  {
    e.Append(i).(nextReg := e.nextReg + 1)
  }

  /** None is the error for a name that is not in scope. */
  function EmitExpr(x: Expr, e: State): (r: Option<(State, Value)>)
    requires e.Valid()
    ensures r.Some? ==> OnlyCode(e, r.value.0)
    decreases x
  {
    match x
    case Lit(n) => Some((e, Imm(n)))
    case Var(name) =>
      var slot :- Lookup(e.scopes, name);
      Some((Define(e, Load(e.nextReg, slot)), Reg(e.nextReg)))
    case Arith(op, l, r) =>
      var (e1, a) :- EmitExpr(l, e);
      var (e2, b) :- EmitExpr(r, e1);
      Some((Define(e2, Calc(e2.nextReg, op, a, b)), Reg(e2.nextReg)))
    case Neg(o) =>
      var (e1, a) :- EmitExpr(o, e);
      Some((Define(e1, Calc(e1.nextReg, Sub, Imm(0), a)), Reg(e1.nextReg)))
    case Pow(b, n) =>
      var (e1, a) :- EmitExpr(b, e);
      var (e2, k) :- EmitExpr(n, e1);
      Some(EmitPow(e2, a, k))
  }

  /** A loop that multiplies and counts down. */
  function EmitPow(e: State, base: Value, exp: Value): (r: (State, Value))
    requires e.Valid()
    ensures OnlyCode(e, r.0) && |r.0.blocks| == |e.blocks| + 3
  {
    var n, g, e5 := |e.blocks|, e.nextReg, PowHeader(e, exp);
    var e6 := Define(e5, Calc(g + 3, Mul, Reg(g), base));
    var e7 := Define(e6, Calc(g + 4, Sub, Reg(g + 1), Imm(1)));
    (e7.Close(Br(n)).At(n + 1), Reg(g))
  }

  /** The header merges the start values with the registers the body will define; enters the body. */
  function PowHeader(e: State, exp: Value): (r: State)
    requires e.Valid()
    ensures OnlyCode(e, r) && |r.blocks| == |e.blocks| + 3 && r.cur == |e.blocks| + 2 && r.nextReg == e.nextReg + 3
  {
    PowTest(e.NewBlock().NewBlock().Close(Br(|e.blocks|)).At(|e.blocks|), e.cur, exp, |e.blocks| + 1)
  }

  /** The phis of the values that come from block `pre` or from the body, and the test. */
  function PowTest(e: State, pre: nat, exp: Value, done: nat): (r: State)
    requires e.Valid()
    ensures OnlyCode(e, r) && |r.blocks| == |e.blocks| + 1 && r.cur == |e.blocks| && r.nextReg == e.nextReg + 3
  {
    var body, g := |e.blocks|, e.nextReg;
    var e1 := Define(e, Phi(g, pre, Imm(1), body, Reg(g + 3)));
    var e2 := Define(e1, Phi(g + 1, pre, exp, body, Reg(g + 4)));
    var e3 := Define(e2, Compare(g + 2, Lte, Reg(g + 1), Imm(0)));
    e3.NewBlock().Close(CondBr(Reg(g + 2), done, body)).At(body)
  }

  // How `And` and `Or` branch on their left side: to the right side or past it.
  function Decide(c: Cond, a: Value, rhs: nat): Term {
    if c.And? then CondBr(a, rhs, rhs + 1) else CondBr(a, rhs + 1, rhs)
  }

  // The code of `And` or `Or` after its right side: the merge block with its phi.
  function Joined(c: Cond, e: State, l: State, r: State, b: Value): (j: State)
    requires r.Valid() && |e.blocks| + 1 < |r.blocks|
    ensures OnlyCode(r, j)
  {
    Define(r.Close(Br(|e.blocks| + 1)).At(|e.blocks| + 1), JoinPhi(c, l, r, b))
  }

  function JoinPhi(c: Cond, l: State, r: State, b: Value): Instr {
    Phi(r.nextReg, l.cur, Imm(Bit(c.Or?)), r.cur, b)
  }

  function EmitCond(c: Cond, e: State): (r: Option<(State, Value)>)
    requires e.Valid()
    ensures r.Some? ==> OnlyCode(e, r.value.0)
    decreases c
  {
    match c
    case Cmp(op, l, r) =>
      var (e1, a) :- EmitExpr(l, e);
      var (e2, b) :- EmitExpr(r, e1);
      Some((Define(e2, Compare(e2.nextReg, op, a, b)), Reg(e2.nextReg)))
    case Truth(x) =>
      var (e1, a) :- EmitExpr(x, e);
      Some((Define(e1, Compare(e1.nextReg, Neq, a, Imm(0))), Reg(e1.nextReg)))
    case Not(d) =>
      var (e1, a) :- EmitCond(d, e);
      Some((Define(e1, Invert(e1.nextReg, a)), Reg(e1.nextReg)))
    case And(d0, d1) =>
      var (l, a) :- EmitCond(d0, e.NewBlock().NewBlock());
      var (r, b) :- EmitCond(d1, l.Close(Decide(c, a, |e.blocks|)).At(|e.blocks|));
      Some((Joined(c, e, l, r, b), Reg(r.nextReg)))
    case Or(d0, d1) =>
      var (l, a) :- EmitCond(d0, e.NewBlock().NewBlock());
      var (r, b) :- EmitCond(d1, l.Close(Decide(c, a, |e.blocks|)).At(|e.blocks|));
      Some((Joined(c, e, l, r, b), Reg(r.nextReg)))
  }

  /** A branch to `b`, unless the block already ended. */
  function CloseIfOpen(e: State, b: nat): (r: State)
    requires e.Valid()
    ensures GrownInScope(e, r) && |r.blocks| == |e.blocks|
  {
    if e.Open() then e.Close(Br(b)) else e
  }

  function EmitStmt(s: Stmt, e: State): (r: Option<State>)
    requires e.Valid()
    ensures r.Some? ==> Grown(e, r.value) && (!s.Assign? ==> GrownInScope(e, r.value))
    decreases s, 2
  {
    match s
    case Assign(x, v) => EmitAssign(x, v, e)
    case Pass => Some(e)
    case If(_, _, _, _) => EmitIf(s, e)
    case While(_, _, _) => EmitWhile(s, e)
    case Break => Some(EmitBreak(e))
    case Continue => Some(EmitContinue(e))
    case Return(x) => EmitReturn(x, e)
    case Match(_, _) => EmitMatch(s, e)
    case Yield(x) => EmitYield(x, e)
  }

  function EmitIf(s: Stmt, e: State): (r: Option<State>)
    requires s.If? && e.Valid()
    ensures r.Some? ==> GrownInScope(e, r.value)
    decreases s, 1, |s.elsifs| + 1
  {
    var (e1, v) :- EmitCond(s.cond, e);
    var merge := |e1.blocks| + 1;
    var e2 :- EmitBlock(s.thn, Fork(e1, v, Ways(s), |e1.blocks| + Ways(s) - 1));
    var e3 := CloseIfOpen(e2, merge);
    if Ways(s) == 2 then Some(e3.At(merge))
    else
      var e4 :- EmitElsifs(s, 0, merge, e3.At(merge + 1));
      Some(e4.At(merge))
  }

  // An if statement forks into its first branch, the block after it, and
  // a block for the rest if there is any.
  function Ways(s: Stmt): nat
    requires s.If?
  {
    if s.elsifs == [] && s.els == [] then 2 else 3
  }

  // Whether anything follows elsif `i`.
  predicate More(s: Stmt, i: nat)
    requires s.If?
  {
    i + 1 < |s.elsifs| || s.els != []
  }

  /** Creates `n` blocks and branches on `v` to the first of them or to `no`; enters the first. */
  function Fork(e: State, v: Value, n: nat, no: nat): (r: State)
    requires e.Valid() && n > 0
    ensures OnlyCode(e, r) && |r.blocks| == |e.blocks| + n && r.cur == |e.blocks|
  {
    AddBlocks(e, n).Close(CondBr(v, |e.blocks|, no)).At(|e.blocks|)
  }

  /** Sets the did-break flag of a loop with an else branch; outside a loop nothing is emitted. */
  function EmitBreak(e: State): (r: State)
    requires e.Valid()
    ensures GrownInScope(e, r)
  {
    if e.loops == [] then e
    else
      var l := e.loops[|e.loops| - 1];
      (if l.didBreak.Some? then e.Append(Store(l.didBreak.value, Imm(1))) else e).Close(Br(l.exit))
  }

  function EmitContinue(e: State): (r: State)
    requires e.Valid()
    ensures GrownInScope(e, r)
  {
    if e.loops == [] then e else e.Close(Br(e.loops[|e.loops| - 1].header))
  }

  /** In a generator the value is dropped: the generator is marked exhausted. */
  function EmitReturn(x: Option<Expr>, e: State): (r: Option<State>)
    requires e.Valid()
    ensures r.Some? ==> GrownInScope(e, r.value)
  {
    if e.gen then Some(e.Append(SetState(-1)).Close(Ret(Some(Imm(SENTINEL)))))
    else if x.None? then Some(e.Close(Ret(None)))
    else
      var (e1, v) :- EmitExpr(x.value, e);
      Some(e1.Close(Ret(Some(v))))
  }

  /** The subject is evaluated once, into a slot of its own. */
  function EmitMatch(s: Stmt, e: State): (r: Option<State>)
    requires s.Match? && e.Valid()
    ensures r.Some? ==> GrownInScope(e, r.value)
    decreases s, 1, |s.cases| + 1
  {
    if s.cases == [] then Some(e)
    else
      var (e1, v) :- EmitExpr(s.subject, e);
      var e2 :- EmitCases(s, 0, e1.nextSlot, |e1.blocks|, StartMatch(s, e1, v));
      Some(e2.At(|e1.blocks|))
  }

  /** Stores the subject and creates the block after the match and one block for each body. */
  function StartMatch(s: Stmt, e: State, v: Value): (r: State)
    requires s.Match? && e.Valid()
    ensures GrownInScope(e, r) && |r.blocks| == |e.blocks| + 1 + |s.cases| && r.cur == e.cur
  {
    AddBlocks(e.(nextSlot := e.nextSlot + 1).Append(Store(e.nextSlot, v)), 1 + |s.cases|)
  }

  function EmitAssign(x: string, v: Expr, e: State): (r: Option<State>)
    requires e.Valid()
    ensures r.Some? ==> Grown(e, r.value)
  {
    var (e1, a) :- EmitExpr(v, e);
    match Lookup(e1.scopes, x)
    case Some(slot) => Some(e1.Append(Store(slot, a)))
    case None =>
      var slot := e1.nextSlot;
      Some(e1.(nextSlot := slot + 1).Append(Store(slot, a)).Declare(x, slot))
  }

  function AddBlocks(e: State, n: nat): (r: State)
    ensures r == e.(blocks := r.blocks) && |r.blocks| == |e.blocks| + n
    decreases n
    ensures e.blocks <= r.blocks && forall b :: |e.blocks| <= b < |r.blocks| ==> r.blocks[b] == EmptyBlock
  {
    if n == 0 then e else AddBlocks(e.NewBlock(), n - 1)
  }

  function EmitBlock(ss: seq<Stmt>, e: State): (r: Option<State>)
    requires e.Valid()
    ensures r.Some? ==> GrownInScope(e, r.value)
    decreases ss, 1
  {
    var e1 :- EmitList(ss, e.PushScope());
    Some(e1.PopScope())
  }

  /** Stops at the first statement that ends the current block. */
  function EmitList(ss: seq<Stmt>, e: State): (r: Option<State>)
    requires e.Valid()
    ensures r.Some? ==> Grown(e, r.value)
    decreases ss, 0
  {
    if ss == [] then Some(e)
    else
      var e1 :- EmitStmt(ss[0], e);
      if e1.Open() then EmitList(ss[1..], e1) else Some(e1)
  }

  /** The rest of an if statement, emitted into the block its last failed test leads to. */
  function EmitElsifs(s: Stmt, i: nat, merge: nat, e: State): (r: Option<State>)
    requires s.If? && i <= |s.elsifs| && e.Valid() && merge < |e.blocks|
    ensures r.Some? ==> GrownInScope(e, r.value)
    decreases s, 1, |s.elsifs| - i
  {
    if i == |s.elsifs| then
      if s.els == [] then Some(e)
      else
        var e1 :- EmitBlock(s.els, e);
        Some(CloseIfOpen(e1, merge))
    else
      var e1 :- EmitElsif(s, i, merge, e);
      EmitElsifs(s, i + 1, merge, e1)
  }

  /** The test and the branch of elsif `i`; then the block its failed test leads to, if anything follows. */
  function EmitElsif(s: Stmt, i: nat, merge: nat, e: State): (r: Option<State>)
    requires s.If? && i < |s.elsifs| && e.Valid() && merge < |e.blocks|
    ensures r.Some? ==> GrownInScope(e, r.value)
    decreases s, 0
  {
    var (e1, v) :- EmitCond(s.elsifs[i].cond, e);
    var next := if More(s, i) then |e1.blocks| + 1 else merge;
    var e2 :- EmitBlock(s.elsifs[i].body, Fork(e1, v, if More(s, i) then 2 else 1, next));
    var e3 := CloseIfOpen(e2, merge);
    Some(if More(s, i) then e3.At(next) else e3)
  }

  function EmitWhile(s: Stmt, e: State): (r: Option<State>)
    requires s.While? && e.Valid()
    ensures r.Some? ==> GrownInScope(e, r.value)
    decreases s, 1
  {
    var e1 := OpenLoop(StartLoop(s, e));
    var (e2, v) :- EmitCond(s.cond, e1);
    var e3 :- EmitBlock(s.body, EnterBody(e2, v, e1.cur, FlagOf(s, e)));
    EmitLoopElse(s, FlagOf(s, e), LeaveBody(e3, e1.cur))
  }

  // The did-break flag of a loop that has an else branch.
  function FlagOf(s: Stmt, e: State): (r: Option<nat>)
    requires s.While?
    ensures r.None? <==> s.els == []
  {
    if s.els == [] then None else Some(e.nextSlot)
  }

  /** Clears the flag. */
  function StartLoop(s: Stmt, e: State): (r: State)
    requires s.While? && e.Valid()
    ensures GrownInScope(e, r) && |r.blocks| == |e.blocks| && r.cur == e.cur
  {
    if s.els == [] then e else e.(nextSlot := e.nextSlot + 1).Append(Store(e.nextSlot, Imm(0)))
  }

  /** The else branch of a loop, emitted from its exit block. */
  function EmitLoopElse(s: Stmt, flag: Option<nat>, e: State): (r: Option<State>)
    requires s.While? && (flag.None? <==> s.els == []) && e.Valid()
    ensures r.Some? ==> GrownInScope(e, r.value)
    decreases s, 0
  {
    if flag.None? then Some(e)
    else
      var after := |e.blocks| + 1;
      var e1 :- EmitBlock(s.els, TestFlag(e, flag.value));
      Some(CloseIfOpen(e1, after).At(after))
  }

  /** Back to the header unless the body ended; on in the exit block. */
  function LeaveBody(e: State, header: nat): (r: State)
    requires e.Valid() && header + 2 < |e.blocks|
    ensures r.Valid() && |r.blocks| == |e.blocks| && r.scopes == e.scopes
    ensures GrownInScope(e.PopLoop(), r)
  {
    CloseIfOpen(e.PopLoop(), header).At(header + 2)
  }

  /** Creates the header, body and exit blocks of a loop and enters the header. */
  function OpenLoop(e: State): (r: State)
    requires e.Valid()
    ensures OnlyCode(e, r) && |r.blocks| == |e.blocks| + 3 && r.cur == |e.blocks|
  {
    e.NewBlock().NewBlock().NewBlock().Close(Br(|e.blocks|)).At(|e.blocks|)
  }

  function EnterBody(e: State, v: Value, header: nat, flag: Option<nat>): (r: State)
    requires e.Valid() && header + 2 < |e.blocks|
    ensures r.Valid() && GrownInScope(e, r.PopLoop()) && r.scopes == e.scopes && |r.blocks| == |e.blocks|
    ensures r.loops == e.loops + [Loop(header, header + 2, flag)]
  {
    e.Close(CondBr(v, header + 1, header + 2)).At(header + 1).PushLoop(Loop(header, header + 2, flag))
  }

  /** Past the else branch if the loop ended with a break, into it otherwise. */
  function TestFlag(e: State, flag: nat): (r: State)
    requires e.Valid()
    ensures OnlyCode(e, r) && |r.blocks| == |e.blocks| + 2 && r.cur == |e.blocks|
  {
    var g, elseB := e.nextReg, |e.blocks|;
    Define(e.NewBlock().NewBlock(), Load(g, flag)).Close(CondBr(Reg(g), elseB + 1, elseB)).At(elseB)
  }

  /** The check of case `i` and everything after it. `slot` holds the subject, and the
      body of case `j` goes into block `merge + 1 + j`. */
  function EmitCases(s: Stmt, i: nat, slot: nat, merge: nat, e: State): (r: Option<State>)
    requires s.Match? && i < |s.cases| && e.Valid() && merge + |s.cases| < |e.blocks|
    ensures r.Some? ==> GrownInScope(e, r.value)
    decreases s, 1, |s.cases| - i
  {
    var e1 :- EmitCase(s, i, slot, merge, e);
    if i + 1 < |s.cases| then EmitCases(s, i + 1, slot, merge, e1) else Some(e1)
  }

  lemma NextCase(s: Stmt, i: nat, slot: nat, merge: nat, e: State)
    requires s.Match? && i < |s.cases| && e.Valid() && merge + |s.cases| < |e.blocks|
    ensures var c := EmitCase(s, i, slot, merge, e);
            EmitCases(s, i, slot, merge, e) ==
            if c.None? then None else if i + 1 < |s.cases| then EmitCases(s, i + 1, slot, merge, c.value) else c
  {
    hide EmitCase;
  }

  /** Check and body of case `i`; then the block its failed check leads to, if another case follows. */
  function EmitCase(s: Stmt, i: nat, slot: nat, merge: nat, e: State): (r: Option<State>)
    requires s.Match? && i < |s.cases| && e.Valid() && merge + |s.cases| < |e.blocks|
    ensures r.Some? ==> GrownInScope(e, r.value)
    decreases s, 0
  {
    var c := s.cases[i];
    var more := i + 1 < |s.cases|;
    var miss := if more then |e.blocks| else merge;
    var e1 :- EmitCheck(c, slot, merge + 1 + i, miss, if more then e.NewBlock() else e);
    var e2 :- EmitBlock(c.body, e1.At(merge + 1 + i));
    var e3 := CloseIfOpen(e2, merge);
    Some(if more then e3.At(miss) else e3)
  }

  /** The pattern test and the guard of one case: on to `body` or to `miss`. */
  function EmitCheck(c: Case, slot: nat, body: nat, miss: nat, e: State): (r: Option<State>)
    requires e.Valid()
    ensures r.Some? ==> GrownInScope(e, r.value)
  {
    var guardB := |e.blocks|;
    var e1 := if c.guard.Some? then e.NewBlock() else e;
    var hit := if c.guard.Some? then guardB else body;
    var e2 :- EmitPattern(c.pattern, slot, hit, miss, e1);
    if c.guard.None? then Some(e2)
    else
      var (e3, v) :- EmitCond(c.guard.value, e2.At(guardB));
      Some(e3.Close(CondBr(v, body, miss)))
  }

  function EmitPattern(pattern: Option<Expr>, slot: nat, hit: nat, miss: nat, e: State): (r: Option<State>)
    requires e.Valid()
    ensures r.Some? ==> GrownInScope(e, r.value)
  {
    if pattern.None? then Some(e.Close(Br(hit)))
    else
      var g := e.nextReg;
      var e1 := Define(e, Load(g, slot));
      var (e2, w) :- EmitExpr(pattern.value, e1);
      Some(Define(e2, Compare(e2.nextReg, Eq, Reg(g), w)).Close(CondBr(Reg(e2.nextReg), hit, miss)))
  }

  function SaveFrom(i: nat, e: State): (r: State)
    requires e.Valid() && i <= |e.tracked|
    ensures OnlyCode(e, r) && |r.blocks| == |e.blocks| && r.cur == e.cur
    decreases |e.tracked| - i
  {
    if i == |e.tracked| then e
    else SaveFrom(i + 1, Define(e, Load(e.nextReg, e.tracked[i])).Append(StoreSaved(i, Reg(e.nextReg))))
  }

  function RestoreFrom(i: nat, e: State): (r: State)
    requires e.Valid() && i <= |e.tracked|
    ensures OnlyCode(e, r) && |r.blocks| == |e.blocks| && r.cur == e.cur
    decreases |e.tracked| - i
  {
    if i == |e.tracked| then e
    else RestoreFrom(i + 1, Define(e, LoadSaved(e.nextReg, i)).Append(Store(e.tracked[i], Reg(e.nextReg))))
  }

  /** Saves the tracked slots, returns the value, and goes on in a new resume block that
      restores them. Outside a generator a yield emits nothing. */
  function EmitYield(x: Option<Expr>, e: State): (r: Option<State>)
    requires e.Valid()
    ensures r.Some? ==> GrownInScope(e, r.value)
  {
    if !e.gen then Some(e)
    else
      var (e1, v) :- if x.None? then Some((e, Imm(0))) else EmitExpr(x.value, e);
      Some(FinishYield(v, e1))
  }

  lemma YieldUnfolds(x: Option<Expr>, e: State)
    requires e.Valid()
    ensures !e.gen ==> EmitYield(x, e) == Some(e)
    ensures e.gen && x.None? ==> EmitYield(x, e) == Some(FinishYield(Imm(0), e))
    ensures e.gen && x.Some? ==>
              EmitYield(x, e) == var r := EmitExpr(x.value, e); if r.None? then None else Some(FinishYield(r.value.1, r.value.0))
  {
    hide EmitExpr, FinishYield;
  }

  function FinishYield(v: Value, e: State): (r: State)
    requires e.Valid()
    ensures GrownInScope(e, r) && |r.blocks| == |e.blocks| + 2
  {
    RestoreFrom(0, Suspend(v, e))
  }

  lemma FinishUnfolds(v: Value, e: State)
    requires e.Valid()
    ensures FinishYield(v, e) == RestoreFrom(0, Suspend(v, e))
  {
    hide RestoreFrom, Suspend;
  }

  /** Saves the slots, sets the next state, returns, and enters the resume block of that state. */
  function Suspend(v: Value, e: State): (r: State)
    requires e.Valid()
    ensures GrownInScope(e, r) && |r.blocks| == |e.blocks| + 2 && r.tracked == e.tracked
  {
    Split(v, SaveFrom(0, e).Append(SetState(|e.resume|)))
  }

  function Split(v: Value, e: State): (r: State)
    requires e.Valid()
    ensures GrownInScope(e, r) && |r.blocks| == |e.blocks| + 2 && r.tracked == e.tracked
  {
    var ret := |e.blocks|;
    var e1 := e.NewBlock().Close(Br(ret)).At(ret).Close(Ret(Some(v))).NewBlock();
    e1.(resume := e.resume + [ret + 1]).At(ret + 1)
  }

  // ---- whole functions ----

  /** Parameter `i` arrives in register `i` and moves to a slot of its own. */
  function BindParams(i: nat, params: seq<string>, e: State): (r: State)
    requires e.Valid() && i <= |params|
    ensures Grown(e, r) && |r.blocks| == |e.blocks| && r.cur == e.cur
    decreases |params| - i
  {
    if i == |params| then e
    else BindParams(i + 1, params, e.(nextSlot := e.nextSlot + 1).Append(Store(e.nextSlot, Reg(i))).Declare(params[i], e.nextSlot))
  }

  function FunctionEntry(params: seq<string>): (r: State)
    ensures r.Valid()
  {
    State([EmptyBlock], 0, |params|, 0, [map[]], [], [], [], false)
  }

  /** A function that returns an integer: falling off the end returns zero. */
  function EmitFunction(params: seq<string>, body: seq<Stmt>): Option<Program> {
    var e :- EmitList(body, BindParams(0, params, FunctionEntry(params)));
    var done := if e.Open() then e.Close(Ret(Some(Imm(0)))) else e;
    Some(Program(done.blocks, done.resume, false))
  }

  /** In a generator each parameter has a slot that is saved like any other. */
  function DeclareParams(i: nat, params: seq<string>, e: State): (r: State)
    requires e.Valid() && i <= |params|
    ensures Grown(e, r) && r.blocks == e.blocks && r.cur == e.cur && r.resume == e.resume && r.nextReg == e.nextReg
    decreases |params| - i
  {
    if i == |params| then e
    else DeclareParams(i + 1, params, e.(nextSlot := e.nextSlot + 1).Declare(params[i], e.nextSlot))
  }

  lemma NextParam(i: nat, params: seq<string>, e: State)
    requires e.Valid() && i < |params|
    ensures DeclareParams(i, params, e) == DeclareParams(i + 1, params, e.(nextSlot := e.nextSlot + 1).Declare(params[i], e.nextSlot))
  {
  }

  // The entry block, the dispatch block, the done block and the block of state 0, entered.
  function ResumeEntry(): (r: State)
    ensures r.Valid()
  {
    State([Block([], Some(Br(1))), Block([], Some(Dispatch(2))), EmptyBlock, EmptyBlock], 3, 0, 0, [map[]], [], [], [3], true)
  }

  /** The resume function of a generator. Its done block marks it exhausted and returns the sentinel. */
  function EmitResume(params: seq<string>, body: seq<Stmt>): Option<Program> {
    var e :- EmitList(body, RestoreFrom(0, DeclareParams(0, params, ResumeEntry())));
    var done := FinishResume(e);
    Some(Program(done.blocks, done.resume, true))
  }

  function FinishResume(e: State): (r: State)
    requires e.Valid() && 2 < |e.blocks|
    ensures |r.blocks| == |e.blocks| && r.resume == e.resume
  {
    CloseIfOpen(e, 2).At(2).Append(SetState(-1)).Close(Ret(Some(Imm(SENTINEL))))
  }

  /** The lowering of a function: a generator if its body contains a yield. */
  function Lower(params: seq<string>, body: seq<Stmt>): Option<Program> {
    if ContainsYield(body) then EmitResume(params, body) else EmitFunction(params, body)
  }
}
