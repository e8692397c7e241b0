/** Blocks, branches, loops and matches: control reaches the emitted blocks the structured
    semantics chooses. The lemmas follow the emitter: first what the finished program has of the
    code of each stage, then the run through it, with the flag of a loop read as `Flagged` says. */
module Structured {
  import opened Wrappers
  import opened Ast
  import opened Semantics
  import opened Machine
  import opened Emit
  import opened Shape
  import opened Running
  import opened Simulation
  import opened Yielding
  import opened Flagged
  import opened SlotCounts

  // ---- small steps ----

  /** Where a compound statement ends, the next one can run. */
  lemma Arrive(m: Machine, f: Frame, e: State, env: Env, c: Config, r: State, y: Result, d: Config)
    requires Ready(m, f, e, env, c) && GrownInScope(e, r) && r.Open() && r.blocks[r.cur] == EmptyBlock
    requires FellInto(r.cur, e.scopes, y, d)
    ensures FellTo(m, f, r, y, d)
  {
    if y.outcome.Fell? {
      ReadyGrows(m, f, e, env, c, r, y.env, d);
    }
  }

  // Where the machine stands the names in scope have values.
  lemma ReadyStands(m: Machine, f: Frame, e: State, env: Env, c: Config)
    requires Ready(m, f, e, env, c)
    ensures Stands(e, env.Keys, PlaceOf(f))
  {
    forall x
      ensures Lookup(e.scopes, x).Some? <==> x in env.Keys
    {
      assert SlotHolds(Lookup(e.scopes, x), x, env, c.mem);
    }
  }

  lemma NextWhere(m: Machine, e: State, c: Config, r: State, d: Config, slots: nat, trace: seq<Int64>)
    requires c.Run? && d.Run? && d.out == c.out + trace && r.nextSlot == e.nextSlot + slots
    ensures WhereOf(m, r, d) == WhereOf(m, e, c).Past(slots).After(trace)
  {
  }

  lemma SameWhere(m: Machine, e: State, c: Config, r: State, d: Config, slots: nat)
    requires c.Run? && d.Run? && d.out == c.out && r.nextSlot == e.nextSlot + slots
    ensures WhereOf(m, r, d) == WhereOf(m, e, c).Past(slots)
  {
  }

  // A conditional branch that code after it shows.
  lemma FetchShown(m: Machine, e: State, b: State, c: Config, t: Term)
    requires e.Valid() && AtEnd(c, e) && Has(m, b) && e.cur < |b.blocks| && b.blocks[e.cur] == e.Close(t).blocks[e.cur]
    ensures Step(m, c) == Leave(m, t, c)
  {
    assert ExtendsAt(b.blocks, m.prog.blocks, e.cur);
  }

  /** A condition, and the branch on it. */
  lemma CondBranches(m: Machine, f: Frame, x: Cond, e: State, g: State, v: Value, b: State, yes: nat, no: nat, env: Env, c: Config)
    returns (n: nat, d: Config)
    requires Ready(m, f, e, env, c) && EmitCond(x, e) == Some((g, v)) && Has(m, g) && Has(m, b)
    requires g.cur < |b.blocks| && b.blocks[g.cur] == g.Close(CondBr(v, yes, no)).blocks[g.cur]
    ensures Test(x, env).Some? && Silent(m, f, c, n, d) && n > 0 && d.Run?
    ensures d.block == (if Test(x, env).value then yes else no) && d.pc == 0 && d.mem == c.mem
  {
    hide EmitCond, Touches, Has, Holds, Sound, Fits;
    var n1, c1 := CondRuns(m, x, e, env, c);
    SilentExpr(m, f, e, g, v, Bit(Test(x, env).value), c, n1, c1);
    FetchShown(m, g, b, c1, CondBr(v, yes, no));
    SilentThen(m, f, c, n1, c1);
    n, d := n1 + 1, Step(m, c1);
  }

  lemma ListNames(ss: seq<Stmt>, e: State)
    requires e.Valid() && EmitList(ss, e).Some?
    ensures Below(e.scopes, EmitList(ss, e).value.scopes)
    decreases ss
  {
    if ss != [] {
      var e1 := EmitStmt(ss[0], e).value;
      StmtNames(ss[0], e);
      if e1.Open() {
        ListNames(ss[1..], e1);
        BelowTrans(e.scopes, e1.scopes, EmitList(ss[1..], e1).value.scopes);
      }
    }
  }

  lemma StmtNames(s: Stmt, e: State)
    requires e.Valid() && EmitStmt(s, e).Some?
    ensures Below(e.scopes, EmitStmt(s, e).value.scopes)
  {
    if s.Assign? {
      var (e1, a) := EmitExpr(s.value, e).value;
      if Lookup(e1.scopes, s.name).None? {
        forall x | Lookup(e.scopes, x).Some?
          ensures Lookup(Bind(e.scopes, s.name, e1.nextSlot), x) == Lookup(e.scopes, x)
        {
          LookupBind(e.scopes, s.name, e1.nextSlot, x);
        }
      }
    }
  }

  /** Leaving a block forgets its own names and nothing else. */
  lemma RestrictHolds(outer: seq<map<string, nat>>, scopes: seq<map<string, nat>>, env: Env, mem: map<nat, Int64>, env': Env, mem': map<nat, Int64>)
    requires Below(outer, scopes) && Holds(outer, env, mem) && Holds(scopes, env', mem')
    ensures Holds(outer, Restrict(env', env.Keys), mem')
  {
    forall x
      ensures SlotHolds(Lookup(outer, x), x, Restrict(env', env.Keys), mem')
    {
      assert SlotHolds(Lookup(outer, x), x, env, mem);
      assert SlotHolds(Lookup(scopes, x), x, env', mem');
    }
  }

  lemma RestrictCovers(outer: seq<map<string, nat>>, scopes: seq<map<string, nat>>, env: Env, mem: map<nat, Int64>, env': Env, mem': map<nat, Int64>)
    requires Below(outer, scopes) && Holds(scopes, env, mem) && Covers(outer, env', mem')
    ensures Covers(outer, Restrict(env', env.Keys), mem')
  {
    forall x | Lookup(outer, x).Some?
      ensures x in Restrict(env', env.Keys) && env'[x] == Get(mem', Lookup(outer, x).value)
    {
      assert SlotHolds(Lookup(scopes, x), x, env, mem);
    }
  }

  // With no names besides its own, an environment that covers the scopes fits them.
  lemma CoversHolds(scopes: seq<map<string, nat>>, env: Env, mem: map<nat, Int64>, env': Env, mem': map<nat, Int64>)
    requires Holds(scopes, env, mem) && Covers(scopes, env', mem') && env'.Keys <= env.Keys
    ensures Holds(scopes, env', mem')
  {
    forall x
      ensures SlotHolds(Lookup(scopes, x), x, env', mem')
    {
      assert SlotHolds(Lookup(scopes, x), x, env, mem);
    }
  }

  lemma EmptyBlockRuns(env: Env, p: Place, fuel: nat)
    ensures forall w :: DoBlock([], w, env, p, fuel) == Result(Fell, env, [])
  {
    assert Restrict(env, env.Keys) == env;
  }

  // ---- lists and nested blocks ----

  lemma {:induction false} ListRuns(m: Machine, f: Frame, ss: seq<Stmt>, e: State, env: Env, fuel: nat, c: Config) returns (n: nat, d: Config)
    requires Ready(m, f, e, env, c) && EmitList(ss, e).Some? && Loaded(m, EmitList(ss, e).value)
    ensures var y := DoList(ss, WhereOf(m, e, c), env, PlaceOf(f), fuel);
            Lands(m, f, y, fuel, c, n, d) && FellTo(m, f, EmitList(ss, e).value, y, d)
    decreases fuel, ss, 0
  {
    hide Has, Touches, EmitStmt, Do, StmtSlots, Holds, Sound, Fits, Stands;
    if ss == [] {
      n, d := 0, c;
      assert c.out + [] == c.out;
    } else {
      var e1 := EmitStmt(ss[0], e).value;
      FirstHas(m, ss, e);
      n, d := StmtRuns(m, f, ss[0], e, env, fuel, c);
      var w := WhereOf(m, e, c);
      var x := Do(ss[0], w, env, PlaceOf(f), fuel);
      if x.outcome.Fell? {
        var n1, c1 := n, d;
        ReadyStands(m, f, e, env, c);
        StmtCounts(ss[0], e, env.Keys, PlaceOf(f));
        NextWhere(m, e, c, e1, c1, StmtSlots(ss[0], env.Keys, PlaceOf(f)), x.trace);
        n, d := ListRuns(m, f, ss[1..], e1, x.env, fuel, c1);
        Sequence(m, f, x, DoList(ss[1..], WhereOf(m, e1, c1), x.env, PlaceOf(f), fuel), fuel, c, n1, c1, n, d);
        n := n1 + n;
      }
    }
  }

  lemma FirstHas(m: Machine, ss: seq<Stmt>, e: State)
    requires e.Valid() && e.Open() && Linked(e) && ss != [] && EmitList(ss, e).Some? && Loaded(m, EmitList(ss, e).value)
    ensures Loaded(m, EmitStmt(ss[0], e).value)
  {
    hide Touches, EmitStmt, Has;
    var e1 := EmitStmt(ss[0], e).value;
    if e1.Open() {
      var r := EmitList(ss[1..], e1).value;
      ListTouches(ss[1..], e1);
      HasEarlier(m, e1, r, OpenOf(r));
    }
  }

  lemma {:induction false} BlockRuns(m: Machine, f: Frame, ss: seq<Stmt>, e: State, env: Env, fuel: nat, c: Config) returns (n: nat, d: Config)
    requires Ready(m, f, e, env, c) && EmitBlock(ss, e).Some? && Loaded(m, EmitBlock(ss, e).value)
    ensures var y := DoBlock(ss, WhereOf(m, e, c), env, PlaceOf(f), fuel);
            Lands(m, f, y, fuel, c, n, d) && FellTo(m, f, EmitBlock(ss, e).value, y, d)
    decreases fuel, ss, 1
  {
    hide EmitList, DoList, Holds, Sound, Below, Covers, Fits, Extends;
    var e1 := e.PushScope();
    PushSame(e.scopes);
    ReadyGrows(m, f, e, env, c, e1, env, c);
    n, d := ListRuns(m, f, ss, e1, env, fuel, c);
    BlockEnds(m, f, ss, e, env, fuel, c, n, d);
  }

  lemma BlockEnds(m: Machine, f: Frame, ss: seq<Stmt>, e: State, env: Env, fuel: nat, c: Config, n: nat, d: Config)
    requires Ready(m, f, e, env, c) && EmitBlock(ss, e).Some?
    requires var y := DoList(ss, WhereOf(m, e, c), env, PlaceOf(f), fuel);
             Lands(m, f, y, fuel, c, n, d) && FellTo(m, f, EmitList(ss, e.PushScope()).value, y, d)
    ensures var y := DoBlock(ss, WhereOf(m, e, c), env, PlaceOf(f), fuel);
            Lands(m, f, y, fuel, c, n, d) && FellTo(m, f, EmitBlock(ss, e).value, y, d)
  {
    hide EmitList, DoList, Holds, Sound, Below, Covers, Extends, Restrict, Private;
    var y := DoList(ss, WhereOf(m, e, c), env, PlaceOf(f), fuel);
    var e1, r := EmitList(ss, e.PushScope()).value, EmitBlock(ss, e).value;
    if y.outcome.Fell? {
      ListNames(ss, e.PushScope());
      PushBelow(e.scopes, e1.scopes);
      RestrictHolds(e.scopes, e1.scopes, env, c.mem, y.env, d.mem);
      SameNamesRefl(e.scopes);
      ReadyGrows(m, f, e, env, c, r, Restrict(y.env, env.Keys), d);
    } else if y.outcome.Broke? || y.outcome.Continued? {
      RestrictCovers(f.outer, e.scopes, env, c.mem, y.env, d.mem);
    }
  }

  lemma SameNamesRefl(scopes: seq<map<string, nat>>)
    ensures SameNames(scopes, scopes)
  {
  }

  lemma PushBelow(scopes: seq<map<string, nat>>, inner: seq<map<string, nat>>)
    requires Below(scopes + [map[]], inner)
    ensures Below(scopes, inner)
  {
    forall x | Lookup(scopes, x).Some?
      ensures Lookup(inner, x) == Lookup(scopes, x)
    {
      LookupPush(scopes, x);
    }
  }

  /** A nested block that goes on to block `to`. */
  lemma {:induction false} BranchRuns(m: Machine, f: Frame, ss: seq<Stmt>, e: State, to: nat, env: Env, fuel: nat, c: Config) returns (n: nat, d: Config)
    requires Ready(m, f, e, env, c) && EmitBlock(ss, e).Some? && to < |e.blocks|
    requires Loaded(m, CloseIfOpen(EmitBlock(ss, e).value, to))
    ensures var y := DoBlock(ss, WhereOf(m, e, c), env, PlaceOf(f), fuel);
            Lands(m, f, y, fuel, c, n, d) && FellInto(to, e.scopes, y, d)
    decreases fuel, ss, 2
  {
    hide EmitBlock, DoBlock, Holds, Sound, Fits, Extends, Covers;
    var r := EmitBlock(ss, e).value;
    if r.Open() {
      CloseTouches(r, Br(to));
      HasEarlier(m, r, r.Close(Br(to)), {});
    }
    n, d := BlockRuns(m, f, ss, e, env, fuel, c);
    var y := DoBlock(ss, WhereOf(m, e, c), env, PlaceOf(f), fuel);
    if y.outcome.Fell? {
      FetchTerm(m, r, d, Br(to));
      Then(m, c, n, d);
      n, d := n + 1, Step(m, d);
    }
  }

  lemma {:induction false} StmtRuns(m: Machine, f: Frame, s: Stmt, e: State, env: Env, fuel: nat, c: Config) returns (n: nat, d: Config)
    requires Ready(m, f, e, env, c) && EmitStmt(s, e).Some? && Loaded(m, EmitStmt(s, e).value)
    ensures var y := Do(s, WhereOf(m, e, c), env, PlaceOf(f), fuel);
            Lands(m, f, y, fuel, c, n, d) && FellTo(m, f, EmitStmt(s, e).value, y, d)
    decreases fuel, s, 2
  {
    hide Has, Holds, Sound, Fits, Lands, FellTo, EmitExpr, EmitCond, Loaded;
    match s
    case Assign(x, v) => n, d := AssignRuns(m, f, x, v, e, env, fuel, c);
    case Pass => n, d := PassRuns(m, f, e, env, c);
    case If(_, _, _, _) => n, d := IfRuns(m, f, s, e, env, fuel, c);
    case While(_, _, _) => n, d := WhileRuns(m, f, s, e, env, fuel, c);
    case Break => n, d := BreakRuns(m, f, e, env, fuel, c);
    case Continue => n, d := ContinueRuns(m, f, e, env, fuel, c);
    case Return(x) =>
      n, d := ReturnRuns(m, f, x, e, env, fuel, c);
      ReturnedFell(m, f, EmitStmt(s, e).value, Exec(s, env, PlaceOf(f), fuel), d);
    case Match(_, _) => n, d := MatchRuns(m, f, s, e, env, fuel, c);
    case Yield(x) => n, d := YieldRuns(m, f, x, e, env, fuel, c);
  }

  lemma ReturnedFell(m: Machine, f: Frame, r: State, x: Result, d: Config)
    requires x.outcome.Returned?
    ensures FellTo(m, f, r, x, d)
  {
  }

  lemma PassRuns(m: Machine, f: Frame, e: State, env: Env, c: Config) returns (n: nat, d: Config)
    requires Ready(m, f, e, env, c)
    ensures forall fuel: nat :: Lands(m, f, Result(Fell, env, []), fuel, c, n, d)
    ensures FellTo(m, f, e, Result(Fell, env, []), d)
  {
    n, d := 0, c;
    assert c.out + [] == c.out;
  }

  // ---- if ----

  lemma IfHas(m: Machine, s: Stmt, e: State, g: State, v: Value, b: State, t: State)
    requires IfStages(s, e, g, v, b, t) && e.Open() && Linked(e) && EmitIf(s, e).Some? && Loaded(m, EmitIf(s, e).value)
    ensures Has(m, g) && Has(m, b) && Loaded(m, t) && b.Open() && b.blocks[b.cur] == EmptyBlock && Linked(b)
    ensures b.blocks[g.cur] == g.Close(CondBr(v, |g.blocks|, |g.blocks| + Ways(s) - 1)).blocks[g.cur]
    ensures forall k: nat :: |g.blocks| < k < |g.blocks| + Ways(s) ==> t.blocks[k] == EmptyBlock
    ensures EmitIf(s, e).value.cur == |g.blocks| + 1 && EmitIf(s, e).value.Open()
    ensures EmitIf(s, e).value.blocks[|g.blocks| + 1] == EmptyBlock
  {
    hide Touches, EmitCond, EmitBlock, EmitElsifs, Fork, CloseIfOpen, Has;
    ThenTouches(s, e, g, v, b, t);
    IfTouches(s, e);
    var merge := |g.blocks| + 1;
    if Ways(s) == 3 {
      var u := t.At(merge + 1);
      var r := EmitElsifs(s, 0, merge, u).value;
      ElsifsTouches(s, 0, merge, u);
      AtHas(m, r, merge);
      HasEarlier(m, u, r, {});
      AtHas(m, t, merge + 1);
    } else {
      AtHas(m, t, merge);
    }
    HasEarlier(m, b, t, {});
    HasEarlier(m, g, b, Ids(|g.blocks|, |g.blocks| + Ways(s)));
  }

  lemma AtHas(m: Machine, r: State, b: nat)
    ensures Has(m, r.At(b)) <==> Has(m, r)
  {
  }

  lemma {:induction false} IfRuns(m: Machine, f: Frame, s: Stmt, e: State, env: Env, fuel: nat, c: Config) returns (n: nat, d: Config)
    requires s.If? && Ready(m, f, e, env, c) && EmitIf(s, e).Some? && Loaded(m, EmitIf(s, e).value)
    ensures var y := Do(s, WhereOf(m, e, c), env, PlaceOf(f), fuel);
            Lands(m, f, y, fuel, c, n, d) && FellTo(m, f, EmitIf(s, e).value, y, d)
    decreases fuel, s, 1, |s.elsifs| + 1
  {
    hide EmitCond, EmitBlock, EmitElsifs, EmitIf, Has, Holds, Sound, Fits, Lands, Silent, DoBlock, DoElsifs, Touches, Fork, CloseIfOpen, Stands, Slots, WhereOf;
    var g, v, b, t := IfUnfolds(s, e);
    var merge, r := |g.blocks| + 1, EmitIf(s, e).value;
    IfHas(m, s, e, g, v, b, t);
    var n1, c1 := CondBranches(m, f, s.cond, e, g, v, b, |g.blocks|, |g.blocks| + Ways(s) - 1, env, c);
    SilentRuns(m, f, c, n1, c1);
    ReadyStands(m, f, e, env, c);
    IfSlots(s, e, g, v, b, t, env.Keys, PlaceOf(f));
    var w := WhereOf(m, e, c);
    var y := Do(s, w, env, PlaceOf(f), fuel);
    SameNamesRefl(e.scopes);
    if Test(s.cond, env).value {
      SameWhere(m, e, c, b, c1, 0);
      ReadyGrows(m, f, e, env, c, b, env, c1);
      n, d := BranchRuns(m, f, s.thn, b, merge, env, fuel, c1);
    } else if Ways(s) == 2 {
      ElsifsDone(s, 0, w.Past(Slots(s.thn, env.Keys, PlaceOf(f))), env, PlaceOf(f), fuel);
      n, d := StayRuns(m, f, env, fuel, c1);
    } else {
      var u := t.At(merge + 1);
      AtHas(m, EmitElsifs(s, 0, merge, u).value, merge);
      SameWhere(m, e, c, u, c1, Slots(s.thn, env.Keys, PlaceOf(f)));
      ReadyGrows(m, f, e, env, c, u, env, c1);
      n, d := ElsifsRuns(m, f, s, 0, merge, u, env, fuel, c1);
    }
    Prepend(m, f, y, fuel, c, n1, c1, n, d);
    n := n1 + n;
    Arrive(m, f, e, env, c, r, y, d);
  }

  lemma IfSlots(s: Stmt, e: State, g: State, v: Value, b: State, t: State, names: set<string>, p: Place)
    requires IfStages(s, e, g, v, b, t) && Stands(e, names, p)
    ensures b.nextSlot == e.nextSlot && t.nextSlot == e.nextSlot + Slots(s.thn, names, p)
  {
    hide EmitCond, EmitBlock, Touches, Fork, NamesAre, Slots;
    CondTouches(s.cond, e);
    ForkStands(e, g, v, Ways(s), |g.blocks| + Ways(s) - 1, names, p);
    BlockCounts(s.thn, b, names, p);
    CloseCounts(EmitBlock(s.thn, b).value, |g.blocks| + 1);
  }

  // Nothing to run.
  lemma StayRuns(m: Machine, f: Frame, env: Env, fuel: nat, c: Config) returns (n: nat, d: Config)
    requires c.Run?
    ensures d == c && Lands(m, f, Result(Fell, env, []), fuel, c, n, d)
  {
    n, d := 0, c;
    assert c.out + [] == c.out;
  }

  lemma ElsifsDone(s: Stmt, i: nat, w: Where, env: Env, p: Place, fuel: nat)
    requires s.If? && i == |s.elsifs| && s.els == []
    ensures DoElsifs(s, i, w, env, p, fuel) == Result(Fell, env, [])
  {
    EmptyBlockRuns(env, p, fuel);
  }

  lemma ElsifHas(m: Machine, s: Stmt, i: nat, merge: nat, e: State, g: State, v: Value, b: State, t: State)
    requires ElsifStages(s, i, merge, e, g, v, b, t) && e.Open() && Linked(e) && merge < |e.blocks|
    requires EmitElsifs(s, i, merge, e).Some? && Loaded(m, EmitElsifs(s, i, merge, e).value)
    ensures Has(m, g) && Has(m, b) && Loaded(m, t) && b.Open() && b.blocks[b.cur] == EmptyBlock && Linked(b)
    ensures b.blocks[g.cur] == g.Close(CondBr(v, |g.blocks|, if More(s, i) then |g.blocks| + 1 else merge)).blocks[g.cur]
    ensures More(s, i) ==> t.blocks[|g.blocks| + 1] == EmptyBlock
  {
    hide Touches, EmitCond, EmitBlock, Fork, CloseIfOpen, Has, OnlyCode;
    ElsifBranchTouches(s, i, merge, e, g, v, b, t);
    if More(s, i) {
      var u := t.At(|g.blocks| + 1);
      MoveTouches(e, t, {|g.blocks| + 1}, |g.blocks| + 1);
      ElsifsTouches(s, i + 1, merge, u);
      HasEarlier(m, u, EmitElsifs(s, i + 1, merge, u).value, {});
      AtHas(m, t, |g.blocks| + 1);
    }
    HasEarlier(m, b, t, {});
    HasEarlier(m, g, b, Ids(|g.blocks|, |g.blocks| + if More(s, i) then 2 else 1));
  }

  lemma ElseUnfolds(s: Stmt, merge: nat, e: State)
    requires s.If? && s.els != [] && e.Valid() && merge < |e.blocks|
    ensures EmitElsifs(s, |s.elsifs|, merge, e).Some? <==> EmitBlock(s.els, e).Some?
    ensures EmitBlock(s.els, e).Some? ==> EmitElsifs(s, |s.elsifs|, merge, e).value == CloseIfOpen(EmitBlock(s.els, e).value, merge)
  {
    hide EmitCond, EmitBlock, Fork, CloseIfOpen;
  }

  lemma {:induction false} ElsifsRuns(m: Machine, f: Frame, s: Stmt, i: nat, merge: nat, e: State, env: Env, fuel: nat, c: Config)
    returns (n: nat, d: Config)
    requires s.If? && i <= |s.elsifs| && (i < |s.elsifs| || s.els != []) && merge < |e.blocks|
    requires Ready(m, f, e, env, c) && EmitElsifs(s, i, merge, e).Some? && Loaded(m, EmitElsifs(s, i, merge, e).value)
    ensures var y := DoElsifs(s, i, WhereOf(m, e, c), env, PlaceOf(f), fuel);
            Lands(m, f, y, fuel, c, n, d) && FellInto(merge, e.scopes, y, d)
    decreases fuel, s, 1, |s.elsifs| - i
  {
    hide EmitCond, EmitBlock, EmitElsifs, Has, Holds, Sound, Fits, Lands, Silent, DoBlock, DoElsifs, Touches, Fork, CloseIfOpen, Stands, Slots, WhereOf;
    var w, p := WhereOf(m, e, c), PlaceOf(f);
    DoElsifsUnfolds(s, i, w, env, p, fuel);
    if i == |s.elsifs| {
      ElseUnfolds(s, merge, e);
      n, d := BranchRuns(m, f, s.els, e, merge, env, fuel, c);
    } else {
      var g, v, b, t := ElsifUnfolds(s, i, merge, e);
      var no := if More(s, i) then |g.blocks| + 1 else merge;
      ElsifHas(m, s, i, merge, e, g, v, b, t);
      var n1, c1 := CondBranches(m, f, s.elsifs[i].cond, e, g, v, b, |g.blocks|, no, env, c);
      SilentRuns(m, f, c, n1, c1);
      ReadyStands(m, f, e, env, c);
      ElsifStageSlots(s, i, merge, e, g, v, b, t, env.Keys, p);
      SameNamesRefl(e.scopes);
      if Test(s.elsifs[i].cond, env).value {
        SameWhere(m, e, c, b, c1, 0);
        ReadyGrows(m, f, e, env, c, b, env, c1);
        n, d := BranchRuns(m, f, s.elsifs[i].body, b, merge, env, fuel, c1);
      } else if More(s, i) {
        SameWhere(m, e, c, t.At(no), c1, Slots(s.elsifs[i].body, env.Keys, p));
        ReadyGrows(m, f, e, env, c, t.At(no), env, c1);
        n, d := ElsifsRuns(m, f, s, i + 1, merge, t.At(no), env, fuel, c1);
      } else {
        ElsifsDone(s, i + 1, w.Past(Slots(s.elsifs[i].body, env.Keys, p)), env, p, fuel);
        n, d := StayRuns(m, f, env, fuel, c1);
      }
      Prepend(m, f, DoElsifs(s, i, w, env, p, fuel), fuel, c, n1, c1, n, d);
      n := n1 + n;
    }
  }

  lemma DoElsifsUnfolds(s: Stmt, i: nat, w: Where, env: Env, p: Place, fuel: nat)
    requires s.If? && i <= |s.elsifs|
    ensures DoElsifs(s, i, w, env, p, fuel) ==
            if i == |s.elsifs| then DoBlock(s.els, w, env, p, fuel)
            else match Test(s.elsifs[i].cond, env)
                 case None => Result(Stuck, env, [])
                 case Some(b) =>
                   if b then DoBlock(s.elsifs[i].body, w, env, p, fuel)
                   else DoElsifs(s, i + 1, w.Past(Slots(s.elsifs[i].body, env.Keys, p)), env, p, fuel)
  {
    hide DoBlock, Slots, Test;
  }

  lemma ElsifStageSlots(s: Stmt, i: nat, merge: nat, e: State, g: State, v: Value, b: State, t: State, names: set<string>, p: Place)
    requires ElsifStages(s, i, merge, e, g, v, b, t) && Stands(e, names, p) && merge < |e.blocks|
    ensures b.nextSlot == e.nextSlot && t.nextSlot == e.nextSlot + Slots(s.elsifs[i].body, names, p)
  {
    hide EmitCond, EmitBlock, Touches, Fork, NamesAre, Slots;
    CondTouches(s.elsifs[i].cond, e);
    ForkStands(e, g, v, if More(s, i) then 2 else 1, if More(s, i) then |g.blocks| + 1 else merge, names, p);
    BlockCounts(s.elsifs[i].body, b, names, p);
    CloseCounts(EmitBlock(s.elsifs[i].body, b).value, merge);
  }

  // ---- while ----

  // The body of a loop, up to the branch back to its header.
  ghost function BodyEnd(s: Stmt, h: State, b: State): State
    requires s.While? && b.Valid() && EmitBlock(s.body, b).Some?
  {
    CloseIfOpen(EmitBlock(s.body, b).value, h.cur)
  }

  lemma WhileHas(m: Machine, s: Stmt, e: State, h: State, g: State, v: Value, b: State, x: State)
    requires LoopStages(s, e, h, g, v, b, x) && e.Open() && Linked(e) && EmitWhile(s, e).Some? && Loaded(m, EmitWhile(s, e).value)
    requires EmitWhile(s, e) == EmitLoopElse(s, FlagOf(s, e), x) && x.cur == h.cur + 2 && b.cur == h.cur + 1
    ensures Has(m, h) && Has(m, g) && Has(m, b) && Loaded(m, x) && Loaded(m, BodyEnd(s, h, b))
    ensures Has(m, StartLoop(s, e)) && Has(m, StartLoop(s, e).Close(Br(h.cur)))
    ensures h.Open() && h.blocks[h.cur] == EmptyBlock && b.Open() && b.blocks[b.cur] == EmptyBlock && Linked(b)
    ensures x.Open() && x.blocks[x.cur] == EmptyBlock && Linked(x)
    ensures g.cur < |b.blocks| && b.blocks[g.cur] == g.Close(CondBr(v, h.cur + 1, h.cur + 2)).blocks[g.cur]
    ensures EmitWhile(s, e).value.Open() && EmitWhile(s, e).value.blocks[EmitWhile(s, e).value.cur] == EmptyBlock
    ensures s.els != [] ==> EmitWhile(s, e).value.cur == |x.blocks| + 1
  {
    hide Touches, EmitCond, EmitBlock, EmitLoopElse, EmitWhile, StartLoop, OpenLoop, Has;
    LoopTouches(s, e, h, g, v, b, x);
    StartLoopTouches(s, e);
    OpenLoopTouches(StartLoop(s, e));
    WhileTouches(s, e);
    if s.els == [] {
      assert EmitWhile(s, e) == Some(x) by {
        NoElseUnfolds(s, x);
      }
    } else {
      LoopElseTouches(s, FlagOf(s, e), x);
      HasEarlier(m, x, EmitWhile(s, e).value, {EmitWhile(s, e).value.cur});
    }
    BodyHas(m, s, h, b, x);
    HasEarlier(m, b, BodyEnd(s, h, b), {});
    EnteredHas(m, h, g, v, b);
    HasEarlier(m, h, g, {g.cur});
    OpenedHas(m, StartLoop(s, e), h);
  }

  lemma NoElseUnfolds(s: Stmt, x: State)
    requires s.While? && s.els == [] && x.Valid()
    ensures EmitLoopElse(s, None, x) == Some(x)
  {
  }

  lemma BodyHas(m: Machine, s: Stmt, h: State, b: State, x: State)
    requires s.While? && b.Valid() && b.loops != [] && h.cur + 2 < |b.blocks| && EmitBlock(s.body, b).Some?
    requires x == LeaveBody(EmitBlock(s.body, b).value, h.cur) && Loaded(m, x)
    requires Touches(b, CloseIfOpen(EmitBlock(s.body, b).value.PopLoop(), h.cur), {})
    ensures Loaded(m, BodyEnd(s, h, b)) && Touches(b, BodyEnd(s, h, b), {})
  {
    hide EmitBlock, Touches;
    ShiftTouches(b, CloseIfOpen(EmitBlock(s.body, b).value.PopLoop(), h.cur), b, BodyEnd(s, h, b), {}) by {
      WithinSelf(b, CloseIfOpen(EmitBlock(s.body, b).value.PopLoop(), h.cur));
    }
  }

  lemma WithinSelf(e: State, r: State)
    requires Touches(e, r, {})
    ensures Within(e, r, r.cur)
  {
  }

  lemma EnteredHas(m: Machine, h: State, g: State, v: Value, b: State)
    requires g.Valid() && g.Open() && Has(m, b) && b.blocks == g.Close(CondBr(v, h.cur + 1, h.cur + 2)).blocks
    requires h.cur + 2 < |g.blocks|
    ensures Has(m, g)
  {
    hide Touches;
    CloseTouches(g, CondBr(v, h.cur + 1, h.cur + 2));
    HasEarlier(m, g, g.Close(CondBr(v, h.cur + 1, h.cur + 2)), {});
  }

  lemma OpenedHas(m: Machine, e: State, h: State)
    requires e.Valid() && e.Open() && h == OpenLoop(e) && Has(m, h)
    ensures Has(m, e) && Has(m, e.Close(Br(|e.blocks|)))
  {
    hide Touches;
    OpenLoopTouches(e);
    HasEarlier(m, e, h, {|e.blocks|, |e.blocks| + 1, |e.blocks| + 2});
    forall b: nat
      ensures ExtendsAt(e.Close(Br(|e.blocks|)).blocks, m.prog.blocks, b)
    {
      assert ExtendsAt(e.blocks, m.prog.blocks, b) && ExtendsAt(h.blocks, m.prog.blocks, b);
    }
  }

  // The frame of a loop's body: the flag of the loop around it is one further out.
  ghost function BodyFrame(f: Frame, s: Stmt, e: State, header: nat): Frame
    requires s.While?
  {
    var flag := if f.loop.Some? && f.loop.value.didBreak.Some? then {f.loop.value.didBreak.value} else {};
    Frame(Some(Loop(header, header + 2, FlagOf(s, e))), f.gen, e.scopes, f.flags + flag)
  }

  // The stages of a loop that is being run: its code is there, and so is the rest of the program.
  ghost predicate LoopCode(m: Machine, f: Frame, s: Stmt, e: State, h: State, g: State, v: Value, b: State, x: State) {
    && s.While? && e.Valid() && LoopStages(s, e, h, g, v, b, x)
    && EmitWhile(s, e).Some? && Loaded(m, EmitWhile(s, e).value)
    && EmitWhile(s, e) == EmitLoopElse(s, FlagOf(s, e), x)
    && GrownInScope(e, h) && GrownInScope(e, g) && GrownInScope(h, x)
    && h.cur + 2 < |h.blocks| && b.loops == e.loops + [Loop(h.cur, h.cur + 2, FlagOf(s, e))] && b.cur == h.cur + 1
    && x.cur == h.cur + 2 && b.scopes == e.scopes && b.gen == e.gen && b.tracked == e.tracked && b.resume == e.resume
    && b.Valid() && b.nextSlot == h.nextSlot == e.nextSlot + FlagSlots(s) && h.nextSlot <= x.nextSlot
    && e.Valid() && e.Open() && Linked(e) && Sound(e) && Fits(f, e)
  }

  // The flag of a loop that began when `since` values were returned, before any break.
  ghost predicate FlagState(m: Machine, s: Stmt, e: State, since: nat, c: Config)
    requires s.While?
  {
    c.Run? && since <= |c.out| && (s.els != [] ==> Get(c.mem, e.nextSlot) == FlagRead(WhereOf(m, e, c), since))
  }

  /** The slots of a loop: the flag, then those of its body, then those of its else branch. */
  lemma LoopSlots(m: Machine, f: Frame, s: Stmt, e: State, h: State, g: State, v: Value, b: State, x: State, env: Env, q: Config)
    requires LoopCode(m, f, s, e, h, g, v, b, x) && Ready(m, f, h, env, q) && b.Open() && Linked(b)
    ensures x.nextSlot == e.nextSlot + FlagSlots(s) + Slots(s.body, env.Keys, PlaceOf(f).(inLoop := true))
  {
    hide EmitCond, EmitBlock, EmitWhile, EmitLoopElse, Has, Holds, OpenLoop, Sound, StartLoop, Slots;
    ReadyStands(m, f, h, env, q);
    assert Stands(b, env.Keys, PlaceOf(f).(inLoop := true));
    BlockCounts(s.body, b, env.Keys, PlaceOf(f).(inLoop := true));
    LeaveCounts(EmitBlock(s.body, b).value, h.cur);
  }

  lemma BodyReady(m: Machine, f: Frame, s: Stmt, e: State, h: State, g: State, v: Value, b: State, x: State, env: Env, q: Config, c: Config)
    requires LoopCode(m, f, s, e, h, g, v, b, x) && Ready(m, f, h, env, q)
    requires b.Open() && Linked(b) && AtEnd(c, b) && c.mem == q.mem
    ensures Ready(m, BodyFrame(f, s, e, h.cur), b, env, c)
  {
    hide EmitCond, EmitBlock, EmitWhile, EmitLoopElse, Has, Holds, OpenLoop, StartLoop;
    var fb := BodyFrame(f, s, e, h.cur);
    assert Sound(b) by {
      assert forall y :: Lookup(b.scopes, y) == Lookup(e.scopes, y);
    }
    assert Below(fb.outer, b.scopes);
    forall k | k in fb.flags || FlagIs(fb.loop, k)
      ensures Private(b, k)
    {
      if k in f.flags {
        assert Private(e, k);
      }
    }
    forall k | k in fb.flags
      ensures !FlagIs(fb.loop, k)
    {
      if k in f.flags {
        assert Private(e, k);
      }
    }
  }

  /** One time round whose body fell through or continued: back at the header. */
  lemma BackAtHeader(m: Machine, f: Frame, s: Stmt, e: State, h: State, g: State, v: Value, b: State, x: State, since: nat,
                     env: Env, q: Config, c: Config, y: Result, fuel: nat, n: nat, d: Config)
    returns (n': nat, d': Config)
    requires LoopCode(m, f, s, e, h, g, v, b, x) && Ready(m, f, h, env, q) && c.Run? && c.mem == q.mem && c.out == q.out
    requires h.Open() && h.blocks[h.cur] == EmptyBlock && Loaded(m, BodyEnd(s, h, b)) && y.env.Keys <= env.Keys
    requires Lands(m, BodyFrame(f, s, e, h.cur), y, fuel, c, n, d) && (y.outcome.Fell? || y.outcome.Continued?)
    requires FellTo(m, BodyFrame(f, s, e, h.cur), EmitBlock(s.body, b).value, y, d) && EmitBlock(s.body, b).value.scopes == e.scopes
    requires FlagState(m, s, e, since, q)
    ensures Steps(m, c, n') == d' && Ready(m, f, h, y.env, d') && d'.out == c.out + y.trace && d.Run? && d'.mem == d.mem
    ensures KeepsFlags(m, f, c, d') && KeepsFlag(m, f, c, d') && FlagState(m, s, e, since, d')
  {
    hide EmitCond, EmitBlock, EmitWhile, EmitLoopElse, Has, StartLoop, Sound, Below, Private, Linked, FlagState;
    var fb, t := BodyFrame(f, s, e, h.cur), EmitBlock(s.body, b).value;
    n', d' := n, d;
    if y.outcome.Fell? {
      FetchTerm(m, t, d, Br(h.cur));
      Then(m, c, n, d);
      n', d' := n + 1, Step(m, d);
    } else {
      CoversHolds(e.scopes, env, q.mem, y.env, d.mem);
    }
    SameNamesRefl(h.scopes);
    ReadyGrows(m, f, h, env, q, h, y.env, d');
    BodyKept(m, f, s, e, h.cur, c, d');
    FlagCarried(m, f, s, e, h.cur, since, q, c, d');
  }

  lemma BodyKept(m: Machine, f: Frame, s: Stmt, e: State, header: nat, c: Config, d: Config)
    requires s.While? && KeepsFlags(m, BodyFrame(f, s, e, header), c, d)
    ensures KeepsFlags(m, f, c, d) && KeepsFlag(m, f, c, d)
  {
    var fb := BodyFrame(f, s, e, header);
    assert forall k :: k in f.flags ==> k in fb.flags;
  }

  // The loop's own flag over one round.
  lemma FlagCarried(m: Machine, f: Frame, s: Stmt, e: State, header: nat, since: nat, q: Config, c: Config, d: Config)
    requires s.While? && FlagState(m, s, e, since, q) && c.Run? && c.mem == q.mem && c.out == q.out
    requires KeepsFlag(m, BodyFrame(f, s, e, header), c, d) && |c.out| <= |d.out|
    ensures FlagState(m, s, e, since, d)
  {
  }

  lemma {:induction false} LoopRuns(m: Machine, f: Frame, s: Stmt, e: State, h: State, g: State, v: Value, b: State, x: State, since: nat,
                                    env: Env, fuel: nat, q: Config)
    returns (n: nat, d: Config)
    requires LoopCode(m, f, s, e, h, g, v, b, x) && Ready(m, f, h, env, q) && FlagState(m, s, e, since, q)
    ensures var y := DoLoop(s, WhereOf(m, e, q), since, env, PlaceOf(f), fuel);
            Lands(m, f, y, fuel, q, n, d) && FellTo(m, f, EmitWhile(s, e).value, y, d)
    decreases fuel, s, 0
  {
    hide EmitCond, EmitBlock, EmitWhile, EmitLoopElse, Has, Holds, Sound, Fits, DoBlock, DoLoop, Lands, Silent, FellTo, LoopStages, StartLoop, OpenLoop,
         KeepsFlags, KeepsFlag, FlagState, Slots;
    var r, w := EmitWhile(s, e).value, WhereOf(m, e, q);
    DoLoopUnfolds(s, w, since, env, PlaceOf(f), fuel);
    if fuel == 0 {
      n, d := StarvedRuns(m, f, env, q, r);
    } else {
      LoopCodeHas(m, f, s, e, h, g, v, b, x);
      var n1, c1 := CondBranches(m, f, s.cond, h, g, v, b, h.cur + 1, h.cur + 2, env, q);
      SilentRuns(m, f, q, n1, c1);
      if !Test(s.cond, env).value {
        SameNamesRefl(h.scopes);
        ReadyGrows(m, f, h, env, q, x, env, c1);
        LoopSlots(m, f, s, e, h, g, v, b, x, env, q);
        FlagMoves(m, s, e, since, q, c1);
        n, d := ExitRuns(m, f, s, e, x, r, since, env, fuel, c1);
        Prepend(m, f, DoLoop(s, w, since, env, PlaceOf(f), fuel), fuel, q, n1, c1, n, d);
        n := n1 + n;
      } else {
        n, d := RoundRuns(m, f, s, e, h, g, v, b, x, since, env, fuel, q, n1, c1);
      }
    }
  }

  lemma FlagMoves(m: Machine, s: Stmt, e: State, since: nat, q: Config, c: Config)
    requires s.While? && FlagState(m, s, e, since, q) && c.Run? && c.mem == q.mem && c.out == q.out
    ensures FlagState(m, s, e, since, c) && WhereOf(m, e, c) == WhereOf(m, e, q)
  {
  }

  /** The condition has failed: the else branch runs if the flag reads zero. */
  lemma {:induction false} ExitRuns(m: Machine, f: Frame, s: Stmt, e: State, x: State, r: State, since: nat, env: Env, fuel: nat, c: Config)
    returns (n: nat, d: Config)
    requires s.While? && Ready(m, f, x, env, c) && EmitLoopElse(s, FlagOf(s, e), x) == Some(r) && Loaded(m, r)
    requires x.nextSlot == e.nextSlot + FlagSlots(s) + Slots(s.body, env.Keys, PlaceOf(f).(inLoop := true))
    requires FlagState(m, s, e, since, c) && r.Open() && r.blocks[r.cur] == EmptyBlock && (s.els != [] ==> r.cur == |x.blocks| + 1)
    ensures var y := AtExit(s, WhereOf(m, e, c), since, env, PlaceOf(f), fuel);
            Lands(m, f, y, fuel, c, n, d) && FellTo(m, f, r, y, d)
    decreases fuel, s.els, 4
  {
    hide EmitBlock, Has, Holds, Sound, Fits, DoBlock, Lands, Silent, KeepsFlags, KeepsFlag, EmitLoopElse, Touches, FellTo, Slots;
    var w := WhereOf(m, e, c);
    if s.els != [] && FlagRead(w, since) != 0 {
      n, d := SkipRuns(m, f, s, e, x, r, env, fuel, c);
    } else {
      SameWhere(m, e, c, x, c, FlagSlots(s) + Slots(s.body, env.Keys, PlaceOf(f).(inLoop := true)));
      EmptyBlockRuns(env, PlaceOf(f), fuel);
      n, d := ElseRuns(m, f, s, e, x, r, env, fuel, c);
    }
  }

  lemma StarvedRuns(m: Machine, f: Frame, env: Env, c: Config, r: State) returns (n: nat, d: Config)
    requires c.Run?
    ensures Lands(m, f, Result(Starved, env, []), 0, c, n, d) && FellTo(m, f, r, Result(Starved, env, []), d)
  {
    n, d := 0, c;
    assert c.out + [] == c.out;
  }

  lemma LoopCodeHas(m: Machine, f: Frame, s: Stmt, e: State, h: State, g: State, v: Value, b: State, x: State)
    requires LoopCode(m, f, s, e, h, g, v, b, x)
    ensures EmitCond(s.cond, h) == Some((g, v)) && Has(m, g) && Has(m, b) && Loaded(m, BodyEnd(s, h, b))
    ensures b.Open() && b.blocks[b.cur] == EmptyBlock && Linked(b) && h.Open() && h.blocks[h.cur] == EmptyBlock
    ensures g.cur < |b.blocks| && b.blocks[g.cur] == g.Close(CondBr(v, h.cur + 1, h.cur + 2)).blocks[g.cur]
    ensures x.Open() && x.blocks[x.cur] == EmptyBlock && Linked(x) && Loaded(m, x)
    ensures EmitWhile(s, e).value.Open() && EmitWhile(s, e).value.blocks[EmitWhile(s, e).value.cur] == EmptyBlock
    ensures s.els != [] ==> EmitWhile(s, e).value.cur == |x.blocks| + 1
    ensures EmitBlock(s.body, b).Some? && EmitBlock(s.body, b).value.scopes == e.scopes
    ensures BodyEnd(s, h, b) == CloseIfOpen(EmitBlock(s.body, b).value, h.cur)
  {
    hide EmitCond, EmitBlock, EmitWhile, EmitLoopElse, Has, StartLoop, OpenLoop, Sound, Fits, CloseIfOpen;
    WhileHas(m, s, e, h, g, v, b, x);
  }

  /** The condition holds: the body, and then the rest of the loop. */
  lemma {:induction false} RoundRuns(m: Machine, f: Frame, s: Stmt, e: State, h: State, g: State, v: Value, b: State, x: State, since: nat,
                                     env: Env, fuel: nat, q: Config, n1: nat, c1: Config)
    returns (n: nat, d: Config)
    requires LoopCode(m, f, s, e, h, g, v, b, x) && Ready(m, f, h, env, q) && FlagState(m, s, e, since, q)
    requires fuel > 0 && Test(s.cond, env) == Some(true) && Silent(m, f, q, n1, c1) && n1 > 0
    requires c1.Run? && c1.block == h.cur + 1 && c1.pc == 0 && c1.mem == q.mem
    ensures var y := DoLoop(s, WhereOf(m, e, q), since, env, PlaceOf(f), fuel);
            Lands(m, f, y, fuel, q, n, d) && FellTo(m, f, EmitWhile(s, e).value, y, d)
    decreases fuel, s.body, 3
  {
    hide EmitCond, EmitBlock, EmitWhile, EmitLoopElse, Has, Holds, Sound, Fits, DoBlock, DoLoop, LoopStages, StartLoop, OpenLoop, KeepsFlags, KeepsFlag,
         CloseIfOpen, FlagState, Lands, FellTo, Silent;
    var r, fb, w := EmitWhile(s, e).value, BodyFrame(f, s, e, h.cur), WhereOf(m, e, q);
    LoopCodeHas(m, f, s, e, h, g, v, b, x);
    SilentRuns(m, f, q, n1, c1);
    BodyReady(m, f, s, e, h, g, v, b, x, env, q, c1);
    BodyLoaded(m, s, h, b);
    var n2, c2 := BlockRuns(m, fb, s.body, b, env, fuel, c1);
    SameWhere(m, e, q, b, c1, FlagSlots(s));
    var y := DoBlock(s.body, w.Past(FlagSlots(s)), env, PlaceOf(fb), fuel);
    BlockKeys(s.body, w.Past(FlagSlots(s)), env, PlaceOf(fb), fuel);
    DoLoopUnfolds(s, w, since, env, PlaceOf(f), fuel);
    if y.outcome.Fell? || y.outcome.Continued? {
      var n3, c3 := BackAtHeader(m, f, s, e, h, g, v, b, x, since, env, q, c1, y, fuel, n2, c2);
      n, d := LoopRuns(m, f, s, e, h, g, v, b, x, since, y.env, fuel - 1, c3);
      NextWhere(m, e, q, e, c3, 0, y.trace);
      LoopsOn(m, f, q, n1, c1, y, n3, c3, DoLoop(s, WhereOf(m, e, c3), since, y.env, PlaceOf(f), fuel - 1), fuel, n, d);
      LoopFalls(m, f, r, y, DoLoop(s, WhereOf(m, e, c3), since, y.env, PlaceOf(f), fuel - 1), d);
      n := n1 + n3 + n;
    } else if y.outcome.Broke? {
      n, d := BrokeRuns(m, f, s, e, h, g, v, b, x, env, fuel, q, n1, c1, y, n2, c2);
    } else {
      n, d := n1 + n2, c2;
      LeavesLoop(m, f, fb, r, y, fuel, q, n1, c1, n2, c2);
    }
  }

  lemma LoopFalls(m: Machine, f: Frame, r: State, y: Result, z: Result, d: Config)
    requires FellTo(m, f, r, z, d)
    ensures FellTo(m, f, r, After(y.trace, z), d)
  {
  }

  lemma BodyLoaded(m: Machine, s: Stmt, h: State, b: State)
    requires s.While? && b.Valid() && EmitBlock(s.body, b).Some? && h.cur < |b.blocks| && Loaded(m, BodyEnd(s, h, b))
    ensures Loaded(m, EmitBlock(s.body, b).value)
  {
    hide EmitBlock, Touches, Has;
    var t := EmitBlock(s.body, b).value;
    if t.Open() {
      CloseTouches(t, Br(h.cur));
      HasEarlier(m, t, t.Close(Br(h.cur)), {});
    }
  }

  lemma BlockKeys(ss: seq<Stmt>, w: Where, env: Env, p: Place, fuel: nat)
    ensures DoBlock(ss, w, env, p, fuel).env.Keys <= env.Keys
  {
    hide DoList;
  }

  // A round, and then the rounds after it.
  lemma LoopsOn(m: Machine, f: Frame, q: Config, n1: nat, c1: Config, y: Result, n3: nat, c3: Config, z: Result, fuel: nat, n: nat, d: Config)
    requires fuel > 0 && Silent(m, f, q, n1, c1) && n1 > 0
    requires Steps(m, c1, n3) == c3 && c3.Run? && c3.out == c1.out + y.trace
    requires KeepsFlags(m, f, c1, c3) && KeepsFlag(m, f, c1, c3)
    requires Lands(m, f, z, fuel - 1, c3, n, d)
    ensures Lands(m, f, After(y.trace, z), fuel, q, n1 + n3 + n, d)
  {
    StepsAdd(m, q, n1, n3);
    StepsAdd(m, q, n1 + n3, n);
    assert q.out + y.trace + z.trace == q.out + (y.trace + z.trace);
  }

  // A return in the body, or a run that is longer than its fuel, leaves the loop as it is.
  lemma LeavesLoop(m: Machine, f: Frame, fb: Frame, r: State, y: Result, fuel: nat, q: Config, n1: nat, c1: Config, n2: nat, d: Config)
    requires Silent(m, f, q, n1, c1) && Lands(m, fb, y, fuel, c1, n2, d) && fb.gen == f.gen
    requires !y.outcome.Fell? && !y.outcome.Continued? && !y.outcome.Broke?
    ensures Lands(m, f, y, fuel, q, n1 + n2, d) && FellTo(m, f, r, y, d)
  {
    StepsAdd(m, q, n1, n2);
  }

  lemma LoopElseUnfolds(s: Stmt, flag: nat, x: State)
    requires s.While? && s.els != [] && x.Valid() && EmitLoopElse(s, Some(flag), x).Some?
    ensures EmitBlock(s.els, TestFlag(x, flag)).Some? && EmitBlock(s.els, TestFlag(x, flag)).value.Valid()
    ensures EmitLoopElse(s, Some(flag), x).value == CloseIfOpen(EmitBlock(s.els, TestFlag(x, flag)).value, |x.blocks| + 1).At(|x.blocks| + 1)
  {
    hide EmitBlock, CloseIfOpen, TestFlag;
  }

  lemma OnlyCodeGrown(e: State, r: State)
    requires e.Valid() && OnlyCode(e, r)
    ensures GrownInScope(e, r)
  {
  }

  lemma ElseHas(m: Machine, s: Stmt, flag: nat, x: State, r: State)
    requires s.While? && s.els != [] && x.Valid() && x.Open() && Linked(x) && EmitLoopElse(s, Some(flag), x) == Some(r) && Loaded(m, r)
    ensures var t := TestFlag(x, flag);
            && Has(m, t) && t.Open() && Linked(t) && t.blocks[t.cur] == EmptyBlock && t.cur == |x.blocks| && GrownInScope(x, t)
            && x.cur < |t.blocks|
            && t.blocks[x.cur] == x.Append(Load(x.nextReg, flag)).Close(CondBr(Reg(x.nextReg), |x.blocks| + 1, |x.blocks|)).blocks[x.cur]
            && EmitBlock(s.els, t).Some? && Loaded(m, CloseIfOpen(EmitBlock(s.els, t).value, |x.blocks| + 1))
  {
    hide EmitBlock, Touches, Has, CloseIfOpen, EmitLoopElse, TestFlag, Linked, Grown;
    var t := TestFlag(x, flag);
    OnlyCodeGrown(x, t);
    TestFlagTouches(x, flag);
    LoopElseTouches(s, Some(flag), x);
    LoopElseUnfolds(s, flag, x);
    var u := CloseIfOpen(EmitBlock(s.els, t).value, |x.blocks| + 1);
    AtHas(m, u, |x.blocks| + 1);
    HasEarlier(m, t, u, {});
  }

  /** The exit block of a loop with an else branch tests the flag. */
  lemma FlagRuns(m: Machine, f: Frame, flag: nat, x: State, t: State, c: Config) returns (d: Config)
    requires x.Valid() && AtEnd(c, x) && Has(m, t) && x.cur < |t.blocks|
    requires t.blocks[x.cur] == x.Append(Load(x.nextReg, flag)).Close(CondBr(Reg(x.nextReg), |x.blocks| + 1, |x.blocks|)).blocks[x.cur]
    ensures Silent(m, f, c, 2, d) && d.pc == 0 && d.mem == c.mem
    ensures d.block == if Get(c.mem, flag) != 0 then |x.blocks| + 1 else |x.blocks|
  {
    assert ExtendsAt(t.blocks, m.prog.blocks, x.cur);
    var c1 := Step(m, c);
    FetchShown(m, x.Append(Load(x.nextReg, flag)), t, c1, CondBr(Reg(x.nextReg), |x.blocks| + 1, |x.blocks|));
    d := Step(m, c1);
    Then(m, c, 0, c);
    Then(m, c, 1, c1);
  }

  /** The flag reads zero: the else branch runs. */
  lemma {:induction false} ElseRuns(m: Machine, f: Frame, s: Stmt, e: State, x: State, r: State, env: Env, fuel: nat, c: Config)
    returns (n: nat, d: Config)
    requires s.While? && Ready(m, f, x, env, c) && EmitLoopElse(s, FlagOf(s, e), x) == Some(r) && Loaded(m, r)
    requires (s.els != [] ==> Get(c.mem, e.nextSlot) == 0 && r.cur == |x.blocks| + 1) && r.Open() && r.blocks[r.cur] == EmptyBlock
    ensures var y := DoBlock(s.els, WhereOf(m, x, c), env, PlaceOf(f), fuel);
            Lands(m, f, y, fuel, c, n, d) && FellTo(m, f, r, y, d)
    decreases fuel, s.els, 3
  {
    hide EmitBlock, Has, Holds, Sound, Fits, DoBlock, Lands, Silent, KeepsFlags, KeepsFlag, CloseIfOpen, Touches;
    if s.els == [] {
      EmptyBlockRuns(env, PlaceOf(f), fuel);
      n, d := StayRuns(m, f, env, fuel, c);
    } else {
      var y := DoBlock(s.els, WhereOf(m, x, c), env, PlaceOf(f), fuel);
      var t := TestFlag(x, e.nextSlot);
      ElseHas(m, s, e.nextSlot, x, r);
      var c1 := FlagRuns(m, f, e.nextSlot, x, t, c);
      SilentRuns(m, f, c, 2, c1);
      SameNamesRefl(x.scopes);
      ReadyGrows(m, f, x, env, c, t, env, c1);
      SameWhere(m, x, c, t, c1, 0);
      n, d := BranchRuns(m, f, s.els, t, |x.blocks| + 1, env, fuel, c1);
      Prepend(m, f, y, fuel, c, 2, c1, n, d);
      n := 2 + n;
      Arrive(m, f, x, env, c, r, y, d);
    }
  }

  lemma SilentRuns(m: Machine, f: Frame, c: Config, n: nat, d: Config)
    requires Silent(m, f, c, n, d)
    ensures d.Run? && d.out == c.out
  {
  }

  /** A break was taken: the else branch is skipped. */
  lemma SkipRuns(m: Machine, f: Frame, s: Stmt, e: State, x: State, r: State, env: Env, fuel: nat, c: Config) returns (n: nat, d: Config)
    requires s.While? && Ready(m, f, x, env, c) && EmitLoopElse(s, FlagOf(s, e), x) == Some(r) && Loaded(m, r)
    requires s.els != [] ==> Get(c.mem, e.nextSlot) != 0
    requires r.Open() && r.blocks[r.cur] == EmptyBlock && (s.els != [] ==> r.cur == |x.blocks| + 1)
    ensures Lands(m, f, Result(Fell, env, []), fuel, c, n, d) && FellTo(m, f, r, Result(Fell, env, []), d)
  {
    hide EmitBlock, Has, Holds, Sound, Fits, Lands, Silent, KeepsFlags, KeepsFlag, CloseIfOpen, Touches;
    if s.els == [] {
      n, d := StayRuns(m, f, env, fuel, c);
    } else {
      ElseHas(m, s, e.nextSlot, x, r);
      var c1 := FlagRuns(m, f, e.nextSlot, x, TestFlag(x, e.nextSlot), c);
      SilentRuns(m, f, c, 2, c1);
      n, d := StayRuns(m, f, env, fuel, c1);
      Prepend(m, f, Result(Fell, env, []), fuel, c, 2, c1, n, d);
      n := 2 + n;
      Arrive(m, f, x, env, c, r, Result(Fell, env, []), d);
    }
  }

  /** The body broke: on past the else branch. */
  lemma BrokeRuns(m: Machine, f: Frame, s: Stmt, e: State, h: State, g: State, v: Value, b: State, x: State,
                  env: Env, fuel: nat, q: Config, n1: nat, c1: Config, y: Result, n2: nat, c2: Config)
    returns (n: nat, d: Config)
    requires LoopCode(m, f, s, e, h, g, v, b, x) && Ready(m, f, h, env, q)
    requires Silent(m, f, q, n1, c1) && c1.mem == q.mem
    requires Lands(m, BodyFrame(f, s, e, h.cur), y, fuel, c1, n2, c2) && y.outcome.Broke? && y.env.Keys <= env.Keys
    ensures Lands(m, f, y.(outcome := Fell), fuel, q, n, d) && FellTo(m, f, EmitWhile(s, e).value, y.(outcome := Fell), d)
  {
    hide EmitCond, EmitBlock, EmitWhile, EmitLoopElse, Has, StartLoop, OpenLoop, Sound, Fits, Touches, CloseIfOpen;
    LoopCodeHas(m, f, s, e, h, g, v, b, x);
    CoversHolds(e.scopes, env, q.mem, y.env, c2.mem);
    SameNamesRefl(h.scopes);
    ReadyGrows(m, f, h, env, q, x, y.env, c2);
    n, d := SkipRuns(m, f, s, e, x, EmitWhile(s, e).value, y.env, fuel, c2);
    BodyKept(m, f, s, e, h.cur, c1, c2);
    BrokeLands(m, f, y, fuel, q, n1, c1, n2, c2, n, d);
    n := n1 + n2 + n;
  }

  lemma BrokeLands(m: Machine, f: Frame, y: Result, fuel: nat, q: Config, n1: nat, c1: Config, n2: nat, c2: Config, n: nat, d: Config)
    requires Silent(m, f, q, n1, c1) && Steps(m, c1, n2) == c2 && c2.Run? && c2.out == c1.out + y.trace
    requires KeepsFlags(m, f, c1, c2) && KeepsFlag(m, f, c1, c2)
    requires Lands(m, f, Result(Fell, y.env, []), fuel, c2, n, d)
    ensures Lands(m, f, y.(outcome := Fell), fuel, q, n1 + n2 + n, d)
  {
    StepsAdd(m, q, n1, n2);
    StepsAdd(m, q, n1 + n2, n);
    assert q.out + y.trace + [] == q.out + y.trace;
  }

  /** Up to the header, with the flag clear. */
  lemma EnterLoopRuns(m: Machine, f: Frame, s: Stmt, e: State, h: State, env: Env, c: Config) returns (n: nat, d: Config)
    requires s.While? && Ready(m, f, e, env, c) && h == OpenLoop(StartLoop(s, e)) && h.Open() && h.blocks[h.cur] == EmptyBlock
    requires Has(m, StartLoop(s, e)) && Has(m, StartLoop(s, e).Close(Br(h.cur)))
    ensures Silent(m, f, c, n, d) && Ready(m, f, h, env, d) && FlagState(m, s, e, |c.out|, d)
  {
    hide Touches, Has, OpenLoop, Sound, Below;
    var e1 := StartLoop(s, e);
    n := 0;
    var c1 := c;
    if s.els != [] {
      FetchStore(m, e, e1, c, Store(e.nextSlot, Imm(0)));
      c1 := Step(m, c);
      Then(m, c, 0, c);
      n := 1;
    }
    FetchTerm(m, e1, c1, Br(h.cur));
    d := Step(m, c1);
    Then(m, c, n, c1);
    n := n + 1;
    FreshSlot(m, f, e, env, c, d, e.nextSlot);
    SameNamesRefl(e.scopes);
    ReadyGrows(m, f, e, env, c, h, env, d);
  }

  lemma FetchStore(m: Machine, e: State, e1: State, c: Config, i: Instr)
    requires e.Valid() && AtEnd(c, e) && e1.blocks == e.Append(i).blocks && Has(m, e1)
    ensures Step(m, c) == Perform(i, c)
  {
    FetchInstr(m, e, c, i);
  }

  // Writing a slot no name has yet changes nothing that matters.
  lemma FreshSlot(m: Machine, f: Frame, e: State, env: Env, c: Config, d: Config, slot: nat)
    requires c.Run? && d.Run? && d.out == c.out && Sound(e) && Fits(f, e) && Holds(e.scopes, env, c.mem) && e.nextSlot <= slot
    requires d.mem == c.mem || (slot in d.mem && d.mem == c.mem[slot := d.mem[slot]])
    ensures KeepsFlags(m, f, c, d) && KeepsFlag(m, f, c, d) && Holds(e.scopes, env, d.mem)
  {
    forall x
      ensures SlotHolds(Lookup(e.scopes, x), x, env, d.mem)
    {
      assert SlotHolds(Lookup(e.scopes, x), x, env, c.mem);
    }
    forall k | k in f.flags
      ensures Get(d.mem, k) == Get(c.mem, k)
    {
      assert Private(e, k);
    }
  }

  lemma {:induction false} WhileRuns(m: Machine, f: Frame, s: Stmt, e: State, env: Env, fuel: nat, c: Config) returns (n: nat, d: Config)
    requires s.While? && Ready(m, f, e, env, c) && EmitWhile(s, e).Some? && Loaded(m, EmitWhile(s, e).value)
    ensures var y := Do(s, WhereOf(m, e, c), env, PlaceOf(f), fuel);
            Lands(m, f, y, fuel, c, n, d) && FellTo(m, f, EmitWhile(s, e).value, y, d)
    decreases fuel, s, 1
  {
    hide EmitCond, EmitBlock, EmitWhile, EmitLoopElse, Has, Holds, Sound, Fits, Lands, Silent, StartLoop, OpenLoop, KeepsFlags, KeepsFlag, CloseIfOpen, DoLoop, Touches, FlagState;
    var h, g, v, b, x := WhileUnfolds(s, e);
    WhileHas(m, s, e, h, g, v, b, x);
    LoopCodeHolds(m, f, s, e, h, g, v, b, x);
    var n1, c1 := EnterLoopRuns(m, f, s, e, h, env, c);
    SilentRuns(m, f, c, n1, c1);
    var since := |c.out|;
    n, d := LoopRuns(m, f, s, e, h, g, v, b, x, since, env, fuel, c1);
    Prepend(m, f, DoLoop(s, WhereOf(m, e, c1), since, env, PlaceOf(f), fuel), fuel, c, n1, c1, n, d);
    n := n1 + n;
  }

  lemma LoopCodeHolds(m: Machine, f: Frame, s: Stmt, e: State, h: State, g: State, v: Value, b: State, x: State)
    requires LoopStages(s, e, h, g, v, b, x) && EmitWhile(s, e).Some? && Loaded(m, EmitWhile(s, e).value)
    requires EmitWhile(s, e) == EmitLoopElse(s, FlagOf(s, e), x)
    requires GrownInScope(e, h) && GrownInScope(e, g) && GrownInScope(h, x) && GrownInScope(g, b.PopLoop())
    requires h.cur + 2 < |h.blocks| && b.loops == e.loops + [Loop(h.cur, h.cur + 2, FlagOf(s, e))] && b.cur == h.cur + 1
    requires x.cur == h.cur + 2 && b.scopes == e.scopes && b.resume == e.resume
    requires e.Open() && Linked(e) && Sound(e) && Fits(f, e)
    ensures LoopCode(m, f, s, e, h, g, v, b, x)
  {
    hide EmitCond, EmitBlock, EmitWhile, EmitLoopElse, Has, Sound, Fits, CloseIfOpen;
  }

  // ---- match ----

  lemma PatternHas(m: Machine, pattern: Option<Expr>, slot: nat, hit: nat, miss: nat, e: State, e1: State, e2: State, w: Value)
    requires e.Valid() && e.Open() && pattern.Some? && e1 == Define(e, Load(e.nextReg, slot))
    requires EmitExpr(pattern.value, e1) == Some((e2, w)) && hit < |e.blocks| && miss < |e.blocks|
    requires Has(m, Define(e2, Compare(e2.nextReg, Eq, Reg(e.nextReg), w)).Close(CondBr(Reg(e2.nextReg), hit, miss)))
    ensures e1.Open() && e2.Open() && Has(m, e.Append(Load(e.nextReg, slot))) && Has(m, e2)
    ensures Has(m, Define(e2, Compare(e2.nextReg, Eq, Reg(e.nextReg), w)))
  {
    hide EmitExpr, Touches, Has;
    var i := Compare(e2.nextReg, Eq, Reg(e.nextReg), w);
    AppendTouches(e, Load(e.nextReg, slot));
    ExprTouches(pattern.value, e1);
    AppendTouches(e2, i);
    CloseTouches(Define(e2, i), CondBr(Reg(e2.nextReg), hit, miss));
    HasEarlier(m, Define(e2, i), Define(e2, i).Close(CondBr(Reg(e2.nextReg), hit, miss)), {});
    HasEarlier(m, e2, Define(e2, i), {e2.cur});
    HasEarlier(m, e1, e2, {e2.cur});
    SameCode(m, e1, e.Append(Load(e.nextReg, slot)));
  }

  lemma SameCode(m: Machine, e: State, e': State)
    requires e.blocks == e'.blocks && Has(m, e)
    ensures Has(m, e')
  {
  }

  /** The subject is compared with the pattern; a wildcard always fits. */
  lemma PatternRuns(m: Machine, f: Frame, pattern: Option<Expr>, slot: nat, hit: nat, miss: nat, e: State, env: Env, v: Int64, c: Config)
    returns (n: nat, d: Config)
    requires Ready(m, f, e, env, c) && hit < |e.blocks| && miss < |e.blocks| && Get(c.mem, slot) == v
    requires EmitPattern(pattern, slot, hit, miss, e).Some? && Has(m, EmitPattern(pattern, slot, hit, miss, e).value)
    ensures pattern.Some? ==> Eval(pattern.value, env).Some?
    ensures Silent(m, f, c, n, d) && d.pc == 0 && d.mem == c.mem
    ensures d.block == if pattern.None? || v == Eval(pattern.value, env).value then hit else miss
  {
    hide EmitExpr, Touches, Has, Holds, Sound, Fits;
    if pattern.None? {
      FetchTerm(m, e, c, Br(hit));
      n, d := 1, Step(m, c);
      Then(m, c, 0, c);
    } else {
      n, d := CompareRuns(m, f, pattern.value, slot, hit, miss, e, env, v, c);
    }
  }

  lemma CompareRuns(m: Machine, f: Frame, x: Expr, slot: nat, hit: nat, miss: nat, e: State, env: Env, v: Int64, c: Config)
    returns (n: nat, d: Config)
    requires Ready(m, f, e, env, c) && hit < |e.blocks| && miss < |e.blocks| && Get(c.mem, slot) == v
    requires EmitPattern(Some(x), slot, hit, miss, e).Some? && Has(m, EmitPattern(Some(x), slot, hit, miss, e).value)
    ensures Eval(x, env).Some? && Silent(m, f, c, n, d) && d.pc == 0 && d.mem == c.mem
    ensures d.block == if v == Eval(x, env).value then hit else miss
  {
    hide EmitExpr, Touches, Has, Holds, Sound, Fits, Eval, SameBelow;
    var g := e.nextReg;
    var e1 := Define(e, Load(g, slot));
    var (e2, w) := EmitExpr(x, e1).value;
    var i := Compare(e2.nextReg, Eq, Reg(g), w);
    PatternHas(m, Some(x), slot, hit, miss, e, e1, e2, w);
    FetchInstr(m, e, c, Load(g, slot));
    var c1 := Step(m, c);
    Then(m, c, 0, c);
    var n2, c2 := ExprRuns(m, x, e1, env, c1);
    YieldedAt(m, e1, e2, w, Eval(x, env).value, c1, n2, c2);
    ValueKept(Reg(g), c1.regs, c2.regs, e1.nextReg);
    var c3 := Extend(m, e1, e2, w, Eval(x, env).value, i, c1, n2, c2, Bit(v == Eval(x, env).value));
    YieldedAt(m, e1, Define(e2, i), Reg(e2.nextReg), Bit(v == Eval(x, env).value), c1, n2 + 1, c3);
    FetchTerm(m, Define(e2, i), c3, CondBr(Reg(e2.nextReg), hit, miss));
    d := Step(m, c3);
    StepsAdd(m, c, 1, n2 + 1);
    Then(m, c, 1 + (n2 + 1), c3);
    n := 1 + (n2 + 1) + 1;
  }

  lemma GuardHas(m: Machine, c: Case, slot: nat, body: nat, miss: nat, e: State) returns (e2: State, g: State, v: Value)
    requires e.Valid() && e.Open() && Linked(e) && body < |e.blocks| && miss < |e.blocks| && c.guard.Some?
    requires EmitCheck(c, slot, body, miss, e).Some? && Has(m, EmitCheck(c, slot, body, miss, e).value)
    ensures EmitPattern(c.pattern, slot, |e.blocks|, miss, e.NewBlock()) == Some(e2) && Has(m, e2)
    ensures e2.Valid() && |e.blocks| < |e2.blocks| && e2.blocks[|e.blocks|] == EmptyBlock && GrownInScope(e, e2)
    ensures EmitCond(c.guard.value, e2.At(|e.blocks|)) == Some((g, v)) && Has(m, g)
    ensures EmitCheck(c, slot, body, miss, e).value == g.Close(CondBr(v, body, miss))
  {
    hide EmitCond, EmitPattern, Touches, Has;
    var n := |e.blocks|;
    e2 := EmitPattern(c.pattern, slot, n, miss, e.NewBlock()).value;
    g, v := EmitCond(c.guard.value, e2.At(n)).value.0, EmitCond(c.guard.value, e2.At(n)).value.1;
    PatternTouches(c.pattern, slot, n, miss, e.NewBlock());
    KeptBy(e.NewBlock(), e2, {}, n);
    CondTouches(c.guard.value, e2.At(n));
    CloseTouches(g, CondBr(v, body, miss));
    HasEarlier(m, g, g.Close(CondBr(v, body, miss)), {});
    HasEarlier(m, e2.At(n), g, {g.cur});
    AtHas(m, e2, n);
  }

  /** Pattern and guard of one case. */
  lemma CheckRuns(m: Machine, f: Frame, c: Case, slot: nat, body: nat, miss: nat, e: State, env: Env, v: Int64, q: Config)
    returns (n: nat, d: Config)
    requires Ready(m, f, e, env, q) && body < |e.blocks| && miss < |e.blocks| && Get(q.mem, slot) == v
    requires EmitCheck(c, slot, body, miss, e).Some? && Has(m, EmitCheck(c, slot, body, miss, e).value)
    ensures Takes(c, v, env).Some? && Silent(m, f, q, n, d) && d.pc == 0 && d.mem == q.mem
    ensures d.block == if Takes(c, v, env).value then body else miss
  {
    hide EmitCond, EmitPattern, Touches, Has, Holds, Sound, Fits, Eval, Test;
    SameNamesRefl(e.scopes);
    if c.guard.None? {
      n, d := PatternRuns(m, f, c.pattern, slot, body, miss, e, env, v, q);
    } else {
      var k := |e.blocks|;
      var e2, g, w := GuardHas(m, c, slot, body, miss, e);
      ReadyGrows(m, f, e, env, q, e.NewBlock(), env, q);
      var n1, q1 := PatternRuns(m, f, c.pattern, slot, k, miss, e.NewBlock(), env, v, q);
      if q1.block == k {
        ReadyGrows(m, f, e, env, q, e2.At(k), env, q1);
        var n2, q2 := CondBranches(m, f, c.guard.value, e2.At(k), g, w, g.Close(CondBr(w, body, miss)), body, miss, env, q1);
        SilentBoth(m, f, q, n1, q1, n2, q2);
        n, d := n1 + n2, q2;
      } else {
        n, d := n1, q1;
      }
    }
  }

  lemma SilentBoth(m: Machine, f: Frame, c: Config, k: nat, b: Config, n: nat, d: Config)
    requires Silent(m, f, c, k, b) && Silent(m, f, b, n, d)
    ensures Silent(m, f, c, k + n, d)
  {
    StepsAdd(m, c, k, n);
  }

  // Everything the cases from `i` on need to be run.
  ghost predicate CasesCode(m: Machine, f: Frame, e0: State, s: Stmt, i: nat, slot: nat, merge: nat, e: State) {
    && s.Match? && i < |s.cases| && e.Valid() && merge + |s.cases| < |e.blocks|
    && (e.cur < merge || merge + |s.cases| < e.cur) && e.cur < |e.blocks| && e.Open() && Linked(e)
    && Touches(e0, e, Unchecked(merge, i, |s.cases|, e.cur)) && e.blocks[merge] == EmptyBlock
    && (forall j: nat {:trigger Bodiless(e, j)} :: merge + i < j <= merge + |s.cases| ==> Bodiless(e, j))
    && EmitCases(s, i, slot, merge, e).Some? && Loaded(m, EmitCases(s, i, slot, merge, e).value)
  }

  ghost predicate Bodiless(e: State, j: nat) {
    j < |e.blocks| && e.blocks[j] == EmptyBlock
  }

  lemma {:induction false} CasesHas(m: Machine, f: Frame, e0: State, s: Stmt, i: nat, slot: nat, merge: nat, e: State)
    requires CasesCode(m, f, e0, s, i, slot, merge, e)
    ensures Has(m, e)
    decreases |s.cases| - i
  {
    hide EmitCheck, EmitBlock, EmitCases, CloseIfOpen, Touches, Has;
    var c, k, t := CasesUnfold(s, i, slot, merge, e);
    CasesStep(m, f, e0, s, i, slot, merge, e, c, k, t);
    var body := merge + 1 + i;
    if i + 1 < |s.cases| {
      CasesHas(m, f, e0, s, i + 1, slot, merge, t.At(|e.blocks|));
      AtHas(m, t, |e.blocks|);
    }
    HasEarlier(m, k.At(body), t, {});
    AtHas(m, k, body);
    HasEarlier(m, c, k, {});
    MissTouches(e, i + 1 < |s.cases|);
    HasEarlier(m, e, c, {e.cur} + if i + 1 < |s.cases| then {|e.blocks|} else {});
  }

  /** One case done: the code of the cases after it. */
  lemma CasesStep(m: Machine, f: Frame, e0: State, s: Stmt, i: nat, slot: nat, merge: nat, e: State, c: State, k: State, t: State)
    requires CasesCode(m, f, e0, s, i, slot, merge, e) && CaseStages(s, i, slot, merge, e, c, k, t)
    requires |e.blocks| <= |k.blocks| <= |t.blocks| && t.loops == e.loops
    requires if i + 1 < |s.cases| then |e.blocks| < |t.blocks| && EmitCases(s, i, slot, merge, e) == EmitCases(s, i + 1, slot, merge, t.At(|e.blocks|))
             else EmitCases(s, i, slot, merge, e) == Some(t)
    ensures Touches(c, k, {}) && Touches(k.At(merge + 1 + i), t, {})
    ensures k.At(merge + 1 + i).Open() && Linked(k.At(merge + 1 + i)) && k.blocks[merge + 1 + i] == EmptyBlock
    ensures i + 1 < |s.cases| ==> t.At(|e.blocks|).Valid() && CasesCode(m, f, e0, s, i + 1, slot, merge, t.At(|e.blocks|)) && t.blocks[|e.blocks|] == EmptyBlock
    ensures t.blocks[merge] == EmptyBlock
  {
    hide EmitCheck, EmitBlock, EmitCases, CloseIfOpen, Touches, Has, Unchecked;
    CaseTouches(e0, s, i, slot, merge, e, c, k, t);
    assert Bodiless(e, merge + 1 + i);
    assert Kept(e, t, merge);
    if i + 1 < |s.cases| {
      UncheckedHas(merge, i + 1, |s.cases|, |e.blocks|);
      MoveTouches(e0, t, Unchecked(merge, i + 1, |s.cases|, |e.blocks|), |e.blocks|);
      var u := t.At(|e.blocks|);
      forall j: nat | merge + i + 1 < j <= merge + |s.cases|
        ensures Bodiless(u, j)
      {
        assert Bodiless(e, j) && (j != e.cur ==> Kept(e, t, j));
      }
    }
  }

  lemma UncheckedHas(merge: nat, i: nat, n: nat, check: nat)
    requires i < n
    ensures check in Unchecked(merge, i, n, check)
  {
  }

  lemma {:induction false} CasesRuns(m: Machine, f: Frame, e0: State, s: Stmt, i: nat, slot: nat, merge: nat, e: State, v: Int64,
                                     env: Env, fuel: nat, q: Config)
    returns (n: nat, d: Config)
    requires CasesCode(m, f, e0, s, i, slot, merge, e) && Ready(m, f, e, env, q) && Get(q.mem, slot) == v
    ensures var y := DoCases(s, i, v, WhereOf(m, e, q), env, PlaceOf(f), fuel);
            Lands(m, f, y, fuel, q, n, d) && FellInto(merge, e.scopes, y, d)
    decreases fuel, s, 1, |s.cases| - i
  {
    hide EmitCheck, EmitBlock, EmitCases, CloseIfOpen, Touches, Has, Holds, Sound, Fits, DoBlock, DoCases, Lands, Silent, Takes, KeepsFlags, KeepsFlag, SetsFlag,
         Linked, Enters, Slots, WhereOf, Stands;
    var w, p := WhereOf(m, e, q), PlaceOf(f);
    DoCasesUnfolds(s, i, v, w, env, p, fuel);
    var c, k, t := CasesUnfold(s, i, slot, merge, e);
    CasesStep(m, f, e0, s, i, slot, merge, e, c, k, t);
    var body, miss := merge + 1 + i, if i + 1 < |s.cases| then |e.blocks| else merge;
    CaseLoaded(m, f, e0, s, i, slot, merge, e, c, k, t);
    SameNamesRefl(e.scopes);
    ReadyGrows(m, f, e, env, q, c, env, q);
    var n1, q1 := CheckRuns(m, f, s.cases[i], slot, body, miss, c, env, v, q);
    SilentRuns(m, f, q, n1, q1);
    CaseSlotsAt(m, f, s, i, slot, merge, e, c, k, t, env, q);
    if Takes(s.cases[i], v, env).value {
      SameWhere(m, e, q, k.At(body), q1, 0);
      ReadyGrows(m, f, e, env, q, k.At(body), env, q1);
      n, d := BranchRuns(m, f, s.cases[i].body, k.At(body), merge, env, fuel, q1);
    } else if i + 1 < |s.cases| {
      SameWhere(m, e, q, t.At(miss), q1, Slots(s.cases[i].body, env.Keys, p));
      ReadyGrows(m, f, e, env, q, t.At(miss), env, q1);
      n, d := CasesRuns(m, f, e0, s, i + 1, slot, merge, t.At(miss), v, env, fuel, q1);
    } else {
      DoCasesUnfolds(s, i + 1, v, w.Past(Slots(s.cases[i].body, env.Keys, p)), env, p, fuel);
      n, d := StayRuns(m, f, env, fuel, q1);
    }
    Prepend(m, f, DoCases(s, i, v, w, env, p, fuel), fuel, q, n1, q1, n, d);
    n := n1 + n;
  }

  lemma DoCasesUnfolds(s: Stmt, i: nat, v: Int64, w: Where, env: Env, p: Place, fuel: nat)
    requires s.Match? && i <= |s.cases|
    ensures DoCases(s, i, v, w, env, p, fuel) ==
            if i == |s.cases| then Result(Fell, env, [])
            else match Takes(s.cases[i], v, env)
                 case None => Result(Stuck, env, [])
                 case Some(b) =>
                   if b then DoBlock(s.cases[i].body, w, env, p, fuel)
                   else DoCases(s, i + 1, v, w.Past(Slots(s.cases[i].body, env.Keys, p)), env, p, fuel)
  {
    hide DoBlock, Slots, Takes;
  }

  lemma CaseSlotsAt(m: Machine, f: Frame, s: Stmt, i: nat, slot: nat, merge: nat, e: State, c: State, k: State, t: State, env: Env, q: Config)
    requires CaseStages(s, i, slot, merge, e, c, k, t) && Ready(m, f, e, env, q) && GrownInScope(e, k)
    requires k.At(merge + 1 + i).Valid() && k.At(merge + 1 + i).Open() && Linked(k.At(merge + 1 + i)) && |e.blocks| <= |k.blocks|
    ensures k.nextSlot == e.nextSlot && t.nextSlot == e.nextSlot + Slots(s.cases[i].body, env.Keys, PlaceOf(f))
  {
    hide EmitCheck, EmitBlock, CloseIfOpen, Touches, Has, Holds, Sound, Fits, Slots, NamesAre, Linked;
    var body := merge + 1 + i;
    ReadyStands(m, f, e, env, q);
    FreshStands(e, k.At(body), env.Keys, PlaceOf(f));
    CheckCounts(s.cases[i], slot, body, if i + 1 < |s.cases| then |e.blocks| else merge, c);
    BlockCounts(s.cases[i].body, k.At(body), env.Keys, PlaceOf(f));
    CloseCounts(EmitBlock(s.cases[i].body, k.At(body)).value, merge);
  }

  lemma CaseLoaded(m: Machine, f: Frame, e0: State, s: Stmt, i: nat, slot: nat, merge: nat, e: State, c: State, k: State, t: State)
    requires CasesCode(m, f, e0, s, i, slot, merge, e) && CaseStages(s, i, slot, merge, e, c, k, t)
    requires Touches(c, k, {}) && Touches(k.At(merge + 1 + i), t, {})
    requires if i + 1 < |s.cases|
             then |e.blocks| < |t.blocks| && CasesCode(m, f, e0, s, i + 1, slot, merge, t.At(|e.blocks|))
                  && EmitCases(s, i, slot, merge, e) == EmitCases(s, i + 1, slot, merge, t.At(|e.blocks|))
             else EmitCases(s, i, slot, merge, e) == Some(t)
    ensures Has(m, k) && Loaded(m, t)
  {
    hide EmitCheck, EmitBlock, EmitCases, CloseIfOpen, Touches, Has;
    if i + 1 < |s.cases| {
      CasesHas(m, f, e0, s, i + 1, slot, merge, t.At(|e.blocks|));
      AtHas(m, t, |e.blocks|);
    }
    HasEarlier(m, k.At(merge + 1 + i), t, {});
    AtHas(m, k, merge + 1 + i);
  }

  lemma {:induction false} MatchRuns(m: Machine, f: Frame, s: Stmt, e: State, env: Env, fuel: nat, c: Config) returns (n: nat, d: Config)
    requires s.Match? && Ready(m, f, e, env, c) && EmitMatch(s, e).Some? && Loaded(m, EmitMatch(s, e).value)
    ensures var y := Do(s, WhereOf(m, e, c), env, PlaceOf(f), fuel);
            Lands(m, f, y, fuel, c, n, d) && FellTo(m, f, EmitMatch(s, e).value, y, d)
    decreases fuel, s, 1, |s.cases| + 1
  {
    hide EmitExpr, EmitCases, Touches, Has, Holds, Sound, Fits, Lands, Silent, DoCases, CasesCode, StartMatch;
    if s.cases == [] {
      n, d := PassRuns(m, f, e, env, c);
    } else {
      var e1, v := EmitExpr(s.subject, e).value.0, EmitExpr(s.subject, e).value.1;
      var e2, r := StartMatch(s, e1, v), EmitMatch(s, e).value;
      MatchHas(m, f, s, e, e1, v);
      var n1, c1 := SubjectRuns(m, f, s, e, e1, v, env, c);
      SilentRuns(m, f, c, n1, c1);
      StartCounts(s, e1, v);
      SameWhere(m, e, c, e2, c1, 1);
      var value := Eval(s.subject, env).value;
      n, d := CasesRuns(m, f, e, s, 0, e1.nextSlot, |e1.blocks|, e2, value, env, fuel, c1);
      Prepend(m, f, DoCases(s, 0, value, WhereOf(m, e2, c1), env, PlaceOf(f), fuel), fuel, c, n1, c1, n, d);
      n := n1 + n;
      Arrive(m, f, e, env, c, r, Do(s, WhereOf(m, e, c), env, PlaceOf(f), fuel), d);
    }
  }

  lemma MatchHas(m: Machine, f: Frame, s: Stmt, e: State, e1: State, v: Value)
    requires s.Match? && s.cases != [] && e.Valid() && e.Open() && Linked(e) && EmitExpr(s.subject, e) == Some((e1, v))
    requires EmitMatch(s, e).Some? && Loaded(m, EmitMatch(s, e).value)
    ensures var e2 := StartMatch(s, e1, v);
            && CasesCode(m, f, e, s, 0, e1.nextSlot, |e1.blocks|, e2) && Has(m, e2) && e1.Open()
            && Has(m, e1) && Has(m, e1.Append(Store(e1.nextSlot, v))) && e2.Open()
    ensures EmitMatch(s, e).value.Open() && EmitMatch(s, e).value.blocks[EmitMatch(s, e).value.cur] == EmptyBlock
    ensures EmitMatch(s, e).value.cur == |e1.blocks|
  {
    hide EmitExpr, EmitCases, Touches, Has;
    var n, e2 := |e1.blocks|, StartMatch(s, e1, v);
    ExprTouches(s.subject, e);
    StartMatchTouches(s, e1, v);
    Onward(e, e1, e2, {e2.cur, n} + Ids(n + 1, n + 1 + |s.cases|));
    assert {e2.cur, n} + Ids(n + 1, n + 1 + |s.cases|) == Unchecked(n, 0, |s.cases|, e2.cur);
    forall j: nat | n < j <= n + |s.cases|
      ensures Bodiless(e2, j)
    {
    }
    var r := EmitCases(s, 0, e1.nextSlot, n, e2).value;
    AtHas(m, r, n);
    CasesHas(m, f, e, s, 0, e1.nextSlot, n, e2);
    MatchTouches(s, e);
    CasesTouches(e, s, 0, e1.nextSlot, n, e2);
    StoredHas(m, s, e1, v);
  }

  lemma StoredHas(m: Machine, s: Stmt, e1: State, v: Value)
    requires s.Match? && e1.Valid() && e1.Open() && Has(m, StartMatch(s, e1, v))
    ensures Has(m, e1) && Has(m, e1.Append(Store(e1.nextSlot, v)))
  {
    hide Touches;
    var i := Store(e1.nextSlot, v);
    var a := e1.(nextSlot := e1.nextSlot + 1).Append(i);
    AddTouches(a, 1 + |s.cases|);
    HasEarlier(m, a, StartMatch(s, e1, v), {a.cur} + Ids(|a.blocks|, |a.blocks| + 1 + |s.cases|));
    SameCode(m, a, e1.Append(i));
    AppendTouches(e1, i);
    HasEarlier(m, e1, e1.Append(i), {e1.cur});
  }

  /** The subject is evaluated once, into its slot. */
  lemma SubjectRuns(m: Machine, f: Frame, s: Stmt, e: State, e1: State, v: Value, env: Env, c: Config) returns (n: nat, d: Config)
    requires s.Match? && Ready(m, f, e, env, c) && EmitExpr(s.subject, e) == Some((e1, v)) && e1.Open()
    requires Has(m, e1) && Has(m, e1.Append(Store(e1.nextSlot, v))) && StartMatch(s, e1, v).Open()
    ensures Eval(s.subject, env).Some? && Silent(m, f, c, n, d) && Ready(m, f, StartMatch(s, e1, v), env, d)
    ensures Get(d.mem, e1.nextSlot) == Eval(s.subject, env).value
  {
    hide EmitExpr, Has, Sound, Touches, Eval;
    var n1, c1 := ExprRuns(m, s.subject, e, env, c);
    SilentExpr(m, f, e, e1, v, Eval(s.subject, env).value, c, n1, c1);
    FetchInstr(m, e1, c1, Store(e1.nextSlot, v));
    n, d := n1 + 1, Step(m, c1);
    Then(m, c, n1, c1);
    FreshSlot(m, f, e, env, c, d, e1.nextSlot);
    StartMatchTouches(s, e1, v);
    SameNamesRefl(e.scopes);
    ReadyGrows(m, f, e, env, c, StartMatch(s, e1, v), env, d);
  }
}
