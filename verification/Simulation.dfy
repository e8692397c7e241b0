/** Emitted statements do what the structured semantics says. `Ready` says that the machine
    stands where the emitter appends, with each name's value in its slot; `Lands` says where it
    comes to, for each way in which a statement can end. This module has the invariants and the
    statements that hold no others. */
module Simulation {
  import opened Wrappers
  import opened Ast
  import opened Semantics
  import opened Machine
  import opened Emit
  import opened Shape
  import opened Running
  import opened Flagged

  /** What surrounds a statement: the innermost loop, the names in scope at its start, and the
      flags of the loops further out. */
  datatype Frame = Frame(loop: Option<Loop>, gen: bool, outer: seq<map<string, nat>>, flags: set<nat>)

  // A statement's place in the run: its first slot is the emitter's next one.
  ghost function WhereOf(m: Machine, e: State, c: Config): Where {
    Where(m.junk, e.nextSlot, if c.Run? then |c.out| else 0)
  }

  // Scopes grew from `outer`: its names are still bound to the same slots.
  ghost predicate Below(outer: seq<map<string, nat>>, scopes: seq<map<string, nat>>) {
    forall x {:trigger Lookup(scopes, x)} {:trigger Lookup(outer, x)} ::
      Lookup(outer, x).Some? ==> Lookup(scopes, x) == Lookup(outer, x)
  }

  // The names of `outer` have their values, and there may be more names.
  ghost predicate Covers(outer: seq<map<string, nat>>, env: Env, mem: map<nat, Int64>) {
    forall x {:trigger Lookup(outer, x)} ::
      Lookup(outer, x).Some? ==> x in env && env[x] == Get(mem, Lookup(outer, x).value)
  }

  // A slot the names in scope do not use, and that is not saved.
  ghost predicate Private(e: State, slot: nat) {
    slot < e.nextSlot && slot !in e.tracked && forall x {:trigger Lookup(e.scopes, x)} :: Lookup(e.scopes, x) != Some(slot)
  }

  ghost function Innermost(e: State): Option<Loop> {
    if e.loops == [] then None else Some(e.loops[|e.loops| - 1])
  }

  ghost predicate FlagIs(loop: Option<Loop>, slot: nat) {
    loop.Some? && loop.value.didBreak == Some(slot)
  }

  // Slots belong to one name each; in a generator each of them is saved at a yield.
  ghost predicate Sound(e: State) {
    && (forall t {:trigger t in e.tracked} :: t in e.tracked ==> t < e.nextSlot)
    && (forall x {:trigger Lookup(e.scopes, x)} :: Lookup(e.scopes, x).Some? ==>
          Lookup(e.scopes, x).value < e.nextSlot && (e.gen ==> Lookup(e.scopes, x).value in e.tracked))
    && (forall x, y {:trigger Lookup(e.scopes, x), Lookup(e.scopes, y)} ::
          Lookup(e.scopes, x).Some? && Lookup(e.scopes, x) == Lookup(e.scopes, y) ==> x == y)
  }

  // The frame describes the emitter's state.
  ghost predicate Fits(f: Frame, e: State) {
    && f.loop == Innermost(e) && f.gen == e.gen && Below(f.outer, e.scopes)
    && (f.loop.Some? && f.loop.value.didBreak.Some? ==> Private(e, f.loop.value.didBreak.value))
    && (forall k :: k in f.flags ==> Private(e, k) && !FlagIs(f.loop, k))
  }

  // The entry and dispatch blocks of a generator.
  ghost predicate Enters(m: Machine) {
    m.prog.gen ==> |m.prog.blocks| > 2
                   && m.prog.blocks[0] == Block([], Some(Br(1))) && m.prog.blocks[1] == Block([], Some(Dispatch(2)))
  }

  /** The machine stands where the emitter appends, with the names' values in their slots. */
  ghost predicate Ready(m: Machine, f: Frame, e: State, env: Env, c: Config) {
    && e.Valid() && e.Open() && Linked(e) && Sound(e) && Fits(f, e) && m.prog.gen == e.gen && Enters(m)
    && AtEnd(c, e) && Holds(e.scopes, env, c.mem)
  }

  ghost function PlaceOf(f: Frame): Place {
    Place(f.gen, f.loop.Some?)
  }

  // The finished program contains this code.
  ghost predicate Loaded(m: Machine, r: State) {
    Has(m, r) && r.resume <= m.prog.resume
  }

  /** What a flag that is not written holds: what it held, or after a yield what the stack did. */
  ghost function Carried(m: Machine, c: Config, d: Config, k: nat): Int64
    requires c.Run? && d.Run?
  {
    if |d.out| == |c.out| then Get(c.mem, k) else Get(m.junk(|d.out|), k)
  }

  ghost predicate KeepsFlags(m: Machine, f: Frame, c: Config, d: Config) {
    c.Run? && d.Run? && forall k {:trigger Get(d.mem, k)} :: k in f.flags ==> Get(d.mem, k) == Carried(m, c, d, k)
  }

  ghost predicate KeepsFlag(m: Machine, f: Frame, c: Config, d: Config) {
    c.Run? && d.Run? &&
    (f.loop.Some? && f.loop.value.didBreak.Some? ==>
      Get(d.mem, f.loop.value.didBreak.value) == Carried(m, c, d, f.loop.value.didBreak.value))
  }

  ghost predicate SetsFlag(f: Frame, d: Config)
    requires d.Run?
  {
    f.loop.Some? && f.loop.value.didBreak.Some? ==> Get(d.mem, f.loop.value.didBreak.value) == 1
  }

  /** From `c` the machine comes to `d` in `n` steps, as the structured result `x` says. */
  ghost predicate Lands(m: Machine, f: Frame, x: Result, fuel: nat, c: Config, n: nat, d: Config) {
    && c.Run? && Steps(m, c, n) == d
    && match x.outcome
       case Fell =>
         d.Run? && d.out == c.out + x.trace && KeepsFlags(m, f, c, d) && KeepsFlag(m, f, c, d)
       case Broke =>
         && f.loop.Some? && d.Run? && d.block == f.loop.value.exit && d.pc == 0
         && d.out == c.out + x.trace && Covers(f.outer, x.env, d.mem)
         && KeepsFlags(m, f, c, d) && SetsFlag(f, d)
       case Continued =>
         && f.loop.Some? && d.Run? && d.block == f.loop.value.header && d.pc == 0
         && d.out == c.out + x.trace && Covers(f.outer, x.env, d.mem)
         && KeepsFlags(m, f, c, d) && KeepsFlag(m, f, c, d)
       case Returned(v) => d == if f.gen then Idle(c.out + x.trace + [SENTINEL]) else Halt(v)
       case Starved => n >= fuel && d.Run? && d.out == c.out + x.trace
       case Stuck => false
  }

  // After a statement that ran to its end, the next one can run.
  ghost predicate FellTo(m: Machine, f: Frame, r: State, x: Result, d: Config) {
    x.outcome.Fell? ==> Ready(m, f, r, x.env, d)
  }

  // A branch that ran to its end stands at the start of block `to`.
  ghost predicate FellInto(to: nat, scopes: seq<map<string, nat>>, x: Result, d: Config) {
    x.outcome.Fell? ==> d.Run? && d.block == to && d.pc == 0 && Holds(scopes, x.env, d.mem)
  }

  // Silent steps: nothing is returned, and the flags stay.
  ghost predicate Silent(m: Machine, f: Frame, c: Config, n: nat, d: Config) {
    && c.Run? && d.Run? && Steps(m, c, n) == d && d.out == c.out
    && KeepsFlags(m, f, c, d) && KeepsFlag(m, f, c, d)
  }

  lemma FitsGen(f: Frame, e: State)
    requires Fits(f, e)
    ensures f.gen == e.gen
  {
  }

  lemma Prepend(m: Machine, f: Frame, x: Result, fuel: nat, c: Config, k: nat, b: Config, n: nat, d: Config)
    requires Silent(m, f, c, k, b) && Lands(m, f, x, fuel, b, n, d)
    ensures Lands(m, f, x, fuel, c, k + n, d)
  {
    StepsAdd(m, c, k, n);
  }

  /** A statement that fell through, then the rest. */
  lemma Sequence(m: Machine, f: Frame, x: Result, y: Result, fuel: nat, c: Config, k: nat, b: Config, n: nat, d: Config)
    requires x.outcome.Fell? && Lands(m, f, x, fuel, c, k, b) && Lands(m, f, y, fuel, b, n, d)
    ensures Lands(m, f, After(x.trace, y), fuel, c, k + n, d)
  {
    StepsAdd(m, c, k, n);
    assert c.out + x.trace + y.trace == c.out + (x.trace + y.trace);
  }

  lemma SilentThen(m: Machine, f: Frame, c: Config, n: nat, b: Config)
    requires Silent(m, f, c, n, b) && Step(m, b).Run? && Step(m, b).out == b.out && Step(m, b).mem == b.mem
    ensures Silent(m, f, c, n + 1, Step(m, b))
  {
    Then(m, c, n, b);
  }

  lemma SilentExpr(m: Machine, f: Frame, e: State, r: State, v: Value, value: Int64, c: Config, n: nat, d: Config)
    requires Yielded(m, e, r, v, value, c, n, d)
    ensures Silent(m, f, c, n, d) && AtEnd(d, r) && d.mem == c.mem && ValueIn(v, d.regs) == value
  {
  }

  // ---- names and slots ----

  lemma LookupBind(scopes: seq<map<string, nat>>, x: string, slot: nat, y: string)
    requires scopes != []
    ensures Lookup(Bind(scopes, x, slot), y) == if y == x then Some(slot) else Lookup(scopes, y)
  {
    var b := Bind(scopes, x, slot);
    assert b[..|b| - 1] == scopes[..|scopes| - 1];
  }

  lemma LookupPush(scopes: seq<map<string, nat>>, y: string)
    ensures Lookup(scopes + [map[]], y) == Lookup(scopes, y)
  {
    var p: seq<map<string, nat>> := scopes + [map[]];
    assert p[..|p| - 1] == scopes;
  }

  // Invariants that depend on the names in scope only through `Lookup`.
  ghost predicate SameNames(s0: seq<map<string, nat>>, s1: seq<map<string, nat>>) {
    forall x {:trigger Lookup(s0, x)} {:trigger Lookup(s1, x)} :: Lookup(s0, x) == Lookup(s1, x)
  }

  lemma PushSame(scopes: seq<map<string, nat>>)
    ensures SameNames(scopes, scopes + [map[]])
  {
    forall x ensures Lookup(scopes, x) == Lookup(scopes + [map[]], x) {
      LookupPush(scopes, x);
    }
  }

  /** Growing the code, registers and slots keeps everything ready. */
  lemma ReadyGrows(m: Machine, f: Frame, e: State, env: Env, c: Config, r: State, env': Env, d: Config)
    requires Ready(m, f, e, env, c) && r.Valid() && r.Open() && |e.blocks| <= |r.blocks|
    requires SameNames(e.scopes, r.scopes) && r.loops == e.loops && r.gen == e.gen && e.tracked <= r.tracked && e.nextSlot <= r.nextSlot
    requires FreshTracked(e, r) && AtEnd(d, r) && Holds(e.scopes, env', d.mem)
    ensures Ready(m, f, r, env', d)
  {
    assert forall x :: Lookup(r.scopes, x) == Lookup(e.scopes, x);
    assert forall k :: k in f.flags ==> Private(e, k);
    assert forall s :: s in e.tracked ==> s in r.tracked;
  }

  lemma StoreHolds(e: State, env: Env, mem: map<nat, Int64>, x: string, v: Int64)
    requires Sound(e) && Holds(e.scopes, env, mem) && Lookup(e.scopes, x).Some?
    ensures Holds(e.scopes, env[x := v], mem[Lookup(e.scopes, x).value := v])
  {
    var slot := Lookup(e.scopes, x).value;
    forall y
      ensures SlotHolds(Lookup(e.scopes, y), y, env[x := v], mem[slot := v])
    {
      assert SlotHolds(Lookup(e.scopes, y), y, env, mem);
      if y != x {
        assert Lookup(e.scopes, x) != Lookup(e.scopes, y);
      }
    }
  }

  lemma DeclareHolds(e: State, env: Env, mem: map<nat, Int64>, x: string, v: Int64, slot: nat)
    requires e.Valid() && Sound(e) && Holds(e.scopes, env, mem) && Lookup(e.scopes, x).None? && e.nextSlot <= slot
    ensures Holds(Bind(e.scopes, x, slot), env[x := v], mem[slot := v])
    ensures Below(e.scopes, Bind(e.scopes, x, slot))
  {
    var b := Bind(e.scopes, x, slot);
    forall y
      ensures SlotHolds(Lookup(b, y), y, env[x := v], mem[slot := v])
      ensures Lookup(e.scopes, y).Some? ==> Lookup(b, y) == Lookup(e.scopes, y)
    {
      LookupBind(e.scopes, x, slot, y);
      assert SlotHolds(Lookup(e.scopes, y), y, env, mem);
    }
  }

  lemma BelowTrans(a: seq<map<string, nat>>, b: seq<map<string, nat>>, c: seq<map<string, nat>>)
    requires Below(a, b) && Below(b, c)
    ensures Below(a, c)
  {
    forall x | Lookup(a, x).Some?
      ensures Lookup(c, x) == Lookup(a, x)
    {
      assert Lookup(b, x) == Lookup(a, x);
    }
  }

  lemma HoldsCovers(outer: seq<map<string, nat>>, scopes: seq<map<string, nat>>, env: Env, mem: map<nat, Int64>)
    requires Below(outer, scopes) && Holds(scopes, env, mem)
    ensures Covers(outer, env, mem)
  {
    forall x | Lookup(outer, x).Some?
      ensures x in env && env[x] == Get(mem, Lookup(outer, x).value)
    {
      assert SlotHolds(Lookup(scopes, x), x, env, mem);
    }
  }

  // ---- simple statements ----

  lemma AssignRuns(m: Machine, f: Frame, x: string, v: Expr, e: State, env: Env, fuel: nat, c: Config) returns (n: nat, d: Config)
    requires Ready(m, f, e, env, c) && EmitAssign(x, v, e).Some? && Loaded(m, EmitAssign(x, v, e).value)
    ensures var y := Exec(Assign(x, v), env, PlaceOf(f), fuel);
            Lands(m, f, y, fuel, c, n, d) && FellTo(m, f, EmitAssign(x, v, e).value, y, d)
  {
    hide Touches, Yielded, EmitExpr, Sound, Fits, Enters, Steps, Holds;
    var (e1, a) := EmitExpr(v, e).value;
    var known := Lookup(e.scopes, x).Some?;
    var slot := if known then Lookup(e.scopes, x).value else e1.nextSlot;
    ExprTouches(v, e);
    AppendTouches(e1, Store(slot, a));
    assert Has(m, e1.Append(Store(slot, a)));
    HasEarlier(m, e1, e1.Append(Store(slot, a)), {e1.cur});
    var n1, c1 := ExprRuns(m, v, e, env, c);
    SilentExpr(m, f, e, e1, a, Eval(v, env).value, c, n1, c1);
    FetchInstr(m, e1, c1, Store(slot, a));
    n, d := n1 + 1, Step(m, c1);
    Then(m, c, n1, c1);
    StoredSlot(m, f, e, c, d, x, slot);
    ReadyGrows(m, f, e, env, c, e1, env, c1);
    if known {
      StoreHolds(e, env, c.mem, x, Eval(v, env).value);
      ReadyGrows(m, f, e, env, c, e1.Append(Store(slot, a)), env[x := Eval(v, env).value], d);
    } else {
      DeclareReady(m, f, e, e1, env, c, x, Eval(v, env).value, d, e1.Append(Store(slot, a)));
    }
  }

  // Storing a variable leaves the flags alone.
  lemma StoredSlot(m: Machine, f: Frame, e: State, c: Config, d: Config, x: string, slot: nat)
    requires Fits(f, e) && c.Run? && d.Run? && slot in d.mem && d.mem == c.mem[slot := d.mem[slot]] && d.out == c.out
    requires e.nextSlot <= slot || Lookup(e.scopes, x) == Some(slot)
    ensures KeepsFlags(m, f, c, d) && KeepsFlag(m, f, c, d)
  {
    forall k | k in f.flags
      ensures k != slot && Get(d.mem, k) == Get(c.mem, k)
    {
    }
  }

  lemma DeclareFits(f: Frame, e: State, x: string, slot: nat, r: State)
    requires Fits(f, e) && r.loops == e.loops && r.gen == e.gen && e.nextSlot <= slot < r.nextSlot && Below(e.scopes, r.scopes)
    requires forall y {:trigger Lookup(r.scopes, y)} :: Lookup(r.scopes, y) == if y == x then Some(slot) else Lookup(e.scopes, y)
    requires FreshTracked(e, r)
    ensures Fits(f, r)
  {
    forall k | Private(e, k)
      ensures Private(r, k)
    {
    }
    BelowTrans(f.outer, e.scopes, r.scopes);
  }

  lemma DeclareReady(m: Machine, f: Frame, e: State, e1: State, env: Env, c: Config, x: string, v: Int64, d: Config, g: State)
    requires Ready(m, f, e, env, c) && OnlyCode(e, e1) && Lookup(e.scopes, x).None?
    requires g == e1.(blocks := g.blocks) && |e1.blocks| == |g.blocks| && g.Open() && AtEnd(d, g) && d.mem == c.mem[e1.nextSlot := v]
    ensures Ready(m, f, g.(nextSlot := e1.nextSlot + 1).Declare(x, e1.nextSlot), env[x := v], d)
  {
    hide Holds, Enters, Fits;
    var slot := e1.nextSlot;
    var r := g.(nextSlot := slot + 1).Declare(x, slot);
    DeclareHolds(e, env, c.mem, x, v, slot);
    assert r.scopes == Bind(e.scopes, x, slot);
    forall y
      ensures Lookup(r.scopes, y) == if y == x then Some(slot) else Lookup(e.scopes, y)
    {
      LookupBind(e.scopes, x, slot, y);
    }
    assert forall s :: s in e.tracked ==> s in r.tracked;
    DeclareFits(f, e, x, slot, r);
    assert Sound(r);
  }

  lemma BreakRuns(m: Machine, f: Frame, e: State, env: Env, fuel: nat, c: Config) returns (n: nat, d: Config)
    requires Ready(m, f, e, env, c) && Loaded(m, EmitBreak(e))
    ensures var y := Exec(Break, env, PlaceOf(f), fuel);
            Lands(m, f, y, fuel, c, n, d) && FellTo(m, f, EmitBreak(e), y, d)
  {
    if e.loops == [] {
      n, d := 0, c;
    } else {
      var l := e.loops[|e.loops| - 1];
      HoldsCovers(f.outer, e.scopes, env, c.mem);
      var e1 := if l.didBreak.Some? then e.Append(Store(l.didBreak.value, Imm(1))) else e;
      CloseTouches(e1, Br(l.exit));
      HasEarlier(m, e1, e1.Close(Br(l.exit)), {});
      var c1 := c;
      n := 0;
      if l.didBreak.Some? {
        FetchInstr(m, e, c, Store(l.didBreak.value, Imm(1)));
        c1 := Step(m, c);
        Then(m, c, 0, c);
        n := 1;
      }
      FetchTerm(m, e1, c1, Br(l.exit));
      d := Step(m, c1);
      Then(m, c, n, c1);
      n := n + 1;
      FlagCovers(f, e, env, c.mem, d.mem);
    }
  }

  // The did-break flag is no name's slot.
  lemma FlagCovers(f: Frame, e: State, env: Env, mem: map<nat, Int64>, mem': map<nat, Int64>)
    requires Fits(f, e) && f.loop.Some? && Covers(f.outer, env, mem)
    requires mem' == if f.loop.value.didBreak.Some? then mem[f.loop.value.didBreak.value := 1] else mem
    ensures Covers(f.outer, env, mem')
  {
    forall x | Lookup(f.outer, x).Some?
      ensures x in env && env[x] == Get(mem', Lookup(f.outer, x).value)
    {
      assert Lookup(e.scopes, x) == Lookup(f.outer, x);
    }
  }

  lemma ContinueRuns(m: Machine, f: Frame, e: State, env: Env, fuel: nat, c: Config) returns (n: nat, d: Config)
    requires Ready(m, f, e, env, c) && Loaded(m, EmitContinue(e))
    ensures var y := Exec(Continue, env, PlaceOf(f), fuel);
            Lands(m, f, y, fuel, c, n, d) && FellTo(m, f, EmitContinue(e), y, d)
  {
    if e.loops == [] {
      n, d := 0, c;
    } else {
      HoldsCovers(f.outer, e.scopes, env, c.mem);
      FetchTerm(m, e, c, Br(e.loops[|e.loops| - 1].header));
      n, d := 1, Step(m, c);
      Then(m, c, 0, c);
    }
  }

  lemma ReturnRuns(m: Machine, f: Frame, x: Option<Expr>, e: State, env: Env, fuel: nat, c: Config) returns (n: nat, d: Config)
    requires Ready(m, f, e, env, c) && EmitReturn(x, e).Some? && Loaded(m, EmitReturn(x, e).value)
    ensures var y := Exec(Return(x), env, PlaceOf(f), fuel);
            y.outcome.Returned? && Lands(m, f, y, fuel, c, n, d)
  {
    hide Touches, Yielded, EmitExpr;
    if e.gen {
      var e1 := e.Append(SetState(-1));
      CloseTouches(e1, Ret(Some(Imm(SENTINEL))));
      HasEarlier(m, e1, e1.Close(Ret(Some(Imm(SENTINEL)))), {});
      FetchInstr(m, e, c, SetState(-1));
      var c1 := Step(m, c);
      FetchTerm(m, e1, c1, Ret(Some(Imm(SENTINEL))));
      n, d := 2, Step(m, c1);
      Then(m, c, 0, c);
      Then(m, c, 1, c1);
      assert c.out + [] == c.out;
    } else if x.None? {
      FetchTerm(m, e, c, Ret(None));
      n, d := 1, Step(m, c);
      Then(m, c, 0, c);
    } else {
      var (e1, v) := EmitExpr(x.value, e).value;
      ExprTouches(x.value, e);
      CloseTouches(e1, Ret(Some(v)));
      HasEarlier(m, e1, e1.Close(Ret(Some(v))), {});
      var n1, c1 := ExprRuns(m, x.value, e, env, c);
      SilentExpr(m, f, e, e1, v, Eval(x.value, env).value, c, n1, c1);
      FetchTerm(m, e1, c1, Ret(Some(v)));
      n, d := n1 + 1, Step(m, c1);
      Then(m, c, n1, c1);
    }
  }
}
