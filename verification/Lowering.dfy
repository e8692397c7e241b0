/** The lowering preserves meaning: the results about whole functions and generators. */
module Lowering {
  import opened Wrappers
  import opened Ast
  import opened Semantics
  import opened Machine
  import opened Emit
  import opened Shape
  import opened Running
  import opened Simulation
  import opened Yielding
  import opened Structured
  import opened Flagged

  // ---- calling ----

  /** The names of the parameters and their values; of two parameters with one name the later counts. */
  function Arguments(params: seq<string>, args: seq<Int64>): Env
    requires |params| == |args|
  {
    if params == [] then map[]
    else Arguments(params[..|params| - 1], args[..|args| - 1])[params[|params| - 1] := args[|args| - 1]]
  }

  function Numbered(args: seq<Int64>): map<nat, Int64> {
    map i: nat | i < |args| :: args[i]
  }

  /** A call of a function: the arguments are in the first registers. */
  function CallOf(m: Machine, args: seq<Int64>): Config {
    Run(0, 0, 0, Numbered(args), m.junk(0), Record(0, map[]), [])
  }

  /** The first call of a generator: the wrapper put the arguments in the first saved slots. */
  function FirstCall(m: Machine, args: seq<Int64>): Config {
    Call(m, Record(0, Numbered(args)), [])
  }

  // ---- what the source program does ----

  ghost predicate Evaluates(body: seq<Stmt>, env: Env, v: Option<Int64>) {
    exists fuel: nat :: Finishes(ExecList(body, env, Place(false, false), fuel), v)
  }

  // Falling off the end of a function returns zero.
  ghost predicate Finishes(r: Result, v: Option<Int64>) {
    r.outcome == Returned(v) || (r.outcome.Fell? && v == Some(0))
  }

  ghost predicate Halts(m: Machine, c: Config, v: Option<Int64>) {
    exists n: nat :: Steps(m, c, n) == Halt(v)
  }

  function Generated(body: seq<Stmt>, env: Env, fuel: nat): Result {
    ExecList(body, env, Place(true, false), fuel)
  }

  /** What the lowered body does: what the source does, but for the flags of loops. */
  function Performed(m: Machine, params: seq<string>, body: seq<Stmt>, args: seq<Int64>, fuel: nat): Result
    requires |params| == |args|
  {
    DoList(body, Where(m.junk, |params|, 0), Arguments(params, args), Place(true, false), fuel)
  }

  /** No flag of a loop has to outlive a yield, or one that is lost reads zero anyway. */
  ghost predicate FlagsKept(m: Machine, body: seq<Stmt>) {
    FlagsSafe(body) || Zeroed(m.junk)
  }

  lemma KeptMeaning(m: Machine, params: seq<string>, body: seq<Stmt>, args: seq<Int64>, fuel: nat)
    requires |params| == |args| && FlagsKept(m, body)
    ensures Performed(m, params, body, args, fuel) == Generated(body, Arguments(params, args), fuel)
  {
    hide Zeroed, DoList, ExecList;
    ListAgrees(body, Where(m.junk, |params|, 0), Arguments(params, args), Place(true, false), fuel);
  }

  // The body ran to its end or returned.
  predicate Over(r: Result) {
    r.outcome.Fell? || r.outcome.Returned?
  }

  // What the calls of a generator have returned so far.
  function Returns(c: Config): seq<Int64> {
    if c.Run? || c.Idle? then c.out else []
  }

  function Sentinels(k: nat): (r: seq<Int64>)
    ensures |r| == k && forall i :: 0 <= i < k ==> r[i] == -0x8000_0000_0000_0000
    decreases k
  {
    if k == 0 then [] else Sentinels(k - 1) + [SENTINEL]
  }

  // ---- parameters ----

  lemma ArgumentsNext(params: seq<string>, args: seq<Int64>, i: nat)
    requires i < |params| == |args|
    ensures Arguments(params[..i + 1], args[..i + 1]) == Arguments(params[..i], args[..i])[params[i] := args[i]]
  {
    assert params[..i + 1][..i] == params[..i] && args[..i + 1][..i] == args[..i];
  }

  // After `i` parameters: their slots hold the arguments.
  ghost predicate Bound(m: Machine, i: nat, params: seq<string>, args: seq<Int64>, e: State, c: Config) {
    && i <= |params| == |args| && e.Valid() && e.Open() && Sound(e) && AtEnd(c, e) && e.loops == []
    && Holds(e.scopes, Arguments(params[..i], args[..i]), c.mem)
    && |params| <= e.nextReg && (forall k: nat {:trigger Get(c.regs, k)} :: k < |params| ==> Get(c.regs, k) == args[k])
  }

  lemma {:induction false} BindHas(m: Machine, i: nat, params: seq<string>, e: State)
    requires e.Valid() && e.Open() && i <= |params| && Has(m, BindParams(i, params, e))
    ensures Has(m, e) && BindParams(i, params, e).Open()
    decreases |params| - i
  {
    if i < |params| {
      var e1 := e.(nextSlot := e.nextSlot + 1).Append(Store(e.nextSlot, Reg(i)));
      BindHas(m, i + 1, params, e1.Declare(params[i], e.nextSlot));
      AppendTouches(e, Store(e.nextSlot, Reg(i)));
      SameCode(m, e1.Declare(params[i], e.nextSlot), e.Append(Store(e.nextSlot, Reg(i))));
      HasEarlier(m, e, e.Append(Store(e.nextSlot, Reg(i))), {e.cur});
    }
  }

  /** One parameter moves to its slot. */
  lemma BindOne(m: Machine, i: nat, params: seq<string>, args: seq<Int64>, e: State, c: Config) returns (d: Config)
    requires Bound(m, i, params, args, e, c) && i < |params| && !e.gen
    requires Has(m, e.Append(Store(e.nextSlot, Reg(i))))
    ensures var r := e.(nextSlot := e.nextSlot + 1).Append(Store(e.nextSlot, Reg(i))).Declare(params[i], e.nextSlot);
            d == Step(m, c) && d.Run? && d.out == c.out && Bound(m, i + 1, params, args, r, d) && !r.gen
  {
    FetchInstr(m, e, c, Store(e.nextSlot, Reg(i)));
    d := Step(m, c);
    assert Get(c.regs, i) == args[i];
    ArgumentsNext(params, args, i);
    var r := e.(nextSlot := e.nextSlot + 1).Append(Store(e.nextSlot, Reg(i))).Declare(params[i], e.nextSlot);
    ParamHolds(e, Arguments(params[..i], args[..i]), c.mem, params[i], args[i], r);
  }

  /** A new slot for a name, whether or not the name had one. */
  lemma ParamHolds(e: State, env: Env, mem: map<nat, Int64>, x: string, v: Int64, r: State)
    requires e.Valid() && Sound(e) && Holds(e.scopes, env, mem)
    requires r.scopes == Bind(e.scopes, x, e.nextSlot) && r.nextSlot == e.nextSlot + 1 && r.gen == e.gen
    requires forall s :: s in e.tracked ==> s in r.tracked
    requires e.gen ==> e.nextSlot in r.tracked
    requires forall s :: s in r.tracked ==> s in e.tracked || s == e.nextSlot
    ensures Holds(r.scopes, env[x := v], mem[e.nextSlot := v]) && Sound(r)
  {
    forall y
      ensures Lookup(r.scopes, y) == if y == x then Some(e.nextSlot) else Lookup(e.scopes, y)
    {
      LookupBind(e.scopes, x, e.nextSlot, y);
    }
    forall y
      ensures SlotHolds(Lookup(r.scopes, y), y, env[x := v], mem[e.nextSlot := v])
    {
      assert SlotHolds(Lookup(e.scopes, y), y, env, mem);
    }
  }

  lemma BindUnfolds(i: nat, params: seq<string>, e: State, e1: State)
    requires e.Valid() && i < |params|
    requires e1 == e.(nextSlot := e.nextSlot + 1).Append(Store(e.nextSlot, Reg(i))).Declare(params[i], e.nextSlot)
    ensures BindParams(i, params, e) == BindParams(i + 1, params, e1)
  {
    hide Bind;
  }

  lemma {:induction false} BindRuns(m: Machine, i: nat, params: seq<string>, args: seq<Int64>, e: State, c: Config) returns (n: nat, d: Config)
    requires Bound(m, i, params, args, e, c) && !e.gen && Has(m, BindParams(i, params, e))
    ensures var r := BindParams(i, params, e);
            Steps(m, c, n) == d && d.Run? && d.out == c.out && Bound(m, |params|, params, args, r, d) && !r.gen
    decreases |params| - i
  {
    hide Has, Holds, Sound;
    if i == |params| {
      n, d := 0, c;
      assert BindParams(i, params, e) == e;
    } else {
      var e1 := e.(nextSlot := e.nextSlot + 1).Append(Store(e.nextSlot, Reg(i))).Declare(params[i], e.nextSlot);
      BindUnfolds(i, params, e, e1);
      hide BindParams, Bind, Arguments;
      BindHas(m, i + 1, params, e1);
      SameCode(m, e1, e.Append(Store(e.nextSlot, Reg(i))));
      var c1 := BindOne(m, i, params, args, e, c);
      Then(m, c, 0, c);
      var n1;
      n1, d := BindRuns(m, i + 1, params, args, e1, c1);
      n := 1 + n1;
      StepsAdd(m, c, 1, n1);
    }
  }

  // ---- functions ----

  // The frame of a whole body: no loop, nothing to keep.
  ghost function TopFrame(e: State): Frame {
    Frame(None, e.gen, e.scopes, {})
  }

  lemma TopReady(m: Machine, e: State, env: Env, c: Config)
    requires e.Valid() && e.Open() && Sound(e) && e.loops == [] && m.prog.gen == e.gen && Enters(m) && AtEnd(c, e) && Holds(e.scopes, env, c.mem)
    ensures Ready(m, TopFrame(e), e, env, c)
  {
  }

  // The body's code, between the parameters and the return at the end.
  ghost function BodyStart(params: seq<string>): State {
    BindParams(0, params, FunctionEntry(params))
  }

  lemma FunctionHas(m: Machine, params: seq<string>, body: seq<Stmt>)
    requires EmitFunction(params, body) == Some(m.prog)
    ensures var e := BodyStart(params); var r := EmitList(body, e);
            && e.Open() && e.loops == [] && !e.gen && r.Some? && r.value.Valid() && Loaded(m, r.value) && Has(m, e)
            && (r.value.Open() ==> Has(m, r.value.Close(Ret(Some(Imm(0))))))
  {
    hide EmitList, Touches, BindParams;
    var e0, e := FunctionEntry(params), BodyStart(params);
    BindOpen(0, params, e0);
    var r := EmitList(body, e).value;
    ListTouches(body, e);
    if r.Open() {
      ExtendsSelf(m, r.Close(Ret(Some(Imm(0)))));
      CloseTouches(r, Ret(Some(Imm(0))));
      HasEarlier(m, r, r.Close(Ret(Some(Imm(0)))), {});
    } else {
      ExtendsSelf(m, r);
    }
    HasEarlier(m, e, r, OpenOf(r));
  }

  lemma ExtendsSelf(m: Machine, e: State)
    requires m.prog.blocks == e.blocks
    ensures Has(m, e)
  {
    forall b: nat
      ensures ExtendsAt(e.blocks, m.prog.blocks, b)
    {
    }
  }

  lemma {:induction false} BindOpen(i: nat, params: seq<string>, e: State)
    requires e.Valid() && e.Open() && i <= |params|
    ensures BindParams(i, params, e).Open()
    decreases |params| - i
  {
    if i < |params| {
      BindOpen(i + 1, params, e.(nextSlot := e.nextSlot + 1).Append(Store(e.nextSlot, Reg(i))).Declare(params[i], e.nextSlot));
    }
  }

  /** With the given fuel: the machine comes to the result the source comes to. */
  lemma FunctionRuns(m: Machine, params: seq<string>, body: seq<Stmt>, args: seq<Int64>, fuel: nat) returns (n: nat, d: Config)
    requires EmitFunction(params, body) == Some(m.prog) && |params| == |args|
    ensures var y := ExecList(body, Arguments(params, args), Place(false, false), fuel);
            && Steps(m, CallOf(m, args), n) == d && !y.outcome.Stuck?
            && (y.outcome.Starved? ==> n >= fuel && d.Run?)
            && (!y.outcome.Starved? ==> Over(y) && d.Halt? && Finishes(y, d.result))
  {
    hide EmitList, ExecList, DoList, BindParams, Has, Sound, Holds, Zeroed;
    var e0, e := FunctionEntry(params), BodyStart(params);
    var c := CallOf(m, args);
    FunctionHas(m, params, body);
    FunctionStart(m, params, args);
    BindHasStart(m, params);
    var n1, c1 := BindRuns(m, 0, params, args, e0, c);
    assert params[..|params|] == params && args[..|args|] == args;
    TopReady(m, e, Arguments(params, args), c1);
    var n2, c2 := ListRuns(m, TopFrame(e), body, e, Arguments(params, args), fuel, c1);
    var y := ExecList(body, Arguments(params, args), Place(false, false), fuel);
    ListAgrees(body, WhereOf(m, e, c1), Arguments(params, args), Place(false, false), fuel);
    StepsAdd(m, c, n1, n2);
    n, d := n1 + n2, c2;
    if y.outcome.Fell? {
      FetchTerm(m, EmitList(body, e).value, c2, Ret(Some(Imm(0))));
      Then(m, c, n, c2);
      n, d := n + 1, Step(m, c2);
    }
  }

  lemma BindHasStart(m: Machine, params: seq<string>)
    requires Has(m, BodyStart(params))
    ensures Has(m, BindParams(0, params, FunctionEntry(params)))
  {
  }

  lemma FunctionStart(m: Machine, params: seq<string>, args: seq<Int64>)
    requires |params| == |args|
    ensures Bound(m, 0, params, args, FunctionEntry(params), CallOf(m, args))
  {
    var e := FunctionEntry(params);
    forall x
      ensures Lookup(e.scopes, x).None?
    {
      LookupPush([], x);
    }
  }

  lemma HaltStays(m: Machine, c: Config, n: nat, k: nat, v: Option<Int64>)
    requires Steps(m, c, n) == Halt(v) && n <= k
    ensures Steps(m, c, k) == Halt(v)
  {
    StepsAdd(m, c, n, k - n);
    HaltFixed(m, k - n, v);
  }

  lemma {:induction false} HaltFixed(m: Machine, n: nat, v: Option<Int64>)
    ensures Steps(m, Halt(v), n) == Halt(v)
    decreases n
  {
    if n > 0 {
      HaltFixed(m, n - 1, v);
    }
  }

  /** A lowered function halts with a result exactly when the source evaluates to it, for
      every content of the stack; in particular one diverges when the other does. */
  lemma FunctionCorrect(m: Machine, params: seq<string>, body: seq<Stmt>, args: seq<Int64>, v: Option<Int64>)
    requires EmitFunction(params, body) == Some(m.prog) && |params| == |args|
    ensures Halts(m, CallOf(m, args), v) <==> Evaluates(body, Arguments(params, args), v)
  {
    hide ExecList, EmitFunction;
    var env := Arguments(params, args);
    if Evaluates(body, env, v) {
      var fuel: nat :| Finishes(ExecList(body, env, Place(false, false), fuel), v);
      var n, d := FunctionRuns(m, params, body, args, fuel);
    }
    if Halts(m, CallOf(m, args), v) {
      var k: nat :| Steps(m, CallOf(m, args), k) == Halt(v);
      var n, d := FunctionRuns(m, params, body, args, k);
      if n >= k {
        HaltStays(m, CallOf(m, args), k, n, v);
      } else {
        HaltStays(m, CallOf(m, args), n, k, d.result);
      }
      assert Finishes(ExecList(body, env, Place(false, false), k), v);
    }
  }

  // ---- generators ----

  // After `i` parameters of a generator: their slots are tracked in order, and the saved
  // slots hold the arguments.
  ghost predicate Tracking(i: nat, e: State) {
    e.Valid() && e.gen && e.nextSlot == i && |e.tracked| == i && forall k {:trigger e.tracked[k]} :: 0 <= k < i ==> e.tracked[k] == k
  }

  // What the slots would hold once the first `i` arguments are restored.
  function SlotsOf(i: nat, args: seq<Int64>): map<nat, Int64>
    requires i <= |args|
  {
    map k: nat | k < i :: args[k]
  }

  lemma {:induction false} DeclareRuns(i: nat, params: seq<string>, args: seq<Int64>, e: State)
    requires Tracking(i, e) && i <= |params| == |args| && Sound(e) && Holds(e.scopes, Arguments(params[..i], args[..i]), SlotsOf(i, args))
    ensures var r := DeclareParams(i, params, e);
            && Tracking(|params|, r) && Sound(r) && Holds(r.scopes, Arguments(params, args), SlotsOf(|params|, args)) && r.loops == e.loops
    decreases |params| - i
  {
    if i == |params| {
      assert params[..i] == params && args[..i] == args;
    } else {
      var r := e.(nextSlot := e.nextSlot + 1).Declare(params[i], e.nextSlot);
      assert e.nextSlot !in e.tracked;
      assert r.tracked == e.tracked + [e.nextSlot];
      ParamHolds(e, Arguments(params[..i], args[..i]), SlotsOf(i, args), params[i], args[i], r);
      assert SlotsOf(i, args)[i := args[i]] == SlotsOf(i + 1, args);
      ArgumentsNext(params, args, i);
      DeclareRuns(i + 1, params, args, r);
    }
  }

  ghost function ResumeStart(params: seq<string>): State {
    DeclareParams(0, params, ResumeEntry())
  }

  lemma ResumeStartReady(params: seq<string>, args: seq<Int64>)
    requires |params| == |args|
    ensures var e := ResumeStart(params);
            && Tracking(|params|, e) && Sound(e) && Holds(e.scopes, Arguments(params, args), SlotsOf(|params|, args)) && e.loops == []
  {
    var e := ResumeEntry();
    forall x
      ensures Lookup(e.scopes, x).None?
    {
      LookupPush([], x);
    }
    DeclareRuns(0, params, args, e);
  }

  lemma FinishHas(m: Machine, r: State)
    requires r.Valid() && 3 < |r.blocks| && r.cur != 2 && r.blocks[2] == EmptyBlock && r.blocks[0] == Block([], Some(Br(1))) && r.blocks[1] == Block([], Some(Dispatch(2)))
    requires m.prog.blocks == FinishResume(r).blocks && (r.cur != 0 && r.cur != 1)
    ensures Has(m, r) && Has(m, CloseIfOpen(r, 2))
    ensures m.prog.blocks[2] == Block([SetState(-1)], Some(Ret(Some(Imm(SENTINEL))))) && 3 < |m.prog.blocks|
    ensures m.prog.blocks[0] == Block([], Some(Br(1))) && m.prog.blocks[1] == Block([], Some(Dispatch(2)))
  {
    forall b: nat
      ensures ExtendsAt(r.blocks, m.prog.blocks, b) && ExtendsAt(CloseIfOpen(r, 2).blocks, m.prog.blocks, b)
    {
    }
  }

  lemma ResumeHas(m: Machine, params: seq<string>, body: seq<Stmt>)
    requires EmitResume(params, body) == Some(m.prog)
    ensures var e0 := ResumeStart(params); var e := RestoreFrom(0, e0); var r := EmitList(body, e);
            && e0.Open() && e0.blocks == ResumeEntry().blocks && e0.cur == 3 && e0.resume == [3] && e0.gen && e0.loops == []
            && e.Open() && e.loops == [] && e.gen && r.Some? && r.value.Valid() && Loaded(m, r.value) && Has(m, e)
            && Has(m, CloseIfOpen(r.value, 2)) && [3] <= m.prog.resume
    ensures Enters(m) && 3 < |m.prog.blocks| && m.prog.gen
    ensures m.prog.blocks[2] == Block([SetState(-1)], Some(Ret(Some(Imm(SENTINEL)))))
  {
    hide EmitList, Touches, DeclareParams, RestoreFrom, Has;
    var e0 := ResumeStart(params);
    var e := RestoreFrom(0, e0);
    var r := EmitList(body, e).value;
    RestoreTouches(0, e0);
    ListTouches(body, e);
    Onward(e0, e, r, OpenOf(r));
    KeptBy(e0, r, OpenOf(r), 0);
    KeptBy(e0, r, OpenOf(r), 1);
    KeptBy(e0, r, OpenOf(r), 2);
    TouchesCur(e0, r, OpenOf(r));
    FinishHas(m, r);
    HasEarlier(m, e, r, OpenOf(r));
  }

  lemma TouchesCur(e: State, r: State, open: set<nat>)
    requires Touches(e, r, open)
    ensures r.cur == e.cur || |e.blocks| <= r.cur
  {
  }

  /** The first call restores the arguments and reaches the body. */
  lemma FirstCallRuns(m: Machine, params: seq<string>, body: seq<Stmt>, args: seq<Int64>) returns (n: nat, d: Config)
    requires EmitResume(params, body) == Some(m.prog) && |params| == |args|
    ensures var e := RestoreFrom(0, ResumeStart(params));
            Steps(m, FirstCall(m, args), n) == d && Ready(m, TopFrame(e), e, Arguments(params, args), d) && d.out == [] && e.nextSlot == |params|
  {
    hide EmitList, Touches, DeclareParams, RestoreFrom, Has, Sound, Holds;
    var e0 := ResumeStart(params);
    var e := RestoreFrom(0, e0);
    ResumeHas(m, params, body);
    ResumeStartReady(params, args);
    var rec := Record(0, Numbered(args));
    var c2 := DispatchRuns(m, rec, []);
    var was := SlotsOf(|params|, args);
    ArgsSaved(e0, params, args);
    var n3;
    n3, d := RestoreRuns(m, 0, e0, was, c2);
    n := 2 + n3;
    StepsAdd(m, FirstCall(m, args), 2, n3);
    RestoredHolds(e0, Arguments(params, args), was, d.mem);
    SoundKept(e0, e);
    TopReady(m, e, Arguments(params, args), d);
  }

  lemma ArgsSaved(e: State, params: seq<string>, args: seq<Int64>)
    requires Tracking(|params|, e) && |params| == |args|
    ensures SavedUpTo(|e.tracked|, e.tracked, SlotsOf(|params|, args), Numbered(args))
  {
  }

  lemma SoundKept(e: State, r: State)
    requires Sound(e) && r.scopes == e.scopes && r.nextSlot == e.nextSlot && r.tracked == e.tracked && r.gen == e.gen
    ensures Sound(r)
  {
  }

  /** With the given fuel: the calls so far returned exactly what the lowered body has yielded,
      and the sentinel once it is over. */
  lemma ResumeRuns(m: Machine, params: seq<string>, body: seq<Stmt>, args: seq<Int64>, fuel: nat) returns (n: nat, d: Config)
    requires EmitResume(params, body) == Some(m.prog) && |params| == |args|
    ensures var y := Performed(m, params, body, args, fuel);
            && Steps(m, FirstCall(m, args), n) == d && (y.outcome.Starved? || Over(y))
            && (y.outcome.Starved? ==> n >= fuel && d.Run? && d.out == y.trace)
            && (Over(y) ==> d == Idle(y.trace + [SENTINEL]))
  {
    hide EmitList, DoList, RestoreFrom, DeclareParams, Has, Sound, Holds;
    var e := RestoreFrom(0, ResumeStart(params));
    var env := Arguments(params, args);
    ResumeHas(m, params, body);
    var n1, c1 := FirstCallRuns(m, params, body, args);
    var n2, c2 := ListRuns(m, TopFrame(e), body, e, env, fuel, c1);
    StepsAdd(m, FirstCall(m, args), n1, n2);
    n, d := n1 + n2, c2;
    var y := Performed(m, params, body, args, fuel);
    assert WhereOf(m, e, c1) == Where(m.junk, |params|, 0);
    assert [] + y.trace == y.trace;
    if y.outcome.Fell? {
      var n3;
      n3, d := DoneRuns(m, EmitList(body, e).value, c2);
      StepsAdd(m, FirstCall(m, args), n, n3);
      n := n + n3;
    }
  }

  lemma DoneRuns(m: Machine, r: State, c: Config) returns (n: nat, d: Config)
    requires r.Valid() && r.Open() && AtEnd(c, r) && Has(m, r.Close(Br(2))) && m.prog.gen && 2 < |m.prog.blocks|
    requires m.prog.blocks[2] == Block([SetState(-1)], Some(Ret(Some(Imm(SENTINEL)))))
    ensures Steps(m, c, n) == d && d == Idle(c.out + [SENTINEL])
  {
    FetchTerm(m, r, c, Br(2));
    var c1 := Step(m, c);
    var c2 := Step(m, c1);
    n, d := 3, Step(m, c2);
    Then(m, c, 0, c);
    Then(m, c, 1, c1);
    Then(m, c, 2, c2);
  }

  /** The emitted function called in a state it has no resume block for, a finished generator's
      among them: its switch goes to the done block, and the call returns the sentinel. */
  lemma FinishedReturns(m: Machine, params: seq<string>, body: seq<Stmt>, rec: Record, mem: map<nat, Int64>, out: seq<Int64>)
    requires EmitResume(params, body) == Some(m.prog) && !(0 <= rec.state < |m.prog.resume|)
    ensures Steps(m, Run(0, 0, 0, map[], mem, rec, out), 4) == Idle(out + [-0x8000_0000_0000_0000])
  {
    hide EmitResume, Steps;
    ResumeHas(m, params, body);
    var c := Run(0, 0, 0, map[], mem, rec, out);
    var c1 := Step(m, c);
    var c2 := Step(m, c1);
    assert c2 == Goto(c1, 2);
    var c3 := Step(m, c2);
    NoSteps(m, c);
    Then(m, c, 0, c);
    Then(m, c, 1, c1);
    Then(m, c, 2, c2);
    Then(m, c, 3, c3);
  }

  lemma NoSteps(m: Machine, c: Config)
    ensures Steps(m, c, 0) == c
  {
  }

  lemma {:induction false} IdleSteps(m: Machine, out: seq<Int64>, k: nat)
    ensures Steps(m, Idle(out), k) == Idle(out + Sentinels(k))
    decreases k
  {
    if k == 0 {
      assert out + [] == out;
    } else {
      IdleSteps(m, out, k - 1);
      Then(m, Idle(out), k - 1, Idle(out + Sentinels(k - 1)));
      assert out + Sentinels(k - 1) + [SENTINEL] == out + Sentinels(k);
    }
  }

  /** Every value the lowered body yields is returned, in order; after the last one, the
      sentinel is returned as often as anyone asks. */
  lemma CallsComplete(m: Machine, params: seq<string>, body: seq<Stmt>, args: seq<Int64>, fuel: nat, k: nat)
    requires EmitResume(params, body) == Some(m.prog) && |params| == |args|
    ensures var y := Performed(m, params, body, args, fuel);
            exists n: nat :: Returns(Steps(m, FirstCall(m, args), n)) == y.trace + if Over(y) then Sentinels(k + 1) else []
  {
    hide EmitResume, DoList, Performed;
    var y := Performed(m, params, body, args, fuel);
    var n, d := ResumeRuns(m, params, body, args, fuel);
    assert y.trace + [] == y.trace;
    if Over(y) {
      IdleSteps(m, y.trace + [SENTINEL], k);
      StepsAdd(m, FirstCall(m, args), n, k);
      SentinelFirst(k);
      assert y.trace + [SENTINEL] + Sentinels(k) == y.trace + Sentinels(k + 1);
      assert Returns(Steps(m, FirstCall(m, args), n + k)) == y.trace + Sentinels(k + 1);
    } else {
      assert Returns(Steps(m, FirstCall(m, args), n)) == y.trace + [];
    }
  }

  /** Where the flags are kept, every value the source yields is returned. */
  lemma GeneratorComplete(m: Machine, params: seq<string>, body: seq<Stmt>, args: seq<Int64>, fuel: nat, k: nat)
    requires EmitResume(params, body) == Some(m.prog) && |params| == |args| && FlagsKept(m, body)
    ensures var y := Generated(body, Arguments(params, args), fuel);
            exists n: nat :: Returns(Steps(m, FirstCall(m, args), n)) == y.trace + if Over(y) then Sentinels(k + 1) else []
  {
    hide EmitResume, Generated, Performed, FlagsKept;
    KeptMeaning(m, params, body, args, fuel);
    CallsComplete(m, params, body, args, fuel, k);
  }

  lemma {:induction false} SentinelFirst(k: nat)
    ensures [SENTINEL] + Sentinels(k) == Sentinels(k + 1)
    decreases k
  {
    if k > 0 {
      SentinelFirst(k - 1);
      assert [SENTINEL] + (Sentinels(k - 1) + [SENTINEL]) == [SENTINEL] + Sentinels(k - 1) + [SENTINEL];
    }
  }

  lemma {:induction false} ReturnsGrow(m: Machine, c: Config, n: nat)
    requires m.prog.gen && (c.Run? || c.Idle?) && (Steps(m, c, n).Run? || Steps(m, c, n).Idle?)
    ensures Returns(c) <= Returns(Steps(m, c, n))
    decreases n
  {
    if n > 0 {
      var d := Step(m, c);
      if d.Run? || d.Idle? {
        ReturnsGrow(m, d, n - 1);
      } else {
        WrongStays(m, d, n - 1);
      }
    }
  }

  lemma {:induction false} WrongStays(m: Machine, c: Config, n: nat)
    requires c.Wrong? || c.Halt?
    ensures Steps(m, c, n) == c
    decreases n
  {
    if n > 0 {
      WrongStays(m, c, n - 1);
    }
  }

  /** However far the calls have come, what they returned is what the lowered body yields,
      followed by sentinels only where it is over. */
  lemma CallsSound(m: Machine, params: seq<string>, body: seq<Stmt>, args: seq<Int64>, n: nat)
    requires EmitResume(params, body) == Some(m.prog) && |params| == |args|
    ensures var d := Steps(m, FirstCall(m, args), n);
            (d.Run? || d.Idle?) && exists fuel: nat, k: nat :: Prefixes(Returns(d), Performed(m, params, body, args, fuel), k)
  {
    hide EmitResume, DoList, Performed, Steps, Step, Sentinels;
    var c, y := FirstCall(m, args), Performed(m, params, body, args, n);
    var k, d := ResumeRuns(m, params, body, args, n);
    if n <= k {
      StepsAdd(m, c, n, k - n);
      if Steps(m, c, n).Wrong? || Steps(m, c, n).Halt? {
        WrongStays(m, Steps(m, c, n), k - n);
        assert false;
      }
      ResumeGen(m, params, body);
      ReturnsGrow(m, Steps(m, c, n), k - n);
      SentinelFirst(0);
      assert Prefixes(Returns(Steps(m, c, n)), y, 1);
    } else {
      IdleSteps(m, y.trace + [SENTINEL], n - k);
      StepsAdd(m, c, k, n - k);
      SentinelFirst(n - k);
      assert y.trace + [SENTINEL] + Sentinels(n - k) == y.trace + Sentinels(n - k + 1);
      assert Prefixes(Returns(Steps(m, c, n)), y, n - k + 1);
    }
  }

  /** Where the flags are kept, the calls return nothing but what the source yields. */
  lemma GeneratorSound(m: Machine, params: seq<string>, body: seq<Stmt>, args: seq<Int64>, n: nat)
    requires EmitResume(params, body) == Some(m.prog) && |params| == |args| && FlagsKept(m, body)
    ensures var d := Steps(m, FirstCall(m, args), n);
            (d.Run? || d.Idle?) && exists fuel: nat, k: nat :: Prefixes(Returns(d), Generated(body, Arguments(params, args), fuel), k)
  {
    hide EmitResume, Generated, Performed, Prefixes, Steps, FlagsKept;
    CallsSound(m, params, body, args, n);
    var d := Steps(m, FirstCall(m, args), n);
    var fuel: nat, k: nat :| Prefixes(Returns(d), Performed(m, params, body, args, fuel), k);
    KeptMeaning(m, params, body, args, fuel);
  }

  ghost predicate Prefixes(out: seq<Int64>, y: Result, k: nat) {
    out <= y.trace + if Over(y) then Sentinels(k) else []
  }

  lemma ResumeGen(m: Machine, params: seq<string>, body: seq<Stmt>)
    requires EmitResume(params, body) == Some(m.prog)
    ensures m.prog.gen
  {
  }

  // ---- a loop over a generator ----

  /** What a loop that stops at the first sentinel sees of the returned values. */
  function Collected(out: seq<Int64>): seq<Int64> {
    if out == [] || out[0] == SENTINEL then [] else [out[0]] + Collected(out[1..])
  }

  lemma {:induction false} CollectedUpTo(t: seq<Int64>, k: nat)
    requires k > 0
    ensures Collected(t + Sentinels(k)) == t <==> SENTINEL !in t
    ensures |Collected(t + Sentinels(k))| <= |t|
    decreases |t|
  {
    var s := t + Sentinels(k);
    SentinelFirst(k - 1);
    if t == [] {
      assert s == Sentinels(k);
    } else {
      assert s[1..] == t[1..] + Sentinels(k);
      CollectedUpTo(t[1..], k);
      assert t == [t[0]] + t[1..];
    }
  }

  /** Once more values were returned than the lowered body yields, the rest are sentinels. */
  lemma OverReturns(m: Machine, params: seq<string>, body: seq<Stmt>, args: seq<Int64>, fuel: nat, n: nat) returns (k: nat)
    requires EmitResume(params, body) == Some(m.prog) && |params| == |args|
    requires Over(Performed(m, params, body, args, fuel))
    requires |Returns(Steps(m, FirstCall(m, args), n))| > |Performed(m, params, body, args, fuel).trace|
    ensures k > 0 && Returns(Steps(m, FirstCall(m, args), n)) == Performed(m, params, body, args, fuel).trace + Sentinels(k)
  {
    hide EmitResume, DoList, Performed;
    var c, y := FirstCall(m, args), Performed(m, params, body, args, fuel);
    var i, d := ResumeRuns(m, params, body, args, fuel);
    SentinelFirst(0);
    if n <= i {
      k := 1;
      StepsAdd(m, c, n, i - n);
      ResumeGen(m, params, body);
      ReturnsGrow(m, Steps(m, c, n), i - n);
    } else {
      k := n - i + 1;
      IdleSteps(m, y.trace + [SENTINEL], n - i);
      StepsAdd(m, c, i, n - i);
      SentinelFirst(n - i);
      assert y.trace + [SENTINEL] + Sentinels(n - i) == y.trace + Sentinels(k);
    }
  }

  /** A loop over a generator that comes to an end sees exactly what the lowered body yields
      if and only if none of the values is the sentinel; otherwise it stops early. */
  lemma CallsCollected(m: Machine, params: seq<string>, body: seq<Stmt>, args: seq<Int64>, fuel: nat, n: nat)
    requires EmitResume(params, body) == Some(m.prog) && |params| == |args|
    requires Over(Performed(m, params, body, args, fuel))
    requires |Returns(Steps(m, FirstCall(m, args), n))| > |Performed(m, params, body, args, fuel).trace|
    ensures var out, y := Returns(Steps(m, FirstCall(m, args), n)), Performed(m, params, body, args, fuel);
            Collected(out) == y.trace <==> forall v :: v in y.trace ==> v > -0x8000_0000_0000_0000
  {
    hide EmitResume, DoList, Performed;
    var k := OverReturns(m, params, body, args, fuel, n);
    CollectedUpTo(Performed(m, params, body, args, fuel).trace, k);
  }

  /** Where the flags are kept, a loop over a generator that comes to an end sees exactly what
      the source yields if and only if none of the values is the sentinel. */
  lemma CollectorExact(m: Machine, params: seq<string>, body: seq<Stmt>, args: seq<Int64>, fuel: nat, n: nat)
    requires EmitResume(params, body) == Some(m.prog) && |params| == |args| && FlagsKept(m, body)
    requires Over(Generated(body, Arguments(params, args), fuel))
    requires |Returns(Steps(m, FirstCall(m, args), n))| > |Generated(body, Arguments(params, args), fuel).trace|
    ensures var out, y := Returns(Steps(m, FirstCall(m, args), n)), Generated(body, Arguments(params, args), fuel);
            Collected(out) == y.trace <==> forall v :: v in y.trace ==> v > -0x8000_0000_0000_0000
  {
    hide EmitResume, Generated, Performed, FlagsKept;
    KeptMeaning(m, params, body, args, fuel);
    CallsCollected(m, params, body, args, fuel, n);
  }

  // ---- the block graph ----

  /** Every block ends in exactly one terminator, which goes to blocks that exist. */
  ghost predicate WellFormed(p: Program) {
    forall b: nat {:trigger p.blocks[b]} :: b < |p.blocks| ==> Ends(p.blocks[b].term, |p.blocks|)
  }

  lemma EndedBlocks(e: State, r: State, p: Program)
    requires Touches(e, r, {}) && p.blocks == r.blocks && forall b: nat :: b < |e.blocks| && b != e.cur ==> Ends(e.blocks[b].term, |r.blocks|)
    ensures WellFormed(p)
  {
    forall b: nat | b < |p.blocks|
      ensures Ends(p.blocks[b].term, |p.blocks|)
    {
      assert Within(e, r, b) ==> Ended(r, b);
      assert !Within(e, r, b) ==> Kept(e, r, b);
    }
  }

  lemma FunctionWellFormed(params: seq<string>, body: seq<Stmt>)
    requires EmitFunction(params, body).Some?
    ensures WellFormed(EmitFunction(params, body).value)
  {
    hide EmitList, Touches, BindParams;
    var e := BodyStart(params);
    BindOpen(0, params, FunctionEntry(params));
    var r := EmitList(body, e).value;
    ListTouches(body, e);
    if r.Open() {
      ChainClose(e, r, {r.cur}, Ret(Some(Imm(0))));
      assert {r.cur} - {r.cur} == {};
      EndedBlocks(e, r.Close(Ret(Some(Imm(0)))), EmitFunction(params, body).value);
    } else {
      EndedBlocks(e, r, EmitFunction(params, body).value);
    }
  }

  lemma ResumeWellFormed(params: seq<string>, body: seq<Stmt>)
    requires EmitResume(params, body).Some?
    ensures WellFormed(EmitResume(params, body).value)
  {
    hide EmitList, Touches, RestoreFrom, DeclareParams;
    var e0 := ResumeStart(params);
    var e := RestoreFrom(0, e0);
    RestoreTouches(0, e0);
    var r := EmitList(body, e).value;
    ListTouches(body, e);
    Onward(e0, e, r, OpenOf(r));
    TouchesCur(e0, r, OpenOf(r));
    var t := r;
    if r.Open() {
      t := r.Close(Br(2));
      ChainClose(e0, r, {r.cur}, Br(2));
      assert {r.cur} - {r.cur} == {};
    }
    assert t == CloseIfOpen(r, 2);
    FinishEnds(e0, t, FinishResume(r));
  }

  lemma FinishEnds(e0: State, t: State, d: State)
    requires e0.Valid() && t.Valid() && Touches(e0, t, {}) && e0.blocks == ResumeEntry().blocks && e0.cur == 3
    requires |d.blocks| == |t.blocks| && d.blocks == t.blocks[2 := Block(d.blocks[2].instrs, Some(Ret(Some(Imm(SENTINEL)))))]
    ensures WellFormed(Program(d.blocks, d.resume, true))
  {
    forall b: nat | b < |d.blocks|
      ensures Ends(d.blocks[b].term, |d.blocks|)
    {
      assert Within(e0, t, b) ==> Ended(t, b);
      assert !Within(e0, t, b) ==> Kept(e0, t, b);
    }
  }

  lemma LowerWellFormed(params: seq<string>, body: seq<Stmt>)
    requires Lower(params, body).Some?
    ensures WellFormed(Lower(params, body).value)
  {
    hide EmitFunction, EmitResume;
    if ContainsYield(body) {
      ResumeWellFormed(params, body);
    } else {
      FunctionWellFormed(params, body);
    }
  }
}
