/** What becomes of a function whose yields the test for generators does not see. */
module MissedYields {
  import opened Wrappers
  import opened Ast
  import opened Semantics
  import opened Machine
  import opened Emit
  import opened Lowering
  import opened Scoping

  // No value was returned on the way.
  ghost predicate Mute(c: Config) {
    match c
    case Run(_, _, _, _, _, _, out) => out == []
    case Idle(_) => false
    case _ => true
  }

  lemma {:induction false} MuteSteps(m: Machine, c: Config, n: nat)
    requires !m.prog.gen && Mute(c)
    ensures Mute(Steps(m, c, n))
    decreases n
  {
    if n > 0 {
      MuteSteps(m, Step(m, c), n - 1);
    }
  }

  /** A function is compiled as a generator exactly if the test sees a yield; so it is compiled
      as what it is not exactly if it yields and the test does not see it. */
  lemma KindIff(params: seq<string>, body: seq<Stmt>)
    requires Lower(params, body).Some?
    ensures Lower(params, body).value.gen <==> ContainsYield(body)
    ensures Lower(params, body).value.gen != HasYield(body) <==> HasYield(body) && !ContainsYield(body)
  {
    hide EmitList, RestoreFrom, DeclareParams, BindParams;
    YieldsMissed(body);
  }

  /** Such a function returns no value on the way, whatever it yields in the source: it halts
      with what is left of its body when the yields are passed over. */
  lemma NotSeen(m: Machine, params: seq<string>, body: seq<Stmt>, args: seq<Int64>, n: nat, v: Option<Int64>)
    requires Lower(params, body) == Some(m.prog) && |params| == |args|
    requires HasYield(body) && !ContainsYield(body)
    ensures ElseYields(body) && !m.prog.gen && Mute(Steps(m, CallOf(m, args), n))
    ensures Halts(m, CallOf(m, args), v) <==> Evaluates(body, Arguments(params, args), v)
  {
    hide EmitFunction, Halts, Evaluates, Steps;
    YieldsMissed(body);
    KindIff(params, body);
    MuteSteps(m, CallOf(m, args), n);
    FunctionCorrect(m, params, body, args, v);
  }

  // while 0: pass;  else: yield 7
  const UNSEEN: seq<Stmt> := [While(Truth(Lit(0)), [Pass], [Yield(Some(Lit(7)))])]

  lemma UnseenYields()
    ensures HasYield(UNSEEN) && !ContainsYield(UNSEEN)
  {
    var els, body := UNSEEN[0].els, UNSEEN[0].body;
    assert els[1..] == [] && body[1..] == [] && UNSEEN[1..] == [];
    assert HasYield(els) && !ContainsYield(body);
  }

  lemma UnseenScoped(p: Place)
    ensures ListScoped(UNSEEN, {}, p)
  {
    var s := UNSEEN[0];
    assert s.els[1..] == [] && s.body[1..] == [] && UNSEEN[1..] == [];
    assert ListScoped(s.els, {}, p) && ListScoped(s.body, {}, p.(inLoop := true));
    assert StmtScoped(s, {}, p);
  }

  lemma UnseenLowered()
    ensures Lower([], UNSEEN).Some?
  {
    hide Lower, ListScoped;
    assert Named([]) == {};
    UnseenScoped(Place(ContainsYield(UNSEEN), false));
    LoweredIff([], UNSEEN);
  }

  lemma UnseenMeaning(gen: bool, fuel: nat)
    requires fuel > 0
    ensures ExecList(UNSEEN, map[], Place(gen, false), fuel) == Result(Fell, map[], if gen then [7] else [])
  {
    var s, env, p := UNSEEN[0], map[], Place(gen, false);
    var els := s.els;
    assert els[1..] == [] && UNSEEN[1..] == [];
    var y := Exec(els[0], env, p, fuel);
    assert y == Result(Fell, env, if gen then [7] else []);
    assert y.trace + [] == y.trace && Restrict(env, env.Keys) == env;
    assert ExecList(els, env, p, fuel) == y;
    assert Exec(s, env, p, fuel) == ExecLoop(s, env, p, fuel) == y;
  }

  /** The source yields 7; the lowered function, and there is one, returns 0 and nothing before. */
  lemma YieldLost(m: Machine)
    requires Lower([], UNSEEN) == Some(m.prog)
    ensures HasYield(UNSEEN) && !ContainsYield(UNSEEN)
    ensures Generated(UNSEEN, Arguments([], []), 1) == Result(Fell, map[], [7])
    ensures Halts(m, CallOf(m, []), Some(0)) && forall n: nat :: Mute(Steps(m, CallOf(m, []), n))
  {
    hide Lower, Halts, Steps, Mute;
    UnseenYields();
    UnseenMeaning(true, 1);
    UnseenMeaning(false, 1);
    var none: seq<Int64> := [];
    assert Finishes(ExecList(UNSEEN, Arguments([], none), Place(false, false), 1), Some(0));
    assert Evaluates(UNSEEN, Arguments([], none), Some(0));
    forall n: nat
      ensures Mute(Steps(m, CallOf(m, []), n))
    {
      NotSeen(m, [], UNSEEN, none, n, Some(0));
    }
    NotSeen(m, [], UNSEEN, none, 0, Some(0));
  }
}
