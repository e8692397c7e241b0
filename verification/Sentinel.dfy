/** The value that ends a loop over a generator, where the generator yields it itself. */
module Sentinel {
  import opened Wrappers
  import opened Ast
  import opened Semantics
  import opened Machine
  import opened Emit
  import opened Lowering

  /** What a loop over the generator sees: the returned values up to the first that is the least
      64-bit integer. */
  lemma {:induction false} CollectedPrefix(out: seq<Int64>)
    ensures var seen := Collected(out);
            && seen <= out && (forall v :: v in seen ==> v > -0x8000_0000_0000_0000)
            && (|seen| < |out| ==> out[|seen|] == -0x8000_0000_0000_0000)
    decreases |out|
  {
    if out != [] && out[0] != SENTINEL {
      CollectedPrefix(out[1..]);
      assert out == [out[0]] + out[1..];
    }
  }

  // yield the first number; yield 5
  function Yields(first: Int64): seq<Stmt> {
    [Yield(Some(Lit(first))), Yield(Some(Lit(5)))]
  }

  lemma YieldsMeaning(first: Int64, fuel: nat)
    ensures Generated(Yields(first), map[], fuel) == Result(Fell, map[], [first, 5]) && FlagsSafe(Yields(first))
  {
    var body := Yields(first);
    var env, p, tail := map[], Place(true, false), body[1..];
    assert tail == [Yield(Some(Lit(5)))] && tail[1..] == [];
    assert Exec(tail[0], env, p, fuel) == Result(Fell, env, [5]);
    assert [5] + [] == [5] && [first] + [5] == [first, 5];
    assert ExecList(tail, env, p, fuel) == Result(Fell, env, [5]);
    assert FlagsSafe(tail);
    assert Exec(body[0], env, p, fuel) == Result(Fell, env, [first]);
  }

  /** The source yields the least integer and 5; however far a loop over the generator comes, it
      sees none. */
  lemma NothingSeen(m: Machine, n: nat)
    requires EmitResume([], Yields(-0x8000_0000_0000_0000)) == Some(m.prog)
    ensures Generated(Yields(-0x8000_0000_0000_0000), Arguments([], []), 0) == Result(Fell, map[], [-0x8000_0000_0000_0000, 5])
    ensures Collected(Returns(Steps(m, FirstCall(m, []), n))) == []
  {
    hide EmitResume, Generated, Steps, Prefixes, FlagsSafe, Yields;
    var body := Yields(-0x8000_0000_0000_0000);
    YieldsMeaning(-0x8000_0000_0000_0000, 0);
    var none: seq<Int64> := [];
    GeneratorSound(m, [], body, none, n);
    var out := Returns(Steps(m, FirstCall(m, none), n));
    var fuel: nat, k: nat :| Prefixes(out, Generated(body, Arguments([], none), fuel), k);
    YieldsMeaning(-0x8000_0000_0000_0000, fuel);
    StartsWithSentinel(out, Generated(body, Arguments([], none), fuel), k);
  }

  lemma StartsWithSentinel(out: seq<Int64>, y: Result, k: nat)
    requires Prefixes(out, y, k) && y.trace == [-0x8000_0000_0000_0000, 5]
    ensures Collected(out) == []
  {
    hide Sentinels;
    var all := y.trace + if Over(y) then Sentinels(k) else [];
    assert all[0] == SENTINEL;
  }

  /** Any other first value is seen, and 5 after it: the calls return both and then the least
      integer, and a loop over the generator that comes to its end sees both, zeros included. */
  lemma BothSeen(m: Machine, first: Int64, n: nat)
    requires EmitResume([], Yields(first)) == Some(m.prog) && first > -0x8000_0000_0000_0000
    ensures exists i: nat :: Returns(Steps(m, FirstCall(m, []), i)) == [first, 5, -0x8000_0000_0000_0000]
    ensures |Returns(Steps(m, FirstCall(m, []), n))| > 2 ==> Collected(Returns(Steps(m, FirstCall(m, []), n))) == [first, 5]
  {
    hide EmitResume, Generated, Steps, Yields, Sentinels, FlagsKept, Returns, Collected;
    var none: seq<Int64> := [];
    YieldsMeaning(first, 0);
    FlagsKeptHere(m, Yields(first));
    GeneratorComplete(m, [], Yields(first), none, 0, 0);
    var i: nat :| Returns(Steps(m, FirstCall(m, none), i)) == [first, 5] + Sentinels(1);
    assert [first, 5] + Sentinels(1) == [first, 5, -0x8000_0000_0000_0000];
    if |Returns(Steps(m, FirstCall(m, none), n))| > 2 {
      CollectorExact(m, [], Yields(first), none, 0, n);
    }
  }

  lemma FlagsKeptHere(m: Machine, body: seq<Stmt>)
    requires FlagsSafe(body)
    ensures FlagsKept(m, body)
  {
  }
}
