/** Comparison chains, the copies they are built from, and the expressions that read as
    something else when parentheses are missing. */
module Comparisons {
  import opened Wrappers
  import opened Syntax
  import opened Parsing
  import opened RoundTrip

  // ---- copies ----

  predicate HasTypeArgs(e: Expr)
    decreases e
  {
    match e
    case Name(_) => false
    case Num(_) => false
    case Bin(_, l, r) => HasTypeArgs(l) || HasTypeArgs(r)
    case Un(_, x) => HasTypeArgs(x)
    case Call(f, names, args) => names != [] || HasTypeArgs(f) || AnyTypeArgs(args)
    case Member(o, _) => HasTypeArgs(o)
    case Index(b, i) => HasTypeArgs(b) || HasTypeArgs(i)
    case Tuple(es) => AnyTypeArgs(es)
    case List(es) => AnyTypeArgs(es)
    case Lambda(_, b) => HasTypeArgs(b)
    case Walrus(_, v) => HasTypeArgs(v)
    case Spread(x) => HasTypeArgs(x)
    case DictSpread(x) => HasTypeArgs(x)
  }

  predicate AnyTypeArgs(es: seq<Expr>)
    decreases es
  {
    es != [] && (HasTypeArgs(es[0]) || AnyTypeArgs(es[1..]))
  }

  /** A copy is the original exactly if no call in it has type arguments. */
  lemma {:induction false} CloneIsSame(e: Expr)
    ensures Clone(e) == e <==> !HasTypeArgs(e)
    decreases e, 0
  {
    match e
    case Name(_) =>
    case Num(_) =>
    case Bin(_, l, r) => CloneIsSame(l); CloneIsSame(r);
    case Un(_, x) => CloneIsSame(x);
    case Call(f, _, args) => CloneIsSame(f); ClonesAreSame(args);
    case Member(o, _) => CloneIsSame(o);
    case Index(b, i) => CloneIsSame(b); CloneIsSame(i);
    case Tuple(es) => ClonesAreSame(es);
    case List(es) => ClonesAreSame(es);
    case Lambda(_, b) => CloneIsSame(b);
    case Walrus(_, v) => CloneIsSame(v);
    case Spread(x) => CloneIsSame(x);
    case DictSpread(x) => CloneIsSame(x);
  }

  lemma {:induction false} ClonesAreSame(es: seq<Expr>)
    ensures CloneAll(es) == es <==> !AnyTypeArgs(es)
    decreases es, 0
  {
    if es != [] {
      CloneIsSame(es[0]);
      ClonesAreSame(es[1..]);
      assert es == [es[0]] + es[1..];
      assert CloneAll(es)[0] == Clone(es[0]) && CloneAll(es)[1..] == CloneAll(es[1..]);
    }
  }

  // ---- chains ----

  /** What a chain means: each neighbouring pair compared, all joined with `and`. */
  function Conjunction(i: nat, operands: seq<Expr>, ops: seq<BinOp>): Expr
    requires 0 < i <= |ops| == |operands| - 1
  {
    var last := Bin(ops[i - 1], operands[i - 1], operands[i]);
    if i == 1 then last else Bin(And, Conjunction(i - 1, operands, ops), last)
  }

  lemma {:induction false} DesugarExact(i: nat, operands: seq<Expr>, ops: seq<BinOp>)
    requires 0 < i <= |ops| == |operands| - 1
    ensures DesugarUpTo(i, operands, ops) == Conjunction(i, operands, ops) <==>
            forall k {:trigger operands[k]} :: 0 < k <= i && k < |ops| ==> !HasTypeArgs(operands[k])
    decreases i
  {
    CloneIsSame(operands[i]);
    if i > 1 {
      DesugarExact(i - 1, operands, ops);
    }
  }

  /** The chain is read as its meaning exactly if no operand between two comparisons has a
      call with type arguments: copying such a call drops them. */
  lemma ChainMeansConjunction(operands: seq<Expr>, ops: seq<BinOp>)
    requires ops != [] && |operands| == |ops| + 1
    ensures Desugar(operands, ops) == Conjunction(|ops|, operands, ops) <==>
            forall k {:trigger operands[k]} :: 0 < k < |ops| ==> !HasTypeArgs(operands[k])
  {
    DesugarExact(|ops|, operands, ops);
  }

  /** `a < f<T>() < c` is built with `f()` in its first comparison, and so is not what it means. */
  lemma TypeArgsDropped(a: string, f: string, T: string, c: string)
    ensures Clone(Call(Name(f), [T], [])) == Call(Name(f), [], []) != Call(Name(f), [T], [])
    ensures var operands := [Name(a), Call(Name(f), [T], []), Name(c)];
            && Desugar(operands, [Lt, Lt]) == Bin(And, Bin(Lt, Name(a), Call(Name(f), [], [])), Bin(Lt, Call(Name(f), [T], []), Name(c)))
            && Desugar(operands, [Lt, Lt]) != Conjunction(2, operands, [Lt, Lt])
  {
    var operands: seq<Expr> := [Name(a), Call(Name(f), [T], []), Name(c)];
    var call := Call(Name(f), [T], []);
    assert Clone(Name(f)) == Name(f) && CloneAll([]) == [];
    assert Clone(call) == Call(Name(f), [], []);
    assert operands[1] == call && HasTypeArgs(call);
    assert DesugarUpTo(1, operands, [Lt, Lt]) == Bin(Lt, Name(a), Call(Name(f), [], []));
    ChainMeansConjunction(operands, [Lt, Lt]);
  }

  // The comparisons of a chain, after the first operand.
  function ShowChain(operands: seq<Expr>, ops: seq<BinOp>): seq<Token>
    requires |operands| == |ops|
  {
    if ops == [] then [] else OpTokens(ops[0]) + Show(operands[0], ARITHMETIC) + ShowChain(operands[1..], ops[1..])
  }

  predicate AllComparisons(ops: seq<BinOp>) {
    forall op :: op in ops ==> OpLevel(op) == COMPARISON
  }

  /** `< name > (`: such a part of a chain reads as the type arguments of a call. */
  predicate Confusable(operands: seq<Expr>, ops: seq<BinOp>)
    requires |operands| == |ops|
  {
    exists i :: 0 <= i < |ops| - 1 && ConfusableAt(operands, ops, i)
  }

  predicate ConfusableAt(operands: seq<Expr>, ops: seq<BinOp>, i: nat)
    requires |operands| == |ops| && i + 1 < |ops|
  {
    ops[i] == Lt && ops[i + 1] == Gt && operands[i].Name? && Next(Show(operands[i + 1], ARITHMETIC), LParen)
  }

  lemma NoChain(rest: seq<Token>)
    ensures ShowChain([], []) + rest == rest
  {
  }

  lemma ChainHead(operands: seq<Expr>, ops: seq<BinOp>, rest: seq<Token>)
    requires |operands| == |ops| != 0
    ensures ShowChain(operands, ops) + rest == OpTokens(ops[0]) + (Show(operands[0], ARITHMETIC) + ShowChain(operands[1..], ops[1..]) + rest)
  {
    hide Show, OpTokens;
  }

  lemma CompAfter(ops: seq<BinOp>, operands: seq<Expr>, rest: seq<Token>)
    requires |operands| == |ops| && AllComparisons(ops) && Clean(COMPARISON, rest)
    requires ops != [] && ops[0] == Lt ==> TypeArgsAt(ShowChain(operands, ops) + rest).None?
    ensures Clean(ARITHMETIC, ShowChain(operands, ops) + rest)
  {
    hide Show, OpTokens, TypeArgsAt, OpAt, Clean, ShowChain;
    if ops == [] {
      NoChain(rest);
      CleanUp(COMPARISON, ARITHMETIC, rest);
    } else {
      var after := Show(operands[0], ARITHMETIC) + ShowChain(operands[1..], ops[1..]) + rest;
      ChainHead(operands, ops, rest);
      assert ops[0] in ops;
      OperatorStops(ops[0], after);
    }
  }

  lemma ChainSplits(operands: seq<Expr>, ops: seq<BinOp>, rest: seq<Token>)
    requires |operands| == |ops| != 0 && ops[0] == Lt
    ensures var tail := ShowChain(operands[1..], ops[1..]) + rest;
            ShowChain(operands, ops) + rest == [Sym(Less)] + (Show(operands[0], ARITHMETIC) + tail) && (|ops| == 1 ==> tail == rest)
  {
    hide Show;
  }

  /** `<` in a chain does not begin type arguments, unless just this part is confusable. */
  lemma LessInChain(operands: seq<Expr>, ops: seq<BinOp>, rest: seq<Token>)
    requires |operands| == |ops| != 0 && AllComparisons(ops) && Clean(COMPARISON, rest) && ops[0] == Lt
    requires |ops| > 1 ==> !ConfusableAt(operands, ops, 0)
    ensures TypeArgsAt(ShowChain(operands, ops) + rest).None?
  {
    hide Show, TypeArgsAt, ShowChain, Stops;
    var r, tail := operands[0], ShowChain(operands[1..], ops[1..]) + rest;
    var shown := Show(r, ARITHMETIC);
    var ts := [Sym(Less)] + (shown + tail);
    ChainSplits(operands, ops, rest);
    FirstToken(r, ARITHMETIC);
    TypeArgsShape(ts);
    if |ops| == 1 {
      NoTypeArgs(r, rest);
    } else if shown[0].Ident? {
      SecondToken(r, ARITHMETIC);
      if |shown| == 1 {
        assert ops[1] in ops;
        OneToken(r);
        NextComparison(operands[1..], ops[1..], rest);
        assert |ts| >= 4 ==> ts[2] == tail[0] && ts[3] == tail[1];
      }
    }
  }

  lemma {:induction false} OneToken(e: Expr)
    requires Show(e, ARITHMETIC) != [] && Show(e, ARITHMETIC)[0].Ident? && |Show(e, ARITHMETIC)| == 1
    ensures e.Name?
  {
    match e
    case Bin(op, l, r) => FirstToken(l, LeftLevel(op)); FirstToken(r, RightLevel(op));
    case Call(f, _, _) => FirstToken(f, POSTFIX);
    case Member(o, _) => FirstToken(o, POSTFIX);
    case Index(b, _) => FirstToken(b, POSTFIX);
    case _ =>
  }

  lemma NextComparison(operands: seq<Expr>, ops: seq<BinOp>, rest: seq<Token>)
    requires |operands| == |ops| != 0 && OpLevel(ops[0]) == COMPARISON
    requires ops[0] == Gt ==> !Next(Show(operands[0], ARITHMETIC), LParen)
    ensures var tail := ShowChain(operands, ops) + rest;
            !Next(tail, Comma) && (Next(tail, More) ==> |tail| < 2 || tail[1] != Sym(LParen))
  {
    hide Show;
    FirstToken(operands[0], ARITHMETIC);
  }

  /** A chain that is not confusable is read as `Desugar` builds it. */
  lemma {:induction false} ChainReadsFrom(before: seq<Expr>, done: seq<BinOp>, operands: seq<Expr>, ops: seq<BinOp>, rest: seq<Token>)
    requires |before| == |done| + 1 && |operands| == |ops| && AllComparisons(ops) && Clean(COMPARISON, rest) && !Confusable(operands, ops)
    ensures Chain(before, done, ShowChain(operands, ops) + rest) == Some((Desugar(before + operands, done + ops), rest))
    decreases |ops|
  {
    hide Show, OpTokens, TypeArgsAt, OpAt, Parse, Desugar, Stops;
    if ops == [] {
      assert ShowChain(operands, ops) + rest == rest && before + operands == before && done + ops == done;
      CleanNoOp(rest);
    } else {
      var tail := ShowChain(operands[1..], ops[1..]) + rest;
      var after := Show(operands[0], ARITHMETIC) + tail;
      assert ShowChain(operands, ops) + rest == OpTokens(ops[0]) + after;
      StillPlain(operands, ops);
      OpAtWritten(ops[0], after);
      if |ops| > 1 && ops[1] == Lt {
        NoneConfusable(operands[1..], ops[1..]);
        LessInChain(operands[1..], ops[1..], rest);
      }
      CompAfter(ops[1..], operands[1..], rest);
      Reads(operands[0], ARITHMETIC, tail);
      ChainReadsFrom(before + [operands[0]], done + [ops[0]], operands[1..], ops[1..], rest);
      assert before + [operands[0]] + operands[1..] == before + operands;
      assert done + [ops[0]] + ops[1..] == done + ops;
    }
  }

  lemma NoneConfusable(operands: seq<Expr>, ops: seq<BinOp>)
    requires |operands| == |ops| && !Confusable(operands, ops)
    ensures |ops| > 1 ==> !ConfusableAt(operands, ops, 0)
  {
  }

  lemma CleanNoOp(rest: seq<Token>)
    requires Clean(COMPARISON, rest)
    ensures OpAt(COMPARISON, rest).None?
  {
  }

  lemma StillPlain(operands: seq<Expr>, ops: seq<BinOp>)
    requires |operands| == |ops| != 0 && AllComparisons(ops) && !Confusable(operands, ops)
    ensures AllComparisons(ops[1..]) && !Confusable(operands[1..], ops[1..]) && OpLevel(ops[0]) == COMPARISON
  {
    if Confusable(operands[1..], ops[1..]) {
      var i :| 0 <= i < |ops[1..]| - 1 && ConfusableAt(operands[1..], ops[1..], i);
      assert ConfusableAt(operands, ops, i + 1);
    }
  }

  lemma ChainReadsAll(first: Expr, operands: seq<Expr>, ops: seq<BinOp>, rest: seq<Token>)
    requires |operands| == |ops| && AllComparisons(ops) && Clean(COMPARISON, rest) && !Confusable(operands, ops)
    ensures Parse(COMPARISON, Show(first, ARITHMETIC) + (ShowChain(operands, ops) + rest)) == Some((Desugar([first] + operands, ops), rest))
  {
    hide Show, ShowChain, Desugar, TypeArgsAt, Chain, Clean, AllComparisons, Confusable;
    if ops != [] && ops[0] == Lt {
      NoneConfusable(operands, ops);
      LessInChain(operands, ops, rest);
    }
    CompAfter(ops, operands, rest);
    Reads(first, ARITHMETIC, ShowChain(operands, ops) + rest);
    ChainReadsFrom([first], [], operands, ops, rest);
    assert [] + ops == ops;
  }

  // ---- what reads as something else ----

  /** `a < b > (c)` is a call of `a`, not a chain. */
  lemma ConfusableChain(a: string, b: string, c: string)
    ensures Confusable([Name(b), Un(Not, Name(c))], [Lt, Gt])
    ensures var ts := [Ident(a), Sym(Less), Ident(b), Sym(More), Sym(LParen), Ident(c), Sym(RParen)];
            Parse(0, ts) == Some((Call(Name(a), [b], [Name(c)]), []))
  {
    assert ConfusableAt([Name(b), Un(Not, Name(c))], [Lt, Gt], 0);
    var e := Call(Name(a), [b], [Name(c)]);
    RoundTrips(e);
    assert [b][1..] == [];
    assert ShowTypeArgs([b]) == [Sym(Less), Ident(b), Sym(More)];
    assert ShowItems([Name(c)]) == Show(Name(c), ARITHMETIC) == [Ident(c)];
    assert Show(Name(a), POSTFIX) == [Ident(a)];
    assert Show(e, 0) == [Ident(a), Sym(Less), Ident(b), Sym(More), Sym(LParen), Ident(c), Sym(RParen)];
  }

  /** `f(a < b, c > (d))` passes one argument, a call with two type arguments. */
  lemma ConfusableArguments(f: string, a: string, b: string, c: string, d: string)
    ensures var ts := [Ident(f), Sym(LParen), Ident(a), Sym(Less), Ident(b), Sym(Comma), Ident(c), Sym(More),
                       Sym(LParen), Ident(d), Sym(RParen), Sym(RParen)];
            Parse(0, ts) == Some((Call(Name(f), [], [Call(Name(a), [b, c], [Name(d)])]), []))
  {
    var g := Call(Name(a), [b, c], [Name(d)]);
    var e := Call(Name(f), [], [g]);
    RoundTrips(e);
    assert [b, c][1..] == [c] && [c][1..] == [];
    assert ShowMoreTypeArgs([c]) == [Sym(Comma), Ident(c), Sym(More)];
    assert ShowItems([Name(d)]) == Show(Name(d), ARITHMETIC) == [Ident(d)];
    assert Show(Name(a), POSTFIX) == [Ident(a)] && Show(Name(f), POSTFIX) == [Ident(f)];
    assert ShowItems([g]) == Show(g, ARITHMETIC) == Body(g);
    assert ShowTypeArgs([b, c]) == [Sym(Less), Ident(b), Sym(Comma), Ident(c), Sym(More)];
    assert Body(g) == [Ident(a), Sym(Less), Ident(b), Sym(Comma), Ident(c), Sym(More), Sym(LParen), Ident(d), Sym(RParen)];
    assert Show(e, 0) == [Ident(f), Sym(LParen)] + Body(g) + [Sym(RParen)];
    assert Show(e, 0) == [Ident(f), Sym(LParen), Ident(a), Sym(Less), Ident(b), Sym(Comma), Ident(c), Sym(More),
                          Sym(LParen), Ident(d), Sym(RParen), Sym(RParen)];
  }
}
