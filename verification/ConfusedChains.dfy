/** A confusable chain is never read as the chain that was meant: a part of it is taken for the type
    arguments of a call. */
module ConfusedChains {
  import opened Wrappers
  import opened Syntax
  import opened Parsing
  import opened RoundTrip
  import opened Comparisons

  // ---- how much is in an expression ----

  function Size(e: Expr): (r: nat)
    ensures r > 0
    decreases e, 0
  {
    match e
    case Name(_) => 1
    case Num(_) => 1
    case Bin(_, l, r) => 1 + Size(l) + Size(r)
    case Un(_, x) => 1 + Size(x)
    case Spread(x) => 1 + Size(x)
    case DictSpread(x) => 1 + Size(x)
    case Call(f, _, args) => 1 + Size(f) + SizeAll(args)
    case Member(o, _) => 1 + Size(o)
    case Index(b, i) => 1 + Size(b) + Size(i)
    case Tuple(es) => 1 + SizeAll(es)
    case List(es) => 1 + SizeAll(es)
    case Lambda(_, b) => 1 + Size(b)
    case Walrus(_, v) => 1 + Size(v)
  }

  function SizeAll(es: seq<Expr>): nat
    decreases es
  {
    if es == [] then 0 else Size(es[0]) + SizeAll(es[1..])
  }

  /** An expression that holds more than `e`, and is no looser operation than a sum. */
  predicate Outgrows(x: Expr, e: Expr) {
    Size(x) > Size(e) && (x.Bin? ==> OpLevel(x.op) >= ARITHMETIC)
  }

  // What is read, if anything, outgrows `e`.
  predicate Grown(r: Option<(Expr, seq<Token>)>, e: Expr) {
    r.Some? ==> Outgrows(r.value.0, e)
  }

  // ---- type arguments that follow belong to the last operand ----

  lemma CallsOutgrow(e: Expr)
    ensures forall names, args :: Size(Call(e, names, args)) > Size(e)
    ensures forall x :: Size(Member(e, x)) > Size(e)
    ensures forall i :: Size(Index(e, i)) > Size(e)
  {
  }

  lemma {:induction false} PostfixGrows(e: Expr, ts: seq<Token>)
    ensures Postfix(e, ts).Some? ==> var x := Postfix(e, ts).value.0; x == e || (Size(x) > Size(e) && !x.Bin?)
    decreases |ts|
  {
    hide TypeArgsAt, Arguments, Parse, Size;
    CallsOutgrow(e);
    if Next(ts, LParen) {
      if Arguments(ts[1..]).Some? {
        PostfixGrows(Call(e, [], Arguments(ts[1..]).value.0), Arguments(ts[1..]).value.1);
      }
    } else if Next(ts, Dot) {
      if Next(ts[1..], KwInit) {
        PostfixGrows(Member(e, "init"), ts[2..]);
      } else if |ts| >= 2 && ts[1].Ident? {
        PostfixGrows(Member(e, ts[1].name), ts[2..]);
      }
    } else if Next(ts, Less) {
      if TypeArgsAt(ts).Some? && Arguments(TypeArgsAt(ts).value.1).Some? {
        var (names, after) := TypeArgsAt(ts).value;
        PostfixGrows(Call(e, names, Arguments(after).value.0), Arguments(after).value.1);
      }
    } else if Next(ts, LBracket) && !Next(ts[1..], RBracket) {
      var r := Parse(0, ts[1..]);
      if r.Some? && Next(r.value.1, RBracket) {
        PostfixGrows(Index(e, r.value.0), r.value.1[1..]);
      }
    }
  }

  lemma {:induction false} LoopGrows(k: nat, e: Expr, ts: seq<Token>)
    requires LeftAssoc(k)
    ensures Loop(k, e, ts).Some? ==> var x := Loop(k, e, ts).value.0; x == e || (Size(x) > Size(e) && x.Bin? && OpLevel(x.op) == k)
    decreases |ts|
  {
    hide Parse;
    if OpAt(k, ts).Some? {
      var (op, after) := OpAt(k, ts).value;
      var r := Parse(k + 1, after);
      if r.Some? {
        LoopGrows(k, Bin(op, e, r.value.0), r.value.1);
      }
    }
  }

  // From one level to the next lower one.
  lemma Lower(k: nat, ts: seq<Token>, e: Expr)
    requires ARITHMETIC <= k < POSTFIX && Grown(Parse(k + 1, ts), e) && (k == 12 && ts != [] ==> PrefixOf(ts[0]).None?)
    ensures Grown(Parse(k, ts), e)
  {
    hide ParsePrimary, Arguments, Postfix, Loop, TypeArgsAt;
    if k <= 11 && Parse(k + 1, ts).Some? {
      LoopGrows(k, Parse(k + 1, ts).value.0, Parse(k + 1, ts).value.1);
    }
  }

  /** A call with type arguments swallows the comparison. */
  lemma CallSwallows(e: Expr, tail: seq<Token>)
    requires TypeArgsAt(tail).Some?
    ensures Grown(Postfix(e, tail), e)
  {
    hide Arguments, MoreTypeArgsAt;
    var (names, after) := TypeArgsAt(tail).value;
    if Arguments(after).Some? {
      var call := Call(e, names, Arguments(after).value.0);
      PostfixGrows(call, Arguments(after).value.1);
    }
  }

  lemma StartsLess(tail: seq<Token>)
    requires TypeArgsAt(tail).Some?
    ensures Next(tail, Less) && !Next(tail, Arrow) && !Next(tail, ColonEq)
  {
  }

  /** What looks like type arguments after an operand is read with it. */
  lemma {:induction false} Swallows(e: Expr, k: nat, tail: seq<Token>)
    requires ARITHMETIC <= k <= POSTFIX && TypeArgsAt(tail).Some?
    ensures Grown(Parse(k, Show(e, k) + tail), e)
    decreases e, PRIMARY - k
  {
    hide Parse, Body, Postfix, TypeArgsAt, Grown;
    StartsLess(tail);
    if k == POSTFIX {
      PostReads(e, tail);
      CallSwallows(e, tail);
    } else if Level(e) == k {
      match e
      case Bin(op, l, r) =>
        if op.Power? {
          PowerSwallows(e, l, r, tail);
        } else {
          BinSwallows(e, op, l, r, tail);
        }
      case Un(op, x) => PrefixSwallows(e, op, x, tail);
      case Spread(x) => SpreadSwallows(e, x, tail);
      case DictSpread(x) => SpreadSwallows(e, x, tail);
    } else {
      Swallows(e, k + 1, tail);
      assert Show(e, k) == Show(e, k + 1);
      FirstToken(e, k + 1);
      Lower(k, Show(e, k) + tail, e);
    }
  }

  lemma {:induction false} BinSwallows(e: Expr, op: BinOp, l: Expr, r: Expr, tail: seq<Token>)
    requires e == Bin(op, l, r) && 10 <= OpLevel(op) <= 11 && TypeArgsAt(tail).Some?
    ensures Grown(Parse(OpLevel(op), Show(e, OpLevel(op)) + tail), e)
    decreases e, 0
  {
    hide Parse, Show, OpTokens, Clean, OpAt, TypeArgsAt;
    var k := OpLevel(op);
    var after := Show(r, k + 1) + tail;
    var ts := OpTokens(op) + after;
    assert Show(e, k) + tail == Show(l, k) + ts by {
      BinText(e, op, l, r, tail);
    }
    OperatorStops(op, after);
    LeftReads(l, k, ts);
    OpAtWritten(op, after);
    Swallows(r, k + 1, tail);
    var x := Parse(k + 1, after);
    if x.Some? {
      LoopGrows(k, Bin(op, l, x.value.0), x.value.1);
    }
  }

  lemma BinText(e: Expr, op: BinOp, l: Expr, r: Expr, tail: seq<Token>)
    requires e == Bin(op, l, r) && LeftAssoc(OpLevel(op))
    ensures Show(e, OpLevel(op)) + tail == Show(l, OpLevel(op)) + (OpTokens(op) + (Show(r, OpLevel(op) + 1) + tail))
  {
    hide OpTokens;
    assert Show(e, OpLevel(op)) == Body(e) == Show(l, OpLevel(op)) + OpTokens(op) + Show(r, OpLevel(op) + 1);
  }

  lemma {:induction false} PowerSwallows(e: Expr, l: Expr, r: Expr, tail: seq<Token>)
    requires e == Bin(Power, l, r) && TypeArgsAt(tail).Some?
    ensures Grown(Parse(13, Show(e, 13) + tail), e)
    decreases e, 0
  {
    hide Show, Stops, Loop, Postfix, TypeArgsAt;
    var follow := [Sym(DoubleStar)] + (Show(r, 12) + tail);
    assert Show(e, 13) + tail == Show(l, POSTFIX) + follow by {
      PowerText(e, l, r, tail);
    }
    PowerStops(follow);
    Reads(l, POSTFIX, follow);
    assert follow[1..] == Show(r, 12) + tail;
    Swallows(r, 12, tail);
  }

  lemma PowerText(e: Expr, l: Expr, r: Expr, tail: seq<Token>)
    requires e == Bin(Power, l, r)
    ensures Show(e, 13) + tail == Show(l, POSTFIX) + ([Sym(DoubleStar)] + (Show(r, 12) + tail))
  {
    assert Show(e, 13) == Body(e) == Show(l, POSTFIX) + [Sym(DoubleStar)] + Show(r, 12);
  }

  lemma {:induction false} PrefixSwallows(e: Expr, op: UnOp, x: Expr, tail: seq<Token>)
    requires e == Un(op, x) && Level(e) == 12 && TypeArgsAt(tail).Some?
    ensures Grown(Parse(12, Show(e, 12) + tail), e)
    decreases e, 0
  {
    hide TypeArgsAt, Show;
    var ts := Show(e, 12) + tail;
    PrefixText(e, x);
    assert ts[1..] == Show(x, 12) + tail;
    Swallows(x, 12, tail);
  }

  lemma PrefixText(e: Expr, x: Expr)
    requires Level(e) == 12 && ((e.Un? && x == e.operand) || e == Spread(x) || e == DictSpread(x))
    ensures Show(e, 12) == [if e.Un? then PrefixToken(e.uop) else if e.Spread? then Sym(Star) else Sym(DoubleStar)] + Show(x, 12)
  {
    assert Show(e, 12) == Body(e);
  }

  lemma {:induction false} SpreadSwallows(e: Expr, x: Expr, tail: seq<Token>)
    requires (e == Spread(x) || e == DictSpread(x)) && TypeArgsAt(tail).Some?
    ensures Grown(Parse(12, Show(e, 12) + tail), e)
    decreases e, 0
  {
    hide TypeArgsAt, Parse, Show, Grown;
    var ts := Show(e, 12) + tail;
    PrefixText(e, x);
    assert ts[1..] == Show(x, 12) + tail;
    Swallows(x, 12, tail);
    SpreadGrows(e, x, ts);
    Lower(13, ts, e);
    Lower(12, ts, e);
  }

  lemma SpreadGrows(e: Expr, x: Expr, ts: seq<Token>)
    requires (e == Spread(x) && Next(ts, Star)) || (e == DictSpread(x) && Next(ts, DoubleStar))
    requires Grown(Parse(12, ts[1..]), x)
    ensures Grown(Parse(POSTFIX, ts), e)
  {
    hide TypeArgsAt, Postfix, Loop;
    var r := Parse(12, ts[1..]);
    if r.Some? {
      var y := if e.Spread? then Spread(r.value.0) else DictSpread(r.value.0);
      assert Parse(PRIMARY, ts) == Some((y, r.value.1));
      PostUnfolds(ts, y, r.value.1);
      PostfixGrows(y, r.value.1);
    } else {
      assert ParsePrimary(ts).None? && Parse(PRIMARY, ts).None?;
      assert Parse(POSTFIX, ts).None?;
    }
  }

  // ---- different chains are different expressions ----

  function AndDepth(e: Expr): nat
    decreases e
  {
    if e.Bin? && e.op == And then 1 + AndDepth(e.left) else 0
  }

  lemma {:induction false} DesugarDepth(i: nat, operands: seq<Expr>, ops: seq<BinOp>)
    requires 0 < i <= |ops| == |operands| - 1 && AllComparisons(ops)
    ensures AndDepth(DesugarUpTo(i, operands, ops)) == i - 1
    decreases i
  {
    assert ops[i - 1] in ops;
    if i > 1 {
      DesugarDepth(i - 1, operands, ops);
    }
  }

  lemma {:induction false} DesugarSame(i: nat, xs: seq<Expr>, ops: seq<BinOp>, ys: seq<Expr>, ops': seq<BinOp>, j: nat)
    requires 0 < i <= |ops| == |xs| - 1 && |ops'| == |ys| - 1 == |ops| && j < i
    requires DesugarUpTo(i, xs, ops) == DesugarUpTo(i, ys, ops')
    ensures xs[j] == ys[j]
    decreases i
  {
    if j < i - 1 {
      DesugarSame(i - 1, xs, ops, ys, ops', j);
    }
  }

  /** Two chains that differ in an operand other than the last are read differently. */
  lemma DesugarDiffers(xs: seq<Expr>, ops: seq<BinOp>, ys: seq<Expr>, ops': seq<BinOp>, j: nat)
    requires |xs| == |ops| + 1 && |ys| == |ops'| + 1 && AllComparisons(ops) && AllComparisons(ops')
    requires |ops| >= 2 && j < |ops| && j < |ys| && Outgrows(ys[j], xs[j])
    ensures Desugar(xs, ops) != Desugar(ys, ops')
  {
    hide DesugarUpTo, Size;
    DesugarDepth(|ops|, xs, ops);
    if |ops'| > 0 {
      DesugarDepth(|ops'|, ys, ops');
      if Desugar(xs, ops) == Desugar(ys, ops') {
        DesugarSame(|ops|, xs, ops, ys, ops', j);
      }
    }
  }

  /** Reading a chain goes on from the operands so far. */
  lemma {:induction false} ChainShape(operands: seq<Expr>, ops: seq<BinOp>, ts: seq<Token>) returns (more: seq<Expr>, moreOps: seq<BinOp>)
    requires |operands| == |ops| + 1 && AllComparisons(ops)
    ensures |more| == |moreOps| && AllComparisons(ops + moreOps)
    ensures Chain(operands, ops, ts).Some? ==> Chain(operands, ops, ts).value.0 == Desugar(operands + more, ops + moreOps)
    decreases |ts|
  {
    hide Parse, Desugar;
    more, moreOps := [], [];
    assert operands + more == operands && ops + moreOps == ops;
    if OpAt(COMPARISON, ts).Some? {
      var (op, after) := OpAt(COMPARISON, ts).value;
      var r := Parse(ARITHMETIC, after);
      if r.Some? {
        var right := r.value.0;
        more, moreOps := ChainShape(operands + [right], ops + [op], r.value.1);
        assert operands + [right] + more == operands + ([right] + more);
        assert ops + [op] + moreOps == ops + ([op] + moreOps);
        more, moreOps := [right] + more, [op] + moreOps;
      }
    }
  }

  // ---- the chain ----

  // Reading an operand and the rest of its chain.
  function ReadOn(before: seq<Expr>, done: seq<BinOp>, ts: seq<Token>): Option<(Expr, seq<Token>)>
    requires |before| == |done|
  {
    var (x, rest) :- Parse(ARITHMETIC, ts);
    Chain(before + [x], done, rest)
  }

  lemma ConfusedStart(operands: seq<Expr>, ops: seq<BinOp>, rest: seq<Token>)
    requires |operands| == |ops| > 1 && ConfusableAt(operands, ops, 0)
    ensures TypeArgsAt(ShowChain(operands, ops) + rest).Some?
  {
    hide Show, ShowChain, OpTokens, TypeArgsAt;
    NameText(operands[0].x);
    MoreFollows(operands[1..], ops[1..], rest);
    ChainSplits(operands, ops, rest);
    OneTypeArg(operands[0].x, ShowChain(operands[1..], ops[1..]) + rest);
  }

  lemma MoreFollows(operands: seq<Expr>, ops: seq<BinOp>, rest: seq<Token>)
    requires |operands| == |ops| != 0 && ops[0] == Gt && Next(Show(operands[0], ARITHMETIC), LParen)
    ensures var tail := ShowChain(operands, ops) + rest; |tail| >= 2 && tail[0] == Sym(More) && tail[1] == Sym(LParen)
  {
    hide Show, ShowChain, OpTokens;
    NameText("");
    ChainHead(operands, ops, rest);
  }

  lemma OneTypeArg(x: string, tail: seq<Token>)
    requires |tail| >= 2 && tail[0] == Sym(More) && tail[1] == Sym(LParen)
    ensures TypeArgsAt([Sym(Less)] + ([Ident(x)] + tail)).Some?
  {
    var ts := [Sym(Less)] + ([Ident(x)] + tail);
    assert ts[2..] == tail;
  }

  lemma NameText(x: string)
    ensures Show(Name(x), ARITHMETIC) == [Ident(x)] && OpTokens(Lt) == [Sym(Less)] && OpTokens(Gt) == [Sym(More)]
  {
  }

  /** The operand before the confusable part takes it in, and the chain is another one. */
  lemma ConfusedHere(before: seq<Expr>, done: seq<BinOp>, left: Expr, operands: seq<Expr>, ops: seq<BinOp>, rest: seq<Token>)
    requires |before| == |done| && |operands| == |ops| > 1 && AllComparisons(done + ops) && ConfusableAt(operands, ops, 0)
    ensures var r := ReadOn(before, done, Show(left, ARITHMETIC) + (ShowChain(operands, ops) + rest));
            r.Some? ==> r.value.0 != Desugar(before + [left] + operands, done + ops)
  {
    hide Parse, Show, ShowChain, TypeArgsAt, Chain, Desugar;
    var tail := ShowChain(operands, ops) + rest;
    ConfusedStart(operands, ops, rest);
    Swallows(left, ARITHMETIC, tail);
    var r := Parse(ARITHMETIC, Show(left, ARITHMETIC) + tail);
    if r.Some? {
      var x := r.value.0;
      assert AllComparisons(done) by {
        assert forall op :: op in done ==> op in done + ops;
      }
      var more, moreOps := ChainShape(before + [x], done, r.value.1);
      DesugarDiffers(before + [left] + operands, done + ops, before + [x] + more, done + moreOps, |done|);
    }
  }

  lemma {:induction false} ConfusedLater(before: seq<Expr>, done: seq<BinOp>, left: Expr, operands: seq<Expr>, ops: seq<BinOp>, rest: seq<Token>)
    requires |before| == |done| && |operands| == |ops| && AllComparisons(done + ops) && Clean(COMPARISON, rest) && Confusable(operands, ops)
    ensures var r := ReadOn(before, done, Show(left, ARITHMETIC) + (ShowChain(operands, ops) + rest));
            r.Some? ==> r.value.0 != Desugar(before + [left] + operands, done + ops)
    decreases |ops|
  {
    hide Parse, Show, ShowChain, TypeArgsAt, Desugar, Clean, OpTokens, OpAt;
    var i :| 0 <= i < |ops| - 1 && ConfusableAt(operands, ops, i);
    if ConfusableAt(operands, ops, 0) {
      ConfusedHere(before, done, left, operands, ops, rest);
    } else {
      assert AllComparisons(ops) && OpLevel(ops[0]) == COMPARISON by {
        assert forall op :: op in ops ==> op in done + ops;
        assert ops[0] in ops;
      }
      assert ConfusableAt(operands[1..], ops[1..], i - 1);
      if ops[0] == Lt {
        LessInChain(operands, ops, rest);
      }
      CompAfter(ops, operands, rest);
      var tail := ShowChain(operands, ops) + rest;
      Reads(left, ARITHMETIC, tail);
      var after := Show(operands[0], ARITHMETIC) + (ShowChain(operands[1..], ops[1..]) + rest);
      ChainHead(operands, ops, rest);
      assert tail == OpTokens(ops[0]) + after;
      OpAtWritten(ops[0], after);
      assert done + [ops[0]] + ops[1..] == done + ops;
      assert before + [left] + [operands[0]] + operands[1..] == before + [left] + operands;
      ConfusedLater(before + [left], done + [ops[0]], operands[0], operands[1..], ops[1..], rest);
      assert ReadOn(before, done, Show(left, ARITHMETIC) + tail) == Chain(before + [left], done, tail);
      assert Chain(before + [left], done, tail) == ReadOn(before + [left], done + [ops[0]], after);
    }
  }

  /** A chain is read as it was meant exactly if no part of it is confusable. */
  lemma ChainReadsIff(first: Expr, operands: seq<Expr>, ops: seq<BinOp>, rest: seq<Token>)
    requires |operands| == |ops| && AllComparisons(ops) && Clean(COMPARISON, rest)
    ensures Parse(COMPARISON, Show(first, ARITHMETIC) + (ShowChain(operands, ops) + rest)) == Some((Desugar([first] + operands, ops), rest)) <==>
            !Confusable(operands, ops)
  {
    hide Show, ShowChain, Desugar, Clean, Confusable, Chain, AllComparisons;
    if Confusable(operands, ops) {
      var ts := Show(first, ARITHMETIC) + (ShowChain(operands, ops) + rest);
      assert [] + ops == ops && [] + [first] + operands == [first] + operands;
      ConfusedLater([], [], first, operands, ops, rest);
      assert Parse(COMPARISON, ts) == ReadOn([], [], ts) by {
        ChainBegins(ts);
      }
    } else {
      ChainReadsAll(first, operands, ops, rest);
    }
  }

  lemma ChainBegins(ts: seq<Token>)
    ensures Parse(COMPARISON, ts) == ReadOn([], [], ts)
  {
    hide Chain, Loop, ParsePrimary, ParseExpression;
    if Parse(ARITHMETIC, ts).Some? {
      assert [] + [Parse(ARITHMETIC, ts).value.0] == [Parse(ARITHMETIC, ts).value.0];
    }
  }
}
