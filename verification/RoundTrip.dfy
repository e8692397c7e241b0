/** Reading what was written gives the expression back. */
module RoundTrip {
  import opened Wrappers
  import opened Syntax
  import opened Parsing

  // ---- where an expression ends ----

  /** Nothing that comes next continues an expression of level `k` or above. */
  ghost predicate Stops(k: nat, ts: seq<Token>) {
    && !Next(ts, Arrow) && !Next(ts, ColonEq)
    && (forall j {:trigger OpAt(j, ts)} :: k <= j <= 11 ==> OpAt(j, ts).None?)
    && (k <= 13 ==> !Next(ts, DoubleStar))
    && (k <= POSTFIX ==> !Next(ts, LParen) && !Next(ts, Dot) && !Next(ts, LBracket) && TypeArgsAt(ts).None?)
  }

  // After a comparison there is no comma either: it could belong to type arguments.
  ghost predicate Clean(k: nat, ts: seq<Token>) {
    Stops(k, ts) && (k <= COMPARISON ==> !Next(ts, Comma))
  }

  // No prefix of the levels from `j` below `k` comes first.
  predicate Plain(j: nat, k: nat, ts: seq<Token>) {
    && (j <= 4 < k ==> !Next(ts, KwNot))
    && (j <= 12 < k ==> ts != [] ==> PrefixOf(ts[0]).None?)
    && (j == 0 < k ==> |ts| >= 2 && ts[0].Ident? ==> ts[1] != Sym(Arrow) && ts[1] != Sym(ColonEq))
  }

  /** An expression of a higher level is one of a lower level if nothing goes on there. */
  lemma {:induction false} Wrap(j: nat, k: nat, ts: seq<Token>, e: Expr, rest: seq<Token>)
    requires j <= k <= PRIMARY && Parse(k, ts) == Some((e, rest)) && Stops(j, rest) && Plain(j, k, ts)
    ensures Parse(j, ts) == Some((e, rest))
    decreases k - j
  {
    hide Parse, OpAt, TypeArgsAt;
    if j < k {
      Wrap(j + 1, k, ts, e, rest);
      WrapOne(j, ts, e, rest);
    }
  }

  lemma WrapOne(j: nat, ts: seq<Token>, e: Expr, rest: seq<Token>)
    requires j < PRIMARY && Parse(j + 1, ts) == Some((e, rest)) && Stops(j, rest) && Plain(j, j + 1, ts)
    ensures Parse(j, ts) == Some((e, rest))
  {
    hide TypeArgsAt, ParsePrimary, OpAt, Arguments;
    if j == COMPARISON {
      assert Chain([e], [], rest) == Some((Desugar([e], []), rest));
    } else if LeftAssoc(j) {
      assert Loop(j, e, rest) == Some((e, rest));
    } else if j == POSTFIX {
      assert Postfix(e, rest) == Some((e, rest));
    }
  }

  // ---- first and second tokens ----

  lemma {:induction false} FirstToken(e: Expr, k: nat)
    ensures Show(e, k) != []
    ensures var t := Show(e, k)[0];
            && t != Sym(RParen) && t != Sym(RBracket) && t != Sym(Comma)
            && (k > 4 ==> t != Sym(KwNot)) && (k > 12 ==> PrefixOf(t).None?)
    decreases e
  {
    match e
    case Bin(op, l, _) => FirstToken(l, LeftLevel(op));
    case Call(f, _, _) => FirstToken(f, POSTFIX);
    case Member(o, _) => FirstToken(o, POSTFIX);
    case Index(b, _) => FirstToken(b, POSTFIX);
    case _ =>
  }

  // A token that may follow a name inside an expression of level `k` at least 1.
  predicate MayFollowName(t: Token, k: nat) {
    t != Sym(Arrow) && t != Sym(ColonEq) && (k >= ARITHMETIC ==> t != Sym(Comma) && t != Sym(More))
  }

  lemma {:induction false} SecondToken(e: Expr, k: nat)
    requires k >= 1 && Show(e, k) != [] && Show(e, k)[0].Ident?
    ensures |Show(e, k)| > 1 ==> MayFollowName(Show(e, k)[1], k)
    decreases e
  {
    match e
    case Bin(op, l, _) =>
      FirstToken(l, LeftLevel(op));
      SecondToken(l, LeftLevel(op));
    case Call(f, _, _) =>
      FirstToken(f, POSTFIX);
      SecondToken(f, POSTFIX);
    case Member(o, _) =>
      FirstToken(o, POSTFIX);
      SecondToken(o, POSTFIX);
    case Index(b, _) =>
      FirstToken(b, POSTFIX);
      SecondToken(b, POSTFIX);
    case _ =>
  }

  /** Written expressions do not begin with a prefix of a lower level. */
  lemma ShownPlain(e: Expr, j: nat, k: nat, rest: seq<Token>)
    requires j <= k <= PRIMARY && !Next(rest, Arrow) && !Next(rest, ColonEq)
    ensures Plain(j, k, Show(e, k) + rest)
  {
    hide Show;
    FirstToken(e, k);
    var ts := Show(e, k) + rest;
    if j == 0 < k && ts[0].Ident? {
      SecondToken(e, k);
      assert |ts| >= 2 && |Show(e, k)| == 1 ==> ts[1] == rest[0];
    }
  }

  // ---- operators ----

  lemma OperatorTokens(op: BinOp)
    ensures var ts := OpTokens(op);
            if op.NotIn? then ts == [Sym(KwNot), Sym(KwIn)] else |ts| == 1 && ts[0].Sym? && OpOf(ts[0].s) == Some(op)
    ensures OpLevel(NotIn) == COMPARISON
  {
    if op != NotIn {
      SymbolReads(op);
    }
  }

  lemma SymbolReads(op: BinOp)
    requires op != NotIn
    ensures OpOf(SymbolOf(op)) == Some(op)
  {
  }

  lemma OpAtWritten(op: BinOp, rest: seq<Token>)
    requires !op.Power?
    ensures OpAt(OpLevel(op), OpTokens(op) + rest) == Some((op, rest))
  {
    hide OpTokens, OpOf;
    var ts := OpTokens(op) + rest;
    OperatorTokens(op);
    NoOperators();
    if op.NotIn? {
      assert ts[2..] == rest;
    } else {
      assert ts[1..] == rest;
    }
  }

  /** After the left operand the operator ends it. */
  lemma OperatorStops(op: BinOp, rest: seq<Token>)
    requires !op.Power? && (op == Lt ==> TypeArgsAt(OpTokens(op) + rest).None?)
    ensures Clean(OpLevel(op) + 1, OpTokens(op) + rest)
  {
    hide OpTokens, OpLevel, TypeArgsAt;
    var ts := OpTokens(op) + rest;
    OperatorTokens(op);
    NoOperators();
    if op != Lt {
      assert !Next(ts, Less);
      NoTypeArgsAt(ts);
    }
  }

  // The symbols that end an operand are no operators.
  lemma NoOperators()
    ensures forall s :: s in {Arrow, ColonEq, LParen, Dot, LBracket, Comma, KwNot} ==> OpOf(s).None?
    ensures OpOf(DoubleStar) == Some(Power) && OpOf(Less) == Some(Lt)
  {
  }

  lemma NoTypeArgsAt(ts: seq<Token>)
    requires !Next(ts, Less)
    ensures TypeArgsAt(ts).None?
  {
  }

  // What type arguments look like.
  lemma TypeArgsShape(ts: seq<Token>)
    ensures TypeArgsAt(ts).Some? ==>
              |ts| >= 4 && ts[1].Ident? && (ts[2] == Sym(Comma) || (ts[2] == Sym(More) && ts[3] == Sym(LParen)))
  {
  }

  /** The right operand of `<` never looks like type arguments. */
  lemma NoTypeArgs(r: Expr, rest: seq<Token>)
    requires Clean(COMPARISON, rest)
    ensures TypeArgsAt([Sym(Less)] + (Show(r, ARITHMETIC) + rest)).None?
  {
    hide Show, TypeArgsAt;
    var shown := Show(r, ARITHMETIC);
    var ts := [Sym(Less)] + (shown + rest);
    FirstToken(r, ARITHMETIC);
    TypeArgsShape(ts);
    if shown[0].Ident? {
      SecondToken(r, ARITHMETIC);
      if |shown| == 1 {
        assert Next(rest, More) ==> OpAt(COMPARISON, rest).Some?;
        assert |ts| >= 3 ==> ts[2] == rest[0];
      }
    }
  }

  lemma CleanUp(j: nat, k: nat, ts: seq<Token>)
    requires Clean(j, ts) && j <= k
    ensures Clean(k, ts)
  {
  }

  // ---- type arguments ----

  lemma {:induction false} MoreTypeArgsWritten(before: seq<string>, names: seq<string>, rest: seq<Token>)
    requires Next(rest, LParen)
    ensures MoreTypeArgsAt(before, ShowMoreTypeArgs(names) + rest) == Some((before + names, rest[1..]))
    decreases |names|
  {
    var ts := ShowMoreTypeArgs(names) + rest;
    if names == [] {
      assert ts[2..] == rest[1..] && before + names == before;
    } else {
      assert ts[2..] == ShowMoreTypeArgs(names[1..]) + rest;
      MoreTypeArgsWritten(before + [names[0]], names[1..], rest);
      assert before + [names[0]] + names[1..] == before + names;
    }
  }

  lemma TypeArgsWritten(names: seq<string>, rest: seq<Token>)
    requires names != [] && Next(rest, LParen)
    ensures TypeArgsAt(ShowTypeArgs(names) + rest) == Some((names, rest[1..]))
    ensures Next(ShowTypeArgs(names) + rest, Less)
  {
    var ts := ShowTypeArgs(names) + rest;
    assert ts[2..] == ShowMoreTypeArgs(names[1..]) + rest;
    MoreTypeArgsWritten([names[0]], names[1..], rest);
    assert [names[0]] + names[1..] == names;
  }

  // ---- the round trip ----

  /** An expression is read back where its level is expected, if nothing goes on after it. */
  lemma {:induction false} Reads(e: Expr, k: nat, rest: seq<Token>)
    requires k <= PRIMARY && Clean(k, rest)
    ensures Parse(k, Show(e, k) + rest) == Some((e, rest))
    decreases e, if Level(e) < k then 4 else 2
  {
    hide Parse, Body, Stops, Plain;
    if Level(e) >= k {
      CleanUp(k, Level(e), rest);
      Native(e, rest);
      StopsArrow(k, rest);
      ShownPlain(e, k, Level(e), rest);
      Wrap(k, Level(e), Body(e) + rest, e, rest);
    } else {
      Parenthesised(e, rest);
      ParenPlain(k, Show(e, k) + rest);
      Wrap(k, PRIMARY, Show(e, k) + rest, e, rest);
    }
  }

  lemma StopsArrow(k: nat, rest: seq<Token>)
    requires Stops(k, rest)
    ensures !Next(rest, Arrow) && !Next(rest, ColonEq)
  {
  }

  lemma ParenPlain(k: nat, ts: seq<Token>)
    requires Next(ts, LParen)
    ensures Plain(k, PRIMARY, ts)
  {
  }

  // What ends an item: a comma or a closing bracket.
  predicate Closes(ts: seq<Token>) {
    Next(ts, Comma) || Next(ts, RParen) || Next(ts, RBracket)
  }

  lemma ClosesStops(ts: seq<Token>)
    requires Closes(ts)
    ensures Stops(0, ts) && Clean(ARITHMETIC, ts) && (!Next(ts, Comma) ==> Clean(0, ts))
  {
  }

  lemma {:induction false} Parenthesised(e: Expr, rest: seq<Token>)
    ensures Parse(PRIMARY, [Sym(LParen)] + Body(e) + [Sym(RParen)] + rest) == Some((e, rest))
    decreases e, 3
  {
    hide Body, Stops, Clean;
    var follow := [Sym(RParen)] + rest;
    var ts := [Sym(LParen)] + Body(e) + [Sym(RParen)] + rest;
    ClosesStops(follow);
    assert ts[1..] == Body(e) + follow;
    FirstToken(e, 0);
    Reads(e, 0, follow);
    assert follow[1..] == rest;
    assert Show(e, 0) == Body(e) && Parse(0, ts[1..]) == Some((e, follow));
    assert ParseParen(ts[1..]) == Some((e, rest));
  }

  // An expression in the place of its own level.
  lemma {:induction false} Native(e: Expr, rest: seq<Token>)
    requires Clean(Level(e), rest)
    ensures Parse(Level(e), Body(e) + rest) == Some((e, rest))
    decreases e, 1
  {
    hide Parse, Body, Stops, Show, OpAt, Loop, Postfix;
    match e
    case Name(_) => AtomReads(e, rest);
    case Num(_) => AtomReads(e, rest);
    case Bin(op, l, r) =>
      if op.Power? {
        PowerReads(e, op, l, r, rest);
      } else if OpLevel(op) == COMPARISON {
        ComparisonReads(e, op, l, r, rest);
      } else {
        CleanUp(OpLevel(op), OpLevel(op) + 1, rest);
        BinReads(e, op, l, r, rest);
        LoopEnds(OpLevel(op), e, rest);
      }
    case Un(op, x) => PrefixReads(e, op, x, rest);
    case Spread(x) => SpreadReads(e, x, rest);
    case DictSpread(x) => SpreadReads(e, x, rest);
    case Call(f, names, args) =>
      CallReads(e, f, names, args, rest);
      PostfixEnds(e, rest);
    case Member(o, m) =>
      MemberReads(e, o, m, rest);
      PostfixEnds(e, rest);
    case Index(b, i) =>
      IndexReads(e, b, i, rest);
      PostfixEnds(e, rest);
    case Tuple(es) => TupleReads(e, es, rest);
    case List(es) => ListReads(e, es, rest);
    case Lambda(p, b) => ArrowReads(e, b, rest);
    case Walrus(x, v) => ArrowReads(e, v, rest);
  }

  lemma LoopEnds(k: nat, e: Expr, rest: seq<Token>)
    requires LeftAssoc(k) && Stops(k, rest)
    ensures Loop(k, e, rest) == Some((e, rest))
  {
    hide OpAt, Parse;
  }

  lemma PostfixEnds(e: Expr, rest: seq<Token>)
    requires Stops(POSTFIX, rest)
    ensures Postfix(e, rest) == Some((e, rest))
  {
    hide TypeArgsAt, OpAt, Parse;
  }

  lemma AtomReads(e: Expr, rest: seq<Token>)
    requires e.Name? || e.Num?
    ensures Parse(PRIMARY, Body(e) + rest) == Some((e, rest))
  {
    assert (Body(e) + rest)[1..] == rest;
  }

  /** The left operand of a left-associative operator may be of the same level. */
  lemma {:induction false} LeftReads(e: Expr, k: nat, rest: seq<Token>)
    requires LeftAssoc(k) && Clean(k + 1, rest)
    ensures Parse(k, Show(e, k) + rest) == Loop(k, e, rest)
    decreases e, 5
  {
    hide Parse, Body, Clean, Loop;
    if Level(e) == k {
      var Bin(op, l, r) := e;
      BinReads(e, op, l, r, rest);
    } else {
      Reads(e, k + 1, rest);
      assert Show(e, k) == Show(e, k + 1);
      LeftUnfolds(k, Show(e, k) + rest, e, rest);
    }
  }

  lemma LeftUnfolds(k: nat, ts: seq<Token>, e: Expr, rest: seq<Token>)
    requires LeftAssoc(k) && Parse(k + 1, ts) == Some((e, rest))
    ensures Parse(k, ts) == Loop(k, e, rest)
  {
    hide Loop;
  }

  lemma {:induction false} BinReads(e: Expr, op: BinOp, l: Expr, r: Expr, rest: seq<Token>)
    requires e == Bin(op, l, r) && LeftAssoc(OpLevel(op)) && Clean(OpLevel(op) + 1, rest)
    ensures Parse(OpLevel(op), Body(e) + rest) == Loop(OpLevel(op), e, rest)
    decreases e, 0
  {
    hide Parse, Show, OpTokens, Clean, OpAt;
    var k := OpLevel(op);
    var after := Show(r, k + 1) + rest;
    assert Body(e) + rest == Show(l, k) + (OpTokens(op) + after);
    OperatorStops(op, after);
    LeftReads(l, k, OpTokens(op) + after);
    OpAtWritten(op, after);
    Reads(r, k + 1, rest);
  }

  lemma {:induction false} ComparisonReads(e: Expr, op: BinOp, l: Expr, r: Expr, rest: seq<Token>)
    requires e == Bin(op, l, r) && OpLevel(op) == COMPARISON && Clean(COMPARISON, rest)
    ensures Parse(COMPARISON, Body(e) + rest) == Some((e, rest))
    decreases e, 0
  {
    hide Parse, Show, OpTokens, OpAt, TypeArgsAt, Clean;
    var after := Show(r, ARITHMETIC) + rest;
    var ts := Show(l, ARITHMETIC) + (OpTokens(op) + after);
    assert Body(e) + rest == ts;
    if op == Lt {
      NoTypeArgs(r, rest);
      LessTokens();
    }
    OperatorStops(op, after);
    Reads(l, ARITHMETIC, OpTokens(op) + after);
    OpAtWritten(op, after);
    CleanUp(COMPARISON, ARITHMETIC, rest);
    Reads(r, ARITHMETIC, rest);
    ChainReads(ts, op, l, r, after, rest);
  }

  lemma LessTokens()
    ensures OpTokens(Lt) == [Sym(Less)]
  {
  }

  lemma ChainReads(ts: seq<Token>, op: BinOp, l: Expr, r: Expr, after: seq<Token>, rest: seq<Token>)
    requires OpLevel(op) == COMPARISON && Parse(ARITHMETIC, ts) == Some((l, OpTokens(op) + after))
    requires OpAt(COMPARISON, OpTokens(op) + after) == Some((op, after)) && Parse(ARITHMETIC, after) == Some((r, rest)) && Clean(COMPARISON, rest)
    ensures Parse(COMPARISON, ts) == Some((Bin(op, l, r), rest))
  {
    hide OpAt, OpTokens, ParsePrimary, ParseExpression;
    assert Chain([l, r], [op], rest) == Some((Desugar([l, r], [op]), rest));
    assert [l] + [r] == [l, r] && [] + [op] == [op];
  }

  lemma {:induction false} PowerReads(e: Expr, op: BinOp, l: Expr, r: Expr, rest: seq<Token>)
    requires e == Bin(op, l, r) && op == Power && Clean(13, rest)
    ensures Parse(13, Body(e) + rest) == Some((e, rest))
    decreases e, 0
  {
    hide Show, Stops, Loop, Postfix;
    var follow := [Sym(DoubleStar)] + (Show(r, 12) + rest);
    var ts := Show(l, POSTFIX) + follow;
    assert Body(e) + rest == ts;
    PowerStops(follow);
    Reads(l, POSTFIX, follow);
    assert follow[1..] == Show(r, 12) + rest;
    PowerClean(rest);
    Reads(r, 12, rest);
  }

  lemma PowerStops(follow: seq<Token>)
    requires Next(follow, DoubleStar)
    ensures Clean(POSTFIX, follow)
  {
  }

  // No operator belongs to level 12, so what ends a power also ends its exponent.
  lemma PowerClean(rest: seq<Token>)
    requires Clean(13, rest)
    ensures Clean(12, rest)
  {
  }

  lemma {:induction false} PrefixReads(e: Expr, op: UnOp, x: Expr, rest: seq<Token>)
    requires e == Un(op, x) && Clean(Level(e), rest)
    ensures Parse(Level(e), Body(e) + rest) == Some((e, rest))
    decreases e, 0
  {
    hide Show, Clean;
    assert (Body(e) + rest)[1..] == Show(x, Level(e)) + rest;
    Reads(x, Level(e), rest);
  }

  lemma {:induction false} SpreadReads(e: Expr, x: Expr, rest: seq<Token>)
    requires (e == Spread(x) || e == DictSpread(x)) && Clean(12, rest)
    ensures Parse(12, Body(e) + rest) == Some((e, rest))
    decreases e, 0
  {
    hide Show, Stops;
    var ts := Body(e) + rest;
    assert ts[1..] == Show(x, 12) + rest;
    Reads(x, 12, rest);
    assert Parse(PRIMARY, ts) == Some((e, rest));
    Wrap(12, PRIMARY, ts, e, rest);
  }

  lemma {:induction false} ArrowReads(e: Expr, b: Expr, rest: seq<Token>)
    requires (e.Lambda? && b == e.body) || (e.Walrus? && b == e.value)
    requires Clean(0, rest)
    ensures Parse(0, Body(e) + rest) == Some((e, rest))
    decreases e, 0
  {
    hide Show, Clean;
    assert (Body(e) + rest)[2..] == Show(b, 0) + rest;
    Reads(b, 0, rest);
  }

  // ---- postfix forms ----

  /** The expression a postfix form applies to may be one itself. */
  lemma {:induction false} PostReads(e: Expr, rest: seq<Token>)
    requires !Next(rest, Arrow) && !Next(rest, ColonEq)
    ensures Parse(POSTFIX, Show(e, POSTFIX) + rest) == Postfix(e, rest)
    decreases e, 5
  {
    hide Parse, Body, Postfix;
    match e
    case Call(f, names, args) => CallReads(e, f, names, args, rest);
    case Member(o, m) => MemberReads(e, o, m, rest);
    case Index(b, i) => IndexReads(e, b, i, rest);
    case _ =>
      assert Show(e, POSTFIX) == Show(e, PRIMARY);
      PrimaryClean(rest);
      Reads(e, PRIMARY, rest);
      PostUnfolds(Show(e, POSTFIX) + rest, e, rest);
  }

  lemma PrimaryClean(rest: seq<Token>)
    requires !Next(rest, Arrow) && !Next(rest, ColonEq)
    ensures Clean(PRIMARY, rest)
  {
  }

  lemma PostUnfolds(ts: seq<Token>, e: Expr, rest: seq<Token>)
    requires Parse(PRIMARY, ts) == Some((e, rest))
    ensures Parse(POSTFIX, ts) == Postfix(e, rest)
  {
    hide Postfix, ParsePrimary;
  }

  lemma {:induction false} CallReads(e: Expr, f: Expr, names: seq<string>, args: seq<Expr>, rest: seq<Token>)
    requires e == Call(f, names, args)
    ensures Parse(POSTFIX, Body(e) + rest) == Postfix(e, rest)
    decreases e, 0
  {
    hide Parse, Show, ShowItems, ShowTypeArgs, TypeArgsAt, Arguments;
    var inner := ShowItems(args) + ([Sym(RParen)] + rest);
    var follow := ShowTypeArgs(names) + ([Sym(LParen)] + inner);
    assert Body(e) + rest == Show(f, POSTFIX) + follow;
    CallFollows(names, inner);
    PostReads(f, follow);
    ArgumentsRead(e, args, rest);
  }

  lemma CallFollows(names: seq<string>, inner: seq<Token>)
    ensures var follow := ShowTypeArgs(names) + ([Sym(LParen)] + inner);
            && !Next(follow, Arrow) && !Next(follow, ColonEq)
            && (if names == [] then Next(follow, LParen) && follow[1..] == inner
                else Next(follow, Less) && TypeArgsAt(follow) == Some((names, inner)))
  {
    var open := [Sym(LParen)] + inner;
    assert open[1..] == inner;
    if names == [] {
      assert ShowTypeArgs(names) + open == open;
    } else {
      TypeArgsWritten(names, open);
    }
  }

  lemma {:induction false} ArgumentsRead(e: Expr, args: seq<Expr>, rest: seq<Token>)
    requires forall x :: x in args ==> x < e
    ensures Arguments(ShowItems(args) + ([Sym(RParen)] + rest)) == Some((args, rest))
    decreases e, 0, |args| + 1
  {
    hide ShowItems, Items;
    var close := [Sym(RParen)] + rest;
    assert close[1..] == rest;
    if args == [] {
      assert ShowItems(args) == [] && [] + close == close by {
        NoItems();
      }
    } else {
      ItemsRead(e, [], args, close);
      ItemsBegin(args);
      assert [] + args == args;
    }
  }

  lemma NoItems()
    ensures ShowItems([]) == []
  {
  }

  lemma ItemsBegin(es: seq<Expr>)
    requires es != []
    ensures ShowItems(es) != [] && ShowItems(es)[0] != Sym(RParen) && ShowItems(es)[0] != Sym(RBracket)
  {
    FirstToken(es[0], ARITHMETIC);
  }

  lemma {:induction false} ItemReads(x: Expr, follow: seq<Token>)
    requires Closes(follow)
    ensures Parse(0, Show(x, ARITHMETIC) + follow) == Some((x, follow))
    decreases x, 6
  {
    hide Show, Stops, Clean, Plain, Parse;
    ClosesStops(follow);
    Reads(x, ARITHMETIC, follow);
    ShownPlain(x, 0, ARITHMETIC, follow);
    Wrap(0, ARITHMETIC, Show(x, ARITHMETIC) + follow, x, follow);
  }

  lemma {:induction false} ItemsRead(e: Expr, before: seq<Expr>, es: seq<Expr>, rest: seq<Token>)
    requires es != [] && (forall x :: x in es ==> x < e) && (Next(rest, RParen) || Next(rest, RBracket))
    ensures Items(before, ShowItems(es) + rest) == Some((before + es, rest))
    ensures ListItems(before, ShowItems(es) + rest) == Some((before + es, rest))
    decreases e, 0, |es|
  {
    hide Parse, Show, ShowItems, Items, ListItems;
    var x := es[0];
    assert x in es && forall y :: y in es[1..] ==> y in es;
    ShowItemsUnfolds(es);
    if |es| == 1 {
      ItemReads(x, rest);
      ItemsUnfold(before, Show(x, ARITHMETIC) + rest);
      assert before + [x] == before + es;
    } else {
      var tail := ShowItems(es[1..]) + rest;
      var follow := [Sym(Comma)] + tail;
      assert ShowItems(es) + rest == Show(x, ARITHMETIC) + follow;
      assert follow[1..] == tail;
      ItemReads(x, follow);
      ItemsUnfold(before, Show(x, ARITHMETIC) + follow);
      ItemsBegin(es[1..]);
      ItemsRead(e, before + [x], es[1..], rest);
      assert before + [x] + es[1..] == before + es;
    }
  }

  lemma ShowItemsUnfolds(es: seq<Expr>)
    requires es != []
    ensures ShowItems(es) == if |es| == 1 then Show(es[0], ARITHMETIC) else Show(es[0], ARITHMETIC) + [Sym(Comma)] + ShowItems(es[1..])
  {
    hide Show;
  }

  lemma ItemsUnfold(es: seq<Expr>, ts: seq<Token>)
    requires Parse(0, ts).Some?
    ensures var (e, rest) := Parse(0, ts).value;
            && Items(es, ts) == (if Next(rest, Comma) then Items(es + [e], rest[1..]) else Some((es + [e], rest)))
            && ListItems(es, ts) == if Next(rest, Comma) && !Next(rest[1..], RBracket) then ListItems(es + [e], rest[1..])
                                    else Some((es + [e], if Next(rest, Comma) then rest[1..] else rest))
  {
    hide Parse;
  }

  lemma MemberReads(e: Expr, o: Expr, m: string, rest: seq<Token>)
    requires e == Member(o, m)
    ensures Parse(POSTFIX, Body(e) + rest) == Postfix(e, rest)
    decreases e, 0
  {
    hide Parse, Show;
    var follow := [Sym(Dot), Ident(m)] + rest;
    assert Body(e) + rest == Show(o, POSTFIX) + follow;
    assert follow[2..] == rest && follow[1..] == [Ident(m)] + rest;
    PostReads(o, follow);
  }

  lemma {:induction false} IndexReads(e: Expr, b: Expr, i: Expr, rest: seq<Token>)
    requires e == Index(b, i)
    ensures Parse(POSTFIX, Body(e) + rest) == Postfix(e, rest)
    decreases e, 0
  {
    hide Parse, Show, Stops;
    var close := [Sym(RBracket)] + rest;
    var follow := [Sym(LBracket)] + (Show(i, 0) + close);
    assert Body(e) + rest == Show(b, POSTFIX) + follow;
    assert follow[1..] == Show(i, 0) + close && close[1..] == rest;
    PostReads(b, follow);
    FirstToken(i, 0);
    ClosesStops(close);
    Reads(i, 0, close);
  }

  // ---- tuples and lists ----

  lemma {:induction false} TupleReads(e: Expr, es: seq<Expr>, rest: seq<Token>)
    requires e == Tuple(es)
    ensures Parse(PRIMARY, Body(e) + rest) == Some((e, rest))
    decreases e, 0, |es| + 1
  {
    hide ShowItems, Show, Items, ParseParen;
    var close := [Sym(RParen)] + rest;
    var inner := ShowItems(es) + (if |es| == 1 then [Sym(Comma)] + close else close);
    assert Body(e) + rest == [Sym(LParen)] + inner;
    assert ([Sym(LParen)] + inner)[1..] == inner;
    ParenReads(e, es, rest);
  }

  // One item with a comma.
  lemma OneInParens(ts: seq<Token>, e: Expr, rest: seq<Token>)
    requires Parse(0, ts) == Some((e, [Sym(Comma)] + ([Sym(RParen)] + rest))) && !Next(ts, RParen)
    ensures ParseParen(ts) == Some((Tuple([e]), rest))
  {
    hide Parse, Items;
    var close := [Sym(RParen)] + rest;
    var follow := [Sym(Comma)] + close;
    assert follow[1..] == close && follow[2..] == rest;
  }

  lemma {:induction false} ParenReads(e: Expr, es: seq<Expr>, rest: seq<Token>)
    requires e == Tuple(es)
    ensures var close := [Sym(RParen)] + rest;
            ParseParen(ShowItems(es) + (if |es| == 1 then [Sym(Comma)] + close else close)) == Some((e, rest))
    decreases e, 0, |es|
  {
    hide Show, Parse, Items;
    var close := [Sym(RParen)] + rest;
    assert close[1..] == rest;
    if es == [] {
      assert [] + close == close;
    } else {
      FirstToken(es[0], ARITHMETIC);
      if |es| == 1 {
        var follow := [Sym(Comma)] + close;
        ItemReads(es[0], follow);
        assert ShowItems(es) == Show(es[0], ARITHMETIC) && es == [es[0]];
        assert (Show(es[0], ARITHMETIC) + follow)[0] != Sym(RParen);
        OneInParens(Show(es[0], ARITHMETIC) + follow, es[0], rest);
      } else {
        var tail := ShowItems(es[1..]) + close;
        var follow := [Sym(Comma)] + tail;
        assert ShowItems(es) + close == Show(es[0], ARITHMETIC) + follow;
        assert follow[1..] == tail;
        ItemReads(es[0], follow);
        ItemsBegin(es[1..]);
        ItemsRead(e, [es[0]], es[1..], close);
        assert [es[0]] + es[1..] == es;
      }
    }
  }

  lemma {:induction false} ListReads(e: Expr, es: seq<Expr>, rest: seq<Token>)
    requires e == List(es)
    ensures Parse(PRIMARY, Body(e) + rest) == Some((e, rest))
    decreases e, 0, |es| + 1
  {
    hide ShowItems, ListItems;
    var close := [Sym(RBracket)] + rest;
    var inner := ShowItems(es) + close;
    var ts := Body(e) + rest;
    assert ts == [Sym(LBracket)] + inner && ts[1..] == inner && close[1..] == rest;
    if es == [] {
      NoItems();
      assert inner == close && ts[2..] == rest;
    } else {
      ItemsBegin(es);
      ItemsRead(e, [], es, close);
      assert [] + es == es;
    }
  }

  /** Every expression, written with parentheses only where precedence needs them, is read
      back, and all its tokens are consumed. */
  lemma RoundTrips(e: Expr)
    ensures Parse(0, Show(e, 0)) == Some((e, []))
  {
    hide Show, Parse;
    Reads(e, 0, []);
    assert Show(e, 0) + [] == Show(e, 0);
  }
}
