/** What may stand between the commas of calls, tuples and lists. */
module ArgumentLists {
  import opened Wrappers
  import opened Syntax
  import opened Parsing
  import opened RoundTrip
  import opened Grouping

  // The token ends an item.
  predicate Ended(rest: seq<Token>) {
    Next(rest, Comma) || Next(rest, RParen) || Next(rest, RBracket)
  }

  /** The tokens are read as the expression wherever an item ends behind them. */
  ghost predicate IsItem(ts: seq<Token>, e: Expr) {
    forall rest {:trigger Parse(0, ts + rest)} :: Ended(rest) ==> Parse(0, ts + rest) == Some((e, rest))
  }

  function Commas(tss: seq<seq<Token>>): seq<Token> {
    if tss == [] then [] else if |tss| == 1 then tss[0] else tss[0] + [Sym(Comma)] + Commas(tss[1..])
  }

  lemma {:induction false} ItemsAre(before: seq<Expr>, tss: seq<seq<Token>>, es: seq<Expr>, rest: seq<Token>)
    requires |tss| == |es| > 0 && (forall i :: 0 <= i < |es| ==> IsItem(tss[i], es[i])) && (Next(rest, RParen) || Next(rest, RBracket))
    ensures Items(before, Commas(tss) + rest) == Some((before + es, rest))
    decreases |es|
  {
    hide Parse, IsItem;
    if |es| == 1 {
      ItemReads(tss[0], es[0], rest);
      assert es == [es[0]];
    } else {
      var more := Commas(tss[1..]) + rest;
      var after := [Sym(Comma)] + more;
      assert Commas(tss) + rest == tss[0] + after && after[1..] == more;
      ItemReads(tss[0], es[0], after);
      ItemsAre(before + [es[0]], tss[1..], es[1..], rest);
      assert before + [es[0]] + es[1..] == before + es;
    }
  }

  lemma ItemReads(ts: seq<Token>, e: Expr, rest: seq<Token>)
    requires IsItem(ts, e) && Ended(rest)
    ensures Parse(0, ts + rest) == Some((e, rest))
  {
  }

  /** The arguments of a call: any expressions, and none at all. */
  lemma ArgumentsAre(tss: seq<seq<Token>>, es: seq<Expr>, rest: seq<Token>)
    requires |tss| == |es| && (forall i :: 0 <= i < |es| ==> IsItem(tss[i], es[i]))
    ensures Arguments(Commas(tss) + [Sym(RParen)] + rest) == Some((es, rest))
  {
    hide Parse, Items, IsItem;
    var after := [Sym(RParen)] + rest;
    assert Commas(tss) + [Sym(RParen)] + rest == Commas(tss) + after && after[1..] == rest;
    if es == [] {
      assert Commas(tss) + after == after;
    } else {
      ItemsAre([], tss, es, after);
      assert [] + es == es;
      NotClosed(tss, es, after);
    }
  }

  lemma NotClosed(tss: seq<seq<Token>>, es: seq<Expr>, after: seq<Token>)
    requires |tss| == |es| > 0 && IsItem(tss[0], es[0]) && (Next(after, RParen) || Next(after, RBracket))
    ensures !Next(Commas(tss) + after, RParen) && !Next(Commas(tss) + after, RBracket)
  {
    hide Parse, IsItem;
    var ts := Commas(tss) + after;
    var follow := if |tss| == 1 then after else [Sym(Comma)] + (Commas(tss[1..]) + after);
    assert ts == tss[0] + follow;
    ItemReads(tss[0], es[0], follow);
    if Next(ts, RParen) || Next(ts, RBracket) {
      NothingRead(0, ts);
    }
  }

  // No expression begins with a closing bracket or with an operator that is no prefix.
  lemma {:induction false} NothingRead(k: nat, ts: seq<Token>)
    requires k <= PRIMARY && ts != [] && ts[0].Sym? && ts[0].s !in {KwNot, Minus, Tilde, LeftArrow, Star, DoubleStar, LParen, LBracket}
    ensures Parse(k, ts) == None
    decreases PRIMARY - k
  {
    hide ParseParen, ListItems, Loop, Chain, Postfix;
    if k < PRIMARY {
      NothingRead(k + 1, ts);
    }
  }

  // ---- bare operators between commas ----

  lemma AtomAt(k: nat, a: string, rest: seq<Token>)
    requires k <= PRIMARY && Stops(k, rest)
    ensures Parse(k, [Ident(a)] + rest) == Some((Name(a), rest))
  {
    hide Parse, TypeArgsAt, OpAt;
    AtomReads(Name(a), rest);
    assert Body(Name(a)) == [Ident(a)];
    Wrap(k, PRIMARY, [Ident(a)] + rest, Name(a), rest);
  }

  lemma StopsUp(j: nat, k: nat, rest: seq<Token>)
    requires Stops(j, rest) && j <= k
    ensures Stops(k, rest)
  {
  }

  lemma NoOpAt(k: nat, rest: seq<Token>)
    requires Stops(0, rest) && k <= 11
    ensures OpAt(k, rest) == None
  {
  }

  lemma LoopOnce(k: nat, e: Expr, ts: seq<Token>, op: BinOp, r: Expr, after: seq<Token>, rest: seq<Token>)
    requires LeftAssoc(k) && OpAt(k, ts) == Some((op, after)) && Parse(k + 1, after) == Some((r, rest)) && OpAt(k, rest) == None
    ensures Loop(k, e, ts) == Some((Bin(op, e, r), rest))
  {
    hide Parse, OpAt;
    assert Loop(k, Bin(op, e, r), rest) == Some((Bin(op, e, r), rest));
  }

  lemma ChainOnce(e: Expr, ts: seq<Token>, op: BinOp, r: Expr, after: seq<Token>, rest: seq<Token>)
    requires OpAt(COMPARISON, ts) == Some((op, after)) && Parse(ARITHMETIC, after) == Some((r, rest)) && OpAt(COMPARISON, rest) == None
    ensures Chain([e], [], ts) == Some((Bin(op, e, r), rest))
  {
    hide Parse, OpAt;
    assert [e] + [r] == [e, r] && [] + [op] == [op];
    assert Chain([e, r], [op], rest) == Some((Desugar([e, r], [op]), rest));
  }

  lemma ChainBegins(ts: seq<Token>, e: Expr, after: seq<Token>)
    requires Parse(ARITHMETIC, ts) == Some((e, after))
    ensures Parse(COMPARISON, ts) == Chain([e], [], after)
  {
    hide Chain;
  }

  /** Two names with any operator between them are an item as they stand; with `<` where that does
      not look like type arguments. */
  lemma BareReads(a: string, b: string, i: nat, t: seq<Token>, x: BinOp, rest: seq<Token>)
    requires InRow(i, t, x) && Ended(rest) && (x == Lt ==> TypeArgsAt(t + ([Ident(b)] + rest)).None?)
    ensures Parse(0, [Ident(a)] + t + [Ident(b)] + rest) == Some((Bin(x, Name(a), Name(b)), rest))
  {
    hide Parse, OpTokens, OpLevel, InRow, Stops, OpAt, TypeArgsAt, Loop, Chain;
    RowLevels(i, t, x);
    var k, after := OpLevel(x), [Ident(b)] + rest;
    var ts := [Ident(a)] + (t + after);
    ClosesStops(rest);
    OperatorStops(x, after);
    OpAtWritten(x, after);
    AtomAt(k + 1, a, t + after);
    StopsUp(0, k + 1, rest);
    AtomAt(k + 1, b, rest);
    NoOpAt(k, rest);
    var e := Bin(x, Name(a), Name(b));
    if k == COMPARISON {
      ChainBegins(ts, Name(a), t + after);
      ChainOnce(Name(a), t + after, x, Name(b), after, rest);
    } else {
      LeftUnfolds(k, ts, Name(a), t + after);
      LoopOnce(k, Name(a), t + after, x, Name(b), after, rest);
    }
    FromName(ts, a, k);
    Wrap(0, k, ts, e, rest);
    assert [Ident(a)] + t + [Ident(b)] + rest == ts;
  }

  lemma BareIsItem(a: string, b: string, i: nat, t: seq<Token>, x: BinOp)
    requires InRow(i, t, x) && x != Lt
    ensures IsItem([Ident(a)] + t + [Ident(b)], Bin(x, Name(a), Name(b)))
  {
    hide Parse, InRow;
    forall rest | Ended(rest)
      ensures Parse(0, [Ident(a)] + t + [Ident(b)] + rest) == Some((Bin(x, Name(a), Name(b)), rest))
    {
      BareReads(a, b, i, t, x, rest);
    }
  }

  lemma NameIsItem(a: string)
    ensures IsItem([Ident(a)], Name(a))
  {
    hide Parse, Stops;
    forall rest | Ended(rest)
      ensures Parse(0, [Ident(a)] + rest) == Some((Name(a), rest))
    {
      ClosesStops(rest);
      AtomAt(0, a, rest);
    }
  }

  /** `f(a op b, c)`, with any operator but `<`, passes two arguments. */
  lemma BareArguments(f: string, a: string, b: string, c: string, i: nat, t: seq<Token>, x: BinOp)
    requires InRow(i, t, x) && x != Lt
    ensures Parse(0, [Ident(f), Sym(LParen), Ident(a)] + t + [Ident(b), Sym(Comma), Ident(c), Sym(RParen)]) ==
            Some((Call(Name(f), [], [Bin(x, Name(a), Name(b)), Name(c)]), []))
  {
    hide Parse, InRow, Arguments, IsItem, Stops;
    BareIsItem(a, b, i, t, x);
    NameIsItem(c);
    var first := [Ident(a)] + t + [Ident(b)];
    var tss, es := [first, [Ident(c)]], [Bin(x, Name(a), Name(b)), Name(c)];
    ArgumentsAre(tss, es, []);
    assert tss[1..] == [[Ident(c)]];
    assert Commas(tss) == first + [Sym(Comma)] + [Ident(c)];
    var inner := Commas(tss) + [Sym(RParen)] + [];
    var ts := [Ident(f)] + ([Sym(LParen)] + inner);
    CallOf(f, inner, es);
    assert ts == [Ident(f), Sym(LParen), Ident(a)] + t + [Ident(b), Sym(Comma), Ident(c), Sym(RParen)];
  }

  lemma CallOf(f: string, inner: seq<Token>, es: seq<Expr>)
    requires Arguments(inner) == Some((es, []))
    ensures Parse(0, [Ident(f)] + ([Sym(LParen)] + inner)) == Some((Call(Name(f), [], es), []))
  {
    hide Arguments, Parse, Stops;
    var ts, after := [Ident(f)] + ([Sym(LParen)] + inner), [Sym(LParen)] + inner;
    assert after[1..] == inner;
    AtomAt(PRIMARY, f, after) by {
      PrimaryStops(after);
    }
    assert Postfix(Call(Name(f), [], es), []) == Some((Call(Name(f), [], es), []));
    assert Postfix(Name(f), after) == Some((Call(Name(f), [], es), []));
    PostUnfolds(ts, Name(f), after);
    EndsClean();
    assert Clean(0, []);
    StopsOf([]);
    FromName(ts, f, POSTFIX);
    Wrap(0, POSTFIX, ts, Call(Name(f), [], es), []);
  }

  lemma StopsOf(rest: seq<Token>)
    requires Clean(0, rest)
    ensures Stops(0, rest)
  {
  }

  lemma PrimaryStops(rest: seq<Token>)
    requires !Next(rest, Arrow) && !Next(rest, ColonEq)
    ensures Stops(PRIMARY, rest)
  {
  }

  // ---- lists and tuples ----

  function Trailing(comma: bool): seq<Token> {
    if comma then [Sym(Comma)] else []
  }

  lemma {:induction false} ListItemsAre(before: seq<Expr>, tss: seq<seq<Token>>, es: seq<Expr>, comma: bool, rest: seq<Token>)
    requires |tss| == |es| > 0 && (forall i :: 0 <= i < |es| ==> IsItem(tss[i], es[i])) && Next(rest, RBracket)
    ensures ListItems(before, Commas(tss) + (Trailing(comma) + rest)) == Some((before + es, rest))
    decreases |es|
  {
    hide Parse, IsItem;
    if |es| == 1 {
      var follow := Trailing(comma) + rest;
      ItemReads(tss[0], es[0], follow);
      assert comma ==> follow[1..] == rest;
      assert !comma ==> follow == rest;
      assert es == [es[0]];
    } else {
      var more := Commas(tss[1..]) + (Trailing(comma) + rest);
      var after := [Sym(Comma)] + more;
      assert Commas(tss) + (Trailing(comma) + rest) == tss[0] + after && after[1..] == more;
      ItemReads(tss[0], es[0], after);
      var follow := Trailing(comma) + rest;
      NoBracketFirst(tss[1..], es[1..], follow);
      ListItemsAre(before + [es[0]], tss[1..], es[1..], comma, rest);
      assert before + [es[0]] + es[1..] == before + es;
    }
  }

  lemma NoBracketFirst(tss: seq<seq<Token>>, es: seq<Expr>, after: seq<Token>)
    requires |tss| == |es| > 0 && IsItem(tss[0], es[0]) && Ended(after)
    ensures !Next(Commas(tss) + after, RBracket) && !Next(Commas(tss) + after, RParen)
  {
    hide Parse, IsItem;
    var ts := Commas(tss) + after;
    var follow := if |tss| == 1 then after else [Sym(Comma)] + (Commas(tss[1..]) + after);
    assert ts == tss[0] + follow;
    ItemReads(tss[0], es[0], follow);
    if Next(ts, RParen) || Next(ts, RBracket) {
      NothingRead(0, ts);
    }
  }

  /** A list of any expressions, with or without a comma after the last one, or of none. */
  lemma ListIs(tss: seq<seq<Token>>, es: seq<Expr>, comma: bool, rest: seq<Token>)
    requires |tss| == |es| && (forall i :: 0 <= i < |es| ==> IsItem(tss[i], es[i])) && (comma ==> es != [])
    ensures Parse(PRIMARY, [Sym(LBracket)] + Commas(tss) + Trailing(comma) + [Sym(RBracket)] + rest) == Some((List(es), rest))
  {
    hide IsItem, ListItems;
    var after := [Sym(RBracket)] + rest;
    var inner := Commas(tss) + (Trailing(comma) + after);
    var ts := [Sym(LBracket)] + Commas(tss) + Trailing(comma) + [Sym(RBracket)] + rest;
    assert ts == [Sym(LBracket)] + inner && ts[1..] == inner && after[1..] == rest;
    if es == [] {
      assert inner == after;
      assert ts[2..] == rest;
    } else {
      ListItemsAre([], tss, es, comma, after);
      assert [] + es == es;
      NoBracketFirst(tss, es, Trailing(comma) + after);
    }
  }

  /** In parentheses: none is the empty tuple, one with a comma is a tuple of one, more are a tuple;
      one alone is just itself. */
  lemma ParenIs(tss: seq<seq<Token>>, es: seq<Expr>, comma: bool, rest: seq<Token>)
    requires |tss| == |es| && (forall i :: 0 <= i < |es| ==> IsItem(tss[i], es[i])) && (comma ==> |es| == 1)
    ensures Parse(PRIMARY, [Sym(LParen)] + Commas(tss) + Trailing(comma) + [Sym(RParen)] + rest) ==
            Some((if |es| == 1 && !comma then es[0] else Tuple(es), rest))
  {
    hide IsItem, Items;
    var after := [Sym(RParen)] + rest;
    var inner := Commas(tss) + (Trailing(comma) + after);
    var ts := [Sym(LParen)] + Commas(tss) + Trailing(comma) + [Sym(RParen)] + rest;
    assert ts == [Sym(LParen)] + inner && ts[1..] == inner && after[1..] == rest;
    hide Parse;
    if es == [] {
      assert inner == after;
      NoneInside(ts, after);
    } else {
      NoBracketFirst(tss, es, Trailing(comma) + after);
      var follow := if |es| == 1 then Trailing(comma) + after else [Sym(Comma)] + (Commas(tss[1..]) + after);
      assert inner == tss[0] + follow;
      ItemReads(tss[0], es[0], follow);
      ParenRest(tss, es, comma, rest);
      Inside(ts, inner);
    }
  }

  lemma NoneInside(ts: seq<Token>, after: seq<Token>)
    requires Next(ts, LParen) && ts[1..] == after && Next(after, RParen)
    ensures Parse(PRIMARY, ts) == Some((Tuple([]), after[1..]))
  {
    hide Parse;
    Inside(ts, after);
  }

  lemma Inside(ts: seq<Token>, inner: seq<Token>)
    requires Next(ts, LParen) && ts[1..] == inner
    ensures Parse(PRIMARY, ts) == ParseParen(inner)
  {
    hide ParseParen, ParseExpression;
  }

  lemma ParenRest(tss: seq<seq<Token>>, es: seq<Expr>, comma: bool, rest: seq<Token>)
    requires |tss| == |es| > 0 && (forall i :: 0 <= i < |es| ==> IsItem(tss[i], es[i])) && (comma ==> |es| == 1)
    requires var after := [Sym(RParen)] + rest;
             var follow := if |es| == 1 then Trailing(comma) + after else [Sym(Comma)] + (Commas(tss[1..]) + after);
             var inner := Commas(tss) + (Trailing(comma) + after);
             inner == tss[0] + follow && Parse(0, inner) == Some((es[0], follow)) && !Next(inner, RParen)
    ensures ParseParen(Commas(tss) + (Trailing(comma) + ([Sym(RParen)] + rest))) ==
            Some((if |es| == 1 && !comma then es[0] else Tuple(es), rest))
  {
    hide IsItem, Items, Parse;
    var after := [Sym(RParen)] + rest;
    assert after[1..] == rest;
    if |es| == 1 {
      var follow := Trailing(comma) + after;
      assert es == [es[0]];
      assert comma ==> follow[1..] == after && follow[2..] == rest;
      assert !comma ==> follow == after;
    } else {
      var more := Commas(tss[1..]) + after;
      var follow := [Sym(Comma)] + more;
      assert follow[1..] == more;
      ItemsAre([es[0]], tss[1..], es[1..], after);
      NoBracketFirst(tss[1..], es[1..], after);
      assert [es[0]] + es[1..] == es;
    }
  }

  // ---- what is not read ----

  /** A `not` is no operand of the operators that bind tighter than it. */
  lemma NotIsNoOperand(a: string, b: string, i: nat, t: seq<Token>, x: BinOp)
    requires InRow(i, t, x) && i >= 3
    ensures Parse(0, [Ident(a)] + t + [Sym(KwNot), Ident(b)]) == None
  {
    hide Parse, OpTokens, OpLevel, InRow, Stops, OpAt, TypeArgsAt, Loop, Chain, Clean;
    RowLevels(i, t, x);
    var k, after := OpLevel(x), [Sym(KwNot), Ident(b)];
    var ts := [Ident(a)] + (t + after);
    assert ts == [Ident(a)] + t + [Sym(KwNot), Ident(b)];
    NoTypeArgsBehind(x, t, after);
    OperatorStops(x, after);
    OpAtWritten(x, after);
    CleanStops(k + 1, t + after);
    AtomAt(k + 1, a, t + after);
    NoNot(k + 1, after);
    FromName(ts, a, k);
    if k == COMPARISON {
      ChainBegins(ts, Name(a), t + after);
      NoChainOn([Name(a)], [], t + after);
    } else {
      LeftUnfolds(k, ts, Name(a), t + after);
      NoLoopOn(k, Name(a), t + after);
    }
    NoneAbove(k, ts, a);
  }

  lemma CleanStops(k: nat, ts: seq<Token>)
    requires Clean(k, ts)
    ensures Stops(k, ts)
  {
  }

  lemma NoTypeArgsBehind(x: BinOp, t: seq<Token>, after: seq<Token>)
    requires t == OpTokens(x) && after != [] && !after[0].Ident?
    ensures TypeArgsAt(OpTokens(x) + after).None?
  {
    var ts := OpTokens(x) + after;
    assert x == Lt ==> ts[1] == after[0];
  }

  lemma {:induction false} NoNot(k: nat, ts: seq<Token>)
    requires 4 < k <= PRIMARY && Next(ts, KwNot)
    ensures Parse(k, ts) == None
    decreases PRIMARY - k
  {
    hide Loop, Chain, Postfix;
    if k < PRIMARY {
      NoNot(k + 1, ts);
    }
  }

  lemma NoLoopOn(k: nat, e: Expr, ts: seq<Token>)
    requires LeftAssoc(k) && OpAt(k, ts).Some? && Parse(k + 1, OpAt(k, ts).value.1) == None
    ensures Loop(k, e, ts) == None
  {
    hide Parse, OpAt;
  }

  lemma NoChainOn(es: seq<Expr>, ops: seq<BinOp>, ts: seq<Token>)
    requires |es| == |ops| + 1 && OpAt(COMPARISON, ts).Some? && Parse(ARITHMETIC, OpAt(COMPARISON, ts).value.1) == None
    ensures Chain(es, ops, ts) == None
  {
    hide Parse, OpAt;
  }

  lemma {:induction false} NoneAbove(k: nat, ts: seq<Token>, a: string)
    requires k <= 11 && Parse(k, ts) == None && Next2(ts, a)
    ensures Parse(0, ts) == None
    decreases k
  {
    hide Loop, Chain;
    if k > 0 {
      NoneAbove(k - 1, ts, a);
    }
  }

  // A name comes first, and no arrow behind it.
  predicate Next2(ts: seq<Token>, a: string) {
    |ts| >= 2 && ts[0] == Ident(a) && ts[1] != Sym(Arrow) && ts[1] != Sym(ColonEq)
  }
}
