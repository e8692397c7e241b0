/** What is read has its brackets closed: whatever the tokens, none is opened or closed in vain. */
module Brackets {
  import opened Wrappers
  import opened Syntax
  import opened Parsing

  function Closing(t: Token): Option<Symbol> {
    if t == Sym(LParen) then Some(RParen) else if t == Sym(LBracket) then Some(RBracket) else None
  }

  predicate IsBracket(t: Token) {
    t == Sym(LParen) || t == Sym(LBracket) || t == Sym(RParen) || t == Sym(RBracket)
  }

  /** The brackets still to be closed behind the tokens, the innermost last; None if one is closed
      that is not the innermost. */
  function Open(ts: seq<Token>, open: seq<Symbol>): Option<seq<Symbol>> {
    if ts == [] then Some(open)
    else if Closing(ts[0]).Some? then Open(ts[1..], open + [Closing(ts[0]).value])
    else if !IsBracket(ts[0]) then Open(ts[1..], open)
    else if open != [] && ts[0] == Sym(open[|open| - 1]) then Open(ts[1..], open[..|open| - 1])
    else None
  }

  ghost predicate Balanced(ts: seq<Token>) {
    forall open {:trigger Open(ts, open)} :: Open(ts, open) == Some(open)
  }

  lemma {:induction false} OpenBoth(a: seq<Token>, b: seq<Token>, open: seq<Symbol>)
    ensures Open(a + b, open) == if Open(a, open).Some? then Open(b, Open(a, open).value) else None
    decreases |a|
  {
    if a == [] {
      assert a + b == b;
    } else {
      assert (a + b)[1..] == a[1..] + b;
      OpenBoth(a[1..], b, if Closing(a[0]).Some? then open + [Closing(a[0]).value]
                          else if IsBracket(a[0]) && open != [] then open[..|open| - 1] else open);
    }
  }

  /** The second sequence is what is left of the first behind balanced tokens. */
  ghost predicate Leaves(ts: seq<Token>, rest: seq<Token>) {
    |rest| <= |ts| && rest == ts[|ts| - |rest|..] && Balanced(ts[..|ts| - |rest|])
  }

  lemma LeavesAll(ts: seq<Token>)
    ensures Leaves(ts, ts)
  {
    assert ts[..0] == [];
  }

  lemma LeavesTwice(a: seq<Token>, b: seq<Token>, c: seq<Token>)
    requires Leaves(a, b) && Leaves(b, c)
    ensures Leaves(a, c)
  {
    var x, y := a[..|a| - |b|], b[..|b| - |c|];
    assert a[..|a| - |c|] == x + y;
    forall open
      ensures Open(x + y, open) == Some(open)
    {
      OpenBoth(x, y, open);
      assert Open(x, open) == Some(open) && Open(y, open) == Some(open);
    }
  }

  lemma LeavesOne(ts: seq<Token>)
    requires ts != [] && !IsBracket(ts[0])
    ensures Leaves(ts, ts[1..])
  {
    var first := [ts[0]];
    assert ts[..1] == first && first[1..] == [];
    forall open
      ensures Open(first, open) == Some(open)
    {
    }
  }

  lemma LeavesSome(ts: seq<Token>, n: nat)
    requires n <= |ts| && forall i :: 0 <= i < n ==> !IsBracket(ts[i])
    ensures Leaves(ts, ts[n..])
  {
    if n == 0 {
      LeavesAll(ts);
    } else {
      LeavesOne(ts);
      LeavesSome(ts[1..], n - 1);
      LeavesTwice(ts, ts[1..], ts[n..]);
    }
  }

  /** What is closed again is balanced. */
  lemma LeavesClosed(ts: seq<Token>, rest: seq<Token>)
    requires ts != [] && Closing(ts[0]).Some? && Leaves(ts[1..], rest) && rest != [] && rest[0] == Sym(Closing(ts[0]).value)
    ensures Leaves(ts, rest[1..])
  {
    var inner := ts[1..][..|ts| - 1 - |rest|];
    var first, last := [ts[0]], [rest[0]];
    assert first[1..] == [] && last[1..] == [];
    assert ts[..|ts| - |rest| + 1] == first + inner + last;
    forall open
      ensures Open(first + inner + last, open) == Some(open)
    {
      var more := open + [Closing(ts[0]).value];
      OpenBoth(first, inner, open);
      OpenBoth(first + inner, last, open);
      assert Open(first, open) == Some(more) && Open(inner, more) == Some(more);
      assert more[..|more| - 1] == open;
    }
  }

  // ---- each function of the parser ----

  lemma OpAtLeaves(k: nat, ts: seq<Token>)
    requires OpAt(k, ts).Some?
    ensures Leaves(ts, OpAt(k, ts).value.1)
  {
    hide Leaves, OpLevel;
    if ts[0] == Sym(KwNot) {
      LeavesSome(ts, 2);
    } else {
      LeavesOne(ts);
    }
  }

  lemma {:induction false} MoreTypeArgsLeave(names: seq<string>, ts: seq<Token>)
    requires MoreTypeArgsAt(names, ts).Some?
    ensures var rest := MoreTypeArgsAt(names, ts).value.1;
            |rest| < |ts| && Leaves(ts, [Sym(LParen)] + rest)
    decreases |ts|
  {
    hide Leaves;
    if Next(ts, Comma) {
      var rest := MoreTypeArgsAt(names, ts).value.1;
      LeavesSome(ts, 2);
      MoreTypeArgsLeave(names + [ts[1].name], ts[2..]);
      LeavesTwice(ts, ts[2..], [Sym(LParen)] + rest);
    } else {
      LeavesOne(ts);
      assert [Sym(LParen)] + ts[2..] == ts[1..];
    }
  }

  lemma TypeArgsLeave(ts: seq<Token>)
    requires TypeArgsAt(ts).Some?
    ensures Leaves(ts, [Sym(LParen)] + TypeArgsAt(ts).value.1)
  {
    hide Leaves;
    LeavesSome(ts, 2);
    MoreTypeArgsLeave([ts[1].name], ts[2..]);
    LeavesTwice(ts, ts[2..], [Sym(LParen)] + TypeArgsAt(ts).value.1);
  }

  /** Whatever tokens are read as an expression, those that are read are balanced. */
  lemma {:induction false} ReadBalanced(k: nat, ts: seq<Token>)
    requires k <= PRIMARY && Parse(k, ts).Some?
    ensures Leaves(ts, Parse(k, ts).value.1)
    decreases |ts|, 20 - k, 1
  {
    hide Leaves, Parse;
    if k == 0 {
      AtTop(ts);
      ExpressionBalanced(ts);
    } else if k == COMPARISON {
      ComparisonBalanced(ts);
    } else if k == 4 || k == 12 {
      PrefixedBalanced(k, ts);
    } else if k == 13 {
      PowerBalanced(ts);
    } else if k == POSTFIX {
      PostfixHead(ts);
      ReadBalanced(PRIMARY, ts);
      var (e, after) := Parse(PRIMARY, ts).value;
      PostfixBalanced(e, after);
      LeavesTwice(ts, after, Parse(k, ts).value.1);
    } else if k == PRIMARY {
      AtPrimary(ts);
      PrimaryBalanced(ts);
    } else {
      LoopHead(k, ts);
      ReadBalanced(k + 1, ts);
      var (e, after) := Parse(k + 1, ts).value;
      LoopBalanced(k, e, after);
      LeavesTwice(ts, after, Parse(k, ts).value.1);
    }
  }

  lemma AtTop(ts: seq<Token>)
    ensures Parse(0, ts) == ParseExpression(ts)
  {
    hide ParseExpression;
  }

  lemma AtPrimary(ts: seq<Token>)
    ensures Parse(PRIMARY, ts) == ParsePrimary(ts)
  {
    hide ParsePrimary;
  }

  lemma PostfixHead(ts: seq<Token>)
    requires Parse(POSTFIX, ts).Some?
    ensures Parse(PRIMARY, ts).Some? && Parse(POSTFIX, ts) == Postfix(Parse(PRIMARY, ts).value.0, Parse(PRIMARY, ts).value.1)
  {
    hide Postfix, ParsePrimary;
  }

  lemma LoopHead(k: nat, ts: seq<Token>)
    requires LeftAssoc(k) && Parse(k, ts).Some?
    ensures Parse(k + 1, ts).Some? && Parse(k, ts) == Loop(k, Parse(k + 1, ts).value.0, Parse(k + 1, ts).value.1)
  {
    hide Loop;
  }

  lemma {:induction false} ComparisonBalanced(ts: seq<Token>)
    requires Parse(COMPARISON, ts).Some?
    ensures Leaves(ts, Parse(COMPARISON, ts).value.1)
    decreases |ts|, 20 - COMPARISON, 0
  {
    hide Leaves, Chain;
    ReadBalanced(ARITHMETIC, ts);
    var (e, after) := Parse(ARITHMETIC, ts).value;
    ChainBalanced([e], [], after);
    LeavesTwice(ts, after, Parse(COMPARISON, ts).value.1);
  }

  lemma {:induction false} PrefixedBalanced(k: nat, ts: seq<Token>)
    requires (k == 4 || k == 12) && Parse(k, ts).Some?
    ensures Leaves(ts, Parse(k, ts).value.1)
    decreases |ts|, 20 - k, 0
  {
    hide Leaves, Loop;
    if if k == 4 then Next(ts, KwNot) else ts != [] && PrefixOf(ts[0]).Some? {
      LeavesOne(ts);
      ReadBalanced(k, ts[1..]);
      LeavesTwice(ts, ts[1..], Parse(k, ts).value.1);
    } else {
      ReadBalanced(k + 1, ts);
    }
  }

  lemma {:induction false} PowerBalanced(ts: seq<Token>)
    requires Parse(13, ts).Some?
    ensures Leaves(ts, Parse(13, ts).value.1)
    decreases |ts|, 7, 0
  {
    hide Leaves, Postfix;
    ReadBalanced(POSTFIX, ts);
    var after := Parse(POSTFIX, ts).value.1;
    if Next(after, DoubleStar) {
      LeavesOne(after);
      ReadBalanced(12, after[1..]);
      LeavesTwice(ts, after, after[1..]);
      LeavesTwice(ts, after[1..], Parse(13, ts).value.1);
    }
  }

  lemma {:induction false} ExpressionBalanced(ts: seq<Token>)
    requires ParseExpression(ts).Some?
    ensures Leaves(ts, ParseExpression(ts).value.1)
    decreases |ts|, 19, 2
  {
    hide Leaves;
    if |ts| >= 2 && ts[0].Ident? && (ts[1] == Sym(Arrow) || ts[1] == Sym(ColonEq)) {
      LeavesSome(ts, 2);
      ReadBalanced(0, ts[2..]);
      LeavesTwice(ts, ts[2..], ParseExpression(ts).value.1);
    } else {
      ReadBalanced(1, ts);
    }
  }

  lemma {:induction false} LoopBalanced(k: nat, left: Expr, ts: seq<Token>)
    requires LeftAssoc(k) && Loop(k, left, ts).Some?
    ensures Leaves(ts, Loop(k, left, ts).value.1)
    decreases |ts|, 20, 0
  {
    hide Leaves, OpAt;
    if OpAt(k, ts).None? {
      LeavesAll(ts);
    } else {
      var (op, after) := OpAt(k, ts).value;
      OpAtLeaves(k, ts);
      ReadBalanced(k + 1, after);
      var (right, rest) := Parse(k + 1, after).value;
      LoopBalanced(k, Bin(op, left, right), rest);
      LeavesTwice(ts, after, rest);
      LeavesTwice(ts, rest, Loop(k, left, ts).value.1);
    }
  }

  lemma {:induction false} ChainBalanced(operands: seq<Expr>, ops: seq<BinOp>, ts: seq<Token>)
    requires |operands| == |ops| + 1 && Chain(operands, ops, ts).Some?
    ensures Leaves(ts, Chain(operands, ops, ts).value.1)
    decreases |ts|, 20, 0
  {
    hide Leaves, OpAt;
    if OpAt(COMPARISON, ts).None? {
      LeavesAll(ts);
    } else {
      var (op, after) := OpAt(COMPARISON, ts).value;
      OpAtLeaves(COMPARISON, ts);
      ReadBalanced(ARITHMETIC, after);
      var (right, rest) := Parse(ARITHMETIC, after).value;
      ChainBalanced(operands + [right], ops + [op], rest);
      LeavesTwice(ts, after, rest);
      LeavesTwice(ts, rest, Chain(operands, ops, ts).value.1);
    }
  }

  lemma {:induction false} PostfixBalanced(e: Expr, ts: seq<Token>)
    requires Postfix(e, ts).Some?
    ensures Leaves(ts, Postfix(e, ts).value.1)
    decreases |ts|, 20, 0
  {
    hide Leaves, TypeArgsAt, Arguments;
    var rest := Postfix(e, ts).value.1;
    if Next(ts, LParen) {
      ArgumentsBalanced(ts);
      var (args, after) := Arguments(ts[1..]).value;
      PostfixBalanced(Call(e, [], args), after);
      LeavesTwice(ts, after, rest);
    } else if Next(ts, Dot) {
      LeavesSome(ts, 2);
      PostfixBalanced(Member(e, if Next(ts[1..], KwInit) then "init" else ts[1].name), ts[2..]);
      LeavesTwice(ts, ts[2..], rest);
    } else if Next(ts, Less) && TypeArgsAt(ts).Some? {
      var (names, inner) := TypeArgsAt(ts).value;
      var call := [Sym(LParen)] + inner;
      TypeArgsLeave(ts);
      assert call[1..] == inner;
      ArgumentsBalanced(call);
      var (args, after) := Arguments(inner).value;
      PostfixBalanced(Call(e, names, args), after);
      LeavesTwice(ts, call, after);
      LeavesTwice(ts, after, rest);
    } else if Next(ts, LBracket) {
      ReadBalanced(0, ts[1..]);
      var (i, after) := Parse(0, ts[1..]).value;
      LeavesClosed(ts, after);
      PostfixBalanced(Index(e, i), after[1..]);
      LeavesTwice(ts, after[1..], rest);
    } else {
      LeavesAll(ts);
    }
  }

  lemma {:induction false} ArgumentsBalanced(ts: seq<Token>)
    requires Next(ts, LParen) && Arguments(ts[1..]).Some?
    ensures Leaves(ts, Arguments(ts[1..]).value.1)
    decreases |ts| - 1, 22, 0
  {
    hide Leaves, Items;
    if Next(ts[1..], RParen) {
      LeavesAll(ts[1..]);
      LeavesClosed(ts, ts[1..]);
    } else {
      ItemsBalanced([], ts[1..]);
      LeavesClosed(ts, Items([], ts[1..]).value.1);
    }
  }

  lemma {:induction false} ItemsBalanced(es: seq<Expr>, ts: seq<Token>)
    requires Items(es, ts).Some?
    ensures Leaves(ts, Items(es, ts).value.1)
    decreases |ts|, 21, 0
  {
    hide Leaves, Parse;
    ReadBalanced(0, ts);
    var (e, rest) := Parse(0, ts).value;
    if Next(rest, Comma) {
      LeavesOne(rest);
      ItemsBalanced(es + [e], rest[1..]);
      LeavesTwice(ts, rest, rest[1..]);
      LeavesTwice(ts, rest[1..], Items(es, ts).value.1);
    }
  }

  lemma {:induction false} ListItemsBalanced(es: seq<Expr>, ts: seq<Token>)
    requires ListItems(es, ts).Some?
    ensures Leaves(ts, ListItems(es, ts).value.1)
    decreases |ts|, 21, 0
  {
    hide Leaves, Parse;
    ReadBalanced(0, ts);
    var (e, rest) := Parse(0, ts).value;
    if Next(rest, Comma) {
      LeavesOne(rest);
      LeavesTwice(ts, rest, rest[1..]);
      if !Next(rest[1..], RBracket) {
        ListItemsBalanced(es + [e], rest[1..]);
        LeavesTwice(ts, rest[1..], ListItems(es, ts).value.1);
      }
    }
  }

  lemma {:induction false} PrimaryBalanced(ts: seq<Token>)
    requires ParsePrimary(ts).Some?
    ensures Leaves(ts, ParsePrimary(ts).value.1)
    decreases |ts|, 4, 0
  {
    hide Leaves, ListItems;
    var rest := ParsePrimary(ts).value.1;
    if Next(ts, Star) || Next(ts, DoubleStar) {
      LeavesOne(ts);
      ReadBalanced(12, ts[1..]);
      LeavesTwice(ts, ts[1..], rest);
    } else if Next(ts, LParen) {
      ParenBalanced(ts);
    } else if Next(ts, LBracket) {
      if Next(ts[1..], RBracket) {
        LeavesAll(ts[1..]);
        LeavesClosed(ts, ts[1..]);
      } else {
        ListItemsBalanced([], ts[1..]);
        LeavesClosed(ts, ListItems([], ts[1..]).value.1);
      }
    } else {
      LeavesOne(ts);
    }
  }

  lemma {:induction false} ParenBalanced(ts: seq<Token>)
    requires Next(ts, LParen) && ParseParen(ts[1..]).Some?
    ensures Leaves(ts, ParseParen(ts[1..]).value.1)
    decreases |ts| - 1, 22, 0
  {
    hide Leaves, Items, Parse;
    var inner := ts[1..];
    if Next(inner, RParen) {
      LeavesAll(inner);
      LeavesClosed(ts, inner);
    } else {
      ReadBalanced(0, inner);
      var (first, rest) := Parse(0, inner).value;
      if Next(rest, Comma) {
        LeavesOne(rest);
        LeavesTwice(inner, rest, rest[1..]);
        if Next(rest[1..], RParen) {
          LeavesClosed(ts, rest[1..]);
        } else {
          ItemsBalanced([first], rest[1..]);
          var after := Items([first], rest[1..]).value.1;
          LeavesTwice(inner, rest[1..], after);
          LeavesClosed(ts, after);
        }
      } else {
        LeavesClosed(ts, rest);
      }
    }
  }
}
