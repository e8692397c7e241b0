/** Which operators bind tighter, said by how plain tokens are read. */
module Grouping {
  import opened Wrappers
  import opened Syntax
  import opened Parsing
  import opened RoundTrip
  import opened Comparisons

  /** The operators between two operands, row by row from the loosest to the tightest; the prefix
      `not` is between the third and the fourth row. */
  function Row(i: nat): seq<(seq<Token>, BinOp)> {
    match i
    case 0 => [([Sym(DoubleQuestion)], NullCoalesce)]
    case 1 => [([Sym(KwOr)], Or)]
    case 2 => [([Sym(KwAnd)], And)]
    case 3 => [([Sym(Pipe)], BitOr)]
    case 4 => [([Sym(Caret)], BitXor)]
    case 5 => [([Sym(Amp)], BitAnd)]
    case 6 => [([Sym(LShift)], Shl), ([Sym(RShift)], Shr)]
    case 7 => [([Sym(EqEq)], Eq), ([Sym(NotEq)], Neq), ([Sym(Less)], Lt), ([Sym(More)], Gt), ([Sym(LessEq)], Lte),
               ([Sym(MoreEq)], Gte), ([Sym(KwIn)], In), ([Sym(KwNot), Sym(KwIn)], NotIn)]
    case 8 => [([Sym(Plus)], Add), ([Sym(Minus)], Sub)]
    case 9 => [([Sym(Star)], Mul), ([Sym(Slash)], Div), ([Sym(DoubleSlash)], IntDiv), ([Sym(Percent)], Mod)]
    case _ => []
  }

  /** The tokens stand for the operator, which is in this row. */
  predicate InRow(i: nat, t: seq<Token>, op: BinOp) {
    (t, op) in Row(i)
  }

  // The row of comparisons.
  const COMPARING: nat := 7

  function RowLevel(i: nat): nat {
    if i < 3 then i + 1 else i + 2
  }

  lemma RowLevels(i: nat, t: seq<Token>, op: BinOp)
    requires InRow(i, t, op)
    ensures i < 10 && t == OpTokens(op) && OpLevel(op) == RowLevel(i) && !op.Power?
    ensures t != [] && t[0] != Sym(Arrow) && t[0] != Sym(ColonEq)
  {
    if i < COMPARING {
      LooseLevels(i, t, op);
    } else if i == COMPARING {
      ComparingLevels(t, op);
    } else {
      TightLevels(i, t, op);
    }
  }

  lemma ComparingLevels(t: seq<Token>, op: BinOp)
    requires InRow(COMPARING, t, op)
    ensures t == OpTokens(op) && OpLevel(op) == RowLevel(COMPARING) && !op.Power?
    ensures t != [] && t[0] != Sym(Arrow) && t[0] != Sym(ColonEq)
  {
  }

  lemma LooseLevels(i: nat, t: seq<Token>, op: BinOp)
    requires i < COMPARING && InRow(i, t, op)
    ensures t == OpTokens(op) && OpLevel(op) == RowLevel(i) && !op.Power?
    ensures t != [] && t[0] != Sym(Arrow) && t[0] != Sym(ColonEq)
  {
  }

  lemma TightLevels(i: nat, t: seq<Token>, op: BinOp)
    requires i > COMPARING && InRow(i, t, op)
    ensures i < 10 && t == OpTokens(op) && OpLevel(op) == RowLevel(i) && !op.Power?
    ensures t != [] && t[0] != Sym(Arrow) && t[0] != Sym(ColonEq)
  {
  }

  // ---- two operators ----

  lemma Shown(a: string, k: nat)
    requires k <= PRIMARY
    ensures Show(Name(a), k) == [Ident(a)]
  {
  }

  lemma ShownBin(op: BinOp, l: Expr, r: Expr, k: nat)
    requires OpLevel(op) >= k
    ensures Show(Bin(op, l, r), k) == Show(l, LeftLevel(op)) + OpTokens(op) + Show(r, RightLevel(op))
  {
    hide OpLevel, OpTokens, LeftLevel, RightLevel;
  }

  /** Of two operators in different rows the one of the later row has its operands first; within a
      row the left one does. */
  lemma Groups(a: string, b: string, c: string, i: nat, t: seq<Token>, x: BinOp, j: nat, u: seq<Token>, y: BinOp)
    requires InRow(i, t, x) && InRow(j, u, y) && !(i == j == COMPARING)
    ensures Parse(0, [Ident(a)] + t + [Ident(b)] + u + [Ident(c)]) ==
            Some((if i < j then Bin(x, Name(a), Bin(y, Name(b), Name(c))) else Bin(y, Bin(x, Name(a), Name(b)), Name(c)), []))
  {
    hide Parse, Show, OpTokens, OpLevel, InRow;
    RowLevels(i, t, x);
    RowLevels(j, u, y);
    var ts := [Ident(a)] + t + [Ident(b)] + u + [Ident(c)];
    Shown(a, LeftLevel(x));
    Shown(c, RightLevel(y));
    if i < j {
      var inner := Bin(y, Name(b), Name(c));
      Shown(b, LeftLevel(y));
      ShownBin(y, Name(b), Name(c), RightLevel(x));
      ShownBin(x, Name(a), inner, 0);
      RoundTrips(Bin(x, Name(a), inner));
      assert [Ident(a)] + t + ([Ident(b)] + u + [Ident(c)]) == ts;
    } else {
      var inner := Bin(x, Name(a), Name(b));
      Shown(b, RightLevel(x));
      ShownBin(x, Name(a), Name(b), LeftLevel(y));
      ShownBin(y, inner, Name(c), 0);
      RoundTrips(Bin(y, inner, Name(c)));
    }
  }

  /** Two comparisons are a chain: both have to hold. */
  lemma Chains(a: string, b: string, c: string, t: seq<Token>, x: BinOp, u: seq<Token>, y: BinOp)
    requires InRow(COMPARING, t, x) && InRow(COMPARING, u, y)
    ensures Parse(0, [Ident(a)] + t + [Ident(b)] + u + [Ident(c)]) ==
            Some((Bin(And, Bin(x, Name(a), Name(b)), Bin(y, Name(b), Name(c))), []))
  {
    hide Parse, Show, OpTokens, OpLevel, InRow, Desugar, ShowChain;
    RowLevels(COMPARING, t, x);
    RowLevels(COMPARING, u, y);
    var operands, ops := [Name(b), Name(c)], [x, y];
    Shown(a, ARITHMETIC);
    Shown(b, ARITHMETIC);
    Shown(c, ARITHMETIC);
    EndsClean();
    assert !Confusable(operands, ops);
    ChainReadsAll(Name(a), operands, ops, []);
    TwoShown(b, c, x, y);
    var ts := [Ident(a)] + t + [Ident(b)] + u + [Ident(c)];
    assert Show(Name(a), ARITHMETIC) + (ShowChain(operands, ops) + []) == ts;
    assert [Name(a)] + operands == [Name(a), Name(b), Name(c)];
    TwoDesugared(a, b, c, x, y);
    FromName(ts, a, COMPARISON);
    Wrap(0, COMPARISON, ts, Bin(And, Bin(x, Name(a), Name(b)), Bin(y, Name(b), Name(c))), []);
  }

  lemma EndsClean()
    ensures forall k: nat :: Clean(k, [])
  {
  }

  lemma TwoShown(b: string, c: string, x: BinOp, y: BinOp)
    ensures ShowChain([Name(b), Name(c)], [x, y]) == OpTokens(x) + [Ident(b)] + OpTokens(y) + [Ident(c)]
  {
    hide OpTokens;
    var operands, ops: seq<BinOp> := [Name(b), Name(c)], [x, y];
    assert operands[1..] == [Name(c)] && ops[1..] == [y] && [Name(c)][1..] == [] && [y][1..] == [];
    Shown(b, ARITHMETIC);
    Shown(c, ARITHMETIC);
    assert ShowChain([], []) == [];
    assert ShowChain([Name(c)], [y]) == OpTokens(y) + [Ident(c)] + [] == OpTokens(y) + [Ident(c)];
  }

  lemma TwoDesugared(a: string, b: string, c: string, x: BinOp, y: BinOp)
    ensures Desugar([Name(a), Name(b), Name(c)], [x, y]) == Bin(And, Bin(x, Name(a), Name(b)), Bin(y, Name(b), Name(c)))
  {
    var operands, ops := [Name(a), Name(b), Name(c)], [x, y];
    assert Clone(operands[1]) == Name(b);
    assert DesugarUpTo(1, operands, ops) == Bin(x, Name(a), Name(b));
  }

  lemma FromName(ts: seq<Token>, a: string, k: nat)
    requires ts != [] && ts[0] == Ident(a) && (|ts| >= 2 ==> ts[1] != Sym(Arrow) && ts[1] != Sym(ColonEq))
    ensures Plain(0, k, ts)
  {
  }

  /** An integer literal is read exactly if it fits 63 bits. */
  lemma NumberReads(n: nat)
    ensures Parse(0, [Int(n)]) == if n <= 0x7FFF_FFFF_FFFF_FFFF then Some((Num(n), [])) else None
  {
    hide Parse;
    if n <= 0x7FFF_FFFF_FFFF_FFFF {
      RoundTrips(Num(n));
      assert Show(Num(n), 0) == [Int(n)];
    } else {
      TooLarge(0, n);
    }
  }

  lemma {:induction false} TooLarge(k: nat, n: nat)
    requires k <= PRIMARY && n > 0x7FFF_FFFF_FFFF_FFFF
    ensures Parse(k, [Int(n)]) == None
    decreases PRIMARY - k
  {
    hide Loop, Chain, Postfix;
    if k < PRIMARY {
      TooLarge(k + 1, n);
    }
  }

  // ---- powers ----

  /** A power binds tighter than all of these, and to the right. */
  lemma PowerGroups(a: string, b: string, c: string, i: nat, t: seq<Token>, x: BinOp)
    requires InRow(i, t, x)
    ensures Parse(0, [Ident(a)] + t + [Ident(b), Sym(DoubleStar), Ident(c)]) == Some((Bin(x, Name(a), Bin(Power, Name(b), Name(c))), []))
    ensures Parse(0, [Ident(a), Sym(DoubleStar), Ident(b)] + t + [Ident(c)]) == Some((Bin(x, Bin(Power, Name(a), Name(b)), Name(c)), []))
    ensures Parse(0, [Ident(a), Sym(DoubleStar), Ident(b), Sym(DoubleStar), Ident(c)]) ==
            Some((Bin(Power, Name(a), Bin(Power, Name(b), Name(c))), []))
  {
    hide Parse, Show, OpTokens, OpLevel, InRow;
    RowLevels(i, t, x);
    PowerLevel();
    var power := Bin(Power, Name(b), Name(c));
    Shown(b, POSTFIX);
    Shown(c, 12);
    Shown(a, LeftLevel(x));
    ShownBin(Power, Name(b), Name(c), RightLevel(x));
    ShownBin(x, Name(a), power, 0);
    RoundTrips(Bin(x, Name(a), power));
    assert [Ident(a)] + t + ([Ident(b)] + [Sym(DoubleStar)] + [Ident(c)]) == [Ident(a)] + t + [Ident(b), Sym(DoubleStar), Ident(c)];

    var other := Bin(Power, Name(a), Name(b));
    Shown(a, POSTFIX);
    Shown(b, 12);
    Shown(c, RightLevel(x));
    ShownBin(Power, Name(a), Name(b), LeftLevel(x));
    ShownBin(x, other, Name(c), 0);
    RoundTrips(Bin(x, other, Name(c)));
    assert [Ident(a)] + [Sym(DoubleStar)] + [Ident(b)] == [Ident(a), Sym(DoubleStar), Ident(b)];

    ShownBin(Power, Name(b), Name(c), 12);
    ShownBin(Power, Name(a), power, 0);
    RoundTrips(Bin(Power, Name(a), power));
    assert [Ident(a)] + [Sym(DoubleStar)] + ([Ident(b)] + [Sym(DoubleStar)] + [Ident(c)]) ==
           [Ident(a), Sym(DoubleStar), Ident(b), Sym(DoubleStar), Ident(c)];
  }

  lemma PowerLevel()
    ensures OpLevel(Power) == 13 && LeftLevel(Power) == POSTFIX && RightLevel(Power) == 12 && OpTokens(Power) == [Sym(DoubleStar)]
    ensures forall op: BinOp :: !op.Power? ==> LeftLevel(op) <= 11 && RightLevel(op) <= 12
  {
  }

  // ---- prefixes ----

  /** The prefixes that bind tighter than the rows. */
  predicate Prefix(s: Symbol, p: UnOp) {
    (s == Minus && p == Neg) || (s == Tilde && p == BitNot) || (s == LeftArrow && p == Recv)
  }

  lemma ShownPrefix(s: Symbol, p: UnOp, e: Expr, k: nat)
    requires Prefix(s, p) && k <= 12
    ensures Show(Un(p, e), k) == [Sym(s)] + Show(e, 12)
  {
  }

  /** They come before any of those operators, on the left and on the right. */
  lemma PrefixGroups(a: string, b: string, i: nat, t: seq<Token>, x: BinOp, s: Symbol, p: UnOp)
    requires InRow(i, t, x) && Prefix(s, p)
    ensures Parse(0, [Sym(s), Ident(a)] + t + [Ident(b)]) == Some((Bin(x, Un(p, Name(a)), Name(b)), []))
    ensures Parse(0, [Ident(a)] + t + [Sym(s), Ident(b)]) == Some((Bin(x, Name(a), Un(p, Name(b))), []))
  {
    hide Parse, Show, OpTokens, OpLevel, InRow, Prefix;
    RowLevels(i, t, x);
    PowerLevel();
    Shown(a, 12);
    Shown(b, RightLevel(x));
    ShownPrefix(s, p, Name(a), LeftLevel(x));
    ShownBin(x, Un(p, Name(a)), Name(b), 0);
    RoundTrips(Bin(x, Un(p, Name(a)), Name(b)));
    assert [Sym(s)] + [Ident(a)] == [Sym(s), Ident(a)];

    Shown(b, 12);
    Shown(a, LeftLevel(x));
    ShownPrefix(s, p, Name(b), RightLevel(x));
    ShownBin(x, Name(a), Un(p, Name(b)), 0);
    RoundTrips(Bin(x, Name(a), Un(p, Name(b))));
    assert [Sym(s)] + [Ident(b)] == [Sym(s), Ident(b)];
  }

  /** They come after a power on their right, and before one on their left; two of them nest. */
  lemma PrefixPowers(a: string, b: string, s: Symbol, p: UnOp, r: Symbol, q: UnOp)
    requires Prefix(s, p) && Prefix(r, q)
    ensures Parse(0, [Sym(s), Ident(a), Sym(DoubleStar), Ident(b)]) == Some((Un(p, Bin(Power, Name(a), Name(b))), []))
    ensures Parse(0, [Ident(a), Sym(DoubleStar), Sym(s), Ident(b)]) == Some((Bin(Power, Name(a), Un(p, Name(b))), []))
    ensures Parse(0, [Sym(s), Sym(r), Ident(a)]) == Some((Un(p, Un(q, Name(a))), []))
  {
    hide Parse, Show, OpTokens, OpLevel, Prefix;
    PowerLevel();
    Shown(a, POSTFIX);
    Shown(a, 12);
    Shown(b, 12);
    ShownBin(Power, Name(a), Name(b), 12);
    ShownPrefix(s, p, Bin(Power, Name(a), Name(b)), 0);
    RoundTrips(Un(p, Bin(Power, Name(a), Name(b))));
    assert [Sym(s)] + ([Ident(a)] + [Sym(DoubleStar)] + [Ident(b)]) == [Sym(s), Ident(a), Sym(DoubleStar), Ident(b)];

    ShownPrefix(s, p, Name(b), 12);
    ShownBin(Power, Name(a), Un(p, Name(b)), 0);
    RoundTrips(Bin(Power, Name(a), Un(p, Name(b))));
    assert [Ident(a)] + [Sym(DoubleStar)] + ([Sym(s)] + [Ident(b)]) == [Ident(a), Sym(DoubleStar), Sym(s), Ident(b)];

    ShownPrefix(r, q, Name(a), 12);
    ShownPrefix(s, p, Un(q, Name(a)), 0);
    RoundTrips(Un(p, Un(q, Name(a))));
    assert [Sym(s)] + ([Sym(r)] + [Ident(a)]) == [Sym(s), Sym(r), Ident(a)];
  }

  lemma ShownNot(e: Expr, k: nat)
    requires k <= 4
    ensures Show(Un(Not, e), k) == [Sym(KwNot)] + Show(e, 4)
  {
  }

  /** A `not` comes before `??`, `or` and `and`, and after all others. */
  lemma NotGroups(a: string, b: string, i: nat, t: seq<Token>, x: BinOp)
    requires InRow(i, t, x)
    ensures Parse(0, [Sym(KwNot), Ident(a)] + t + [Ident(b)]) ==
            Some((if i < 3 then Bin(x, Un(Not, Name(a)), Name(b)) else Un(Not, Bin(x, Name(a), Name(b))), []))
    ensures i < 3 ==> Parse(0, [Ident(a)] + t + [Sym(KwNot), Ident(b)]) == Some((Bin(x, Name(a), Un(Not, Name(b))), []))
  {
    hide Parse, Show, OpTokens, OpLevel, InRow;
    RowLevels(i, t, x);
    PowerLevel();
    if i < 3 {
      Shown(a, 4);
      Shown(b, RightLevel(x));
      ShownNot(Name(a), LeftLevel(x));
      ShownBin(x, Un(Not, Name(a)), Name(b), 0);
      RoundTrips(Bin(x, Un(Not, Name(a)), Name(b)));
      assert [Sym(KwNot)] + [Ident(a)] == [Sym(KwNot), Ident(a)];

      Shown(b, 4);
      Shown(a, LeftLevel(x));
      ShownNot(Name(b), RightLevel(x));
      ShownBin(x, Name(a), Un(Not, Name(b)), 0);
      RoundTrips(Bin(x, Name(a), Un(Not, Name(b))));
      assert [Sym(KwNot)] + [Ident(b)] == [Sym(KwNot), Ident(b)];
    } else {
      Shown(a, LeftLevel(x));
      Shown(b, RightLevel(x));
      ShownBin(x, Name(a), Name(b), 4);
      ShownNot(Bin(x, Name(a), Name(b)), 0);
      RoundTrips(Un(Not, Bin(x, Name(a), Name(b))));
      assert [Sym(KwNot)] + ([Ident(a)] + t + [Ident(b)]) == [Sym(KwNot), Ident(a)] + t + [Ident(b)];
    }
  }

  // ---- what comes first of all, and last ----

  /** Members, calls and indexes belong to the name in front of them, from left to right; any
      prefix comes after them. */
  lemma PostfixGroups(a: string, m: string, b: string, c: string, s: Symbol, p: UnOp)
    requires Prefix(s, p)
    ensures Parse(0, [Ident(a), Sym(Dot), Ident(m), Sym(LParen), Ident(b), Sym(RParen), Sym(LBracket), Ident(c), Sym(RBracket)]) ==
            Some((Index(Call(Member(Name(a), m), [], [Name(b)]), Name(c)), []))
    ensures Parse(0, [Sym(s), Ident(a), Sym(Dot), Ident(m)]) == Some((Un(p, Member(Name(a), m)), []))
    ensures Parse(0, [Ident(a), Sym(DoubleStar), Ident(b), Sym(Dot), Ident(m)]) == Some((Bin(Power, Name(a), Member(Name(b), m)), []))
  {
    hide Parse, OpTokens, OpLevel, Prefix;
    PowerLevel();
    var call := Call(Member(Name(a), m), [], [Name(b)]);
    RoundTrips(Index(call, Name(c)));
    MemberShown(a, m);
    MemberShown(b, m);
    CallShown(a, m, b);
    Shown(c, 0);
    assert Show(Index(call, Name(c)), 0) ==
           [Ident(a), Sym(Dot), Ident(m), Sym(LParen), Ident(b), Sym(RParen), Sym(LBracket), Ident(c), Sym(RBracket)];
    hide Show;
    ShownPrefix(s, p, Member(Name(a), m), 0);
    RoundTrips(Un(p, Member(Name(a), m)));
    assert [Sym(s)] + [Ident(a), Sym(Dot), Ident(m)] == [Sym(s), Ident(a), Sym(Dot), Ident(m)];
    Shown(a, POSTFIX);
    ShownBin(Power, Name(a), Member(Name(b), m), 0);
    RoundTrips(Bin(Power, Name(a), Member(Name(b), m)));
    assert [Ident(a)] + [Sym(DoubleStar)] + [Ident(b), Sym(Dot), Ident(m)] == [Ident(a), Sym(DoubleStar), Ident(b), Sym(Dot), Ident(m)];
  }

  /** A star before an operand spreads a list, two stars a dict. */
  lemma StarsSpread(a: string)
    ensures Parse(0, [Sym(Star), Ident(a)]) == Some((Spread(Name(a)), [])) && Parse(0, [Sym(DoubleStar), Ident(a)]) == Some((DictSpread(Name(a)), []))
  {
    hide Parse;
    Shown(a, 12);
    RoundTrips(Spread(Name(a)));
    RoundTrips(DictSpread(Name(a)));
    assert Show(Spread(Name(a)), 0) == [Sym(Star)] + [Ident(a)] == [Sym(Star), Ident(a)];
    assert Show(DictSpread(Name(a)), 0) == [Sym(DoubleStar)] + [Ident(a)] == [Sym(DoubleStar), Ident(a)];
  }

  /** The keyword `init` may name a member. */
  lemma InitIsMember(a: string)
    ensures Parse(0, [Ident(a), Sym(Dot), Sym(KwInit)]) == Some((Member(Name(a), "init"), []))
  {
    hide Parse, Stops;
    var ts, after := [Ident(a), Sym(Dot), Sym(KwInit)], [Sym(Dot), Sym(KwInit)];
    AtomReads(Name(a), after);
    assert Body(Name(a)) + after == ts;
    assert after[1..] == [Sym(KwInit)] && after[2..] == [];
    assert Postfix(Member(Name(a), "init"), []) == Some((Member(Name(a), "init"), []));
    assert Postfix(Name(a), after) == Some((Member(Name(a), "init"), []));
    PostUnfolds(ts, Name(a), after);
    EndsClean();
    assert Clean(0, []);
    CleanStopsAt(0, []);
    FromName(ts, a, POSTFIX);
    Wrap(0, POSTFIX, ts, Member(Name(a), "init"), []);
  }

  lemma CleanStopsAt(k: nat, ts: seq<Token>)
    requires Clean(k, ts)
    ensures Stops(k, ts)
  {
  }

  lemma MemberShown(a: string, m: string)
    ensures forall k :: 0 <= k <= POSTFIX ==> Show(Member(Name(a), m), k) == [Ident(a), Sym(Dot), Ident(m)]
  {
    Shown(a, POSTFIX);
    assert [Ident(a)] + [Sym(Dot), Ident(m)] == [Ident(a), Sym(Dot), Ident(m)];
  }

  lemma CallShown(a: string, m: string, b: string)
    ensures Show(Call(Member(Name(a), m), [], [Name(b)]), POSTFIX) == [Ident(a), Sym(Dot), Ident(m), Sym(LParen), Ident(b), Sym(RParen)]
  {
    hide Show;
    var args := [Name(b)];
    MemberShown(a, m);
    Shown(b, ARITHMETIC);
    assert ShowItems(args) == [Ident(b)];
    CallShows(Member(Name(a), m), args);
  }

  lemma CallShows(f: Expr, args: seq<Expr>)
    ensures Show(Call(f, [], args), POSTFIX) == Show(f, POSTFIX) + [] + [Sym(LParen)] + ShowItems(args) + [Sym(RParen)]
  {
    assert ShowTypeArgs([]) == [];
  }

  /** A lambda and an assignment expression take all that follows. */
  lemma ArrowGroups(p: string, a: string, b: string, i: nat, t: seq<Token>, x: BinOp)
    requires InRow(i, t, x)
    ensures Parse(0, [Ident(p), Sym(Arrow), Ident(a)] + t + [Ident(b)]) == Some((Lambda(p, Bin(x, Name(a), Name(b))), []))
    ensures Parse(0, [Ident(p), Sym(ColonEq), Ident(a)] + t + [Ident(b)]) == Some((Walrus(p, Bin(x, Name(a), Name(b))), []))
  {
    hide Parse, OpTokens, OpLevel, InRow;
    RowLevels(i, t, x);
    var e := Bin(x, Name(a), Name(b));
    Shown(a, LeftLevel(x));
    Shown(b, RightLevel(x));
    ShownBin(x, Name(a), Name(b), 0);
    RoundTrips(Lambda(p, e));
    RoundTrips(Walrus(p, e));
    assert Show(Lambda(p, e), 0) == [Ident(p), Sym(Arrow)] + ([Ident(a)] + t + [Ident(b)]);
    assert Show(Walrus(p, e), 0) == [Ident(p), Sym(ColonEq)] + ([Ident(a)] + t + [Ident(b)]);
    assert [Ident(p), Sym(Arrow)] + ([Ident(a)] + t + [Ident(b)]) == [Ident(p), Sym(Arrow), Ident(a)] + t + [Ident(b)];
    assert [Ident(p), Sym(ColonEq)] + ([Ident(a)] + t + [Ident(b)]) == [Ident(p), Sym(ColonEq), Ident(a)] + t + [Ident(b)];
  }
}
