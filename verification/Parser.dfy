/** The recursive-descent parser as it works: a position in the token sequence that moves
    forward, and back again where a guess turns out wrong. */
module Parser {
  import opened Wrappers
  import opened Syntax
  import S = Parsing

  class ExprParser {
    const tokens: seq<Token>
    var pos: nat

    constructor (tokens: seq<Token>)
      ensures this.tokens == tokens && pos == 0
    {
      this.tokens := tokens;
      pos := 0;
    }

    predicate Valid()
      reads this
    {
      pos <= |tokens|
    }

    // The tokens that are left.
    ghost function Rest(): seq<Token>
      requires Valid()
      reads this
    {
      tokens[pos..]
    }

    // The method read what the specification reads from the tokens `was`.
    ghost predicate Agrees(r: Option<Expr>, spec: Option<(Expr, seq<Token>)>)
      reads this
    {
      Valid() && (if r.Some? then spec == Some((r.value, Rest())) else spec.None?)
    }

    predicate Check(s: Symbol)
      requires Valid()
      reads this
      ensures Check(s) == S.Next(Rest(), s)
    {
      pos < |tokens| && tokens[pos] == Sym(s)
    }

    predicate CheckAt(i: nat, s: Symbol)
      requires Valid()
      reads this
    {
      pos + i < |tokens| && tokens[pos + i] == Sym(s)
    }

    predicate CheckIdent()
      requires Valid()
      reads this
    {
      pos < |tokens| && tokens[pos].Ident?
    }

    method Match(s: Symbol) returns (found: bool)
      requires Valid()
      modifies this
      ensures Valid() && found == S.Next(old(Rest()), s) && Rest() == if found then old(Rest())[1..] else old(Rest())
      ensures pos == old(pos) + if found then 1 else 0
    {
      found := Check(s);
      if found {
        pos := pos + 1;
      }
    }

    /** Consumes the operator of level `k` that comes next, if there is one. */
    method MatchOp(k: nat) returns (op: Option<BinOp>)
      requires Valid()
      modifies this
      ensures Valid() && match S.OpAt(k, old(Rest()))
                         case None => op == None && pos == old(pos)
                         case Some((o, after)) => op == Some(o) && Rest() == after && pos > old(pos)
    {
      op := None;
      if pos < |tokens| && tokens[pos].Sym? {
        var o := OpOf(tokens[pos].s);
        if o.Some? && OpLevel(o.value) == k {
          op := o;
          pos := pos + 1;
          return;
        }
      }
      if k == COMPARISON && Check(KwNot) && CheckAt(1, KwIn) {
        op := Some(NotIn);
        pos := pos + 2;
      }
    }

    method ParseLevel(k: nat) returns (r: Option<Expr>)
      requires k <= PRIMARY && Valid()
      modifies this
      ensures Agrees(r, S.Parse(k, old(Rest()))) && (r.Some? ==> pos > old(pos))
      decreases |tokens| - pos, 20 - k, 0
    {
      hide S.ParsePrimary, S.ParseExpression, S.Postfix, S.Loop, S.Chain;
      if k == 0 {
        r := ParseExpression();
      } else if k == 4 {
        r := ParseNot();
      } else if k == COMPARISON {
        r := ParseComparison();
      } else if k == 12 {
        r := ParseUnary();
      } else if k == 13 {
        r := ParsePower();
      } else if k == POSTFIX {
        r := ParsePostfix();
      } else if k == PRIMARY {
        r := ParsePrimary();
      } else {
        r := ParseLeft(k);
      }
    }

    /** Looks one token ahead for a lambda or an assignment, and goes back if there is none. */
    method ParseExpression() returns (r: Option<Expr>)
      requires Valid()
      modifies this
      ensures Agrees(r, S.ParseExpression(old(Rest()))) && (r.Some? ==> pos > old(pos))
      decreases |tokens| - pos, 19, 1
    {
      hide S.Parse;
      if CheckIdent() {
        var saved, name := pos, tokens[pos].name;
        pos := pos + 1;
        var arrow := Match(Arrow);
        if arrow {
          assert Rest() == old(Rest())[2..];
          var body := ParseLevel(0);
          return if body.Some? then Some(Lambda(name, body.value)) else None;
        }
        var walrus := Match(ColonEq);
        if walrus {
          assert Rest() == old(Rest())[2..];
          var value := ParseLevel(0);
          return if value.Some? then Some(Walrus(name, value.value)) else None;
        }
        pos := saved;
      }
      r := ParseLevel(1);
    }

    method ParseNot() returns (r: Option<Expr>)
      requires Valid()
      modifies this
      ensures Agrees(r, S.Parse(4, old(Rest()))) && (r.Some? ==> pos > old(pos))
      decreases |tokens| - pos, 15, 1
    {
      var found := Match(KwNot);
      if found {
        var e := ParseLevel(4);
        return if e.Some? then Some(Un(Not, e.value)) else None;
      }
      r := ParseLevel(5);
    }

    method ParseLeft(k: nat) returns (r: Option<Expr>)
      requires LeftAssoc(k) && Valid()
      modifies this
      ensures Agrees(r, S.Parse(k, old(Rest()))) && (r.Some? ==> pos > old(pos))
      decreases |tokens| - pos, 19 - k, 1
    {
      hide S.OpAt;
      r := ParseLevel(k + 1);
      if r.None? {
        return;
      }
      var more := true;
      while more
        invariant Valid() && pos > old(pos) && r.Some?
        invariant S.Parse(k, old(Rest())) == S.Loop(k, r.value, Rest())
        invariant !more ==> S.OpAt(k, Rest()).None?
        decreases |tokens| - pos, more
      {
        var op := MatchOp(k);
        if op.None? {
          more := false;
        } else {
          var right := ParseLevel(k + 1);
          if right.None? {
            return None;
          }
          r := Some(Bin(op.value, r.value, right.value));
        }
      }
    }

    /** Collects operands and operators, then builds the conjunction. */
    method ParseComparison() returns (r: Option<Expr>)
      requires Valid()
      modifies this
      ensures Agrees(r, S.Parse(COMPARISON, old(Rest()))) && (r.Some? ==> pos > old(pos))
      decreases |tokens| - pos, 10, 1
    {
      hide S.OpAt, S.Desugar;
      var first := ParseLevel(ARITHMETIC);
      if first.None? {
        return None;
      }
      var operands, ops: seq<BinOp>, more := [first.value], [], true;
      while more
        invariant Valid() && pos > old(pos) && |operands| == |ops| + 1
        invariant S.Parse(COMPARISON, old(Rest())) == S.Chain(operands, ops, Rest())
        invariant !more ==> S.OpAt(COMPARISON, Rest()).None?
        decreases |tokens| - pos, more
      {
        var op := MatchOp(COMPARISON);
        if op.None? {
          more := false;
        } else {
          var right := ParseLevel(ARITHMETIC);
          if right.None? {
            return None;
          }
          operands, ops := operands + [right.value], ops + [op.value];
        }
      }
      var e := BuildChain(operands, ops);
      r := Some(e);
    }

    static method BuildChain(operands: seq<Expr>, ops: seq<BinOp>) returns (e: Expr)
      requires |operands| == |ops| + 1
      ensures e == S.Desugar(operands, ops)
    {
      if ops == [] {
        return operands[0];
      }
      if |ops| == 1 {
        return Bin(ops[0], operands[0], operands[1]);
      }
      e := Bin(ops[0], operands[0], S.Clone(operands[1]));
      var i := 1;
      while i < |ops|
        invariant 1 <= i <= |ops| && e == S.DesugarUpTo(i, operands, ops)
      {
        var right := if i + 1 < |ops| then S.Clone(operands[i + 1]) else operands[i + 1];
        e := Bin(And, e, Bin(ops[i], operands[i], right));
        i := i + 1;
      }
    }

    method ParseUnary() returns (r: Option<Expr>)
      requires Valid()
      modifies this
      ensures Agrees(r, S.Parse(12, old(Rest()))) && (r.Some? ==> pos > old(pos))
      decreases |tokens| - pos, 7, 1
    {
      if pos < |tokens| {
        var op := S.PrefixOf(tokens[pos]);
        if op.Some? {
          pos := pos + 1;
          assert Rest() == old(Rest())[1..];
          var e := ParseLevel(12);
          return if e.Some? then Some(Un(op.value, e.value)) else None;
        }
      }
      r := ParseLevel(13);
    }

    method ParsePower() returns (r: Option<Expr>)
      requires Valid()
      modifies this
      ensures Agrees(r, S.Parse(13, old(Rest()))) && (r.Some? ==> pos > old(pos))
      decreases |tokens| - pos, 6, 1
    {
      hide S.Postfix;
      r := ParseLevel(POSTFIX);
      if r.None? {
        return;
      }
      var found := Match(DoubleStar);
      if found {
        var e := ParseLevel(12);
        r := if e.Some? then Some(Bin(Power, r.value, e.value)) else None;
      }
    }

    method ParsePostfix() returns (r: Option<Expr>)
      requires Valid()
      modifies this
      ensures Agrees(r, S.Parse(POSTFIX, old(Rest()))) && (r.Some? ==> pos > old(pos))
      decreases |tokens| - pos, 5, 1
    {
      hide S.ParsePrimary, S.Postfix;
      r := ParseLevel(PRIMARY);
      if r.None? {
        return;
      }
      var more := true;
      while more
        invariant Valid() && pos > old(pos) && r.Some?
        invariant more ==> S.Parse(POSTFIX, old(Rest())) == S.Postfix(r.value, Rest())
        invariant !more ==> S.Parse(POSTFIX, old(Rest())) == Some((r.value, Rest()))
        decreases |tokens| - pos, more
      {
        r, more := PostfixStep(r.value);
        if r.None? {
          return;
        }
      }
    }

    /** One call, member or index; `more` is false if none comes next. */
    method PostfixStep(e: Expr) returns (r: Option<Expr>, more: bool)
      requires Valid()
      modifies this
      ensures Valid() && (r.None? ==> S.Postfix(e, old(Rest())).None?)
      ensures r.Some? && more ==> pos > old(pos) && S.Postfix(e, old(Rest())) == S.Postfix(r.value, Rest())
      ensures r.Some? && !more ==> pos == old(pos) && S.Postfix(e, old(Rest())) == Some((r.value, Rest()))
      decreases |tokens| - pos, 20, 1
    {
      hide S.Parse, S.Arguments, S.TypeArgsAt;
      more := true;
      if Check(LParen) {
        pos := pos + 1;
        var args := ParseArguments();
        return if args.Some? then Some(Call(e, [], args.value)) else None, true;
      } else if Check(Dot) {
        pos := pos + 1;
        if Check(KwInit) {
          pos := pos + 1;
          return Some(Member(e, "init")), true;
        } else if CheckIdent() {
          pos := pos + 1;
          return Some(Member(e, tokens[pos - 1].name)), true;
        }
        return None, true;
      } else if Check(Less) {
        var names := MatchTypeArgs();
        if names.None? {
          return Some(e), false;
        }
        var args := ParseArguments();
        return if args.Some? then Some(Call(e, names.value, args.value)) else None, true;
      } else if Check(LBracket) {
        pos := pos + 1;
        if Check(RBracket) {
          return None, true;
        }
        var i := ParseLevel(0);
        if i.None? {
          return None, true;
        }
        var found := Match(RBracket);
        return if found then Some(Index(e, i.value)) else None, true;
      }
      return Some(e), false;
    }

    /** `<T1, T2>(`, or the position stays. */
    method MatchTypeArgs() returns (names: Option<seq<string>>)
      requires Valid()
      modifies this
      ensures Valid() && match S.TypeArgsAt(old(Rest()))
                         case None => names == None && pos == old(pos)
                         case Some((ns, after)) => names == Some(ns) && Rest() == after && pos > old(pos)
    {
      var saved := pos;
      names := None;
      var less := Match(Less);
      if !less || !CheckIdent() {
        pos := saved;
        return;
      }
      var ns := [tokens[pos].name];
      pos := pos + 1;
      assert Rest() == old(Rest())[2..];
      while Check(Comma) && pos + 1 < |tokens| && tokens[pos + 1].Ident?
        invariant Valid() && saved < pos && S.TypeArgsAt(old(Rest())) == S.MoreTypeArgsAt(ns, Rest())
      {
        ns := ns + [tokens[pos + 1].name];
        pos := pos + 2;
      }
      if Check(More) && CheckAt(1, LParen) {
        pos := pos + 2;
        names := Some(ns);
      } else {
        pos := saved;
      }
    }

    method ParseArguments() returns (r: Option<seq<Expr>>)
      requires Valid()
      modifies this
      ensures Valid() && if r.Some? then S.Arguments(old(Rest())) == Some((r.value, Rest())) && pos > old(pos)
                         else S.Arguments(old(Rest())).None?
      decreases |tokens| - pos, 22, 0
    {
      hide S.Items;
      var empty := Match(RParen);
      if empty {
        return Some([]);
      }
      r := ParseItems([]);
      if r.Some? {
        var found := Match(RParen);
        if !found {
          r := None;
        }
      }
    }

    method ParseItems(before: seq<Expr>) returns (r: Option<seq<Expr>>)
      requires Valid()
      modifies this
      ensures Valid() && if r.Some? then S.Items(before, old(Rest())) == Some((r.value, Rest())) && pos > old(pos)
                         else S.Items(before, old(Rest())).None?
      decreases |tokens| - pos, 21, 0
    {
      hide S.Parse;
      var es, more := before, true;
      while more
        invariant Valid() && pos >= old(pos)
        invariant more ==> S.Items(before, old(Rest())) == S.Items(es, Rest())
        invariant !more ==> pos > old(pos) && S.Items(before, old(Rest())) == Some((es, Rest()))
        decreases |tokens| - pos, more
      {
        var e := ParseLevel(0);
        if e.None? {
          return None;
        }
        es := es + [e.value];
        more := Match(Comma);
      }
      r := Some(es);
    }

    method ParseListItems() returns (r: Option<seq<Expr>>)
      requires Valid()
      modifies this
      ensures Valid() && if r.Some? then S.ListItems([], old(Rest())) == Some((r.value, Rest())) && pos > old(pos)
                         else S.ListItems([], old(Rest())).None?
      decreases |tokens| - pos, 21, 0
    {
      hide S.Parse;
      var es: seq<Expr>, more := [], true;
      while more
        invariant Valid() && pos >= old(pos)
        invariant more ==> S.ListItems([], old(Rest())) == S.ListItems(es, Rest())
        invariant !more ==> pos > old(pos) && S.ListItems([], old(Rest())) == Some((es, Rest()))
        decreases |tokens| - pos, more
      {
        var e := ParseLevel(0);
        if e.None? {
          return None;
        }
        es := es + [e.value];
        more := Match(Comma);
        if more && Check(RBracket) {
          more := false;
        }
      }
      r := Some(es);
    }

    method ParsePrimary() returns (r: Option<Expr>)
      requires Valid()
      modifies this
      ensures Agrees(r, S.ParsePrimary(old(Rest()))) && (r.Some? ==> pos > old(pos))
      decreases |tokens| - pos, 4, 0
    {
      hide S.Parse, S.ParseParen, S.ListItems;
      if pos == |tokens| {
        return None;
      }
      var t := tokens[pos];
      pos := pos + 1;
      assert Rest() == old(Rest())[1..];
      match t
      case Int(n) => r := if n <= MAX_LITERAL then Some(Num(n)) else None;
      case Ident(x) => r := Some(Name(x));
      case Sym(Star) =>
        var e := ParseLevel(12);
        r := if e.Some? then Some(Spread(e.value)) else None;
      case Sym(DoubleStar) =>
        var e := ParseLevel(12);
        r := if e.Some? then Some(DictSpread(e.value)) else None;
      case Sym(LParen) => r := ParseParen();
      case Sym(LBracket) =>
        var empty := Match(RBracket);
        if empty {
          return Some(List([]));
        }
        var es := ParseListItems();
        if es.None? {
          return None;
        }
        var found := Match(RBracket);
        r := if found then Some(List(es.value)) else None;
      case _ => r := None;
    }

    method ParseParen() returns (r: Option<Expr>)
      requires Valid()
      modifies this
      ensures Agrees(r, S.ParseParen(old(Rest()))) && (r.Some? ==> pos > old(pos))
      decreases |tokens| - pos, 22, 0
    {
      hide S.Parse, S.Items;
      var empty := Match(RParen);
      if empty {
        return Some(Tuple([]));
      }
      var first := ParseLevel(0);
      if first.None? {
        return None;
      }
      var comma := Match(Comma);
      if !comma {
        var close := Match(RParen);
        return if close then first else None;
      }
      var single := Match(RParen);
      if single {
        return Some(Tuple([first.value]));
      }
      var es := ParseItems([first.value]);
      if es.None? {
        return None;
      }
      var close := Match(RParen);
      r := if close then Some(Tuple(es.value)) else None;
    }
  }
}
