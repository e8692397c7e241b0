/** What the lexer promises of every source, faulty ones included: balanced indentation and
    few tokens. */
module LexingProof {
  import opened Wrappers
  import opened Lexing

  // ---- indentation is balanced ----

  // How much deeper the indentation is after the tokens.
  function Net(ts: seq<Token>): int {
    if ts == [] then 0
    else Net(ts[..|ts| - 1]) + (match ts[|ts| - 1] case Indent => 1 case Dedent => -1 case _ => 0)
  }

  lemma {:induction false} NetConcat(a: seq<Token>, b: seq<Token>)
    ensures Net(a + b) == Net(a) + Net(b)
    decreases |b|
  {
    if b == [] {
      assert a + b == a;
    } else {
      assert (a + b)[..|a + b| - 1] == a + b[..|b| - 1];
      NetConcat(a, b[..|b| - 1]);
    }
  }

  lemma {:induction false} NetDedents(n: nat)
    ensures Net(Dedents(n)) == 0 - n
    decreases n
  {
    if n > 0 {
      NetDedents(n - 1);
      assert Dedents(n)[..n - 1] == Dedents(n - 1);
    }
  }

  lemma {:induction false} DedentsPrefix(n: nat, k: nat)
    requires k <= n
    ensures Dedents(n)[..k] == Dedents(k)
    decreases n
  {
    if k < n {
      DedentsPrefix(n - 1, k);
    }
  }

  // At no point more levels are closed than `depth` and those opened before.
  ghost predicate NeverBelow(ts: seq<Token>, depth: nat) {
    forall k {:trigger ts[..k]} :: 0 <= k <= |ts| ==> Net(ts[..k]) + depth >= 0
  }

  lemma NeverBelowConcat(a: seq<Token>, b: seq<Token>, depth: nat, next: nat)
    requires NeverBelow(a, depth) && Net(a) + depth == next && NeverBelow(b, next)
    ensures NeverBelow(a + b, depth)
  {
    forall k | 0 <= k <= |a + b|
      ensures Net((a + b)[..k]) + depth >= 0
    {
      if k <= |a| {
        assert (a + b)[..k] == a[..k];
      } else {
        assert (a + b)[..k] == a + b[..k - |a|];
        NetConcat(a, b[..k - |a|]);
      }
    }
  }

  lemma OneToken(t: Token, depth: nat)
    requires !t.Indent? && !t.Dedent?
    ensures Net([t]) == 0 && NeverBelow([t], depth)
  {
    assert [t][..0] == [] && [t][..1] == [t];
  }

  lemma DedentsNet(n: nat, depth: nat)
    requires n <= depth
    ensures Net(Dedents(n)) == 0 - n && NeverBelow(Dedents(n), depth)
  {
    hide Net;
    NetDedents(n);
    forall k | 0 <= k <= n
      ensures Net(Dedents(n)[..k]) + depth >= 0
    {
      DedentsPrefix(n, k);
      NetDedents(k);
    }
  }

  /** The indentation tokens of a line lead from the old open levels to the new ones. */
  lemma IndentationNet(stack: seq<nat>, tabs: nat)
    requires Levels(stack)
    ensures var (ts, open) := Indentation(stack, tabs); Net(ts) == |open| - |stack| && NeverBelow(ts, |stack| - 1)
  {
    hide Net, NeverBelow, Popped, Dedents;
    var (ts, open) := Indentation(stack, tabs);
    if tabs > stack[|stack| - 1] {
      IndentNet(|stack| - 1);
    } else {
      var n := |stack| - |open|;
      DedentsNet(n, |stack| - 1);
      OneToken(Error, |open| - 1);
      Combine(Dedents(n), [Error], |stack| - 1, |open| - 1);
      assert Dedents(n) + [] == Dedents(n);
    }
  }

  lemma IndentNet(depth: nat)
    ensures Net([Indent]) == 1 && NeverBelow([Indent], depth)
  {
    assert [Indent][..0] == [] && [Indent][..1] == [Indent];
  }

  lemma FlushNet(depth: nat)
    ensures var ts := Dedents(depth) + [Eof]; Net(ts) == 0 - depth && NeverBelow(ts, depth)
  {
    hide Net, NeverBelow;
    DedentsNet(depth, depth);
    OneToken(Eof, 0);
    Combine(Dedents(depth), [Eof], depth, 0);
  }

  /** Every level that is opened is closed once, and none is closed before it is opened. */
  lemma {:induction false} LexBalanced(s: string, atLineStart: bool, stack: seq<nat>, last: Option<Token>)
    requires Levels(stack)
    ensures var ts := Lex(s, atLineStart, stack, last); Net(ts) == 1 - |stack| && NeverBelow(ts, |stack| - 1)
    decreases |s|, atLineStart
  {
    hide LexToken, Comment, Tabs, Indentation, Net, NeverBelow, SkipLine;
    if s == "" {
      FlushNet(|stack| - 1);
    } else if atLineStart {
      var n := Tabs(s);
      if At(s, n, ' ') {
        TokenThen(Error, SkipLine(s[n + 1..]), stack);
      } else if SkipsIndentation(s[n..]) {
        LexBalanced(s[n..], false, stack, last);
      } else {
        var (ts, open) := Indentation(stack, n);
        IndentationNet(stack, n);
        LexBalanced(s[n..], false, open, Latest(last, ts));
        Combine(ts, Lex(s[n..], false, open, Latest(last, ts)), |stack| - 1, |open| - 1);
      }
    } else if s[0] == ' ' || s[0] == '\t' || s[0] == '\r' {
      LexBalanced(s[1..], false, stack, last);
    } else if s[0] == '\n' {
      var ts := if last.Some? && !Layout(last.value) then [Newline] else [];
      LexBalanced(s[1..], true, stack, Latest(last, ts));
      var more := Lex(s[1..], true, stack, Latest(last, ts));
      if ts == [] {
        assert [] + more == more;
      } else {
        OneToken(Newline, |stack| - 1);
        Combine(ts, more, |stack| - 1, |stack| - 1);
      }
    } else if s[0] == '#' {
      if Comment(s).Got? {
        LexBalanced(Comment(s).rest, false, stack, last);
      } else {
        TokenThen(Error, Comment(s).rest, stack);
      }
    } else {
      TokenThen(if LexToken(s).Got? then LexToken(s).value else Error, LexToken(s).rest, stack);
    }
  }

  // A token that is no indentation, before the tokens of a shorter rest.
  lemma {:induction false} TokenThen(t: Token, rest: string, stack: seq<nat>)
    requires Levels(stack) && !Layout(t)
    ensures var ts := [t] + Lex(rest, false, stack, Some(t)); Net(ts) == 1 - |stack| && NeverBelow(ts, |stack| - 1)
    decreases |rest|, true
  {
    hide Lex;
    LexBalanced(rest, false, stack, Some(t));
    OneToken(t, |stack| - 1);
    Combine([t], Lex(rest, false, stack, Some(t)), |stack| - 1, |stack| - 1);
  }

  lemma Combine(a: seq<Token>, b: seq<Token>, depth: nat, next: nat)
    requires Net(a) + depth == next && NeverBelow(a, depth) && NeverBelow(b, next)
    ensures Net(a + b) == Net(a) + Net(b) && NeverBelow(a + b, depth)
  {
    NetConcat(a, b);
    NeverBelowConcat(a, b, depth, next);
  }

  /** Also where errors are recovered from, indents and dedents are well nested. */
  lemma ScanBalanced(source: string)
    ensures Net(Scan(source)) == 0
    ensures forall k {:trigger Scan(source)[..k]} :: 0 <= k <= |Scan(source)| ==> Net(Scan(source)[..k]) >= 0
  {
    hide Lex;
    LexBalanced(source, true, [0], None);
  }

  // ---- few tokens ----

  /** At most two tokens for each byte, and those that end the levels still open: a byte pays
      for one token read off it or left by an error, and a tab that opens a level also for
      closing it. */
  lemma {:induction false} LexBounded(s: string, atLineStart: bool, stack: seq<nat>, last: Option<Token>)
    requires Levels(stack)
    ensures |Lex(s, atLineStart, stack, last)| <= 2 * |s| + |stack|
    decreases |s|, atLineStart
  {
    hide LexToken, Comment, SkipLine, Popped;
    if s == "" {
    } else if atLineStart {
      var n := Tabs(s);
      if At(s, n, ' ') {
        LexBounded(SkipLine(s[n + 1..]), false, stack, Some(Error));
      } else if SkipsIndentation(s[n..]) {
        LexBounded(s[n..], false, stack, last);
      } else {
        var (ts, open) := Indentation(stack, n);
        Charged(stack, n);
        LexBounded(s[n..], false, open, Latest(last, ts));
      }
    } else if s[0] == ' ' || s[0] == '\t' || s[0] == '\r' {
      LexBounded(s[1..], false, stack, last);
    } else if s[0] == '\n' {
      var ts := if last.Some? && !Layout(last.value) then [Newline] else [];
      LexBounded(s[1..], true, stack, Latest(last, ts));
    } else if s[0] == '#' {
      LexBounded(Comment(s).rest, false, stack, if Comment(s).Got? then last else Some(Error));
    } else {
      var t := if LexToken(s).Got? then LexToken(s).value else Error;
      LexBounded(LexToken(s).rest, false, stack, Some(t));
    }
  }

  // The tokens a line starts with: an indent and an error each come with a tab.
  lemma Charged(stack: seq<nat>, tabs: nat)
    requires Levels(stack)
    ensures var (ts, open) := Indentation(stack, tabs); |ts| + |open| <= |stack| + 2 * tabs
  {
    var open := Popped(stack, tabs);
    if tabs <= stack[|stack| - 1] && tabs != open[|open| - 1] {
      assert open[0] == 0 && stack[0] == 0;
    }
  }

  lemma ScanBounded(source: string)
    ensures |Scan(source)| <= 2 * |source| + 1
  {
    hide Lex;
    LexBounded(source, true, [0], None);
  }
}
