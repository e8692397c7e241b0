/** The operators of the language, and that the lexer reads the longest one. */
module Operators {
  import opened Wrappers
  import opened Lexing
  import opened Escapes

  /** All operators that begin with a character. */
  function Beginning(c: char): seq<string> {
    match c
    case '+' => ["+", "+="]
    case '-' => ["-", "-=", "->"]
    case '*' => ["*", "*=", "**", "**="]
    case '/' => ["/", "/=", "//", "//="]
    case '%' => ["%", "%="]
    case '=' => ["=", "=="]
    case '!' => ["!="]
    case '<' => ["<", "<=", "<<", "<<=", "<-"]
    case '>' => [">", ">=", ">>", ">>="]
    case '&' => ["&", "&="]
    case '|' => ["|", "|="]
    case '^' => ["^", "^="]
    case ':' => [":", ":="]
    case '.' => [".", "..."]
    case '?' => ["?", "??"]
    case '(' => ["("]
    case ')' => [")"]
    case '[' => ["["]
    case ']' => ["]"]
    case '{' => ["{"]
    case '}' => ["}"]
    case ',' => [","]
    case '~' => ["~"]
    case '@' => ["@"]
    case _ => []
  }

  /** One of the operators the text starts with, and the longest of them. */
  predicate Longest(s: string, o: string, all: seq<string>) {
    o in all && o <= s && forall p :: p in all && p <= s ==> |p| <= |o|
  }

  // At most three characters, one by one.
  predicate Matches(s: string, o: string) {
    0 < |o| <= 3 && |o| <= |s| && s[0] == o[0] && (|o| > 1 ==> s[1] == o[1]) && (|o| > 2 ==> s[2] == o[2])
  }

  lemma MatchesIff(s: string, o: string)
    requires 0 < |o| <= 3
    ensures o <= s <==> Matches(s, o)
  {
    if Matches(s, o) {
      assert forall i :: 0 <= i < |o| ==> o[i] == s[i];
      assert s[..|o|] == o;
    }
  }

  lemma AllShort(c: char)
    ensures forall o :: o in Beginning(c) ==> 0 < |o| <= 3 && o[0] == c
  {
  }

  // The operator at place `k` is the longest one that matches.
  predicate LongestAt(s: string, all: seq<string>, k: nat) {
    k < |all| && Matches(s, all[k]) && forall j :: 0 <= j < |all| && Matches(s, all[j]) ==> |all[j]| <= |all[k]|
  }

  // The place in the table of the operator of this length.
  function Place(s: string, n: nat): nat {
    if n == 1 || At(s, 0, '!') then 0
    else if n == 3 then if At(s, 0, '.') then 1 else 3
    else if At(s, 1, '=') || At(s, 0, '?') then 1
    else if At(s, 1, '-') then 4 else 2
  }

  ghost predicate Agrees(s: string)
    requires s != ""
  {
    var all := Beginning(s[0]);
    if OpLength(s) > 0 then exists k :: 0 <= k < |all| && LongestAt(s, all, k) && |all[k]| == OpLength(s)
    else forall k :: 0 <= k < |all| ==> !Matches(s, all[k])
  }

  lemma StarSlash(s: string)
    requires s != "" && (s[0] == '*' || s[0] == '/')
    ensures Agrees(s)
  {
    var all, n := Beginning(s[0]), OpLength(s);
    if n > 0 {
      assert LongestAt(s, all, Place(s, n)) && |all[Place(s, n)]| == n;
    }
  }

  lemma LessThan(s: string)
    requires s != "" && s[0] == '<'
    ensures Agrees(s)
  {
    var all, n := Beginning(s[0]), OpLength(s);
    if n > 0 {
      assert LongestAt(s, all, Place(s, n)) && |all[Place(s, n)]| == n;
    }
  }

  lemma GreaterThan(s: string)
    requires s != "" && s[0] == '>'
    ensures Agrees(s)
  {
    var all, n := Beginning(s[0]), OpLength(s);
    if n > 0 {
      assert LongestAt(s, all, Place(s, n)) && |all[Place(s, n)]| == n;
    }
  }

  lemma MinusBang(s: string)
    requires s != "" && (s[0] == '-' || s[0] == '!' || s[0] == '.' || s[0] == '?')
    ensures Agrees(s)
  {
    var all, n := Beginning(s[0]), OpLength(s);
    if n > 0 {
      assert LongestAt(s, all, Place(s, n)) && |all[Place(s, n)]| == n;
    }
  }

  lemma WithEquals(s: string)
    requires s != "" && (s[0] == '+' || s[0] == '%' || s[0] == '=' || s[0] == '&' || s[0] == '|' || s[0] == '^' || s[0] == ':')
    ensures Agrees(s)
  {
    var all, n := Beginning(s[0]), OpLength(s);
    if n > 0 {
      assert LongestAt(s, all, Place(s, n)) && |all[Place(s, n)]| == n;
    }
  }

  lemma OneCharacter(s: string)
    requires s != "" && s[0] !in "*/<>-!.?+%=&|^:"
    ensures Agrees(s)
  {
    NotAmong(s[0]);
    var all, n := Beginning(s[0]), OpLength(s);
    if n > 0 {
      assert LongestAt(s, all, Place(s, n)) && |all[Place(s, n)]| == n;
    }
  }

  lemma NotAmong(c: char)
    requires c !in "*/<>-!.?+%=&|^:"
    ensures c != '*' && c != '/' && c != '<' && c != '>' && c != '-' && c != '!' && c != '.' && c != '?'
    ensures c != '+' && c != '%' && c != '=' && c != '&' && c != '|' && c != '^' && c != ':'
  {
    var t := "*/<>-!.?+%=&|^:";
    assert t[0] != c && t[1] != c && t[2] != c && t[3] != c && t[4] != c && t[5] != c && t[6] != c && t[7] != c;
    assert t[8] != c && t[9] != c && t[10] != c && t[11] != c && t[12] != c && t[13] != c && t[14] != c;
  }

  lemma LongestMatch(s: string)
    requires s != ""
    ensures Agrees(s)
  {
    hide Agrees;
    var c := s[0];
    if c == '*' || c == '/' {
      StarSlash(s);
    } else if c == '<' {
      LessThan(s);
    } else if c == '>' {
      GreaterThan(s);
    } else if c == '-' || c == '!' || c == '.' || c == '?' {
      MinusBang(s);
    } else if c in "+%=&|^:" {
      WithEquals(s);
    } else {
      OneCharacter(s);
    }
  }

  /** The lexer takes the longest operator, and none exactly if the text starts with none. */
  lemma LongestRead(s: string)
    requires s != ""
    ensures var all := Beginning(s[0]);
            if OpLength(s) > 0 then Longest(s, s[..OpLength(s)], all) else forall o :: o in all ==> !(o <= s)
  {
    hide OpLength, Beginning, Matches;
    var all, n := Beginning(s[0]), OpLength(s);
    AllShort(s[0]);
    forall o | o in all
      ensures o <= s <==> Matches(s, o)
    {
      MatchesIff(s, o);
    }
    LongestMatch(s);
    if n > 0 {
      var k :| 0 <= k < |all| && LongestAt(s, all, k) && |all[k]| == n;
      assert all[k] in all && s[..n] == all[k];
      forall p | p in all && p <= s
        ensures |p| <= n
      {
        var j :| 0 <= j < |all| && all[j] == p;
      }
    }
  }

  // ---- characters that begin nothing ----

  // No blank, line end, number sign, quote, letter or digit.
  predicate Strange(c: char) {
    !WordStart(c) && !IsDigit(c) && c != '"' && c != '\'' && c != '#' && c != ' ' && c != '\t' && c != '\r' && c != '\n'
  }

  /** A character that begins no operator leaves a token of its own, and the lexer does not fail. */
  lemma UnexpectedPasses(c: char)
    requires Strange(c) && (Beginning(c) == [] || c == '!')
    ensures Tokenize([c]) == Some([Bad(c), Eof])
  {
    hide OpLength, LexString, LexFString, LexNumber, WordEnd, Comment, Beginning;
    var s := [c];
    NoneAlone(c);
    assert s[1..] == "" && Dedents(0) == [];
    assert LexToken(s) == Got(Bad(c), "");
    assert Lex("", false, [0], Some(Bad(c))) == [Eof];
    assert Lex(s, false, [0], None) == [Bad(c)] + [Eof] == [Bad(c), Eof];
    assert Tabs(s) == 0 && s[0..] == s && Levels([0]);
    FlatLine();
    assert [] + [Bad(c), Eof] == [Bad(c), Eof];
    assert Scan(s) == [Bad(c), Eof];
  }

  lemma NoneAlone(c: char)
    requires Strange(c) && (Beginning(c) == [] || c == '!')
    ensures OpLength([c]) == 0
  {
    if c != '!' {
      hide OpLength;
      LongestRead([c]);
    }
  }

  lemma FlatLine()
    ensures Levels([0]) && Indentation([0], 0) == ([], [0])
  {
    assert Popped([0], 0) == [0] && Dedents(0) == [] && Dedents(0) + [] == [];
  }

  /** A literal that is not closed makes it fail. */
  lemma UnclosedFails(v: string, quote: char)
    requires Quiet(v, quote) && (quote as int == 34 || quote as int == 39)
    ensures Tokenize([quote] + v) == None
  {
    hide OpLength, LexString, LexFString, LexNumber, WordEnd, Comment, Quiet;
    var s := [quote] + v;
    Unterminated(v, quote, "");
    assert s[1..] == v && Tabs(s) == 0 && s[0..] == s && Levels([0]);
    assert LexToken(s) == Stuck("");
    assert Lex(s, false, [0], None)[0] == Error;
    FlatLine();
    assert Lex(s, true, [0], None) == [] + Lex(s, false, [0], None);
    assert Scan(s)[0] == Error;
  }
}
