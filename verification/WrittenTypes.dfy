/** Types as a program writes them: names, unions with bars and function types with arrows. */
module WrittenTypes {
  import opened Wrappers
  import opened Types
  import opened TypeNames
  import opened TypeCuts
  import opened TypeNamesProof

  const NOTHING := Scope({}, {})

  /** Names and what they stand for where nothing else has the name. */
  lemma NamesStandFor()
    ensures Resolve("int", NOTHING) == IntT && Resolve("float", NOTHING) == FloatT && Resolve("str", NOTHING) == StrT
    ensures Resolve("bool", NOTHING) == BoolT && Resolve("void", NOTHING) == VoidT && Resolve("null", NOTHING) == NullT
  {
    hide Resolve, ResolvePlain;
    ResolvesName("int", NOTHING);
    ResolvesName("float", NOTHING);
    ResolvesName("str", NOTHING);
    ResolvesName("bool", NOTHING);
    ResolvesName("void", NOTHING);
    ResolvesName("null", NOTHING);
    PlainBasic();
  }

  lemma PlainBasic()
    ensures ResolvePlain("int", NOTHING) == IntT && ResolvePlain("float", NOTHING) == FloatT && ResolvePlain("str", NOTHING) == StrT
    ensures ResolvePlain("bool", NOTHING) == BoolT && ResolvePlain("void", NOTHING) == VoidT && ResolvePlain("null", NOTHING) == NullT
  {
  }

  /** Collections without arguments, and a name that is none of these. */
  lemma BareNames(c: string)
    requires IsName(c) && c !in KEYWORDS
    ensures Resolve("list", NOTHING) == ListT(Unknown) && Resolve("dict", NOTHING) == DictT(Unknown, Unknown)
    ensures Resolve("tuple", NOTHING) == TupleT([]) && Resolve(c, NOTHING) == ClassT(c)
  {
    hide Resolve;
    ResolvesName("list", NOTHING);
    ResolvesName("dict", NOTHING);
    ResolvesName("tuple", NOTHING);
    ResolvesName(c, NOTHING);
  }

  /** The texts of types made of others. */
  lemma TextsOf(x: Type, y: Type, f: string)
    ensures Print(ListT(x)) == "list[" + Print(x) + "]" && Print(ChanT(x)) == "chan[" + Print(x) + "]"
    ensures Print(DictT(x, y)) == "dict[" + Print(x) + ", " + Print(y) + "]"
    ensures Print(TupleT([x, y])) == "tuple[" + (Print(x) + ", " + Print(y)) + "]"
    ensures Print(FuncT(f, [x], y)) == "func " + f + "(" + Print(x) + ") -> " + Print(y)
  {
    assert [x, y][1..] == [y];
    assert PrintAll([y], ", ") == Print(y) && PrintAll([x], ", ") == Print(x);
    assert PrintAll([x, y], ", ") == Print(x) + ", " + Print(y);
  }

  /** A name with brackets that is no collection stands for the class alone, and so does `dict`
      without exactly two parts. */
  lemma GenericNames(c: string, inner: string, names: Scope)
    requires IsName(c) && c != "chan" && c != "list" && c != "tuple" && '|' !in inner
    requires c == "dict" ==> |SplitTop(inner, 0, 0, 0)| != 2
    ensures Resolve(c + "[" + inner + "]", names) == ClassT(c)
  {
    hide Resolve, SplitTop, ResolveAll;
    var s := c + "[" + inner + "]";
    NoBarIn(c, inner);
    ResolvesGeneric(c, inner, s, names);
    BracketPlaces(c, inner, s);
    assert s[..|c|] == c;
  }

  lemma NoBarIn(c: string, inner: string)
    requires IsName(c) && '|' !in inner
    ensures '|' !in c + "[" + inner + "]"
  {
    var s := c + "[" + inner + "]";
    forall k | 0 <= k < |s|
      ensures s[k] != '|'
    {
      if |c| < k < |s| - 1 {
        assert s[k] == inner[k - |c| - 1] && inner[k - |c| - 1] in inner;
      }
    }
  }

  // Blanks and tabs.
  predicate Blanks(s: string) {
    forall i :: 0 <= i < |s| ==> s[i] as int == 32 || s[i] as int == 9
  }

  lemma {:induction false} LeftTrimmed(a: string, t: string)
    requires Blanks(a) && t != "" && !(t[0] as int == 32 || t[0] as int == 9)
    ensures TrimLeft(a + t) == t
    decreases |a|
  {
    if a == "" {
      assert a + t == t;
    } else {
      assert (a + t)[1..] == a[1..] + t;
      LeftTrimmed(a[1..], t);
    }
  }

  lemma {:induction false} RightTrimmed(t: string, b: string)
    requires Blanks(b) && t != "" && !(t[|t| - 1] as int == 32 || t[|t| - 1] as int == 9)
    ensures TrimRight(t + b) == t
    decreases |b|
  {
    if b == "" {
      assert t + b == t;
    } else {
      assert (t + b)[..|t + b| - 1] == t + b[..|b| - 1];
      RightTrimmed(t, b[..|b| - 1]);
    }
  }

  /** Blanks and tabs around a part are dropped; a part of nothing else is kept as it is. */
  lemma PartTrimmed(a: string, t: string, b: string)
    requires Blanks(a) && Blanks(b) && t != ""
    requires !(t[0] as int == 32 || t[0] as int == 9) && !(t[|t| - 1] as int == 32 || t[|t| - 1] as int == 9)
    ensures Trimmed(a + t + b) == t && Trimmed(a) == a
  {
    hide TrimLeft, TrimRight;
    RightTrimmed(a + t, b);
    LeftTrimmed(a, t);
    AllTrimmed(a);
  }

  lemma {:induction false} AllTrimmed(a: string)
    requires Blanks(a)
    ensures TrimRight(a) == "" && TrimLeft("") == ""
    decreases |a|
  {
    if a != "" {
      AllTrimmed(a[..|a| - 1]);
    }
  }

  // ---- parts between one separator ----

  lemma JoinedUnfolds(parts: seq<string>, c: char)
    requires |parts| > 1
    ensures Joined(parts, c) == parts[0] + [c] + Joined(parts[1..], c)
  {
    JoinedFirst(parts[0], parts[1..], c);
    assert [parts[0]] + parts[1..] == parts;
  }

  lemma JoinedOne(parts: seq<string>, c: char)
    requires |parts| == 1
    ensures Joined(parts, c) == parts[0]
  {
  }

  lemma FindsFirst(prefix: string, part: string, c: char, tail: string)
    requires c !in part && (tail == "" || tail[0] == c)
    ensures Find(prefix + part + tail, c, |prefix|) == |prefix| + |part|
  {
    var s := prefix + part + tail;
    var r := Find(s, c, |prefix|);
    assert tail != "" ==> s[|prefix| + |part|] == tail[0];
    forall k | |prefix| <= k < |prefix| + |part|
      ensures s[k] != c
    {
      assert s[k] == part[k - |prefix|] && part[k - |prefix|] in part;
    }
  }

  lemma SplitsAt(s: string, c: char, i: nat, j: nat)
    requires i < j < |s| && s[j] == c && forall k :: i <= k < j ==> s[k] != c
    ensures SplitAt(s, c, i) == [s[i..j]] + SplitAt(s, c, j + 1)
  {
    hide Find;
    assert Find(s, c, i) == j;
  }

  lemma SplitsFirst(prefix: string, part: string, c: char, rest: string)
    requires c !in part && part != ""
    ensures var s := prefix + part + ([c] + rest);
            SplitAt(s, c, |prefix|) == [part] + SplitAt(s, c, |prefix| + |part| + 1)
  {
    hide SplitAt;
    var s, i, j := prefix + part + ([c] + rest), |prefix|, |prefix| + |part|;
    forall k | i <= k < j
      ensures s[k] != c
    {
      assert s[k] == part[k - i] && part[k - i] in part;
    }
    SplitsAt(s, c, i, j);
    assert s[i..j] == part;
  }

  lemma SplitsLast(prefix: string, part: string, c: char)
    requires c !in part && part != ""
    ensures SplitAt(prefix + part, c, |prefix|) == [part]
  {
    hide Find;
    var s := prefix + part;
    assert s == prefix + part + "" && s[|prefix|..] == part && s[|prefix|..|s|] == part;
    FindsFirst(prefix, part, c, "");
  }

  lemma {:induction false} SplitsJoined(prefix: string, parts: seq<string>, c: char)
    requires parts != [] && (forall p :: p in parts ==> p != "" && c !in p)
    ensures SplitAt(prefix + Joined(parts, c), c, |prefix|) == parts
    decreases |parts|
  {
    hide SplitAt, Joined;
    var p := parts[0];
    assert p in parts;
    if |parts| == 1 {
      JoinedOne(parts, c);
      SplitsLast(prefix, p, c);
    } else {
      var rest := Joined(parts[1..], c);
      JoinedUnfolds(parts, c);
      var more := prefix + p + [c];
      assert prefix + Joined(parts, c) == prefix + p + ([c] + rest) == more + rest;
      forall q | q in parts[1..]
        ensures q != "" && c !in q
      {
        assert q in parts;
      }
      SplitsFirst(prefix, p, c, rest);
      SplitsJoined(more, parts[1..], c);
      assert [p] + parts[1..] == parts;
    }
  }

  // ---- unions ----

  function Texts(ts: seq<Type>): (r: seq<string>)
    ensures |r| == |ts| && forall i :: 0 <= i < |r| ==> r[i] == Print(ts[i])
  {
    seq(|ts|, i requires 0 <= i < |ts| => Print(ts[i]))
  }

  lemma {:induction false} PartsResolve(ts: seq<Type>, whole: string, names: Scope)
    requires (forall i :: 0 <= i < |ts| ==> Printable(ts[i], names)) && forall p :: p in Texts(ts) ==> |p| < |whole|
    ensures ResolveAll(whole, Texts(ts), names) == ts
    decreases |ts|
  {
    hide Printable, Print, Resolve;
    if ts != [] {
      assert Texts(ts)[1..] == Texts(ts[1..]) && Texts(ts)[0] in Texts(ts);
      PrintResolves(ts[0], names);
      assert forall p :: p in Texts(ts[1..]) ==> p in Texts(ts);
      PartsResolve(ts[1..], whole, names);
    }
  }

  lemma TextsTidy(ts: seq<Type>, names: Scope)
    requires forall i :: 0 <= i < |ts| ==> Printable(ts[i], names)
    ensures forall p :: p in Texts(ts) ==> Tidy(p) && '|' !in p
  {
    hide Printable, Print;
    forall i | 0 <= i < |ts|
      ensures Tidy(Texts(ts)[i]) && '|' !in Texts(ts)[i]
    {
      PrintTidy(ts[i], names);
      OrdinaryText(Print(ts[i]));
    }
  }

  lemma {:induction false} PartsShorter(parts: seq<string>, c: char)
    ensures forall p :: p in parts ==> |p| <= |Joined(parts, c)| && (|parts| > 1 ==> |p| < |Joined(parts, c)|)
    decreases |parts|
  {
    if |parts| > 1 {
      JoinedUnfolds(parts, c);
      PartsShorter(parts[1..], c);
      assert parts == [parts[0]] + parts[1..];
    } else if |parts| == 1 {
      assert parts == [parts[0]];
    }
  }

  // Reads as a channel of what stands between its first bracket and the last.
  predicate LooksLikeChan(s: string) {
    StartsWith(s, "chan[") && s[|s| - 1] == ']'
  }

  /** Types with bars between them are read as their union, unless the text begins and ends like
      that of a channel: then it is read as one. */
  lemma UnionWritten(ts: seq<Type>, names: Scope)
    requires |ts| > 1 && forall i :: 0 <= i < |ts| ==> Printable(ts[i], names)
    ensures var s := Joined(Texts(ts), '|');
            && (LooksLikeChan(s) ==> Resolve(s, names).ChanT?)
            && (!LooksLikeChan(s) ==> Resolve(s, names) == UnionT(ts))
  {
    hide Printable, Print, ResolveAll, SplitAt, Tidy, ResolveGeneric;
    var parts := Texts(ts);
    var s := Joined(parts, '|');
    TextsTidy(ts, names);
    PartsShorter(parts, '|');
    if !LooksLikeChan(s) {
      assert parts[0] in parts;
      FirstPart(parts);
      AllFilled(parts);
      SplitsJoined("", parts, '|');
      assert "" + s == s;
      PartsResolve(ts, s, names);
      UnionReads(s, names);
    }
  }

  /** A channel of integers or a list of strings: the union is read as a channel. */
  lemma UnionLost(names: Scope)
    requires "int" !in names.typeParams && "str" !in names.typeParams
    ensures Joined(Texts([ChanT(IntT), ListT(StrT)]), '|') == "chan[int]|list[str]" && Resolve("chan[int]|list[str]", names).ChanT?
  {
    hide Resolve;
    var ts := [ChanT(IntT), ListT(StrT)];
    assert Print(ts[0]) == "chan[" + "int" + "]" == "chan[int]";
    assert Print(ts[1]) == "list[" + "str" + "]" == "list[str]";
    assert Texts(ts) == ["chan[int]", "list[str]"];
    JoinedUnfolds(Texts(ts), '|');
    assert Texts(ts)[1..] == ["list[str]"];
    JoinedOne(["list[str]"], '|');
    UnionWritten(ts, names);
  }

  lemma AllFilled(parts: seq<string>)
    requires forall p :: p in parts ==> Tidy(p)
    ensures forall p :: p in parts ==> p != ""
  {
  }

  lemma FirstPart(parts: seq<string>)
    requires |parts| > 1 && Tidy(parts[0])
    ensures var s := Joined(parts, '|');
            s != "" && s[0] != '(' && '|' in s
  {
    var s := Joined(parts, '|');
    JoinedUnfolds(parts, '|');
    assert s[|parts[0]|] == '|' && s[0] == parts[0][0];
  }

  lemma UnionReads(s: string, names: Scope)
    requires !LooksLikeChan(s) && s != "" && s[0] != '(' && '|' in s
    ensures Resolve(s, names) == UnionT(ResolveAll(s, SplitAt(s, '|', 0), names))
  {
    hide ResolveAll, SplitAt, ResolveGeneric, FindArrow;
  }

  // ---- functions ----

  function Signature(ps: seq<Type>, r: Type): string {
    "(" + Joined(Texts(ps), ',') + ")->" + Print(r)
  }

  lemma {:induction false} NoParenIn(parts: seq<string>, k: nat)
    requires (forall p :: p in parts ==> Tidy(p)) && k < |Joined(parts, ',')|
    ensures Joined(parts, ',')[k] != ')'
    decreases |parts|
  {
    if parts != [] {
      assert parts[0] in parts;
      if |parts| > 1 {
        JoinedUnfolds(parts, ',');
      }
      if |parts| > 1 && k > |parts[0]| {
        NoParenIn(parts[1..], k - |parts[0]| - 1);
      }
    }
  }

  lemma SignatureShape(parts: seq<string>, r: string)
    requires forall p :: p in parts ==> Tidy(p)
    ensures var inner := Joined(parts, ',');
            var s, a := "(" + inner + ")->" + r, 1 + |inner|;
            && |s| == a + 3 + |r| && s[0] == '(' && s[a..a + 3] == ")->" && s[1..a] == inner && s[a + 3..] == r
            && forall k :: 0 <= k < a ==> s[k] != ')'
  {
    hide Tidy, Joined;
    var inner := Joined(parts, ',');
    var s, a := "(" + inner + ")->" + r, 1 + |inner|;
    forall k | 0 <= k < a
      ensures s[k] != ')'
    {
      if k > 0 {
        NoParenIn(parts, k - 1);
        assert s[k] == inner[k - 1];
      }
    }
  }

  lemma {:induction false} ArrowFound(s: string, i: nat, a: nat)
    requires i <= a && a + 3 <= |s| && s[a..a + 3] == ")->" && forall k :: i <= k < a ==> s[k] != ')'
    ensures FindArrow(s, i) == Some(a)
    decreases a - i
  {
    if i < a {
      assert s[i..i + 3][0] == s[i];
      ArrowFound(s, i + 1, a);
    }
  }

  /** A signature is read as a function type, if no parameter has a comma in its own text; the type
      has no name of its own. */
  lemma SignatureWritten(ps: seq<Type>, r: Type, names: Scope)
    requires (forall i :: 0 <= i < |ps| ==> Printable(ps[i], names) && ',' !in Print(ps[i])) && Printable(r, names)
    ensures Resolve(Signature(ps, r), names) == FuncT("<fn_type>", ps, r)
  {
    hide Printable, Print, ResolveAll, SplitAt, Resolve, FindArrow, Tidy;
    var parts, s := Texts(ps), Signature(ps, r);
    var inner := Joined(parts, ',');
    var a := 1 + |inner|;
    TextsTidy(ps, names);
    AllFilled(parts);
    PartsShorter(parts, ',');
    SignatureShape(parts, Print(r));
    ArrowFound(s, 0, a);
    assert s[0] == '(' && |s| > |inner| + |Print(r)|;
    hide Joined, Signature;
    SplitsAll(parts, ',');
    PartsResolve(ps, s, names);
    PrintResolves(r, names);
    SignatureReads(s, a, names);
  }

  lemma SplitsAll(parts: seq<string>, c: char)
    requires forall p :: p in parts ==> p != "" && c !in p
    ensures SplitAt(Joined(parts, c), c, 0) == parts
  {
    if parts != [] {
      SplitsJoined("", parts, c);
      assert "" + Joined(parts, c) == Joined(parts, c);
    }
  }

  lemma SignatureReads(s: string, a: nat, names: Scope)
    requires s != "" && s[0] == '(' && 1 <= a && a + 3 <= |s| && FindArrow(s, 0) == Some(a)
    ensures Resolve(s, names) == FuncT("<fn_type>", ResolveAll(s, SplitAt(s[1..a], ',', 0), names), Resolve(s[a + 3..], names))
  {
    hide ResolveAll, SplitAt, ResolveGeneric, FindArrow;
    NoChan(s);
  }

  lemma NoChan(s: string)
    requires s != "" && s[0] == '('
    ensures !StartsWith(s, "chan[")
  {
    assert "chan["[0] == 'c' && (|s| >= 5 ==> s[..5][0] == s[0]);
  }
}
