/** Printed types resolve to themselves, as far as they do: names, and types written with brackets
    around others. */
module TypeNamesProof {
  import opened Wrappers
  import opened Types
  import opened TypeNames

  predicate NameChar(c: char) {
    'a' <= c <= 'z' || 'A' <= c <= 'Z' || '0' <= c <= '9' || c == '_'
  }

  predicate IsName(n: string) {
    n != "" && forall i :: 0 <= i < |n| ==> NameChar(n[i])
  }

  const KEYWORDS: set<string> := {"int", "float", "str", "bool", "void", "null", "list", "dict", "tuple"}

  /** The types whose text says all about them. */
  predicate Printable(t: Type, names: Scope)
    decreases t
  {
    match t
    case Unknown => false
    case UnionT(_) => false
    case FuncT(_, _, _) => false
    case ListT(x) => Printable(x, names)
    case DictT(k, v) => Printable(k, names) && Printable(v, names)
    case TupleT(xs) => forall i :: 0 <= i < |xs| ==> Printable(xs[i], names)
    case ChanT(x) => Printable(x, names)
    case ClassT(n) => IsName(n) && n !in KEYWORDS && n !in names.typeParams && n !in names.interfaces
    case InterfaceT(n) => IsName(n) && n !in KEYWORDS && n !in names.typeParams && n in names.interfaces
    case TypeVarT(n) => IsName(n) && n in names.typeParams
    case _ => Print(t) !in names.typeParams
  }

  // ---- the characters of printed types ----

  predicate Ordinary(c: char) {
    NameChar(c) || c == '[' || c == ']' || c == ',' || c == ' '
  }

  // Printed text is not empty, has no blanks at its ends and no unusual characters.
  predicate Tidy(s: string) {
    s != "" && !Blank(s[0]) && s[0] != '(' && !Blank(s[|s| - 1]) && forall i :: 0 <= i < |s| ==> Ordinary(s[i])
  }

  // Types written with brackets: what comes before the bracket, and what between.
  predicate Bracketed(t: Type) {
    t.ListT? || t.DictT? || t.TupleT? || t.ChanT?
  }

  function Base(t: Type): (r: string)
    requires Bracketed(t)
    ensures IsName(r)
  {
    if t.ListT? then "list" else if t.DictT? then "dict" else if t.TupleT? then "tuple" else "chan"
  }

  function Inner(t: Type): string
    requires Bracketed(t)
  {
    if t.ListT? then Print(t.elem) else if t.DictT? then Print(t.key) + ", " + Print(t.value)
    else if t.TupleT? then PrintAll(t.elems, ", ") else Print(t.item)
  }

  lemma BracketText(t: Type)
    requires Bracketed(t)
    ensures Print(t) == Base(t) + "[" + Inner(t) + "]"
  {
  }

  lemma NameTidy(t: Type, names: Scope)
    requires Printable(t, names) && !Bracketed(t)
    ensures IsName(Print(t)) && Tidy(Print(t))
  {
  }

  lemma BracketsTidy(t: Type)
    requires Bracketed(t) && forall i :: 0 <= i < |Inner(t)| ==> Ordinary(Inner(t)[i])
    ensures Tidy(Print(t))
  {
    hide Inner, Print;
    BracketText(t);
  }

  lemma {:induction false} PrintTidy(t: Type, names: Scope)
    requires Printable(t, names)
    ensures Tidy(Print(t))
    decreases t, 0
  {
    hide Print, PrintAll;
    match t
    case ListT(x) => PrintTidy(x, names); BracketsTidy(t);
    case DictT(k, v) => PrintTidy(k, names); PrintTidy(v, names); BracketsTidy(t);
    case TupleT(xs) => PrintAllOrdinary(xs, names); BracketsTidy(t);
    case ChanT(x) => PrintTidy(x, names); BracketsTidy(t);
    case _ => NameTidy(t, names);
  }

  lemma {:induction false} PrintAllOrdinary(ts: seq<Type>, names: Scope)
    requires forall i :: 0 <= i < |ts| ==> Printable(ts[i], names)
    ensures forall i :: 0 <= i < |PrintAll(ts, ", ")| ==> Ordinary(PrintAll(ts, ", ")[i])
    decreases ts, 0
  {
    if ts != [] {
      PrintTidy(ts[0], names);
      if |ts| > 1 {
        PrintAllOrdinary(ts[1..], names);
      }
    }
  }

  // ---- brackets and commas ----

  /** The bracket depth after reading the text; None if a comma comes outside all brackets. */
  function Walk(s: string, depth: int): Option<int>
    decreases |s|
  {
    if s == "" then Some(depth)
    else if s[0] == ',' && depth == 0 then None
    else Walk(s[1..], if s[0] == '[' || s[0] == '(' then depth + 1 else if s[0] == ']' || s[0] == ')' then depth - 1 else depth)
  }

  lemma {:induction false} WalkOn(s: string, t: string, depth: int)
    requires Walk(s, depth).Some?
    ensures Walk(s + t, depth) == Walk(t, Walk(s, depth).value)
    decreases |s|
  {
    if s == "" {
      assert s + t == t;
    } else {
      assert (s + t)[1..] == s[1..] + t;
      WalkOn(s[1..], t, if s[0] == '[' || s[0] == '(' then depth + 1 else if s[0] == ']' || s[0] == ')' then depth - 1 else depth);
    }
  }

  lemma {:induction false} WalkName(n: string, depth: int)
    requires forall i :: 0 <= i < |n| ==> NameChar(n[i])
    ensures Walk(n, depth) == Some(depth)
    decreases |n|
  {
    if n != "" {
      WalkName(n[1..], depth);
    }
  }

  /** Brackets around text that is calm one level deeper. */
  lemma WalkBrackets(base: string, inner: string, depth: int)
    requires (forall i :: 0 <= i < |base| ==> NameChar(base[i])) && Walk(inner, depth + 1) == Some(depth + 1)
    ensures Walk(base + "[" + inner + "]", depth) == Some(depth)
  {
    hide Walk;
    WalkName(base, depth);
    WalkOn(base, "[" + inner + "]", depth);
    assert base + "[" + inner + "]" == base + ("[" + inner + "]");
    WalkInner(inner, depth);
  }

  lemma WalkInner(inner: string, depth: int)
    requires Walk(inner, depth + 1) == Some(depth + 1)
    ensures Walk("[" + inner + "]", depth) == Some(depth)
  {
    assert ("[" + inner + "]")[1..] == inner + "]";
    WalkOn(inner, "]", depth + 1);
    assert "]"[1..] == "";
  }

  lemma CommaWalks(p: string, q: string, depth: nat)
    requires depth > 0 && Walk(p, depth) == Some(depth) && Walk(q, depth) == Some(depth)
    ensures Walk(p + ", " + q, depth) == Some(depth)
  {
    WalkOn(p, ", " + q, depth);
    assert p + ", " + q == p + (", " + q);
    assert (", " + q)[1..] == " " + q && (" " + q)[1..] == q;
  }

  lemma PairText(k: Type, v: Type)
    ensures PrintAll([k, v], ", ") == Print(k) + ", " + Print(v)
  {
    hide Print;
    assert [k, v][1..] == [v];
    assert PrintAll([v], ", ") == Print(v);
  }

  lemma PrintablePart(t: Type, names: Scope)
    requires Printable(t, names)
    ensures t.ListT? ==> Printable(t.elem, names)
    ensures t.DictT? ==> Printable(t.key, names) && Printable(t.value, names)
    ensures t.ChanT? ==> Printable(t.item, names)
    ensures t.TupleT? ==> forall i :: 0 <= i < |t.elems| ==> Printable(t.elems[i], names)
    ensures !t.Unknown? && !t.UnionT? && !t.FuncT? && (t.ClassT? ==> IsName(t.name)) && (t.InterfaceT? ==> IsName(t.iface)) && (t.TypeVarT? ==> IsName(t.param))
  {
  }

  lemma {:induction false} PrintWalk(t: Type, names: Scope, depth: nat)
    requires Printable(t, names)
    ensures Walk(Print(t), depth) == Some(depth)
    decreases t, 0
  {
    hide Walk, Printable, PrintAll, Print;
    PrintablePart(t, names);
    match t
    case ListT(x) => PrintWalk(x, names, depth + 1); BracketsWalk(t, depth);
    case DictT(k, v) =>
      PrintWalk(k, names, depth + 1);
      PrintWalk(v, names, depth + 1);
      CommaWalks(Print(k), Print(v), depth + 1);
      BracketsWalk(t, depth);
    case TupleT(xs) => PrintAllWalk(xs, names, depth + 1); BracketsWalk(t, depth);
    case ChanT(x) => PrintWalk(x, names, depth + 1); BracketsWalk(t, depth);
    case _ =>
      NameTidy(t, names);
      WalkName(Print(t), depth);
  }

  lemma BracketsWalk(t: Type, depth: nat)
    requires Bracketed(t) && Walk(Inner(t), depth + 1) == Some(depth + 1)
    ensures Walk(Print(t), depth) == Some(depth)
  {
    hide Print, Inner, Walk;
    BracketText(t);
    WalkBrackets(Base(t), Inner(t), depth);
  }

  lemma {:induction false} PrintAllWalk(ts: seq<Type>, names: Scope, depth: nat)
    requires depth > 0 && forall i :: 0 <= i < |ts| ==> Printable(ts[i], names)
    ensures Walk(PrintAll(ts, ", "), depth) == Some(depth)
    decreases ts, 0
  {
    if ts != [] {
      PrintWalk(ts[0], names, depth);
      if |ts| > 1 {
        var tail := PrintAll(ts[1..], ", ");
        PrintAllWalk(ts[1..], names, depth);
        CommaWalks(Print(ts[0]), tail, depth);
      }
    }
  }

  // ---- splitting ----

  /** Nothing is cut inside calm text. */
  lemma {:induction false} SplitSkips(s: string, i: nat, j: nat, start: nat, depth: int)
    requires start <= i <= j <= |s| && Walk(s[i..j], depth).Some?
    ensures SplitTop(s, i, start, depth) == SplitTop(s, j, start, Walk(s[i..j], depth).value)
    decreases j - i
  {
    if i < j {
      var d2 := if s[i] == '[' || s[i] == '(' then depth + 1 else if s[i] == ']' || s[i] == ')' then depth - 1 else depth;
      assert s[i..j][1..] == s[i + 1..j];
      SplitSkips(s, i + 1, j, start, d2);
    }
  }

  lemma TrimTidy(p: string)
    requires Tidy(p)
    ensures TrimLeft(TrimRight(p)) == p && TrimLeft(TrimRight(" " + p)) == p
  {
    var q := " " + p;
    assert q[|q| - 1] == p[|p| - 1];
    assert TrimRight(q) == q;
    assert q[1..] == p;
  }

  // The text from `start` to `i` is nothing or the blank after a comma.
  predicate Gap(s: string, start: nat, i: nat) {
    start <= i <= |s| && (start == i || (start + 1 == i && s[start] == ' '))
  }

  function Printed(ts: seq<Type>): (r: seq<string>)
    ensures |r| == |ts|
  {
    seq(|ts|, i requires 0 <= i < |ts| => Print(ts[i]))
  }

  /** Printed types with commas between them are cut at just these commas. */
  lemma {:induction false} SplitPrinted(ts: seq<Type>, names: Scope, s: string, start: nat, i: nat)
    requires Gap(s, start, i) && s[i..] == PrintAll(ts, ", ") && ts != []
    requires forall k :: 0 <= k < |ts| ==> Printable(ts[k], names)
    ensures SplitTop(s, i, start, 0) == Printed(ts)
    decreases |ts|
  {
    hide Printable, Print, Walk, Tidy, SplitTop;
    var p := Print(ts[0]);
    var j := i + |p|;
    PrintTidy(ts[0], names);
    PrintWalk(ts[0], names, 0);
    assert s[i..j] == p by {
      assert s[i..][..|p|] == p;
    }
    SplitSkips(s, i, j, start, 0);
    if |ts| == 1 {
      SplitEnds(s, start, i, j, p);
      assert Printed(ts) == [p];
    } else {
      var tail := PrintAll(ts[1..], ", ");
      assert s[i..] == p + ", " + tail;
      assert s[j] == s[i..][|p|] && s[j + 1] == s[i..][|p| + 1];
      assert s[j + 2..] == s[i..][|p| + 2..] == tail;
      SplitCuts(s, start, i, j, p);
      SplitPrinted(ts[1..], names, s, j + 1, j + 2);
      assert Printed(ts) == [p] + Printed(ts[1..]);
    }
  }

  lemma SplitEnds(s: string, start: nat, i: nat, j: nat, p: string)
    requires Gap(s, start, i) && i <= j == |s| && s[i..j] == p && Tidy(p)
    ensures SplitTop(s, j, start, 0) == [p]
  {
    hide TrimLeft, TrimRight, Tidy;
    PartIs(s, start, i, j, p);
  }

  /** A comma outside brackets cuts, and the blank after it is skipped. */
  lemma SplitCuts(s: string, start: nat, i: nat, j: nat, p: string)
    requires Gap(s, start, i) && i <= j && j + 1 < |s| && s[i..j] == p && Tidy(p) && s[j] == ',' && s[j + 1] == ' '
    ensures SplitTop(s, j, start, 0) == [p] + SplitTop(s, j + 2, j + 1, 0)
  {
    hide TrimLeft, TrimRight, Tidy, Walk;
    PartIs(s, start, i, j, p);
    BlankWalks(s[j + 1..j + 2]);
    SplitSkips(s, j + 1, j + 2, j + 1, 0);
    assert SplitTop(s, j, start, 0) == [p] + SplitTop(s, j + 1, j + 1, 0);
  }

  lemma BlankWalks(s: string)
    requires s == " "
    ensures Walk(s, 0) == Some(0)
  {
    assert s[1..] == "";
  }

  lemma PartIs(s: string, start: nat, i: nat, j: nat, p: string)
    requires Gap(s, start, i) && i <= j <= |s| && s[i..j] == p && Tidy(p)
    ensures TrimLeft(TrimRight(s[start..j])) == p && p != ""
  {
    TrimTidy(p);
    if start < i {
      assert s[start..j] == " " + p;
    }
  }

  // ---- resolving ----

  // A base name, a bracket, text, and the closing bracket at the end.
  lemma BracketPlaces(base: string, inner: string, s: string)
    requires (forall i :: 0 <= i < |base| ==> NameChar(base[i])) && s == base + "[" + inner + "]"
    ensures Find(s, '[', 0) == |base| && FindLast(s, ']', |s|) == Some(|s| - 1)
    ensures s[..|base|] == base && s[|base| + 1..|s| - 1] == inner
  {
    assert s[|base|] == '[';
    assert forall i :: 0 <= i < |base| ==> s[i] == base[i] && NameChar(base[i]);
    assert s[|s| - 1] == ']';
  }

  lemma OrdinaryText(s: string)
    requires Tidy(s)
    ensures '|' !in s && s[0] != '('
  {
  }

  lemma ChanBase(base: string, inner: string, s: string)
    requires IsName(base) && s == base + "[" + inner + "]" && StartsWith(s, "chan[")
    ensures base == "chan"
  {
    assert forall i :: 0 <= i < |base| ==> s[i] == base[i] && NameChar(base[i]);
    assert s[|base|] == '[' && s[..5] == "chan[" && s[4] == "chan["[4];
    assert forall i :: 0 <= i < 4 ==> s[i] == "chan["[i] && s[i] != '[';
    assert |base| == 4;
    assert s[..4] == s[..5][..4];
    assert base == s[..4];
  }

  lemma ResolvesGeneric(base: string, inner: string, s: string, names: Scope)
    requires IsName(base) && s == base + "[" + inner + "]" && '|' !in s && base != "chan"
    ensures Find(s, '[', 0) == |base| && Resolve(s, names) == ResolveGeneric(s, |base|, names)
  {
    hide ResolveGeneric;
    BracketPlaces(base, inner, s);
    assert s[0] == base[0];
    if StartsWith(s, "chan[") {
      ChanBase(base, inner, s);
    }
  }

  lemma {:induction false} ResolvesParts(ts: seq<Type>, whole: string, names: Scope)
    requires (forall i :: 0 <= i < |ts| ==> Printable(ts[i], names))
    requires forall p :: p in Printed(ts) ==> |p| < |whole|
    ensures ResolveAll(whole, Printed(ts), names) == ts
    decreases ts, 0
  {
    hide Printable, Print, Resolve;
    if ts != [] {
      PrintResolves(ts[0], names);
      assert Printed(ts)[1..] == Printed(ts[1..]) && Printed(ts)[0] == Print(ts[0]);
      ResolvesParts(ts[1..], whole, names);
    }
  }

  lemma NotChan(n: string)
    ensures StartsWith(n, "chan[") ==> '[' in n
  {
    if StartsWith(n, "chan[") {
      assert n[..5] == "chan[" && n[4] == n[..5][4];
    }
  }

  lemma ResolvesName(n: string, names: Scope)
    requires IsName(n)
    ensures Resolve(n, names) == ResolvePlain(n, names)
  {
    hide ResolvePlain, ResolveGeneric, ResolveAll;
    assert '[' !in n && '|' !in n;
    NotChan(n);
    assert Find(n, '[', 0) == |n|;
  }

  /** The text of a printable type resolves to the type. */
  lemma {:induction false} PrintResolves(t: Type, names: Scope)
    requires Printable(t, names)
    ensures Resolve(Print(t), names) == t
    decreases t, 1
  {
    hide Tidy, SplitTop, Resolve, ResolveGeneric, Print, PrintAll, Printable;
    PrintTidy(t, names);
    OrdinaryText(Print(t));
    PrintablePart(t, names);
    match t
    case ListT(x) =>
      PrintResolves(x, names);
      BracketText(t);
      ResolvesGeneric("list", Print(x), Print(t), names);
      BracketPlaces("list", Print(x), Print(t));
      ListParts(Print(x), Print(t), names);
    case DictT(k, v) => DictResolves(t, k, v, names);
    case TupleT(xs) => TupleResolves(t, xs, names);
    case ChanT(x) =>
      PrintResolves(x, names);
      BracketText(t);
      ChanResolves(Print(x), Print(t), names);
    case _ => NameResolves(t, names);
  }

  lemma NameResolves(t: Type, names: Scope)
    requires Printable(t, names) && !Bracketed(t)
    ensures Resolve(Print(t), names) == t
  {
    hide Resolve;
    NameTidy(t, names);
    ResolvesName(Print(t), names);
  }

  lemma ListParts(inner: string, s: string, names: Scope)
    requires 4 < |s| && s[4] == '[' && s[..4] == "list" && FindLast(s, ']', |s|) == Some(|s| - 1) && |s| > 5 && s[5..|s| - 1] == inner
    ensures ResolveGeneric(s, 4, names) == ListT(Resolve(inner, names))
  {
    hide Resolve, SplitTop;
  }

  lemma ChanResolves(inner: string, s: string, names: Scope)
    requires s == "chan[" + inner + "]"
    ensures Resolve(s, names) == ChanT(Resolve(inner, names))
  {
    assert s[..5] == "chan[" && s[5..|s| - 1] == inner;
  }

  lemma {:induction false} DictResolves(t: Type, k: Type, v: Type, names: Scope)
    requires t == DictT(k, v) && Printable(t, names)
    ensures Resolve(Print(t), names) == t
    decreases t, 0
  {
    hide Tidy, SplitTop, Resolve, Walk, ResolveGeneric, PrintAll, ResolveAll, FindLast, Find;
    var s := Print(t);
    var ts := [k, v];
    var inner := PrintAll(ts, ", ");
    PairText(k, v);
    assert s == "dict" + "[" + inner + "]";
    PrintTidy(t, names);
    OrdinaryText(s);
    ResolvesGeneric("dict", inner, s, names);
    BracketPlaces("dict", inner, s);
    assert inner[0..] == inner;
    SplitPrinted(ts, names, inner, 0, 0);
    PrintResolves(k, names);
    PrintResolves(v, names);
    DictParts(k, v, inner, s, names);
  }

  lemma DictParts(k: Type, v: Type, inner: string, s: string, names: Scope)
    requires 4 < |s| && s[4] == '[' && s[..4] == "dict" && FindLast(s, ']', |s|) == Some(|s| - 1) && |s| > 6 && s[5..|s| - 1] == inner
    requires SplitTop(inner, 0, 0, 0) == Printed([k, v])
    ensures ResolveGeneric(s, 4, names) == DictT(Resolve(Print(k), names), Resolve(Print(v), names))
  {
    hide Print, Resolve, SplitTop, ResolveAll;
  }

  lemma {:induction false} TupleResolves(t: Type, xs: seq<Type>, names: Scope)
    requires t == TupleT(xs) && Printable(t, names)
    ensures Resolve(Print(t), names) == t
    decreases t, 0
  {
    hide Tidy, Resolve, Walk, SplitTop, ResolveGeneric, PrintAll, ResolveAll;
    var s, inner := Print(t), PrintAll(xs, ", ");
    assert s == "tuple" + "[" + inner + "]";
    PrintTidy(t, names);
    OrdinaryText(s);
    ResolvesGeneric("tuple", inner, s, names);
    BracketPlaces("tuple", inner, s);
    assert inner[0..] == inner;
    if xs == [] {
      NothingSplit();
    } else {
      SplitPrinted(xs, names, inner, 0, 0);
    }
    TupleParts(xs, inner, s, names);
    ResolvesParts(xs, s, names);
  }

  lemma NothingSplit()
    ensures PrintAll([], ", ") == "" && SplitTop("", 0, 0, 0) == []
  {
  }

  lemma TupleParts(xs: seq<Type>, inner: string, s: string, names: Scope)
    requires 5 < |s| && s[5] == '[' && s[..5] == "tuple" && FindLast(s, ']', |s|) == Some(|s| - 1) && |s| > 6 && s[6..|s| - 1] == inner
    requires SplitTop(inner, 0, 0, 0) == Printed(xs)
    ensures (forall p :: p in Printed(xs) ==> |p| < |s|) && ResolveGeneric(s, 5, names) == TupleT(ResolveAll(s, Printed(xs), names))
  {
    hide Print, Resolve, SplitTop;
  }
}
