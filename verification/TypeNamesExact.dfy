/** No other types resolve from their text: it is known which ones do and which do not. */
module TypeNamesExact {
  import opened Wrappers
  import opened Types
  import opened TypeNames
  import opened TypeNamesProof

  predicate FuncName(f: string) {
    forall i :: 0 <= i < |f| ==> NameChar(f[i]) || f[i] == '<' || f[i] == '>'
  }

  /** Every class, interface and type variable in the type has an identifier as its name. */
  predicate WellNamed(t: Type)
    decreases t
  {
    match t
    case ListT(x) => WellNamed(x)
    case DictT(k, v) => WellNamed(k) && WellNamed(v)
    case TupleT(xs) => forall i :: 0 <= i < |xs| ==> WellNamed(xs[i])
    case ChanT(x) => WellNamed(x)
    case ClassT(n) => IsName(n)
    case InterfaceT(n) => IsName(n)
    case TypeVarT(n) => IsName(n)
    case UnionT(ms) => forall i :: 0 <= i < |ms| ==> WellNamed(ms[i])
    case FuncT(f, ps, r) => FuncName(f) && (forall i :: 0 <= i < |ps| ==> WellNamed(ps[i])) && WellNamed(r)
    case _ => true
  }

  // ---- printed text ----

  // A blank comes after every bar, and the text is no function type in parentheses.
  predicate Spaced(s: string) {
    (s != "" ==> s[0] != '(') && forall i :: 0 <= i < |s| && s[i] == '|' ==> i + 1 < |s| && s[i + 1] == ' '
  }

  lemma SpacedJoin(a: string, b: string)
    requires Spaced(a) && Spaced(b)
    ensures Spaced(a + b)
  {
    var s := a + b;
    forall i | 0 <= i < |s| && s[i] == '|'
      ensures i + 1 < |s| && s[i + 1] == ' '
    {
      if i < |a| {
        assert a[i] == '|';
        assert s[i + 1] == a[i + 1];
      } else {
        assert b[i - |a|] == '|';
        assert s[i + 1] == b[i - |a| + 1];
      }
    }
  }

  lemma SpacedBetween(a: string, b: string, c: string)
    requires Spaced(a) && Spaced(b) && Spaced(c)
    ensures Spaced(a + b + c)
  {
    SpacedJoin(a, b);
    SpacedJoin(a + b, c);
  }

  lemma SpacedLeaf(t: Type)
    requires WellNamed(t) && !Bracketed(t) && !t.UnionT? && !t.FuncT?
    ensures IsName(Print(t)) && Spaced(Print(t))
  {
  }

  lemma {:induction false} PrintSpaced(t: Type)
    requires WellNamed(t)
    ensures Spaced(Print(t))
    decreases t, 1
  {
    hide Spaced, Print, PrintAll;
    if Bracketed(t) {
      InnerSpaced(t);
      BracketText(t);
      assert Spaced(Base(t) + "[") && Spaced("]") by {
        BaseSpaced(Base(t) + "[");
      }
      SpacedBetween(Base(t) + "[", Inner(t), "]");
    } else if t.UnionT? {
      UnionText(t);
      AllSpaced(t.members, " | ");
    } else if t.FuncT? {
      FuncSpaced(t);
    } else {
      SpacedLeaf(t);
    }
  }

  lemma BaseSpaced(s: string)
    requires '|' !in s && (s != "" ==> s[0] != '(')
    ensures Spaced(s) && Spaced("]")
  {
  }

  lemma UnionText(t: Type)
    requires t.UnionT?
    ensures Print(t) == PrintAll(t.members, " | ")
  {
  }

  lemma {:induction false} InnerSpaced(t: Type)
    requires WellNamed(t) && Bracketed(t)
    ensures Spaced(Inner(t))
    decreases t, 0
  {
    hide Spaced, Print, PrintAll;
    match t
    case ListT(x) => PrintSpaced(x);
    case DictT(k, v) =>
      PrintSpaced(k);
      PrintSpaced(v);
      BaseSpaced(", ");
      SpacedBetween(Print(k), ", ", Print(v));
    case TupleT(xs) => AllSpaced(xs, ", ");
    case ChanT(x) => PrintSpaced(x);
  }

  lemma {:induction false} AllSpaced(ts: seq<Type>, separator: string)
    requires (forall i :: 0 <= i < |ts| ==> WellNamed(ts[i])) && separator in {", ", " | "}
    ensures Spaced(PrintAll(ts, separator))
    decreases ts, 0
  {
    hide Spaced, Print;
    SeparatorSpaced(separator);
    if ts != [] {
      PrintSpaced(ts[0]);
      if |ts| > 1 {
        AllSpaced(ts[1..], separator);
        SpacedBetween(Print(ts[0]), separator, PrintAll(ts[1..], separator));
      }
    }
  }

  lemma SeparatorSpaced(separator: string)
    requires separator in {", ", " | "}
    ensures Spaced(separator) && Spaced("")
  {
  }

  lemma FuncText(t: Type)
    requires t.FuncT?
    ensures Print(t) == "func " + t.fname + ("(" + PrintAll(t.params, ", ")) + ") -> " + Print(t.result)
  {
    hide PrintAll;
    assert "func " + t.fname + "(" + PrintAll(t.params, ", ") + ") -> " + Print(t.result) ==
           "func " + t.fname + ("(" + PrintAll(t.params, ", ")) + ") -> " + Print(t.result);
  }

  lemma {:induction false} FuncSpaced(t: Type)
    requires WellNamed(t) && t.FuncT?
    ensures Spaced(Print(t))
    decreases t, 0
  {
    hide Print, PrintAll;
    FuncText(t);
    var head, params, arrow := "func " + t.fname + "(", PrintAll(t.params, ", "), ") -> ";
    AllSpaced(t.params, ", ");
    PrintSpaced(t.result);
    assert Spaced(head) && Spaced(arrow);
    hide Spaced;
    SpacedBetween(head, params, arrow);
    SpacedJoin(head + params + arrow, Print(t.result));
    assert "func " + t.fname + ("(" + params) + arrow == head + params + arrow;
  }

  // ---- printed text is calm ----

  lemma {:induction false} WalkPlain(n: string, depth: int)
    requires forall i :: 0 <= i < |n| ==> n[i] != ',' && n[i] != '[' && n[i] != ']' && n[i] != '(' && n[i] != ')'
    ensures Walk(n, depth) == Some(depth)
    decreases |n|
  {
    if n != "" {
      WalkPlain(n[1..], depth);
    }
  }

  // Text that ends as deep as it began.
  predicate Calm(s: string, depth: nat) {
    Walk(s, depth) == Some(depth)
  }

  lemma CalmJoin(a: string, b: string, depth: nat)
    requires Calm(a, depth) && Calm(b, depth)
    ensures Calm(a + b, depth)
  {
    WalkOn(a, b, depth);
  }

  lemma {:induction false} PrintCalm(t: Type, depth: nat)
    requires WellNamed(t)
    ensures Calm(Print(t), depth)
    decreases t, 0
  {
    hide Print, PrintAll, Calm, Walk;
    match t
    case ListT(x) =>
      PrintCalm(x, depth + 1);
      BracketsCalm(t, depth);
    case DictT(k, v) =>
      PrintCalm(k, depth + 1);
      PrintCalm(v, depth + 1);
      CommaCalm(Print(k), Print(v), depth + 1);
      BracketsCalm(t, depth);
    case TupleT(xs) =>
      AllCalm(xs, ", ", depth + 1);
      BracketsCalm(t, depth);
    case ChanT(x) =>
      PrintCalm(x, depth + 1);
      BracketsCalm(t, depth);
    case UnionT(ms) =>
      UnionText(t);
      AllCalm(ms, " | ", depth);
    case FuncT(f, ps, r) =>
      AllCalm(ps, ", ", depth + 1);
      PrintCalm(r, depth);
      FuncCalm(t, depth);
    case _ =>
      SpacedLeaf(t);
      NameCalm(Print(t), depth);
  }

  lemma NameCalm(n: string, depth: nat)
    requires IsName(n)
    ensures Calm(n, depth)
  {
    WalkName(n, depth);
  }

  lemma BracketsCalm(t: Type, depth: nat)
    requires Bracketed(t) && Calm(Inner(t), depth + 1)
    ensures Calm(Print(t), depth)
  {
    hide Print, Inner, Walk;
    BracketsWalk(t, depth);
  }

  lemma CommaCalm(p: string, q: string, depth: nat)
    requires depth > 0 && Calm(p, depth) && Calm(q, depth)
    ensures Calm(p + ", " + q, depth)
  {
    hide Walk;
    CommaWalks(p, q, depth);
  }

  lemma FuncCalm(t: Type, depth: nat)
    requires WellNamed(t) && t.FuncT? && Calm(PrintAll(t.params, ", "), depth + 1) && Calm(Print(t.result), depth)
    ensures Calm(Print(t), depth)
  {
    hide Print, PrintAll, Walk;
    FuncText(t);
    var head, params, arrow, r := "func " + t.fname, PrintAll(t.params, ", "), ") -> ", Print(t.result);
    WalkPlain(head, depth);
    WalkOn(head, "(" + params + arrow + r, depth);
    ParenWalks(params, arrow, r, depth);
    assert head + ("(" + params) + arrow + r == head + ("(" + params + arrow + r);
  }

  lemma ParenWalks(params: string, arrow: string, r: string, depth: nat)
    requires arrow == ") -> " && Calm(params, depth + 1) && Calm(r, depth)
    ensures Walk("(" + params + arrow + r, depth) == Some(depth)
  {
    var s := "(" + params + arrow + r;
    assert s[1..] == params + (arrow + r);
    WalkOn(params, arrow + r, depth + 1);
    assert (arrow + r)[1..] == " -> " + r;
    WalkPlain(" -> ", depth);
    WalkOn(" -> ", r, depth);
  }

  lemma {:induction false} AllCalm(ts: seq<Type>, separator: string, depth: nat)
    requires (forall i :: 0 <= i < |ts| ==> WellNamed(ts[i])) && (separator == " | " || (separator == ", " && depth > 0))
    ensures Calm(PrintAll(ts, separator), depth)
    decreases ts, 0
  {
    hide Print, Calm;
    NothingCalm(depth);
    if ts != [] {
      PrintCalm(ts[0], depth);
      if |ts| > 1 {
        AllCalm(ts[1..], separator, depth);
        SeparatorCalm(separator, depth);
        CalmJoin(Print(ts[0]), separator, depth);
        CalmJoin(Print(ts[0]) + separator, PrintAll(ts[1..], separator), depth);
      }
    }
  }

  lemma NothingCalm(depth: nat)
    ensures Calm("", depth)
  {
  }

  lemma SeparatorCalm(separator: string, depth: nat)
    requires separator == " | " || (separator == ", " && depth > 0)
    ensures Calm(separator, depth)
  {
    if separator == " | " {
      WalkPlain(separator, depth);
    } else {
      assert ", "[1..] == " ";
      BlankCalm(depth);
    }
  }

  lemma BlankCalm(depth: nat)
    ensures Walk(" ", depth) == Some(depth)
  {
    assert " "[1..] == "";
  }

  // ---- text that resolves to nothing well named ----

  lemma {:induction false} LastBar(s: string, start: nat)
    requires Spaced(s) && start <= |s| && Find(s, '|', start) < |s|
    ensures var parts := SplitAt(s, '|', start); parts != [] && var p := parts[|parts| - 1]; p != "" && p[0] == ' ' && '|' !in p
    decreases |s| - start
  {
    hide SplitAt, Find, Spaced;
    var end := Find(s, '|', start);
    AfterBar(s, end);
    SplitUnfolds(s, start);
    if Find(s, '|', end + 1) < |s| {
      LastBar(s, end + 1);
    } else {
      SplitLast(s, end + 1);
    }
  }

  lemma AfterBar(s: string, i: nat)
    requires Spaced(s) && i < |s| && s[i] == '|'
    ensures i + 1 < |s| && s[i + 1] == ' '
  {
  }

  lemma SplitUnfolds(s: string, start: nat)
    requires start <= |s| && Find(s, '|', start) < |s|
    ensures var end := Find(s, '|', start); SplitAt(s, '|', start) == [s[start..end]] + SplitAt(s, '|', end + 1)
  {
    hide Find;
  }

  lemma SplitLast(s: string, start: nat)
    requires start < |s| && Find(s, '|', start) == |s|
    ensures SplitAt(s, '|', start) == [s[start..]] && '|' !in s[start..]
  {
    assert s[start..|s|] == s[start..];
  }

  /** Text with a leading blank becomes a name that is no identifier. */
  lemma BlankResolves(s: string, names: Scope)
    requires s != "" && s[0] == ' ' && '|' !in s
    ensures !WellNamed(Resolve(s, names))
  {
    assert s[..1] == " ";
    NoChan(s);
    var open := Find(s, '[', 0);
    if open < |s| {
      assert s[..open][0] == ' ';
    }
  }

  lemma NoChan(s: string)
    requires s != "" && s[0] == ' '
    ensures !StartsWith(s, "chan[")
  {
    assert |s| >= 5 ==> s[..5][0] == ' ';
  }

  lemma {:induction false} LastResolved(whole: string, parts: seq<string>, names: Scope)
    requires parts != [] && forall p :: p in parts ==> |p| < |whole|
    ensures var ts := ResolveAll(whole, parts, names); |ts| == |parts| && ts[|ts| - 1] == Resolve(parts[|parts| - 1], names)
    decreases |parts|
  {
    hide Resolve;
    if |parts| > 1 {
      LastResolved(whole, parts[1..], names);
    }
  }

  lemma ResolvesUnion(s: string, names: Scope)
    requires '|' in s && s[0] != '(' && !(StartsWith(s, "chan[") && s[|s| - 1] == ']')
    ensures Resolve(s, names) == UnionT(ResolveAll(s, SplitAt(s, '|', 0), names))
  {
    hide ResolveAll, SplitAt, ResolveGeneric, ResolvePlain, Find;
  }

  lemma BarFound(s: string)
    requires '|' in s
    ensures Find(s, '|', 0) < |s|
  {
    var i :| 0 <= i < |s| && s[i] == '|';
  }

  /** The last member of a union read from printed text is not well named. */
  lemma BadUnion(s: string, names: Scope)
    requires Spaced(s) && '|' in s
    ensures !WellNamed(UnionT(ResolveAll(s, SplitAt(s, '|', 0), names)))
  {
    hide Spaced, SplitAt, ResolveAll, Resolve;
    var parts := SplitAt(s, '|', 0);
    BarFound(s);
    LastBar(s, 0);
    LastResolved(s, parts, names);
    BlankResolves(parts[|parts| - 1], names);
    var ts := ResolveAll(s, parts, names);
    assert !WellNamed(ts[|ts| - 1]);
  }

  /** Printed text with a bar never resolves to a well named type, unless it is a channel. */
  lemma BarResolves(s: string, names: Scope)
    requires Spaced(s) && '|' in s && !StartsWith(s, "chan[")
    ensures !WellNamed(Resolve(s, names))
  {
    hide Spaced, SplitAt, Resolve, WellNamed;
    NotOpen(s);
    ResolvesUnion(s, names);
    BadUnion(s, names);
  }

  lemma NotOpen(s: string)
    requires Spaced(s) && s != ""
    ensures s[0] != '('
  {
  }

  /** Text with neither a bar nor a leading parenthesis is no union and no function type. */
  lemma NoSuchType(s: string, names: Scope)
    requires '|' !in s && (s != "" ==> s[0] != '(')
    ensures !Resolve(s, names).UnionT? && !Resolve(s, names).FuncT?
  {
  }

  lemma NeverUnknown(s: string, names: Scope)
    ensures !Resolve(s, names).Unknown?
  {
  }

  // ---- the parts of a printed type ----

  /** Printed text that does not come from a union or a function has no blanks at its ends. */
  lemma PrintEnds(t: Type)
    requires WellNamed(t) && !t.UnionT? && !t.FuncT?
    ensures var p := Print(t); p != "" && !Blank(p[0]) && !Blank(p[|p| - 1])
  {
    hide PrintAll, Inner;
    if Bracketed(t) {
      hide Print;
      BracketText(t);
    } else {
      SpacedLeaf(t);
    }
  }

  lemma BarBetween(ts: seq<Type>)
    requires |ts| > 1
    ensures '|' in PrintAll(ts, " | ")
  {
    hide Print;
    var p := Print(ts[0]);
    assert (p + " | ")[|p| + 1] == '|';
  }

  /** Printed text without bars does not start with a blank. */
  lemma {:induction false} PrintStarts(t: Type)
    requires WellNamed(t) && '|' !in Print(t) && Print(t) != ""
    ensures !Blank(Print(t)[0])
    decreases t
  {
    match t
    case UnionT(ms) =>
      UnionText(t);
      if |ms| == 1 {
        PrintStarts(ms[0]);
      } else if |ms| > 1 {
        BarBetween(ms);
      }
    case FuncT(_, _, _) => assert Print(t)[0] == 'f';
    case _ =>
      hide Print;
      PrintEnds(t);
  }

  lemma TrimNeat(p: string)
    requires p != "" && !Blank(p[0]) && !Blank(p[|p| - 1])
    ensures Trimmed(" " + p) == p && Trimmed(p) == p
  {
    var q := " " + p;
    assert q[|q| - 1] == p[|p| - 1];
    assert TrimRight(q) == q && TrimRight(p) == p && TrimLeft(p) == p;
    assert q[1..] == p;
    assert TrimLeft(q) == TrimLeft(p);
  }

  lemma {:induction false} TrimRightPrefix(s: string)
    ensures TrimRight(s) <= s
    decreases |s|
  {
    if s != [] && Blank(s[|s| - 1]) {
      TrimRightPrefix(s[..|s| - 1]);
    }
  }

  // Trimmed text starts with the first character that is no blank, unless all are blanks.
  lemma PartStarts(p: string, part: string)
    requires '|' !in p && (p != "" ==> !Blank(p[0]) && p[0] != '(') && (part == Trimmed(p) || part == Trimmed(" " + p))
    ensures '|' !in part && (part != "" ==> part[0] != '(')
    ensures p == "" && part == Trimmed(" " + p) ==> part == " "
  {
    var q := if part == Trimmed(p) then p else " " + p;
    TrimRightPrefix(q);
    var r := TrimRight(q);
    if r != "" && r[0] == ' ' && q == " " + p {
      assert r[1..] <= p;
      assert r[1..] == "" || TrimLeft(r[1..]) == r[1..];
    }
  }

  /** The part cut for an element resolves to the element only if its text does. */
  lemma PartResolves(t: Type, part: string, names: Scope)
    requires WellNamed(t) && '|' !in Print(t) && (part == Trimmed(Print(t)) || part == Trimmed(" " + Print(t)))
    requires Resolve(part, names) == t
    ensures Resolve(Print(t), names) == t
  {
    hide Print, TrimRight, TrimLeft, Trimmed, Resolve;
    var p := Print(t);
    PrintSpaced(t);
    if t.UnionT? || t.FuncT? {
      if p != "" {
        PrintStarts(t);
      }
      PartStarts(p, part);
      NoSuchType(part, names);
    } else {
      PrintEnds(t);
      TrimNeat(p);
    }
  }

  // What is cut for one element, after a blank or not; nothing for an empty text.
  function Here(p: string): seq<string> {
    if Trimmed(p) == "" then [] else [Trimmed(p)]
  }

  /** What printed elements with commas between them are cut into. */
  function Cut(ts: seq<Type>, blank: bool): seq<string>
    requires ts != []
    decreases |ts|
  {
    Here(if blank then " " + Print(ts[0]) else Print(ts[0])) + if |ts| == 1 then [] else Cut(ts[1..], true)
  }

  lemma GapText(s: string, start: nat, i: nat, j: nat)
    requires Gap(s, start, i) && i <= j <= |s|
    ensures s[start..j] == if start < i then " " + s[i..j] else s[i..j]
  {
  }

  lemma FirstPrinted(ts: seq<Type>)
    requires ts != []
    ensures Print(ts[0]) <= PrintAll(ts, ", ")
  {
    hide Print;
  }

  lemma Slice(s: string, i: nat, p: string)
    requires i <= |s| && p <= s[i..]
    ensures i + |p| <= |s| && s[i..i + |p|] == p
  {
    assert s[i..][..|p|] == s[i..i + |p|];
  }

  lemma {:induction false} SplitIsCut(ts: seq<Type>, s: string, start: nat, i: nat)
    requires Gap(s, start, i) && ts != [] && s[i..] == PrintAll(ts, ", ") && forall k :: 0 <= k < |ts| ==> WellNamed(ts[k])
    ensures SplitTop(s, i, start, 0) == Cut(ts, start < i)
    decreases |ts|
  {
    hide Print, Walk, SplitTop, Trimmed, WellNamed;
    var p := Print(ts[0]);
    var j := i + |p|;
    PrintCalm(ts[0], 0);
    FirstPrinted(ts);
    Slice(s, i, p);
    SplitSkips(s, i, j, start, 0);
    GapText(s, start, i, j);
    if |ts| == 1 {
      LastCut(s, start, j);
    } else {
      var tail := PrintAll(ts[1..], ", ");
      assert s[i..] == p + ", " + tail;
      CommaBehind(s, i, p, tail);
      CommaCut(s, start, j);
      SplitIsCut(ts[1..], s, j + 1, j + 2);
    }
  }

  lemma CommaBehind(s: string, i: nat, p: string, tail: string)
    requires i <= |s| && s[i..] == p + ", " + tail
    ensures var j := i + |p|;
            j + 1 < |s| && s[j] == ',' && s[j + 1] == ' ' && s[j + 2..] == tail
  {
    var t := s[i..];
    assert s[i + |p|] == t[|p|] && s[i + |p| + 1] == t[|p| + 1];
    assert s[i + |p| + 2..] == t[|p| + 2..];
  }

  lemma LastCut(s: string, start: nat, j: nat)
    requires start <= j == |s|
    ensures SplitTop(s, j, start, 0) == Here(s[start..j])
  {
    hide Trimmed;
  }

  lemma CommaCut(s: string, start: nat, j: nat)
    requires start <= j && j + 1 < |s| && s[j] == ',' && s[j + 1] == ' '
    ensures SplitTop(s, j, start, 0) == Here(s[start..j]) + SplitTop(s, j + 2, j + 1, 0)
  {
    hide Trimmed, Walk;
    BlankWalks(s[j + 1..j + 2]);
    SplitSkips(s, j + 1, j + 2, j + 1, 0);
  }

  lemma HereBlank(p: string)
    ensures Here(" " + p) == [Trimmed(" " + p)]
  {
  }

  lemma {:induction false} CutAll(ts: seq<Type>)
    requires ts != []
    ensures |Cut(ts, true)| == |ts| && forall i :: 0 <= i < |ts| ==> Cut(ts, true)[i] == Trimmed(" " + Print(ts[i]))
    decreases |ts|
  {
    hide Print, Trimmed, Here;
    HereBlank(Print(ts[0]));
    if |ts| > 1 {
      CutAll(ts[1..]);
      assert forall i :: 1 <= i < |ts| ==> ts[i] == ts[1..][i - 1];
    }
  }

  // The part cut for element `i`, if none was left out.
  function Part(ts: seq<Type>, i: nat): string
    requires i < |ts|
  {
    Trimmed(if i == 0 then Print(ts[0]) else " " + Print(ts[i]))
  }

  lemma CutParts(ts: seq<Type>)
    requires ts != [] && |Cut(ts, false)| == |ts|
    ensures forall i :: 0 <= i < |ts| ==> Cut(ts, false)[i] == Part(ts, i)
  {
    hide Print, Trimmed;
    if |ts| > 1 {
      CutAll(ts[1..]);
      assert forall i :: 1 <= i < |ts| ==> ts[i] == ts[1..][i - 1];
    }
  }

  // ---- the types that resolve to themselves ----

  lemma {:induction false} ResolvedAt(whole: string, parts: seq<string>, names: Scope, i: nat)
    requires i < |parts| && forall p :: p in parts ==> |p| < |whole|
    ensures ResolveAll(whole, parts, names)[i] == Resolve(parts[i], names)
    decreases |parts|
  {
    hide Resolve;
    if i > 0 {
      ResolvedAt(whole, parts[1..], names, i - 1);
    }
  }

  // A list, dict or tuple with a bar in its text is read as a union.
  lemma NoBar(t: Type, names: Scope)
    requires WellNamed(t) && Bracketed(t) && !t.ChanT? && Resolve(Print(t), names) == t
    ensures '|' !in Print(t) && '|' !in Inner(t)
  {
    hide Print, Inner, Resolve;
    BracketText(t);
    PrintSpaced(t);
    var s := Print(t);
    if StartsWith(s, "chan[") {
      ChanBase(Base(t), Inner(t), s);
    }
    if '|' in s {
      BarResolves(s, names);
    }
    assert forall i :: 0 <= i < |Inner(t)| ==> s[|Base(t)| + 1 + i] == Inner(t)[i];
  }

  lemma {:induction false} PrintableOnly(t: Type, names: Scope)
    requires WellNamed(t) && Resolve(Print(t), names) == t
    ensures Printable(t, names)
    decreases t, 1
  {
    hide Print, Resolve, PrintAll, SplitTop;
    match t
    case ListT(x) =>
      NoBar(t, names);
      BracketText(t);
      ResolvesGeneric("list", Print(x), Print(t), names);
      BracketPlaces("list", Print(x), Print(t));
      ListPart(x, Print(t), names);
      PrintableOnly(x, names);
    case DictT(k, v) => DictOnly(t, k, v, names);
    case TupleT(xs) => TupleOnly(t, xs, names);
    case ChanT(x) =>
      BracketText(t);
      ChanResolves(Print(x), Print(t), names);
      PrintableOnly(x, names);
    case UnionT(ms) => NotUnion(t, names);
    case FuncT(_, _, _) => NotFunc(t, names);
    case Unknown => NeverUnknown(Print(t), names);
    case _ => LeafOnly(t, names);
  }

  lemma ListPart(x: Type, s: string, names: Scope)
    requires Find(s, '[', 0) == 4 < |s| && s[4] == '[' && s[..4] == "list" && FindLast(s, ']', |s|) == Some(|s| - 1) && |s| > 5 && s[5..|s| - 1] == Print(x)
    requires Resolve(s, names) == ResolveGeneric(s, 4, names) == ListT(x)
    ensures Resolve(Print(x), names) == x
  {
    hide Print, Resolve, SplitTop;
  }

  lemma NotUnion(t: Type, names: Scope)
    requires WellNamed(t) && t.UnionT?
    ensures Resolve(Print(t), names) != t
  {
    hide Print, Resolve;
    var s := Print(t);
    PrintSpaced(t);
    if '|' !in s {
      NoSuchType(s, names);
    } else if StartsWith(s, "chan[") {
      ChanOrNot(s, names);
    } else {
      BarResolves(s, names);
    }
  }

  // A printed union that starts like a channel: still read as a channel, or its last member is not well named.
  lemma ChanOrNot(s: string, names: Scope)
    requires Spaced(s) && '|' in s && StartsWith(s, "chan[")
    ensures !WellNamed(Resolve(s, names)) || Resolve(s, names).ChanT?
  {
    if s[|s| - 1] == ']' {
      hide ResolveGeneric, ResolvePlain, ResolveAll;
    } else {
      hide Spaced, SplitAt, Resolve, WellNamed;
      NotOpen(s);
      ResolvesUnion(s, names);
      BadUnion(s, names);
    }
  }

  lemma NotFunc(t: Type, names: Scope)
    requires WellNamed(t) && t.FuncT?
    ensures Resolve(Print(t), names) != t
  {
    var s := Print(t);
    assert s[0] == 'f';
  }

  lemma LeafOnly(t: Type, names: Scope)
    requires WellNamed(t) && !Bracketed(t) && !t.UnionT? && !t.FuncT? && !t.Unknown? && Resolve(Print(t), names) == t
    ensures Printable(t, names)
  {
    hide Resolve;
    SpacedLeaf(t);
    ResolvesName(Print(t), names);
  }

  lemma {:induction false} DictOnly(t: Type, k: Type, v: Type, names: Scope)
    requires t == DictT(k, v) && WellNamed(t) && Resolve(Print(t), names) == t
    ensures Printable(k, names) && Printable(v, names)
    decreases t, 0
  {
    hide Print, Resolve, SplitTop, ResolveGeneric, PrintAll, FindLast, Find, Cut, Printable, Trimmed;
    var s, ts := Print(t), [k, v];
    var inner := PrintAll(ts, ", ");
    PairText(k, v);
    BracketText(t);
    NoBar(t, names);
    ResolvesGeneric("dict", inner, s, names);
    BracketPlaces("dict", inner, s);
    assert inner[0..] == inner;
    SplitIsCut(ts, inner, 0, 0);
    DictPieces(k, v, inner, s, names);
    CutParts(ts);
    NoBarParts(k, v, inner);
    PartResolves(k, Part(ts, 0), names);
    PartResolves(v, Part(ts, 1), names);
    PrintableOnly(k, names);
    PrintableOnly(v, names);
  }

  lemma DictPieces(k: Type, v: Type, inner: string, s: string, names: Scope)
    requires 4 < |s| && s[4] == '[' && s[..4] == "dict" && FindLast(s, ']', |s|) == Some(|s| - 1) && |s| > 5 && s[5..|s| - 1] == inner
    requires SplitTop(inner, 0, 0, 0) == Cut([k, v], false) && ResolveGeneric(s, 4, names) == DictT(k, v)
    ensures |Cut([k, v], false)| == 2 && Resolve(Cut([k, v], false)[0], names) == k && Resolve(Cut([k, v], false)[1], names) == v
  {
    hide Print, Resolve, SplitTop, ResolveAll, Cut;
  }

  lemma NoBarParts(k: Type, v: Type, inner: string)
    requires inner == Print(k) + ", " + Print(v) && '|' !in inner
    ensures '|' !in Print(k) && '|' !in Print(v)
  {
    hide Print;
    var p, q := Print(k), Print(v);
    assert forall i :: 0 <= i < |p| ==> inner[i] == p[i];
    assert forall i :: 0 <= i < |q| ==> inner[|p| + 2 + i] == q[i];
  }

  lemma {:induction false} NoBarIn(ts: seq<Type>, i: nat)
    requires i < |ts| && '|' !in PrintAll(ts, ", ")
    ensures '|' !in Print(ts[i])
    decreases |ts|
  {
    hide Print;
    if |ts| > 1 {
      var p, q := Print(ts[0]), PrintAll(ts[1..], ", ");
      var s := p + ", " + q;
      assert forall k :: 0 <= k < |p| ==> s[k] == p[k];
      assert forall k :: 0 <= k < |q| ==> s[|p| + 2 + k] == q[k];
      if i > 0 {
        NoBarIn(ts[1..], i - 1);
      }
    }
  }

  lemma TupleNames(xs: seq<Type>, names: Scope)
    ensures WellNamed(TupleT(xs)) <==> forall i :: 0 <= i < |xs| ==> WellNamed(xs[i])
    ensures Printable(TupleT(xs), names) <==> forall i :: 0 <= i < |xs| ==> Printable(xs[i], names)
  {
  }

  // A tuple that is read back was cut at its commas into parts that are read back.
  lemma TupleIsCut(xs: seq<Type>, names: Scope)
    requires xs != [] && WellNamed(TupleT(xs)) && Resolve(Print(TupleT(xs)), names) == TupleT(xs)
    ensures '|' !in PrintAll(xs, ", ") && |Cut(xs, false)| == |xs|
    ensures forall i :: 0 <= i < |xs| ==> Resolve(Cut(xs, false)[i], names) == xs[i]
  {
    hide Print, Resolve, SplitTop, ResolveGeneric, PrintAll, FindLast, Find, Cut, Trimmed, ResolveAll, WellNamed;
    var t := TupleT(xs);
    var s, inner, parts := Print(t), PrintAll(xs, ", "), Cut(xs, false);
    BracketText(t);
    NoBar(t, names);
    ResolvesGeneric("tuple", inner, s, names);
    BracketPlaces("tuple", inner, s);
    assert inner[0..] == inner;
    TupleNames(xs, names);
    SplitIsCut(xs, inner, 0, 0);
    TuplePieces(xs, inner, s, names);
    forall i | 0 <= i < |xs|
      ensures Resolve(parts[i], names) == xs[i]
    {
      ResolvedAt(s, parts, names, i);
    }
  }

  lemma {:induction false} TupleOnly(t: Type, xs: seq<Type>, names: Scope)
    requires t == TupleT(xs) && WellNamed(t) && Resolve(Print(t), names) == t
    ensures Printable(t, names)
    decreases t, 0
  {
    hide Print, Resolve, PrintAll, Cut, Trimmed, Printable, WellNamed;
    TupleNames(xs, names);
    if xs != [] {
      TupleIsCut(xs, names);
      CutParts(xs);
      forall i | 0 <= i < |xs|
        ensures Printable(xs[i], names)
      {
        NoBarIn(xs, i);
        PartResolves(xs[i], Cut(xs, false)[i], names);
        PrintableOnly(xs[i], names);
      }
    }
  }

  lemma TuplePieces(xs: seq<Type>, inner: string, s: string, names: Scope)
    requires 5 < |s| && s[5] == '[' && s[..5] == "tuple" && FindLast(s, ']', |s|) == Some(|s| - 1) && |s| > 6 && s[6..|s| - 1] == inner && xs != []
    requires SplitTop(inner, 0, 0, 0) == Cut(xs, false) && ResolveGeneric(s, 5, names) == TupleT(xs)
    ensures (forall p :: p in Cut(xs, false) ==> |p| < |s|) && ResolveAll(s, Cut(xs, false), names) == xs && |Cut(xs, false)| == |xs|
  {
    hide Print, Resolve, SplitTop, Cut;
  }

  /** A type with identifiers as names resolves from its printed text exactly if it is
      printable: no unknown, union or function type in it, and each name stands for what the
      scope says. */
  lemma PrintResolvesIff(t: Type, names: Scope)
    requires WellNamed(t)
    ensures Resolve(Print(t), names) == t <==> Printable(t, names)
  {
    hide Print, Resolve;
    if Printable(t, names) {
      PrintResolves(t, names);
    } else if Resolve(Print(t), names) == t {
      PrintableOnly(t, names);
    }
  }

  // Text without brackets, bars and arrows is a name.
  lemma PlainText(s: string, names: Scope)
    requires s != "" && s[0] != '(' && '[' !in s && '|' !in s
    ensures Resolve(s, names) == ResolvePlain(s, names)
  {
    hide ResolvePlain, ResolveGeneric, FindArrow, SplitAt;
    assert |s| > 4 ==> s[..5][4] == s[4] && "chan["[4] == '[';
  }

  lemma MisreadParts()
    ensures SplitAt("int | null", '|', 0) == ["int ", " null"]
  {
    var s := "int | null";
    assert s[4] == '|' && Find(s, '|', 0) == 4;
    assert s[0..4] == "int " && s[5..10] == " null";
    assert Find(s, '|', 5) == 10;
    assert SplitAt(s, '|', 5) == [" null"];
  }

  lemma MisreadNames(names: Scope)
    requires forall n :: n in names.typeParams || n in names.interfaces ==> IsName(n)
    ensures Resolve("int ", names) == ClassT("int ") && Resolve(" null", names) == ClassT(" null")
  {
    hide FindArrow, ResolveGeneric, Find;
    assert "int "[3] == ' ' && " null"[0] == ' ';
    assert !IsName("int ") && !IsName(" null");
    PlainText("int ", names);
    PlainText(" null", names);
  }

  /** The text of `int | null` resolves to a union of two classes, whose names have a blank. */
  lemma UnionMisread(names: Scope)
    requires forall n :: n in names.typeParams || n in names.interfaces ==> IsName(n)
    ensures Print(UnionT([IntT, NullT])) == "int | null"
    ensures Resolve("int | null", names) == UnionT([ClassT("int "), ClassT(" null")]) != UnionT([IntT, NullT])
  {
    hide FindArrow, ResolveGeneric, Find, SplitAt, Trimmed, IsName;
    assert [IntT, NullT][1..] == [NullT];
    assert Print(UnionT([IntT, NullT])) == "int | null";
    MisreadParts();
    MisreadNames(names);
    var s, parts := "int | null", ["int ", " null"];
    assert parts[1..] == [" null"];
    TwoResolved(s, parts, names);
    UnionResolves(s, names);
  }

  lemma TwoResolved(s: string, parts: seq<string>, names: Scope)
    requires |parts| == 2 && |parts[0]| < |s| && |parts[1]| < |s|
    ensures ResolveAll(s, parts, names) == [Resolve(parts[0], names), Resolve(parts[1], names)]
  {
    hide Resolve;
    assert parts[1..] == [parts[1]] && parts[1..][1..] == [];
  }

  lemma UnionResolves(s: string, names: Scope)
    requires s == "int | null"
    ensures Resolve(s, names) == UnionT(ResolveAll(s, SplitAt(s, '|', 0), names))
  {
    hide FindArrow, ResolveGeneric, Find, SplitAt, ResolveAll, ResolvePlain;
    assert s[4] == '|';
  }
}
