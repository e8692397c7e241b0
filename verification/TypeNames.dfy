/** Type annotations as text: how a type is printed, and how its text is resolved. Text is cut
    at bars and at the commas outside of brackets, the parts are trimmed, and the base in front
    of the brackets says what they make. Both cuts are loops in the source. */
module TypeNames {
  import opened Wrappers
  import opened Types

  // ---- printing ----

  function Print(t: Type): string
    decreases t
  {
    match t
    case IntT => "int"
    case FloatT => "float"
    case StrT => "str"
    case BoolT => "bool"
    case VoidT => "void"
    case NullT => "null"
    case Unknown => "unknown"
    case ListT(x) => "list[" + Print(x) + "]"
    case DictT(k, v) => "dict[" + Print(k) + ", " + Print(v) + "]"
    case TupleT(xs) => "tuple[" + PrintAll(xs, ", ") + "]"
    case ChanT(x) => "chan[" + Print(x) + "]"
    case ClassT(n) => n
    case InterfaceT(n) => n
    case TypeVarT(n) => n
    case UnionT(ms) => PrintAll(ms, " | ")
    case FuncT(f, ps, r) => "func " + f + "(" + PrintAll(ps, ", ") + ") -> " + Print(r)
  }

  function PrintAll(ts: seq<Type>, separator: string): string
    decreases ts
  {
    if ts == [] then ""
    else if |ts| == 1 then Print(ts[0])
    else Print(ts[0]) + separator + PrintAll(ts[1..], separator)
  }

  // ---- looking for characters ----

  /** The first place of a character at or after `i`; the length if there is none. */
  function Find(s: string, c: char, i: nat): (r: nat)
    requires i <= |s|
    ensures i <= r <= |s| && (r < |s| ==> s[r] == c) && (forall k :: i <= k < r ==> s[k] != c)
    decreases |s| - i
  {
    if i == |s| || s[i] == c then i else Find(s, c, i + 1)
  }

  /** The last place of a character before `i`. */
  function FindLast(s: string, c: char, i: nat): (r: Option<nat>)
    requires i <= |s|
    ensures r.Some? ==> r.value < i && s[r.value] == c && forall k :: r.value < k < i ==> s[k] != c
    ensures r.None? ==> forall k :: 0 <= k < i ==> s[k] != c
  {
    if i == 0 then None else if s[i - 1] == c then Some(i - 1) else FindLast(s, c, i - 1)
  }

  predicate StartsWith(s: string, prefix: string) {
    |prefix| <= |s| && s[..|prefix|] == prefix
  }

  // The place of the arrow after a parameter list.
  function FindArrow(s: string, i: nat): (r: Option<nat>)
    requires i <= |s|
    ensures r.Some? ==> i <= r.value && r.value + 3 <= |s|
    decreases |s| - i
  {
    if i + 3 > |s| then None else if s[i..i + 3] == ")->" then Some(i) else FindArrow(s, i + 1)
  }

  /** The parts between separators; a separator at the end has no part after it. */
  function SplitAt(s: string, c: char, start: nat): (r: seq<string>)
    requires start <= |s|
    ensures forall p :: p in r ==> |p| <= |s| && (c in s ==> |p| < |s|)
    decreases |s| - start
  {
    if start >= |s| then []
    else
      var end := Find(s, c, start);
      [s[start..end]] + (if end < |s| then SplitAt(s, c, end + 1) else [])
  }

  predicate Blank(c: char) {
    c == ' ' || c == '\t'
  }

  function TrimLeft(s: string): (r: string)
    ensures |r| <= |s|
  {
    if s != [] && Blank(s[0]) then TrimLeft(s[1..]) else s
  }

  function TrimRight(s: string): (r: string)
    ensures |r| <= |s|
  {
    if s != [] && Blank(s[|s| - 1]) then TrimRight(s[..|s| - 1]) else s
  }

  // Without blanks around it, unless there is nothing else.
  function Trimmed(s: string): (r: string)
    ensures |r| <= |s|
  {
    var trimmed := TrimLeft(TrimRight(s));
    if trimmed == "" then s else trimmed
  }

  /** The parts between commas outside brackets, without blanks around them unless there is
      nothing else; empty parts are left out. */
  function SplitTop(s: string, i: nat, start: nat, depth: int): (r: seq<string>)
    requires start <= i <= |s|
    ensures forall p :: p in r ==> |p| <= |s|
    decreases |s| - i
  {
    var c := if i < |s| then s[i] else ',';
    var depth2 := if c == '[' || c == '(' then depth + 1 else if c == ']' || c == ')' then depth - 1 else depth;
    var cut := c == ',' && depth == 0;
    var part := Trimmed(s[start..i]);
    var here := if cut && part != "" then [part] else [];
    if i == |s| then here else here + SplitTop(s, i + 1, if cut then i + 1 else start, depth2)
  }

  // ---- resolving ----

  /** The names of interfaces, and the type parameters in scope. */
  datatype Scope = Scope(interfaces: set<string>, typeParams: set<string>)

  function Resolve(s: string, names: Scope): Type
    decreases |s|, 2
  {
    if StartsWith(s, "chan[") && s[|s| - 1] == ']' then ChanT(Resolve(s[5..|s| - 1], names))
    else
      var arrow := if s != [] && s[0] == '(' then FindArrow(s, 0) else None;
      if arrow.Some? && arrow.value >= 1 then
        FuncT("<fn_type>", ResolveAll(s, SplitAt(s[1..arrow.value], ',', 0), names), Resolve(s[arrow.value + 3..], names))
      else if '|' in s then UnionT(ResolveAll(s, SplitAt(s, '|', 0), names))
      else
        var open := Find(s, '[', 0);
        if open < |s| then ResolveGeneric(s, open, names) else ResolvePlain(s, names)
  }

  function ResolveAll(whole: string, parts: seq<string>, names: Scope): (r: seq<Type>)
    requires forall p :: p in parts ==> |p| < |whole|
    ensures |r| == |parts|
    decreases |whole|, 0, |parts|
  {
    if parts == [] then [] else [Resolve(parts[0], names)] + ResolveAll(whole, parts[1..], names)
  }

  /** Text with a bracket: a list, dict or tuple, or a class whose arguments are dropped. */
  function ResolveGeneric(s: string, open: nat, names: Scope): Type
    requires open < |s| && s[open] == '['
    decreases |s|, 1
  {
    var base := s[..open];
    var close := FindLast(s, ']', |s|);
    if close.Some? && close.value > open then
      var inner := s[open + 1..close.value];
      var parts := SplitTop(inner, 0, 0, 0);
      if base == "list" then ListT(Resolve(inner, names))
      else if base == "dict" && |parts| == 2 then DictT(Resolve(parts[0], names), Resolve(parts[1], names))
      else if base == "tuple" then TupleT(ResolveAll(s, parts, names))
      else ClassT(base)
    else ClassT(base)
  }

  function ResolvePlain(s: string, names: Scope): Type {
    if s in names.typeParams then TypeVarT(s)
    else if s == "int" then IntT
    else if s == "float" then FloatT
    else if s == "str" then StrT
    else if s == "bool" then BoolT
    else if s == "void" then VoidT
    else if s == "null" then NullT
    else if s == "list" then ListT(Unknown)
    else if s == "dict" then DictT(Unknown, Unknown)
    else if s == "tuple" then TupleT([])
    else if s in names.interfaces then InterfaceT(s)
    else ClassT(s)
  }
}
