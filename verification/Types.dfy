/** The type checker's types, and when a value of one may be assigned to another. */
module Types {
  import opened Wrappers

  datatype Type =
    | IntT | FloatT | StrT | BoolT | VoidT | NullT | Unknown
    | ListT(elem: Type)
    | DictT(key: Type, value: Type)
    | TupleT(elems: seq<Type>)
    | ChanT(item: Type)
    | ClassT(name: string)
    | InterfaceT(iface: string)
    | TypeVarT(param: string)
    | UnionT(members: seq<Type>)
    | FuncT(fname: string, params: seq<Type>, result: Type)

  /** What is known of a class; the first base is the one a subclass inherits from. */
  datatype ClassInfo = ClassInfo(base: Option<string>, extraBases: seq<string>, interfaces: seq<string>)

  type ClassTable = map<string, ClassInfo>

  // Every base of a class has a smaller rank: inheritance has no cycles.
  ghost predicate Acyclic(classes: ClassTable, rank: string -> nat) {
    forall c {:trigger classes[c]} :: c in classes ==>
      && (classes[c].base.Some? ==> rank(classes[c].base.value) < rank(c))
      && (forall b :: b in classes[c].extraBases ==> rank(b) < rank(c))
  }

  /** Walks up the first bases. */
  ghost predicate InheritsFrom(classes: ClassTable, rank: string -> nat, c: string, d: string)
    requires Acyclic(classes, rank)
    decreases rank(c)
  {
    c == d || (c in classes && classes[c].base.Some? && InheritsFrom(classes, rank, classes[c].base.value, d))
  }

  /** The class or one of its bases lists the interface. */
  ghost predicate Implements(classes: ClassTable, rank: string -> nat, c: string, iface: string)
    requires Acyclic(classes, rank)
    decreases rank(c)
  {
    c in classes &&
    (|| iface in classes[c].interfaces
     || (classes[c].base.Some? && Implements(classes, rank, classes[c].base.value, iface))
     || exists b :: b in classes[c].extraBases && Implements(classes, rank, b, iface))
  }

  ghost predicate Assignable(classes: ClassTable, rank: string -> nat, source: Type, target: Type)
    requires Acyclic(classes, rank)
    decreases target, source
  {
    if source == target || source.Unknown? || target.Unknown? || source.NullT? || source.TypeVarT? || target.TypeVarT? then true
    else if source.IntT? && target.FloatT? then true
    else if target.UnionT? then exists m :: m in target.members && Assignable(classes, rank, source, m)
    else
      match (source, target)
      case (ClassT(c), ClassT(d)) => InheritsFrom(classes, rank, c, d)
      case (ListT(x), ListT(y)) => y.Unknown? || x.Unknown? || Assignable(classes, rank, x, y)
      case (DictT(k, v), DictT(l, w)) =>
        || (l.Unknown? && w.Unknown?) || (k.Unknown? && v.Unknown?)
        || (Assignable(classes, rank, k, l) && Assignable(classes, rank, v, w))
      case (TupleT(xs), TupleT(ys)) =>
        ys == [] ||
        (|xs| == |ys| && forall i :: 0 <= i < |xs| ==> xs[i].Unknown? || ys[i].Unknown? || Assignable(classes, rank, xs[i], ys[i]))
      case (FuncT(_, ps, _), FuncT(_, qs, _)) =>
        |ps| == |qs| && forall i :: 0 <= i < |ps| ==> ps[i].Unknown? || qs[i].Unknown? || ps[i] == qs[i]
      case (ClassT(c), InterfaceT(i)) => Implements(classes, rank, c, i)
      case _ => false
  }

  /** No wildcard where assignability would look at it: in a list, dict or tuple at any depth,
      or as a parameter of a function type. */
  predicate Definite(t: Type)
    decreases t
  {
    match t
    case Unknown => false
    case TypeVarT(_) => false
    case ListT(x) => Definite(x)
    case DictT(k, v) => Definite(k) && Definite(v)
    case TupleT(xs) => forall i :: 0 <= i < |xs| ==> Definite(xs[i])
    case FuncT(_, ps, _) => forall i :: 0 <= i < |ps| ==> !ps[i].Unknown?
    case _ => true
  }

  lemma {:induction false} InheritsTrans(classes: ClassTable, rank: string -> nat, a: string, b: string, c: string)
    requires Acyclic(classes, rank) && InheritsFrom(classes, rank, a, b) && InheritsFrom(classes, rank, b, c)
    ensures InheritsFrom(classes, rank, a, c)
    decreases rank(a)
  {
    if a != b {
      InheritsTrans(classes, rank, classes[a].base.value, b, c);
    }
  }

  lemma {:induction false} InheritsImplements(classes: ClassTable, rank: string -> nat, a: string, b: string, iface: string)
    requires Acyclic(classes, rank) && InheritsFrom(classes, rank, a, b) && Implements(classes, rank, b, iface)
    ensures Implements(classes, rank, a, iface)
    decreases rank(a)
  {
    if a != b {
      InheritsImplements(classes, rank, classes[a].base.value, b, iface);
    }
  }

  /** Assignability is transitive through every definite type: over numeric widening, unions,
      lists, dicts, tuples, functions, classes and interfaces, nested in any way. */
  lemma {:induction false} AssignableTrans(classes: ClassTable, rank: string -> nat, a: Type, b: Type, c: Type)
    requires Acyclic(classes, rank) && Definite(b)
    requires Assignable(classes, rank, a, b) && Assignable(classes, rank, b, c)
    ensures Assignable(classes, rank, a, c)
    decreases c, b, 1
  {
    hide Acyclic, InheritsFrom, Implements;
    if a == b || b == c || c.Unknown? || c.TypeVarT? || a.Unknown? || a.TypeVarT? || a.NullT? {
    } else if c.UnionT? {
      var m :| m in c.members && Assignable(classes, rank, b, m);
      AssignableTrans(classes, rank, a, b, m);
    } else if !b.UnionT? && !b.NullT? {
      ShapesTrans(classes, rank, a, b, c);
    }
  }

  // Neither target is a union.
  lemma {:induction false} ShapesTrans(classes: ClassTable, rank: string -> nat, a: Type, b: Type, c: Type)
    requires Acyclic(classes, rank) && Definite(b) && !b.UnionT? && !c.UnionT? && !b.NullT?
    requires a != b && b != c && !c.Unknown? && !c.TypeVarT? && !a.Unknown? && !a.TypeVarT? && !a.NullT?
    requires Assignable(classes, rank, a, b) && Assignable(classes, rank, b, c)
    ensures Assignable(classes, rank, a, c)
    decreases c, b, 0
  {
    hide Acyclic, InheritsFrom, Implements;
    if !a.IntT? {
      match b
      case ClassT(y) =>
        if c.ClassT? {
          InheritsTrans(classes, rank, a.name, y, c.name);
        } else {
          InheritsImplements(classes, rank, a.name, y, c.iface);
        }
      case ListT(y) =>
        if !a.elem.Unknown? && !c.elem.Unknown? {
          AssignableTrans(classes, rank, a.elem, y, c.elem);
        }
      case DictT(l, w) =>
        AssignableTrans(classes, rank, a.key, l, c.key);
        AssignableTrans(classes, rank, a.value, w, c.value);
      case TupleT(ys) =>
        if c.elems != [] {
          forall i | 0 <= i < |ys|
            ensures a.elems[i].Unknown? || c.elems[i].Unknown? || Assignable(classes, rank, a.elems[i], c.elems[i])
          {
            assert Definite(ys[i]);
            AssignableTrans(classes, rank, a.elems[i], ys[i], c.elems[i]);
          }
        }
      case _ =>
    }
  }

  // `b` may be assigned from `a` and to `c`, but `c` not from `a`.
  ghost predicate Breaks(classes: ClassTable, rank: string -> nat, a: Type, b: Type, c: Type)
    requires Acyclic(classes, rank)
  {
    Assignable(classes, rank, a, b) && Assignable(classes, rank, b, c) && !Assignable(classes, rank, a, c)
  }

  lemma ListBreaks(classes: ClassTable, rank: string -> nat, a: Type, b: Type, c: Type)
    requires Acyclic(classes, rank) && Breaks(classes, rank, a, b, c)
    ensures Breaks(classes, rank, ListT(a), ListT(b), ListT(c))
  {
    hide Acyclic, InheritsFrom, Implements;
  }

  lemma KeyBreaks(classes: ClassTable, rank: string -> nat, a: Type, b: Type, c: Type, x: Type)
    requires Acyclic(classes, rank) && Breaks(classes, rank, a, b, c)
    ensures Breaks(classes, rank, DictT(a, x), DictT(b, x), DictT(c, x))
  {
    hide Acyclic, InheritsFrom, Implements;
    assert Assignable(classes, rank, x, x);
    assert !a.Unknown? && !c.Unknown?;
  }

  lemma ValueBreaks(classes: ClassTable, rank: string -> nat, a: Type, b: Type, c: Type, x: Type)
    requires Acyclic(classes, rank) && Breaks(classes, rank, a, b, c)
    ensures Breaks(classes, rank, DictT(x, a), DictT(x, b), DictT(x, c))
  {
    hide Acyclic, InheritsFrom, Implements;
    assert Assignable(classes, rank, x, x);
    assert !a.Unknown? && !c.Unknown?;
  }

  lemma TupleBreaks(classes: ClassTable, rank: string -> nat, xs: seq<Type>, i: nat, a: Type, c: Type)
    requires Acyclic(classes, rank) && i < |xs| && Breaks(classes, rank, a, xs[i], c)
    ensures Breaks(classes, rank, TupleT(xs[i := a]), TupleT(xs), TupleT(xs[i := c]))
  {
    hide Acyclic, InheritsFrom, Implements;
    assert xs[i := a][i] == a && xs[i := c][i] == c;
    assert forall j :: 0 <= j < |xs| ==> Assignable(classes, rank, xs[j], xs[j]);
    assert !a.Unknown? && !c.Unknown?;
  }

  lemma FuncBreaks(classes: ClassTable, rank: string -> nat, f: string, ps: seq<Type>, i: nat, r: Type)
    requires Acyclic(classes, rank) && i < |ps| && ps[i].Unknown?
    ensures Breaks(classes, rank, FuncT(f, ps[i := StrT], r), FuncT(f, ps, r), FuncT(f, ps[i := IntT], r))
  {
    hide Acyclic, InheritsFrom, Implements;
    assert ps[i := StrT][i] == StrT && ps[i := IntT][i] == IntT;
  }

  /** Through any other type it is not. */
  lemma {:induction false} WildBreaks(classes: ClassTable, rank: string -> nat, b: Type) returns (a: Type, c: Type)
    requires Acyclic(classes, rank) && !Definite(b)
    ensures Breaks(classes, rank, a, b, c)
    decreases b
  {
    match b
    case ListT(x) =>
      hide Breaks;
      var p, q := WildBreaks(classes, rank, x);
      ListBreaks(classes, rank, p, x, q);
      a, c := ListT(p), ListT(q);
    case DictT(k, v) =>
      hide Breaks;
      if !Definite(k) {
        var p, q := WildBreaks(classes, rank, k);
        KeyBreaks(classes, rank, p, k, q, v);
        a, c := DictT(p, v), DictT(q, v);
      } else {
        var p, q := WildBreaks(classes, rank, v);
        ValueBreaks(classes, rank, p, v, q, k);
        a, c := DictT(k, p), DictT(k, q);
      }
    case TupleT(xs) =>
      hide Breaks;
      var i :| 0 <= i < |xs| && !Definite(xs[i]);
      var p, q := WildBreaks(classes, rank, xs[i]);
      TupleBreaks(classes, rank, xs, i, p, q);
      a, c := TupleT(xs[i := p]), TupleT(xs[i := q]);
    case FuncT(f, ps, r) =>
      hide Breaks;
      var i :| 0 <= i < |ps| && ps[i].Unknown?;
      FuncBreaks(classes, rank, f, ps, i, r);
      a, c := FuncT(f, ps[i := StrT], r), FuncT(f, ps[i := IntT], r);
    case _ =>
      a, c := StrT, IntT;
  }

  /** So the definite types are exactly the ones assignability can go through. */
  lemma TransIff(classes: ClassTable, rank: string -> nat, b: Type)
    requires Acyclic(classes, rank)
    ensures Definite(b) <==> forall a, c :: !Breaks(classes, rank, a, b, c)
  {
    if Definite(b) {
      hide Acyclic, Assignable, Definite;
      forall a, c
        ensures !Breaks(classes, rank, a, b, c)
      {
        if Breaks(classes, rank, a, b, c) {
          AssignableTrans(classes, rank, a, b, c);
        }
      }
    } else {
      hide Breaks;
      var a, c := WildBreaks(classes, rank, b);
    }
  }

  predicate SameParams(ps: seq<Type>, qs: seq<Type>) {
    |ps| == |qs| && forall i :: 0 <= i < |ps| ==> ps[i].Unknown? || qs[i].Unknown? || ps[i] == qs[i]
  }

  /** Function types are compared by their parameters alone: a function is accepted in place of
      one with another result exactly if the parameters are the same. */
  lemma FunctionResultsIgnored(classes: ClassTable, rank: string -> nat, f: string, g: string, ps: seq<Type>, qs: seq<Type>, r: Type, q: Type)
    requires Acyclic(classes, rank)
    ensures Assignable(classes, rank, FuncT(f, ps, r), FuncT(g, qs, q)) <==> SameParams(ps, qs)
  {
    hide Acyclic, InheritsFrom, Implements;
  }

  /** A function that returns a string is accepted as one that returns an integer. */
  lemma ResultMismatch(classes: ClassTable, rank: string -> nat, f: string, g: string)
    requires Acyclic(classes, rank)
    ensures Assignable(classes, rank, FuncT(f, [], StrT), FuncT(g, [], IntT)) && !Assignable(classes, rank, StrT, IntT)
  {
    FunctionResultsIgnored(classes, rank, f, g, [], [], StrT, IntT);
  }
}
