/** Assignability of types, case by case. */
module TypeTable {
  import opened Wrappers
  import opened Types

  predicate Basic(t: Type) {
    t.IntT? || t.FloatT? || t.StrT? || t.BoolT? || t.VoidT? || t.NullT?
  }

  predicate Wild(t: Type) {
    t.Unknown? || t.TypeVarT?
  }

  /** Of the basic types an integer may stand for a float, and null for any; nothing else goes. */
  lemma BasicTable(classes: ClassTable, rank: string -> nat, s: Type, t: Type)
    requires Acyclic(classes, rank) && Basic(s) && Basic(t)
    ensures Assignable(classes, rank, s, t) <==> s == t || s == NullT || (s == IntT && t == FloatT)
  {
    hide Acyclic;
  }

  /** What is not known goes both ways, and null goes anywhere. */
  lemma WildTable(classes: ClassTable, rank: string -> nat, s: Type, t: Type)
    requires Acyclic(classes, rank) && (Wild(s) || Wild(t) || s == NullT || s == t)
    ensures Assignable(classes, rank, s, t)
  {
    hide Acyclic;
  }

  /** A union takes what one of its members takes, and gives itself only to itself. */
  lemma UnionTable(classes: ClassTable, rank: string -> nat, s: Type, t: Type, ms: seq<Type>)
    requires Acyclic(classes, rank) && !Wild(s) && !Wild(t) && s != NullT
    ensures Assignable(classes, rank, s, UnionT(ms)) <==> s == UnionT(ms) || exists m :: m in ms && Assignable(classes, rank, s, m)
    ensures !t.UnionT? ==> !Assignable(classes, rank, UnionT(ms), t)
  {
    hide Acyclic, InheritsFrom, Implements;
  }

  lemma ListUnfolds(classes: ClassTable, rank: string -> nat, x: Type, y: Type)
    requires Acyclic(classes, rank) && x != y && !x.Unknown? && !y.Unknown?
    ensures Assignable(classes, rank, ListT(x), ListT(y)) == Assignable(classes, rank, x, y)
  {
    hide Acyclic, InheritsFrom, Implements;
  }

  /** Lists go element by element. */
  lemma ListTable(classes: ClassTable, rank: string -> nat, x: Type, y: Type)
    requires Acyclic(classes, rank)
    ensures Assignable(classes, rank, ListT(x), ListT(y)) <==> Assignable(classes, rank, x, y)
  {
    if x == y || Wild(x) || Wild(y) {
      ListWild(classes, rank, x, y);
      WildTable(classes, rank, x, y);
    } else {
      hide Acyclic, Assignable;
      ListUnfolds(classes, rank, x, y);
    }
  }

  lemma ListWild(classes: ClassTable, rank: string -> nat, x: Type, y: Type)
    requires Acyclic(classes, rank) && (x == y || Wild(x) || Wild(y))
    ensures Assignable(classes, rank, ListT(x), ListT(y))
  {
    hide Acyclic, InheritsFrom, Implements;
    WildTable(classes, rank, x, y);
  }

  /** Channels go only to the same. */
  lemma ChanTable(classes: ClassTable, rank: string -> nat, x: Type, y: Type)
    requires Acyclic(classes, rank)
    ensures Assignable(classes, rank, ChanT(x), ChanT(y)) <==> x == y
  {
    hide Acyclic, InheritsFrom, Implements;
  }

  /** Dicts go by their keys and by their values. */
  lemma DictTable(classes: ClassTable, rank: string -> nat, k: Type, v: Type, l: Type, w: Type)
    requires Acyclic(classes, rank)
    ensures Assignable(classes, rank, DictT(k, v), DictT(l, w)) <==> Assignable(classes, rank, k, l) && Assignable(classes, rank, v, w)
  {
    hide Acyclic, InheritsFrom, Implements;
    if k == l || Wild(k) || Wild(l) {
      WildTable(classes, rank, k, l);
    }
    if v == w || Wild(v) || Wild(w) {
      WildTable(classes, rank, v, w);
    }
  }

  /** Tuples of one length go part by part; a tuple type without parts takes every tuple. */
  lemma TupleTable(classes: ClassTable, rank: string -> nat, xs: seq<Type>, ys: seq<Type>)
    requires Acyclic(classes, rank)
    ensures Assignable(classes, rank, TupleT(xs), TupleT(ys)) <==>
            ys == [] || (|xs| == |ys| && forall i :: 0 <= i < |xs| ==> Assignable(classes, rank, xs[i], ys[i]))
  {
    hide Acyclic, InheritsFrom, Implements;
    if xs == ys {
      forall i | 0 <= i < |xs|
        ensures Assignable(classes, rank, xs[i], ys[i])
      {
        WildTable(classes, rank, xs[i], ys[i]);
      }
    }
  }

  /** A class goes to itself, its first bases and the interfaces of all its bases. */
  lemma ClassTable(classes: Types.ClassTable, rank: string -> nat, c: string, d: string, i: string)
    requires Acyclic(classes, rank)
    ensures Assignable(classes, rank, ClassT(c), ClassT(d)) <==> InheritsFrom(classes, rank, c, d)
    ensures Assignable(classes, rank, ClassT(c), InterfaceT(i)) <==> Implements(classes, rank, c, i)
    ensures !Assignable(classes, rank, InterfaceT(i), ClassT(c))
  {
    hide Acyclic, Implements;
  }

  // Each class on the path is a base of the one before, the first or another one.
  predicate Climbs(classes: Types.ClassTable, path: seq<string>) {
    path != [] && (forall i :: 0 <= i < |path| ==> path[i] in classes) &&
    forall i :: 0 <= i < |path| - 1 ==> classes[path[i]].base == Some(path[i + 1]) || path[i + 1] in classes[path[i]].extraBases
  }

  predicate ClimbsTo(classes: Types.ClassTable, path: seq<string>, c: string, i: string) {
    Climbs(classes, path) && path[0] == c && i in classes[path[|path| - 1]].interfaces
  }

  lemma {:induction false} ClimbImplements(classes: Types.ClassTable, rank: string -> nat, path: seq<string>, c: string, i: string)
    requires Acyclic(classes, rank) && ClimbsTo(classes, path, c, i)
    ensures Implements(classes, rank, c, i)
    decreases |path|
  {
    hide Acyclic;
    if |path| > 1 {
      assert classes[path[0]].base == Some(path[1]) || path[1] in classes[path[0]].extraBases;
      assert ClimbsTo(classes, path[1..], path[1], i);
      ClimbImplements(classes, rank, path[1..], path[1], i);
    }
  }

  lemma {:induction false} ImplementsClimb(classes: Types.ClassTable, rank: string -> nat, c: string, i: string) returns (path: seq<string>)
    requires Acyclic(classes, rank) && Implements(classes, rank, c, i)
    ensures ClimbsTo(classes, path, c, i)
    decreases rank(c)
  {
    hide ClimbsTo;
    if i in classes[c].interfaces {
      path := [c];
      ClimbNone(classes, c, i);
    } else {
      var b;
      if classes[c].base.Some? && Implements(classes, rank, classes[c].base.value, i) {
        b := classes[c].base.value;
      } else {
        b :| b in classes[c].extraBases && Implements(classes, rank, b, i);
      }
      var more := ImplementsClimb(classes, rank, b, i);
      path := [c] + more;
      ClimbOn(classes, c, more, b, i);
    }
  }

  lemma ClimbNone(classes: Types.ClassTable, c: string, i: string)
    requires c in classes && i in classes[c].interfaces
    ensures ClimbsTo(classes, [c], c, i)
  {
  }

  lemma ClimbOn(classes: Types.ClassTable, c: string, more: seq<string>, b: string, i: string)
    requires c in classes && (classes[c].base == Some(b) || b in classes[c].extraBases) && ClimbsTo(classes, more, b, i)
    ensures ClimbsTo(classes, [c] + more, c, i)
  {
    var path := [c] + more;
    assert forall k :: 0 < k < |path| ==> path[k] == more[k - 1];
    forall k | 0 <= k < |path| - 1
      ensures classes[path[k]].base == Some(path[k + 1]) || path[k + 1] in classes[path[k]].extraBases
    {
      if k > 0 {
        assert path[k] == more[k - 1] && path[k + 1] == more[k];
      }
    }
  }

  /** A class implements an interface exactly if some way up its bases, the further ones included,
      leads to a class that lists it. */
  lemma ImplementsIff(classes: Types.ClassTable, rank: string -> nat, c: string, i: string)
    requires Acyclic(classes, rank)
    ensures Implements(classes, rank, c, i) <==> exists path :: ClimbsTo(classes, path, c, i)
  {
    if Implements(classes, rank, c, i) {
      var path := ImplementsClimb(classes, rank, c, i);
    }
    if path :| ClimbsTo(classes, path, c, i) {
      ClimbImplements(classes, rank, path, c, i);
    }
  }

  // A way up the first bases.
  predicate Ladder(classes: Types.ClassTable, path: seq<string>, c: string, d: string) {
    path != [] && path[0] == c && path[|path| - 1] == d &&
    forall i :: 0 <= i < |path| - 1 ==> path[i] in classes && classes[path[i]].base == Some(path[i + 1])
  }

  lemma {:induction false} LadderInherits(classes: Types.ClassTable, rank: string -> nat, path: seq<string>, c: string, d: string)
    requires Acyclic(classes, rank) && Ladder(classes, path, c, d)
    ensures InheritsFrom(classes, rank, c, d)
    decreases |path|
  {
    hide Acyclic;
    if |path| > 1 {
      assert path[0] in classes && classes[path[0]].base == Some(path[1]);
      assert Ladder(classes, path[1..], path[1], d);
      LadderInherits(classes, rank, path[1..], path[1], d);
    }
  }

  lemma {:induction false} InheritsLadder(classes: Types.ClassTable, rank: string -> nat, c: string, d: string) returns (path: seq<string>)
    requires Acyclic(classes, rank) && InheritsFrom(classes, rank, c, d)
    ensures Ladder(classes, path, c, d)
    decreases rank(c)
  {
    hide Ladder;
    OneRung(classes, c);
    if c == d {
      path := [c];
    } else {
      var more := InheritsLadder(classes, rank, classes[c].base.value, d);
      path := [c] + more;
      LadderOn(classes, c, more, classes[c].base.value, d);
    }
  }

  lemma OneRung(classes: Types.ClassTable, c: string)
    ensures Ladder(classes, [c], c, c)
  {
  }

  lemma LadderOn(classes: Types.ClassTable, c: string, more: seq<string>, b: string, d: string)
    requires c in classes && classes[c].base == Some(b) && Ladder(classes, more, b, d)
    ensures Ladder(classes, [c] + more, c, d)
  {
    var path := [c] + more;
    forall k | 0 <= k < |path| - 1
      ensures path[k] in classes && classes[path[k]].base == Some(path[k + 1])
    {
      if k > 0 {
        assert path[k] == more[k - 1] && path[k + 1] == more[k];
      }
    }
  }

  /** A class inherits from another exactly if the first bases lead there. */
  lemma InheritsIff(classes: Types.ClassTable, rank: string -> nat, c: string, d: string)
    requires Acyclic(classes, rank)
    ensures InheritsFrom(classes, rank, c, d) <==> exists path :: Ladder(classes, path, c, d)
  {
    if InheritsFrom(classes, rank, c, d) {
      var path := InheritsLadder(classes, rank, c, d);
    }
    if path :| Ladder(classes, path, c, d) {
      LadderInherits(classes, rank, path, c, d);
    }
  }

  // The kind of a type, by a number of its own.
  function Kind(t: Type): nat {
    match t
    case IntT => 0
    case FloatT => 1
    case StrT => 2
    case BoolT => 3
    case VoidT => 4
    case NullT => 5
    case Unknown => 6
    case ListT(_) => 7
    case DictT(_, _) => 8
    case TupleT(_) => 9
    case ChanT(_) => 10
    case ClassT(_) => 11
    case InterfaceT(_) => 12
    case TypeVarT(_) => 13
    case UnionT(_) => 14
    case FuncT(_, _, _) => 15
  }

  /** Types of different kinds do not go to each other, but for the cases above. */
  lemma KindsApart(classes: Types.ClassTable, rank: string -> nat, s: Type, t: Type)
    requires Acyclic(classes, rank) && Kind(s) != Kind(t)
    ensures Assignable(classes, rank, s, t) ==>
              Wild(s) || Wild(t) || s == NullT || (s == IntT && t == FloatT) || t.UnionT? || (s.ClassT? && t.InterfaceT?)
  {
    hide Acyclic, InheritsFrom, Implements;
  }

  // A list of lists of such elements.
  function Nested(n: nat, t: Type): Type {
    if n == 0 then t else ListT(Nested(n - 1, t))
  }

  /** However deep in lists, integers go to floats, and not the other way. */
  lemma {:induction false} DeepWidening(classes: Types.ClassTable, rank: string -> nat, n: nat)
    requires Acyclic(classes, rank)
    ensures Assignable(classes, rank, Nested(n, IntT), Nested(n, FloatT)) && !Assignable(classes, rank, Nested(n, FloatT), Nested(n, IntT))
    decreases n
  {
    hide Acyclic;
    if n > 0 {
      DeepWidening(classes, rank, n - 1);
      ListTable(classes, rank, Nested(n - 1, IntT), Nested(n - 1, FloatT));
      ListTable(classes, rank, Nested(n - 1, FloatT), Nested(n - 1, IntT));
    }
  }
}
