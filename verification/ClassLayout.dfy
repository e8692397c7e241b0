/** The fields of classes: where each field of an object is kept. */
module ClassLayout {
  import opened Wrappers

  // What an assignment writes to: a field of the object itself, or something else.
  datatype Target = Field(name: string) | Elsewhere

  /** The statements of a class body. `a = b = v` has the extra target `b`. Constructors and
      methods are `Func`; statements that hold no others are `Other`. */
  datatype Stmt =
    | Func(body: seq<Stmt>)
    | Assign(target: Target, extras: seq<Target>)
    | If(thn: seq<Stmt>, elsifs: seq<Block>, els: seq<Stmt>)
    | For(body: seq<Stmt>, els: seq<Stmt>)
    | While(body: seq<Stmt>, els: seq<Stmt>)
    | Try(body: seq<Stmt>, catches: seq<Block>, finally: seq<Stmt>)
    | With(body: seq<Stmt>)
    | Match(cases: seq<Block>)
    | Other

  datatype Block = Block(stmts: seq<Stmt>)

  datatype ClassDef = ClassDef(base: Option<string>, body: seq<Stmt>)

  type Classes = map<string, ClassDef>

  ghost predicate Acyclic(classes: Classes, rank: string -> nat) {
    forall c {:trigger classes[c]} :: c in classes && classes[c].base.Some? ==> rank(classes[c].base.value) < rank(c)
  }

  /** Adds a field unless it is there. */
  function Add(fields: seq<string>, f: string): seq<string> {
    if f in fields then fields else fields + [f]
  }

  function AddAll(fields: seq<string>, more: seq<string>): seq<string>
    decreases |more|
  {
    if more == [] then fields else AddAll(Add(fields, more[0]), more[1..])
  }

  /** The fields the analyzer meets, in its order. It looks neither at extra targets nor into the
      else branches of loops, with statements and matches. */
  function Collected(ss: seq<Stmt>): seq<string>
    decreases ss
  {
    if ss == [] then [] else OfStmt(ss[0]) + Collected(ss[1..])
  }

  function OfStmt(s: Stmt): seq<string>
    decreases s, 0
  {
    match s
    case Func(body) => Collected(body)
    case Assign(target, _) => if target.Field? then [target.name] else []
    case If(thn, elsifs, els) => Collected(thn) + OfBlocks(elsifs) + Collected(els)
    case For(body, _) => Collected(body)
    case While(body, _) => Collected(body)
    case Try(body, catches, finally) => Collected(body) + OfBlocks(catches) + Collected(finally)
    case _ => []
  }

  function OfBlocks(bs: seq<Block>): seq<string>
    decreases bs
  {
    if bs == [] then [] else Collected(bs[0].stmts) + OfBlocks(bs[1..])
  }

  /** The base's fields first, then the class's own. */
  ghost function Layout(classes: Classes, rank: string -> nat, c: string): seq<string>
    requires Acyclic(classes, rank)
    decreases rank(c)
  {
    if c !in classes then []
    else AddAll(if classes[c].base.Some? then Layout(classes, rank, classes[c].base.value) else [], Collected(classes[c].body))
  }

  // ---- slots ----

  predicate NoDuplicates(s: seq<string>) {
    forall i, j :: 0 <= i < j < |s| ==> s[i] != s[j]
  }

  lemma {:induction false} AddAllKeeps(fields: seq<string>, more: seq<string>)
    ensures fields <= AddAll(fields, more)
    ensures NoDuplicates(fields) ==> NoDuplicates(AddAll(fields, more))
    ensures forall f :: f in AddAll(fields, more) <==> f in fields || f in more
    decreases |more|
  {
    if more != [] {
      AddAllKeeps(Add(fields, more[0]), more[1..]);
      assert more == [more[0]] + more[1..];
    }
  }

  lemma {:induction false} AddAllFresh(fields: seq<string>, more: seq<string>)
    requires NoDuplicates(fields + more)
    ensures AddAll(fields, more) == fields + more
    decreases |more|
  {
    if more != [] {
      assert (fields + more)[|fields|] == more[0];
      assert more[0] !in fields by {
        assert forall i :: 0 <= i < |fields| ==> (fields + more)[i] == fields[i];
      }
      assert fields + [more[0]] + more[1..] == fields + more;
      AddAllFresh(fields + [more[0]], more[1..]);
    } else {
      assert fields + more == fields;
    }
  }

  lemma {:induction false} AddAllConcat(fields: seq<string>, more: seq<string>, last: seq<string>)
    ensures AddAll(fields, more + last) == AddAll(AddAll(fields, more), last)
    decreases |more|
  {
    if more == [] {
      assert more + last == last;
    } else {
      assert (more + last)[1..] == more[1..] + last;
      AddAllConcat(Add(fields, more[0]), more[1..], last);
    }
  }

  /** The ancestors of a class. */
  ghost predicate Extends(classes: Classes, rank: string -> nat, c: string, d: string)
    requires Acyclic(classes, rank)
    decreases rank(c)
  {
    c == d || (c in classes && classes[c].base.Some? && Extends(classes, rank, classes[c].base.value, d))
  }

  /** Each field has one slot, and every ancestor's fields keep their slots in the class. */
  lemma {:induction false} LayoutStable(classes: Classes, rank: string -> nat, c: string, d: string)
    requires Acyclic(classes, rank) && Extends(classes, rank, c, d)
    ensures NoDuplicates(Layout(classes, rank, c))
    ensures Layout(classes, rank, d) <= Layout(classes, rank, c)
    decreases rank(c)
  {
    if c in classes {
      var def := classes[c];
      var inherited := if def.base.Some? then Layout(classes, rank, def.base.value) else [];
      if def.base.Some? {
        LayoutStable(classes, rank, def.base.value, if c == d then def.base.value else d);
      }
      AddAllKeeps(inherited, Collected(def.body));
    }
  }

  // The class or an ancestor of it has the field where the analyzer looks.
  ghost predicate Met(classes: Classes, rank: string -> nat, c: string, f: string)
    requires Acyclic(classes, rank)
  {
    exists d :: Extends(classes, rank, c, d) && d in classes && f in Collected(classes[d].body)
  }

  /** A layout has just the fields that are met in the class or an ancestor. */
  lemma {:induction false} LayoutMet(classes: Classes, rank: string -> nat, c: string, f: string)
    requires Acyclic(classes, rank)
    ensures f in Layout(classes, rank, c) <==> Met(classes, rank, c, f)
    decreases rank(c)
  {
    if c in classes {
      var def := classes[c];
      var inherited := if def.base.Some? then Layout(classes, rank, def.base.value) else [];
      AddAllKeeps(inherited, Collected(def.body));
      if def.base.Some? {
        LayoutMet(classes, rank, def.base.value, f);
        if f in inherited {
          var d :| Extends(classes, rank, def.base.value, d) && d in classes && f in Collected(classes[d].body);
          assert Extends(classes, rank, c, d);
        }
      }
      assert Extends(classes, rank, c, c);
    }
  }

  // ---- what is assigned and what is met ----

  /** A statement in a list, or in a list one of its statements holds, whatever the statement. */
  ghost predicate Within(ss: seq<Stmt>, s: Stmt)
    decreases ss
  {
    exists i :: 0 <= i < |ss| && (ss[i] == s || Inside(ss[i], s))
  }

  ghost predicate Inside(t: Stmt, s: Stmt)
    decreases t, 0
  {
    match t
    case Func(body) => Within(body, s)
    case If(thn, elsifs, els) => Within(thn, s) || WithinBlocks(elsifs, s) || Within(els, s)
    case For(body, els) => Within(body, s) || Within(els, s)
    case While(body, els) => Within(body, s) || Within(els, s)
    case Try(body, catches, finally) => Within(body, s) || WithinBlocks(catches, s) || Within(finally, s)
    case With(body) => Within(body, s)
    case Match(cases) => WithinBlocks(cases, s)
    case _ => false
  }

  ghost predicate WithinBlocks(bs: seq<Block>, s: Stmt)
    decreases bs
  {
    exists i :: 0 <= i < |bs| && Within(bs[i].stmts, s)
  }

  predicate Writes(s: Stmt, f: string) {
    s.Assign? && (s.target == Field(f) || Field(f) in s.extras)
  }

  /** Some assignment, wherever it stands, writes the field. */
  ghost predicate Assigns(ss: seq<Stmt>, f: string) {
    exists s :: Within(ss, s) && Writes(s, f)
  }

  function SkippedIn(s: Stmt): seq<Block> {
    match s
    case For(_, els) => [Block(els)]
    case While(_, els) => [Block(els)]
    case With(body) => [Block(body)]
    case Match(cases) => cases
    case _ => []
  }

  /** The field is written by an extra target, or within a list the analyzer skips. */
  ghost predicate AssignsHidden(ss: seq<Stmt>, f: string) {
    || (exists s :: Within(ss, s) && s.Assign? && Field(f) in s.extras)
    || (exists s, t :: Within(ss, s) && WithinBlocks(SkippedIn(s), t) && Writes(t, f))
  }

  lemma WithinUnfolds(ss: seq<Stmt>, s: Stmt)
    ensures Within(ss, s) <==> ss != [] && (ss[0] == s || Inside(ss[0], s) || Within(ss[1..], s))
  {
    hide Inside;
    if ss != [] && Within(ss[1..], s) {
      var i :| 0 <= i < |ss[1..]| && (ss[1..][i] == s || Inside(ss[1..][i], s));
      assert ss[i + 1] == ss[1..][i];
    }
    if Within(ss, s) {
      var i :| 0 <= i < |ss| && (ss[i] == s || Inside(ss[i], s));
      assert i > 0 ==> ss[1..][i - 1] == ss[i];
    }
  }

  lemma BlocksUnfold(bs: seq<Block>, s: Stmt)
    ensures WithinBlocks(bs, s) <==> bs != [] && (Within(bs[0].stmts, s) || WithinBlocks(bs[1..], s))
  {
    hide Within;
    if bs != [] && WithinBlocks(bs[1..], s) {
      var i :| 0 <= i < |bs[1..]| && Within(bs[1..][i].stmts, s);
      assert bs[i + 1] == bs[1..][i];
    }
    if WithinBlocks(bs, s) {
      var i :| 0 <= i < |bs| && Within(bs[i].stmts, s);
      assert i > 0 ==> bs[1..][i - 1] == bs[i];
    }
  }

  // ---- each field that is met is assigned ----

  lemma {:induction false} MetAssigned(ss: seq<Stmt>, f: string) returns (s: Stmt)
    requires f in Collected(ss)
    ensures Within(ss, s) && s.Assign? && s.target == Field(f)
    decreases ss
  {
    hide Inside, Within;
    if f in OfStmt(ss[0]) {
      s := StmtMetAssigned(ss[0], f);
    } else {
      s := MetAssigned(ss[1..], f);
    }
    WithinUnfolds(ss, s);
  }

  lemma {:induction false} StmtMetAssigned(t: Stmt, f: string) returns (s: Stmt)
    requires f in OfStmt(t)
    ensures (s == t || Inside(t, s)) && s.Assign? && s.target == Field(f)
    decreases t, 0
  {
    hide Within, WithinBlocks, Collected, OfBlocks;
    match t
    case Func(body) => s := MetAssigned(body, f);
    case Assign(_, _) => s := t;
    case If(thn, elsifs, els) =>
      if f in Collected(thn) {
        s := MetAssigned(thn, f);
      } else if f in OfBlocks(elsifs) {
        s := BlockMetAssigned(elsifs, f);
      } else {
        s := MetAssigned(els, f);
      }
    case For(body, _) => s := MetAssigned(body, f);
    case While(body, _) => s := MetAssigned(body, f);
    case Try(body, catches, finally) =>
      if f in Collected(body) {
        s := MetAssigned(body, f);
      } else if f in OfBlocks(catches) {
        s := BlockMetAssigned(catches, f);
      } else {
        s := MetAssigned(finally, f);
      }
  }

  lemma {:induction false} BlockMetAssigned(bs: seq<Block>, f: string) returns (s: Stmt)
    requires f in OfBlocks(bs)
    ensures WithinBlocks(bs, s) && s.Assign? && s.target == Field(f)
    decreases bs
  {
    hide Within, WithinBlocks, Collected;
    if f in Collected(bs[0].stmts) {
      s := MetAssigned(bs[0].stmts, f);
    } else {
      s := BlockMetAssigned(bs[1..], f);
    }
    BlocksUnfold(bs, s);
  }

  // ---- each field that is assigned is met or hidden ----

  // A statement the analyzer does not come to, because of `h`.
  ghost predicate Behind(h: Stmt, s: Stmt) {
    WithinBlocks(SkippedIn(h), s)
  }

  lemma {:induction false} AssignedMet(ss: seq<Stmt>, s: Stmt, f: string)
    requires Within(ss, s) && s.Assign? && s.target == Field(f)
    ensures f in Collected(ss) || exists h :: Within(ss, h) && Behind(h, s)
    decreases ss
  {
    hide Inside, Within, Behind;
    WithinUnfolds(ss, s);
    if Within(ss[1..], s) {
      AssignedMet(ss[1..], s, f);
      if f !in Collected(ss[1..]) {
        var h :| Within(ss[1..], h) && Behind(h, s);
        WithinUnfolds(ss, h);
      }
    } else if Inside(ss[0], s) {
      StmtAssignedMet(ss[0], s, f);
      if f !in OfStmt(ss[0]) {
        var h :| (h == ss[0] || Inside(ss[0], h)) && Behind(h, s);
        WithinUnfolds(ss, h);
      }
    }
  }

  lemma {:induction false} StmtAssignedMet(t: Stmt, s: Stmt, f: string)
    requires Inside(t, s) && s.Assign? && s.target == Field(f)
    ensures f in OfStmt(t) || exists h :: (h == t || Inside(t, h)) && Behind(h, s)
    decreases t, 0
  {
    hide Within, WithinBlocks, Collected, OfBlocks, Behind;
    match t
    case Func(body) => AssignedMet(body, s, f);
    case If(thn, elsifs, els) =>
      if Within(thn, s) {
        AssignedMet(thn, s, f);
      } else if WithinBlocks(elsifs, s) {
        BlockAssignedMet(elsifs, s, f);
      } else {
        AssignedMet(els, s, f);
      }
    case For(body, els) =>
      if Within(body, s) {
        AssignedMet(body, s, f);
      } else {
        OneBehind(t, els, s);
      }
    case While(body, els) =>
      if Within(body, s) {
        AssignedMet(body, s, f);
      } else {
        OneBehind(t, els, s);
      }
    case Try(body, catches, finally) =>
      if Within(body, s) {
        AssignedMet(body, s, f);
      } else if WithinBlocks(catches, s) {
        BlockAssignedMet(catches, s, f);
      } else {
        AssignedMet(finally, s, f);
      }
    case With(body) => OneBehind(t, body, s);
    case Match(cases) => assert Behind(t, s) by { CasesBehind(t, s); }
  }

  lemma OneBehind(t: Stmt, ss: seq<Stmt>, s: Stmt)
    requires SkippedIn(t) == [Block(ss)] && Within(ss, s)
    ensures Behind(t, s)
  {
    hide Within;
    assert [Block(ss)][0].stmts == ss;
  }

  lemma CasesBehind(t: Stmt, s: Stmt)
    requires t.Match? && WithinBlocks(t.cases, s)
    ensures Behind(t, s)
  {
    hide Within, WithinBlocks;
  }

  lemma {:induction false} BlockAssignedMet(bs: seq<Block>, s: Stmt, f: string)
    requires WithinBlocks(bs, s) && s.Assign? && s.target == Field(f)
    ensures f in OfBlocks(bs) || exists h :: WithinBlocks(bs, h) && Behind(h, s)
    decreases bs
  {
    hide Within, WithinBlocks, Collected, Behind;
    BlocksUnfold(bs, s);
    if Within(bs[0].stmts, s) {
      AssignedMet(bs[0].stmts, s, f);
      if f !in Collected(bs[0].stmts) {
        var h :| Within(bs[0].stmts, h) && Behind(h, s);
        BlocksUnfold(bs, h);
      }
    } else {
      BlockAssignedMet(bs[1..], s, f);
      if f !in OfBlocks(bs[1..]) {
        var h :| WithinBlocks(bs[1..], h) && Behind(h, s);
        BlocksUnfold(bs, h);
      }
    }
  }

  // ---- what is hidden is assigned ----

  lemma BehindInside(h: Stmt, s: Stmt)
    requires Behind(h, s)
    ensures Inside(h, s)
  {
    hide Within;
    match h
    case For(_, els) => assert [Block(els)][0].stmts == els;
    case While(_, els) => assert [Block(els)][0].stmts == els;
    case With(body) => assert [Block(body)][0].stmts == body;
    case _ =>
  }

  lemma {:induction false} WithinTrans(ss: seq<Stmt>, h: Stmt, s: Stmt)
    requires Within(ss, h) && Inside(h, s)
    ensures Within(ss, s)
    decreases ss
  {
    hide Inside, Within;
    WithinUnfolds(ss, h);
    WithinUnfolds(ss, s);
    if Within(ss[1..], h) {
      WithinTrans(ss[1..], h, s);
    } else if Inside(ss[0], h) {
      InsideTrans(ss[0], h, s);
    }
  }

  lemma {:induction false} InsideTrans(t: Stmt, h: Stmt, s: Stmt)
    requires Inside(t, h) && Inside(h, s)
    ensures Inside(t, s)
    decreases t, 0
  {
    hide Within, WithinBlocks;
    match t
    case Func(body) => WithinTrans(body, h, s);
    case If(thn, elsifs, els) =>
      if Within(thn, h) {
        WithinTrans(thn, h, s);
      } else if WithinBlocks(elsifs, h) {
        BlocksTrans(elsifs, h, s);
      } else {
        WithinTrans(els, h, s);
      }
    case For(body, els) =>
      if Within(body, h) {
        WithinTrans(body, h, s);
      } else {
        WithinTrans(els, h, s);
      }
    case While(body, els) =>
      if Within(body, h) {
        WithinTrans(body, h, s);
      } else {
        WithinTrans(els, h, s);
      }
    case Try(body, catches, finally) =>
      if Within(body, h) {
        WithinTrans(body, h, s);
      } else if WithinBlocks(catches, h) {
        BlocksTrans(catches, h, s);
      } else {
        WithinTrans(finally, h, s);
      }
    case With(body) => WithinTrans(body, h, s);
    case Match(cases) => BlocksTrans(cases, h, s);
  }

  lemma {:induction false} BlocksTrans(bs: seq<Block>, h: Stmt, s: Stmt)
    requires WithinBlocks(bs, h) && Inside(h, s)
    ensures WithinBlocks(bs, s)
    decreases bs
  {
    hide Within, WithinBlocks, Inside;
    BlocksUnfold(bs, h);
    BlocksUnfold(bs, s);
    if Within(bs[0].stmts, h) {
      WithinTrans(bs[0].stmts, h, s);
    } else {
      BlocksTrans(bs[1..], h, s);
    }
  }

  /** Whatever assigns a field, and wherever: the analyzer meets the field, or the assignment is
      hidden from it. */
  lemma AssignedIff(ss: seq<Stmt>, f: string)
    ensures Assigns(ss, f) <==> f in Collected(ss) || AssignsHidden(ss, f)
  {
    hide Within, Inside, Collected, Behind;
    if Assigns(ss, f) {
      var s :| Within(ss, s) && Writes(s, f);
      if Field(f) !in s.extras {
        AssignedMet(ss, s, f);
        if f !in Collected(ss) {
          var h :| Within(ss, h) && Behind(h, s);
          HiddenBehind(ss, h, s, f);
        }
      }
    }
    if f in Collected(ss) {
      var s := MetAssigned(ss, f);
      assert Writes(s, f);
    }
    if AssignsHidden(ss, f) {
      HiddenAssigned(ss, f);
    }
  }

  lemma HiddenBehind(ss: seq<Stmt>, h: Stmt, s: Stmt, f: string)
    requires Within(ss, h) && Behind(h, s) && Writes(s, f)
    ensures AssignsHidden(ss, f)
  {
    hide Within, WithinBlocks;
  }

  lemma HiddenAssigned(ss: seq<Stmt>, f: string)
    requires AssignsHidden(ss, f)
    ensures Assigns(ss, f)
  {
    hide Within, Inside, WithinBlocks;
    if exists s :: Within(ss, s) && s.Assign? && Field(f) in s.extras {
      var s :| Within(ss, s) && s.Assign? && Field(f) in s.extras;
      assert Writes(s, f);
    } else {
      var h, s :| Within(ss, h) && WithinBlocks(SkippedIn(h), s) && Writes(s, f);
      BehindInside(h, s);
      WithinTrans(ss, h, s);
    }
  }

  // ---- the layout has what is assigned, or not ----

  ghost predicate AssignedBy(classes: Classes, rank: string -> nat, c: string, f: string)
    requires Acyclic(classes, rank)
  {
    exists d :: Extends(classes, rank, c, d) && d in classes && Assigns(classes[d].body, f)
  }

  ghost predicate HiddenBy(classes: Classes, rank: string -> nat, c: string, f: string)
    requires Acyclic(classes, rank)
  {
    exists d :: Extends(classes, rank, c, d) && d in classes && AssignsHidden(classes[d].body, f)
  }

  /** A class has no slot for a field that it or an ancestor assigns exactly if all those
      assignments are hidden. */
  lemma LayoutMisses(classes: Classes, rank: string -> nat, c: string, f: string)
    requires Acyclic(classes, rank)
    ensures f in Layout(classes, rank, c) ==> AssignedBy(classes, rank, c, f)
    ensures AssignedBy(classes, rank, c, f) && f !in Layout(classes, rank, c) <==>
            HiddenBy(classes, rank, c, f) && !Met(classes, rank, c, f)
  {
    hide Layout, Extends, Assigns, AssignsHidden, Collected;
    LayoutMet(classes, rank, c, f);
    forall d | d in classes
      ensures Assigns(classes[d].body, f) <==> f in Collected(classes[d].body) || AssignsHidden(classes[d].body, f)
    {
      AssignedIff(classes[d].body, f);
    }
  }

  /** A layout has a slot for every field that is assigned exactly if no field is assigned only
      by extra targets, in match cases, in with statements and in the else branches of loops. */
  lemma LayoutComplete(classes: Classes, rank: string -> nat, c: string)
    requires Acyclic(classes, rank)
    ensures (forall f :: AssignedBy(classes, rank, c, f) ==> f in Layout(classes, rank, c)) <==>
            (forall f :: HiddenBy(classes, rank, c, f) ==> Met(classes, rank, c, f))
  {
    hide Layout, AssignedBy, HiddenBy, Met;
    forall f
      ensures AssignedBy(classes, rank, c, f) && f !in Layout(classes, rank, c) <==>
              HiddenBy(classes, rank, c, f) && !Met(classes, rank, c, f)
    {
      LayoutMisses(classes, rank, c, f);
    }
  }

  // this.f = ..
  function Set(f: string): seq<Stmt> {
    [Assign(Field(f), [])]
  }

  // An assignment, a branch, a for, a while and a try, each with a field of its own in every list.
  const SEVERAL := Set("a") + [If(Set("b"), [Block(Set("c"))], Set("d")), For(Set("e"), Set("y")), While(Set("f"), Set("z")),
                                Try(Set("g"), [Block(Set("h"))], Set("i"))] + Set("a")

  lemma SetMet(f: string)
    ensures Collected(Set(f)) == [f] && OfBlocks([Block(Set(f))]) == [f]
  {
    assert Set(f)[1..] == [] && [Block(Set(f))][1..] == [] && [f] + [] == [f];
  }

  lemma {:induction false} MetBoth(ss: seq<Stmt>, ts: seq<Stmt>)
    ensures Collected(ss + ts) == Collected(ss) + Collected(ts)
    decreases |ss|
  {
    if ss == [] {
      assert ss + ts == ts;
    } else {
      assert (ss + ts)[1..] == ss[1..] + ts;
      MetBoth(ss[1..], ts);
    }
  }

  lemma MetOne(s: Stmt)
    ensures Collected([s]) == OfStmt(s)
  {
    assert [s][1..] == [] && OfStmt(s) + [] == OfStmt(s);
  }

  lemma SeveralMet()
    ensures Collected(SEVERAL) == ["a", "b", "c", "d", "e", "f", "g", "h", "i", "a"]
  {
    hide Collected, OfBlocks;
    SetMet("a");
    SetMet("b");
    SetMet("c");
    SetMet("d");
    SetMet("e");
    SetMet("f");
    SetMet("g");
    SetMet("h");
    SetMet("i");
    var branch, loop, other := If(Set("b"), [Block(Set("c"))], Set("d")), For(Set("e"), Set("y")), While(Set("f"), Set("z"));
    var attempt := Try(Set("g"), [Block(Set("h"))], Set("i"));
    MetOne(branch);
    MetOne(loop);
    MetOne(other);
    MetOne(attempt);
    assert SEVERAL == Set("a") + ([branch] + ([loop] + ([other] + ([attempt] + Set("a")))));
    MetBoth(Set("a"), [branch] + ([loop] + ([other] + ([attempt] + Set("a")))));
    MetBoth([branch], [loop] + ([other] + ([attempt] + Set("a"))));
    MetBoth([loop], [other] + ([attempt] + Set("a")));
    MetBoth([other], [attempt] + Set("a"));
    MetBoth([attempt], Set("a"));
    assert OfStmt(branch) == ["b", "c", "d"] && OfStmt(loop) == ["e"] && OfStmt(other) == ["f"] && OfStmt(attempt) == ["g", "h", "i"];
  }

  lemma {:induction false} AddedInOrder(before: seq<string>, fields: seq<string>, last: string)
    requires NoDuplicates(before + fields) && last in before + fields
    ensures AddAll(before, fields + [last]) == before + fields
  {
    AddAllFresh(before, fields);
    AddAllConcat(before, fields, [last]);
    assert [last][1..] == [];
  }

  /** Fields have their slots in the order in which they are assigned first: a branch, its elsif
      branches, its else branch; the body of a loop; a try, its catches and its end. A subclass
      goes on behind its base. */
  lemma SlotsInOrder(rank: string -> nat)
    requires rank("C") < rank("D")
    ensures var classes := map["C" := ClassDef(None, SEVERAL), "D" := ClassDef(Some("C"), Set("j") + Set("b"))];
            && Acyclic(classes, rank)
            && Layout(classes, rank, "C") == ["a", "b", "c", "d", "e", "f", "g", "h", "i"]
            && Layout(classes, rank, "D") == ["a", "b", "c", "d", "e", "f", "g", "h", "i", "j"]
  {
    hide Collected, AddAll, NoDuplicates;
    var fields := ["a", "b", "c", "d", "e", "f", "g", "h", "i"];
    NineApart();
    SeveralMet();
    assert Collected(SEVERAL) == fields + ["a"] && [] + fields == fields;
    AddedInOrder([], fields, "a");
    SetMet("j");
    SetMet("b");
    MetBoth(Set("j"), Set("b"));
    assert ["j"] + ["b"] == ["j", "b"];
    AddedInOrder(fields, ["j"], "b");
    assert fields + ["j"] == ["a", "b", "c", "d", "e", "f", "g", "h", "i", "j"];
  }

  lemma NineApart()
    ensures NoDuplicates(["a", "b", "c", "d", "e", "f", "g", "h", "i"])
    ensures NoDuplicates(["a", "b", "c", "d", "e", "f", "g", "h", "i"] + ["j"])
    ensures NoDuplicates([] + ["a", "b", "c", "d", "e", "f", "g", "h", "i"])
  {
    var s := ["a", "b", "c", "d", "e", "f", "g", "h", "i"] + ["j"];
    assert forall i :: 0 <= i < 10 ==> |s[i]| == 1 && s[i][0] as int == 97 + i;
  }

  // class C: init: match ..: case ..: this.x = ..
  const MATCHES := ClassDef(None, [Func([Match([Block([Assign(Field("x"), [])])])])])

  /** The field has no slot. */
  lemma FieldMissed(rank: string -> nat)
    ensures Acyclic(map["C" := MATCHES], rank)
    ensures AssignedBy(map["C" := MATCHES], rank, "C", "x") && Layout(map["C" := MATCHES], rank, "C") == []
  {
    var classes: Classes := map["C" := MATCHES];
    var s, h := Assign(Field("x"), []), MATCHES.body[0].body[0];
    assert MATCHES.body[0].body == [h] && h.cases[0].stmts == [s] && [s][0] == s;
    assert Within([s], s);
    assert WithinBlocks(h.cases, s);
    assert [h][0] == h && Within([h], s);
    assert Inside(MATCHES.body[0], s) && Within(MATCHES.body, s);
    assert Assigns(MATCHES.body, "x");
    assert Extends(classes, rank, "C", "C");
    assert MATCHES.body[1..] == [] && [h][1..] == [];
    assert Collected(MATCHES.body) == [] + [] == [];
  }

  lemma RankFalls(classes: Classes, rank: string -> nat, c: string)
    requires Acyclic(classes, rank) && c in classes
    ensures classes[c].base.Some? ==> rank(classes[c].base.value) < rank(c)
  {
  }

  lemma LayoutUnfolds(classes: Classes, rank: string -> nat, c: string)
    requires Acyclic(classes, rank) && c in classes
    ensures var base := classes[c].base;
            && Layout(classes, rank, c) == AddAll(if base.Some? then Layout(classes, rank, base.value) else [], Collected(classes[c].body))
            && (base.Some? && base.value !in classes ==> Layout(classes, rank, base.value) == [])
  {
  }

  // Adding the base's fields one by one gives the base's list.
  lemma InheritsWhole(classes: Classes, rank: string -> nat, c: string)
    requires Acyclic(classes, rank)
    ensures AddAll([], Layout(classes, rank, c)) == Layout(classes, rank, c)
  {
    hide Layout;
    var fields := Layout(classes, rank, c);
    LayoutStable(classes, rank, c, c);
    assert [] + fields == fields;
    AddAllFresh([], fields);
  }

  // ---- the analyzer ----

  class Analyzer {
    const classes: Classes
    ghost const rank: string -> nat
    var fields: map<string, seq<string>>
    var processed: set<string>

    constructor (classes: Classes, ghost rank: string -> nat)
      requires Acyclic(classes, rank)
      ensures this.classes == classes && this.rank == rank && Valid() && processed == {}
    {
      this.classes, this.rank, fields, processed := classes, rank, map[], {};
    }

    function FieldsOf(c: string): seq<string>
      reads this
    {
      if c in fields then fields[c] else []
    }

    /** Classes that were processed have their whole layout, the others have nothing yet; `open`
        are the classes whose bases are being processed. */
    ghost predicate ValidBut(open: set<string>)
      reads this
    {
      && Acyclic(classes, rank) && processed <= classes.Keys
      && forall c {:trigger FieldsOf(c)} :: FieldsOf(c) == if c in processed && c !in open then Layout(classes, rank, c) else []
    }

    ghost predicate Valid()
      reads this
    {
      ValidBut({})
    }

    method AddField(c: string, f: string)
      modifies this`fields
      ensures FieldsOf(c) == Add(old(FieldsOf(c)), f) && forall d :: d != c ==> FieldsOf(d) == old(FieldsOf(d))
    {
      var present := FieldsOf(c);
      var i := 0;
      while i < |present|
        invariant i <= |present| && f !in present[..i]
      {
        if present[i] == f {
          return;
        }
        i := i + 1;
      }
      fields := fields[c := present + [f]];
    }

    method CollectFields(c: string, ss: seq<Stmt>)
      modifies this`fields
      ensures FieldsOf(c) == AddAll(old(FieldsOf(c)), Collected(ss)) && forall d :: d != c ==> FieldsOf(d) == old(FieldsOf(d))
      decreases ss
    {
      hide OfStmt, AddAll;
      var i := 0;
      NothingMore(FieldsOf(c));
      while i < |ss|
        invariant i <= |ss| && forall d :: d != c ==> FieldsOf(d) == old(FieldsOf(d))
        invariant AddAll(old(FieldsOf(c)), Collected(ss)) == AddAll(FieldsOf(c), Collected(ss[i..]))
      {
        assert ss[i..][1..] == ss[i + 1..];
        AddAllConcat(FieldsOf(c), OfStmt(ss[i]), Collected(ss[i + 1..]));
        CollectFromStmt(c, ss[i]);
        i := i + 1;
      }
      NothingMore(FieldsOf(c));
    }

    static lemma NothingMore(fields: seq<string>)
      ensures AddAll(fields, []) == fields
    {
    }

    method CollectFromStmt(c: string, s: Stmt)
      modifies this`fields
      ensures FieldsOf(c) == AddAll(old(FieldsOf(c)), OfStmt(s)) && forall d :: d != c ==> FieldsOf(d) == old(FieldsOf(d))
      decreases s, 0
    {
      hide Collected, OfBlocks;
      ghost var before := FieldsOf(c);
      match s {
        case Func(body) => CollectFields(c, body);
        case Assign(target, _) =>
          if target.Field? {
            AddField(c, target.name);
            assert AddAll(before, [target.name]) == AddAll(Add(before, target.name), []);
          }
        case If(thn, elsifs, els) =>
          CollectFields(c, thn);
          CollectBlocks(c, elsifs);
          CollectFields(c, els);
          AddAllThrice(before, Collected(thn), OfBlocks(elsifs), Collected(els));
        case For(body, _) => CollectFields(c, body);
        case While(body, _) => CollectFields(c, body);
        case Try(body, catches, finally) =>
          CollectFields(c, body);
          CollectBlocks(c, catches);
          CollectFields(c, finally);
          AddAllThrice(before, Collected(body), OfBlocks(catches), Collected(finally));
        case _ =>
      }
    }

    static lemma AddAllThrice(fields: seq<string>, a: seq<string>, b: seq<string>, last: seq<string>)
      ensures AddAll(fields, a + b + last) == AddAll(AddAll(AddAll(fields, a), b), last)
    {
      AddAllConcat(fields, a + b, last);
      AddAllConcat(fields, a, b);
    }

    method CollectBlocks(c: string, bs: seq<Block>)
      modifies this`fields
      ensures FieldsOf(c) == AddAll(old(FieldsOf(c)), OfBlocks(bs)) && forall d :: d != c ==> FieldsOf(d) == old(FieldsOf(d))
      decreases bs
    {
      var i := 0;
      while i < |bs|
        invariant i <= |bs| && forall d :: d != c ==> FieldsOf(d) == old(FieldsOf(d))
        invariant AddAll(old(FieldsOf(c)), OfBlocks(bs)) == AddAll(FieldsOf(c), OfBlocks(bs[i..]))
      {
        assert bs[i..][1..] == bs[i + 1..];
        AddAllConcat(FieldsOf(c), Collected(bs[i].stmts), OfBlocks(bs[i + 1..]));
        CollectFields(c, bs[i].stmts);
        i := i + 1;
      }
    }

    method Inherit(c: string, from: seq<string>)
      modifies this`fields
      ensures FieldsOf(c) == AddAll(old(FieldsOf(c)), from) && forall d :: d != c ==> FieldsOf(d) == old(FieldsOf(d))
    {
      var i := 0;
      while i < |from|
        invariant i <= |from| && forall d :: d != c ==> FieldsOf(d) == old(FieldsOf(d))
        invariant AddAll(old(FieldsOf(c)), from) == AddAll(FieldsOf(c), from[i..])
      {
        assert from[i..][1..] == from[i + 1..];
        AddField(c, from[i]);
        i := i + 1;
      }
    }

    /** The base is processed first, whichever class comes first. */
    method ProcessClass(c: string, ghost open: set<string>)
      requires ValidBut(open) && c in classes && forall o :: o in open ==> rank(c) < rank(o)
      modifies this
      ensures ValidBut(open) && c in processed && old(processed) <= processed
      decreases rank(c)
    {
      hide AddAll, Collected, Layout, Acyclic, Extends, NoDuplicates, Add;
      if c in processed {
        return;
      }
      RankFalls(classes, rank, c);
      LayoutUnfolds(classes, rank, c);
      processed := processed + {c};
      assert forall d {:trigger FieldsOf(d)} :: FieldsOf(d) == old(FieldsOf(d));
      assert ValidBut(open + {c});
      var base := classes[c].base;
      if base.Some? {
        if base.value in classes {
          ProcessClass(base.value, open + {c});
        }
        assert FieldsOf(base.value) == Layout(classes, rank, base.value) && FieldsOf(c) == [];
        InheritsWhole(classes, rank, base.value);
        Inherit(c, FieldsOf(base.value));
      }
      CollectFields(c, classes[c].body);
      assert FieldsOf(c) == Layout(classes, rank, c);
    }

    /** Whatever the order in which the classes are visited, each gets its layout. */
    method Analyze(order: seq<string>)
      requires Valid() && (forall c :: c in order <==> c in classes)
      modifies this
      ensures forall c :: c in classes ==> FieldsOf(c) == Layout(classes, rank, c)
    {
      var i := 0;
      while i < |order|
        invariant i <= |order| && Valid() && forall k :: 0 <= k < i ==> order[k] in processed
      {
        ProcessClass(order[i], {});
        i := i + 1;
      }
    }
  }
}
