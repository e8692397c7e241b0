/** Tables whose order decides what a resolution answers. */
module OrderInputs {
  import opened Wrappers
  import opened Semver
  import opened Requirements
  import opened Walk
  import opened Resolver
  import opened ResolutionOrder
  import opened OrderFree

  const ONE: Version := Write(Semver(1, 0, 0))
  const P := Pair("P", ONE)
  const Q := Pair("Q", ONE)
  const U := Pair("U", ONE)

  // P and Q require U, under aliases of their own.
  function Served(name: string, first: string, second: string): Fetcher {
    (p: Pair) =>
      if p == P then Some(Manifest(name, [(first, Git("U", ONE))]))
      else if p == Q then Some(Manifest("q", [(second, Git("U", ONE))]))
      else Some(Manifest("u", []))
  }

  const ROOT := Manifest("root", [("a", Git("P", ONE)), ("b", Git("Q", ONE))])
  const TURNED := Manifest("root", [("b", Git("Q", ONE)), ("a", Git("P", ONE))])

  lemma OnePair(name: string, url: Url, v: Version)
    ensures Pairs([(name, Git(url, v))]) == [Pair(url, v)]
    ensures forall u :: MentionsUrl([(name, Git(url, v))], u) <==> u == url
  {
    var deps := [(name, Git(url, v))];
    assert deps[..0] == [] && Pairs(deps) == [Pair(url, v)];
    assert Pair(url, v) in Pairs(deps);
  }

  lemma TwoPairs(root: Manifest)
    requires root == ROOT || root == TURNED
    ensures Pairs(root.deps) == if root == ROOT then [P, Q] else [Q, P]
    ensures forall u :: u in RootNames(root.deps) <==> u == "P" || u == "Q"
    ensures forall alias :: IsRootAlias(root, alias) <==> alias == "a" || alias == "b"
  {
    var deps := root.deps;
    assert deps == [deps[0]] + [deps[1]] && deps[..1] == [deps[0]] && deps[..1][..0] == [];
    PairsOfBoth([deps[0]], [deps[1]]);
    OnePair(deps[0].0, deps[0].1.url, ONE);
    OnePair(deps[1].0, deps[1].1.url, ONE);
    assert RootNames(deps[..1]) == map[deps[0].1.url := deps[0].0];
    assert RootNames(deps) == map[deps[0].1.url := deps[0].0, deps[1].1.url := deps[1].0];
    assert forall u :: Maps(root, deps[0].0, u) <==> u == deps[0].1.url;
    assert Maps(root, deps[0].0, deps[0].1.url) && Maps(root, deps[1].0, deps[1].1.url);
  }

  lemma FirstsOfThree(x: Pair, y: Pair, z: Pair)
    requires x != y && y != z && x != z
    ensures Firsts([x]) == [x] && Firsts([x, y]) == [x, y] && Firsts([x, y, z]) == [x, y, z] && Firsts([x, y, z, z]) == [x, y, z]
  {
    assert [] + [x] == [x] && [x] + [y] == [x, y] && [x, y] + [z] == [x, y, z] && [x, y, z] + [z] == [x, y, z, z];
    FirstsNext([], x);
    FirstsNext([x], y);
    FirstsNext([x, y], z);
    FirstsNext([x, y, z], z);
  }

  // Two requirements of the root that both require a third.
  ghost predicate Diamond(root: Manifest, fetch: Fetcher, x: Pair, y: Pair, z: Pair) {
    && Pairs(root.deps) == [x, y] && Pairs(DepsOf(fetch, x)) == [z] && Pairs(DepsOf(fetch, y)) == [z] && Pairs(DepsOf(fetch, z)) == []
    && x != y && y != z && x != z
  }

  lemma DiamondPushes(root: Manifest, fetch: Fetcher, x: Pair, y: Pair, z: Pair)
    requires Diamond(root, fetch, x, y, z)
    ensures Pushes(root, fetch, []) == [x, y] && Pushes(root, fetch, [x]) == [x, y, z]
    ensures Pushes(root, fetch, [x, y]) == [x, y, z, z] && Pushes(root, fetch, [x, y, z]) == [x, y, z, z]
  {
    hide Pairs, DepsOf, RootNames, Adopt;
    assert [] + [x] == [x] && [x] + [y] == [x, y] && [x, y] + [z] == [x, y, z];
    PushesNext(root, fetch, [], x);
    PushesNext(root, fetch, [x], y);
    PushesNext(root, fetch, [x, y], z);
  }

  // First the one, then the other, then what both require.
  lemma DiamondOrder(root: Manifest, fetch: Fetcher, x: Pair, y: Pair, z: Pair)
    requires Diamond(root, fetch, x, y, z)
    ensures Order(root, fetch, [x, y, z]) && Pushes(root, fetch, [x, y, z]) == [x, y, z, z]
  {
    hide Pairs, DepsOf, Pushes, Firsts, Walked;
    NothingWalked(root, fetch);
    DiamondPushes(root, fetch, x, y, z);
    FirstsOfThree(x, y, z);
    assert [x, y][..1] == [x] && [x, y, z][..2] == [x, y] && [x, y, z, z][..3] == [x, y, z];
    WalkedNext(root, fetch, [], x, 1);
    assert [] + [x] == [x];
    WalkedNext(root, fetch, [x], y, 2);
    assert [x] + [y] == [x, y];
    WalkedNext(root, fetch, [x, y], z, 3);
    assert [x, y] + [z] == [x, y, z];
  }

  lemma OneReads()
    ensures Parse(ONE).Some?
  {
    hide Parse, Write;
    ParseWritten(Semver(1, 0, 0), "");
    assert ONE + "" == ONE;
  }

  lemma ServedDiamond(name: string, first: string, second: string)
    ensures Diamond(ROOT, Served(name, first, second), P, Q, U) && Diamond(TURNED, Served(name, first, second), Q, P, U)
  {
    OnePair(first, "U", ONE);
    OnePair(second, "U", ONE);
    TwoPairs(ROOT);
    TwoPairs(TURNED);
  }

  // Nothing but a name can go wrong.
  lemma OnlyNames(root: Manifest, fetch: Fetcher, x: Pair, y: Pair, why: Failure)
    requires Diamond(root, fetch, x, y, U) && x.url != y.url && x.url != "U" && y.url != "U"
    requires fetch(x).Some? && fetch(y).Some? && fetch(U).Some? && why != AliasConflict
    ensures !Event(root, fetch, [x, y, U], why)
  {
    hide Parse, Write, Pairs, Pushes;
    OneReads();
    DiamondPushes(root, fetch, x, y, U);
  }

  lemma SameServed(name: string, first: string, second: string)
    ensures SameTables(ROOT, Served(name, first, second), TURNED, Served(name, first, second))
  {
    assert ROOT.deps == [ROOT.deps[0]] + [ROOT.deps[1]] && TURNED.deps == [ROOT.deps[1]] + [ROOT.deps[0]];
  }

  /** A table whose order decides whether the resolution locks: P is called like the root's alias "a". */
  lemma OrderDecides(r: Resolution, calls: seq<Pair>)
    ensures var fetch := Served("a", "u", "u");
            && SameTables(ROOT, fetch, TURNED, fetch)
            && (Ran(ROOT, fetch, r, calls) ==> r == Failed(AliasConflict))
            && (Ran(TURNED, fetch, r, calls) ==> r.Locked?)
  {
    hide Ran, Order, Pushes, Diamond, Pairs, Event;
    var fetch := Served("a", "u", "u");
    SameServed("a", "u", "u");
    ServedDiamond("a", "u", "u");
    DiamondOrder(ROOT, fetch, P, Q, U);
    DiamondOrder(TURNED, fetch, Q, P, U);
    forall why | why != AliasConflict
      ensures !Event(ROOT, fetch, [P, Q, U], why) && !Event(TURNED, fetch, [Q, P, U], why)
    {
      OnlyNames(ROOT, fetch, P, Q, why);
      OnlyNames(TURNED, fetch, Q, P, why);
    }
    ClashIff(ROOT, fetch, [P, Q, U]);
    ClashIff(TURNED, fetch, [Q, P, U]);
    FirstIsP("a", "u", "u");
    assert FirstToRequire(ROOT, fetch, [P, Q, U], "U", 0);
    assert [P, Q, U][0] == P && [Q, P, U][0] == Q;
    if Ran(ROOT, fetch, r, calls) {
      FailsWith(ROOT, fetch, r, calls, [P, Q, U], AliasConflict);
    }
    if Ran(TURNED, fetch, r, calls) {
      LockedIff(TURNED, fetch, r, calls, [Q, P, U]);
    }
  }

  // Who requires U first.
  lemma FirstOf(root: Manifest, fetch: Fetcher, x: Pair, y: Pair)
    requires forall u :: u in RootNames(root.deps) <==> u == "P" || u == "Q"
    requires forall u :: MentionsUrl(DepsOf(fetch, x), u) <==> u == "U"
    requires forall u :: MentionsUrl(DepsOf(fetch, y), u) <==> u == "U"
    requires forall u :: !MentionsUrl(DepsOf(fetch, U), u)
    ensures forall u, k: nat :: FirstToRequire(root, fetch, [x, y, U], u, k) <==> u == "U" && k == 0
  {
    hide RootNames, MentionsUrl, DepsOf;
    var calls := [x, y, U];
    forall u, k: nat
      ensures FirstToRequire(root, fetch, calls, u, k) <==> u == "U" && k == 0
    {
      assert calls[0] == x && calls[1] == y && calls[2] == U;
      assert MentionsUrl(DepsOf(fetch, calls[0]), u) <==> u == "U";
      assert 0 < k < 3 && u == "U" ==> exists j :: 0 <= j < k && MentionsUrl(DepsOf(fetch, calls[j]), u);
    }
  }

  lemma FirstIsP(name: string, first: string, second: string)
    ensures var fetch := Served(name, first, second);
            && (forall u, k: nat :: FirstToRequire(ROOT, fetch, [P, Q, U], u, k) <==> u == "U" && k == 0)
            && (forall u, k: nat :: FirstToRequire(TURNED, fetch, [Q, P, U], u, k) <==> u == "U" && k == 0)
            && (forall alias :: IsRootAlias(ROOT, alias) <==> alias == "a" || alias == "b")
            && (forall alias :: IsRootAlias(TURNED, alias) <==> alias == "a" || alias == "b")
  {
    hide RootNames, IsRootAlias, FirstToRequire;
    var fetch := Served(name, first, second);
    TwoPairs(ROOT);
    TwoPairs(TURNED);
    OnePair(first, "U", ONE);
    OnePair(second, "U", ONE);
    assert DepsOf(fetch, P) == [(first, Git("U", ONE))] && DepsOf(fetch, Q) == [(second, Git("U", ONE))] && DepsOf(fetch, U) == [];
    assert forall u :: !MentionsUrl([], u);
    hide MentionsUrl, DepsOf;
    FirstOf(ROOT, fetch, P, Q);
    FirstOf(TURNED, fetch, Q, P);
  }

  lemma NamedFirst(root: Manifest, fetch: Fetcher, x: Pair, y: Pair, alias: string)
    requires FirstToRequire(root, fetch, [x, y, U], "U", 0) && DepsOf(fetch, x) == [(alias, Git("U", ONE))]
    ensures var names := NamesAfter(root, fetch, [x, y, U]);
            "U" in names && names["U"] == alias
  {
    hide NamesAfter, RootNames, MentionsUrl, DepsOf;
    var calls := [x, y, U];
    assert calls[0] == x && MentionsUrl(DepsOf(fetch, x), "U") && "U" !in RootNames(root.deps);
    hide FirstToRequire;
    var k, i := NamedBy(root, fetch, calls, "U");
    assert "U" in NamesAfter(root, fetch, calls) by {
      if "U" !in NamesAfter(root, fetch, calls) {
        NotRequired(root, fetch, calls, "U", 0);
      }
    }
    OneFirst(root, fetch, calls, "U", k, 0);
  }

  /** A table whose order decides under which alias U is locked. */
  lemma OrderNames(r: Resolution, calls: seq<Pair>)
    ensures var fetch := Served("p", "x", "y");
            && SameTables(ROOT, fetch, TURNED, fetch)
            && (Ran(ROOT, fetch, r, calls) ==> r.Locked? && "U" in r.lock.aliases && r.lock.aliases["U"] == "x")
            && (Ran(TURNED, fetch, r, calls) ==> r.Locked? && "U" in r.lock.aliases && r.lock.aliases["U"] == "y")
  {
    hide Ran, Order, Pushes, Diamond, Pairs, Event, NamesAfter;
    var fetch := Served("p", "x", "y");
    SameServed("p", "x", "y");
    ServedDiamond("p", "x", "y");
    DiamondOrder(ROOT, fetch, P, Q, U);
    DiamondOrder(TURNED, fetch, Q, P, U);
    forall why | why != AliasConflict
      ensures !Event(ROOT, fetch, [P, Q, U], why) && !Event(TURNED, fetch, [Q, P, U], why)
    {
      OnlyNames(ROOT, fetch, P, Q, why);
      OnlyNames(TURNED, fetch, Q, P, why);
    }
    ClashIff(ROOT, fetch, [P, Q, U]);
    ClashIff(TURNED, fetch, [Q, P, U]);
    FirstIsP("p", "x", "y");
    if Ran(ROOT, fetch, r, calls) {
      LockedIff(ROOT, fetch, r, calls, [P, Q, U]);
      NamedFirst(ROOT, fetch, P, Q, "x");
    }
    if Ran(TURNED, fetch, r, calls) {
      LockedIff(TURNED, fetch, r, calls, [Q, P, U]);
      NamedFirst(TURNED, fetch, Q, P, "y");
    }
  }

  // ---- a version that cannot be read ----

  const X := Pair("P", "x")
  const ONCE := Manifest("root", [("a", Git("P", "x"))])
  const TWICE := Manifest("root", [("a", Git("P", "x")), ("b", Git("P", "x"))])

  function Leaves(): Fetcher {
    (p: Pair) => Some(Manifest("p", []))
  }

  lemma FirstsOfOne(x: Pair)
    ensures Firsts([]) == [] && Firsts([x]) == [x] && Firsts([x, x]) == [x]
  {
    assert [] + [x] == [x] && [x] + [x] == [x, x];
    FirstsNext([], x);
    FirstsNext([x], x);
  }

  lemma SingleOrder(root: Manifest, fetch: Fetcher, x: Pair)
    requires (Pairs(root.deps) == [x] || Pairs(root.deps) == [x, x]) && Pairs(DepsOf(fetch, x)) == []
    ensures Order(root, fetch, [x]) && Pushes(root, fetch, [x]) == Pairs(root.deps)
  {
    hide Pairs, DepsOf, Firsts, Walked, RootNames, Adopt;
    var s := Pairs(root.deps);
    NothingWalked(root, fetch);
    assert [] + [x] == [x] && s[..1] == [x] && s + [] == s;
    PushesNext(root, fetch, [], x);
    FirstsOfOne(x);
    WalkedNext(root, fetch, [], x, 1);
  }

  lemma XOrder(root: Manifest)
    requires root == ONCE || root == TWICE
    ensures Order(root, Leaves(), [X]) && Pushes(root, Leaves(), [X]) == if root == ONCE then [X] else [X, X]
  {
    hide Order, Pushes;
    assert ONCE.deps + [("b", Git("P", "x"))] == TWICE.deps;
    OnePair("a", "P", "x");
    OnePair("b", "P", "x");
    PairsOfBoth(ONCE.deps, [("b", Git("P", "x"))]);
    SingleOrder(root, Leaves(), X);
  }

  lemma XUnreadable()
    ensures Parse(X.version).None?
  {
  }

  lemma OnlyX(versions: map<Url, Version>)
    requires Selects(ONCE, Leaves(), versions)
    ensures versions == map["P" := "x"]
  {
    hide Reachable;
    assert ONCE.deps[0].1 == Git(X.url, X.version);
    ReachRoot(ONCE, Leaves(), X);
    assert Required(ONCE, Leaves(), "P", "x");
    assert Closed(ONCE, Leaves(), {X});
    forall u | u in versions
      ensures u == "P" && versions[u] == "x"
    {
      ClosedHasReachable(ONCE, Leaves(), {X}, Pair(u, versions[u]));
    }
  }

  /** A version that cannot be read is locked when it is required once, and fails when it is required twice. */
  lemma UnreadableOnce(r: Resolution, calls: seq<Pair>)
    ensures Answers(ONCE, Leaves(), r) && Ran(ONCE, Leaves(), r, calls) ==> r.Locked? && r.lock.versions == map["P" := "x"]
    ensures Ran(TWICE, Leaves(), r, calls) ==> r == Failed(BadVersion)
  {
    hide Ran, Order, Pushes, Parse, Selects;
    XOrder(ONCE);
    XOrder(TWICE);
    XUnreadable();
    var fetch := Leaves();
    forall root, k: nat | root == ONCE || root == TWICE
      ensures !Clash(root, fetch, [X], k)
    {
    }
    if Ran(ONCE, fetch, r, calls) {
      LockedIff(ONCE, fetch, r, calls, [X]);
      if Answers(ONCE, fetch, r) && r.Locked? {
        OnlyX(r.lock.versions);
      }
    }
    if Ran(TWICE, fetch, r, calls) {
      assert Unreadable([X, X][0], [X, X][1]);
      FailsWith(TWICE, fetch, r, calls, [X], BadVersion);
    }
  }

  // ---- two versions of one package ----

  // Required in this order.
  function TwoOf(v: Version, w: Version): Manifest {
    Manifest("root", [("a", Git("P", v)), ("b", Git("P", w))])
  }

  lemma TwoOfOrder(v: Version, w: Version)
    requires v != w
    ensures var x, y := Pair("P", v), Pair("P", w);
            Order(TwoOf(v, w), Leaves(), [x, y]) && Pushes(TwoOf(v, w), Leaves(), [x, y]) == [x, y]
  {
    hide Pushes, Firsts, Walked;
    var root, fetch, x, y := TwoOf(v, w), Leaves(), Pair("P", v), Pair("P", w);
    OnePair("a", "P", v);
    OnePair("b", "P", w);
    assert root.deps == [("a", Git("P", v))] + [("b", Git("P", w))];
    PairsOfBoth([("a", Git("P", v))], [("b", Git("P", w))]);
    SeparateOrder(root, fetch, x, y);
  }

  lemma SeparateOrder(root: Manifest, fetch: Fetcher, x: Pair, y: Pair)
    requires Pairs(root.deps) == [x, y] && Pairs(DepsOf(fetch, x)) == [] && Pairs(DepsOf(fetch, y)) == [] && x != y
    ensures Order(root, fetch, [x, y]) && Pushes(root, fetch, [x, y]) == [x, y]
  {
    hide Pairs, DepsOf, Firsts, Walked, RootNames, Adopt;
    NothingWalked(root, fetch);
    var s := [x, y];
    assert [] + [x] == [x] && [x] + [y] == s && s[..1] == [x] && s[..2] == s && s + [] == s;
    PushesNext(root, fetch, [], x);
    PushesNext(root, fetch, [x], y);
    FirstsOfOne(x);
    FirstsNext([x], y);
    assert Firsts(s) == s;
    WalkedNext(root, fetch, [], x, 1);
    WalkedNext(root, fetch, [x], y, 2);
  }

  /** Of 1.2.0 and 1.10.0 the second is locked, in whatever order they are required; 1.2.0 and
      2.0.0 do not go together. */
  lemma NumbersDecide(r: Resolution, calls: seq<Pair>)
    ensures Ran(TwoOf("1.2.0", "1.10.0"), Leaves(), r, calls) ==> r.Locked? && r.lock.versions == map["P" := "1.10.0"]
    ensures Ran(TwoOf("1.10.0", "1.2.0"), Leaves(), r, calls) ==> r.Locked? && r.lock.versions == map["P" := "1.10.0"]
    ensures Ran(TwoOf("1.2.0", "2.0.0"), Leaves(), r, calls) ==> r == Failed(MajorConflict)
  {
    hide Ran, Parse, Above;
    Texts();
    AboveTexts();
    if Ran(TwoOf("1.2.0", "1.10.0"), Leaves(), r, calls) {
      LocksOne("1.2.0", "1.10.0", r, calls);
    }
    if Ran(TwoOf("1.10.0", "1.2.0"), Leaves(), r, calls) {
      LocksOne("1.10.0", "1.2.0", r, calls);
    }
    if Ran(TwoOf("1.2.0", "2.0.0"), Leaves(), r, calls) {
      FailsApart("1.2.0", "2.0.0", r, calls);
    }
  }

  lemma AboveTexts()
    ensures Above("1.10.0", "1.2.0") && !Above("1.2.0", "1.10.0")
  {
    hide Parse;
    Texts();
  }

  lemma NoOtherEvent(v: Version, w: Version, why: Failure)
    requires v != w && why != AliasConflict && Parse(v).Some? && Parse(w).Some? && (why == MajorConflict ==> SameMajor(v, w))
    ensures !Event(TwoOf(v, w), Leaves(), [Pair("P", v), Pair("P", w)], why)
  {
    hide Parse, Pushes;
    TwoOfOrder(v, w);
  }

  lemma NobodyClashes(v: Version, w: Version)
    ensures !Event(TwoOf(v, w), Leaves(), [Pair("P", v), Pair("P", w)], AliasConflict)
  {
    hide NamesAfter;
    forall k: nat
      ensures !Clash(TwoOf(v, w), Leaves(), [Pair("P", v), Pair("P", w)], k)
    {
    }
  }

  lemma LocksOne(v: Version, w: Version, r: Resolution, calls: seq<Pair>)
    requires v != w && SameMajor(v, w) && Above(v, w) != Above(w, v) && Ran(TwoOf(v, w), Leaves(), r, calls)
    ensures r.Locked? && r.lock.versions == map["P" := if Above(v, w) then v else w]
  {
    hide Parse, Above, Order, Pushes, Event;
    var x, y, root := Pair("P", v), Pair("P", w), TwoOf(v, w);
    TwoOfOrder(v, w);
    NobodyClashes(v, w);
    forall why
      ensures !Event(root, Leaves(), [x, y], why)
    {
      if why != AliasConflict {
        NoOtherEvent(v, w, why);
      }
    }
    LockedIff(root, Leaves(), r, calls, [x, y]);
    assert Chosen([x, y], r.lock.versions);
    ChosenOfTwo(x, y, r.lock.versions);
  }

  lemma ChosenOfTwo(x: Pair, y: Pair, versions: map<Url, Version>)
    requires x.url == y.url == "P" && Chosen([x, y], versions) && Above(x.version, y.version) != Above(y.version, x.version)
    ensures versions == map["P" := if Above(x.version, y.version) then x.version else y.version]
  {
    hide Above, Parse;
    var s := [x, y];
    assert s[0] == x && s[1] == y;
    forall u | u in versions
      ensures u == "P" && versions[u] == if Above(x.version, y.version) then x.version else y.version
    {
      var i: nat :| i < |s| && s[i] == Pair(u, versions[u]) && FirstLargest(s, i);
      assert i == 0 || i == 1;
    }
  }

  lemma FailsApart(v: Version, w: Version, r: Resolution, calls: seq<Pair>)
    requires v != w && Parse(v).Some? && Parse(w).Some? && !SameMajor(v, w) && Ran(TwoOf(v, w), Leaves(), r, calls)
    ensures r == Failed(MajorConflict)
  {
    hide Parse, Order, Pushes, SameMajor;
    var x, y, root := Pair("P", v), Pair("P", w), TwoOf(v, w);
    TwoOfOrder(v, w);
    NobodyClashes(v, w);
    assert Apart([x, y][0], [x, y][1]);
    assert Event(root, Leaves(), [x, y], MajorConflict);
    forall why | why != MajorConflict
      ensures !Event(root, Leaves(), [x, y], why)
    {
      if why != AliasConflict {
        NoOtherEvent(v, w, why);
      }
    }
    FailsWith(root, Leaves(), r, calls, [x, y], MajorConflict);
  }
}
