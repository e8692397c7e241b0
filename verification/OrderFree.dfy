/** Resolutions of the same tables in another order. */
module OrderFree {
  import opened Wrappers
  import opened Semver
  import opened Requirements
  import opened Walk
  import opened Resolver
  import opened ResolutionOrder

  // ---- the same tables in another order ----

  /** The tables hold the same entries, iterated in any order. */
  ghost predicate SameTable(m: Manifest, n: Manifest) {
    m.name == n.name && multiset(m.deps) == multiset(n.deps)
  }

  ghost predicate SameTables(root: Manifest, fetch: Fetcher, root': Manifest, fetch': Fetcher) {
    && SameTable(root, root')
    && forall p :: fetch(p).Some? == fetch'(p).Some? && (fetch(p).Some? ==> SameTable(fetch(p).value, fetch'(p).value))
  }

  lemma EntriesKept(m: Manifest, n: Manifest)
    requires SameTable(m, n)
    ensures forall e :: e in m.deps <==> e in n.deps
  {
    forall e
      ensures e in m.deps <==> e in n.deps
    {
      assert e in m.deps <==> e in multiset(m.deps);
      assert e in n.deps <==> e in multiset(n.deps);
    }
  }

  lemma SameTableRequires(m: Manifest, n: Manifest)
    requires SameTable(m, n)
    ensures SameRequirements(m, n) && forall alias, u :: Maps(m, alias, u) <==> Maps(n, alias, u)
  {
    EntriesKept(m, n);
    forall p
      ensures Requires(m, p) <==> Requires(n, p)
    {
      HasEntry(m, n, p);
      HasEntry(n, m, p);
    }
    forall alias, u
      ensures Maps(m, alias, u) <==> Maps(n, alias, u)
    {
      HasName(m, n, alias, u);
      HasName(n, m, alias, u);
    }
  }

  lemma HasEntry(m: Manifest, n: Manifest, p: Pair)
    requires forall e :: e in m.deps ==> e in n.deps
    ensures Requires(m, p) ==> Requires(n, p)
  {
    if Requires(m, p) {
      var i :| 0 <= i < |m.deps| && m.deps[i].1 == Git(p.url, p.version);
      assert m.deps[i] in n.deps;
    }
  }

  lemma HasName(m: Manifest, n: Manifest, alias: string, u: Url)
    requires forall e :: e in m.deps ==> e in n.deps
    ensures Maps(m, alias, u) ==> Maps(n, alias, u)
  {
    if Maps(m, alias, u) {
      var i :| 0 <= i < |m.deps| && m.deps[i].0 == alias && m.deps[i].1.Git? && m.deps[i].1.url == u;
      assert m.deps[i] in n.deps;
    }
  }

  lemma TablesGraph(root: Manifest, fetch: Fetcher, root': Manifest, fetch': Fetcher)
    requires SameTables(root, fetch, root', fetch')
    ensures SameGraph(root, fetch, root', fetch') && SameGraph(root', fetch', root, fetch)
  {
    hide SameTable, SameRequirements;
    SameTableRequires(root, root');
    forall p
      ensures fetch(p).Some? ==> SameRequirements(fetch(p).value, fetch'(p).value)
    {
      if fetch(p).Some? {
        SameTableRequires(fetch(p).value, fetch'(p).value);
      }
    }
    SameGraphSym(root, fetch, root', fetch');
  }

  // ---- permutations ----

  lemma Cancel<T>(a: multiset<T>, b: multiset<T>, x: T)
    requires a + multiset{x} == b + multiset{x}
    ensures a == b
  {
    forall y
      ensures a[y] == b[y]
    {
      assert (a + multiset{x})[y] == (b + multiset{x})[y];
    }
  }

  lemma WithoutAt<T>(s: seq<T>, j: nat)
    requires j < |s|
    ensures s == s[..j] + [s[j]] + s[j + 1..]
    ensures multiset(s) == multiset(s[..j] + s[j + 1..]) + multiset{s[j]}
  {
    assert s == s[..j] + [s[j]] + s[j + 1..];
    assert multiset(s) == multiset(s[..j]) + multiset([s[j]]) + multiset(s[j + 1..]);
  }

  // Where the last element of one sequence is in the other.
  lemma Without<T>(s: seq<T>, t: seq<T>) returns (front: seq<T>, back: seq<T>)
    requires multiset(s) == multiset(t) && s != []
    ensures t == front + [s[|s| - 1]] + back && multiset(s[..|s| - 1]) == multiset(front + back)
  {
    var n := |s| - 1;
    WithoutAt(s, n);
    assert s[..n] + s[n + 1..] == s[..n];
    assert s[n] in multiset(t);
    var j :| 0 <= j < |t| && t[j] == s[n];
    WithoutAt(t, j);
    Cancel(multiset(s[..n]), multiset(t[..j] + t[j + 1..]), s[n]);
    front, back := t[..j], t[j + 1..];
  }

  lemma NoneLeft<T>(s: seq<T>, t: seq<T>)
    requires multiset(s) == multiset(t) && s == []
    ensures t == []
  {
    assert |multiset(t)| == |t|;
  }

  // ---- which requirements are queued ----

  lemma {:induction false} PairsOfBoth(s: seq<(string, Dependency)>, t: seq<(string, Dependency)>)
    ensures Pairs(s + t) == Pairs(s) + Pairs(t)
    decreases |t|
  {
    if t == [] {
      assert s + t == s;
    } else {
      PairsOfBoth(s, t[..|t| - 1]);
      assert (s + t)[..|s + t| - 1] == s + t[..|t| - 1];
    }
  }

  lemma {:induction false} PairsPermuted(s: seq<(string, Dependency)>, t: seq<(string, Dependency)>)
    requires multiset(s) == multiset(t)
    ensures multiset(Pairs(s)) == multiset(Pairs(t))
    decreases |s|
  {
    if s == [] {
      NoneLeft(s, t);
    } else {
      var n := |s| - 1;
      var x := s[n];
      assert s == s[..n] + [x];
      var front, back := Without(s, t);
      PairsPermuted(s[..n], front + back);
      PairsOfBoth(front, back);
      PairsOfBoth(front, [x]);
      PairsOfBoth(front + [x], back);
      PairsOfBoth(s[..n], [x]);
    }
  }

  lemma {:induction false} PushesWithout(root: Manifest, fetch: Fetcher, a: seq<Pair>, x: Pair, b: seq<Pair>)
    ensures multiset(Pushes(root, fetch, a + [x] + b)) == multiset(Pushes(root, fetch, a + b)) + multiset(Pairs(DepsOf(fetch, x)))
    decreases |b|
  {
    hide Pairs, DepsOf, Pushes, NamesAfter, Adopt;
    if b == [] {
      assert a + [x] + b == a + [x] && a + b == a;
      PushesNext(root, fetch, a, x);
    } else {
      var front, last := b[..|b| - 1], b[|b| - 1];
      PushesWithout(root, fetch, a, x, front);
      assert a + [x] + b == (a + [x] + front) + [last] && a + b == (a + front) + [last];
      PushesNext(root, fetch, a + [x] + front, last);
      PushesNext(root, fetch, a + front, last);
    }
  }

  /** What is queued in all does not depend on the order of the tables or of the fetches. */
  lemma {:induction false} PushesPermuted(root: Manifest, fetch: Fetcher, root': Manifest, fetch': Fetcher, a: seq<Pair>, b: seq<Pair>)
    requires SameTables(root, fetch, root', fetch') && multiset(a) == multiset(b)
    ensures multiset(Pushes(root, fetch, a)) == multiset(Pushes(root', fetch', b))
    decreases |a|
  {
    hide Pairs;
    if a == [] {
      NoneLeft(a, b);
      PairsPermuted(root.deps, root'.deps);
    } else {
      var n := |a| - 1;
      var x := a[n];
      assert a == a[..n] + [x];
      var front, back := Without(a, b);
      PushesPermuted(root, fetch, root', fetch', a[..n], front + back);
      PushesWithout(root', fetch', front, x, back);
      PushesNext(root, fetch, a[..n], x);
      PairsPermuted(DepsOf(fetch, x), DepsOf(fetch', x));
    }
  }

  lemma {:induction false} FirstsDistinct(s: seq<Pair>)
    ensures Distinct(Firsts(s))
    decreases |s|
  {
    if s != [] {
      FirstsDistinct(s[..|s| - 1]);
    }
  }

  lemma HasMember<T>(s: seq<T>)
    ensures s == [] || exists x :: x in s
  {
    assert s != [] ==> s[0] in s;
  }

  lemma DistinctWithout(b: seq<Pair>, j: nat)
    requires Distinct(b) && j < |b|
    ensures var rest := b[..j] + b[j + 1..];
            Distinct(rest) && forall p :: p in rest <==> p in b && p != b[j]
  {
    var rest := b[..j] + b[j + 1..];
    assert forall k :: 0 <= k < |rest| ==> rest[k] == b[if k < j then k else k + 1];
    forall p | p in b && p != b[j]
      ensures p in rest
    {
      var k :| 0 <= k < |b| && b[k] == p;
      assert rest[if k < j then k else k - 1] == p;
    }
  }

  lemma {:induction false} DistinctPermuted(a: seq<Pair>, b: seq<Pair>)
    requires Distinct(a) && Distinct(b) && forall p :: p in a <==> p in b
    ensures multiset(a) == multiset(b)
    decreases |a|
  {
    if a == [] {
      HasMember(b);
    } else {
      var n := |a| - 1;
      assert a[n] in a;
      var j :| 0 <= j < |b| && b[j] == a[n];
      var rest := b[..j] + b[j + 1..];
      DistinctWithout(a, n);
      DistinctWithout(b, j);
      assert a[..n] + a[n + 1..] == a[..n];
      DistinctPermuted(a[..n], rest);
      WithoutAt(a, n);
      WithoutAt(b, j);
    }
  }

  lemma {:induction false} PushesReachable(root: Manifest, fetch: Fetcher, calls: seq<Pair>)
    requires forall p :: p in calls ==> Reachable(root, fetch, p)
    ensures forall p :: p in Pushes(root, fetch, calls) ==> Reachable(root, fetch, p)
    decreases |calls|
  {
    hide Reachable, Pairs, Requires;
    if calls == [] {
      ManifestPairs(root);
      forall p | p in Pairs(root.deps)
        ensures Reachable(root, fetch, p)
      {
        ReachRoot(root, fetch, p);
      }
    } else {
      var n := |calls| - 1;
      PushesReachable(root, fetch, calls[..n]);
      assert calls[n] in calls;
      if fetch(calls[n]).None? {
        NothingNeeded(fetch, calls[n]);
      }
      forall q | q in Pairs(DepsOf(fetch, calls[n]))
        ensures Reachable(root, fetch, q)
      {
        if fetch(calls[n]).Some? {
          ManifestPairs(fetch(calls[n]).value);
          ReachNext(root, fetch, calls[n], q);
        }
      }
    }
  }

  lemma {:induction false} WalkReaches(root: Manifest, fetch: Fetcher, calls: seq<Pair>, k: nat)
    requires Walked(root, fetch, calls) && k <= |calls|
    ensures forall p :: p in calls[..k] ==> Reachable(root, fetch, p)
    decreases k
  {
    hide Reachable, Pushes, Firsts;
    if k > 0 {
      WalkReaches(root, fetch, calls, k - 1);
      PushesReachable(root, fetch, calls[..k - 1]);
      assert StepAt(root, fetch, calls, k - 1);
      var n: nat :| n <= |Pushes(root, fetch, calls[..k - 1])| && calls[..k] == Firsts(Pushes(root, fetch, calls[..k - 1])[..n]);
      forall p | p in calls[..k]
        ensures Reachable(root, fetch, p)
      {
        FirstsHas(Pushes(root, fetch, calls[..k - 1])[..n], p);
      }
    }
  }

  lemma {:induction false} PushesHave(root: Manifest, fetch: Fetcher, calls: seq<Pair>, q: Pair)
    requires Requires(root, q) || exists p :: p in calls && Needs(fetch, p, q)
    ensures q in Pushes(root, fetch, calls)
    decreases |calls|
  {
    hide Pairs, Requires;
    if calls == [] {
      ManifestPairs(root);
    } else {
      var n := |calls| - 1;
      if Requires(root, q) || exists p :: p in calls[..n] && Needs(fetch, p, q) {
        PushesHave(root, fetch, calls[..n], q);
      } else {
        assert calls == calls[..n] + [calls[n]];
        ManifestPairs(fetch(calls[n]).value);
      }
    }
  }

  /** A whole order fetches what is required, each once. */
  lemma OrderReaches(root: Manifest, fetch: Fetcher, order: seq<Pair>)
    requires Order(root, fetch, order)
    ensures Distinct(order) && forall p :: p in order <==> Reachable(root, fetch, p)
  {
    hide Reachable, Pushes, Firsts, Requires, Needs;
    FirstsDistinct(Pushes(root, fetch, order));
    WalkReaches(root, fetch, order, |order|);
    assert order[..|order|] == order;
    var all := set p | p in order;
    forall q | Requires(root, q) || exists p :: p in all && Needs(fetch, p, q)
      ensures q in all
    {
      assert Requires(root, q) || exists p :: p in order && Needs(fetch, p, q);
      PushesHave(root, fetch, order, q);
      FirstsHas(Pushes(root, fetch, order), q);
    }
    assert Closed(root, fetch, all);
    forall p | Reachable(root, fetch, p)
      ensures p in order
    {
      ClosedHasReachable(root, fetch, all, p);
    }
  }

  lemma OrdersPermuted(root: Manifest, fetch: Fetcher, root': Manifest, fetch': Fetcher, order: seq<Pair>, order': seq<Pair>)
    requires SameTables(root, fetch, root', fetch') && Order(root, fetch, order) && Order(root', fetch', order')
    ensures multiset(order) == multiset(order') && multiset(Pushes(root, fetch, order)) == multiset(Pushes(root', fetch', order'))
    ensures forall p :: p in order <==> p in order'
  {
    hide Order, Reachable, Pushes, SameTables, SameGraph;
    OrderReaches(root, fetch, order);
    OrderReaches(root', fetch', order');
    TablesGraph(root, fetch, root', fetch');
    forall p
      ensures p in order <==> p in order'
    {
      if p in order {
        SameReachable(root, fetch, root', fetch', p);
      }
      if p in order' {
        SameReachable(root', fetch', root, fetch, p);
      }
    }
    DistinctPermuted(order, order');
    PushesPermuted(root, fetch, root', fetch', order, order');
  }

  lemma RestSame<T>(s: seq<T>, t: seq<T>, i: nat, k: nat)
    requires multiset(s) == multiset(t) && i < |s| && k < |t| && s[i] == t[k]
    ensures multiset(s[..i] + s[i + 1..]) == multiset(t[..k] + t[k + 1..])
  {
    WithoutAt(s, i);
    WithoutAt(t, k);
    Cancel(multiset(s[..i] + s[i + 1..]), multiset(t[..k] + t[k + 1..]), s[i]);
  }

  lemma Positions(s: seq<Pair>, t: seq<Pair>, i: nat, j: nat) returns (k: nat, l: nat)
    requires multiset(s) == multiset(t) && i < j < |s|
    ensures k < |t| && l < |t| && k != l && t[k] == s[i] && t[l] == s[j]
  {
    assert s[i] in multiset(t);
    k :| 0 <= k < |t| && t[k] == s[i];
    RestSame(s, t, i, k);
    var a, b := s[..i] + s[i + 1..], t[..k] + t[k + 1..];
    assert a[j - 1] == s[j];
    assert s[j] in multiset(b);
    var m :| 0 <= m < |b| && b[m] == s[j];
    l := if m < k then m else m + 1;
  }

  lemma EventMoved(root: Manifest, fetch: Fetcher, root': Manifest, fetch': Fetcher, order: seq<Pair>, order': seq<Pair>, why: Failure)
    requires SameTables(root, fetch, root', fetch') && Order(root, fetch, order) && Order(root', fetch', order')
    requires Event(root, fetch, order, why) && why != AliasConflict
    ensures Event(root', fetch', order', why)
  {
    hide Order, Pushes, Parse, SameMajor, SameTable;
    OrdersPermuted(root, fetch, root', fetch', order, order');
    var s, t := Pushes(root, fetch, order), Pushes(root', fetch', order');
    if why.BadVersion? || why.MajorConflict? {
      var i: nat, j: nat :| i < j < |s| && if why.BadVersion? then Unreadable(s[i], s[j]) else Apart(s[i], s[j]);
      var k, l := Positions(s, t, i, j);
      ApartBoth(s[i], s[j]);
      assert if k < l then t[k] == s[i] && t[l] == s[j] else l < k && t[l] == s[j] && t[k] == s[i];
    }
  }

  lemma ApartBoth(p: Pair, q: Pair)
    ensures Unreadable(p, q) == Unreadable(q, p) && Apart(p, q) == Apart(q, p)
  {
  }

  // ---- when the order does not matter ----

  /** No package that is required is called like an alias of the root. */
  ghost predicate NoneLikeRoot(root: Manifest, fetch: Fetcher) {
    forall p {:trigger Reachable(root, fetch, p)} ::
      Reachable(root, fetch, p) && fetch(p).Some? ==> !IsRootAlias(root, fetch(p).value.name)
  }

  ghost predicate Called(root: Manifest, fetch: Fetcher, p: Pair, u: Url, alias: string) {
    Reachable(root, fetch, p) && fetch(p).Some? && Maps(fetch(p).value, alias, u)
  }

  /** No URL can be given two names: the root has one at most, and where it has none all others agree. */
  ghost predicate OneName(root: Manifest, fetch: Fetcher) {
    && (forall u, a, b :: Maps(root, a, u) && Maps(root, b, u) ==> a == b)
    && (forall p, q, u, a, b :: Called(root, fetch, p, u, a) && Called(root, fetch, q, u, b) ==> a == b)
  }

  lemma NamesMoved(root: Manifest, fetch: Fetcher, root': Manifest, fetch': Fetcher)
    requires SameTables(root, fetch, root', fetch')
    ensures forall alias, u :: Maps(root, alias, u) <==> Maps(root', alias, u)
    ensures forall p :: Reachable(root, fetch, p) <==> Reachable(root', fetch', p)
    ensures forall p, u, alias :: Called(root, fetch, p, u, alias) <==> Called(root', fetch', p, u, alias)
  {
    hide SameTable, Maps, Reachable, SameGraph;
    SameTableRequires(root, root');
    TablesGraph(root, fetch, root', fetch');
    forall p
      ensures Reachable(root, fetch, p) <==> Reachable(root', fetch', p)
    {
      if Reachable(root, fetch, p) {
        SameReachable(root, fetch, root', fetch', p);
      }
      if Reachable(root', fetch', p) {
        SameReachable(root', fetch', root, fetch, p);
      }
    }
    forall p | fetch(p).Some?
      ensures forall alias, u :: Maps(fetch(p).value, alias, u) <==> Maps(fetch'(p).value, alias, u)
    {
      SameTableRequires(fetch(p).value, fetch'(p).value);
    }
  }

  lemma NoneLikeRootMoved(root: Manifest, fetch: Fetcher, root': Manifest, fetch': Fetcher)
    requires SameTables(root, fetch, root', fetch') && NoneLikeRoot(root, fetch)
    ensures NoneLikeRoot(root', fetch')
  {
    hide Maps, Reachable;
    NamesMoved(root, fetch, root', fetch');
    forall p | Reachable(root', fetch', p) && fetch'(p).Some?
      ensures !IsRootAlias(root', fetch'(p).value.name)
    {
      assert Reachable(root, fetch, p);
      assert fetch'(p).value.name == fetch(p).value.name;
    }
  }

  lemma NoClash(root: Manifest, fetch: Fetcher, order: seq<Pair>)
    requires Order(root, fetch, order) && NoneLikeRoot(root, fetch)
    ensures !Event(root, fetch, order, AliasConflict)
  {
    hide Order, Reachable, NamesAfter, MentionsUrl, IsRootAlias;
    OrderReaches(root, fetch, order);
    forall k: nat | k < |order|
      ensures !Clash(root, fetch, order, k)
    {
      assert order[k] in order;
    }
  }

  /** If no package is called like an alias of the root, whether a resolution locks does not
      depend on the order in which tables are iterated. */
  lemma OutcomeOrderFree(root: Manifest, fetch: Fetcher, root': Manifest, fetch': Fetcher, universe: set<Pair>,
                         r: Resolution, calls: seq<Pair>, r': Resolution, calls': seq<Pair>)
    requires SameTables(root, fetch, root', fetch') && Closed(root, fetch, universe) && NoneLikeRoot(root, fetch)
    requires Ran(root, fetch, r, calls) && Ran(root', fetch', r', calls')
    ensures r.Locked? <==> r'.Locked?
  {
    hide Order, Event, Ran, SameTable, NoneLikeRoot;
    TablesGraph(root, fetch, root', fetch');
    assert Closed(root', fetch', universe);
    var order, order' := [], [];
    order := OrderExists(root, fetch, universe);
    order' := OrderExists(root', fetch', universe);
    LockedIff(root, fetch, r, calls, order);
    LockedIff(root', fetch', r', calls', order');
    NoneLikeRootMoved(root, fetch, root', fetch');
    NoClash(root, fetch, order);
    NoClash(root', fetch', order');
    TablesBack(root, fetch, root', fetch');
    forall why
      ensures Event(root, fetch, order, why) <==> Event(root', fetch', order', why)
    {
      if Event(root, fetch, order, why) {
        EventMoved(root, fetch, root', fetch', order, order', why);
      }
      if Event(root', fetch', order', why) {
        EventMoved(root', fetch', root, fetch, order', order, why);
      }
    }
  }

  lemma TablesBack(root: Manifest, fetch: Fetcher, root': Manifest, fetch': Fetcher)
    requires SameTables(root, fetch, root', fetch')
    ensures SameTables(root', fetch', root, fetch)
  {
  }

  lemma MentionsIff(m: Manifest, u: Url)
    ensures MentionsUrl(m.deps, u) <==> exists alias :: Maps(m, alias, u)
  {
    if MentionsUrl(m.deps, u) {
      var p :| p in Pairs(m.deps) && p.url == u;
      PairsRequires(m.name, m.deps, p);
      var i :| 0 <= i < |m.deps| && m.deps[i].1 == Git(p.url, p.version);
      assert Maps(m, m.deps[i].0, u);
    }
    if alias :| Maps(m, alias, u) {
      var i :| 0 <= i < |m.deps| && m.deps[i].0 == alias && m.deps[i].1.Git? && m.deps[i].1.url == u;
      PairsRequires(m.name, m.deps, Pair(u, m.deps[i].1.version));
    }
  }

  // Which URLs have names at the end, and whose.
  lemma NameOf(root: Manifest, fetch: Fetcher, order: seq<Pair>, u: Url)
    requires Order(root, fetch, order)
    ensures var names := NamesAfter(root, fetch, order);
            && (u in names <==> (exists alias :: Maps(root, alias, u)) || exists p, alias :: Called(root, fetch, p, u, alias))
            && ((exists alias :: Maps(root, alias, u)) ==> u in names && Maps(root, names[u], u))
            && (u in names && !Maps(root, names[u], u) ==> exists p :: Called(root, fetch, p, u, names[u]))
  {
    hide Order, Reachable, NamesAfter, MentionsUrl, RootNames;
    OrderReaches(root, fetch, order);
    var l := RootNamed(root.deps, u);
    var k, i := NamedBy(root, fetch, order, u);
    var names := NamesAfter(root, fetch, order);
    if u in RootNames(root.deps) {
      assert Maps(root, names[u], u);
    } else {
      assert !exists alias :: Maps(root, alias, u);
      if FirstToRequire(root, fetch, order, u, k) {
        assert order[k] in order;
        assert fetch(order[k]).Some?;
        assert Called(root, fetch, order[k], u, names[u]);
      }
      forall p, alias | Called(root, fetch, p, u, alias)
        ensures u in names
      {
        MentionsIff(fetch(p).value, u);
        var j: nat :| j < |order| && order[j] == p;
        if u !in names {
          NotRequired(root, fetch, order, u, j);
        }
      }
    }
  }

  /** If no URL can be given two names, the aliases that are locked do not depend on the order either. */
  lemma AliasesOrderFree(root: Manifest, fetch: Fetcher, root': Manifest, fetch': Fetcher,
                         r: Resolution, calls: seq<Pair>, r': Resolution, calls': seq<Pair>)
    requires SameTables(root, fetch, root', fetch') && OneName(root, fetch)
    requires Ran(root, fetch, r, calls) && Ran(root', fetch', r', calls') && r.Locked? && r'.Locked?
    ensures r.lock.aliases == r'.lock.aliases
  {
    hide Order, Event, SameTables, Reachable, NamesAfter, Maps, Called;
    NamesMoved(root, fetch, root', fetch');
    var names, names' := r.lock.aliases, r'.lock.aliases;
    forall u
      ensures u in names <==> u in names'
      ensures u in names && u in names' ==> names[u] == names'[u]
    {
      NameOf(root, fetch, calls, u);
      NameOf(root', fetch', calls', u);
    }
  }
}
