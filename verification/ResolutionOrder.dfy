/** When the order of a resolution matters, and for what. */
module ResolutionOrder {
  import opened Wrappers
  import opened Semver
  import opened Requirements
  import opened Walk
  import opened Resolver

  // ---- there is one order ----

  /** Every walk is the beginning of the whole order. */
  lemma {:induction false} WalkedPrefix(root: Manifest, fetch: Fetcher, calls: seq<Pair>, order: seq<Pair>, k: nat)
    requires Walked(root, fetch, calls) && Order(root, fetch, order) && k <= |calls|
    ensures calls[..k] <= order
    decreases k
  {
    hide Pushes, Firsts;
    if k > 0 {
      WalkedPrefix(root, fetch, calls, order, k - 1);
      assert StepAt(root, fetch, calls, k - 1);
      var n: nat :| n <= |Pushes(root, fetch, calls[..k - 1])| && calls[..k] == Firsts(Pushes(root, fetch, calls[..k - 1])[..n]);
      PushesPrefix(root, fetch, calls[..k - 1], order);
      FirstsPrefix(Pushes(root, fetch, calls[..k - 1])[..n], Pushes(root, fetch, order));
    }
  }

  lemma OneOrder(root: Manifest, fetch: Fetcher, order: seq<Pair>, other: seq<Pair>)
    requires Order(root, fetch, order) && Order(root, fetch, other)
    ensures order == other
  {
    assert Walked(root, fetch, order) && Walked(root, fetch, other);
    hide Order;
    WalkedPrefix(root, fetch, order, other, |order|);
    WalkedPrefix(root, fetch, other, order, |other|);
    assert order[..|order|] == order && other[..|other|] == other;
  }

  lemma {:induction false} PushesInside(root: Manifest, fetch: Fetcher, universe: set<Pair>, calls: seq<Pair>)
    requires Closed(root, fetch, universe) && forall p :: p in calls ==> p in universe
    ensures forall p :: p in Pushes(root, fetch, calls) ==> p in universe
    decreases |calls|
  {
    hide Pairs, Requires;
    if calls == [] {
      ManifestPairs(root);
    } else {
      var last := calls[|calls| - 1];
      assert last in calls;
      PushesInside(root, fetch, universe, calls[..|calls| - 1]);
      if fetch(last).Some? {
        ManifestPairs(fetch(last).value);
        assert forall q :: q in Pairs(DepsOf(fetch, last)) ==> Needs(fetch, last, q);
      } else {
        NothingNeeded(fetch, last);
      }
    }
  }

  lemma {:induction false} WalkOn(root: Manifest, fetch: Fetcher, universe: set<Pair>, calls: seq<Pair>, n: nat) returns (order: seq<Pair>)
    requires Closed(root, fetch, universe) && Walked(root, fetch, calls) && forall p :: p in calls ==> p in universe
    requires n <= |Pushes(root, fetch, calls)| && calls == Firsts(Pushes(root, fetch, calls)[..n])
    ensures Order(root, fetch, order)
    decreases universe - set p | p in calls, |Pushes(root, fetch, calls)| - n
  {
    hide Pushes, Closed, Firsts, Walked;
    var s := Pushes(root, fetch, calls);
    if n == |s| {
      assert s[..n] == s;
      return calls;
    }
    var p := s[n];
    assert s[..n + 1] == s[..n] + [p];
    FirstsNext(s[..n], p);
    if p in calls {
      order := WalkOn(root, fetch, universe, calls, n + 1);
    } else {
      PushesInside(root, fetch, universe, calls);
      WalkedNext(root, fetch, calls, p, n + 1);
      PushesNext(root, fetch, calls, p);
      var more := calls + [p];
      assert Pushes(root, fetch, more)[..n + 1] == s[..n + 1];
      assert p in more && p in universe - set q | q in calls;
      order := WalkOn(root, fetch, universe, more, n + 1);
    }
  }

  /** If the requirements do not leave a finite set, there is an order, and just one. */
  lemma OrderExists(root: Manifest, fetch: Fetcher, universe: set<Pair>) returns (order: seq<Pair>)
    requires Closed(root, fetch, universe)
    ensures Order(root, fetch, order) && forall other :: Order(root, fetch, other) ==> other == order
  {
    hide Closed, Order;
    order := WalkOn(root, fetch, universe, [], 0);
    forall other | Order(root, fetch, other)
      ensures other == order
    {
      OneOrder(root, fetch, order, other);
    }
  }

  // ---- what a resolution answers ----

  lemma EventLasts(root: Manifest, fetch: Fetcher, calls: seq<Pair>, order: seq<Pair>, why: Failure)
    requires calls <= order && Event(root, fetch, calls, why)
    ensures Event(root, fetch, order, why)
  {
    hide Pushes, NamesAfter, Parse, SameMajor;
    PushesPrefix(root, fetch, calls, order);
    if why.AliasConflict? {
      var k: nat :| Clash(root, fetch, calls, k);
      assert calls[k] == order[k] && calls[..k] == order[..k];
      assert Clash(root, fetch, order, k);
    }
  }

  /** A resolution locks exactly if nothing goes wrong in the whole order, and what it fails with
      went wrong there. */
  lemma LockedIff(root: Manifest, fetch: Fetcher, r: Resolution, calls: seq<Pair>, order: seq<Pair>)
    requires Ran(root, fetch, r, calls) && Order(root, fetch, order)
    ensures r.Locked? <==> forall why :: !Event(root, fetch, order, why)
    ensures r.Locked? ==> calls == order && r.lock.aliases == NamesAfter(root, fetch, order)
    ensures r.Failed? ==> Event(root, fetch, order, r.why)
  {
    hide Event, NamesAfter, Walked;
    assert Walked(root, fetch, order);
    hide Order;
    WalkedPrefix(root, fetch, calls, order, |calls|);
    assert calls[..|calls|] == calls;
    if r.Locked? {
      OneOrder(root, fetch, calls, order);
    } else {
      EventLasts(root, fetch, calls, order, r.why);
    }
  }

  /** Where only one thing goes wrong, that is what the resolution fails with. */
  lemma FailsWith(root: Manifest, fetch: Fetcher, r: Resolution, calls: seq<Pair>, order: seq<Pair>, why: Failure)
    requires Ran(root, fetch, r, calls) && Order(root, fetch, order)
    requires forall other :: other != why ==> !Event(root, fetch, order, other)
    ensures r == Failed(why) <==> Event(root, fetch, order, why)
  {
    hide Event, Order, Ran;
    LockedIff(root, fetch, r, calls, order);
  }

  // ---- aliases ----

  // The first entry of a table for this URL, and the last one.
  predicate FirstFor(deps: seq<(string, Dependency)>, u: Url, i: nat) {
    i < |deps| && deps[i].1.Git? && deps[i].1.url == u && forall j :: 0 <= j < i ==> !(deps[j].1.Git? && deps[j].1.url == u)
  }

  predicate LastFor(deps: seq<(string, Dependency)>, u: Url, i: nat) {
    i < |deps| && deps[i].1.Git? && deps[i].1.url == u && forall j :: i < j < |deps| ==> !(deps[j].1.Git? && deps[j].1.url == u)
  }

  lemma {:induction false} RootNamed(deps: seq<(string, Dependency)>, u: Url) returns (i: nat)
    ensures u in RootNames(deps) <==> LastFor(deps, u, i)
    ensures u in RootNames(deps) ==> RootNames(deps)[u] == deps[i].0
    ensures u in RootNames(deps) <==> exists j :: 0 <= j < |deps| && deps[j].1.Git? && deps[j].1.url == u
    decreases |deps|
  {
    i := 0;
    if deps != [] {
      var n := |deps| - 1;
      i := RootNamed(deps[..n], u);
      assert forall j :: 0 <= j < n ==> deps[..n][j] == deps[j];
      if deps[n].1.Git? && deps[n].1.url == u {
        i := n;
      }
    }
  }

  lemma {:induction false} Adopted(deps: seq<(string, Dependency)>, aliases: map<Url, string>, u: Url) returns (i: nat)
    ensures u in aliases ==> u in Adopt(deps, aliases) && Adopt(deps, aliases)[u] == aliases[u]
    ensures u !in aliases ==> (u in Adopt(deps, aliases) <==> FirstFor(deps, u, i))
    ensures u !in aliases && u in Adopt(deps, aliases) ==> Adopt(deps, aliases)[u] == deps[i].0
    ensures FirstFor(deps, u, i) <==> MentionsUrl(deps, u)
    decreases |deps|
  {
    i := 0;
    if deps != [] {
      var n := |deps| - 1;
      i := Adopted(deps[..n], aliases, u);
      assert forall j :: 0 <= j < n ==> deps[..n][j] == deps[j];
      if MentionsUrl(deps[..n], u) {
        var p :| p in Pairs(deps[..n]) && p.url == u;
        assert p in Pairs(deps);
      } else if deps[n].1.Git? && deps[n].1.url == u {
        i := n;
        assert Pairs(deps)[|Pairs(deps)| - 1].url == u;
        assert MentionsUrl(deps, u);
        assert FirstFor(deps, u, n) by {
          forall j | 0 <= j < n
            ensures !(deps[j].1.Git? && deps[j].1.url == u)
          {
            if deps[j].1.Git? && deps[j].1.url == u {
              PairsRequires("", deps[..n], Pair(u, deps[j].1.version));
            }
          }
        }
      } else {
        assert forall p :: p in Pairs(deps) && p.url == u ==> p in Pairs(deps[..n]);
      }
    }
  }

  /** The first fetched manifest to require a URL for which the root has no alias. */
  ghost predicate FirstToRequire(root: Manifest, fetch: Fetcher, calls: seq<Pair>, u: Url, k: nat) {
    && u !in RootNames(root.deps) && k < |calls| && MentionsUrl(DepsOf(fetch, calls[k]), u)
    && forall j :: 0 <= j < k ==> !MentionsUrl(DepsOf(fetch, calls[j]), u)
  }

  lemma OneFirst(root: Manifest, fetch: Fetcher, calls: seq<Pair>, u: Url, k: nat, l: nat)
    requires FirstToRequire(root, fetch, calls, u, k) && FirstToRequire(root, fetch, calls, u, l)
    ensures k == l
  {
  }

  /** The root's last alias for a URL counts, and where it has none the first one of the first
      manifest to require it. */
  lemma {:induction false} NamedBy(root: Manifest, fetch: Fetcher, calls: seq<Pair>, u: Url) returns (k: nat, i: nat)
    ensures u in RootNames(root.deps) ==>
              u in NamesAfter(root, fetch, calls) && LastFor(root.deps, u, i) && NamesAfter(root, fetch, calls)[u] == root.deps[i].0
    ensures u !in RootNames(root.deps) ==> (u in NamesAfter(root, fetch, calls) <==> FirstToRequire(root, fetch, calls, u, k))
    ensures FirstToRequire(root, fetch, calls, u, k) ==>
              FirstFor(DepsOf(fetch, calls[k]), u, i) && u in NamesAfter(root, fetch, calls)
              && NamesAfter(root, fetch, calls)[u] == DepsOf(fetch, calls[k])[i].0
    decreases |calls|
  {
    hide RootNames, Adopt, MentionsUrl, FirstFor, LastFor, DepsOf;
    if calls == [] {
      k := 0;
      i := RootNamed(root.deps, u);
    } else {
      var n := |calls| - 1;
      k, i := NamedBy(root, fetch, calls[..n], u);
      assert forall j :: 0 <= j < n ==> calls[..n][j] == calls[j];
      var first := Adopted(DepsOf(fetch, calls[n]), NamesAfter(root, fetch, calls[..n]), u);
      if u !in NamesAfter(root, fetch, calls[..n]) {
        k, i := n, first;
        forall j | 0 <= j < n
          ensures !MentionsUrl(DepsOf(fetch, calls[j]), u)
        {
          NotRequired(root, fetch, calls[..n], u, j);
        }
      }
    }
  }

  lemma {:induction false} NotRequired(root: Manifest, fetch: Fetcher, calls: seq<Pair>, u: Url, j: nat)
    requires u !in NamesAfter(root, fetch, calls) && j < |calls|
    ensures !MentionsUrl(DepsOf(fetch, calls[j]), u)
    decreases |calls|
  {
    hide Adopt, MentionsUrl, DepsOf;
    var n := |calls| - 1;
    var i := Adopted(DepsOf(fetch, calls[n]), NamesAfter(root, fetch, calls[..n]), u);
    if j < n {
      NotRequired(root, fetch, calls[..n], u, j);
    }
  }

  /** A resolution stumbles over an alias exactly if the first manifest to require some URL for
      which the root has none is called like an alias of the root. */
  lemma ClashIff(root: Manifest, fetch: Fetcher, calls: seq<Pair>)
    ensures Event(root, fetch, calls, AliasConflict) <==>
            exists u, k: nat :: FirstToRequire(root, fetch, calls, u, k) && fetch(calls[k]).Some? && IsRootAlias(root, fetch(calls[k]).value.name)
  {
    hide RootNames, NamesAfter, MentionsUrl, IsRootAlias;
    if Event(root, fetch, calls, AliasConflict) {
      var k: nat :| Clash(root, fetch, calls, k);
      var u :| MentionsUrl(fetch(calls[k]).value.deps, u) && u !in NamesAfter(root, fetch, calls[..k]);
      var l, i := NamedBy(root, fetch, calls[..k], u);
      forall j | 0 <= j < k
        ensures !MentionsUrl(DepsOf(fetch, calls[j]), u)
      {
        NotRequired(root, fetch, calls[..k], u, j);
      }
      assert FirstToRequire(root, fetch, calls, u, k);
    }
    forall u, k: nat | FirstToRequire(root, fetch, calls, u, k) && fetch(calls[k]).Some? && IsRootAlias(root, fetch(calls[k]).value.name)
      ensures Clash(root, fetch, calls, k)
    {
      var l, i := NamedBy(root, fetch, calls[..k], u);
    }
  }

  /** So where nothing else goes wrong, the resolution fails exactly then. */
  lemma AliasFailsIff(root: Manifest, fetch: Fetcher, r: Resolution, calls: seq<Pair>, order: seq<Pair>)
    requires Ran(root, fetch, r, calls) && Order(root, fetch, order)
    requires forall why :: why != AliasConflict ==> !Event(root, fetch, order, why)
    ensures r == Failed(AliasConflict) <==>
            exists u, k: nat :: FirstToRequire(root, fetch, order, u, k) && fetch(order[k]).Some? && IsRootAlias(root, fetch(order[k]).value.name)
    ensures r != Failed(AliasConflict) ==> r.Locked?
  {
    hide Event, Order, Ran, FirstToRequire, IsRootAlias;
    FailsWith(root, fetch, r, calls, order, AliasConflict);
    LockedIff(root, fetch, r, calls, order);
    ClashIff(root, fetch, order);
  }

  // ---- a version that cannot be read ----

  // The requirement of a version that cannot be read, and another one of the same package.
  predicate SomeUnreadable(s: seq<Pair>) {
    exists i, j :: 0 <= i < |s| && 0 <= j < |s| && i != j && s[i].url == s[j].url && Parse(s[i].version).None?
  }

  /** A version that cannot be read makes a resolution fail exactly if its package is required
      another time. */
  lemma UnreadableIff(root: Manifest, fetch: Fetcher, calls: seq<Pair>)
    ensures var s := Pushes(root, fetch, calls);
            Event(root, fetch, calls, BadVersion) <==> SomeUnreadable(s)
  {
    hide Pushes, Parse;
    var s := Pushes(root, fetch, calls);
    if SomeUnreadable(s) {
      var i, j :| 0 <= i < |s| && 0 <= j < |s| && i != j && s[i].url == s[j].url && Parse(s[i].version).None?;
      assert if i < j then Unreadable(s[i], s[j]) else Unreadable(s[j], s[i]);
    }
  }
}
