/** Minimal version selection: a worklist over the requirements, and what it selects. */
module Resolver {
  import opened Wrappers
  import opened Semver
  import opened Requirements
  import opened Walk

  // ---- one manifest ----

  /** The root's aliases take precedence; of two for one URL the later one counts. */
  method RootRequirements(root: Manifest) returns (queue: seq<Pair>, aliases: map<Url, string>, rootAliases: set<string>)
    ensures queue == Pairs(root.deps) && aliases == RootNames(root.deps)
    ensures forall u :: u in aliases ==> Maps(root, aliases[u], u)
    ensures forall p :: p in queue ==> p.url in aliases
    ensures forall a :: a in rootAliases <==> IsRootAlias(root, a)
  {
    queue, aliases, rootAliases := [], map[], {};
    var i := 0;
    assert root.deps[..|root.deps|] == root.deps;
    while i < |root.deps|
      invariant i <= |root.deps| && queue == Pairs(root.deps[..i]) && aliases == RootNames(root.deps[..i])
      invariant forall u :: u in aliases ==> Maps(root, aliases[u], u)
      invariant forall p :: p in queue ==> p.url in aliases
      invariant forall a :: a in rootAliases ==> IsRootAlias(root, a)
      invariant forall k :: 0 <= k < i && root.deps[k].1.Git? ==> root.deps[k].0 in rootAliases
    {
      var (alias, dep) := root.deps[i];
      assert root.deps[..i + 1][..i] == root.deps[..i];
      if dep.Git? {
        assert Maps(root, alias, dep.url);
        rootAliases := rootAliases + {alias};
        aliases := aliases[dep.url := alias];
        queue := queue + [Pair(dep.url, dep.version)];
      }
      i := i + 1;
    }
  }

  /** Queues the requirements of a fetched manifest. A URL without an alias gets the one this
      manifest uses, unless the manifest's own name is an alias of the root. */
  method Enqueue(m: Manifest, rootAliases: set<string>, queue: seq<Pair>, aliases: map<Url, string>)
    returns (ok: bool, queue': seq<Pair>, aliases': map<Url, string>)
    ensures ok ==> queue' == queue + Pairs(m.deps) && aliases' == Adopt(m.deps, aliases)
    ensures ok <==> m.name !in rootAliases || forall p :: p in Pairs(m.deps) ==> p.url in aliases
    ensures forall u :: u in aliases ==> u in aliases' && aliases'[u] == aliases[u]
    ensures forall u :: u in aliases' ==> u in aliases || Maps(m, aliases'[u], u)
    ensures ok ==> forall p :: p in Pairs(m.deps) ==> p.url in aliases'
  {
    ok, queue', aliases' := true, queue, aliases;
    var i := 0;
    assert m.deps[..|m.deps|] == m.deps;
    while i < |m.deps|
      invariant i <= |m.deps| && queue' == queue + Pairs(m.deps[..i]) && aliases' == Adopt(m.deps[..i], aliases) && ok
      invariant forall u :: u in aliases ==> u in aliases' && aliases'[u] == aliases[u]
      invariant forall u :: u in aliases' ==> u in aliases || Maps(m, aliases'[u], u)
      invariant forall p :: p in Pairs(m.deps[..i]) ==> p.url in aliases'
      invariant m.name in rootAliases ==> aliases' == aliases
    {
      var (alias, dep) := m.deps[i];
      assert m.deps[..i + 1][..i] == m.deps[..i];
      if dep.Git? {
        if dep.url !in aliases' {
          if m.name in rootAliases {
            ok := false;
            ghost var p := Pair(dep.url, dep.version);
            assert Requires(m, p);
            ManifestPairs(m);
            assert p in Pairs(m.deps) && p.url !in aliases;
            return;
          }
          assert Maps(m, alias, dep.url);
          aliases' := aliases'[dep.url := alias];
        }
        queue' := queue' + [Pair(dep.url, dep.version)];
      }
      i := i + 1;
    }
  }

  // ---- merging versions ----

  datatype Merged = Keep(version: Version) | Reject(why: Failure)

  /** The greater of the version so far and the new requirement. */
  method Merge(versions: map<Url, Version>, p: Pair) returns (r: Merged)
    ensures r.Keep? ==> r.version == Better(versions, p) && Meets(r.version, p.version)
    ensures r.Keep? && p.url in versions ==> Meets(r.version, versions[p.url])
    ensures r.Keep? <==> p.url !in versions || SameMajor(versions[p.url], p.version)
    ensures r == Reject(BadVersion) <==> p.url in versions && Unreadable(Pair(p.url, versions[p.url]), p)
    ensures r == Reject(MajorConflict) <==> p.url in versions && Apart(Pair(p.url, versions[p.url]), p)
    ensures r.Reject? ==> r.why.BadVersion? || r.why.MajorConflict?
  {
    if p.url !in versions {
      return Keep(p.version);
    }
    var existing, incoming := Parse(versions[p.url]), Parse(p.version);
    if existing.None? || incoming.None? {
      return Reject(BadVersion);
    }
    if existing.value.major != incoming.value.major {
      return Reject(MajorConflict);
    }
    if Greater(incoming.value, existing.value) {
      GreaterTotal(incoming.value, existing.value, existing.value);
      return Keep(p.version);
    }
    return Keep(versions[p.url]);
  }

  // ---- the worklist ----

  /** `done` are the pairs merged and fetched so far. */
  ghost predicate Progress(root: Manifest, fetch: Fetcher, queue: seq<Pair>, done: set<Pair>, versions: map<Url, Version>) {
    && (forall p :: p in queue ==> Reachable(root, fetch, p))
    && (forall p :: p in done ==> Reachable(root, fetch, p) && fetch(p).Some?)
    && (forall p :: Requires(root, p) ==> p in done || p in queue)
    && (forall p, q :: p in done && Needs(fetch, p, q) ==> q in done || q in queue)
    && (forall u :: u in versions ==> Pair(u, versions[u]) in done)
    && (forall p :: p in done ==> p.url in versions && Meets(versions[p.url], p.version))
  }

  lemma Start(root: Manifest, fetch: Fetcher)
    ensures Progress(root, fetch, Pairs(root.deps), {}, map[])
  {
    ManifestPairs(root);
    forall p | p in Pairs(root.deps)
      ensures Reachable(root, fetch, p)
    {
      ReachRoot(root, fetch, p);
    }
  }

  /** The first pair of the queue is merged, and its requirements are queued unless it was
      fetched before. */
  lemma Advance(root: Manifest, fetch: Fetcher, queue: seq<Pair>, done: set<Pair>, versions: map<Url, Version>, v: Version, more: seq<Pair>)
    requires Progress(root, fetch, queue, done, versions) && queue != [] && fetch(queue[0]).Some?
    requires v == queue[0].version || (queue[0].url in versions && v == versions[queue[0].url])
    requires Meets(v, queue[0].version) && (queue[0].url in versions ==> Meets(v, versions[queue[0].url]))
    requires more == Pairs(fetch(queue[0]).value.deps) || (queue[0] in done && more == [])
    ensures Progress(root, fetch, queue[1..] + more, done + {queue[0]}, versions[queue[0].url := v])
  {
    var p, rest := queue[0], queue[1..] + more;
    ManifestPairs(fetch(p).value);
    assert queue == [p] + queue[1..];
    forall q | q in more
      ensures Reachable(root, fetch, q)
    {
      ReachNext(root, fetch, p, q);
    }
    forall d, q | d in done + {p} && Needs(fetch, d, q)
      ensures q in done + {p} || q in rest
    {
      if d == p && p !in done {
        assert q in more;
      }
    }
    forall d | d in done + {p}
      ensures d.url in versions[p.url := v] && Meets(versions[p.url := v][d.url], d.version)
    {
      if d.url == p.url && d != p {
        MeetsTrans(v, versions[p.url], d.version);
      }
    }
  }

  lemma Finished(root: Manifest, fetch: Fetcher, done: set<Pair>, versions: map<Url, Version>)
    requires Progress(root, fetch, [], done, versions)
    ensures Selects(root, fetch, versions) && forall p :: Reachable(root, fetch, p) <==> p in done
  {
    forall p | Reachable(root, fetch, p)
      ensures p in done
    {
      ClosedHasReachable(root, fetch, done, p);
    }
    forall u, w | Required(root, fetch, u, w)
      ensures u in versions && Meets(versions[u], w)
    {
      assert Pair(u, w) in done;
    }
  }

  ghost predicate Distinct(calls: seq<Pair>) {
    forall i, j :: 0 <= i < j < |calls| ==> calls[i] != calls[j]
  }

  // Aliases stem from the root or from reachable manifests, and every queued URL has one.
  ghost predicate Aliased(root: Manifest, fetch: Fetcher, queue: seq<Pair>, versions: map<Url, Version>, aliases: map<Url, string>) {
    && (forall u :: u in aliases ==> Names(root, fetch, aliases[u], u))
    && (forall p :: p in queue ==> p.url in aliases)
    && (forall u :: u in versions ==> u in aliases)
  }

  lemma WhyRejected(root: Manifest, fetch: Fetcher, queue: seq<Pair>, done: set<Pair>, versions: map<Url, Version>, why: Failure)
    requires Progress(root, fetch, queue, done, versions) && queue != [] && queue[0].url in versions
    requires var p, q := Pair(queue[0].url, versions[queue[0].url]), queue[0];
             (why.BadVersion? && Unreadable(p, q)) || (why.MajorConflict? && Apart(p, q))
    ensures Justified(root, fetch, why)
  {
    var p, q := queue[0], Pair(queue[0].url, versions[queue[0].url]);
    assert Reachable(root, fetch, p) && Reachable(root, fetch, q);
  }

  /** What `Resolve` may answer. */
  ghost predicate Answers(root: Manifest, fetch: Fetcher, r: Resolution) {
    match r
    case Locked(lock) => Selects(root, fetch, lock.versions)
    case Failed(why) => Justified(root, fetch, why)
  }

  /** Resolves the root's requirements. `universe` is a finite set that the requirements do not
      leave; without one the walk need not end. `calls` records the fetches. */
  method Resolve(root: Manifest, fetch: Fetcher, ghost universe: set<Pair>) returns (r: Resolution, ghost calls: seq<Pair>)
    requires Closed(root, fetch, universe) && KeysDiffer(universe)
    ensures Distinct(calls) && forall p :: p in calls ==> Reachable(root, fetch, p)
    ensures Answers(root, fetch, r)
    ensures r.Locked? ==> forall p :: Reachable(root, fetch, p) <==> p in calls
    ensures r.Locked? ==> forall p :: Reachable(root, fetch, p) ==> fetch(p).Some?
    ensures r.Locked? ==> forall u :: u in r.lock.versions ==> u in r.lock.aliases && Names(root, fetch, r.lock.aliases[u], u)
    ensures Ran(root, fetch, r, calls)
    ensures r.Locked? ==> Largest(root, fetch, r.lock.versions)
  {
    hide Pairs, Closed, Reachable, Meets, Requires, Needs, Key, KeysDiffer, Names, Maps, Aliased, Progress;
    hide Walking, Ran, RootNames, Adopt, SameMajor, Unreadable, Apart, IsRootAlias, Largest, Selects;
    calls := [];
    ghost var n := 0;
    var queue, aliases, rootAliases := RootRequirements(root);
    var versions: map<Url, Version>, seen: set<string> := map[], {};
    ghost var done: set<Pair> := {};
    Start(root, fetch);
    RootAliased(root, fetch, queue, aliases);
    WalkStarts(root, fetch);
    while queue != []
      invariant Progress(root, fetch, queue, done, versions) && done <= universe
      invariant forall p :: p in calls <==> p in done
      invariant Distinct(calls) && Remembers(seen, done)
      invariant Aliased(root, fetch, queue, versions, aliases)
      invariant Walking(root, fetch, calls, n, queue, aliases, versions)
      decreases universe - done, |queue|
    {
      var p := queue[0];
      var m := Merge(versions, p);
      InUniverse(root, fetch, universe, queue, done, versions);
      if m.Reject? {
        WhyRejected(root, fetch, queue, done, versions, m.why);
        WalkRejects(root, fetch, calls, n, queue, aliases, versions, m.why);
        return Failed(m.why), calls;
      }
      ghost var before := versions;
      versions := versions[p.url := m.version];
      if Key(p) in seen {
        SeenBefore(universe, seen, done, p);
        KnownFetched(root, fetch, queue, done, before, p);
        Advance(root, fetch, queue, done, before, m.version, []);
        StillAliased(root, fetch, queue, before, aliases, m.version, [], aliases);
        WalkSeen(root, fetch, calls, n, queue, aliases, before);
        assert queue[1..] + [] == queue[1..] && done + {p} == done;
        queue, n := queue[1..], n + 1;
        continue;
      }
      NotSeen(seen, done, p);
      seen := seen + {Key(p)};
      ghost var fetched := calls;
      calls := calls + [p];
      var manifest := fetch(p);
      if manifest.None? {
        WalkFails(root, fetch, fetched, n, queue, aliases, before, FetchFailed);
        return Failed(FetchFailed), calls;
      }
      var ok, rest, named := Enqueue(manifest.value, rootAliases, queue[1..], aliases);
      if !ok {
        WalkFails(root, fetch, fetched, n, queue, aliases, before, AliasConflict);
        return Failed(AliasConflict), calls;
      }
      Advance(root, fetch, queue, done, before, m.version, Pairs(manifest.value.deps));
      StillAliased(root, fetch, queue, before, aliases, m.version, Pairs(manifest.value.deps), named);
      WalkGoesOn(root, fetch, fetched, n, queue, aliases, before);
      queue, aliases, done, n := rest, named, done + {p}, n + 1;
    }
    Finished(root, fetch, done, versions);
    DoneAliased(root, fetch, versions, aliases);
    DoneFetched(root, fetch, done, versions);
    WalkEnds(root, fetch, calls, n, aliases, versions);
    r := Locked(Lock(versions, aliases));
    SelectsLargest(root, fetch, versions);
  }

  // The text keys of the fetched pairs.
  ghost predicate Remembers(seen: set<string>, done: set<Pair>) {
    (forall p :: p in done ==> Key(p) in seen) && forall k :: k in seen ==> exists p :: p in done && Key(p) == k
  }

  lemma InUniverse(root: Manifest, fetch: Fetcher, universe: set<Pair>, queue: seq<Pair>, done: set<Pair>, versions: map<Url, Version>)
    requires Closed(root, fetch, universe) && Progress(root, fetch, queue, done, versions) && queue != []
    ensures queue[0] in universe && Reachable(root, fetch, queue[0]) && forall p :: p in done ==> Reachable(root, fetch, p)
  {
    hide Closed, Reachable, Meets;
    ClosedHasReachable(root, fetch, universe, queue[0]);
  }

  lemma SeenBefore(universe: set<Pair>, seen: set<string>, done: set<Pair>, p: Pair)
    requires KeysDiffer(universe) && done <= universe && p in universe && Remembers(seen, done) && Key(p) in seen
    ensures p in done
  {
    hide Key;
    var q :| q in done && Key(q) == Key(p);
  }

  lemma NotSeen(seen: set<string>, done: set<Pair>, p: Pair)
    requires Remembers(seen, done) && Key(p) !in seen
    ensures p !in done && Remembers(seen + {Key(p)}, done + {p})
  {
    hide Key;
    forall k | k in seen + {Key(p)}
      ensures exists q :: q in done + {p} && Key(q) == k
    {
      if k == Key(p) {
        assert p in done + {p};
      } else {
        var q :| q in done && Key(q) == k;
        assert q in done + {p};
      }
    }
  }

  lemma KnownFetched(root: Manifest, fetch: Fetcher, queue: seq<Pair>, done: set<Pair>, versions: map<Url, Version>, p: Pair)
    requires Progress(root, fetch, queue, done, versions) && p in done
    ensures fetch(p).Some?
  {
    hide Reachable, Meets;
  }

  lemma DoneFetched(root: Manifest, fetch: Fetcher, done: set<Pair>, versions: map<Url, Version>)
    requires Progress(root, fetch, [], done, versions) && forall p :: Reachable(root, fetch, p) <==> p in done
    ensures forall p :: Reachable(root, fetch, p) ==> fetch(p).Some?
  {
    hide Reachable, Meets;
  }

  lemma RootAliased(root: Manifest, fetch: Fetcher, queue: seq<Pair>, aliases: map<Url, string>)
    requires forall u :: u in aliases ==> Maps(root, aliases[u], u)
    requires forall p :: p in queue ==> p.url in aliases
    ensures Aliased(root, fetch, queue, map[], aliases)
  {
    hide Maps, Reachable;
  }

  lemma StillAliased(root: Manifest, fetch: Fetcher, queue: seq<Pair>, versions: map<Url, Version>, aliases: map<Url, string>,
                     v: Version, more: seq<Pair>, named: map<Url, string>)
    requires Aliased(root, fetch, queue, versions, aliases) && queue != [] && Reachable(root, fetch, queue[0])
    requires forall u :: u in aliases ==> u in named && named[u] == aliases[u]
    requires forall u :: u in named ==> u in aliases || (fetch(queue[0]).Some? && Maps(fetch(queue[0]).value, named[u], u))
    requires forall p :: p in more ==> p.url in named
    ensures Aliased(root, fetch, queue[1..] + more, versions[queue[0].url := v], named)
  {
    hide Maps, Reachable;
    assert queue[0] in queue;
  }

  lemma DoneAliased(root: Manifest, fetch: Fetcher, versions: map<Url, Version>, aliases: map<Url, string>)
    requires Aliased(root, fetch, [], versions, aliases)
    ensures forall u :: u in versions ==> u in aliases && Names(root, fetch, aliases[u], u)
  {
  }

  // ---- what the contract of `Resolve` means ----

  // Every version that is required can be read, every fetch succeeds, and no package is
  // called like an alias of the root.
  ghost predicate WellBehaved(root: Manifest, fetch: Fetcher) {
    forall p {:trigger Reachable(root, fetch, p)} :: Reachable(root, fetch, p) ==>
      Parse(p.version).Some? && fetch(p).Some? && !IsRootAlias(root, fetch(p).value.name)
  }

  // Two requirements of one package are of different major lines.
  ghost predicate Conflict(root: Manifest, fetch: Fetcher) {
    exists u, v, w {:trigger Required(root, fetch, u, v), Required(root, fetch, u, w)} ::
      Required(root, fetch, u, v) && Required(root, fetch, u, w) && !SameMajor(v, w)
  }

  lemma SelectsOneMajor(root: Manifest, fetch: Fetcher, versions: map<Url, Version>)
    requires Selects(root, fetch, versions) && WellBehaved(root, fetch)
    ensures !Conflict(root, fetch)
  {
    hide Reachable;
    forall u, v, w | Required(root, fetch, u, v) && Required(root, fetch, u, w)
      ensures SameMajor(v, w)
    {
      assert Meets(versions[u], v) && Meets(versions[u], w);
      assert Parse(v).Some? && Parse(w).Some? by {
        assert Reachable(root, fetch, Pair(u, v)) && Reachable(root, fetch, Pair(u, w));
      }
    }
  }

  /** When the world is well behaved, resolution fails exactly if two reachable requirements
      of one package differ in their major version. */
  lemma FailsIffConflict(root: Manifest, fetch: Fetcher, r: Resolution)
    requires Answers(root, fetch, r) && WellBehaved(root, fetch)
    ensures r.Failed? <==> Conflict(root, fetch)
    ensures r.Failed? ==> r.why == MajorConflict
  {
    hide Reachable, Selects, SameMajor;
    if r.Locked? {
      SelectsOneMajor(root, fetch, r.lock.versions);
    } else if r.why.MajorConflict? {
      var p, q :| Reachable(root, fetch, p) && Reachable(root, fetch, q) && p.url == q.url && !SameMajor(p.version, q.version);
      assert Required(root, fetch, p.url, p.version) && Required(root, fetch, q.url, q.version);
    }
  }

  // The same tables, iterated in any order.
  ghost predicate SameRequirements(m: Manifest, n: Manifest) {
    forall p :: Requires(m, p) <==> Requires(n, p)
  }

  ghost predicate SameGraph(root: Manifest, fetch: Fetcher, root': Manifest, fetch': Fetcher) {
    && SameRequirements(root, root')
    && forall p :: fetch(p).Some? == fetch'(p).Some? && (fetch(p).Some? ==> SameRequirements(fetch(p).value, fetch'(p).value))
  }

  lemma SameGraphSym(root: Manifest, fetch: Fetcher, root': Manifest, fetch': Fetcher)
    requires SameGraph(root, fetch, root', fetch')
    ensures SameGraph(root', fetch', root, fetch)
  {
    hide Requires;
  }

  lemma {:induction false} SameChains(root: Manifest, fetch: Fetcher, root': Manifest, fetch': Fetcher, path: seq<Pair>)
    requires SameGraph(root, fetch, root', fetch') && Chain(root, fetch, path)
    ensures Chain(root', fetch', path)
    decreases |path|
  {
    hide Requires;
    if |path| > 1 {
      SameChains(root, fetch, root', fetch', path[..|path| - 1]);
    }
  }

  lemma SameReachable(root: Manifest, fetch: Fetcher, root': Manifest, fetch': Fetcher, p: Pair)
    requires SameGraph(root, fetch, root', fetch') && Reachable(root, fetch, p)
    ensures Reachable(root', fetch', p)
  {
    hide SameGraph;
    var path :| Chain(root, fetch, path) && path[|path| - 1] == p;
    SameChains(root, fetch, root', fetch', path);
  }

  /** Whatever the order in which dependency tables are iterated, two runs that lock lock the
      same packages at the same version numbers. */
  lemma OrderIndependent(root: Manifest, fetch: Fetcher, root': Manifest, fetch': Fetcher, a: map<Url, Version>, b: map<Url, Version>)
    requires SameGraph(root, fetch, root', fetch')
    requires Selects(root, fetch, a) && Selects(root', fetch', b)
    ensures a.Keys == b.Keys && forall u :: u in a ==> Equal(a[u], b[u])
  {
    hide Reachable, SameGraph, Meets;
    SameGraphSym(root, fetch, root', fetch');
    forall u | u in a
      ensures u in b && Meets(b[u], a[u])
    {
      SameReachable(root, fetch, root', fetch', Pair(u, a[u]));
      assert Required(root', fetch', u, a[u]);
    }
    forall u | u in b
      ensures u in a && Meets(a[u], b[u])
    {
      SameReachable(root', fetch', root, fetch, Pair(u, b[u]));
      assert Required(root, fetch, u, b[u]);
    }
    forall u | u in a
      ensures Equal(a[u], b[u])
    {
      MeetsBoth(a[u], b[u]);
    }
  }

  /** The requirements of every manifest that was fetched are met by what is locked. */
  lemma EveryManifestServed(root: Manifest, fetch: Fetcher, versions: map<Url, Version>, p: Pair, q: Pair)
    requires Selects(root, fetch, versions) && (Requires(root, q) || (Reachable(root, fetch, p) && Needs(fetch, p, q)))
    ensures q.url in versions && Meets(versions[q.url], q.version)
  {
    if Requires(root, q) {
      ReachRoot(root, fetch, q);
    } else {
      ReachNext(root, fetch, p, q);
    }
    assert Required(root, fetch, q.url, q.version);
  }

  // ---- the '@' in keys ----

  /** Requirements whose versions hold no '@' are remembered under keys of their own. */
  lemma PlainVersions(s: set<Pair>)
    requires forall p :: p in s ==> '@' !in p.version
    ensures KeysDiffer(s)
  {
    forall p, q | p in s && q in s && Key(p) == Key(q)
      ensures p == q
    {
      KeyInjective(p, q);
    }
  }

  ghost predicate IsWritten(w: Version) {
    exists v: Semver :: 0 <= v.major && 0 <= v.minor && 0 <= v.patch && w == Write(v)
  }

  /** So are those whose versions are written X.Y.Z. */
  lemma WrittenKeysDiffer(s: set<Pair>)
    requires forall p :: p in s ==> IsWritten(p.version)
    ensures KeysDiffer(s)
  {
    hide Write;
    forall p | p in s
      ensures '@' !in p.version
    {
      var v: Semver :| 0 <= v.major && 0 <= v.minor && 0 <= v.patch && p.version == Write(v);
      WrittenHasNoAt(v);
    }
    PlainVersions(s);
  }
}
