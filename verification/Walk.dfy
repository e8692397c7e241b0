/** The order of a resolution: what is queued, fetched and named, one after the other, and what can
    go wrong on the way. */
module Walk {
  import opened Wrappers
  import opened Semver
  import opened Requirements

  // ---- one manifest ----

  /** The git requirements of a dependency table, in its order. */
  function Pairs(deps: seq<(string, Dependency)>): seq<Pair> {
    if deps == [] then []
    else
      var front, d := Pairs(deps[..|deps| - 1]), deps[|deps| - 1].1;
      if d.Git? then front + [Pair(d.url, d.version)] else front
  }

  lemma {:induction false} PairsRequires(name: string, deps: seq<(string, Dependency)>, p: Pair)
    ensures p in Pairs(deps) <==> Requires(Manifest(name, deps), p)
    decreases |deps|
  {
    if deps != [] {
      var n := |deps| - 1;
      PairsRequires(name, deps[..n], p);
      if Requires(Manifest(name, deps), p) {
        var i :| 0 <= i < |deps| && deps[i].1 == Git(p.url, p.version);
        assert i < n ==> deps[..n][i] == deps[i];
      }
      if Requires(Manifest(name, deps[..n]), p) {
        var i :| 0 <= i < n && deps[..n][i].1 == Git(p.url, p.version);
        assert deps[i].1 == Git(p.url, p.version);
      }
      assert deps[n].1 == Git(p.url, p.version) ==> Requires(Manifest(name, deps), p);
    }
  }

  lemma ManifestPairs(m: Manifest)
    ensures forall p :: p in Pairs(m.deps) <==> Requires(m, p)
  {
    forall p
      ensures p in Pairs(m.deps) <==> Requires(m, p)
    {
      PairsRequires(m.name, m.deps, p);
    }
  }

  // What a fetch adds to the queue: nothing, if it fails.
  function DepsOf(fetch: Fetcher, p: Pair): seq<(string, Dependency)> {
    if fetch(p).Some? then fetch(p).value.deps else []
  }

  lemma NothingNeeded(fetch: Fetcher, p: Pair)
    requires fetch(p).None?
    ensures Pairs(DepsOf(fetch, p)) == []
  {
  }

  /** All requirements that are queued: the root's, and those of each fetched manifest. */
  function Pushes(root: Manifest, fetch: Fetcher, calls: seq<Pair>): seq<Pair>
    decreases |calls|
  {
    if calls == [] then Pairs(root.deps)
    else Pushes(root, fetch, calls[..|calls| - 1]) + Pairs(DepsOf(fetch, calls[|calls| - 1]))
  }

  /** Each requirement once, where it comes first. */
  function Firsts(s: seq<Pair>): seq<Pair>
    decreases |s|
  {
    if s == [] then []
    else
      var front, last := Firsts(s[..|s| - 1]), s[|s| - 1];
      if last in front then front else front + [last]
  }

  // ---- aliases ----

  /** The root's aliases; of two for one URL the later one counts. */
  function RootNames(deps: seq<(string, Dependency)>): map<Url, string>
    decreases |deps|
  {
    if deps == [] then map[]
    else
      var front, (alias, d) := RootNames(deps[..|deps| - 1]), deps[|deps| - 1];
      if d.Git? then front[d.url := alias] else front
  }

  /** A fetched manifest names the URLs that have no alias yet; of two for one URL the first counts. */
  function Adopt(deps: seq<(string, Dependency)>, aliases: map<Url, string>): map<Url, string>
    decreases |deps|
  {
    if deps == [] then aliases
    else
      var front, (alias, d) := Adopt(deps[..|deps| - 1], aliases), deps[|deps| - 1];
      if d.Git? && d.url !in front then front[d.url := alias] else front
  }

  function NamesAfter(root: Manifest, fetch: Fetcher, calls: seq<Pair>): map<Url, string>
    decreases |calls|
  {
    if calls == [] then RootNames(root.deps)
    else Adopt(DepsOf(fetch, calls[|calls| - 1]), NamesAfter(root, fetch, calls[..|calls| - 1]))
  }

  predicate MentionsUrl(deps: seq<(string, Dependency)>, u: Url) {
    exists p :: p in Pairs(deps) && p.url == u
  }

  // ---- what can go wrong ----

  /** The manifest is called like an alias of the root, and requires a URL that has no alias yet. */
  ghost predicate Clash(root: Manifest, fetch: Fetcher, calls: seq<Pair>, k: nat) {
    && k < |calls| && fetch(calls[k]).Some? && IsRootAlias(root, fetch(calls[k]).value.name)
    && exists u :: MentionsUrl(fetch(calls[k]).value.deps, u) && u !in NamesAfter(root, fetch, calls[..k])
  }

  // Two requirements of one package, of which one cannot be read, or that differ in their major version.
  predicate Unreadable(p: Pair, q: Pair) {
    p.url == q.url && (Parse(p.version).None? || Parse(q.version).None?)
  }

  predicate Apart(p: Pair, q: Pair) {
    p.url == q.url && Parse(p.version).Some? && Parse(q.version).Some? && !SameMajor(p.version, q.version)
  }

  /** Something in a walk that makes the resolution fail. */
  ghost predicate Event(root: Manifest, fetch: Fetcher, calls: seq<Pair>, why: Failure) {
    var s := Pushes(root, fetch, calls);
    match why
    case BadVersion => exists i, j :: 0 <= i < j < |s| && Unreadable(s[i], s[j])
    case MajorConflict => exists i, j :: 0 <= i < j < |s| && Apart(s[i], s[j])
    case FetchFailed => exists p :: p in calls && fetch(p).None?
    case AliasConflict => exists k: nat :: Clash(root, fetch, calls, k)
  }

  // ---- walks ----

  // The next fetch is of the first requirement in the queue that was not fetched yet.
  ghost predicate StepAt(root: Manifest, fetch: Fetcher, calls: seq<Pair>, k: nat)
    requires k < |calls|
  {
    exists n: nat :: n <= |Pushes(root, fetch, calls[..k])| && calls[..k + 1] == Firsts(Pushes(root, fetch, calls[..k])[..n])
  }

  ghost predicate Walked(root: Manifest, fetch: Fetcher, calls: seq<Pair>) {
    forall k: nat :: k < |calls| ==> StepAt(root, fetch, calls, k)
  }

  /** A walk that came to its end. */
  ghost predicate Order(root: Manifest, fetch: Fetcher, calls: seq<Pair>) {
    Walked(root, fetch, calls) && calls == Firsts(Pushes(root, fetch, calls))
  }

  /** The requirement is above all earlier ones of its package, and no later one is above it. */
  ghost predicate FirstLargest(s: seq<Pair>, i: nat)
    requires i < |s|
  {
    && (forall j :: 0 <= j < i && s[j].url == s[i].url ==> Above(s[i].version, s[j].version))
    && (forall j :: i < j < |s| && s[j].url == s[i].url ==> !Above(s[j].version, s[i].version))
  }

  /** The packages required, each at the first of its largest versions. */
  ghost predicate Chosen(s: seq<Pair>, versions: map<Url, Version>) {
    && (forall i :: 0 <= i < |s| ==> s[i].url in versions)
    && (forall u :: u in versions ==> exists i: nat :: i < |s| && s[i] == Pair(u, versions[u]) && FirstLargest(s, i))
  }

  /** What a resolution with these fetches may answer: it locks at the end of a walk without an
      event, and it fails where there was one. */
  ghost predicate Ran(root: Manifest, fetch: Fetcher, r: Resolution, calls: seq<Pair>) {
    Walked(root, fetch, calls) &&
    match r
    case Locked(lock) =>
      && Order(root, fetch, calls) && (forall why :: !Event(root, fetch, calls, why))
      && lock.aliases == NamesAfter(root, fetch, calls) && Chosen(Pushes(root, fetch, calls), lock.versions)
    case Failed(why) => Event(root, fetch, calls, why)
  }

  // ---- walks grow ----

  lemma PushesNext(root: Manifest, fetch: Fetcher, calls: seq<Pair>, p: Pair)
    ensures Pushes(root, fetch, calls + [p]) == Pushes(root, fetch, calls) + Pairs(DepsOf(fetch, p))
    ensures NamesAfter(root, fetch, calls + [p]) == Adopt(DepsOf(fetch, p), NamesAfter(root, fetch, calls))
  {
    assert (calls + [p])[..|calls|] == calls;
  }

  lemma FirstsNext(s: seq<Pair>, p: Pair)
    ensures Firsts(s + [p]) == if p in Firsts(s) then Firsts(s) else Firsts(s) + [p]
  {
    assert (s + [p])[..|s|] == s;
  }

  lemma {:induction false} FirstsHas(s: seq<Pair>, p: Pair)
    ensures p in Firsts(s) <==> p in s
    decreases |s|
  {
    if s != [] {
      FirstsHas(s[..|s| - 1], p);
      assert s == s[..|s| - 1] + [s[|s| - 1]];
    }
  }

  lemma {:induction false} FirstsPrefix(s: seq<Pair>, t: seq<Pair>)
    requires s <= t
    ensures Firsts(s) <= Firsts(t)
    decreases |t|
  {
    if |s| < |t| {
      FirstsPrefix(s, t[..|t| - 1]);
    } else {
      assert s == t;
    }
  }

  lemma {:induction false} PushesPrefix(root: Manifest, fetch: Fetcher, a: seq<Pair>, b: seq<Pair>)
    requires a <= b
    ensures Pushes(root, fetch, a) <= Pushes(root, fetch, b)
    decreases |b|
  {
    hide Pairs;
    if |a| < |b| {
      PushesPrefix(root, fetch, a, b[..|b| - 1]);
    } else {
      assert a == b;
    }
  }

  lemma NothingWalked(root: Manifest, fetch: Fetcher)
    ensures Walked(root, fetch, [])
  {
  }

  lemma WalkedNext(root: Manifest, fetch: Fetcher, calls: seq<Pair>, p: Pair, n: nat)
    requires Walked(root, fetch, calls) && n <= |Pushes(root, fetch, calls)| && calls + [p] == Firsts(Pushes(root, fetch, calls)[..n])
    ensures Walked(root, fetch, calls + [p])
  {
    hide Pushes, Firsts;
    var more := calls + [p];
    forall k: nat | k < |more|
      ensures StepAt(root, fetch, more, k)
    {
      if k < |calls| {
        assert StepAt(root, fetch, calls, k);
        assert more[..k] == calls[..k] && more[..k + 1] == calls[..k + 1];
      } else {
        assert more[..k] == calls && more[..k + 1] == more;
      }
    }
  }

  // ---- the state of the worklist ----

  /** The versions kept for the requirements that were merged so far, none of which differ. */
  ghost predicate Fits(s: seq<Pair>, versions: map<Url, Version>) {
    && (forall i, j :: 0 <= i < j < |s| && s[i].url == s[j].url ==> SameMajor(s[i].version, s[j].version))
    && Chosen(s, versions)
  }

  // The version that is kept of the one so far and a new requirement.
  function Better(versions: map<Url, Version>, p: Pair): Version {
    if p.url in versions && !Above(p.version, versions[p.url]) then versions[p.url] else p.version
  }

  lemma AboveTrans(u: Version, v: Version, w: Version)
    ensures Above(u, v) && Above(v, w) ==> Above(u, w)
  {
    hide Parse;
  }

  lemma FitsNext(s: seq<Pair>, versions: map<Url, Version>, p: Pair)
    requires Fits(s, versions) && (p.url in versions ==> SameMajor(versions[p.url], p.version))
    ensures Fits(s + [p], versions[p.url := Better(versions, p)])
  {
    hide Parse, Above, FirstLargest;
    var t, after := s + [p], versions[p.url := Better(versions, p)];
    forall i | 0 <= i < |s| && s[i].url == p.url
      ensures SameMajor(s[i].version, p.version)
    {
      var j: nat :| j < |s| && s[j] == Pair(p.url, versions[p.url]) && FirstLargest(s, j);
    }
    forall u | u in after
      ensures exists i: nat :: i < |t| && t[i] == Pair(u, after[u]) && FirstLargest(t, i)
    {
      if u == p.url {
        BestNext(s, versions, p);
      } else {
        var i: nat :| i < |s| && s[i] == Pair(u, versions[u]) && FirstLargest(s, i);
        OtherNext(s, p, i);
      }
    }
  }

  lemma OtherNext(s: seq<Pair>, p: Pair, i: nat)
    requires i < |s| && FirstLargest(s, i) && (s[i].url == p.url ==> !Above(p.version, s[i].version))
    ensures FirstLargest(s + [p], i) && (s + [p])[i] == s[i]
  {
    hide Above;
  }

  lemma BestNext(s: seq<Pair>, versions: map<Url, Version>, p: Pair)
    requires Fits(s, versions) && (p.url in versions ==> SameMajor(versions[p.url], p.version))
    ensures var t := s + [p];
            exists i: nat :: i < |t| && t[i] == Pair(p.url, Better(versions, p)) && FirstLargest(t, i)
  {
    hide Above, SameMajor, FirstLargest;
    var t := s + [p];
    if p.url in versions {
      var i: nat :| i < |s| && s[i] == Pair(p.url, versions[p.url]) && FirstLargest(s, i);
      if Above(p.version, versions[p.url]) {
        forall j | 0 <= j < |s| && s[j].url == p.url
          ensures Above(p.version, s[j].version)
        {
          AboveEarlier(s, i, j, p.version);
        }
        LastLargest(s, p);
      } else {
        OtherNext(s, p, i);
      }
    } else {
      LastLargest(s, p);
    }
  }

  lemma LastLargest(s: seq<Pair>, p: Pair)
    requires forall j :: 0 <= j < |s| && s[j].url == p.url ==> Above(p.version, s[j].version)
    ensures var t := s + [p];
            t[|s|] == p && FirstLargest(t, |s|)
  {
    hide Above;
  }

  lemma AboveEarlier(s: seq<Pair>, i: nat, j: nat, u: Version)
    requires i < |s| && j < |s| && s[i].url == s[j].url && FirstLargest(s, i) && Above(u, s[i].version)
    requires forall k, l :: 0 <= k < l < |s| && s[k].url == s[l].url ==> SameMajor(s[k].version, s[l].version)
    ensures Above(u, s[j].version)
  {
    hide Above, SameMajor;
    AboveTrans(u, s[i].version, s[j].version);
    if i < j {
      AboveMore(u, s[i].version, s[j].version);
    }
  }

  // Above one that is not below another.
  lemma AboveMore(u: Version, v: Version, w: Version)
    requires Above(u, v) && !Above(w, v) && (w == v || SameMajor(v, w))
    ensures Above(u, w)
  {
    hide Parse;
  }

  /** `calls` were fetched, and the first `n` of the requirements merged; the others are queued. */
  ghost predicate Walking(root: Manifest, fetch: Fetcher, calls: seq<Pair>, n: nat, queue: seq<Pair>,
                          aliases: map<Url, string>, versions: map<Url, Version>) {
    var s := Pushes(root, fetch, calls);
    && Walked(root, fetch, calls)
    && n <= |s| && queue == s[n..] && calls == Firsts(s[..n]) && Fits(s[..n], versions)
    && aliases == NamesAfter(root, fetch, calls)
    && (forall p :: p in calls ==> fetch(p).Some?)
    && (forall k: nat :: !Clash(root, fetch, calls, k))
  }

  lemma WalkStarts(root: Manifest, fetch: Fetcher)
    ensures Walking(root, fetch, [], 0, Pairs(root.deps), RootNames(root.deps), map[])
  {
    hide Pairs, RootNames, Parse;
  }

  /** A requirement that is rejected is an event. */
  lemma WalkRejects(root: Manifest, fetch: Fetcher, calls: seq<Pair>, n: nat, queue: seq<Pair>,
                    aliases: map<Url, string>, versions: map<Url, Version>, why: Failure)
    requires Walking(root, fetch, calls, n, queue, aliases, versions) && queue != [] && queue[0].url in versions
    requires var p, q := Pair(queue[0].url, versions[queue[0].url]), queue[0];
             (why.BadVersion? && Unreadable(p, q)) || (why.MajorConflict? && Apart(p, q))
    ensures Ran(root, fetch, Failed(why), calls)
  {
    hide Pushes, NamesAfter, Clash, Walked, Parse, Firsts;
    var s := Pushes(root, fetch, calls);
    var i: nat :| i < |s[..n]| && s[..n][i] == Pair(queue[0].url, versions[queue[0].url]) && FirstLargest(s[..n], i);
    assert s[i] == s[..n][i] && s[n] == queue[0];
  }

  /** The first requirement of the queue was fetched before. */
  lemma WalkSeen(root: Manifest, fetch: Fetcher, calls: seq<Pair>, n: nat, queue: seq<Pair>,
                 aliases: map<Url, string>, versions: map<Url, Version>)
    requires Walking(root, fetch, calls, n, queue, aliases, versions) && queue != [] && queue[0] in calls
    requires queue[0].url in versions ==> SameMajor(versions[queue[0].url], queue[0].version)
    ensures Walking(root, fetch, calls, n + 1, queue[1..], aliases, versions[queue[0].url := Better(versions, queue[0])])
  {
    hide Pushes, NamesAfter, Clash, Walked, Fits, SameMajor, Firsts, Better;
    var s := Pushes(root, fetch, calls);
    assert s[..n + 1] == s[..n] + [queue[0]];
    FirstsNext(s[..n], queue[0]);
    FitsNext(s[..n], versions, queue[0]);
  }

  lemma WalkFetches(root: Manifest, fetch: Fetcher, calls: seq<Pair>, n: nat, queue: seq<Pair>,
                    aliases: map<Url, string>, versions: map<Url, Version>)
    requires Walking(root, fetch, calls, n, queue, aliases, versions) && queue != [] && queue[0] !in calls
    ensures Walked(root, fetch, calls + [queue[0]])
    ensures calls + [queue[0]] == Firsts(Pushes(root, fetch, calls)[..n + 1])
  {
    hide Pushes, NamesAfter, Clash, Walked, Fits, Firsts;
    var s := Pushes(root, fetch, calls);
    assert s[..n + 1] == s[..n] + [queue[0]];
    FirstsNext(s[..n], queue[0]);
    WalkedNext(root, fetch, calls, queue[0], n + 1);
  }

  /** The fetch of the first requirement fails, or its manifest may not name a URL. */
  lemma WalkFails(root: Manifest, fetch: Fetcher, calls: seq<Pair>, n: nat, queue: seq<Pair>,
                  aliases: map<Url, string>, versions: map<Url, Version>, why: Failure)
    requires Walking(root, fetch, calls, n, queue, aliases, versions) && queue != [] && queue[0] !in calls
    requires var m := fetch(queue[0]);
             || (why.FetchFailed? && m.None?)
             || (why.AliasConflict? && m.Some? && IsRootAlias(root, m.value.name)
                 && exists p :: p in Pairs(m.value.deps) && p.url !in aliases)
    ensures Ran(root, fetch, Failed(why), calls + [queue[0]])
  {
    hide Pushes, NamesAfter, Walked, Fits, Firsts, IsRootAlias, Pairs;
    var more := calls + [queue[0]];
    WalkFetches(root, fetch, calls, n, queue, aliases, versions);
    assert more[|calls|] == queue[0] && more[..|calls|] == calls;
    if why.AliasConflict? {
      var p :| p in Pairs(fetch(queue[0]).value.deps) && p.url !in aliases;
      assert MentionsUrl(fetch(queue[0]).value.deps, p.url);
      assert Clash(root, fetch, more, |calls|);
    }
  }

  lemma NoClashNext(root: Manifest, fetch: Fetcher, calls: seq<Pair>, p: Pair)
    requires forall k: nat :: !Clash(root, fetch, calls, k)
    requires var m := fetch(p);
             m.Some? && (!IsRootAlias(root, m.value.name) || forall q :: q in Pairs(m.value.deps) ==> q.url in NamesAfter(root, fetch, calls))
    ensures forall k: nat :: !Clash(root, fetch, calls + [p], k)
  {
    hide NamesAfter, IsRootAlias, Pairs;
    var more := calls + [p];
    forall k: nat
      ensures !Clash(root, fetch, more, k)
    {
      if k < |calls| {
        assert !Clash(root, fetch, calls, k);
        assert more[k] == calls[k] && more[..k] == calls[..k];
      } else if k == |calls| {
        assert more[k] == p && more[..k] == calls;
      }
    }
  }

  /** The first requirement of the queue is fetched. */
  lemma WalkGoesOn(root: Manifest, fetch: Fetcher, calls: seq<Pair>, n: nat, queue: seq<Pair>,
                   aliases: map<Url, string>, versions: map<Url, Version>)
    requires Walking(root, fetch, calls, n, queue, aliases, versions) && queue != [] && queue[0] !in calls
    requires queue[0].url in versions ==> SameMajor(versions[queue[0].url], queue[0].version)
    requires var m := fetch(queue[0]);
             m.Some? && (!IsRootAlias(root, m.value.name) || forall q :: q in Pairs(m.value.deps) ==> q.url in aliases)
    ensures var deps := fetch(queue[0]).value.deps;
            Walking(root, fetch, calls + [queue[0]], n + 1, queue[1..] + Pairs(deps), Adopt(deps, aliases), versions[queue[0].url := Better(versions, queue[0])])
  {
    hide Better, Pushes, NamesAfter, Clash, Walked, Fits, SameMajor, Firsts, Pairs, Adopt, IsRootAlias;
    var s, more := Pushes(root, fetch, calls), calls + [queue[0]];
    WalkFetches(root, fetch, calls, n, queue, aliases, versions);
    PushesNext(root, fetch, calls, queue[0]);
    NoClashNext(root, fetch, calls, queue[0]);
    var t := Pushes(root, fetch, more);
    assert t[..n + 1] == s[..n + 1] && t[n + 1..] == queue[1..] + Pairs(fetch(queue[0]).value.deps);
    assert s[..n + 1] == s[..n] + [queue[0]];
    FitsNext(s[..n], versions, queue[0]);
  }

  lemma WalkEnds(root: Manifest, fetch: Fetcher, calls: seq<Pair>, n: nat, aliases: map<Url, string>, versions: map<Url, Version>)
    requires Walking(root, fetch, calls, n, [], aliases, versions)
    ensures Ran(root, fetch, Locked(Lock(versions, aliases)), calls)
  {
    hide Pushes, NamesAfter, Clash, Walked, Firsts, Parse;
    var s := Pushes(root, fetch, calls);
    assert s[..n] == s;
  }
}
