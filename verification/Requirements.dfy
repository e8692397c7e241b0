/** The dependency graph of package manifests: what is required, under which names, and what a correct
    resolution of it is. */
module Requirements {
  import opened Wrappers
  import opened Semver

  type Url = string
  type Version = string

  datatype Dependency = Git(url: Url, version: Version) | Path(path: string)

  /** `deps` lists the dependency table in the order in which it happens to be iterated. */
  datatype Manifest = Manifest(name: string, deps: seq<(string, Dependency)>)

  /** One requirement: a package and its minimum version. */
  datatype Pair = Pair(url: Url, version: Version)

  // None stands for a fetch that fails.
  type Fetcher = Pair -> Option<Manifest>

  predicate Requires(m: Manifest, p: Pair) {
    exists i :: 0 <= i < |m.deps| && m.deps[i].1 == Git(p.url, p.version)
  }

  predicate Needs(fetch: Fetcher, p: Pair, q: Pair) {
    fetch(p).Some? && Requires(fetch(p).value, q)
  }

  /** A chain of requirements from the root manifest. */
  predicate Chain(root: Manifest, fetch: Fetcher, path: seq<Pair>)
    decreases |path|
  {
    path != [] &&
    if |path| == 1 then Requires(root, path[0])
    else Chain(root, fetch, path[..|path| - 1]) && Needs(fetch, path[|path| - 2], path[|path| - 1])
  }

  ghost predicate Reachable(root: Manifest, fetch: Fetcher, p: Pair) {
    exists path {:trigger Chain(root, fetch, path)} :: Chain(root, fetch, path) && path[|path| - 1] == p
  }

  lemma ReachRoot(root: Manifest, fetch: Fetcher, p: Pair)
    requires Requires(root, p)
    ensures Reachable(root, fetch, p)
  {
    assert Chain(root, fetch, [p]);
  }

  lemma ReachNext(root: Manifest, fetch: Fetcher, p: Pair, q: Pair)
    requires Reachable(root, fetch, p) && Needs(fetch, p, q)
    ensures Reachable(root, fetch, q)
  {
    var path :| Chain(root, fetch, path) && path[|path| - 1] == p;
    var more := path + [q];
    assert more[..|path|] == path;
    assert Chain(root, fetch, more);
  }

  // The set contains the root's requirements and those of its members.
  ghost predicate Closed(root: Manifest, fetch: Fetcher, s: set<Pair>) {
    && (forall p :: Requires(root, p) ==> p in s)
    && (forall p, q :: p in s && Needs(fetch, p, q) ==> q in s)
  }

  lemma {:induction false} ClosedHasChain(root: Manifest, fetch: Fetcher, s: set<Pair>, path: seq<Pair>)
    requires Closed(root, fetch, s) && Chain(root, fetch, path)
    ensures path[|path| - 1] in s
    decreases |path|
  {
    if |path| > 1 {
      ClosedHasChain(root, fetch, s, path[..|path| - 1]);
    }
  }

  lemma ClosedHasReachable(root: Manifest, fetch: Fetcher, s: set<Pair>, p: Pair)
    requires Closed(root, fetch, s) && Reachable(root, fetch, p)
    ensures p in s
  {
    var path :| Chain(root, fetch, path) && path[|path| - 1] == p;
    ClosedHasChain(root, fetch, s, path);
  }

  // ---- versions ----

  // Both are versions of one major line.
  predicate SameMajor(v: Version, w: Version) {
    Parse(v).Some? && Parse(w).Some? && Parse(v).value.major == Parse(w).value.major
  }

  /** Version `v` satisfies the minimum `w`: the same text, or the same major line and not smaller. */
  predicate Meets(v: Version, w: Version) {
    v == w || (SameMajor(v, w) && !Greater(Parse(w).value, Parse(v).value))
  }

  /** Both can be read, and the first is the later one, number by number. */
  predicate Above(v: Version, w: Version) {
    Parse(v).Some? && Parse(w).Some? &&
    var a, b := Parse(v).value, Parse(w).value;
    a.major > b.major || (a.major == b.major && (a.minor > b.minor || (a.minor == b.minor && a.patch > b.patch)))
  }

  /** What meeting a minimum says in numbers. */
  lemma MeetsIff(v: Version, w: Version)
    ensures Meets(v, w) <==> v == w || (Parse(v).Some? && Parse(w).Some? && Parse(v).value.major == Parse(w).value.major && !Above(w, v))
  {
  }

  lemma MeetsTrans(u: Version, v: Version, w: Version)
    requires Meets(u, v) && Meets(v, w)
    ensures Meets(u, w)
  {
  }

  /** The versions are the same number. */
  predicate Equal(v: Version, w: Version) {
    v == w || (Parse(v).Some? && Parse(v) == Parse(w))
  }

  lemma MeetsBoth(v: Version, w: Version)
    requires Meets(v, w) && Meets(w, v)
    ensures Equal(v, w)
  {
  }

  // ---- keys ----

  /** The text under which a fetched pair is remembered. */
  function Key(p: Pair): string {
    p.url + "@" + p.version
  }

  /** Two pairs share a key only if the one with the shorter URL has an '@' in its version. */
  lemma KeyShared(p: Pair, q: Pair)
    requires Key(p) == Key(q) && |p.url| < |q.url|
    ensures '@' in p.version
  {
    var k := Key(p);
    assert k[|q.url|] == '@' && k[|q.url|] == p.version[|q.url| - |p.url| - 1];
  }

  /** Pairs whose versions have no '@' have keys of their own. */
  lemma KeyInjective(p: Pair, q: Pair)
    requires '@' !in p.version && '@' !in q.version
    ensures Key(p) == Key(q) <==> p == q
  {
    if Key(p) == Key(q) && |p.url| == |q.url| {
      var k := Key(p);
      assert p.url == k[..|p.url|] && q.url == k[..|q.url|];
      assert p.version == k[|p.url| + 1..] && q.version == k[|q.url| + 1..];
    } else if Key(p) == Key(q) {
      KeyShared(if |p.url| < |q.url| then p else q, if |p.url| < |q.url| then q else p);
    }
  }

  ghost predicate KeysDiffer(s: set<Pair>) {
    forall p, q {:trigger Key(p), Key(q)} :: p in s && q in s && Key(p) == Key(q) ==> p == q
  }

  // ---- results ----

  datatype Failure = BadVersion | MajorConflict | FetchFailed | AliasConflict

  // The locked version of each URL, and its alias.
  datatype Lock = Lock(versions: map<Url, Version>, aliases: map<Url, string>)

  datatype Resolution = Locked(lock: Lock) | Failed(why: Failure)

  ghost predicate Required(root: Manifest, fetch: Fetcher, url: Url, v: Version) {
    Reachable(root, fetch, Pair(url, v))
  }

  /** The locked URLs are the reachable ones, and each has one of its own requirements that
      meets them all. */
  ghost predicate Selects(root: Manifest, fetch: Fetcher, versions: map<Url, Version>) {
    && (forall u :: u in versions ==> Required(root, fetch, u, versions[u]))
    && (forall u, w {:trigger Required(root, fetch, u, w)} ::
          Required(root, fetch, u, w) ==> u in versions && Meets(versions[u], w))
  }

  /** Each reachable package is locked at one of its requirements. All others of it are the same text,
      or of the same major number and not above. */
  ghost predicate Largest(root: Manifest, fetch: Fetcher, versions: map<Url, Version>) {
    && (forall u :: u in versions ==> Required(root, fetch, u, versions[u]))
    && (forall u, w {:trigger Required(root, fetch, u, w)} ::
          Required(root, fetch, u, w) ==>
          u in versions &&
          var v := versions[u];
          v == w || (Parse(v).Some? && Parse(w).Some? && Parse(v).value.major == Parse(w).value.major && !Above(w, v)))
  }

  lemma SelectsLargest(root: Manifest, fetch: Fetcher, versions: map<Url, Version>)
    ensures Selects(root, fetch, versions) <==> Largest(root, fetch, versions)
  {
    hide Meets, Parse, Above, Required;
    forall u, w | Required(root, fetch, u, w) && u in versions
      ensures var v := versions[u];
              Meets(v, w) <==> v == w || (Parse(v).Some? && Parse(w).Some? && Parse(v).value.major == Parse(w).value.major && !Above(w, v))
    {
      MeetsIff(versions[u], w);
    }
  }

  predicate Maps(m: Manifest, alias: string, url: Url) {
    exists i :: 0 <= i < |m.deps| && m.deps[i].0 == alias && m.deps[i].1.Git? && m.deps[i].1.url == url
  }

  // The root requires the URL under this alias, or a reachable package does.
  ghost predicate Names(root: Manifest, fetch: Fetcher, alias: string, url: Url) {
    || Maps(root, alias, url)
    || exists p :: Reachable(root, fetch, p) && fetch(p).Some? && Maps(fetch(p).value, alias, url)
  }

  /** Why a resolution may fail. */
  ghost predicate Justified(root: Manifest, fetch: Fetcher, why: Failure) {
    match why
    case BadVersion => exists p :: Reachable(root, fetch, p) && Parse(p.version).None?
    case MajorConflict =>
      exists p, q :: Reachable(root, fetch, p) && Reachable(root, fetch, q) && p.url == q.url
                     && Parse(p.version).Some? && Parse(q.version).Some? && !SameMajor(p.version, q.version)
    case FetchFailed => exists p :: Reachable(root, fetch, p) && fetch(p).None?
    case AliasConflict => exists p :: Reachable(root, fetch, p) && fetch(p).Some? && IsRootAlias(root, fetch(p).value.name)
  }

  ghost predicate IsRootAlias(root: Manifest, alias: string) {
    exists url :: Maps(root, alias, url)
  }
}
