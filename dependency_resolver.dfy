/** The configuration layer of `DependencyResolver`: a builder that collects
    dependencies, repositories and paths, the fold of those lists into the
    `deps` and `repos` maps handed to the dependency library, and the
    serialization proxy that stores and restores a resolver. */
module Resolver {
  import opened JavaLang
  import opened MavenDependencies
  import opened MavenRepositories

  /** A `java.nio.file.Path`, kept as its text. */
  datatype Path = Path(text: string)

  /** `Path::toString`. */
  function PathToString(p: Path): string {
    p.text
  }

  /** `Path::of` on a single string; it inverts `PathToString`. */
  function PathOf(s: string): (p: Path)
    ensures PathToString(p) == s
  {
    Path(s)
  }

  /** The value stored under one coordinate of `deps`: the `:mvn/version`
      entry and, only when the dependency has exclusions, the `:exclusions`
      vector. */
  datatype DepEntry = DepEntry(version: string, exclusions: Option<seq<Coordinate>>)

  /** A built resolver: its three fields never change after construction. */
  datatype DependencyResolver = DependencyResolver(
    deps: map<Coordinate, DepEntry>,
    repos: map<string, string>,
    paths: seq<Path>)

  /** The serialized form of a resolver: paths travel as strings. */
  datatype BasisProxy = BasisProxy(
    deps: map<Coordinate, DepEntry>,
    repos: map<string, string>,
    paths: seq<string>)

  // ---------------------------------------------------------------------
  // Specification of the constructor from a builder

  /** The entry one dependency contributes to `deps`. */
  function EntryOf(d: MavenDependency): DepEntry {
    DepEntry(d.version, if d.exclusions == [] then None else Some(d.exclusions))
  }

  /** `deps` after folding `ds` from left to right, each step an `assoc` that
      overwrites any earlier entry for the same coordinate. */
  function DepsOf(ds: seq<MavenDependency>): map<Coordinate, DepEntry> {
    if ds == [] then map[]
    else DepsOf(ds[..|ds| - 1])[ds[|ds| - 1].coordinate := EntryOf(ds[|ds| - 1])]
  }

  /** `repos` after folding `rs` from left to right, name to URI text. */
  function ReposOf(rs: seq<MavenRepository>): map<string, string> {
    if rs == [] then map[]
    else ReposOf(rs[..|rs| - 1])[rs[|rs| - 1].name := rs[|rs| - 1].uri.text]
  }

  /** The distinct coordinates among `ds`. */
  function Coordinates(ds: seq<MavenDependency>): set<Coordinate> {
    set i | 0 <= i < |ds| :: ds[i].coordinate
  }

  /** The distinct repository names among `rs`. */
  function Names(rs: seq<MavenRepository>): set<string> {
    set i | 0 <= i < |rs| :: rs[i].name
  }

  /** `deps` has exactly one key per distinct coordinate of the dependencies. */
  lemma {:induction false} DepsKeys(ds: seq<MavenDependency>)
    ensures DepsOf(ds).Keys == Coordinates(ds)
  {
    if ds != [] {
      var init := ds[..|ds| - 1];
      DepsKeys(init);
      assert Coordinates(ds) == Coordinates(init) + {ds[|ds| - 1].coordinate} by {
        forall c | c in Coordinates(ds) ensures c in Coordinates(init) + {ds[|ds| - 1].coordinate} {
          var i :| 0 <= i < |ds| && ds[i].coordinate == c;
          if i < |ds| - 1 {
            assert init[i] == ds[i];
          }
        }
        forall c | c in Coordinates(init) ensures c in Coordinates(ds) {
          var i :| 0 <= i < |init| && init[i].coordinate == c;
          assert ds[i] == init[i];
        }
      }
    }
  }

  /** The entry under a coordinate comes from the LAST dependency with that
      coordinate: its version, and its exclusions in order exactly when it
      has any. */
  lemma {:induction false} DepsLastWins(ds: seq<MavenDependency>, j: nat)
    requires j < |ds|
    requires forall k :: j < k < |ds| ==> ds[k].coordinate != ds[j].coordinate
    ensures ds[j].coordinate in DepsOf(ds)
    ensures DepsOf(ds)[ds[j].coordinate] == EntryOf(ds[j])
    ensures DepsOf(ds)[ds[j].coordinate].version == ds[j].version
    ensures DepsOf(ds)[ds[j].coordinate].exclusions.Some? <==> ds[j].exclusions != []
    ensures DepsOf(ds)[ds[j].coordinate].exclusions.Some? ==>
              DepsOf(ds)[ds[j].coordinate].exclusions.value == ds[j].exclusions
  {
    if j < |ds| - 1 {
      var init := ds[..|ds| - 1];
      assert init[j] == ds[j];
      forall k | j < k < |init| ensures init[k].coordinate != init[j].coordinate {
        assert init[k] == ds[k];
      }
      DepsLastWins(init, j);
    }
  }

  /** `repos` has exactly one key per distinct repository name. */
  lemma {:induction false} ReposKeys(rs: seq<MavenRepository>)
    ensures ReposOf(rs).Keys == Names(rs)
  {
    if rs != [] {
      var init := rs[..|rs| - 1];
      ReposKeys(init);
      assert Names(rs) == Names(init) + {rs[|rs| - 1].name} by {
        forall n | n in Names(rs) ensures n in Names(init) + {rs[|rs| - 1].name} {
          var i :| 0 <= i < |rs| && rs[i].name == n;
          if i < |rs| - 1 {
            assert init[i] == rs[i];
          }
        }
        forall n | n in Names(init) ensures n in Names(rs) {
          var i :| 0 <= i < |init| && init[i].name == n;
          assert rs[i] == init[i];
        }
      }
    }
  }

  /** A name maps to the URI of the LAST repository with that name. */
  lemma {:induction false} ReposLastWins(rs: seq<MavenRepository>, j: nat)
    requires j < |rs|
    requires forall k :: j < k < |rs| ==> rs[k].name != rs[j].name
    ensures rs[j].name in ReposOf(rs)
    ensures ReposOf(rs)[rs[j].name] == rs[j].uri.text
  {
    if j < |rs| - 1 {
      var init := rs[..|rs| - 1];
      assert init[j] == rs[j];
      forall k | j < k < |init| ensures init[k].name != init[j].name {
        assert init[k] == rs[k];
      }
      ReposLastWins(init, j);
    }
  }

  /** Adding the three well-known repositories yields three `repos` keys,
      each mapped to its URI. */
  lemma {:induction false} WellKnownRepos()
    ensures |ReposOf([MavenCentral, Jitpack, Clojars])| == 3
    ensures ReposOf([MavenCentral, Jitpack, Clojars]) == map[
              "central" := "https://repo1.maven.org/maven2/",
              "jitpack" := "https://jitpack.io/",
              "clojars" := "https://repo.clojars.org/"]
  {
    var rs := [MavenCentral, Jitpack, Clojars];
    assert rs[..2] == [MavenCentral, Jitpack];
    assert rs[..2][..1] == [MavenCentral];
    assert rs[..2][..1][..0] == [];
    assert ReposOf([MavenCentral]) == map["central" := "https://repo1.maven.org/maven2/"];
    assert ReposOf([MavenCentral, Jitpack]) == ReposOf([MavenCentral])["jitpack" := "https://jitpack.io/"];
    assert ReposOf(rs) == ReposOf([MavenCentral, Jitpack])["clojars" := "https://repo.clojars.org/"];
  }

  // ---------------------------------------------------------------------
  // The builder and the constructor it calls

  /** `DependencyResolver.Builder`: three lists, each `add*` appending to one. */
  class Builder {
    var dependencies: seq<MavenDependency>
    var repositories: seq<MavenRepository>
    var paths: seq<Path>

    /** `new Builder()`: all three lists empty. */
    constructor ()
      ensures dependencies == [] && repositories == [] && paths == []
    {
      dependencies := [];
      repositories := [];
      paths := [];
    }

    method AddDependency(dependency: MavenDependency) returns (self: Builder)
      modifies this
      ensures self == this
      ensures dependencies == old(dependencies) + [dependency]
      ensures repositories == old(repositories) && paths == old(paths)
    {
      dependencies := dependencies + [dependency];
      self := this;
    }

    method AddDependencies(more: seq<MavenDependency>) returns (self: Builder)
      modifies this
      ensures self == this
      ensures dependencies == old(dependencies) + more
      ensures repositories == old(repositories) && paths == old(paths)
    {
      dependencies := dependencies + more;
      self := this;
    }

    method AddRepository(repository: MavenRepository) returns (self: Builder)
      modifies this
      ensures self == this
      ensures repositories == old(repositories) + [repository]
      ensures dependencies == old(dependencies) && paths == old(paths)
    {
      repositories := repositories + [repository];
      self := this;
    }

    method AddRepositories(more: seq<MavenRepository>) returns (self: Builder)
      modifies this
      ensures self == this
      ensures repositories == old(repositories) + more
      ensures dependencies == old(dependencies) && paths == old(paths)
    {
      repositories := repositories + more;
      self := this;
    }

    method AddPath(path: Path) returns (self: Builder)
      modifies this
      ensures self == this
      ensures paths == old(paths) + [path]
      ensures dependencies == old(dependencies) && repositories == old(repositories)
    {
      paths := paths + [path];
      self := this;
    }

    method AddPaths(more: seq<Path>) returns (self: Builder)
      modifies this
      ensures self == this
      ensures paths == old(paths) + more
      ensures dependencies == old(dependencies) && repositories == old(repositories)
    {
      paths := paths + more;
      self := this;
    }

    /** `build()`: a resolver made from the builder's current lists. The
        builder itself is left as it is. */
    method Build() returns (r: DependencyResolver)
      ensures r.deps == DepsOf(dependencies)
      ensures r.repos == ReposOf(repositories)
      ensures r.paths == paths
    {
      r := FromBuilder(this);
    }
  }

  /** `DependencyResolver.builder()`: a builder with nothing added. */
  method NewBuilder() returns (b: Builder)
    ensures fresh(b)
    ensures b.dependencies == [] && b.repositories == [] && b.paths == []
  {
    b := new Builder();
  }

  /** `DependencyResolver.usingMavenCentral()`: a fresh builder whose only
      repository is Maven Central. */
  method UsingMavenCentral() returns (b: Builder)
    ensures fresh(b)
    ensures b.repositories == [MavenCentral]
    ensures b.dependencies == [] && b.paths == []
  {
    b := new Builder();
    b := b.AddRepository(MavenCentral);
  }

  /** The `:exclusions` part of one dependency's entry: a vector built by
      `conj`-ing each exclusion in turn, present only when there is at least
      one exclusion. */
  method EntryFor(dependency: MavenDependency) returns (entry: DepEntry)
    ensures entry.version == dependency.version
    ensures entry.exclusions.Some? <==> dependency.exclusions != []
    ensures entry.exclusions.Some? ==> entry.exclusions.value == dependency.exclusions
  {
    entry := DepEntry(dependency.version, None);
    if dependency.exclusions != [] {
      var exclusions: seq<Coordinate> := [];
      for k := 0 to |dependency.exclusions|
        invariant exclusions == dependency.exclusions[..k]
      {
        exclusions := exclusions + [dependency.exclusions[k]];
      }
      entry := entry.(exclusions := Some(exclusions));
    }
  }

  /** The private constructor `DependencyResolver(Builder)`: fold the
      dependencies into `deps` and the repositories into `repos` (later
      entries overwrite earlier ones with the same key), and copy the paths. */
  method FromBuilder(builder: Builder) returns (r: DependencyResolver)
    ensures r.deps == DepsOf(builder.dependencies)
    ensures r.repos == ReposOf(builder.repositories)
    ensures r.paths == builder.paths
  {
    var ds := builder.dependencies;
    var deps: map<Coordinate, DepEntry> := map[];
    for i := 0 to |ds|
      invariant deps == DepsOf(ds[..i])
    {
      var entry := EntryFor(ds[i]);
      assert ds[..i + 1][..i] == ds[..i];
      deps := deps[ds[i].coordinate := entry];
    }
    assert ds[..|ds|] == ds;

    var rs := builder.repositories;
    var repos: map<string, string> := map[];
    for i := 0 to |rs|
      invariant repos == ReposOf(rs[..i])
    {
      assert rs[..i + 1][..i] == rs[..i];
      repos := repos[rs[i].name := rs[i].uri.text];
    }
    assert rs[..|rs|] == rs;

    r := DependencyResolver(deps, repos, builder.paths);
  }

  /** A built resolver keeps the paths it was built with: adding a path to the
      builder afterwards changes the builder only. */
  method BuildThenAddPath(builder: Builder, path: Path) returns (r: DependencyResolver)
    modifies builder
    ensures r.paths == old(builder.paths)
    ensures builder.paths == old(builder.paths) + [path]
  {
    r := builder.Build();
    var _ := builder.AddPath(path);
  }

  // ---------------------------------------------------------------------
  // Serialization proxy and equality

  /** `paths.stream().map(Path::toString).toList()`. */
  function PathStrings(ps: seq<Path>): (r: seq<string>)
    ensures |r| == |ps|
    ensures forall i :: 0 <= i < |ps| ==> r[i] == PathToString(ps[i])
  {
    if ps == [] then [] else [PathToString(ps[0])] + PathStrings(ps[1..])
  }

  /** `paths.stream().map(Path::of).toList()`. */
  function PathsOf(ss: seq<string>): (r: seq<Path>)
    ensures |r| == |ss|
    ensures forall i :: 0 <= i < |ss| ==> r[i] == PathOf(ss[i])
  {
    if ss == [] then [] else [PathOf(ss[0])] + PathsOf(ss[1..])
  }

  /** Turning paths into strings and back gives the same paths. */
  lemma PathsRoundTrip(ps: seq<Path>)
    ensures PathsOf(PathStrings(ps)) == ps
  {
    // Follows from the index-wise contracts of PathStrings and PathsOf.
  }

  /** `writeReplace`: the proxy that is serialized in place of a resolver. */
  function WriteReplace(r: DependencyResolver): (p: BasisProxy)
    ensures p.deps == r.deps && p.repos == r.repos
    ensures |p.paths| == |r.paths|
    ensures forall i :: 0 <= i < |r.paths| ==> p.paths[i] == r.paths[i].text
  {
    BasisProxy(r.deps, r.repos, PathStrings(r.paths))
  }

  /** The proxy's `readResolve`, through the constructor
      `DependencyResolver(BasisProxy)`. */
  function ProxyReadResolve(p: BasisProxy): (r: DependencyResolver)
    ensures r.deps == p.deps && r.repos == p.repos
    ensures |r.paths| == |p.paths|
    ensures forall i :: 0 <= i < |p.paths| ==> r.paths[i].text == p.paths[i]
  {
    DependencyResolver(p.deps, p.repos, PathsOf(p.paths))
  }

  /** `readResolve` on a resolver that was deserialized directly, without the
      proxy: that stream is invalid and the call throws. */
  function ReadResolve(r: DependencyResolver): (res: Result<DependencyResolver>)
    ensures res == Thrown(IllegalStateException)
  {
    Thrown(IllegalStateException)
  }

  /** What `equals` may be handed: null, a resolver, or an object of another
      class. */
  datatype JavaObject = ResolverObject(resolver: DependencyResolver) | OtherObject

  /** `equals`: false for null and for other classes, otherwise true exactly
      when `deps`, `repos` and `paths` are equal (the identity shortcut gives
      the same answer, since an object equals itself field by field). */
  function Equals(self: DependencyResolver, o: Nullable<JavaObject>): (eq: bool)
    ensures eq <==> o == NonNull(ResolverObject(self))
  {
    match o
    case Null => false
    case NonNull(OtherObject) => false
    case NonNull(ResolverObject(other)) =>
      self.deps == other.deps && self.repos == other.repos && self.paths == other.paths
  }

  /** Serializing through the proxy and reading it back yields a resolver
      equal to the original, field by field. */
  lemma SerializationRoundTrip(r: DependencyResolver)
    ensures ProxyReadResolve(WriteReplace(r)) == r
    ensures Equals(r, NonNull(ResolverObject(ProxyReadResolve(WriteReplace(r)))))
  {
    // Follows from the contracts of WriteReplace, ProxyReadResolve and Equals.
  }
}
