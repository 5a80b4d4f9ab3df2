# dependencytools: the configuration layer, in Dafny

`dev.mccue.dependencytools` lets a Java program describe the libraries it
needs and have them resolved into a classpath. Resolution, classpath building,
path joining and tree printing are done by the Clojure library
`clojure.tools.deps.alpha`. The Java code itself owns only the configuration
layer, and that layer is what this project models:

- `MavenDependency`, its nested `Coordinate`, and `MavenRepository` are
  immutable records. Their constructors reject null components and copy the
  exclusion list (`maven_dependency.dfy`, `maven_repository.dfy`).
- `DependencyResolver.Builder` collects dependencies, repositories and paths
  in three lists. It is a `class` whose `seq` fields each `add*` method
  appends to (`dependency_resolver.dfy`).
- The private constructor `DependencyResolver(Builder)` folds those lists
  into the two Clojure maps handed to the library. `deps` maps each
  coordinate to `{:mvn/version v}`, plus `:exclusions [...]` when there are
  exclusions. `repos` maps each repository name to `{:url uri}`. Both folds
  work by repeated `assoc`, so the last entry for a key wins. The paths are
  copied. `FromBuilder` models this constructor as a method with loops. It is
  proved against the fold functions `DepsOf` and `ReposOf`, and lemmas state
  what those folds contain.
- The serialization proxy. `writeReplace` turns a resolver into a
  `BasisProxy` whose paths are strings. The proxy's `readResolve` turns it
  back. The round trip is proved to give back an equal resolver.

Modelling decisions:

- The built resolver's fields are `final`, so it is a `datatype`. The builder
  mutates its lists, so it is a `class`.
- A Clojure persistent map is a Dafny `map`, and a persistent vector is a
  `seq`. The `deps` key `(symbol groupId artifactId)` is a `Coordinate`:
  symbols are equal exactly when namespace and name are, so this is the same
  key. The inner map `{:mvn/version v, :exclusions [...]}` is
  `DepEntry(version, exclusions: Option<seq<Coordinate>>)`, where `None` means
  the `:exclusions` key is absent. The inner `{:url u}` map is the string `u`.
- A null Java reference is `Nullable.Null`. A thrown exception is a
  `Result.Thrown` value carrying the exception and its message.
- `Path` and `URI` are kept as the text they were made from.
  `Path.of(p.toString())` is assumed to give back `p`.

## Model

| member | source | states |
|---|---|---|
| JavaLang.RequireNonNull | src/main/java/dev/mccue/dependencytools/MavenDependency.java:17-20 | returns the value when it is not null; otherwise throws a NullPointerException carrying the given message |
| JavaLang.CopyOf | src/main/java/dev/mccue/dependencytools/MavenDependency.java:19-21 | `List.copyOf` succeeds iff no element is null; the copy has the same length and the same elements at each index; a null element throws a NullPointerException without a message |
| JavaLang.CopyOfWrapped | src/main/java/dev/mccue/dependencytools/MavenDependency.java:19-21 | copying a list with no nulls gives back exactly its elements, in order |
| MavenDependencies.NewCoordinate | src/main/java/dev/mccue/dependencytools/MavenDependency.java:32-35 | a Coordinate is built iff groupId and artifactId are both non-null, and then holds them; otherwise the NullPointerException names groupId first, then artifactId |
| MavenDependencies.CoordinateEquality | src/main/java/dev/mccue/dependencytools/MavenDependency.java:28 | two coordinates are equal iff their groupIds and their artifactIds are equal |
| MavenDependencies.NewMavenDependency | src/main/java/dev/mccue/dependencytools/MavenDependency.java:16-22 | a dependency is built iff coordinate, version and the exclusion list are non-null and no exclusion is null; it then holds coordinate and version, and its exclusions are the given ones in order; each failure throws the NullPointerException of the first null, checked as coordinate, version, exclusions, elements |
| MavenDependencies.NewMavenDependencyOfComponents | src/main/java/dev/mccue/dependencytools/MavenDependency.java:16-22 | every dependency value is what the canonical constructor builds from its own coordinate, version and exclusions |
| MavenDependencies.NewMavenDependencyOf | src/main/java/dev/mccue/dependencytools/MavenDependency.java:24-26 | the three-argument constructor succeeds iff groupId, artifactId and version are non-null, giving `Coordinate(groupId, artifactId)`, that version and no exclusions; otherwise the NullPointerException names groupId, artifactId, then version |
| MavenRepositories.NewMavenRepository | src/main/java/dev/mccue/dependencytools/MavenRepository.java:15-18 | a repository is built iff name and uri are non-null, and then holds them; otherwise the NullPointerException names name first, then uri |
| MavenRepositories.WellKnownRepositories | src/main/java/dev/mccue/dependencytools/MavenRepository.java:23-41 | MAVEN_CENTRAL, JITPACK and CLOJARS are what the constructor yields for ("central", https://repo1.maven.org/maven2/), ("jitpack", https://jitpack.io/) and ("clojars", https://repo.clojars.org/); their names are pairwise distinct |
| Resolver.PathOf | src/main/java/dev/mccue/dependencytools/DependencyResolver.java:57 | `Path.of(s).toString()` is `s` |
| Resolver.DepsKeys | src/main/java/dev/mccue/dependencytools/DependencyResolver.java:62-83 | `deps` has exactly one key per distinct coordinate among the builder's dependencies |
| Resolver.DepsLastWins | src/main/java/dev/mccue/dependencytools/DependencyResolver.java:62-83 | the entry under a coordinate is the one of the last dependency with that coordinate: its version, an `:exclusions` vector iff its exclusions are non-empty, and that vector lists them in order with duplicates kept |
| Resolver.ReposKeys | src/main/java/dev/mccue/dependencytools/DependencyResolver.java:85-95 | `repos` has exactly one key per distinct repository name |
| Resolver.ReposLastWins | src/main/java/dev/mccue/dependencytools/DependencyResolver.java:85-95 | a name maps to the URI string of the last repository with that name |
| Resolver.WellKnownRepos | src/main/java/dev/mccue/dependencytools/DependencyResolver.java:85-95 | folding MAVEN_CENTRAL, JITPACK and CLOJARS gives three `repos` keys, each mapped to its repository's URI |
| Resolver.Builder.constructor | src/main/java/dev/mccue/dependencytools/DependencyResolver.java:220-224 | a new builder has three empty lists |
| Resolver.Builder.AddDependency | src/main/java/dev/mccue/dependencytools/DependencyResolver.java:226-229 | appends the dependency to the end of the dependency list and returns the same builder; the other two lists are unchanged |
| Resolver.Builder.AddDependencies | src/main/java/dev/mccue/dependencytools/DependencyResolver.java:231-234 | appends the given dependencies, in order, and returns the same builder; the other two lists are unchanged |
| Resolver.Builder.AddRepository | src/main/java/dev/mccue/dependencytools/DependencyResolver.java:236-239 | appends the repository and returns the same builder; the other two lists are unchanged |
| Resolver.Builder.AddRepositories | src/main/java/dev/mccue/dependencytools/DependencyResolver.java:241-244 | appends the given repositories, in order, and returns the same builder; the other two lists are unchanged |
| Resolver.Builder.AddPath | src/main/java/dev/mccue/dependencytools/DependencyResolver.java:246-249 | appends the path and returns the same builder; the other two lists are unchanged |
| Resolver.Builder.AddPaths | src/main/java/dev/mccue/dependencytools/DependencyResolver.java:251-254 | appends the given paths, in order, and returns the same builder; the other two lists are unchanged |
| Resolver.Builder.Build | src/main/java/dev/mccue/dependencytools/DependencyResolver.java:256-258 | the resolver's `deps` and `repos` are the folds of the builder's current lists and its paths are the builder's paths |
| Resolver.NewBuilder | src/main/java/dev/mccue/dependencytools/DependencyResolver.java:164-166 | a fresh builder with three empty lists |
| Resolver.UsingMavenCentral | src/main/java/dev/mccue/dependencytools/DependencyResolver.java:172-174 | a fresh builder whose repositories are exactly `[MAVEN_CENTRAL]` and whose dependencies and paths are empty |
| Resolver.EntryFor | src/main/java/dev/mccue/dependencytools/DependencyResolver.java:68-81 | the entry has the dependency's version, and an exclusions vector iff the dependency has exclusions, listing them in order |
| Resolver.FromBuilder | src/main/java/dev/mccue/dependencytools/DependencyResolver.java:61-100 | the two loops compute exactly the folds `DepsOf` and `ReposOf` of the builder's lists, and the paths are the builder's paths |
| Resolver.BuildThenAddPath | src/main/java/dev/mccue/dependencytools/DependencyResolver.java:97-99 | a resolver built before a path is added keeps the old path list; only the builder gains the path |
| Resolver.PathStrings | src/main/java/dev/mccue/dependencytools/DependencyResolver.java:44 | the string list has the same length as the path list and holds each path's text at the same index |
| Resolver.PathsOf | src/main/java/dev/mccue/dependencytools/DependencyResolver.java:56-58 | the path list has the same length as the string list and holds `Path.of` of each string at the same index |
| Resolver.PathsRoundTrip | src/main/java/dev/mccue/dependencytools/DependencyResolver.java:44-58 | turning paths into strings and back gives the same paths |
| Resolver.WriteReplace | src/main/java/dev/mccue/dependencytools/DependencyResolver.java:39-46 | the proxy carries the same `deps` and `repos` and each path's text at the same index |
| Resolver.ProxyReadResolve | src/main/java/dev/mccue/dependencytools/DependencyResolver.java:33-36 | the resolver carries the proxy's `deps` and `repos` and one path per string, in order |
| Resolver.ReadResolve | src/main/java/dev/mccue/dependencytools/DependencyResolver.java:48-51 | reading a resolver without its proxy always throws IllegalStateException |
| Resolver.Equals | src/main/java/dev/mccue/dependencytools/DependencyResolver.java:262-270 | `equals` is true iff the argument is a non-null resolver with the same `deps`, `repos` and `paths` |
| Resolver.SerializationRoundTrip | src/main/java/dev/mccue/dependencytools/DependencyResolver.java:33-59 | reading back the proxy that `writeReplace` produces gives a resolver equal to the original, by value and by `equals` |

## Left out

- `pathRoots`, `path`, `classPath`, `modulePath` and `printTree` are left out. They call `resolve-deps`, `make-classpath-map`, `join-classpath` and `print-tree` in `clojure.tools.deps.alpha`, which is not part of this model and does network and filesystem I/O. In the source, `classPath()` and `modulePath()` just return `path()`.
- The model does no transitive resolution, version-conflict policy, exclusion propagation or cycle detection. The delegated library does all of these; this code does none of them.
- The `Requires` static initializer is left out. It loads the Clojure runtime and looks up its functions.
- Java serialization machinery (`ObjectOutputStream`, `serialVersionUID`) is left out, and so is `hashCode`. Only the proxy encode and decode functions and `equals` are modelled.
- `Path` and `URI` parsing is left out. `URI.create` can throw on malformed text, and `Path.of` can normalise. Both are treated as keeping their text unchanged.
- Null arguments to the builder's `add*` methods are left out, and so are null elements in the lists they get. Dafny's types are non-null. In Java, `addDependency(null)` is accepted and the later `build()` throws a NullPointerException. A null list given to `addDependencies` throws at once.
- The builder's lists are not aliased with caller lists. `ArrayList.addAll` copies, and Dafny sequences are values, so the model can never share them.
- Reference identity (`this == o` in `equals`, and "returns the same builder") is modelled only as `self == this`. The identity shortcut in `equals` agrees with the field comparison.
