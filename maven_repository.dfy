/** The `MavenRepository` record: a named place to look for artifacts, and the
    three well-known repositories. */
module MavenRepositories {
  import opened JavaLang

  /** A `java.net.URI`, kept as the text it was created from; `toString`
      gives that text back. */
  datatype Uri = Uri(text: string)

  datatype MavenRepository = MavenRepository(name: string, uri: Uri)

  /** The compact constructor: `name` and then `uri` must be non-null. */
  function NewMavenRepository(name: Nullable<string>, uri: Nullable<Uri>): (r: Result<MavenRepository>)
    ensures r.Ok? <==> name.NonNull? && uri.NonNull?
    ensures r.Ok? ==> r.value.name == name.value && r.value.uri == uri.value
    ensures name.Null? ==> r == Thrown(NullPointerException(NonNull("name should not be null")))
    ensures name.NonNull? && uri.Null? ==> r == Thrown(NullPointerException(NonNull("uri should not be null")))
  {
    var _ :- RequireNonNull(name, "name should not be null");
    var _ :- RequireNonNull(uri, "uri should not be null");
    Ok(MavenRepository(name.value, uri.value))
  }

  /** The primary repository of Java artifacts. */
  const MavenCentral := MavenRepository("central", Uri("https://repo1.maven.org/maven2/"))

  /** Builds and packages artifacts from git-hosted repositories. */
  const Jitpack := MavenRepository("jitpack", Uri("https://jitpack.io/"))

  /** The repository of the Clojure ecosystem. */
  const Clojars := MavenRepository("clojars", Uri("https://repo.clojars.org/"))

  /** Each constant is what the null-checking constructor yields for its name
      and URI, and the three names are pairwise distinct. */
  lemma WellKnownRepositories()
    ensures NewMavenRepository(NonNull("central"), NonNull(Uri("https://repo1.maven.org/maven2/"))) == Ok(MavenCentral)
    ensures NewMavenRepository(NonNull("jitpack"), NonNull(Uri("https://jitpack.io/"))) == Ok(Jitpack)
    ensures NewMavenRepository(NonNull("clojars"), NonNull(Uri("https://repo.clojars.org/"))) == Ok(Clojars)
    ensures MavenCentral.name != Jitpack.name && MavenCentral.name != Clojars.name && Jitpack.name != Clojars.name
  {
  }
}
