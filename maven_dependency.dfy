/** The `MavenDependency` record and its nested `Coordinate` record: immutable
    values whose constructors only reject null components and copy the
    exclusion list. */
module MavenDependencies {
  import opened JavaLang

  /** A library's identity: group and artifact, compared component-wise. */
  datatype Coordinate = Coordinate(groupId: string, artifactId: string)

  /** A requested library version and the coordinates to exclude below it. */
  datatype MavenDependency = MavenDependency(
    coordinate: Coordinate,
    version: string,
    exclusions: seq<Coordinate>)

  /** The compact constructor of `Coordinate`: both components must be non-null,
      and `groupId` is checked first. */
  function NewCoordinate(groupId: Nullable<string>, artifactId: Nullable<string>): (r: Result<Coordinate>)
    ensures r.Ok? <==> groupId.NonNull? && artifactId.NonNull?
    ensures r.Ok? ==> r.value.groupId == groupId.value && r.value.artifactId == artifactId.value
    ensures groupId.Null? ==> r == Thrown(NullPointerException(NonNull("groupId should not be null")))
    ensures groupId.NonNull? && artifactId.Null? ==>
              r == Thrown(NullPointerException(NonNull("artifactId should not be null")))
  {
    var _ :- RequireNonNull(groupId, "groupId should not be null");
    var _ :- RequireNonNull(artifactId, "artifactId should not be null");
    Ok(Coordinate(groupId.value, artifactId.value))
  }

  /** Coordinates are equal exactly when both components are. */
  lemma CoordinateEquality(a: Coordinate, b: Coordinate)
    ensures a == b <==> a.groupId == b.groupId && a.artifactId == b.artifactId
  {
  }

  /** The canonical constructor: `coordinate`, `version` and `exclusions` are
      checked for null in that order, then the exclusions are copied with
      `List.copyOf`, which also rejects a null element. The copy keeps the
      order and the duplicates of the caller's list; being a value, it can
      never share the caller's list. */
  function NewMavenDependency(
    coordinate: Nullable<Coordinate>,
    version: Nullable<string>,
    exclusions: Nullable<seq<Nullable<Coordinate>>>): (r: Result<MavenDependency>)
    ensures r.Ok? <==> coordinate.NonNull? && version.NonNull? && exclusions.NonNull? && NoNulls(exclusions.value)
    ensures r.Ok? ==> r.value.coordinate == coordinate.value && r.value.version == version.value
    ensures r.Ok? ==> |r.value.exclusions| == |exclusions.value|
    ensures r.Ok? ==> forall i :: 0 <= i < |exclusions.value| ==> r.value.exclusions[i] == exclusions.value[i].value
    ensures coordinate.Null? ==> r == Thrown(NullPointerException(NonNull("coordinate should not be null")))
    ensures coordinate.NonNull? && version.Null? ==>
              r == Thrown(NullPointerException(NonNull("version should not be null")))
    ensures coordinate.NonNull? && version.NonNull? && exclusions.Null? ==>
              r == Thrown(NullPointerException(NonNull("exclusions should not be null")))
    ensures coordinate.NonNull? && version.NonNull? && exclusions.NonNull? && !NoNulls(exclusions.value) ==>
              r == Thrown(NullPointerException(Null))
  {
    var c :- RequireNonNull(coordinate, "coordinate should not be null");
    var v :- RequireNonNull(version, "version should not be null");
    var given :- RequireNonNull(exclusions, "exclusions should not be null");
    var copied :- CopyOf(given);
    Ok(MavenDependency(c, v, copied))
  }

  /** Every record value is what the canonical constructor builds from its
      own components. */
  lemma {:induction false} NewMavenDependencyOfComponents(d: MavenDependency)
    ensures NewMavenDependency(NonNull(d.coordinate), NonNull(d.version), NonNull(Wrapped(d.exclusions))) == Ok(d)
  {
    var r := NewMavenDependency(NonNull(d.coordinate), NonNull(d.version), NonNull(Wrapped(d.exclusions)));
    assert NoNulls(Wrapped(d.exclusions));
    assert r.value.exclusions == d.exclusions;
  }

  /** The three-argument constructor `MavenDependency(groupId, artifactId,
      version)`: the coordinate is built first (so its null checks come
      first), and the exclusions are empty. */
  function NewMavenDependencyOf(groupId: Nullable<string>, artifactId: Nullable<string>, version: Nullable<string>)
    : (r: Result<MavenDependency>)
    ensures r.Ok? <==> groupId.NonNull? && artifactId.NonNull? && version.NonNull?
    ensures r.Ok? ==> r.value == MavenDependency(Coordinate(groupId.value, artifactId.value), version.value, [])
    ensures groupId.Null? ==> r == Thrown(NullPointerException(NonNull("groupId should not be null")))
    ensures groupId.NonNull? && artifactId.Null? ==>
              r == Thrown(NullPointerException(NonNull("artifactId should not be null")))
    ensures groupId.NonNull? && artifactId.NonNull? && version.Null? ==>
              r == Thrown(NullPointerException(NonNull("version should not be null")))
  {
    var c :- NewCoordinate(groupId, artifactId);
    NewMavenDependency(NonNull(c), version, NonNull([]))
  }
}
