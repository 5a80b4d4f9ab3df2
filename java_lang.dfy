/** The few pieces of the Java platform the configuration layer leans on:
    null references, thrown exceptions, and an absent map entry. */
module JavaLang {

  /** A value that may be absent, as a key missing from a persistent map. */
  datatype Option<+T> = None | Some(value: T)

  /** A Java reference that may be null. */
  datatype Nullable<+T> = Null | NonNull(value: T)

  /** The exceptions the modelled code can throw. */
  datatype JavaException =
    | NullPointerException(message: Nullable<string>)
    | IllegalStateException

  /** Either a normal return or a thrown exception; usable with `:-`. */
  datatype Result<+T> = Ok(value: T) | Thrown(exception: JavaException) {
    predicate IsFailure() {
      Thrown?
    }

    function PropagateFailure<U>(): Result<U>
      requires Thrown?
    {
      Thrown(exception)
    }

    function Extract(): T
      requires Ok?
    {
      value
    }
  }

  /** `Objects.requireNonNull(x, message)`: returns `x`, or throws a
      NullPointerException carrying `message` when `x` is null. */
  function RequireNonNull<T>(x: Nullable<T>, message: string): (r: Result<T>)
    ensures r.Ok? <==> x.NonNull?
    ensures r.Ok? ==> r.value == x.value
    ensures r.Thrown? ==> r.exception == NullPointerException(NonNull(message))
  {
    match x
    case Null => Thrown(NullPointerException(NonNull(message)))
    case NonNull(v) => Ok(v)
  }

  /** True when no element of `xs` is null. */
  predicate NoNulls<T>(xs: seq<Nullable<T>>) {
    forall i :: 0 <= i < |xs| ==> xs[i].NonNull?
  }

  /** The elements of a list, none of which is null. */
  function Unwrapped<T>(xs: seq<Nullable<T>>): (r: seq<T>)
    requires NoNulls(xs)
    ensures |r| == |xs|
    ensures forall i :: 0 <= i < |xs| ==> r[i] == xs[i].value
  {
    if xs == [] then [] else [xs[0].value] + Unwrapped(xs[1..])
  }

  /** The same elements, seen as non-null references. */
  function Wrapped<T>(xs: seq<T>): (r: seq<Nullable<T>>)
    ensures |r| == |xs|
    ensures forall i :: 0 <= i < |xs| ==> r[i] == NonNull(xs[i])
  {
    if xs == [] then [] else [NonNull(xs[0])] + Wrapped(xs[1..])
  }

  /** `List.copyOf(xs)`: an unmodifiable copy holding the same elements in
      the same order (duplicates kept), or a NullPointerException without a
      message when some element is null. */
  function CopyOf<T>(xs: seq<Nullable<T>>): (r: Result<seq<T>>)
    ensures r.Ok? <==> NoNulls(xs)
    ensures r.Ok? ==> |r.value| == |xs| && forall i :: 0 <= i < |xs| ==> r.value[i] == xs[i].value
    ensures r.Thrown? ==> r.exception == NullPointerException(Null)
  {
    if NoNulls(xs) then Ok(Unwrapped(xs)) else Thrown(NullPointerException(Null))
  }

  /** Copying a list that holds no null gives back exactly its elements. */
  lemma {:induction false} CopyOfWrapped<T>(xs: seq<T>)
    ensures CopyOf(Wrapped(xs)) == Ok(xs)
  {
    var w := Wrapped(xs);
    assert NoNulls(w);
    assert Unwrapped(w) == xs;
  }
}
