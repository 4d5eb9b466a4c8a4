/** The few JavaScript value conventions the data-access layer relies on:
    nullish values and `??`, values that may or may not be arrays, and the
    array methods `map` and `join`. */
module JsValues {

  /** A value that may be missing. In raw GraphQL input `Null` stands for both
      `null` and `undefined` (the two are alike for `??` and `?.`); in the
      normalised records it is `null`. */
  datatype Nullable<+T> = Null | Val(value: T) {

    /** `this ?? fallback` for a non-nullable fallback. */
    function Or(fallback: T): T {
      match this
      case Val(v) => v
      case Null => fallback
    }

    /** `this ?? other` where the other side may itself be nullish. */
    function OrElse(other: Nullable<T>): Nullable<T> {
      match this
      case Val(_) => this
      case Null => other
    }
  }

  /** The result of `Array.isArray(x)` together with the elements when it holds:
      `NotArray` covers `null`, `undefined` and every non-array value. */
  datatype MaybeArray<+T> = NotArray | JsArray(items: seq<T>)

  /** `xs.map(f)`: same length, same order, element i is `f(xs[i])`. */
  function MapSeq<A, B>(xs: seq<A>, f: A -> B): (ys: seq<B>)
    ensures |ys| == |xs|
    ensures forall i :: 0 <= i < |xs| ==> ys[i] == f(xs[i])
  {
    if xs == [] then [] else [f(xs[0])] + MapSeq(xs[1..], f)
  }

  /** `parts.join(sep)`. */
  function Join(parts: seq<string>, sep: string): string
  {
    if |parts| == 0 then ""
    else if |parts| == 1 then parts[0]
    else parts[0] + sep + Join(parts[1..], sep)
  }

  lemma JoinPair(a: string, b: string, sep: string)
    ensures Join([a], sep) == a
    ensures Join([a, b], sep) == a + sep + b
  {
    assert [a, b][1..] == [b];
  }
}
