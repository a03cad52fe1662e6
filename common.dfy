/**
 * Small building blocks shared by the model: optional values (a TypeScript
 * `field?: T` that is either present or `undefined`), results (a value or a
 * thrown error), and `MapSeq`, the model of `Array.prototype.map`, which the
 * typed-tree constructors use for every child array.
 */
module Common {

  /** A TypeScript optional field: `Some(v)` when set, `None` for `undefined`. */
  datatype Option<+T> = None | Some(value: T)

  /** The outcome of a function that either returns a value or throws. */
  datatype Result<+T, +E> = Ok(value: T) | Failure(error: E)

  /**
   * `xs.map(f)`: a new array of the same length whose i-th element is
   * `f` applied to the i-th element of `xs`, in order.
   */
  function MapSeq<A, B>(f: A -> B, xs: seq<A>): (r: seq<B>)
    ensures |r| == |xs|
    ensures forall i :: 0 <= i < |xs| ==> r[i] == f(xs[i])
  {
    if xs == [] then [] else [f(xs[0])] + MapSeq(f, xs[1..])
  }

  /** Mapping with `f` and then with a left inverse `g` of `f` gives back the array. */
  lemma MapSeqInverse<A, B>(f: A -> B, g: B -> A, xs: seq<A>)
    requires forall i :: 0 <= i < |xs| ==> g(f(xs[i])) == xs[i]
    ensures MapSeq(g, MapSeq(f, xs)) == xs
  {
  }
}
