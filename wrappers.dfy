/** Optional values, the outcome of a call to an external service, and `find` by key. */
module Wrappers {

  /** A value that may be absent: JavaScript's `null`/`undefined` or a missing key. */
  datatype Option<+T> = None | Some(value: T) {
    /** `this ?? default` */
    function GetOr(default: T): T {
      match this
      case Some(v) => v
      case None => default
    }
  }

  /**
   * What an HTTP request to an outside service produced: a parsed body, or
   * anything that makes the caller take its `catch` path (a network error, a
   * status outside 200-299, a body that is not JSON).
   */
  datatype Response<+T> = Ok(body: T) | Fail

  /** `array.find(p)` as an index: the first element satisfying `p`. */
  function FindIndex<T>(xs: seq<T>, p: T -> bool): (r: Option<nat>)
    ensures r.Some? ==> r.value < |xs| && p(xs[r.value]) && forall j :: 0 <= j < r.value ==> !p(xs[j])
    ensures r.None? ==> forall j :: 0 <= j < |xs| ==> !p(xs[j])
  {
    if xs == [] then None
    else if p(xs[0]) then Some(0)
    else match FindIndex(xs[1..], p)
      case None => None
      case Some(i) => Some(i + 1)
  }

  /** `x` is the first entry of `xs` that satisfies `p`. */
  ghost predicate FirstWith<T>(xs: seq<T>, x: T, p: T -> bool) {
    exists i :: 0 <= i < |xs| && xs[i] == x && p(x) && forall j :: 0 <= j < i ==> !p(xs[j])
  }

  /** `xs.find(x => key(x) === c)`: the first entry whose key is `c`, if any. */
  function FindByKey<T, K(==)>(xs: seq<T>, key: T -> K, c: K): (r: Option<T>)
    ensures r.Some? <==> exists i :: 0 <= i < |xs| && key(xs[i]) == c
    ensures r.Some? ==> key(r.value) == c && r.value in xs
    ensures r.Some? ==> exists i :: 0 <= i < |xs| && xs[i] == r.value && forall j :: 0 <= j < i ==> key(xs[j]) != c
  {
    match FindIndex(xs, x => key(x) == c)
    case None => None
    case Some(i) => Some(xs[i])
  }
}
