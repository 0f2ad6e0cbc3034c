/** The optional value returned by lookups that can come back `undefined`,
    and JavaScript's `Array.prototype.find`. */
module Wrappers {
  datatype Option<+T> = None | Some(value: T) {
    /** `x ?? default`, and `x || default` when every present value is truthy */
    function GetOr(default: T): (r: T)
      ensures Some? ==> r == value
      ensures None? ==> r == default
    {
      match this
      case Some(v) => v
      case None => default
    }
  }

  /** `xs.find(p)`, as the index of the first element that satisfies `p` */
  function FindIndex<T>(xs: seq<T>, p: T -> bool): (r: Option<nat>)
    ensures r.Some? ==> r.value < |xs| && p(xs[r.value])
    ensures r.Some? ==> forall j :: 0 <= j < r.value ==> !p(xs[j])
    ensures r.None? <==> forall j :: 0 <= j < |xs| ==> !p(xs[j])
    decreases |xs|
  {
    if xs == [] then None
    else if p(xs[0]) then Some(0)
    else match FindIndex(xs[1..], p)
      case Some(k) => Some(k + 1)
      case None => None
  }
}
