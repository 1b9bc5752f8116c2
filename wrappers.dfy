/** Optional values (Python's `None` versus a present value) and results
    that are either a value or an error. */
module Wrappers {
  datatype Option<+T> = None | Some(value: T) {
    function GetOr(default: T): T {
      match this
      case Some(v) => v
      case None => default
    }
  }

  datatype Result<+T, +E> = Ok(value: T) | Err(error: E)

  /** The first present result of `f` over `xs`, in order: a chain of
      tries where the first that succeeds decides. */
  function FirstSome<A, B>(xs: seq<A>, f: A -> Option<B>): (r: Option<B>)
    ensures r.None? <==> forall i :: 0 <= i < |xs| ==> f(xs[i]).None?
    ensures r.Some? ==> exists i :: 0 <= i < |xs| && r == f(xs[i]) && forall j :: 0 <= j < i ==> f(xs[j]).None?
  {
    if xs == [] then None
    else if f(xs[0]).Some? then f(xs[0])
    else
      var r := FirstSome(xs[1..], f);
      assert forall i :: 1 <= i < |xs| ==> xs[i] == xs[1..][i - 1];
      r
  }

  /** The present results of `f` over `xs`, in order. */
  function Somes<A, B>(xs: seq<A>, f: A -> Option<B>): (r: seq<B>)
    ensures |r| <= |xs|
    ensures forall y :: y in r ==> exists a :: a in xs && f(a) == Some(y)
  {
    if xs == [] then []
    else
      var rest := Somes(xs[..|xs| - 1], f);
      var v := f(xs[|xs| - 1]);
      assert forall a :: a in xs[..|xs| - 1] ==> a in xs;
      rest + (if v.Some? then [v.value] else [])
  }
}
