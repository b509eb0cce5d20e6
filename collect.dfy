/** Rust's `iter().map(f).collect::<Result<Vec<_>, _>>()`: converts every
    element in order and stops at the first element that fails, whose error
    becomes the error of the whole collection. */
module Collect {
  import opened SecurityErrors

  /** True when every element of `xs` converts successfully under `f`. */
  predicate AllOk<A, B>(xs: seq<A>, f: A -> Result<B>) {
    forall i :: 0 <= i < |xs| ==> f(xs[i]).Ok?
  }

  /** `i` is the index of the first element of `xs` that `f` rejects. */
  predicate FirstFailure<A, B>(xs: seq<A>, f: A -> Result<B>, i: int) {
    && 0 <= i < |xs|
    && f(xs[i]).Err?
    && forall j :: 0 <= j < i ==> f(xs[j]).Ok?
  }

  function CollectResults<A, B>(xs: seq<A>, f: A -> Result<B>): (r: Result<seq<B>>)
    ensures r.Ok? <==> AllOk(xs, f)
    ensures r.Ok? ==> |r.value| == |xs|
    ensures r.Ok? ==> forall i :: 0 <= i < |xs| ==> r.value[i] == f(xs[i]).value
    ensures r.Err? ==> exists i :: FirstFailure(xs, f, i) && r.error == f(xs[i]).error
  {
    if xs == [] then
      Ok([])
    else
      match f(xs[0])
      case Err(e) =>
        assert FirstFailure(xs, f, 0);
        Err(e)
      case Ok(y) =>
        match CollectResults(xs[1..], f)
        case Err(e) =>
          var i :| FirstFailure(xs[1..], f, i) && e == f(xs[1..][i]).error;
          assert FirstFailure(xs, f, i + 1);
          Err(e)
        case Ok(ys) =>
          assert forall i :: 0 < i < |xs| ==> xs[i] == xs[1..][i - 1];
          Ok([y] + ys)
  }

  /** The first failing element is unique, so the error `CollectResults`
      reports is exactly that element's error. */
  lemma FirstFailureUnique<A, B>(xs: seq<A>, f: A -> Result<B>, i: int, k: int)
    requires FirstFailure(xs, f, i) && FirstFailure(xs, f, k)
    ensures i == k
  {
  }

  lemma CollectReportsFirstFailure<A, B>(xs: seq<A>, f: A -> Result<B>, i: int)
    requires FirstFailure(xs, f, i)
    ensures CollectResults(xs, f) == Err(f(xs[i]).error)
  {
    var r := CollectResults(xs, f);
    assert !AllOk(xs, f);
    var k :| FirstFailure(xs, f, k) && r.error == f(xs[k]).error;
    FirstFailureUnique(xs, f, i, k);
  }

  /** Whenever some element fails there is a first one. */
  lemma {:induction false} SomeFailureHasFirst<A, B>(xs: seq<A>, f: A -> Result<B>, i: int)
    requires 0 <= i < |xs| && f(xs[i]).Err?
    ensures exists k :: FirstFailure(xs, f, k) && k <= i
  {
    if forall j :: 0 <= j < i ==> f(xs[j]).Ok? {
      assert FirstFailure(xs, f, i);
    } else {
      var j :| 0 <= j < i && f(xs[j]).Err?;
      SomeFailureHasFirst(xs, f, j);
    }
  }
}
