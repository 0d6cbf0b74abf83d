/** The shape of the per-organization loop, independent of what one step
    builds: elements are skipped or built in order, and the first failure
    ends the run with nothing returned. */
module Batch {
  import opened Wrappers

  /** Runs `step` over `xs` in order: `None` skips an element, a failure
      ends the run with its error, and the built values are collected in
      order. */
  function Collect<R, P, E>(xs: seq<R>, step: R -> Option<Result<P, E>>): (r: Result<seq<P>, E>)
    ensures r.Success? ==> |r.value| <= |xs|
  {
    if |xs| == 0 then Success([])
    else
      match step(xs[0])
      case None => Collect(xs[1..], step)
      case Some(Failure(e)) => Failure(e)
      case Some(Success(p)) =>
        match Collect(xs[1..], step)
        case Failure(e) => Failure(e)
        case Success(ps) => Success([p] + ps)
  }

  /** The run gets past `x`: skipped, or built. */
  predicate Passes<R, P, E>(x: R, step: R -> Option<Result<P, E>>) {
    step(x).None? || step(x).value.Success?
  }

  /** The elements the run does not skip, in order. */
  function Kept<R, P, E>(xs: seq<R>, step: R -> Option<Result<P, E>>): (ks: seq<R>)
    ensures |ks| <= |xs|
    ensures forall i :: 0 <= i < |ks| ==> step(ks[i]).Some?
  {
    if |xs| == 0 then []
    else (if step(xs[0]).Some? then [xs[0]] else []) + Kept(xs[1..], step)
  }

  lemma {:induction false} CollectSucceedsIff<R, P, E>(xs: seq<R>, step: R -> Option<Result<P, E>>)
    ensures Collect(xs, step).Success? <==> forall i :: 0 <= i < |xs| ==> Passes(xs[i], step)
  {
    if |xs| > 0 {
      CollectSucceedsIff(xs[1..], step);
      assert forall i :: 1 <= i < |xs| ==> xs[i] == xs[1..][i - 1];
    }
  }

  /** A successful run has one value per kept element, in order. */
  lemma {:induction false} CollectCount<R, P, E>(xs: seq<R>, step: R -> Option<Result<P, E>>)
    requires Collect(xs, step).Success?
    ensures |Collect(xs, step).value| == |Kept(xs, step)|
  {
    if |xs| > 0 {
      CollectCount(xs[1..], step);
    }
  }

  /** The value at position `i` of a successful run is what `step` built
      from the `i`-th kept element. */
  lemma {:induction false} CollectAt<R, P, E>(xs: seq<R>, step: R -> Option<Result<P, E>>, i: nat)
    requires Collect(xs, step).Success? && i < |Kept(xs, step)|
    ensures |Collect(xs, step).value| == |Kept(xs, step)|
    ensures step(Kept(xs, step)[i]).value.Success?
    ensures step(Kept(xs, step)[i]).value.value == Collect(xs, step).value[i]
  {
    CollectCount(xs, step);
    var r := Collect(xs, step);
    var rest := Collect(xs[1..], step);
    if step(xs[0]).None? {
      assert r == rest;
      assert Kept(xs, step) == Kept(xs[1..], step);
      CollectAt(xs[1..], step, i);
    } else {
      var p := step(xs[0]).value.value;
      assert rest.Success? && r.value == [p] + rest.value;
      assert Kept(xs, step) == [xs[0]] + Kept(xs[1..], step);
      if i > 0 {
        CollectAt(xs[1..], step, i - 1);
        assert Kept(xs, step)[i] == Kept(xs[1..], step)[i - 1];
        assert r.value[i] == rest.value[i - 1];
      }
    }
  }

  /** Element `i` is the first the run does not get past, and it fails
      with `e`. */
  ghost predicate FirstFailure<R, P, E>(xs: seq<R>, i: int, e: E, step: R -> Option<Result<P, E>>) {
    && 0 <= i < |xs|
    && step(xs[i]).Some? && step(xs[i]).value.Failure? && step(xs[i]).value.error == e
    && forall j :: 0 <= j < i ==> Passes(xs[j], step)
  }

  /** A failed run reports the error of the first element that fails. */
  lemma {:induction false} CollectFirstFailure<R, P, E>(xs: seq<R>, step: R -> Option<Result<P, E>>)
    requires Collect(xs, step).Failure?
    ensures exists i :: FirstFailure(xs, i, Collect(xs, step).error, step)
  {
    var e := Collect(xs, step).error;
    if step(xs[0]).Some? && step(xs[0]).value.Failure? {
      assert FirstFailure(xs, 0, e, step);
    } else {
      CollectFirstFailure(xs[1..], step);
      var i :| FirstFailure(xs[1..], i, e, step);
      assert xs[i + 1] == xs[1..][i];
      assert forall j :: 1 <= j < i + 1 ==> xs[j] == xs[1..][j - 1];
      assert FirstFailure(xs, i + 1, e, step);
    }
  }
}
