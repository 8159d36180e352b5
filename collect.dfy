/**
 * The loops both servers use to reshape a response: walk the items in order
 * and append one projected record per item, letting the first exception
 * escape. `MapAll` is that loop as a function; the lemmas say that a
 * successful run keeps the count and the order of the items and that a
 * failed run reports the first item that failed.
 */
module Collect {
  import opened Py

  /** The result of `out = []; for x in xs: out.append(f(x))`. */
  function MapAll<A, B>(f: A -> Result<B>, xs: seq<A>): Result<seq<B>>
    decreases |xs|
  {
    if xs == [] then Success([])
    else
      var init :- MapAll(f, xs[..|xs| - 1]);
      var last :- f(xs[|xs| - 1]);
      Success(init + [last])
  }

  /** Once a prefix of the items has failed, the whole loop fails the same way. */
  lemma {:induction false} PrefixFailure<A, B>(f: A -> Result<B>, xs: seq<A>, n: nat)
    requires n <= |xs| && MapAll(f, xs[..n]).Failure?
    ensures MapAll(f, xs) == MapAll(f, xs[..n])
    decreases |xs| - n
  {
    if n < |xs| {
      var init := xs[..|xs| - 1];
      assert init[..n] == xs[..n];
      PrefixFailure(f, init, n);
    } else {
      assert xs[..n] == xs;
    }
  }

  /** The loop succeeds exactly when every item projects, and then it keeps count and order. */
  lemma {:induction false} Pointwise<A, B>(f: A -> Result<B>, xs: seq<A>)
    ensures MapAll(f, xs).Success? <==> forall k :: 0 <= k < |xs| ==> f(xs[k]).Success?
    ensures MapAll(f, xs).Success? ==>
              |MapAll(f, xs).value| == |xs| &&
              forall k :: 0 <= k < |xs| ==> f(xs[k]) == Success(MapAll(f, xs).value[k])
    decreases |xs|
  {
    if xs != [] {
      var init := xs[..|xs| - 1];
      Pointwise(f, init);
      forall k | 0 <= k < |init| ensures init[k] == xs[k] { }
    }
  }

  /** A failed loop reports the error of the first item that failed. */
  lemma {:induction false} FirstFailure<A, B>(f: A -> Result<B>, xs: seq<A>)
    requires MapAll(f, xs).Failure?
    ensures exists k :: 0 <= k < |xs| && f(xs[k]) == Failure(MapAll(f, xs).error) &&
                        forall j :: 0 <= j < k ==> f(xs[j]).Success?
    decreases |xs|
  {
    var init := xs[..|xs| - 1];
    forall k | 0 <= k < |init| ensures init[k] == xs[k] { }
    if MapAll(f, init).Failure? {
      FirstFailure(f, init);
      var k :| 0 <= k < |init| && f(init[k]) == Failure(MapAll(f, init).error) &&
               forall j :: 0 <= j < k ==> f(init[j]).Success?;
      assert f(xs[k]) == Failure(MapAll(f, xs).error);
    } else {
      Pointwise(f, init);
      var k := |xs| - 1;
      assert f(xs[k]) == Failure(MapAll(f, xs).error);
    }
  }
}
