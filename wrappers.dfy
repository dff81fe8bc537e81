/** Optional values and results that carry an error message. */
module Wrappers {
  datatype Option<T> = None | Some(value: T)

  /** A value, or the message of the exception raised instead. */
  datatype Result<T> = Success(value: T) | Failure(error: string) {
    predicate IsFailure() { Failure? }

    function PropagateFailure<U>(): Result<U>
      requires Failure?
    {
      Failure(error)
    }

    function Extract(): T
      requires Success?
    {
      value
    }
  }

  /** `xs` followed by the items of `r`, or `r`'s error. */
  function Prepend<T>(xs: seq<T>, r: Result<seq<T>>): Result<seq<T>> {
    if r.Success? then Success(xs + r.value) else r
  }

  lemma PrependNil<T>(r: Result<seq<T>>)
    ensures Prepend([], r) == r
  {
    if r.Success? {
      assert [] + r.value == r.value;
    }
  }

  lemma PrependAssoc<T>(a: seq<T>, b: seq<T>, r: Result<seq<T>>)
    ensures Prepend(a, Prepend(b, r)) == Prepend(a + b, r)
  {
    if r.Success? {
      assert a + (b + r.value) == (a + b) + r.value;
    }
  }

  /** `f` applied to each element in order; the first failure is the outcome. */
  function MapResult<A, B>(xs: seq<A>, f: A -> Result<B>): Result<seq<B>>
    decreases |xs|
  {
    if |xs| == 0 then Success([])
    else
      var init :- MapResult(xs[..|xs| - 1], f);
      var y :- f(xs[|xs| - 1]);
      Success(init + [y])
  }

  /** `MapResult` succeeds exactly when every element does, with one result per element, in order. */
  lemma {:induction false} MapResultShape<A, B>(xs: seq<A>, f: A -> Result<B>)
    ensures MapResult(xs, f).Success? <==> forall i :: 0 <= i < |xs| ==> f(xs[i]).Success?
    ensures MapResult(xs, f).Success? ==>
      |MapResult(xs, f).value| == |xs| && forall i :: 0 <= i < |xs| ==> MapResult(xs, f).value[i] == f(xs[i]).value
    decreases |xs|
  {
    if |xs| > 0 {
      var init := xs[..|xs| - 1];
      MapResultShape(init, f);
      assert forall i :: 0 <= i < |init| ==> init[i] == xs[i];
    }
  }

  /** One more element that succeeds extends the results. */
  lemma MapResultSnoc<A, B>(xs: seq<A>, f: A -> Result<B>, i: nat, ys: seq<B>)
    requires i < |xs| && MapResult(xs[..i], f) == Success(ys) && f(xs[i]).Success?
    ensures MapResult(xs[..i + 1], f) == Success(ys + [f(xs[i]).value])
  {
    assert xs[..i + 1][..i] == xs[..i];
  }

  /** Once a prefix fails, its error is the outcome of the whole sequence. */
  lemma {:induction false} MapResultFails<A, B>(xs: seq<A>, f: A -> Result<B>, k: nat)
    requires k <= |xs| && MapResult(xs[..k], f).Failure?
    ensures MapResult(xs, f) == MapResult(xs[..k], f)
    decreases |xs| - k
  {
    if k < |xs| {
      assert xs[..k + 1][..k] == xs[..k];
      MapResultFails(xs, f, k + 1);
    } else {
      assert xs[..k] == xs;
    }
  }

  /** The loop `for x in xs: ys.append(f(x))`, where `f` may raise. */
  method MapAll<A, B>(xs: seq<A>, f: A -> Result<B>) returns (r: Result<seq<B>>)
    ensures r == MapResult(xs, f)
  {
    var ys: seq<B> := [];
    var i := 0;
    while i < |xs|
      invariant 0 <= i <= |xs|
      invariant MapResult(xs[..i], f) == Success(ys)
    {
      var y := f(xs[i]);
      if y.Failure? {
        assert xs[..i + 1][..i] == xs[..i];
        MapResultFails(xs, f, i + 1);
        return Failure(y.error);
      }
      MapResultSnoc(xs, f, i, ys);
      ys := ys + [y.value];
      i := i + 1;
    }
    assert xs[..|xs|] == xs;
    return Success(ys);
  }
  /** `[y for x in xs if (y := f(x)) is not None]`: the values `f` keeps, in order. */
  function FilterMap<A, B>(xs: seq<A>, f: A -> Option<B>): seq<B>
    decreases |xs|
  {
    if |xs| == 0 then []
    else
      var last := f(xs[|xs| - 1]);
      FilterMap(xs[..|xs| - 1], f) + (if last.Some? then [last.value] else [])
  }

  /** At most one value per element, and every value kept comes from some element. */
  lemma {:induction false} FilterMapFrom<A, B>(xs: seq<A>, f: A -> Option<B>)
    ensures |FilterMap(xs, f)| <= |xs|
    ensures forall y :: y in FilterMap(xs, f) ==> exists i :: 0 <= i < |xs| && f(xs[i]) == Some(y)
    decreases |xs|
  {
    if |xs| > 0 {
      var init := xs[..|xs| - 1];
      FilterMapFrom(init, f);
      forall y | y in FilterMap(xs, f) ensures exists i :: 0 <= i < |xs| && f(xs[i]) == Some(y) {
        if y in FilterMap(init, f) {
          var i :| 0 <= i < |init| && f(init[i]) == Some(y);
          assert xs[i] == init[i];
        } else {
          assert f(xs[|xs| - 1]) == Some(y);
        }
      }
    }
  }

  /** One more element extends the kept values by what `f` keeps of it. */
  lemma FilterMapSnoc<A, B>(xs: seq<A>, f: A -> Option<B>, i: nat)
    requires i < |xs|
    ensures FilterMap(xs[..i + 1], f) == FilterMap(xs[..i], f) + (if f(xs[i]).Some? then [f(xs[i]).value] else [])
  {
    assert xs[..i + 1][..i] == xs[..i];
  }
}
