/** Failure-compatible wrappers shared by the whole model, and the
    fail-fast traversal that `Promise.all` performs over an array of
    lookups. */
module Outcomes {

  datatype Option<+T> = None | Some(value: T) {
    predicate IsFailure() { None? }
    function PropagateFailure<U>(): Option<U> requires None? { None }
    function Extract(): T requires Some? { value }
  }

  /** The one failure the core raises itself: `list.filter(...)[0].name`
      on a list with no entry for the language reads `.name` of
      `undefined` and throws. */
  datatype Error = LocalisationMissing

  datatype Result<+R> = Success(value: R) | Failure(error: Error) {
    predicate IsFailure() { Failure? }
    function PropagateFailure<U>(): Result<U> requires Failure? { Failure(error) }
    function Extract(): R requires Success? { value }
  }

  function FromOption<T>(o: Option<T>): (r: Result<T>)
    ensures r.Success? <==> o.Some?
    ensures r.Success? ==> r.value == o.value
  {
    match o
    case Some(v) => Success(v)
    case None => Failure(LocalisationMissing)
  }

  /** `Promise.all(xs.map(f))`: every element is resolved, the results
      keep the input order, and one failure fails the whole. */
  function MapAll<A, B>(xs: seq<A>, f: A -> Result<B>): (r: Result<seq<B>>)
    ensures r.Success? <==> forall i :: 0 <= i < |xs| ==> f(xs[i]).Success?
    ensures r.Success? ==> |r.value| == |xs|
    ensures r.Success? ==> forall i :: 0 <= i < |xs| ==> f(xs[i]) == Success(r.value[i])
  {
    if xs == [] then Success([])
    else
      var head :- f(xs[0]);
      var tail :- MapAll(xs[1..], f);
      assert forall i :: 1 <= i < |xs| ==> xs[i] == xs[1..][i - 1];
      Success([head] + tail)
  }

  /** Joining two fail-fast results: both must succeed. */
  function Both<T>(a: Result<seq<T>>, b: Result<seq<T>>): Result<seq<T>> {
    if a.Success? && b.Success? then Success(a.value + b.value) else Failure(LocalisationMissing)
  }

  /** A single lookup as a one-element list. */
  function One<T>(r: Result<T>): Result<seq<T>> {
    if r.Success? then Success([r.value]) else Failure(LocalisationMissing)
  }

  lemma MapAllSingle<A, B>(x: A, f: A -> Result<B>)
    ensures MapAll([x], f) == One(f(x))
  {
    assert [x][0] == x;
    assert [x][1..] == [];
    if f(x).Success? {
      assert MapAll([x][1..], f) == Success([]);
      assert [f(x).value] + [] == [f(x).value];
    }
  }

  /** Resolving a concatenation is resolving its two parts and joining. */
  lemma {:induction false} MapAllAppend<A, B>(xs: seq<A>, ys: seq<A>, f: A -> Result<B>)
    ensures MapAll(xs + ys, f) == Both(MapAll(xs, f), MapAll(ys, f))
  {
    if xs == [] {
      assert xs + ys == ys;
      if MapAll(ys, f).Success? {
        assert [] + MapAll(ys, f).value == MapAll(ys, f).value;
      }
    } else {
      assert (xs + ys)[0] == xs[0];
      assert (xs + ys)[1..] == xs[1..] + ys;
      MapAllAppend(xs[1..], ys, f);
      if f(xs[0]).Success? && MapAll(xs[1..], f).Success? && MapAll(ys, f).Success? {
        assert [f(xs[0]).value] + (MapAll(xs[1..], f).value + MapAll(ys, f).value)
            == ([f(xs[0]).value] + MapAll(xs[1..], f).value) + MapAll(ys, f).value;
      }
    }
  }
}
