/** Failure-carrying values shared by every module of the model. */
module Wrappers {

  /** A value that may be missing; `None` stands for pandas' NaN. */
  datatype Option<+T> = None | Some(value: T)

  /** The Python exceptions the modelled code can raise. */
  datatype Error =
    | ValueError(reason: string)
    | KeyError(key: string)
    | IndexError
    | TypeError
    | AttributeError
    | ZeroDivisionError
    | UnboundLocalError(name: string)
    | SqlError(reason: string)

  /** Either a result or the exception raised instead. */
  datatype Result<+T> = Ok(value: T) | Err(error: Error) {
    predicate IsFailure() {
      Err?
    }

    function PropagateFailure<U>(): Result<U>
      requires Err?
    {
      Err(error)
    }

    function Extract(): T
      requires Ok?
    {
      value
    }
  }

  /** Applies `f` to every entry in turn; the first failure stops the run. */
  function MapResults<A, B>(f: A -> Result<B>, xs: seq<A>): (r: Result<seq<B>>)
    ensures r.Ok? ==> |r.value| == |xs|
    decreases |xs|
  {
    if xs == [] then Ok([])
    else
      var init :- MapResults(f, xs[..|xs| - 1]);
      var last :- f(xs[|xs| - 1]);
      Ok(init + [last])
  }

  /** Extending a successful run by one successful entry. */
  lemma MapResultsSnoc<A, B>(f: A -> Result<B>, xs: seq<A>, i: nat, done: seq<B>, next: B)
    requires i < |xs| && MapResults(f, xs[..i]) == Ok(done) && f(xs[i]) == Ok(next)
    ensures MapResults(f, xs[..i + 1]) == Ok(done + [next])
  {
    assert xs[..i + 1][..i] == xs[..i];
  }

  /** The run succeeds exactly when every entry does, and then holds their
      results in order; a failure is that of the first entry that failed. */
  lemma {:induction false} MapResultsValues<A, B>(f: A -> Result<B>, xs: seq<A>)
    ensures MapResults(f, xs).Ok? <==> forall i :: 0 <= i < |xs| ==> f(xs[i]).Ok?
    ensures MapResults(f, xs).Ok? ==> forall i :: 0 <= i < |xs| ==> MapResults(f, xs).value[i] == f(xs[i]).value
    ensures MapResults(f, xs).Err? ==>
      exists i :: 0 <= i < |xs| && f(xs[i]) == Err(MapResults(f, xs).error) && forall j :: 0 <= j < i ==> f(xs[j]).Ok?
    decreases |xs|
  {
    if xs != [] {
      var init := xs[..|xs| - 1];
      MapResultsValues(f, init);
      assert forall i :: 0 <= i < |init| ==> init[i] == xs[i];
    }
  }

  /** A failure at entry `i`, with every earlier entry fine, is the failure of the run. */
  lemma MapResultsFirstError<A, B>(f: A -> Result<B>, xs: seq<A>, i: nat)
    requires i < |xs| && MapResults(f, xs[..i]).Ok? && f(xs[i]).Err?
    ensures MapResults(f, xs) == Err(f(xs[i]).error)
  {
    MapResultsValues(f, xs[..i]);
    MapResultsValues(f, xs);
    assert forall j :: 0 <= j < i ==> xs[..i][j] == xs[j];
    var r := MapResults(f, xs);
    var k :| 0 <= k < |xs| && f(xs[k]) == Err(r.error) && forall j :: 0 <= j < k ==> f(xs[j]).Ok?;
    assert k == i;
  }
}
