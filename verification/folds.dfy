/**
 * The loop shape the converters share: walk a list, build one result per
 * item, append it, and let the first exception end the walk.
 */
module Folds {
  import opened Wrappers

  /** The results for the first n items, or the error of the first item that fails. */
  function MapUpTo<A, B>(items: seq<A>, build: A -> Result<B>, n: nat): Result<seq<B>>
    requires n <= |items|
  {
    if n == 0 then Ok([])
    else
      var done :- MapUpTo(items, build, n - 1);
      var next :- build(items[n - 1]);
      Ok(done + [next])
  }

  /**
   * On success there is one result per item, in item order, each built
   * from its own item; on failure the error is that of the first item that
   * fails, every item before it having succeeded.
   */
  lemma {:induction false} MapUpToShape<A, B>(items: seq<A>, build: A -> Result<B>, n: nat)
    requires n <= |items|
    ensures MapUpTo(items, build, n).Ok? <==> forall i :: 0 <= i < n ==> build(items[i]).Ok?
    ensures MapUpTo(items, build, n).Ok? ==>
      |MapUpTo(items, build, n).value| == n
      && forall i :: 0 <= i < n ==> build(items[i]) == Ok(MapUpTo(items, build, n).value[i])
    ensures MapUpTo(items, build, n).Err? ==>
      exists j :: 0 <= j < n && build(items[j]).Err? && MapUpTo(items, build, n).error == build(items[j]).error
                  && forall i :: 0 <= i < j ==> build(items[i]).Ok?
    decreases n
  {
    if n > 0 {
      MapUpToShape(items, build, n - 1);
      if MapUpTo(items, build, n - 1).Ok? && build(items[n - 1]).Err? {
        assert build(items[n - 1]).Err? && MapUpTo(items, build, n).error == build(items[n - 1]).error;
      }
    }
  }

  /** One more item: its result appended, or its error. */
  lemma {:induction false} MapStep<A, B>(items: seq<A>, build: A -> Result<B>, n: nat, done: seq<B>)
    requires n < |items|
    requires MapUpTo(items, build, n) == Ok(done)
    ensures MapUpTo(items, build, n + 1)
            == if build(items[n]).Err? then Err(build(items[n]).error) else Ok(done + [build(items[n]).value])
  {
  }

  /** Once the walk has failed, walking further changes nothing. */
  lemma {:induction false} MapErrorPersists<A, B>(items: seq<A>, build: A -> Result<B>, m: nat, n: nat)
    requires m <= n <= |items|
    requires MapUpTo(items, build, m).Err?
    ensures MapUpTo(items, build, n) == MapUpTo(items, build, m)
    decreases n
  {
    if n > m {
      MapErrorPersists(items, build, m, n - 1);
    }
  }
}
