/** The shape of the scraper's `for` loops: one step per list entry, each step
    either appending to a list or raising, and the first exception ending the
    loop with what was appended so far. */
module Scans {
  import opened Wrappers

  /** `[f(x) for x in xs]`: one step's result per list entry. */
  function Map<A, B>(f: A -> B, xs: seq<A>): (r: seq<B>)
    ensures |r| == |xs|
    ensures forall i :: 0 <= i < |xs| ==> r[i] == f(xs[i])
  {
    seq(|xs|, i requires 0 <= i < |xs| => f(xs[i]))
  }

  lemma MapConcat<A, B>(f: A -> B, a: seq<A>, b: seq<A>)
    ensures Map(f, a + b) == Map(f, a) + Map(f, b)
  {
  }

  lemma MapPrefix<A, B>(f: A -> B, xs: seq<A>, n: nat)
    requires n <= |xs|
    ensures Map(f, xs)[..n] == Map(f, xs[..n])
  {
  }

  /** What a loop over a list has collected when it ends, normally or by the
      exception in `failure`. */
  datatype Scan<T> = Scan(items: seq<T>, failure: Option<Error>)

  /** A loop run by a script, where the first exception ends the program:
      either everything it collected or that exception. */
  function Finished<T>(s: Scan<T>): (r: Result<seq<T>>)
    ensures r.Ok? <==> s.failure.None?
    ensures r.Ok? ==> r.value == s.items
    ensures r.Err? ==> r.error == s.failure.value
  {
    if s.failure.Some? then Err(s.failure.value) else Ok(s.items)
  }

  /** A loop that appends one value per step and stops at the first step
      that raises. */
  function Collect<T>(results: seq<Result<T>>): (r: Scan<T>)
    ensures |r.items| <= |results|
    ensures r.failure.None? ==> |r.items| == |results|
    ensures r.failure.Some? ==> |r.items| < |results|
    decreases |results|
  {
    if results == [] then Scan([], None)
    else
      var before := Collect(results[..|results| - 1]);
      if before.failure.Some? then before
      else
        match results[|results| - 1]
        case Err(e) => Scan(before.items, Some(e))
        case Ok(x) => Scan(before.items + [x], None)
  }

  /** The values collected are those of the first steps, in order, and a
      failure is the exception of the step after them. */
  lemma {:induction false} CollectItems<T>(results: seq<Result<T>>)
    ensures var r := Collect(results);
      && (forall i :: 0 <= i < |r.items| ==> results[i] == Ok(r.items[i]))
      && (r.failure.Some? ==> results[|r.items|] == Err(r.failure.value))
    decreases |results|
  {
    if results != [] {
      var init := results[..|results| - 1];
      CollectItems(init);
      assert forall i :: 0 <= i < |init| ==> init[i] == results[i];
    }
  }

  /** A loop that appends a list per step and stops at the first step that
      raises. */
  function CollectAll<T>(results: seq<Result<seq<T>>>): Scan<T>
    decreases |results|
  {
    if results == [] then Scan([], None)
    else
      var before := CollectAll(results[..|results| - 1]);
      if before.failure.Some? then before
      else
        match results[|results| - 1]
        case Err(e) => Scan(before.items, Some(e))
        case Ok(xs) => Scan(before.items + xs, None)
  }

  /** A failure is the exception of one of the steps. */
  lemma {:induction false} CollectAllFailure<T>(results: seq<Result<seq<T>>>)
    ensures var r := CollectAll(results);
      r.failure.Some? ==> exists i :: 0 <= i < |results| && results[i] == Err(r.failure.value)
    decreases |results|
  {
    if results != [] {
      var init := results[..|results| - 1];
      CollectAllFailure(init);
      if CollectAll(init).failure.Some? {
        var i :| 0 <= i < |init| && init[i] == Err(CollectAll(init).failure.value);
        assert results[i] == init[i];
      }
    }
  }

  /** After the first failure the remaining steps do not run. */
  lemma {:induction false} CollectStops<T>(results: seq<Result<T>>, k: nat)
    requires k <= |results| && Collect(results[..k]).failure.Some?
    ensures Collect(results) == Collect(results[..k])
    decreases |results| - k
  {
    if k < |results| {
      var init := results[..|results| - 1];
      assert init[..k] == results[..k];
      CollectStops(init, k);
    } else {
      assert results[..k] == results;
    }
  }

  lemma {:induction false} CollectAllStops<T>(results: seq<Result<seq<T>>>, k: nat)
    requires k <= |results| && CollectAll(results[..k]).failure.Some?
    ensures CollectAll(results) == CollectAll(results[..k])
    decreases |results| - k
  {
    if k < |results| {
      var init := results[..|results| - 1];
      assert init[..k] == results[..k];
      CollectAllStops(init, k);
    } else {
      assert results[..k] == results;
    }
  }

  /** Collecting `a + b` collects a's lists, then b's. */
  lemma {:induction false} CollectAllConcat<T>(a: seq<Result<seq<T>>>, b: seq<Result<seq<T>>>)
    requires CollectAll(a).failure.None?
    ensures CollectAll(a + b) == Scan(CollectAll(a).items + CollectAll(b).items, CollectAll(b).failure)
    decreases |b|
  {
    if b == [] {
      assert a + b == a;
    } else {
      var init := b[..|b| - 1];
      var ab := a + b;
      assert ab[..|ab| - 1] == a + init;
      assert ab[|ab| - 1] == b[|b| - 1];
      CollectAllConcat(a, init);
      var sa, si := CollectAll(a), CollectAll(init);
      if si.failure.None? && b[|b| - 1].Ok? {
        assert sa.items + si.items + b[|b| - 1].value == sa.items + (si.items + b[|b| - 1].value);
      }
    }
  }

  /** One more step of a one-value-per-step loop. */
  lemma CollectSnoc<T>(results: seq<Result<T>>, last: Result<T>)
    ensures var before := Collect(results);
      Collect(results + [last]) ==
        if before.failure.Some? then before
        else if last.Err? then Scan(before.items, Some(last.error))
        else Scan(before.items + [last.value], None)
  {
    assert (results + [last])[..|results|] == results;
  }

  /** The i-th step of a one-value-per-step loop. */
  lemma CollectStep<T>(results: seq<Result<T>>, i: nat)
    requires i < |results|
    ensures var before := Collect(results[..i]);
      Collect(results[..i + 1]) ==
        if before.failure.Some? then before
        else if results[i].Err? then Scan(before.items, Some(results[i].error))
        else Scan(before.items + [results[i].value], None)
  {
    assert results[..i + 1][..i] == results[..i];
  }

  /** The i-th step of a list-per-step loop. */
  lemma CollectAllStep<T>(results: seq<Result<seq<T>>>, i: nat)
    requires i < |results|
    ensures var before := CollectAll(results[..i]);
      CollectAll(results[..i + 1]) ==
        if before.failure.Some? then before
        else if results[i].Err? then Scan(before.items, Some(results[i].error))
        else Scan(before.items + results[i].value, None)
  {
    assert results[..i + 1][..i] == results[..i];
  }

  /** One more step of a list-per-step loop. */
  lemma CollectAllSnoc<T>(results: seq<Result<seq<T>>>, last: Result<seq<T>>)
    ensures var before := CollectAll(results);
      CollectAll(results + [last]) ==
        if before.failure.Some? then before
        else if last.Err? then Scan(before.items, Some(last.error))
        else Scan(before.items + last.value, None)
  {
    assert (results + [last])[..|results|] == results;
  }
}
