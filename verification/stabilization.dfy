/**
 * The retry-until-stable helpers: fetch a resource up to ten times, stop at
 * the first fetch that is stable (by a check, or by comparing it with the
 * previous successful fetch), and otherwise fall back to the last fetched
 * value, unless some fetch failed along the way.
 *
 * A fetch is an external call: `fetch(j)` is what attempt `j` (from 0)
 * returns. The retry library runs the attempt closure until it returns no
 * error or the attempts run out, and reports the last error only.
 */
module Stabilization {
  import opened Wrappers

  const DefaultStabilizationAttempts := 10

  /** What attempt `j` of the fetch returns. */
  type Fetcher<T> = nat -> Result<T>

  function FetchFailed(cause: string): string { "failed to fetch resource: " + cause }
  const StillChanging := "resource state still changing"
  function StabilizeFailed(cause: string): string { "failed to stabilize resource state: " + cause }

  /** The first attempt from `i` on that ends the retries, if any does. */
  function FirstStable(stable: nat -> bool, i: nat): (r: Option<nat>)
    requires i <= DefaultStabilizationAttempts
    ensures r.Some? ==> i <= r.value < DefaultStabilizationAttempts && stable(r.value)
    ensures r.Some? ==> forall j :: i <= j < r.value ==> !stable(j)
    ensures r.None? ==> forall j :: i <= j < DefaultStabilizationAttempts ==> !stable(j)
    decreases DefaultStabilizationAttempts - i
  {
    if i == DefaultStabilizationAttempts then None
    else if stable(i) then Some(i)
    else FirstStable(stable, i + 1)
  }

  /** The first attempt to end the retries is `k` when `k` does and no
      earlier one does. */
  lemma FirstStableIs(stable: nat -> bool, k: nat)
    requires k < DefaultStabilizationAttempts && stable(k)
    requires forall j :: 0 <= j < k ==> !stable(j)
    ensures FirstStable(stable, 0) == Some(k)
  {
  }

  /** Some of the first `n` fetches failed. */
  predicate AnyFailed<T>(fetch: Fetcher<T>, n: nat)
  {
    exists j :: 0 <= j < n && fetch(j).Err?
  }

  // ----- WaitForResourceStabilization -----

  /** The error the attempt closure returns on attempt `j`, if any: the
      fetch error, or the stability check's complaint. */
  function AttemptError<T>(fetch: Fetcher<T>, isStable: T -> Option<string>, j: nat): (r: Option<string>)
    ensures r.None? ==> fetch(j).Ok?
  {
    if fetch(j).Err? then Some(FetchFailed(fetch(j).message)) else isStable(fetch(j).value)
  }

  function StableByCheck<T>(fetch: Fetcher<T>, isStable: T -> Option<string>): nat -> bool
  {
    (j: nat) => AttemptError(fetch, isStable, j).None?
  }

  /** What `WaitForResourceStabilization` returns. */
  function Stabilized<T>(fetch: Fetcher<T>, isStable: T -> Option<string>): Result<T>
  {
    var last := DefaultStabilizationAttempts - 1;
    var k := FirstStable(StableByCheck(fetch, isStable), 0);
    if k.Some? then
      assert AttemptError(fetch, isStable, k.value).None?;
      Ok(fetch(k.value).value)
    else if AnyFailed(fetch, DefaultStabilizationAttempts) then
      assert !StableByCheck(fetch, isStable)(last);
      Err(StabilizeFailed(AttemptError(fetch, isStable, last).value))
    else
      assert !fetch(last).Err?;
      Ok(fetch(last).value)
  }

  /** How many times the resource is fetched. */
  function Fetches(stable: nat -> bool): (n: nat)
    ensures 1 <= n <= DefaultStabilizationAttempts
  {
    var k := FirstStable(stable, 0);
    if k.Some? then k.value + 1 else DefaultStabilizationAttempts
  }

  /** `WaitForResourceStabilization`: the retried closure records the last
      fetch and whether any fetch failed. */
  method WaitForResourceStabilization<T>(fetch: Fetcher<T>, isStable: T -> Option<string>) returns (r: Result<T>, attempts: nat)
    ensures r == Stabilized(fetch, isStable)
    ensures attempts == Fetches(StableByCheck(fetch, isStable))
  {
    var resource: Option<T> := None;
    var fetchErr: Option<string> := None;
    var retryErr: Option<string> := None;
    attempts := 0;
    while attempts < DefaultStabilizationAttempts
      invariant attempts <= DefaultStabilizationAttempts
      invariant forall j :: 0 <= j < attempts ==> AttemptError(fetch, isStable, j).Some?
      invariant fetchErr.Some? <==> AnyFailed(fetch, attempts)
      invariant attempts > 0 ==> retryErr == AttemptError(fetch, isStable, attempts - 1)
      invariant attempts > 0 && fetch(attempts - 1).Ok? ==> resource == Some(fetch(attempts - 1).value)
    {
      var fetched := fetch(attempts);
      attempts := attempts + 1;
      if fetched.Err? {
        resource := None;
        fetchErr := Some(fetched.message);
        retryErr := Some(FetchFailed(fetched.message));
      } else {
        resource := Some(fetched.value);
        var unstable := isStable(fetched.value);
        if unstable.None? {
          FirstStableIs(StableByCheck(fetch, isStable), attempts - 1);
          return Ok(fetched.value), attempts;
        }
        retryErr := unstable;
      }
    }
    if fetchErr.Some? {
      return Err(StabilizeFailed(retryErr.value)), attempts;
    }
    return Ok(resource.value), attempts;
  }

  /** The result is a fetched value; the error comes only when no attempt
      was stable and some fetch failed, even a fetch before later
      successful ones; and when every fetch succeeded without settling, the
      last one is returned. */
  lemma StabilizedOutcome<T>(fetch: Fetcher<T>, isStable: T -> Option<string>)
    ensures var r := Stabilized(fetch, isStable);
      (r.Ok? ==> exists j :: 0 <= j < DefaultStabilizationAttempts && fetch(j) == Ok(r.value)) &&
      (r.Err? <==> FirstStable(StableByCheck(fetch, isStable), 0).None? && AnyFailed(fetch, DefaultStabilizationAttempts)) &&
      (FirstStable(StableByCheck(fetch, isStable), 0).None? && !AnyFailed(fetch, DefaultStabilizationAttempts) ==>
        r == Ok(fetch(DefaultStabilizationAttempts - 1).value))
  {
    var k := FirstStable(StableByCheck(fetch, isStable), 0);
    if k.Some? {
      assert AttemptError(fetch, isStable, k.value).None?;
    } else if !AnyFailed(fetch, DefaultStabilizationAttempts) {
      assert fetch(DefaultStabilizationAttempts - 1).Ok?;
    }
  }

  /** A failed first fetch is never forgotten: with every later fetch
      unstable, the helper reports an error rather than the last value. */
  lemma FirstFetchFailureSticks<T>(fetch: Fetcher<T>, isStable: T -> Option<string>)
    requires fetch(0).Err?
    requires forall j :: 1 <= j < DefaultStabilizationAttempts ==> fetch(j).Ok? && isStable(fetch(j).value).Some?
    ensures Stabilized(fetch, isStable).Err?
  {
    var stable := StableByCheck(fetch, isStable);
    assert forall j :: 0 <= j < DefaultStabilizationAttempts ==> !stable(j);
    assert AnyFailed(fetch, DefaultStabilizationAttempts) by {
      assert fetch(0).Err?;
    }
  }

  // ----- WaitForResourceStabilizationByComparison -----

  /** The last attempt before `j` whose fetch succeeded. */
  function LastSuccess<T>(fetch: Fetcher<T>, j: nat): (r: Option<nat>)
    ensures r.Some? ==> r.value < j && fetch(r.value).Ok?
    ensures r.Some? ==> forall i :: r.value < i < j ==> fetch(i).Err?
    ensures r.None? ==> forall i :: 0 <= i < j ==> fetch(i).Err?
  {
    if j == 0 then None
    else if fetch(j - 1).Ok? then Some(j - 1)
    else LastSuccess(fetch, j - 1)
  }

  /** Attempt `j` settles when its fetch succeeds and compares equal to the
      previous successful fetch; the first successful fetch never settles. */
  predicate SettlesAt<T>(fetch: Fetcher<T>, compare: (T, T) -> bool, j: nat)
  {
    fetch(j).Ok? && LastSuccess(fetch, j).Some? && compare(fetch(LastSuccess(fetch, j).value).value, fetch(j).value)
  }

  function StableByComparison<T>(fetch: Fetcher<T>, compare: (T, T) -> bool): nat -> bool
  {
    (j: nat) => SettlesAt(fetch, compare, j)
  }

  /** The error of attempt `j` when it does not settle. */
  function ComparisonError<T>(fetch: Fetcher<T>, j: nat): string
  {
    if fetch(j).Err? then FetchFailed(fetch(j).message) else StillChanging
  }

  /** What `WaitForResourceStabilizationByComparison` returns. */
  function StabilizedByComparison<T>(fetch: Fetcher<T>, compare: (T, T) -> bool): Result<T>
  {
    var last := DefaultStabilizationAttempts - 1;
    var k := FirstStable(StableByComparison(fetch, compare), 0);
    if k.Some? then
      assert StableByComparison(fetch, compare)(k.value);
      Ok(fetch(k.value).value)
    else if AnyFailed(fetch, DefaultStabilizationAttempts) then Err(StabilizeFailed(ComparisonError(fetch, last)))
    else
      assert !fetch(last).Err?;
      Ok(fetch(last).value)
  }

  /** `WaitForResourceStabilizationByComparison`: the closure also keeps the
      last successful fetch and whether one has happened yet. */
  method WaitForResourceStabilizationByComparison<T>(fetch: Fetcher<T>, compare: (T, T) -> bool)
    returns (r: Result<T>, attempts: nat)
    ensures r == StabilizedByComparison(fetch, compare)
    ensures attempts == Fetches(StableByComparison(fetch, compare))
  {
    var resource: Option<T> := None;
    var lastResource: Option<T> := None;
    var fetchErr: Option<string> := None;
    var retryErr := "";
    var isFirstAttempt := true;
    attempts := 0;
    while attempts < DefaultStabilizationAttempts
      invariant attempts <= DefaultStabilizationAttempts
      invariant forall j :: 0 <= j < attempts ==> !SettlesAt(fetch, compare, j)
      invariant fetchErr.Some? <==> AnyFailed(fetch, attempts)
      invariant attempts > 0 ==> retryErr == ComparisonError(fetch, attempts - 1)
      invariant attempts > 0 && fetch(attempts - 1).Ok? ==> resource == Some(fetch(attempts - 1).value)
      invariant isFirstAttempt <==> LastSuccess(fetch, attempts).None?
      invariant !isFirstAttempt ==> lastResource == Some(fetch(LastSuccess(fetch, attempts).value).value)
    {
      var fetched := fetch(attempts);
      attempts := attempts + 1;
      if fetched.Err? {
        resource := None;
        fetchErr := Some(fetched.message);
        retryErr := FetchFailed(fetched.message);
      } else {
        resource := Some(fetched.value);
        if !isFirstAttempt && compare(lastResource.value, fetched.value) {
          FirstStableIs(StableByComparison(fetch, compare), attempts - 1);
          return Ok(fetched.value), attempts;
        }
        lastResource := resource;
        isFirstAttempt := false;
        retryErr := StillChanging;
      }
    }
    if fetchErr.Some? {
      return Err(StabilizeFailed(retryErr)), attempts;
    }
    return Ok(resource.value), attempts;
  }

  /** A settled result is a successful fetch equal, by `compare`, to an
      earlier successful fetch, so at least two fetches happened; with no
      settling, the fallback is the same as for the check-based helper. */
  lemma ComparisonNeedsTwoFetches<T>(fetch: Fetcher<T>, compare: (T, T) -> bool)
    ensures var k := FirstStable(StableByComparison(fetch, compare), 0);
      k.Some? ==> exists i :: 0 <= i < k.value && fetch(i).Ok? && compare(fetch(i).value, fetch(k.value).value)
    ensures var k := FirstStable(StableByComparison(fetch, compare), 0);
      k.Some? ==> Fetches(StableByComparison(fetch, compare)) >= 2
    ensures var r := StabilizedByComparison(fetch, compare);
      r.Err? <==> FirstStable(StableByComparison(fetch, compare), 0).None? && AnyFailed(fetch, DefaultStabilizationAttempts)
  {
    var k := FirstStable(StableByComparison(fetch, compare), 0);
    if k.Some? {
      assert StableByComparison(fetch, compare)(k.value);
      var i := LastSuccess(fetch, k.value).value;
      assert 0 <= i < k.value && fetch(i).Ok? && compare(fetch(i).value, fetch(k.value).value);
    }
  }

  /** A resource that no longer changes settles on the second fetch. */
  lemma SteadyResourceSettlesOnSecondFetch<T>(v: T, compare: (T, T) -> bool)
    requires compare(v, v)
    ensures var fetch: Fetcher<T> := _ => Ok(v);
      StabilizedByComparison(fetch, compare) == Ok(v) && Fetches(StableByComparison(fetch, compare)) == 2
  {
    var fetch: Fetcher<T> := _ => Ok(v);
    var stable := StableByComparison(fetch, compare);
    assert LastSuccess(fetch, 0).None?;
    assert !stable(0);
    assert LastSuccess(fetch, 1) == Some(0);
    assert stable(1);
    FirstStableIs(stable, 1);
  }
}
