/**
 * Sequential backend calls that abort at the first failure, as the core does for the
 * per-id document fetch and the per-chunk model call: an exception raised by one call
 * ends the whole request, and the calls after it are never made.
 */
module Calls {
  import opened Wrappers

  /** The outputs of the calls that succeeded, in order; `failed` when the next call failed. */
  datatype Run<B> = Run(results: seq<B>, failed: bool)

  /** Number of calls made: the successful ones, plus the failing one if any. */
  function CallsMade<B>(r: Run<B>): nat
  {
    |r.results| + if r.failed then 1 else 0
  }

  /**
   * `r` records calling `f` on `xs` in order until the first failure: every recorded output is
   * what `f` returned for the input at its position, and the run stops either at the end of
   * `xs` or at an input on which `f` fails.
   */
  ghost predicate IsRunOf<A, B>(r: Run<B>, xs: seq<A>, f: A -> Option<B>)
  {
    && |r.results| <= |xs|
    && (forall i :: 0 <= i < |r.results| ==> f(xs[i]) == Some(r.results[i]))
    && (if r.failed then |r.results| < |xs| && f(xs[|r.results|]).None? else |r.results| == |xs|)
  }

  /** Calls `f` on each element of `xs` in order, stopping at the first failure. */
  function RunAll<A, B>(xs: seq<A>, f: A -> Option<B>): (r: Run<B>)
    ensures IsRunOf(r, xs, f)
    decreases |xs|
  {
    if |xs| == 0 then Run([], false)
    else
      var before := RunAll(xs[..|xs| - 1], f);
      if before.failed then before
      else match f(xs[|xs| - 1])
        case None => Run(before.results, true)
        case Some(y) => Run(before.results + [y], false)
  }

  /** There is only one way to call `f` on `xs` in order: IsRunOf determines the run. */
  lemma RunUnique<A, B>(r1: Run<B>, r2: Run<B>, xs: seq<A>, f: A -> Option<B>)
    requires IsRunOf(r1, xs, f) && IsRunOf(r2, xs, f)
    ensures r1 == r2
  {
    assert |r1.results| == |r2.results|;
    assert r1.results == r2.results;
  }

  /** The run completes exactly when every call succeeds. */
  lemma RunAllCompletes<A, B>(xs: seq<A>, f: A -> Option<B>)
    ensures !RunAll(xs, f).failed <==> forall i :: 0 <= i < |xs| ==> f(xs[i]).Some?
  {
    var r := RunAll(xs, f);
    if !r.failed {
      forall i | 0 <= i < |xs| ensures f(xs[i]).Some? {
        assert f(xs[i]) == Some(r.results[i]);
      }
    }
  }

  /** The run stops at the first input on which `f` fails, after exactly `k + 1` calls. */
  lemma RunAllStopsAtFirstFailure<A, B>(xs: seq<A>, f: A -> Option<B>, k: nat)
    requires k < |xs| && f(xs[k]).None?
    requires forall i :: 0 <= i < k ==> f(xs[i]).Some?
    ensures RunAll(xs, f).failed && |RunAll(xs, f).results| == k && CallsMade(RunAll(xs, f)) == k + 1
  {
    var r := RunAll(xs, f);
    assert |r.results| <= k;
    assert |r.results| == k;
  }
}
