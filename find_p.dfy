/** tennis_probability/find_p.py: recovers the point probability p from a
    probability of winning a best-of-five match from 0-0, by bisection over
    [0, 1]. */
module FindP {
  import opened Errors
  import opened Check
  import opened Matches

  /** match(0, 0, p) with the default number of sets, the function the
      search inverts. It cannot fail for a valid p; the search never asks
      for it elsewhere, so there it is 0. */
  function MatchWin(p: real): (m: real)
    ensures ValidProbability(p) ==> Match(0, 0, p, DefaultBestOf) == Ok(m) && ValidProbability(m)
  {
    var r := Match(0, 0, p, DefaultBestOf);
    if r.Ok? then r.value else 0.0
  }

  /** The values the search starts from and tests first: 0 at p = 0, 1 at
      p = 1 and one half at the midpoint. */
  lemma MatchWinLandmarks()
    ensures MatchWin(0.0) == 0.0 && MatchWin(1.0) == 1.0 && MatchWin(0.5) == 0.5
  {
    MatchScenariosExtremes();
    MatchScenarioEven();
  }

  /** The width of the bracket after k halvings of [0, 1]: 1 / 2^k. */
  function Halving(k: nat): (w: real)
    ensures 0.0 < w <= 1.0
  {
    if k == 0 then 1.0 else Halving(k - 1) / 2.0
  }

  /** How many whole thresholds fit in a bracket of the given width. */
  function Widths(width: real, eps: real): (n: int)
    requires eps > 0.0 && width >= 0.0
    ensures n >= 0
  {
    (width / eps).Floor
  }

  /** Halving a bracket wider than eps lowers the count of thresholds it
      holds, so the search terminates for a positive threshold. */
  lemma HalvingShrinks(width: real, eps: real)
    requires eps > 0.0 && width > eps
    ensures Widths(width / 2.0, eps) < Widths(width, eps)
  {
    var x := width / eps;
    assert x > 1.0;
    assert width / 2.0 / eps == x / 2.0;
    if x < 2.0 {
      assert (x / 2.0).Floor == 0;
    } else {
      assert ((x / 2.0).Floor + 1) as real <= x;
    }
  }

  /** find_p(probability, accuracy_threshold), with the match function it
      searches given as `win`; MatchWinLandmarks shows that the model's
      match meets the two requirements on it. The threshold must be
      positive, or the loop would not end: the source does not check it.
      Monotonicity of `win` is not assumed, so what is promised is the
      bracket the search keeps: on a threshold exit the result is the
      midpoint of a bracket no wider than eps whose ends straddle the
      target; on an early exit `win` at the result is the target. The ghost
      outputs lo, hi and steps are that final bracket and the number of
      halvings that produced it. */
  method FindP(win: real -> real, target: real, eps: real)
      returns (r: Result<real>, ghost lo: real, ghost hi: real, ghost steps: nat)
    requires win(0.0) == 0.0 && win(1.0) == 1.0
    requires eps > 0.0
    ensures !ValidProbability(target) ==> r == Err(InvalidProbability)
    ensures ValidProbability(target) ==> r.Ok?
    ensures r.Ok? ==> 0.0 <= lo <= r.value <= hi <= 1.0 && hi - lo == Halving(steps)
    ensures r.Ok? ==> win(lo) <= target <= win(hi)
    ensures r.Ok? ==> win(r.value) == target || (r.value == (lo + hi) / 2.0 && hi - lo <= eps)
    ensures ValidProbability(target) && eps >= 1.0 ==> r == Ok(0.5)
    ensures eps < 1.0 && (target == 0.0 || target == 1.0) ==> r == Ok(target)
    ensures eps < 1.0 && 0.0 < target < 1.0 && target == win(0.5) ==> r == Ok(0.5)
  {
    if CheckProbability(target).Fail? {
      return Err(InvalidProbability), 0.0, 0.0, 0;
    }
    var low, high, mid := 0.0, 1.0, 0.5;
    steps := 0;
    while high - low > eps
      invariant 0.0 <= low < mid < high <= 1.0 && mid == (low + high) / 2.0
      invariant high - low == Halving(steps)
      invariant win(low) <= target <= win(high)
      invariant eps >= 1.0 ==> low == 0.0 && high == 1.0
      invariant eps < 1.0 && (target == 0.0 || target == 1.0 || target == win(0.5)) ==> low == 0.0 && high == 1.0
      decreases Widths(high - low, eps)
    {
      if target == win(low) {
        return Ok(low), low, high, steps;
      } else if target == win(high) {
        return Ok(high), low, high, steps;
      }
      var probMid := win(mid);
      HalvingShrinks(high - low, eps);
      assert high - mid == mid - low == (high - low) / 2.0;
      if probMid < target {
        low := mid;
      } else if probMid > target {
        high := mid;
      } else {
        return Ok(mid), low, high, steps;
      }
      steps := steps + 1;
      mid := (high + low) / 2.0;
    }
    return Ok(mid), low, high, steps;
  }
}
