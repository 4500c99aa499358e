/** The guards of tennis_probability/check.py. Each accepts exactly one
    describable set of arguments and otherwise raises a specific error kind. */
module Check {
  import opened Errors

  /** A point (or game, or set) win probability. */
  predicate ValidProbability(p: real)
  {
    0.0 <= p <= 1.0
  }

  /** A legal in-game point score: 0..4 each, and never both at 3 or more. */
  predicate ValidScore(a: int, b: int)
  {
    0 <= a <= 4 && 0 <= b <= 4 && !(a >= 3 && b >= 3)
  }

  /** A legal games-won pair: 0..6 each, and never both at 5 or more. */
  predicate ValidGames(a: int, b: int)
  {
    0 <= a <= 6 && 0 <= b <= 6 && !(a >= 5 && b >= 5)
  }

  /** A legal sets-won pair for a match of `bestOf` sets: no joint constraint. */
  predicate ValidSets(a: int, b: int, bestOf: int)
  {
    0 <= a <= bestOf && 0 <= b <= bestOf
  }

  function CheckProbability(p: real): (r: Outcome)
    ensures r.Pass? <==> ValidProbability(p)
    ensures r.Fail? ==> r.error == InvalidProbability
  {
    if p < 0.0 || p > 1.0 then Fail(InvalidProbability) else Pass
  }

  /** Scans the numbers left to right and raises at the first negative one. */
  function CheckNotNegative(numbers: seq<int>): (r: Outcome)
    ensures r.Pass? <==> forall i :: 0 <= i < |numbers| ==> numbers[i] >= 0
    ensures r.Fail? ==> r.error == NegativeNumber
  {
    if |numbers| == 0 then Pass
    else if numbers[0] < 0 then Fail(NegativeNumber)
    else CheckNotNegative(numbers[1..])
  }

  /** Checking two numbers passes exactly when both are non-negative. */
  lemma NotNegativePair(a: int, b: int)
    ensures CheckNotNegative([a, b]).Pass? <==> a >= 0 && b >= 0
  {
    assert [a, b][0] == a && [a, b][1] == b;
  }

  /** Checking one number passes exactly when it is non-negative. */
  lemma NotNegativeSingle(n: int)
    ensures CheckNotNegative([n]).Pass? <==> n >= 0
  {
    assert [n][0] == n;
  }

  function CheckScore(a: int, b: int): (r: Outcome)
    ensures r.Pass? <==> ValidScore(a, b)
    ensures r.Fail? ==> r.error == (if a < 0 || b < 0 then NegativeNumber else InvalidInput)
  {
    NotNegativePair(a, b);
    CheckNotNegative([a, b]).Then(
      if a > 4 || b > 4 then Fail(InvalidInput)
      else if a >= 3 && b >= 3 then Fail(InvalidInput)
      else Pass)
  }

  function CheckGamesWon(a: int, b: int): (r: Outcome)
    ensures r.Pass? <==> ValidGames(a, b)
    ensures r.Fail? ==> r.error == (if a < 0 || b < 0 then NegativeNumber else InvalidInput)
  {
    NotNegativePair(a, b);
    CheckNotNegative([a, b]).Then(
      if a > 6 || b > 6 then Fail(InvalidInput)
      else if a >= 5 && b >= 5 then Fail(InvalidInput)
      else Pass)
  }

  function CheckSetsWon(a: int, b: int, bestOf: int): (r: Outcome)
    ensures r.Pass? <==> ValidSets(a, b, bestOf)
    ensures r.Fail? ==> r.error == (if a < 0 || b < 0 then NegativeNumber else InvalidInput)
  {
    NotNegativePair(a, b);
    CheckNotNegative([a, b]).Then(
      if a > bestOf || b > bestOf then Fail(InvalidInput) else Pass)
  }

  /** The three score validators treat the players alike: swapping the pair
      changes neither the verdict nor the error kind. */
  lemma ValidatorsSymmetric(a: int, b: int, bestOf: int)
    ensures CheckScore(a, b) == CheckScore(b, a)
    ensures CheckGamesWon(a, b) == CheckGamesWon(b, a)
    ensures CheckSetsWon(a, b, bestOf) == CheckSetsWon(b, a, bestOf)
  {
  }

  /** The four point scores with both players at 3 or more are rejected, and
      the pairs exercised by the test suite are rejected with the right kind. */
  lemma RejectedScores()
    ensures CheckScore(3, 3) == Fail(InvalidInput) && CheckScore(4, 3) == Fail(InvalidInput)
    ensures CheckScore(3, 4) == Fail(InvalidInput) && CheckScore(4, 4) == Fail(InvalidInput)
    ensures CheckScore(10, 3) == Fail(InvalidInput) && CheckScore(2, 812) == Fail(InvalidInput)
    ensures CheckScore(-1, 0) == Fail(NegativeNumber)
    ensures CheckScore(-1, 5) == Fail(NegativeNumber)
    ensures CheckGamesWon(10, 3) == Fail(InvalidInput) && CheckGamesWon(2, 812) == Fail(InvalidInput)
    ensures CheckGamesWon(5, 5) == Fail(InvalidInput) && CheckGamesWon(-1, 0) == Fail(NegativeNumber)
  {
  }
}
