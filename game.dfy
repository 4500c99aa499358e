/** tennis_probability/game.py: the probability that player A wins a game
    from a given point score, when A wins each point with probability p. */
module Games {
  import opened Errors
  import opened Check

  /** The denominator of the deuce closed form, 1 - 2q + 2q^2. It equals
      q^2 + (1-q)^2, so it is positive for every real q. */
  function DeuceDenominator(q: real): (d: real)
    ensures d == q * q + (1.0 - q) * (1.0 - q)
    ensures d > 0.0
  {
    var d := 1.0 - 2.0 * q + 2.0 * (q * q);
    assert d == q * q + (1.0 - q) * (1.0 - q);
    assert q * q >= 0.0 && (1.0 - q) * (1.0 - q) >= 0.0;
    assert q == 0.0 || q * q > 0.0;
    d
  }

  /** The chance of winning from a tie that must be broken by a two-step
      margin, q^2 / (1 - 2q + 2q^2), when each step is won with chance q.
      Used at deuce in a game (2-2) and at 4-4 in a set. */
  function Deuce(q: real): (r: real)
    ensures ValidProbability(q) ==> ValidProbability(r)
  {
    var d := DeuceDenominator(q);
    assert q * q <= d;
    q * q / d
  }

  /** One-step lookahead: win the next step with chance q and go to a state
      worth `won`, or lose it and go to a state worth `lost`. */
  function Step(q: real, won: real, lost: real): (r: real)
  {
    q * won + (1.0 - q) * lost
  }

  /** Scaling by a probability never enlarges a non-negative quantity. */
  lemma Scale(q: real, x: real)
    requires ValidProbability(q) && x >= 0.0
    ensures 0.0 <= q * x <= x
  {
    assert (1.0 - q) * x >= 0.0;
  }

  /** A step with a valid weight lands between its two successor values. */
  lemma StepBetween(q: real, won: real, lost: real)
    requires ValidProbability(q)
    ensures won <= lost ==> won <= Step(q, won, lost) <= lost
    ensures lost <= won ==> lost <= Step(q, won, lost) <= won
  {
    if won <= lost {
      StepBelow(1.0 - q, lost, won);
      assert Step(q, won, lost) == Step(1.0 - q, lost, won);
    } else {
      StepBelow(q, won, lost);
    }
  }

  lemma StepBelow(q: real, hi: real, lo: real)
    requires ValidProbability(q) && lo <= hi
    ensures lo <= Step(q, hi, lo) <= hi
  {
    var d := hi - lo;
    Scale(q, d);
    assert q * d <= d;
    assert Step(q, hi, lo) == lo + q * d;
  }

  /** Hence a step between two probabilities is a probability. */
  lemma StepIsProbability(q: real, won: real, lost: real)
    requires ValidProbability(q) && ValidProbability(won) && ValidProbability(lost)
    ensures ValidProbability(Step(q, won, lost))
  {
    StepBetween(q, won, lost);
  }

  /** Termination measure for the game recursion. Deuce (2-2) is cut by the
      closed form and ranks lowest, so the backward steps 3-2 -> 2-2 and
      2-3 -> 2-2 go down; every other step adds a point. */
  function GameRank(a: int, b: int): nat
  {
    if a == 2 && b == 2 then 0 else if a + b <= 10 then 10 - a - b else 0
  }

  /** game(score_a, score_b, p): validates the score, then p, and only then
      evaluates the recursion. */
  function Game(a: int, b: int, p: real): (r: Result<real>)
    ensures r.Ok? <==> ValidScore(a, b) && ValidProbability(p)
    ensures !ValidScore(a, b) ==> r == Err(CheckScore(a, b).error)
    ensures ValidScore(a, b) && !ValidProbability(p) ==> r == Err(InvalidProbability)
    ensures r.Ok? ==> r.value == GameValue(a, b, p) && ValidProbability(r.value)
  {
    var check := CheckScore(a, b).Then(CheckProbability(p));
    if check.Fail? then Err(check.error) else Ok(GameValue(a, b, p))
  }

  /** The recursion of game.py on a validated score. Each recursive call of
      the source validates its arguments again; the precondition of the
      recursive calls below proves that this validation always passes, so
      no error can arise below the top call. */
  function GameValue(a: int, b: int, p: real): (r: real)
    requires ValidScore(a, b) && ValidProbability(p)
    ensures ValidProbability(r)
    decreases GameRank(a, b)
  {
    if a == 4 then 1.0
    else if b == 4 then 0.0
    else if a == 2 && b == 2 then Deuce(p)
    else if a == 3 && b == 2 then
      var won, lost := GameValue(a + 1, b, p), GameValue(a - 1, b, p);
      StepIsProbability(p, won, lost);
      Step(p, won, lost)
    else if a == 2 && b == 3 then
      var won, lost := GameValue(a, b - 1, p), GameValue(a, b + 1, p);
      StepIsProbability(p, won, lost);
      Step(p, won, lost)
    else
      var won, lost := GameValue(a + 1, b, p), GameValue(a, b + 1, p);
      StepIsProbability(p, won, lost);
      Step(p, won, lost)
  }

  /** The deuce value solves its own one-step lookahead: from the tie, win a
      step to reach advantage (worth q + (1-q)·D) or lose it to reach
      disadvantage (worth q·D). */
  lemma DeuceFixpoint(q: real)
    ensures Deuce(q) == Step(q, Step(q, 1.0, Deuce(q)), Step(q, Deuce(q), 0.0))
  {
    var d := DeuceDenominator(q);
    var x := Deuce(q);
    assert x * d == q * q;
    var rhs := Step(q, Step(q, 1.0, x), Step(q, x, 0.0));
    assert rhs == q * q + 2.0 * q * (1.0 - q) * x;
    assert x - rhs == x * d - q * q;
  }

  /** The deuce value seen from the other side: D(1-q) = 1 - D(q). */
  lemma DeuceMirror(q: real)
    ensures Deuce(1.0 - q) == 1.0 - Deuce(q)
  {
    var d := DeuceDenominator(q);
    assert DeuceDenominator(1.0 - q) == d;
    var x, y := Deuce(q), Deuce(1.0 - q);
    assert x * d == q * q;
    assert y * d == (1.0 - q) * (1.0 - q);
    assert (x + y - 1.0) * d == 0.0;
  }

  /** Swapping the players and the point odds turns a step into its complement. */
  lemma StepMirror(q: real, won: real, lost: real)
    ensures Step(1.0 - q, 1.0 - lost, 1.0 - won) == 1.0 - Step(q, won, lost)
  {
  }

  /** The rejections exercised by the test suite. A negative score raises
      NegativeNumber (the suite expects InvalidInput there; the guard raises
      NegativeNumber first). The score is checked before p, so a bad score
      with a bad p reports the score. */
  lemma GameRejections()
    ensures Game(10, 3, 0.2) == Err(InvalidInput) && Game(2, 812, 0.5) == Err(InvalidInput)
    ensures Game(3, 3, 0.51) == Err(InvalidInput) && Game(-1, 0, 0.9) == Err(NegativeNumber)
    ensures Game(2, 3, 1.0001) == Err(InvalidProbability) && Game(1, 0, -1.001) == Err(InvalidProbability)
    ensures Game(3, 3, 2.0) == Err(InvalidInput) && Game(-1, 7, -1.0) == Err(NegativeNumber)
  {
  }

  /** A score of 4 ends the game: 1 for A, 0 for B. */
  lemma GameTerminal(a: int, b: int, p: real)
    requires ValidProbability(p)
    ensures ValidScore(4, b) ==> Game(4, b, p) == Ok(1.0)
    ensures ValidScore(a, 4) ==> Game(a, 4, p) == Ok(0.0)
  {
  }

  /** The closed form at deuce agrees with the one-step lookahead that the
      advantage states perform. */
  lemma GameDeuceLookahead(p: real)
    requires ValidProbability(p)
    ensures GameValue(2, 2, p) == Step(p, GameValue(3, 2, p), GameValue(2, 3, p))
  {
    DeuceFixpoint(p);
  }

  /** Mirror symmetry: B's chance of winning from the swapped score with the
      complementary point probability is A's chance of losing. */
  lemma {:induction false} GameValueMirror(a: int, b: int, p: real)
    requires ValidScore(a, b) && ValidProbability(p)
    ensures GameValue(b, a, 1.0 - p) == 1.0 - GameValue(a, b, p)
    decreases GameRank(a, b)
  {
    if a == 4 || b == 4 {
    } else if a == 2 && b == 2 {
      DeuceMirror(p);
    } else if a == 3 && b == 2 {
      GameValueMirror(a - 1, b, p);
      StepMirror(p, 1.0, GameValue(a - 1, b, p));
    } else if a == 2 && b == 3 {
      GameValueMirror(a, b - 1, p);
      StepMirror(p, GameValue(a, b - 1, p), 0.0);
    } else {
      GameValueMirror(a + 1, b, p);
      GameValueMirror(a, b + 1, p);
      StepMirror(p, GameValue(a + 1, b, p), GameValue(a, b + 1, p));
    }
  }

  /** The same symmetry for the validated function, errors included. */
  lemma GameMirror(a: int, b: int, p: real)
    ensures Game(b, a, 1.0 - p) == Flip(Game(a, b, p))
  {
    if ValidScore(a, b) && ValidProbability(p) {
      GameValueMirror(a, b, p);
    }
  }

  /** A player who never wins a point wins only a game already won. */
  lemma {:induction false} GameAtZero(a: int, b: int)
    requires ValidScore(a, b)
    ensures GameValue(a, b, 0.0) == if a == 4 then 1.0 else 0.0
    decreases GameRank(a, b)
  {
    if a == 4 || b == 4 || (a == 2 && b == 2) {
    } else if a == 3 && b == 2 {
      GameAtZero(a - 1, b);
    } else if a == 2 && b == 3 {
      GameAtZero(a, b + 1);
    } else {
      GameAtZero(a, b + 1);
    }
  }

  /** A player who wins every point wins every game not already lost. */
  lemma GameAtOne(a: int, b: int)
    requires ValidScore(a, b)
    ensures GameValue(a, b, 1.0) == if b == 4 then 0.0 else 1.0
  {
    GameAtZero(b, a);
    GameValueMirror(b, a, 0.0);
  }

  /** With even point odds, every tied score is an even game. */
  lemma GameEvenOdds(a: int)
    requires ValidScore(a, a)
    ensures GameValue(a, a, 0.5) == 0.5
  {
    GameValueMirror(a, a, 0.5);
  }

  /** Two of the values the test suite checks to ten decimal places:
      game(2,1,0.78) and game(3,2,0.13). */
  lemma GameScenarios()
    ensures 0.98100609495 <= GameValue(2, 1, 0.78) <= 0.98100609505
    ensures 0.14900103385 <= GameValue(3, 2, 0.13) <= 0.14900103395
  {
  }

  /** The third value the test suite checks, game(0,0,0.51). The
      assertions give the exact rational value of every state the
      computation passes through. */
  lemma GameFromLoveScenario()
    ensures GameValue(0, 0, 0.51) == 3282468759999.0 / 6252500000000.0
    ensures 0.52498500755 <= GameValue(0, 0, 0.51) <= 0.52498500765
  {
    var p := 0.51;
    assert GameValue(2, 2, p) == 2601.0 / 5002.0;
    assert GameValue(3, 2, p) == 382551.0 / 500200.0;
    assert GameValue(2, 3, p) == 132651.0 / 500200.0;
    assert GameValue(3, 1, p) == 44255199.0 / 50020000.0;
    assert GameValue(1, 3, p) == 6765201.0 / 50020000.0;
    assert GameValue(3, 0, p) == 4719524751.0 / 5002000000.0;
    assert GameValue(2, 1, p) == 3531505149.0 / 5002000000.0;
    assert GameValue(1, 2, p) == 1658004849.0 / 5002000000.0;
    assert GameValue(0, 3, p) == 345025251.0 / 5002000000.0;
    assert GameValue(2, 0, p) == 206869757301.0 / 250100000000.0;
    assert GameValue(1, 1, p) == 1306745001.0 / 2501000000.0;
    assert GameValue(0, 2, p) == 50732242299.0 / 250100000000.0;
    assert GameValue(1, 0, p) == 16953408127251.0 / 25010000000000.0;
    assert GameValue(0, 1, p) == 9150279377751.0 / 25010000000000.0;
    assert GameValue(0, 0, p) == 3282468759999.0 / 6252500000000.0;
  }
}
