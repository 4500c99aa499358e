/** tennis_probability/tennis_probability.py: the older single-module
    version, not exported by the package. Its game recursion is the one of
    game.py under stricter error kinds; its set validates games with the
    point-score bounds and evaluates only the general branch, on game()
    of the games counts. */
module Legacy {
  import opened Errors
  import opened Check
  import opened Games

  /** The legacy check_score: the bounds of check.py, but every failure,
      a negative score included, is InvalidScore. */
  function LegacyCheckScore(a: int, b: int): (r: Outcome)
    ensures r.Pass? <==> ValidScore(a, b)
    ensures r.Fail? ==> r.error == InvalidScore
  {
    if a < 0 || b < 0 then Fail(InvalidScore)
    else if a > 4 || b > 4 then Fail(InvalidScore)
    else if a >= 3 && b >= 3 then Fail(InvalidScore)
    else Pass
  }

  /** The legacy check_games: it reuses the point-score bounds (0..4, not
      both at 3 or more) for games and raises InvalidGamesWon. */
  function LegacyCheckGames(a: int, b: int): (r: Outcome)
    ensures r.Pass? <==> ValidScore(a, b)
    ensures r.Fail? ==> r.error == InvalidGamesWon
  {
    if a < 0 || b < 0 then Fail(InvalidGamesWon)
    else if a > 4 || b > 4 then Fail(InvalidGamesWon)
    else if a >= 3 && b >= 3 then Fail(InvalidGamesWon)
    else Pass
  }

  /** Legacy games validation is strictly narrower than check_games_won. */
  lemma LegacyGamesStricter(a: int, b: int)
    ensures LegacyCheckGames(a, b).Pass? ==> CheckGamesWon(a, b).Pass?
    ensures LegacyCheckGames(5, 0).Fail? && CheckGamesWon(5, 0).Pass?
    ensures LegacyCheckGames(3, 3).Fail? && CheckGamesWon(3, 3).Pass?
  {
  }

  /** Combines two recursive results the way the source's arithmetic does:
      the first failure propagates, else the weighted step. */
  function Weigh(q: real, won: Result<real>, lost: Result<real>): (r: Result<real>)
    ensures r.Ok? <==> won.Ok? && lost.Ok?
    ensures won.Err? ==> r == won
    ensures won.Ok? && lost.Err? ==> r == lost
  {
    if won.Err? then won
    else if lost.Err? then lost
    else Ok(Step(q, won.value, lost.value))
  }

  /** The legacy game: the recursion of game.py, each call validating with
      the legacy check_score. Its value agrees with game.py everywhere; only
      the error kind for a bad score differs. */
  function LegacyGame(a: int, b: int, p: real): (r: Result<real>)
    ensures r.Ok? <==> ValidScore(a, b) && ValidProbability(p)
    ensures !ValidScore(a, b) ==> r == Err(InvalidScore)
    ensures ValidScore(a, b) && !ValidProbability(p) ==> r == Err(InvalidProbability)
    ensures r.Ok? ==> r.value == GameValue(a, b, p)
    decreases GameRank(a, b)
  {
    var check := LegacyCheckScore(a, b).Then(CheckProbability(p));
    if check.Fail? then Err(check.error)
    else if a == 4 then Ok(1.0)
    else if b == 4 then Ok(0.0)
    else if a == 2 && b == 2 then Ok(Deuce(p))
    else if a == 3 && b == 2 then Weigh(p, LegacyGame(a + 1, b, p), LegacyGame(a - 1, b, p))
    else if a == 2 && b == 3 then Weigh(p, LegacyGame(a, b - 1, p), LegacyGame(a, b + 1, p))
    else Weigh(p, LegacyGame(a + 1, b, p), LegacyGame(a, b + 1, p))
  }

  /** Where the two versions of game differ: the error kind of a bad score. */
  lemma LegacyGameAgrees(a: int, b: int, p: real)
    ensures LegacyGame(a, b, p).Ok? <==> Game(a, b, p).Ok?
    ensures LegacyGame(a, b, p).Ok? ==> LegacyGame(a, b, p) == Game(a, b, p)
    ensures ValidScore(a, b) ==> LegacyGame(a, b, p) == Game(a, b, p)
    ensures !ValidScore(a, b) ==> Game(a, b, p).error in {NegativeNumber, InvalidInput}
  {
  }

  /** The legacy test suite's rejections. */
  lemma LegacyGameRejections()
    ensures LegacyGame(10, 3, 0.2) == Err(InvalidScore) && LegacyGame(2, 812, 0.5) == Err(InvalidScore)
    ensures LegacyGame(3, 3, 0.51) == Err(InvalidScore) && LegacyGame(-1, 0, 0.5) == Err(InvalidScore)
    ensures LegacyGame(2, 3, 1.0001) == Err(InvalidProbability)
    ensures LegacyGame(1, 0, -1.001) == Err(InvalidProbability)
  {
  }

  /** Termination measure for the legacy set: only the 5-4 branch recurses
      into set, from 5 games to 6. */
  function LegacySetRank(ga: int): nat
  {
    if ga <= 6 then 7 - ga else 0
  }

  /** The legacy set(games_won_a, games_won_b, p, score_a, score_b):
      validates games, then the in-game score, then p; then computes the
      in-game win chance q = game(score_a, score_b, p) and takes the
      branches. */
  function LegacySet(ga: int, gb: int, p: real, sa: int, sb: int): (r: Result<real>)
    ensures r.Ok? <==>
              ValidScore(ga, gb) && ValidScore(sa, sb) && ValidProbability(p)
              && ValidScore(ga + 1, gb) && ValidScore(ga, gb + 1)
    ensures !ValidScore(ga, gb) ==> r == Err(InvalidGamesWon)
    ensures ValidScore(ga, gb) && !ValidScore(sa, sb) ==> r == Err(InvalidScore)
    ensures ValidScore(ga, gb) && ValidScore(sa, sb) && !ValidProbability(p) ==> r == Err(InvalidProbability)
    ensures ValidScore(ga, gb) && ValidScore(sa, sb) && ValidProbability(p) && r.Err? ==> r.error == InvalidScore
    ensures r.Ok? ==> r.value == Step(GameValue(sa, sb, p), GameValue(ga + 1, gb, p), GameValue(ga, gb + 1, p))
    decreases LegacySetRank(ga), 1
  {
    var check := LegacyCheckGames(ga, gb).Then(LegacyCheckScore(sa, sb)).Then(CheckProbability(p));
    if check.Fail? then Err(check.error)
    else
      var g := LegacyGame(sa, sb, p);
      if g.Err? then g else LegacySetBranches(ga, gb, p, g.value)
  }

  /** The branches of the legacy set, with q the in-game win chance. Each
      branch calls game() on games counts; the 5-4 branch calls set. On
      games the legacy validation accepts, only the last branch is taken:
      6 games, 4-4, 5-4 and 4-5 are all rejected before. */
  function LegacySetBranches(ga: int, gb: int, p: real, q: real): (r: Result<real>)
    ensures ValidScore(ga, gb) ==>
              (r.Ok? <==> ValidProbability(p) && ValidScore(ga + 1, gb) && ValidScore(ga, gb + 1))
    ensures ValidScore(ga, gb) && ValidProbability(p) && r.Err? ==> r.error == InvalidScore
    ensures ValidScore(ga, gb) && r.Ok? ==>
              r.value == Step(q, GameValue(ga + 1, gb, p), GameValue(ga, gb + 1, p))
    decreases LegacySetRank(ga), 0
  {
    if ga == 6 then Ok(1.0)
    else if gb == 6 then Ok(0.0)
    else if ga == 4 && gb == 4 then Ok(Deuce(q))
    else if ga == 5 && gb == 4 then Weigh(q, LegacySet(ga + 1, gb, p, 0, 0), LegacyGame(ga - 1, gb, p))
    else if ga == 4 && gb == 5 then Weigh(q, LegacyGame(ga, gb - 1, p), LegacyGame(ga, gb + 1, p))
    else Weigh(q, LegacyGame(ga + 1, gb, p), LegacyGame(ga, gb + 1, p))
  }

  /** From 4 games to 0 the general branch asks game() for 5 points, which
      the legacy check_score rejects. */
  lemma LegacySetFourLove(p: real)
    requires ValidProbability(p)
    ensures LegacySet(4, 0, p, 0, 0) == Err(InvalidScore)
  {
  }

  /** Every successful legacy set starts strictly inside the point grid, so
      none reaches a decided set, the 4-4 closed form or an advantage
      state: those branches are dead. */
  lemma LegacySetReachesOnlyGeneral(ga: int, gb: int, p: real, sa: int, sb: int)
    ensures LegacySet(ga, gb, p, sa, sb).Ok? ==>
              0 <= ga <= 3 && 0 <= gb <= 3 && !(ga >= 2 && gb >= 3) && !(ga >= 3 && gb >= 2)
    ensures LegacySet(ga, gb, p, sa, sb).Ok? ==>
              ga != 6 && gb != 6 && !(ga == 4 && gb == 4) && !(ga == 5 && gb == 4) && !(ga == 4 && gb == 5)
  {
  }
}
