/** tennis_probability/match.py: the probability that player A wins a match
    of `bestOf` sets (first to Winning(bestOf) sets) from a sets-won score.
    Every set is an independent set from 0-0. */
module Matches {
  import opened Errors
  import opened Check
  import opened Games
  import opened Sets

  /** The number of sets given to match() when the caller names none. */
  const DefaultBestOf: int := 5

  /** winning = ceil(best_out_of_n_sets / 2): the sets needed to win. */
  function Winning(bestOf: int): (w: int)
    requires bestOf >= 0
    ensures 2 * w - 1 <= bestOf <= 2 * w
    ensures 0 <= w <= bestOf || bestOf == w == 0
  {
    (bestOf + 1) / 2
  }

  /** The chance of winning one set, the step weight of the match recursion:
      set(0, 0, p), which cannot fail for a valid p. */
  function SetWin(p: real): (q: real)
    requires ValidProbability(p)
    ensures ValidProbability(q)
  {
    SetValue(0, 0, GameWin(p))
  }

  /** The step weight is the source's `p_set = set(0, 0, p)`. */
  lemma SetWinIsSet(p: real)
    requires ValidProbability(p)
    ensures Set(0, 0, p) == Ok(SetWin(p))
  {
  }

  /** The scores from which the match recursion returns a value: a decided
      match, or one where neither player has reached the winning count yet.
      From any other score within range some branch of the recursion climbs
      past bestOf without meeting a terminal. */
  predicate Reachable(a: int, b: int, bestOf: int)
    requires bestOf >= 0
  {
    var w := Winning(bestOf);
    a == w || b == w || (a < w && b < w)
  }

  /** match(sets_won_a, sets_won_b, p, best_out_of_n_sets): validates
      bestOf, then the sets, then p, and only then evaluates the recursion. */
  function Match(a: int, b: int, p: real, bestOf: int): (r: Result<real>)
    ensures r.Ok? <==>
              bestOf >= 0 && ValidSets(a, b, bestOf) && ValidProbability(p) && Reachable(a, b, bestOf)
    ensures bestOf < 0 ==> r == Err(NegativeNumber)
    ensures bestOf >= 0 && !ValidSets(a, b, bestOf) ==> r == Err(CheckSetsWon(a, b, bestOf).error)
    ensures bestOf >= 0 && ValidSets(a, b, bestOf) && !ValidProbability(p) ==> r == Err(InvalidProbability)
    ensures bestOf >= 0 && ValidSets(a, b, bestOf) && ValidProbability(p) && !Reachable(a, b, bestOf) ==>
              r == Err(InvalidInput)
    ensures r.Ok? ==> ValidProbability(r.value)
  {
    NotNegativeSingle(bestOf);
    var check := CheckNotNegative([bestOf]).Then(CheckSetsWon(a, b, bestOf)).Then(CheckProbability(p));
    if check.Fail? then Err(check.error) else MatchFrom(a, b, SetWin(p), bestOf)
  }

  /** The recursion of match.py from non-negative sets, where q is the chance
      of winning one set. The source recomputes q = set(0, 0, p) in every
      call; it is the same value each time, so it is passed down here. Of the
      validation each recursive call repeats, only the upper bound on the sets
      can fail; it does so once a branch climbs past bestOf. The first
      recursive call is evaluated, and its error propagated, before the
      second. */
  function MatchFrom(a: int, b: int, q: real, bestOf: int): (r: Result<real>)
    requires 0 <= a && 0 <= b && bestOf >= 0 && ValidProbability(q)
    ensures r.Ok? <==> ValidSets(a, b, bestOf) && Reachable(a, b, bestOf)
    ensures r.Err? ==> r.error == InvalidInput
    ensures r.Ok? ==> ValidProbability(r.value)
    decreases 2 * bestOf + 2 - a - b
  {
    var w := Winning(bestOf);
    if a > bestOf || b > bestOf then Err(InvalidInput)
    else if a == w then Ok(1.0)
    else if b == w then Ok(0.0)
    else
      var up := MatchFrom(a + 1, b, q, bestOf);
      if up.Err? then up
      else
        var down := MatchFrom(a, b + 1, q, bestOf);
        if down.Err? then down
        else
          StepIsProbability(q, up.value, down.value);
          Ok(Step(q, up.value, down.value))
  }

  /** The test suite's rejections: bestOf and the sets are checked before
      p, and a score past the winning count fails deeper in the recursion. */
  lemma MatchRejections()
    ensures Match(-1, 0, 0.9, DefaultBestOf) == Err(NegativeNumber)
    ensures Match(10, 3, 0.2, DefaultBestOf) == Err(InvalidInput)
    ensures Match(2, 812, 0.5, DefaultBestOf) == Err(InvalidInput)
    ensures Match(5, 5, 0.51, DefaultBestOf) == Err(InvalidInput)
    ensures Match(2, 3, 1.0001, DefaultBestOf) == Err(InvalidProbability)
    ensures Match(1, 0, -1.001, DefaultBestOf) == Err(InvalidProbability)
    ensures Match(0, 0, 0.5, -1) == Err(NegativeNumber)
  {
    assert Winning(DefaultBestOf) == 3;
  }

  /** The terminals: A at the winning count gives 1, tested first, so a
      score with both players at the winning count also gives 1; otherwise
      B at the winning count gives 0. */
  lemma MatchTerminal(a: int, b: int, p: real, bestOf: int)
    requires bestOf >= 0 && ValidSets(a, b, bestOf) && ValidProbability(p)
    ensures a == Winning(bestOf) ==> Match(a, b, p, bestOf) == Ok(1.0)
    ensures a != Winning(bestOf) && b == Winning(bestOf) ==> Match(a, b, p, bestOf) == Ok(0.0)
  {
  }

  /** From an open score the match is one set-step of lookahead over the
      two successor scores, both of which succeed. */
  lemma MatchLookahead(a: int, b: int, p: real, bestOf: int)
    requires bestOf >= 0 && 0 <= a < Winning(bestOf) && 0 <= b < Winning(bestOf) && ValidProbability(p)
    ensures Match(a + 1, b, p, bestOf).Ok? && Match(a, b + 1, p, bestOf).Ok?
    ensures Match(a, b, p, bestOf) ==
              Ok(Step(SetWin(p), Match(a + 1, b, p, bestOf).value, Match(a, b + 1, p, bestOf).value))
  {
  }

  /** The set-win chance complements under mirrored point odds. */
  lemma SetWinMirror(p: real)
    requires ValidProbability(p)
    ensures SetWin(1.0 - p) == 1.0 - SetWin(p)
  {
    GameValueMirror(0, 0, p);
    SetValueMirror(0, 0, GameWin(p));
  }

  /** Mirror symmetry of the recursion in its set-win weight, everywhere
      except the score where both players hold the winning count. */
  lemma {:induction false} MatchFromMirror(a: int, b: int, q: real, bestOf: int)
    requires 0 <= a && 0 <= b && bestOf >= 0 && ValidProbability(q)
    requires !(a == Winning(bestOf) && b == Winning(bestOf))
    ensures MatchFrom(b, a, 1.0 - q, bestOf) == Flip(MatchFrom(a, b, q, bestOf))
    decreases 2 * bestOf + 2 - a - b
  {
    var w := Winning(bestOf);
    if a > bestOf || b > bestOf || !Reachable(a, b, bestOf) {
      assert MatchFrom(a, b, q, bestOf).Err? && MatchFrom(b, a, 1.0 - q, bestOf).Err?;
    } else if a == w || b == w {
    } else {
      MatchFromMirror(a + 1, b, q, bestOf);
      MatchFromMirror(a, b + 1, q, bestOf);
      MirrorStep(a, b, q, bestOf);
    }
  }

  /** The inductive step of MatchFromMirror at an open score, given the
      mirror property of both successors. */
  lemma MirrorStep(a: int, b: int, q: real, bestOf: int)
    requires bestOf >= 0 && 0 <= a < Winning(bestOf) && 0 <= b < Winning(bestOf) && ValidProbability(q)
    ensures MatchFrom(b + 1, a, 1.0 - q, bestOf) == Flip(MatchFrom(a, b + 1, q, bestOf)) &&
            MatchFrom(b, a + 1, 1.0 - q, bestOf) == Flip(MatchFrom(a + 1, b, q, bestOf)) ==>
              MatchFrom(b, a, 1.0 - q, bestOf) == Flip(MatchFrom(a, b, q, bestOf))
  {
    if MatchFrom(b + 1, a, 1.0 - q, bestOf) == Flip(MatchFrom(a, b + 1, q, bestOf)) &&
       MatchFrom(b, a + 1, 1.0 - q, bestOf) == Flip(MatchFrom(a + 1, b, q, bestOf)) {
      var up, down := MatchFrom(a + 1, b, q, bestOf).value, MatchFrom(a, b + 1, q, bestOf).value;
      assert MatchFrom(a, b, q, bestOf) == Ok(Step(q, up, down));
      assert MatchFrom(b, a, 1.0 - q, bestOf) == Ok(Step(1.0 - q, 1.0 - down, 1.0 - up));
      StepMirror(q, up, down);
    }
  }

  /** Mirror symmetry of match(): swapping the players and the point odds
      complements the value, with errors unchanged, except at the score
      where both players hold the winning count. */
  lemma MatchMirror(a: int, b: int, p: real, bestOf: int)
    requires !(bestOf >= 0 && a == Winning(bestOf) && b == Winning(bestOf))
    ensures Match(b, a, 1.0 - p, bestOf) == Flip(Match(a, b, p, bestOf))
  {
    if bestOf >= 0 && ValidSets(a, b, bestOf) && ValidProbability(p) {
      SetWinMirror(p);
      MatchFromMirror(a, b, SetWin(p), bestOf);
    }
  }

  /** At the score where both players hold the winning count the mirror
      symmetry fails: the test of A comes first, so both the score and its
      mirror are worth 1 to A. */
  lemma MatchMirrorFailsWhenBothWon(p: real, bestOf: int)
    requires bestOf >= 0 && ValidProbability(p)
    ensures Match(Winning(bestOf), Winning(bestOf), p, bestOf) == Ok(1.0)
    ensures Match(Winning(bestOf), Winning(bestOf), 1.0 - p, bestOf) == Ok(1.0)
    ensures Match(Winning(bestOf), Winning(bestOf), 1.0 - p, bestOf)
         != Flip(Match(Winning(bestOf), Winning(bestOf), p, bestOf))
  {
  }

  /** With a zero set-win chance the match is won only if already won. */
  lemma {:induction false} MatchFromAtZero(a: int, b: int, bestOf: int)
    requires 0 <= a && 0 <= b && bestOf >= 0
    requires ValidSets(a, b, bestOf) && Reachable(a, b, bestOf)
    ensures MatchFrom(a, b, 0.0, bestOf).value == if a == Winning(bestOf) then 1.0 else 0.0
    decreases 2 * bestOf + 2 - a - b
  {
    var w := Winning(bestOf);
    if a != w && b != w {
      MatchFromAtZero(a, b + 1, bestOf);
    }
  }

  /** With a certain set-win chance the match is won unless already lost. */
  lemma {:induction false} MatchFromAtOne(a: int, b: int, bestOf: int)
    requires 0 <= a && 0 <= b && bestOf >= 0
    requires ValidSets(a, b, bestOf) && Reachable(a, b, bestOf)
    ensures MatchFrom(a, b, 1.0, bestOf).value ==
              if b == Winning(bestOf) && a != Winning(bestOf) then 0.0 else 1.0
    decreases 2 * bestOf + 2 - a - b
  {
    var w := Winning(bestOf);
    if a != w && b != w {
      MatchFromAtOne(a + 1, b, bestOf);
    }
  }

  /** p = 0 loses every match not already won. */
  lemma MatchLosesAtZero(a: int, b: int, bestOf: int)
    requires bestOf >= 0 && ValidSets(a, b, bestOf) && Reachable(a, b, bestOf)
    ensures Match(a, b, 0.0, bestOf) == Ok(if a == Winning(bestOf) then 1.0 else 0.0)
  {
    GameAtZero(0, 0);
    SetAtZero(0, 0);
    MatchFromAtZero(a, b, bestOf);
  }

  /** p = 1 wins every match not already lost. */
  lemma MatchWinsAtOne(a: int, b: int, bestOf: int)
    requires bestOf >= 0 && ValidSets(a, b, bestOf) && Reachable(a, b, bestOf)
    ensures Match(a, b, 1.0, bestOf) ==
              Ok(if b == Winning(bestOf) && a != Winning(bestOf) then 0.0 else 1.0)
  {
    SetWinsAtOne(0, 0);
    MatchFromAtOne(a, b, bestOf);
  }

  /** With even point odds every tied open score is an even match. */
  lemma MatchEvenOdds(a: int, bestOf: int)
    requires bestOf >= 0 && 0 <= a < Winning(bestOf)
    ensures Match(a, a, 0.5, bestOf) == Ok(0.5)
  {
    MatchMirror(a, a, 0.5, bestOf);
  }

  /** The exact values of the test suite at p = 0 and p = 1, in a
      best-of-five match. */
  lemma MatchScenariosExtremes()
    ensures Match(0, 0, 0.0, DefaultBestOf) == Ok(0.0)
    ensures Match(0, 0, 1.0, DefaultBestOf) == Ok(1.0)
  {
    MatchLosesAtZero(0, 0, DefaultBestOf);
    MatchWinsAtOne(0, 0, DefaultBestOf);
  }

  /** The exact value of the test suite at even odds. */
  lemma MatchScenarioEven()
    ensures Match(0, 0, 0.5, DefaultBestOf) == Ok(0.5)
  {
    MatchEvenOdds(0, DefaultBestOf);
  }
}
