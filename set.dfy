/** tennis_probability/set.py: the probability that player A wins a set
    (first to six games, won by two, no tie-break) from a games-won score.
    Every game is an independent game from love, so the chance of taking a
    game is the game value at 0-0. */
module Sets {
  import opened Errors
  import opened Check
  import opened Games

  /** The chance of winning one game, the step weight of the set recursion:
      game(0, 0, p), which cannot fail for a valid p. */
  function GameWin(p: real): (q: real)
    requires ValidProbability(p)
    ensures ValidProbability(q)
  {
    GameValue(0, 0, p)
  }

  /** The step weight is the source's `p_game = game(0, 0, p)`. */
  lemma GameWinIsGame(p: real)
    requires ValidProbability(p)
    ensures Game(0, 0, p) == Ok(GameWin(p))
  {
  }

  /** set(games_won_a, games_won_b, p): validates the games, then p, and only
      then evaluates the recursion with the game-win chance as its weight. */
  function Set(a: int, b: int, p: real): (r: Result<real>)
    ensures r.Ok? <==> ValidGames(a, b) && ValidProbability(p)
    ensures !ValidGames(a, b) ==> r == Err(CheckGamesWon(a, b).error)
    ensures ValidGames(a, b) && !ValidProbability(p) ==> r == Err(InvalidProbability)
    ensures r.Ok? ==> ValidProbability(r.value)
  {
    var check := CheckGamesWon(a, b).Then(CheckProbability(p));
    if check.Fail? then Err(check.error) else Ok(SetValue(a, b, GameWin(p)))
  }

  /** Termination measure for the set recursion: 4-4 is cut by the closed
      form and ranks lowest, below the advantage states 5-4 and 4-5. */
  function SetRank(a: int, b: int): nat
  {
    if a == 4 && b == 4 then 0 else if a + b <= 14 then 14 - a - b else 0
  }

  /** The recursion of set.py on validated games, where q is the chance of
      winning one game. The source recomputes q = game(0, 0, p) in every
      call; it is the same value each time, so it is passed down here. The
      precondition of each recursive call proves that the validation the
      source repeats there always passes. */
  function SetValue(a: int, b: int, q: real): (r: real)
    requires ValidGames(a, b) && ValidProbability(q)
    ensures ValidProbability(r)
    decreases SetRank(a, b)
  {
    if a == 6 then 1.0
    else if b == 6 then 0.0
    else if a == 4 && b == 4 then Deuce(q)
    else if a == 5 && b == 4 then
      var won, lost := SetValue(a + 1, b, q), SetValue(a - 1, b, q);
      StepIsProbability(q, won, lost);
      Step(q, won, lost)
    else if a == 4 && b == 5 then
      var won, lost := SetValue(a, b - 1, q), SetValue(a, b + 1, q);
      StepIsProbability(q, won, lost);
      Step(q, won, lost)
    else
      var won, lost := SetValue(a + 1, b, q), SetValue(a, b + 1, q);
      StepIsProbability(q, won, lost);
      Step(q, won, lost)
  }

  /** The rejections exercised by the test suite: games are checked before p. */
  lemma SetRejections()
    ensures Set(10, 3, 0.2) == Err(InvalidInput) && Set(2, 812, 0.5) == Err(InvalidInput)
    ensures Set(5, 5, 0.51) == Err(InvalidInput) && Set(-1, 0, 0.9) == Err(NegativeNumber)
    ensures Set(2, 3, 1.0001) == Err(InvalidProbability) && Set(1, 0, -1.001) == Err(InvalidProbability)
    ensures Set(5, 5, 2.0) == Err(InvalidInput)
  {
  }

  /** Six games end the set: 1 for A, 0 for B. */
  lemma SetTerminal(a: int, b: int, p: real)
    requires ValidProbability(p)
    ensures ValidGames(6, b) ==> Set(6, b, p) == Ok(1.0)
    ensures ValidGames(a, 6) ==> Set(a, 6, p) == Ok(0.0)
  {
  }

  /** The closed form at 4-4 agrees with the lookahead through 5-4 and 4-5. */
  lemma SetDeuceLookahead(q: real)
    requires ValidProbability(q)
    ensures SetValue(4, 4, q) == Step(q, SetValue(5, 4, q), SetValue(4, 5, q))
  {
    DeuceFixpoint(q);
  }

  /** Mirror symmetry of the set recursion in its game-win weight. */
  lemma {:induction false} SetValueMirror(a: int, b: int, q: real)
    requires ValidGames(a, b) && ValidProbability(q)
    ensures SetValue(b, a, 1.0 - q) == 1.0 - SetValue(a, b, q)
    decreases SetRank(a, b)
  {
    if a == 6 || b == 6 {
    } else if a == 4 && b == 4 {
      DeuceMirror(q);
    } else if a == 5 && b == 4 {
      SetValueMirror(a - 1, b, q);
      StepMirror(q, 1.0, SetValue(a - 1, b, q));
    } else if a == 4 && b == 5 {
      SetValueMirror(a, b - 1, q);
      StepMirror(q, SetValue(a, b - 1, q), 0.0);
    } else {
      SetValueMirror(a + 1, b, q);
      SetValueMirror(a, b + 1, q);
      StepMirror(q, SetValue(a + 1, b, q), SetValue(a, b + 1, q));
    }
  }

  /** Mirror symmetry of set(): swapping the players and the point odds
      complements the value; errors agree. */
  lemma SetMirror(a: int, b: int, p: real)
    ensures Set(b, a, 1.0 - p) == Flip(Set(a, b, p))
  {
    if ValidGames(a, b) && ValidProbability(p) {
      GameValueMirror(0, 0, p);
      SetValueMirror(a, b, GameWin(p));
    }
  }

  /** A player who never wins a game wins only a set already won. */
  lemma {:induction false} SetAtZero(a: int, b: int)
    requires ValidGames(a, b)
    ensures SetValue(a, b, 0.0) == if a == 6 then 1.0 else 0.0
    decreases SetRank(a, b)
  {
    if a == 6 || b == 6 || (a == 4 && b == 4) {
    } else if a == 5 && b == 4 {
      SetAtZero(a - 1, b);
    } else {
      SetAtZero(a, b + 1);
    }
  }

  /** At the level of set(): with p = 0 player A wins only a set already
      won. */
  lemma SetLosesAtZero(a: int, b: int)
    requires ValidGames(a, b)
    ensures Set(a, b, 0.0) == Ok(if a == 6 then 1.0 else 0.0)
  {
    GameAtZero(0, 0);
    SetAtZero(a, b);
  }

  /** With p = 1 player A wins every set not already lost. */
  lemma SetWinsAtOne(a: int, b: int)
    requires ValidGames(a, b)
    ensures Set(a, b, 1.0) == Ok(if b == 6 then 0.0 else 1.0)
  {
    GameAtOne(0, 0);
    SetAtZero(b, a);
    SetValueMirror(b, a, 0.0);
  }

  /** With even odds a tied score is an even set. */
  lemma SetEvenOdds(a: int)
    requires ValidGames(a, a)
    ensures Set(a, a, 0.5) == Ok(0.5)
  {
    SetMirror(a, a, 0.5);
  }

  /** The lru_cache table in front of set(): a map from the full argument
      triple, p included, to the value computed for it. Only successful calls
      are stored (an exception is not cached), and an entry is never changed
      or removed. */
  class SetCache {
    var table: map<(int, int, real), real>

    /** Every entry is the value of the uncached function at its key. */
    ghost predicate Valid()
      reads this
    {
      forall key :: key in table ==> Set(key.0, key.1, key.2) == Ok(table[key])
    }

    constructor ()
      ensures Valid() && table == map[]
    {
      table := map[];
    }

    /** A cached call of the decorated set(): answers from the table when the
        key is present; otherwise validates, evaluates the branches of
        set.py with every recursive call going through the cache again, and
        records the value. So a miss also fills the table with the sub-scores
        its recursion visits. The answer is always the uncached function's;
        existing entries never change, every new entry is for this p, and a
        rejected call (an exception is not cached) leaves the table alone. */
    method Call(a: int, b: int, p: real) returns (r: Result<real>)
      requires Valid()
      modifies this
      ensures Valid()
      ensures r == Set(a, b, p)
      ensures (a, b, p) in old(table) ==> table == old(table)
      ensures r.Err? ==> table == old(table)
      ensures r.Ok? ==> (a, b, p) in table
      ensures r.Ok? && (a, b, p) !in old(table) ==> Successors(a, b, p) <= table.Keys
      ensures Keeps(old(table), table)
      ensures forall key :: key in table && key !in old(table) ==> key.2 == p
      decreases SetRank(a, b), 3
    {
      if (a, b, p) in table {
        return Ok(table[(a, b, p)]);
      }
      var check := CheckGamesWon(a, b).Then(CheckProbability(p));
      if check.Fail? {
        return Err(check.error);
      }
      var v := Evaluate(a, b, p);
      table := table[(a, b, p) := v];
      r := Ok(v);
    }

    /** The branches of set.py on validated arguments, each recursive call
        going through the cache. */
    method Evaluate(a: int, b: int, p: real) returns (v: real)
      requires Valid() && ValidGames(a, b) && ValidProbability(p)
      modifies this
      ensures Valid()
      ensures v == SetValue(a, b, GameWin(p))
      ensures Keeps(old(table), table)
      ensures forall key :: key in table && key !in old(table) ==> key.2 == p
      ensures Successors(a, b, p) <= table.Keys
      decreases SetRank(a, b), 2
    {
      if a == 6 {
        return 1.0;
      } else if b == 6 {
        return 0.0;
      }
      if a == 4 && b == 4 {
        return Deuce(GameWin(p));
      }
      v := Advance(a, b, p);
    }

    /** The three step branches of set.py, away from a won set and from 4-4:
        the two successors are looked up through the cache in the source's
        order and weighed by the chance of winning a game. */
    method Advance(a: int, b: int, p: real) returns (v: real)
      requires Valid() && ValidGames(a, b) && ValidProbability(p)
      requires a != 6 && b != 6 && !(a == 4 && b == 4)
      modifies this
      ensures Valid()
      ensures v == SetValue(a, b, GameWin(p))
      ensures Keeps(old(table), table)
      ensures forall key :: key in table && key !in old(table) ==> key.2 == p
      ensures Successors(a, b, p) <= table.Keys
      decreases SetRank(a, b), 1
    {
      var won, lost: real;
      if a == 5 && b == 4 {
        won, lost := CallBoth(a + 1, b, a - 1, b, p, SetRank(a, b));
      } else if a == 4 && b == 5 {
        lost, won := CallBoth(a, b + 1, a, b - 1, p, SetRank(a, b));
      } else {
        won, lost := CallBoth(a + 1, b, a, b + 1, p, SetRank(a, b));
      }
      v := Step(GameWin(p), won, lost);
    }

    /** Two cached calls in order, on legal scores ranked below the caller's:
        both succeed with the set values, and both keys end up in the table. */
    method CallBoth(a1: int, b1: int, a2: int, b2: int, p: real, ghost rank: nat)
      returns (first: real, second: real)
      requires Valid() && ValidProbability(p)
      requires ValidGames(a1, b1) && SetRank(a1, b1) < rank
      requires ValidGames(a2, b2) && SetRank(a2, b2) < rank
      modifies this
      ensures Valid()
      ensures first == SetValue(a1, b1, GameWin(p)) && second == SetValue(a2, b2, GameWin(p))
      ensures (a1, b1, p) in table && (a2, b2, p) in table
      ensures Keeps(old(table), table)
      ensures forall key :: key in table && key !in old(table) ==> key.2 == p
      decreases rank, 0
    {
      var r1 := Call(a1, b1, p);
      var r2 := Call(a2, b2, p);
      first, second := r1.value, r2.value;
    }
  }

  /** The keys set.py's branch at a games score passes to its recursive
      calls: none at a won set or at 4-4, otherwise the two successors the
      branch weighs. */
  function Successors(a: int, b: int, p: real): (keys: set<(int, int, real)>)
    ensures keys == {} <==> a == 6 || b == 6 || (a == 4 && b == 4)
    ensures forall key :: key in keys ==> key.2 == p
  {
    if a == 6 || b == 6 || (a == 4 && b == 4) then {}
    else if a == 5 && b == 4 then {(6, 4, p), (4, 4, p)}
    else if a == 4 && b == 5 then {(4, 6, p), (4, 4, p)}
    else {(a + 1, b, p), (a, b + 1, p)}
  }

  /** Every entry of the older table is in the newer one, unchanged. */
  ghost predicate Keeps(older: map<(int, int, real), real>, newer: map<(int, int, real), real>)
  {
    forall key :: key in older ==> key in newer && newer[key] == older[key]
  }

  /** The cache key must include p: the same games score has different
      values for different point probabilities. */
  lemma CacheKeyNeedsProbability()
    ensures Set(0, 0, 0.0) != Set(0, 0, 1.0)
  {
    SetLosesAtZero(0, 0);
    SetWinsAtOne(0, 0);
  }
}
