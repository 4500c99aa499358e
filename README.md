# tennis-probability in Dafny

A model of the `tennis_probability` package. The package computes the
probability that player A wins a tennis game, a set (no tie-break) or a match
from any legal score. The input is `p`, the probability that A wins any one
point. The package can also invert the match value by bisection to recover
`p`.

Probabilities are Dafny `real`s, i.e. exact rationals, because the recurrences
use only `+ - * /`. The exceptions the package raises become the `Error` kinds
of an `Outcome` (validators) or a `Result<real>` (probability functions).

- `Errors` (errors.dfy): the error kinds, `Outcome` with its `Then` sequencing
  (validators run one after another and the first failure wins), `Result`, and
  `Flip`, which complements a value.
- `Check` (check.dfy): the validators of `check.py`. Each is characterised
  exactly: it passes iff a named predicate holds, and it reports the error
  kind the source raises.
- `Games` (game.dfy): `game` is the wrapper `Game`, which validates the score
  and then `p` in the source's order. The recursion itself is `GameValue`,
  defined on validated arguments only. The preconditions of its recursive
  calls show that the re-validation the source repeats in every recursive
  call always passes. The deuce closed form `q²/(1-2q+2q²)` is `Deuce`, and
  the one-step lookahead `q·won + (1-q)·lost` is `Step`.
- `Sets` (set.dfy): the same structure for `set`. The step weight is the
  game-from-love value. The `lru_cache` decorator is modelled as a
  `SetCache` class whose table only ever holds values of the uncached
  function. A miss recurses through the cache, as the decorated function
  does, so it also records every sub-score it visits.
- `Matches` (match.dfy): `match`, with `winning = ceil(bestOf/2)`. The
  recursion `MatchFrom` keeps its error path. From a score past the winning
  count, the source recurses until a call exceeds `bestOf` and raises
  InvalidInput; the model characterises exactly which scores succeed.
- `FindP` (find_p.dfy): `find_p` as a method with a `while` loop. It takes the
  function it inverts as a parameter, and `MatchWinLandmarks` shows that the
  model's `match(0, 0, ·)` meets the method's requirements.
- `MatchScenarios` (match_scenarios.dfy): the exact values behind the float
  literals of the match tests, computed level by level.
- `Legacy` (legacy.dfy): the unexported `tennis_probability.py`. Its
  `check_probability` is identical to that of `check.py` and is modelled by
  `Check.CheckProbability`.

Where a recursive call in the source recomputes `game(0, 0, p)` or
`set(0, 0, p)`, the model computes it once and passes it down as `q`. The
value is the same at every call.

Where the test suite and the code disagree, the model follows the code:

- `tests/test_game.py:18-19` expects InvalidInput for a negative score, but
  `check_not_negative` raises NegativeNumber (`GameRejections`).
- `tests/test_set.py:13-20` expects InvalidGamesWon, but `set.py` validates
  with `check_games_won`, which raises InvalidInput or NegativeNumber
  (`SetRejections`).

## Model

| member | source | states |
|---|---|---|
| Errors.Outcome.Then | tennis_probability/game.py:27-28 | sequencing of checks: passes iff both pass; a failing first check is reported, and after a passing first check the result is the second check's |
| Errors.Flip | tennis_probability/game.py:41-58 | the other player's view of a result: it succeeds iff the result does, and an error stays the same error |
| Check.CheckProbability | tennis_probability/check.py:20-22 | passes iff 0 ≤ p ≤ 1, otherwise InvalidProbability |
| Check.CheckNotNegative | tennis_probability/check.py:111-113 | passes iff every number is ≥ 0, otherwise NegativeNumber |
| Check.NotNegativePair | tennis_probability/check.py:39 | checking two numbers passes iff both are non-negative |
| Check.NotNegativeSingle | tennis_probability/match.py:37 | checking bestOf alone passes iff it is non-negative |
| Check.CheckScore | tennis_probability/check.py:39-47 | passes iff 0 ≤ a,b ≤ 4 and not both ≥ 3; a negative score gives NegativeNumber even if the other exceeds 4, otherwise InvalidInput |
| Check.CheckGamesWon | tennis_probability/check.py:64-72 | passes iff 0 ≤ a,b ≤ 6 and not both ≥ 5; NegativeNumber before InvalidInput |
| Check.CheckSetsWon | tennis_probability/check.py:91-96 | passes iff 0 ≤ a,b ≤ bestOf, with no joint constraint; NegativeNumber before InvalidInput |
| Check.ValidatorsSymmetric | tennis_probability/check.py:25-96 | all three score validators give the same outcome for (a,b) and (b,a) |
| Check.RejectedScores | tennis_probability/check.py:39-72 | (3,3), (4,3), (3,4), (4,4), (10,3), (2,812) are InvalidInput; (-1,0) and (-1,5) are NegativeNumber; games (5,5) are rejected |
| Games.DeuceDenominator | tennis_probability/game.py:41-42 | 1 - 2q + 2q² equals q² + (1-q)² and is positive, so the division is defined |
| Games.Deuce | tennis_probability/game.py:41-42 | the closed form lies in [0,1] for q in [0,1] |
| Games.Scale | tennis_probability/game.py:46-58 | scaling a non-negative quantity by a probability stays between 0 and it |
| Games.StepBetween | tennis_probability/game.py:46-58 | a lookahead step with weight in [0,1] lies between its two successor values |
| Games.StepBelow | tennis_probability/game.py:46-58 | the same when the won-successor is the larger one |
| Games.StepIsProbability | tennis_probability/game.py:46-58 | a step between two probabilities is a probability |
| Games.Game | tennis_probability/game.py:27-58 | succeeds iff the score and p are valid; the score is checked before p; the value is GameValue and lies in [0,1] |
| Games.GameValue | tennis_probability/game.py:32-58 | the recursion over legal scores (terminals, deuce, advantage, general branch) terminates; every recursive call lands on a legal score; the value lies in [0,1] |
| Games.DeuceFixpoint | tennis_probability/game.py:41-55 | the deuce value solves its own two-step lookahead through advantage and disadvantage |
| Games.DeuceMirror | tennis_probability/game.py:41-42 | D(1-q) = 1 - D(q) |
| Games.StepMirror | tennis_probability/game.py:46-58 | swapping the players and the odds complements a step |
| Games.GameRejections | tennis_probability/game.py:27-28 | the test suite's invalid inputs give the error kinds the code raises; a bad score with a bad p reports the score |
| Games.GameTerminal | tennis_probability/game.py:32-38 | game(4,b,p) = 1 and game(a,4,p) = 0 for every legal pair |
| Games.GameDeuceLookahead | tennis_probability/game.py:41-55 | game(2,2,p) = p·game(3,2,p) + (1-p)·game(2,3,p) |
| Games.GameValueMirror | tennis_probability/game.py:41-58 | game(b,a,1-p) = 1 - game(a,b,p) on every legal score |
| Games.GameMirror | tennis_probability/game.py:27-58 | the same for the validated function, with errors unchanged |
| Games.GameAtZero | tennis_probability/game.py:32-58 | with p = 0, A wins only a game already won |
| Games.GameAtOne | tennis_probability/game.py:32-58 | with p = 1, A wins every game not already lost |
| Games.GameEvenOdds | tennis_probability/game.py:32-58 | with p = 1/2 every tied score is worth 1/2 |
| Games.GameScenarios | tests/test_game.py:8-9 | game(2,1,0.78) and game(3,2,0.13) round to 0.981006095 and 0.1490010339 |
| Games.GameFromLoveScenario | tests/test_game.py:7 | game(0,0,0.51) is exactly 3282468759999/6252500000000, which rounds to 0.5249850076 |
| Sets.GameWin | tennis_probability/set.py:50 | the game-from-love chance used as the step weight is a probability |
| Sets.GameWinIsGame | tennis_probability/set.py:50 | the step weight of the set recursion is exactly game(0,0,p) |
| Sets.Set | tennis_probability/set.py:37-72 | succeeds iff the games and p are valid; games are checked before p; the value lies in [0,1] |
| Sets.SetValue | tennis_probability/set.py:42-72 | the recursion over legal games pairs terminates; every recursive call lands on a legal pair; the value lies in [0,1] |
| Sets.SetRejections | tests/test_set.py:13-26 | (10,3), (2,812), (5,5) are InvalidInput, (-1,0) is NegativeNumber, p = 1.0001 and p = -1.001 are InvalidProbability; games are checked first |
| Sets.SetTerminal | tennis_probability/set.py:42-48 | set(6,b,p) = 1 and set(a,6,p) = 0 for every legal pair |
| Sets.SetDeuceLookahead | tennis_probability/set.py:53-67 | the 4-4 closed form equals q·set(5,4) + (1-q)·set(4,5) |
| Sets.SetValueMirror | tennis_probability/set.py:53-72 | the set recursion complements when the players and the game odds are swapped |
| Sets.SetMirror | tennis_probability/set.py:37-72 | set(b,a,1-p) = 1 - set(a,b,p), with errors unchanged |
| Sets.SetAtZero | tennis_probability/set.py:42-72 | with a zero game-win chance, A wins only a set already won |
| Sets.SetLosesAtZero | tennis_probability/set.py:37-72 | set(a,b,0) is 1 if A already has 6 games, otherwise 0 |
| Sets.SetWinsAtOne | tennis_probability/set.py:37-72 | set(a,b,1) is 0 if B already has 6 games, otherwise 1 |
| Sets.SetEvenOdds | tennis_probability/set.py:37-72 | set(a,a,1/2) = 1/2 |
| Sets.SetCache.constructor | tennis_probability/set.py:6 | the cache starts empty and consistent |
| Sets.SetCache.Call | tennis_probability/set.py:6-72 | a cached call returns exactly the uncached value; a hit leaves the table as it was; a rejected call stores nothing; a successful call leaves its own key in the table and, on a miss, the keys of both recursive calls too; existing entries never change and every new entry is for the same p |
| Sets.SetCache.Evaluate | tennis_probability/set.py:42-72 | the branches of set() with every recursive call going through the cache compute exactly the set value; the successor keys the branch calls are in the table afterwards; existing entries are kept, and every new entry is valid and for the same p |
| Sets.SetCache.Advance | tennis_probability/set.py:56-72 | the three step branches, each looking up its two successors through the cache in the source's order, give exactly the set value and leave both successor keys in the table |
| Sets.SetCache.CallBoth | tennis_probability/set.py:58-60 | two cached calls in order both succeed with the set values of their scores and both keys end up in the table, earlier entries kept |
| Sets.Successors | tennis_probability/set.py:42-72 | the keys a set() branch recurses on: none exactly at a won set or at 4-4, and always with the caller's p |
| Sets.CacheKeyNeedsProbability | tennis_probability/set.py:6-11 | the same games pair has different values for different p, so p must be part of the key |
| Matches.Winning | tennis_probability/match.py:42 | winning is ceil(bestOf/2): 2w-1 ≤ bestOf ≤ 2w |
| Matches.SetWin | tennis_probability/match.py:54 | the set-from-love chance used as the step weight is a probability |
| Matches.SetWinIsSet | tennis_probability/match.py:54 | the step weight of the match recursion is exactly set(0,0,p) |
| Matches.Match | tennis_probability/match.py:37-59 | bestOf is checked, then the sets, then p; succeeds iff all are valid and the score is decided or open; a valid score past the winning count gives InvalidInput; the value lies in [0,1] |
| Matches.MatchFrom | tennis_probability/match.py:38-59 | the recursion terminates; it succeeds iff the sets are within bestOf and decided or open; every failure is InvalidInput |
| Matches.MatchRejections | tests/test_match.py:16-29 | the test suite's invalid inputs give NegativeNumber, InvalidInput (including (5,5) via the recursion) and InvalidProbability |
| Matches.MatchTerminal | tennis_probability/match.py:46-52 | A at the winning count gives 1, tested first; otherwise B at the winning count gives 0 |
| Matches.MatchLookahead | tennis_probability/match.py:54-59 | an open score is q·match(a+1,b) + (1-q)·match(a,b+1), with both calls succeeding |
| Matches.SetWinMirror | tennis_probability/match.py:54 | the set-win chance complements under 1-p |
| Matches.MatchFromMirror | tennis_probability/match.py:46-59 | the recursion complements under mirrored players and odds, except where both hold the winning count |
| Matches.MirrorStep | tennis_probability/match.py:57-59 | the inductive step of the mirror property at an open score |
| Matches.MatchMirror | tennis_probability/match.py:37-59 | match(b,a,1-p) = 1 - match(a,b,p), errors unchanged, except where both hold the winning count |
| Matches.MatchMirrorFailsWhenBothWon | tennis_probability/match.py:46-52 | where both hold the winning count the score and its mirror are both worth 1, so the symmetry fails there |
| Matches.MatchFromAtZero | tennis_probability/match.py:46-59 | with a zero set-win chance, A wins only a match already won |
| Matches.MatchFromAtOne | tennis_probability/match.py:46-59 | with a certain set-win chance, A wins unless B already has won |
| Matches.MatchLosesAtZero | tennis_probability/match.py:37-59 | match(a,b,0) is 1 iff A already holds the winning count, otherwise 0 |
| Matches.MatchWinsAtOne | tennis_probability/match.py:37-59 | match(a,b,1) is 0 iff B alone holds the winning count, otherwise 1 |
| Matches.MatchEvenOdds | tennis_probability/match.py:37-59 | match(a,a,1/2) = 1/2 for every open tied score |
| Matches.MatchScenariosExtremes | tests/test_match.py:6-8 | match(0,0,0) = 0 and match(0,0,1) = 1 in a best-of-five match |
| Matches.MatchScenarioEven | tests/test_match.py:7 | match(0,0,1/2) = 1/2 in a best-of-five match |
| MatchScenarios.GameWinAtPointThirtyEight | tennis_probability/game.py:32-58 | the exact rational value of game(0,0,0.38) |
| MatchScenarios.SetWinAtPointThirtyEight | tennis_probability/set.py:42-72 | the exact rational value of set(0,0,0.38) |
| MatchScenarios.SetWinAtPointFiftyOne | tennis_probability/set.py:42-72 | the exact rational value of set(0,0,0.51) |
| MatchScenarios.GameWinAtPointNinetyOne | tennis_probability/game.py:32-58 | the exact rational value of game(0,0,0.91) |
| MatchScenarios.SetWinAtPointNinetyOne | tennis_probability/set.py:42-72 | the exact rational value of set(0,0,0.91) |
| MatchScenarios.MatchScenarioOneLove | tests/test_match.py:12 | match(1,0,0.38) agrees with 0.0012392424927120083 to twelve decimal places |
| MatchScenarios.MatchScenarioTwoAll | tests/test_match.py:13 | match(2,2,0.51) agrees with 0.573396584031171 to twelve decimal places |
| MatchScenarios.MatchScenarioTwoOne | tests/test_match.py:11 | match(2,1,0.91) lies strictly below 1 but within 10^-30 of it, so the float result 1.0 is a rounding |
| FindP.MatchWin | tennis_probability/find_p.py:46-51 | the function searched is match(0,0,p), which succeeds and is a probability for valid p |
| FindP.MatchWinLandmarks | tennis_probability/find_p.py:32-39 | match is 0 at p = 0, 1 at p = 1 and 1/2 at p = 1/2 |
| FindP.Halving | tennis_probability/find_p.py:54-67 | the bracket width after k halvings lies in (0,1] |
| FindP.Widths | tennis_probability/find_p.py:41 | the count of thresholds in a bracket is non-negative |
| FindP.HalvingShrinks | tennis_probability/find_p.py:41-67 | halving a bracket wider than the threshold lowers that count, so the loop ends |
| FindP.FindP | tennis_probability/find_p.py:30-70 | an invalid target is InvalidProbability; otherwise the result lies in a halved bracket [lo,hi] ⊆ [0,1] with match(lo) ≤ target ≤ match(hi); either match at the result is the target, or the result is the midpoint and hi - lo ≤ threshold; target 0, 1 or match(1/2) returns 0, 1 or 1/2 at once; a threshold ≥ 1 returns 1/2 |
| Legacy.LegacyCheckScore | tennis_probability/tennis_probability.py:162-169 | passes iff the score is legal; every failure, a negative score included, is InvalidScore |
| Legacy.LegacyCheckGames | tennis_probability/tennis_probability.py:186-193 | passes iff 0 ≤ a,b ≤ 4 and not both ≥ 3; otherwise InvalidGamesWon |
| Legacy.LegacyGamesStricter | tennis_probability/tennis_probability.py:186-193 | every games pair the legacy check accepts is accepted by check_games_won, but not conversely, e.g. (5,0) and (3,3) |
| Legacy.Weigh | tennis_probability/tennis_probability.py:44-56 | a step over two results fails iff one fails, and the first failure is reported |
| Legacy.LegacyGame | tennis_probability/tennis_probability.py:25-56 | succeeds iff score and p are valid; a bad score is InvalidScore; the value equals game.py's |
| Legacy.LegacyGameAgrees | tennis_probability/tennis_probability.py:25-56 | the legacy game and game.py succeed together and agree; they differ only in the error kind of a bad score |
| Legacy.LegacyGameRejections | tests/test_tennis_probability.py:12-23 | (10,3), (2,812), (3,3) give InvalidScore; p = 1.0001 and p = -1.001 give InvalidProbability |
| Legacy.LegacySet | tennis_probability/tennis_probability.py:92-128 | games, then score, then p are checked; succeeds iff they are valid and both successor games pairs are legal point scores; the value is the general branch's step on game() of the games counts |
| Legacy.LegacySetBranches | tennis_probability/tennis_probability.py:98-128 | on legacy-valid games only the general branch is taken, failing with InvalidScore iff a successor pair is not a legal point score |
| Legacy.LegacySetFourLove | tennis_probability/tennis_probability.py:126-128 | set(4,0,p) raises InvalidScore because game(5,0,p) is out of range |
| Legacy.LegacySetReachesOnlyGeneral | tennis_probability/tennis_probability.py:98-123 | no successful legacy set is at 6 games, 4-4, 5-4 or 4-5: those branches are dead |

## Left out

- Floating point: the model is exact over rationals, so the float literals of the test suite are stated within a tolerance, not as equalities. `match(2,1,0.91) == 1.0` holds in floating point only because of rounding; `MatchScenarios.MatchScenarioTwoOne` shows the exact value is below 1.
- Check.CheckProbability: a NaN `p` passes the source's check (both comparisons are false) and the raised InvalidProbability carries `p` as its argument; reals have no NaN and the error kinds carry no payload.
- Matches.MatchFrom: the source recursion has no memo, so its number of calls grows exponentially with `best_out_of_n_sets`, and CPython raises RecursionError once the recursion depth passes its limit (about 1000); the model returns a value for every `bestOf`.
- The `find_p` test values (e.g. target 0.6356544165709263 giving p ≈ 0.51) depend on `match(0,0,·)` being increasing. That monotonicity of the nested rational functions is not proved, so `FindP.FindP` promises the bracket it keeps, not closeness to the true inverse. Behaviour once a float bracket stops shrinking is out of scope.
- FindP.FindP: requires a positive threshold, which the source does not check. With a threshold ≤ 0 the source loop ends only on an exact hit (for example targets 0, 1 or `match(0,0,0.5)` return at once); otherwise it never ends.
- Sets.SetValue, Matches.MatchFrom: the source recomputes `game(0,0,p)` and `set(0,0,p)` in every recursive call; the model computes the weight once and passes it down, since the value is the same each time.
- Legacy.LegacyGame: the 2-3 branch (and the dead 4-5 branch of `Legacy.LegacySetBranches`) takes its two recursive results in the opposite order to tennis_probability.py:51-53 and :121, which call the B-gains point first; the 3-2 branch keeps the source's order. The order could only show through which error is reported first, and from a legal score neither recursive call can fail, so it is unobservable.
- Sets.SetCache: the `lru_cache` eviction policy, thread safety and hashing are not modelled. The decorator's default `maxsize` of 128 evicts least recently used entries, while the model's cache never evicts, so the promises that keys stay in the table describe an unbounded cache (`maxsize=None`); eviction changes only what is recomputed, never a returned value. The cache is keyed by exact rationals rather than floats.
- The exception class hierarchy in `errors.py` is not modelled; errors.py is not part of this model. The error kinds are flat.
- `__init__.py` (version lookup from installed package metadata, which is I/O, and re-exports) and the Sphinx configuration are not modelled.
