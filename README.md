# PokerPokerPoker in Dafny

A model of `PokerPokerPoker.py`, a console assistant for three-handed Texas
Hold'em. The assistant has four parts:

- the deck and dealing;
- hand strength, where the best 5-card choice is ranked by an external evaluator;
- two Monte Carlo equity estimators, one for a known board and one for the hole cards before the flop;
- the decision heuristics and the betting round that applies each player's action to the chips, the bet and the pot.

Modules, one per file:

- `Common` (`common.dfy`): the game constants (three players, 10 000 simulations, 1000 chips, blinds 10/20, minimum bet 20) and small helpers.
- `Cards` (`cards.dfy`):
  - the 52-card deck in rank-major order and `shuffle_deck`, as a filter followed by a Fisher-Yates shuffle driven by a draw function;
  - `deal_cards`, as the `Deck` class whose `Deal` pops from the end of its card list;
  - `standardize_card_input`.
- `HandStrength` (`strength.dfy`):
  - the 5-card choices in `itertools.combinations` order, the best (lowest) rank over them, and the strength `1 - best/7462`;
  - `rank_to_human_readable` with its rank bands.
- `Decision` (`decision.dfy`): the strategy table, `gtoHelper`, `gto_decision`, the pot odds, their bet-size correction, and the recommendation part of `player_gto_guidance`.
- `Equity` (`equity.dfy`):
  - `simulate_game` and `monte_carlo_simulation` with their win/lose rule and advice thresholds;
  - `calculate_preflop_equity`, covering the suited and unsuited suit assignments, the trial loop, the skip of hands that cannot be evaluated, and the final ratio.
- `Betting` (`betting.dfy`):
  - the blind seats and `assign_blinds`;
  - the `Player` class, whose fields are updated in place by the fold, check, call, all-in and raise handlers;
  - `valid_actions_helper`, `handle_player_action` and `betting_round`;
  - chip conservation over a round, and the three findings below.

Two things outside the program become parameters:

- **Hand ranker:** the evaluator (`phevaluator.evaluate_cards`) is a `Ranker`, a function from cards to a rank in 1..7462.
- **Randomness:** `random.shuffle` is an `Rng`, a family of draw functions with one draw function per simulation. Each draw is reduced modulo the number of positions still open.

Typed input becomes a finite sequence of `Move`s. Each move is an action, plus an amount for a raise.

## How the code behaves

The model follows the code as written, except line 395 in the pre-flop round (see the first finding and "## Left out"). It includes these behaviours:

- **Bet decision.** `gtoHelper` (lines 195-208) picks one of three fixed tiers from the hand strength alone. `gto_decision` sizes a bet as `max(pot * multiplier, 20)`. Its bluff branch cannot be reached, because the bluff threshold always lies above the value threshold (`Decision.GtoDecision`).
- **Checking.** The check test at line 370 accepts four conditions: the bet equals the player's last bet; the pre-flop big blind at a bet of 20; the pre-flop small blind at a bet of 10; the post-flop big blind at a bet of 0. The legal-action list (lines 392-396) also offers a check whenever the module-level opening bet equals the player's last bet, even after a raise (`Betting.StaleCheckRefused`).
- **End of a round.** `handle_player_action` always reports the action as resolved, so `betting_round` makes exactly one pass over the seats (`Betting.Round`). A player who raises last is not answered by the players before them.
- **Small-blind call.** The small blind's pre-flop call is capped at 10 whatever the bet is (line 434, `Betting.AfterCall`).
- **Pre-flop round.** The big blind's first pre-flop turn stops with an error (first finding), so a hand never gets past the pre-flop round as written.
- **No opponent model.** Nothing in the code records or classifies the opponents' past actions.

## Model

| member | source | states |
|---|---|---|
| Cards.DeckIsDistinct | PokerPokerPoker.py:25 | the deck has 52 cards and no card twice |
| Cards.DeckAt | PokerPokerPoker.py:25 | rank r with suit s sits at position 4r+s: ranks outermost, suits S, H, D, C innermost |
| Cards.DeckHoldsEveryCard | PokerPokerPoker.py:25 | a string is in the deck exactly when it is one rank character followed by one suit character |
| Cards.DeckCounts | PokerPokerPoker.py:25 | every well-formed card occurs exactly once in the deck and nothing else occurs |
| Cards.WithoutContents | PokerPokerPoker.py:54 | filtering removes every copy of an excluded card, keeps every other card as often as it occurred, and keeps a distinct list distinct |
| Cards.WithoutOneMore | PokerPokerPoker.py:54 | excluding one more card is filtering the filtered deck once more, and removes at most one card from a distinct deck |
| Cards.KeepsAllAbsent | PokerPokerPoker.py:54 | excluding cards that are not in the deck changes nothing |
| Cards.WithoutBound | PokerPokerPoker.py:54 | filtering a distinct deck removes at most as many cards as were excluded |
| Cards.RemainingCount | PokerPokerPoker.py:54 | between 52 - (number of excluded cards) and 52 cards survive the filter |
| Cards.ShuffleDownPermutes | PokerPokerPoker.py:55 | each swap pass of the shuffle leaves the same cards with the same multiplicities |
| Cards.ShufflePermutes | PokerPokerPoker.py:55 | the shuffled list is a permutation of its input |
| Cards.ShuffleDeck | PokerPokerPoker.py:52-56 | the shuffled deck has exactly as many cards as survive the filter |
| Cards.ShuffleDeckContents | PokerPokerPoker.py:52-56 | the shuffled deck holds each card once if it is well formed and not excluded, and otherwise not at all |
| Cards.DealtOrder | PokerPokerPoker.py:61 | the i-th dealt card is the i-th card from the end of the deck |
| Cards.DealtIsSuffix | PokerPokerPoker.py:61 | the dealt cards are, as a multiset, the last n cards of the deck |
| Cards.DealtPartition | PokerPokerPoker.py:59-61 | the dealt cards and the cards left behind together are exactly the deck before the deal |
| Cards.Deck.constructor | PokerPokerPoker.py:54-56 | a new deck holds the given card list |
| Cards.Deck.Deal | PokerPokerPoker.py:59-61 | returns the last n cards, last card first, and leaves exactly the first len-n cards in the deck |
| Cards.StandardizeCardInput | PokerPokerPoker.py:247-253 | input shorter than two characters has no card; a three-character input starting with "10" becomes 'T' and its upper-cased suit; any other input becomes its first two characters upper-cased |
| Cards.StandardizeIdempotent | PokerPokerPoker.py:247-253 | standardizing a standardized card gives it back unchanged |
| Cards.StandardizeSpellings | PokerPokerPoker.py:247-253 | the upper-case and lower-case two-character spellings of every deck card, and "10" followed by an upper-case or a lower-case suit for a ten, all give that deck card |
| HandStrength.CombinationsHaveSize | PokerPokerPoker.py:132 | every choice has exactly k cards |
| HandStrength.CombinationsCount | PokerPokerPoker.py:132 | there are exactly C(n, k) choices |
| HandStrength.CombinationsAreChoices | PokerPokerPoker.py:132 | every choice is an order-preserving subsequence of the hand |
| HandStrength.ChoicesAreCombinations | PokerPokerPoker.py:132 | conversely, every order-preserving choice of cards from the hand is among the combinations of its size |
| HandStrength.SubsequenceCounts | PokerPokerPoker.py:132 | a choice uses no card more often than the hand holds it |
| HandStrength.BinomialPositive | PokerPokerPoker.py:132 | C(n, k) is at least 1 when k <= n, so a hand of five or more cards has a 5-card choice |
| HandStrength.CombinationsOfAll | PokerPokerPoker.py:132 | the only n-card choice from n cards is the hand itself |
| HandStrength.CombinationsTooLarge | PokerPokerPoker.py:132 | a hand with fewer than k cards has no k-card choice |
| HandStrength.BestRankIsMinimum | PokerPokerPoker.py:135-139 | the scan's result is at most the rank of every choice, is the rank of some choice when there is one, and stays 7462 when there is none |
| HandStrength.BestHandRankIsMinimum | PokerPokerPoker.py:131-139 | the best rank of a hand of five or more cards is the minimum rank over its 5-card choices and is attained |
| HandStrength.FiveCardHand | PokerPokerPoker.py:131-139 | the best rank of a 5-card hand is the rank of the hand itself |
| HandStrength.StrengthOf | PokerPokerPoker.py:142 | a strength lies in [0, 1) |
| HandStrength.StrengthOrder | PokerPokerPoker.py:142 | a smaller rank gives a strictly larger strength and equal ranks give equal strengths, in both directions |
| HandStrength.HandStrengthOf | PokerPokerPoker.py:123-146 | there is no strength exactly when the hand has fewer than five cards; otherwise the strength lies in [0, 1) |
| HandStrength.EvaluateHandStrength | PokerPokerPoker.py:123-146 | the scanning loop returns the strength of the best 5-card choice, or none for fewer than five cards |
| HandStrength.StrongerIffBetterRank | PokerPokerPoker.py:123-146 | one hand is stronger than another exactly when its best rank is smaller |
| HandStrength.RankToHumanReadable | PokerPokerPoker.py:149-171 | a rank up to 10 is a royal or straight flush and a rank above 6185 is a high card |
| HandStrength.CategoryBands | PokerPokerPoker.py:149-171 | a rank is given a category exactly when it lies in that category's band, above the previous band's top |
| HandStrength.CategoryMonotone | PokerPokerPoker.py:149-171 | a better (smaller) rank never gets a weaker category |
| HandStrength.FinalCategoryAlwaysStraightFlush | PokerPokerPoker.py:480-482 | as written, the final report names a straight flush for every hand |
| HandStrength.FinalCategoryBand | PokerPokerPoker.py:480-482 | corrected, the final report names the category whose band holds the hand's best rank |
| Decision.GtoHelper | PokerPokerPoker.py:195-208 | the multiplier is a key of the strategy table: 2.00 exactly above 0.5, 1.50 exactly in (0.3, 0.5], 1.00 exactly at or below 0.3; the thresholds are that row's value bet and value bet plus bluff, so the bluff threshold is always above the value threshold, which lies between 0.60 and 0.67 |
| Decision.GtoHelperMonotone | PokerPokerPoker.py:195-208 | a stronger hand never gets a smaller multiplier or a higher value-bet threshold |
| Decision.GtoDecision | PokerPokerPoker.py:174-192 | the decision is never a bluff; it is a bet exactly when the strength exceeds 0.60, sized max(2 x pot, 20); otherwise it is check/fold with size 0 |
| Decision.CalculatePotOdds | PokerPokerPoker.py:211-214 | the pot odds are -1 for a zero call; otherwise the odds times the call equal the pot |
| Decision.AdjustBetForPotOdds | PokerPokerPoker.py:217-239 | a free call keeps the bet; below the pot odds the bet becomes max(min(bet, call), 20); above twice the odds it becomes max(min(1.5 x bet, pot), 20); in between it is unchanged |
| Decision.PotOddsMeaning | PokerPokerPoker.py:211-228 | for a positive call, the strength is below the pot odds exactly when strength x call is below the pot |
| Decision.CheckFoldBecomesMinimumBet | PokerPokerPoker.py:187-231 | a check/fold hand facing a call whose pot odds it does not meet is corrected to the minimum bet of 20 |
| Decision.PlayerGtoGuidance | PokerPokerPoker.py:399-414 | no advice before three board cards; otherwise a bet exactly when the strength of hand plus board exceeds 0.60, sized by the pot-odds correction against the current bet |
| Equity.BoardShortfall | PokerPokerPoker.py:66 | dealing the shortfall brings the board to five cards, or leaves a longer board as it is |
| Equity.OpponentStrengthAt | PokerPokerPoker.py:69-74 | the k-th opponent strength is that of the k-th pair of cards dealt after the board, together with the board |
| Equity.BeatsAllMeaning | PokerPokerPoker.py:75 | the win test holds exactly when the player's strength is above every opponent's |
| Equity.WinIffBetterThanEveryOpponent | PokerPokerPoker.py:64-75 | a simulated game is a win exactly when the player's best rank is strictly smaller than each opponent's; a tie is a loss |
| Equity.OpponentComparison | PokerPokerPoker.py:72-75 | comparing strengths with one opponent is comparing best ranks the other way round |
| Equity.BeatsAllIffBetterRanks | PokerPokerPoker.py:106-114 | beating every dealt opponent's strength is having a strictly better best rank than each opponent hand, for any number of opponents |
| Equity.DealOpponents | PokerPokerPoker.py:69-74 | the loop records each opponent's strength in deal order and removes exactly 2 cards per opponent from the deck |
| Equity.SimulateGame | PokerPokerPoker.py:64-75 | the outcome is the win/lose rule applied to the deck's cards as dealt; the deck loses exactly the board shortfall plus two cards per opponent |
| Equity.DealUsesDistinctCards | PokerPokerPoker.py:67-71 | the board cards, the opponent cards and the cards left over together are exactly the deck, so no card is dealt twice |
| Equity.Recommend | PokerPokerPoker.py:265-274 | the advice is raise exactly above 4500 wins (45%), call exactly for 2501-4500 wins, and fold exactly at 2500 wins or fewer |
| Equity.RecommendMonotone | PokerPokerPoker.py:265-274 | more wins never turn a raise into something else, and fewer wins never turn a fold into something else |
| Equity.MonteCarloSimulation | PokerPokerPoker.py:256-274 | the advice is the threshold rule applied to the number of wins over 10 000 fresh shuffles of the deck without the known cards |
| Equity.PairsWithMembers | PokerPokerPoker.py:87-88 | the pairs for one first suit are exactly the (first, second) pairs with a different second suit |
| Equity.PairsFromMembers | PokerPokerPoker.py:87-88 | the comprehension holds exactly the pairs of two different suits |
| Equity.PairsWithDistinct | PokerPokerPoker.py:87-88 | the pairs for one first suit are distinct, and their number is the number of second suits other than the first |
| Equity.PairsFromDistinct | PokerPokerPoker.py:87-88 | for distinct suits the pairs are distinct, three per first suit |
| Equity.SuitCombinations | PokerPokerPoker.py:84-88 | a suited hand gets exactly its own suit pair; any hand gets between 1 and 12 assignments |
| Equity.UnsuitedCombinations | PokerPokerPoker.py:86-88 | an unsuited hand gets exactly the 12 distinct ordered pairs of different suits |
| Equity.CalculatePreflopEquity | PokerPokerPoker.py:78-120 | the equity is the total wins over all suit assignments divided by assignments x iterations, and lies in [0, 1] |
| Equity.SuitAssignmentTrials | PokerPokerPoker.py:90-118 | the loop adds up the wins of every assignment's trials and counts iterations once per assignment |
| Equity.PreflopTrials | PokerPokerPoker.py:93-115 | the loop counts exactly the won trials, each run with its own draw |
| Equity.PreflopTrialWonMeaning | PokerPokerPoker.py:96-115 | a pre-flop trial is won exactly when the hole cards with the five board cards rank strictly better than each opponent's two cards with the board |
| Equity.PreflopTrial | PokerPokerPoker.py:96-115 | one trial is won exactly as the trial rule says for its shuffle |
| Equity.PreflopOpponents | PokerPokerPoker.py:105-112 | the loop records each opponent's strength in deal order and removes exactly 2 cards per opponent from the deck |
| Betting.BlindSeats | PokerPokerPoker.py:12-13 | the small blind sits one seat after the dealer and the big blind one after that, modulo 3 |
| Betting.BlindSeatsDiffer | PokerPokerPoker.py:12-13 | dealer, small blind and big blind are three different seats |
| Betting.RoleOfBlindSeats | PokerPokerPoker.py:298-302 | with the blind seats that follow the dealer, the small blind's player is shown as the small blind, the big blind's as the big blind, and the dealer's as a plain player |
| Betting.ListedFacts | PokerPokerPoker.py:380-396 | fold is always legal; exactly one of call and all-in is legal; raise is legal only when call is; check is legal whenever nothing is owed |
| Betting.ValidActionsHelper | PokerPokerPoker.py:380-396 | appends exactly the legal actions other than fold and keeps the given list in front; check is appended once per condition that allows it |
| Betting.BigBlindOption | PokerPokerPoker.py:395-396 | before the flop, at the opening bet of 20, the big blind may check and the check test accepts it |
| Betting.CheckListedIsAllowed | PokerPokerPoker.py:369-396 | while the bet is still the opening bet, a check that the list offers also passes the check test |
| Betting.StaleCheckRefused | PokerPokerPoker.py:369-396 | after a raise, a plain player whose last bet equals the opening bet is offered a check that the check test then refuses, so the move is refused |
| Betting.AfterCall | PokerPokerPoker.py:430-443 | a call pays what is owed, or at most 10 for the pre-flop small blind, or what the player has; the payment moves from the chips to the pot and to the last bet |
| Betting.AfterAllIn | PokerPokerPoker.py:417-427 | an all-in moves every chip to the pot and to the last bet, and raises the bet only when it now exceeds the bet |
| Betting.AfterRaise | PokerPokerPoker.py:333-351 | a raise below 20 or above the player's chips is refused; otherwise the bet and the pot grow by the amount and the player's last bet becomes the new bet |
| Betting.RespondConserves | PokerPokerPoker.py:329-375 | an accepted action keeps chips plus pot unchanged, never makes chips negative, never lowers the bet, and folds exactly on fold |
| Betting.StaleLastBetRefunds | PokerPokerPoker.py:430-441 | when the last bet is above the current bet, a call hands the difference back from the pot |
| Betting.Player.constructor | PokerPokerPoker.py:22-23 | a new player is active, has no last action, a last bet of 0 and 1000 chips |
| Betting.Player.FoldHand | PokerPokerPoker.py:361-363 | the player is folded and nothing else changes |
| Betting.Player.CheckHand | PokerPokerPoker.py:369-372 | the last action becomes check and nothing else changes |
| Betting.Player.CallHelper | PokerPokerPoker.py:430-443 | the player's new state and the new pot are those of the call rule |
| Betting.Player.AllInHelper | PokerPokerPoker.py:417-427 | the player's new state, the bet and the pot are those of the all-in rule |
| Betting.Player.ApplyRaise | PokerPokerPoker.py:333-351 | an accepted raise applies the raise rule; a refused one changes nothing |
| Betting.Attempt | PokerPokerPoker.py:304-375 | the turn uses up moves until one is accepted, and that move's response is the result; if none is accepted, every move is used and nothing changes |
| Betting.AttemptSkipsRefused | PokerPokerPoker.py:329-344 | every move passed over before the accepted one was refused |
| Betting.AttemptConserves | PokerPokerPoker.py:304-377 | a turn keeps chips plus pot unchanged, never makes chips negative, never lowers the bet, and a folded player stays folded |
| Betting.HandlePlayerAction | PokerPokerPoker.py:296-377 | the player's new state, the bet, the pot and the moves used are those of the turn rule |
| Betting.BlindsPerSeat | PokerPokerPoker.py:42-43 | the small-blind seat pays 10, the big-blind seat pays 20, and every other seat is unchanged |
| Betting.BlindsConserve | PokerPokerPoker.py:38-49 | the blinds take exactly 30 chips off the table |
| Betting.AssignBlinds | PokerPokerPoker.py:38-49 | the two blind seats pay their blinds and the returned pot is 30 |
| Betting.PayBlind | PokerPokerPoker.py:42-43 | one player pays the blind and no other player changes |
| Betting.RoundUpToConserves | PokerPokerPoker.py:281-291 | after any number of seats, chips plus pot are unchanged, the bet has not fallen, no chips are negative, folded players stay folded, and seats not yet reached or folded are untouched |
| Betting.RoundConserves | PokerPokerPoker.py:277-293 | a whole round keeps chips plus pot unchanged, never lowers the bet or makes chips negative, and leaves folded players as they were |
| Betting.BettingRound | PokerPokerPoker.py:277-293 | the players' new states, the returned pot and completeness are those of one pass of the round over the seats |
| Betting.TurnAt | PokerPokerPoker.py:283-287 | one player's turn changes that player only, as the turn rule says |
| Betting.ValidActionsAsWritten | PokerPokerPoker.py:392-396 | as written, building the action list fails exactly for the big blind when its last bet differs from the opening bet and no street has yet been played |
| Betting.BigBlindFirstTurnFails | PokerPokerPoker.py:395 | as written, the big blind's first pre-flop turn always fails |
| Betting.AsWrittenOnceStageBound | PokerPokerPoker.py:392-396 | once a street has been played, the as-written list offers exactly the legal actions |
| Betting.StreetPotCountsTwice | PokerPokerPoker.py:475-476 | as written, after a post-flop round the chips plus pot exceed the chips plus pot before by the pot the round started with |
| Betting.StreetPotConserves | PokerPokerPoker.py:475-476 | corrected, after a post-flop round the chips plus pot equal the chips plus pot before |

Some defining functions have no contract of their own, or only a length or a bound. They have no row; the rows named here pin each of them down:

- `Cards.Dealt`: `Cards.DealtOrder`, `Cards.DealtIsSuffix`, `Cards.DealtPartition`.
- `Cards.Without`: `Cards.WithoutContents`, `Cards.WithoutOneMore`, `Cards.KeepsAllAbsent`, `Cards.WithoutBound`.
- `Cards.Shuffle`: `Cards.ShufflePermutes`.
- `HandStrength.Combinations` (line 132): `HandStrength.CombinationsHaveSize`, `HandStrength.CombinationsCount`, `HandStrength.CombinationsAreChoices`, `HandStrength.ChoicesAreCombinations`.
- `HandStrength.BestHandRank`: `HandStrength.BestHandRankIsMinimum`.
- `Equity.OpponentStrengths`: `Equity.OpponentStrengthAt`.
- `Equity.FilledBoard` and `Equity.SimulatedOutcome` (lines 64-75): `Equity.WinIffBetterThanEveryOpponent`, `Equity.SimulateGame`.
- `Equity.PreflopTrialWon` (lines 96-115): `Equity.PreflopTrialWonMeaning`, `Equity.PreflopTrial`.
- `Equity.MonteCarloWins`, `Equity.TrialWins`, `Equity.PreflopWins`: `Equity.MonteCarloSimulation`, `Equity.PreflopTrials`, `Equity.SuitAssignmentTrials`.
- `Betting.RoleOf` (lines 298-302): `Betting.RoleOfBlindSeats`.
- `Betting.Listed` (lines 310-311, 380-396): `Betting.ListedFacts`, `Betting.ValidActionsHelper`, `Betting.AsWrittenOnceStageBound`.
- `Betting.CheckAllowed` (line 370): `Betting.BigBlindOption`, `Betting.CheckListedIsAllowed`, `Betting.StaleCheckRefused`.
- `Betting.Respond` (lines 329-375): `Betting.RespondConserves`, `Betting.StaleLastBetRefunds`, `Betting.StaleCheckRefused`, and the rows of `Betting.AfterCall`, `Betting.AfterAllIn`, `Betting.AfterRaise`.
- `Betting.Pay` and `Betting.Blinds`: `Betting.BlindsPerSeat`, `Betting.BlindsConserve`.
- `Betting.RoundUpTo` and `Betting.Round`: `Betting.RoundUpToConserves`, `Betting.RoundConserves`, `Betting.BettingRound`.

## Left out

- Betting.HandlePlayerAction, Betting.TurnAt and Betting.BettingRound: the legal-action list they use (`Betting.Listed`) reads the round's own stage at line 395, which is the corrected form of the first finding. The modelled pre-flop round therefore goes past the big blind's turn, and lets the big blind check at the opening bet of 20, where the code as written stops with a NameError. The as-written failure is carried by `Betting.ValidActionsAsWritten` and `Betting.BigBlindFirstTurnFails`.
- Console input and output are not modelled, including `user_input` (lines 242-244), every prompt and print, and the entry of seats and cards in the main script. Moves arrive as a finite sequence, and the dealer's seat and the hole and board cards are parameters.
- The hand evaluator is a parameter (`Ranker`). The model assumes only that it returns a rank in 1..7462 for five cards.
- The `Rng` parameter stands in for `random.shuffle`. The model proves that the shuffle is a permutation, but not that it is uniform.
- Floating-point arithmetic is modelled with exact reals, so rounding in strengths, ratios and bet sizes is not modelled.
- The model does not capture the re-prompt loop of `handle_player_action` (lines 305-375) as an unbounded loop. When the moves run out, the turn is left unresolved and the round reports itself incomplete. The code would wait for more input instead.
- Bad input is not modelled as text. An unrecognised action word (line 329) only uses up input and is left out of the move sequence. Raise text that is not a number (lines 353-355) is a raise move with no amount.
- The outer `while` of `betting_round` (line 281) is modelled as a single pass. The handler always returns True, so the code never repeats the loop either.
- `player_gto_guidance`: its Monte Carlo call (lines 401-402) and its prints are not part of `Decision.PlayerGtoGuidance`. The Monte Carlo advice is `Equity.MonteCarloSimulation`.
- The main script (lines 446-482) is modelled only where the findings need it: the pot after each street, the opening bet of each street and the final report.
- Cards.StandardizeCardInput: only ASCII letters are upper-cased or lower-cased. An input shorter than two characters, for which the code raises an index error, gives no card.
- Cards.Deck.Deal: requires at least n cards in the deck. Popping from an empty list is an error in the code.
- Equity.SimulateGame: requires the deck to hold the board shortfall plus two cards per opponent. With fewer cards the code raises an error.
- Equity.CalculatePreflopEquity: requires at least one iteration, because the code divides by zero otherwise. It also requires at most 22 opponents, because more would exhaust the 50-card deck.
- Decision.PlayerGtoGuidance: requires at least five cards in hand plus board once the board has three cards. Otherwise the code compares "no strength" with a number and fails.
- Equity.MonteCarloSimulation: the number of wins is stated through `MonteCarloWins`, a function of the draws. The statistical convergence of the estimate is not modelled.

## Findings

| source | as written | input that shows it | evidently intended | confidence | as-written member | corrected member |
|---|---|---|---|---|---|---|
| PokerPokerPoker.py:395 | the big-blind test reads the module-level `stage`, which only the post-flop loop at line 466 binds | the big blind's turn in the pre-flop round: `assign_blinds` leaves its last bet at 0 while the opening bet is 20, so line 395 is evaluated before `stage` exists | the stage passed to the handler is used, and the big blind may check at the opening bet of 20 | not executed | Betting.BigBlindFirstTurnFails | Betting.BigBlindOption |
| PokerPokerPoker.py:480-482 | the final report passes the hand strength, a number in [0, 1), to the rank-to-category function | any final hand: the strength is at most 10 and not 1, so the category is always "Straight Flush" | the best rank of the hand is passed | not executed | HandStrength.FinalCategoryAlwaysStraightFlush | HandStrength.FinalCategoryBand |
| PokerPokerPoker.py:475-476 | `pot_size += betting_round(...)`, although the round returns the whole pot | a flop round entered with a pot of 60 in which every player folds: the round returns 60, and line 475 makes the pot 120 | `pot_size = betting_round(...)`, as for the pre-flop round at line 463 | not executed | Betting.StreetPotCountsTwice | Betting.StreetPotConserves |
