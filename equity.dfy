/**
 * Win-probability estimation: one simulated deal from a shuffled deck, the
 * Monte Carlo recommendation over NUM_SIMULATIONS deals, and the pre-flop
 * equity over the suit assignments of the two hole ranks.
 */
module Equity {
  import opened Common
  import opened Cards
  import opened HandStrength

  datatype Outcome = Win | Lose

  /** Cards needed to complete a five-card board; none when it already has five or more. */
  function BoardShortfall(board: seq<Card>): (n: nat)
    ensures |board| + n == if |board| < 5 then 5 else |board|
  {
    if |board| < 5 then 5 - |board| else 0
  }

  /** Cards one simulated deal takes from the deck: the board fill and two per opponent. */
  function CardsPerDeal(board: seq<Card>): nat {
    BoardShortfall(board) + 2 * (NUM_PLAYERS - 1)
  }

  /** The strength of the k-th two cards dealt from the end of `rest`, joined with `board`. */
  function OpponentStrength(rest: seq<Card>, board: seq<Card>, rank: Ranker, k: nat): real
    requires 2 * (k + 1) <= |rest| && |board| >= 3
  {
    HandStrengthOf(Dealt(rest[..|rest| - 2 * k], 2) + board, rank).value
  }

  /**
   * Strengths of `count` two-card hands dealt one after another from the end
   * of `rest`, each joined with `board`.
   */
  function OpponentStrengths(rest: seq<Card>, board: seq<Card>, rank: Ranker, count: nat): (r: seq<real>)
    requires 2 * count <= |rest| && |board| >= 3
    ensures |r| == count
  {
    if count == 0 then []
    else OpponentStrengths(rest, board, rank, count - 1) + [OpponentStrength(rest, board, rank, count - 1)]
  }

  /** The k-th strength is that of the k-th two cards dealt from the end of `rest`. */
  lemma {:induction false} OpponentStrengthAt(rest: seq<Card>, board: seq<Card>, rank: Ranker, count: nat, k: nat)
    requires 2 * count <= |rest| && |board| >= 3 && k < count
    ensures OpponentStrengths(rest, board, rank, count)[k] == OpponentStrength(rest, board, rank, k)
  {
    if k < count - 1 {
      OpponentStrengthAt(rest, board, rank, count - 1, k);
    }
  }

  /** `all(mine > s for s in theirs)`: a tie is not a win. */
  predicate BeatsAll(mine: real, theirs: seq<real>) {
    theirs == [] || (mine > theirs[0] && BeatsAll(mine, theirs[1..]))
  }

  lemma {:induction false} BeatsAllMeaning(mine: real, theirs: seq<real>)
    ensures BeatsAll(mine, theirs) <==> forall k :: 0 <= k < |theirs| ==> mine > theirs[k]
  {
    if theirs != [] {
      BeatsAllMeaning(mine, theirs[1..]);
      assert forall k :: 1 <= k < |theirs| ==> theirs[k] == theirs[1..][k - 1];
    }
  }

  /** The board after simulate_game fills it from the end of `deck`. */
  function FilledBoard(deck: seq<Card>, board: seq<Card>): (full: seq<Card>)
    requires BoardShortfall(board) <= |deck|
    ensures |full| >= 5
  {
    board + Dealt(deck, BoardShortfall(board))
  }

  /**
   * simulate_game on the deck `deck`: fill the board, deal each opponent two
   * cards, and win only against strictly weaker opponent hands.
   */
  function SimulatedOutcome(deck: seq<Card>, board: seq<Card>, myHand: seq<Card>, rank: Ranker): Outcome
    requires CardsPerDeal(board) <= |deck|
  {
    var full := FilledBoard(deck, board);
    var rest := deck[..|deck| - BoardShortfall(board)];
    var mine := HandStrengthOf(myHand + full, rank).value;
    if BeatsAll(mine, OpponentStrengths(rest, full, rank, NUM_PLAYERS - 1)) then Win else Lose
  }

  /** The user's best rank is strictly better (lower) than that of each opponent hand dealt from `rest`. */
  predicate BetterThanEveryOpponent(myHand: seq<Card>, full: seq<Card>, rest: seq<Card>, rank: Ranker)
    requires 2 * (NUM_PLAYERS - 1) <= |rest| && |full| >= 5
  {
    forall k :: 0 <= k < NUM_PLAYERS - 1 ==>
      BestHandRank(myHand + full, rank) < BestHandRank(Dealt(rest[..|rest| - 2 * k], 2) + full, rank)
  }

  /**
   * A simulated deal is a win exactly when the user's best rank is strictly
   * better (lower) than every opponent's; equal ranks lose.
   */
  lemma WinIffBetterThanEveryOpponent(deck: seq<Card>, board: seq<Card>, myHand: seq<Card>, rank: Ranker)
    requires CardsPerDeal(board) <= |deck|
    ensures SimulatedOutcome(deck, board, myHand, rank) == Win
            <==> BetterThanEveryOpponent(myHand, FilledBoard(deck, board), deck[..|deck| - BoardShortfall(board)], rank)
  {
    var full := FilledBoard(deck, board);
    var rest := deck[..|deck| - BoardShortfall(board)];
    var mine := HandStrengthOf(myHand + full, rank).value;
    var theirs := OpponentStrengths(rest, full, rank, NUM_PLAYERS - 1);
    assert SimulatedOutcome(deck, board, myHand, rank) == Win <==> BeatsAll(mine, theirs);
    BeatsAllMeaning(mine, theirs);
    if BeatsAll(mine, theirs) {
      forall k | 0 <= k < NUM_PLAYERS - 1
        ensures BestHandRank(myHand + full, rank) < BestHandRank(Dealt(rest[..|rest| - 2 * k], 2) + full, rank)
      {
        OpponentComparison(rest, full, myHand, rank, k);
      }
    } else {
      var k :| 0 <= k < |theirs| && !(mine > theirs[k]);
      OpponentComparison(rest, full, myHand, rank, k);
    }
  }

  /** Beating the k-th opponent's strength is having a better rank than the k-th opponent hand. */
  lemma OpponentComparison(rest: seq<Card>, full: seq<Card>, myHand: seq<Card>, rank: Ranker, k: nat)
    requires 2 * (NUM_PLAYERS - 1) <= |rest| && |full| >= 5 && k < NUM_PLAYERS - 1
    ensures HandStrengthOf(myHand + full, rank).value > OpponentStrengths(rest, full, rank, NUM_PLAYERS - 1)[k]
            <==> BestHandRank(myHand + full, rank) < BestHandRank(Dealt(rest[..|rest| - 2 * k], 2) + full, rank)
  {
    OpponentStrengthAt(rest, full, rank, NUM_PLAYERS - 1, k);
    StrongerIffBetterRank(myHand + full, Dealt(rest[..|rest| - 2 * k], 2) + full, rank);
  }

  /** The user's best rank is strictly better (lower) than that of each of `count` hands dealt from `rest`. */
  predicate BetterThanOpponents(myHand: seq<Card>, full: seq<Card>, rest: seq<Card>, rank: Ranker, count: nat)
    requires 2 * count <= |rest| && |full| >= 5
  {
    forall k :: 0 <= k < count ==>
      BestHandRank(myHand + full, rank) < BestHandRank(Dealt(rest[..|rest| - 2 * k], 2) + full, rank)
  }

  /** Beating every opponent strength is having a better rank than every opponent hand. */
  lemma BeatsAllIffBetterRanks(myHand: seq<Card>, full: seq<Card>, rest: seq<Card>, rank: Ranker, count: nat)
    requires 2 * count <= |rest| && |full| >= 5
    ensures BeatsAll(HandStrengthOf(myHand + full, rank).value, OpponentStrengths(rest, full, rank, count))
            <==> BetterThanOpponents(myHand, full, rest, rank, count)
  {
    var mine := HandStrengthOf(myHand + full, rank).value;
    var theirs := OpponentStrengths(rest, full, rank, count);
    BeatsAllMeaning(mine, theirs);
    if BeatsAll(mine, theirs) {
      forall k | 0 <= k < count
        ensures BestHandRank(myHand + full, rank) < BestHandRank(Dealt(rest[..|rest| - 2 * k], 2) + full, rank)
      {
        OpponentRankAt(rest, full, myHand, rank, count, k);
      }
    } else {
      var k :| 0 <= k < |theirs| && !(mine > theirs[k]);
      OpponentRankAt(rest, full, myHand, rank, count, k);
    }
  }

  /** Beating the k-th of `count` opponent strengths is having a better rank than the k-th hand. */
  lemma OpponentRankAt(rest: seq<Card>, full: seq<Card>, myHand: seq<Card>, rank: Ranker, count: nat, k: nat)
    requires 2 * count <= |rest| && |full| >= 5 && k < count
    ensures HandStrengthOf(myHand + full, rank).value > OpponentStrengths(rest, full, rank, count)[k]
            <==> BestHandRank(myHand + full, rank) < BestHandRank(Dealt(rest[..|rest| - 2 * k], 2) + full, rank)
  {
    OpponentStrengthAt(rest, full, rank, count, k);
    StrongerIffBetterRank(myHand + full, Dealt(rest[..|rest| - 2 * k], 2) + full, rank);
  }

  /** One more opponent rates the next two cards from the end. */
  lemma OpponentStrengthsStep(rest: seq<Card>, board: seq<Card>, rank: Ranker, k: nat)
    requires 2 * (k + 1) <= |rest| && |board| >= 3
    ensures OpponentStrengths(rest, board, rank, k + 1)
            == OpponentStrengths(rest, board, rank, k) + [HandStrengthOf(Dealt(rest[..|rest| - 2 * k], 2) + board, rank).value]
  {
  }

  /** Two pops off the deck left after k opponents leave the deck after k + 1 opponents. */
  lemma PopTwo(rest: seq<Card>, k: nat)
    requires 2 * (k + 1) <= |rest|
    ensures rest[..|rest| - 2 * k][..|rest| - 2 * k - 2] == rest[..|rest| - 2 * (k + 1)]
  {
  }

  /** Deal and rate `count` opponent hands from the deck, as simulate_game's loop does. */
  method DealOpponents(deck: Deck, board: seq<Card>, count: nat, rank: Ranker) returns (strengths: seq<real>)
    requires 2 * count <= |deck.cards| && |board| >= 3
    modifies deck
    ensures strengths == OpponentStrengths(old(deck.cards), board, rank, count)
    ensures deck.cards == old(deck.cards)[..|old(deck.cards)| - 2 * count]
  {
    ghost var start := deck.cards;
    strengths := [];
    for k := 0 to count
      invariant deck.cards == start[..|start| - 2 * k]
      invariant strengths == OpponentStrengths(start, board, rank, k)
    {
      OpponentStrengthsStep(start, board, rank, k);
      PopTwo(start, k);
      var opponentHand := deck.Deal(2);
      var opponentStrength := EvaluateHandStrength(opponentHand + board, rank);
      strengths := strengths + [opponentStrength.value];
    }
  }

  /**
   * simulate_game: deals from the deck object, which ends up without the
   * cards the deal used.
   */
  method SimulateGame(deck: Deck, communityCards: seq<Card>, myHand: seq<Card>, rank: Ranker) returns (outcome: Outcome)
    requires CardsPerDeal(communityCards) <= |deck.cards|
    modifies deck
    ensures outcome == SimulatedOutcome(old(deck.cards), communityCards, myHand, rank)
    ensures deck.cards == old(deck.cards)[..|old(deck.cards)| - CardsPerDeal(communityCards)]
  {
    ghost var start := deck.cards;
    var fill := deck.Deal(BoardShortfall(communityCards));
    var board := communityCards + fill;
    assert board == FilledBoard(start, communityCards);
    var myStrength := EvaluateHandStrength(myHand + board, rank);
    var opponentStrengths := DealOpponents(deck, board, NUM_PLAYERS - 1, rank);
    if BeatsAll(myStrength.value, opponentStrengths) {
      outcome := Win;
    } else {
      outcome := Lose;
    }
  }

  /**
   * What the simulated deal consumes is disjoint from what it leaves: the
   * filled-in board, the opponents' cards and the remaining deck together
   * are exactly the shuffled deck.
   */
  lemma {:induction false} DealUsesDistinctCards(deck: seq<Card>, n: nat, m: nat)
    requires n + m <= |deck|
    ensures multiset(Dealt(deck, n)) + multiset(Dealt(deck[..|deck| - n], m)) + multiset(deck[..|deck| - n - m])
            == multiset(deck)
  {
    var rest := deck[..|deck| - n];
    DealtPartition(deck, n);
    DealtPartition(rest, m);
    assert rest[..|rest| - m] == deck[..|deck| - n - m];
  }

  datatype Advice = AdviseRaise | AdviseCall | AdviseFold

  /**
   * The recommendation for `winCount` wins out of NUM_SIMULATIONS: raise
   * above 45 per cent, call above 25 per cent, otherwise fold.
   */
  function Recommend(winCount: int): (a: Advice)
    ensures a == AdviseRaise <==> winCount > 4500
    ensures a == AdviseCall <==> 2500 < winCount <= 4500
    ensures a == AdviseFold <==> winCount <= 2500
  {
    var winProbability := (winCount as real) / (NUM_SIMULATIONS as real);
    if winProbability > 0.45 then AdviseRaise
    else if winProbability > 0.25 then AdviseCall
    else AdviseFold
  }

  /** More wins never lead to a more cautious recommendation. */
  lemma RecommendMonotone(fewer: int, more: int)
    requires fewer <= more
    ensures Recommend(fewer) == AdviseRaise ==> Recommend(more) == AdviseRaise
    ensures Recommend(more) == AdviseFold ==> Recommend(fewer) == AdviseFold
  {
  }

  /** The cards every simulated deal excludes from the deck. */
  function KnownCards(myHand: seq<Card>, communityCards: seq<Card>, knownCards: seq<Card>): seq<Card> {
    knownCards + myHand + communityCards
  }

  /** Wins among the first n simulated deals; deal t shuffles with draw sequence rng(t). */
  function MonteCarloWins(n: nat, myHand: seq<Card>, communityCards: seq<Card>, knownCards: seq<Card>,
                          rank: Ranker, rng: Rng): (w: nat)
    requires CardsPerDeal(communityCards) <= RemainingCount(KnownCards(myHand, communityCards, knownCards))
    ensures w <= n
  {
    if n == 0 then 0
    else
      var deck := ShuffleDeck(KnownCards(myHand, communityCards, knownCards), rng(n - 1));
      MonteCarloWins(n - 1, myHand, communityCards, knownCards, rank, rng)
      + (if SimulatedOutcome(deck, communityCards, myHand, rank) == Win then 1 else 0)
  }

  /**
   * monte_carlo_simulation: NUM_SIMULATIONS deals, each from a fresh deck
   * without the known cards, the hand and the board; the recommendation
   * follows the number of wins.
   */
  method MonteCarloSimulation(myHand: seq<Card>, communityCards: seq<Card>, knownCards: seq<Card>,
                              rank: Ranker, rng: Rng) returns (advice: Advice)
    requires CardsPerDeal(communityCards) <= RemainingCount(KnownCards(myHand, communityCards, knownCards))
    ensures advice == Recommend(MonteCarloWins(NUM_SIMULATIONS, myHand, communityCards, knownCards, rank, rng))
  {
    var winCount := 0;
    for t := 0 to NUM_SIMULATIONS
      invariant winCount == MonteCarloWins(t, myHand, communityCards, knownCards, rank, rng)
    {
      var deck := new Deck(ShuffleDeck(knownCards + myHand + communityCards, rng(t)));
      var outcome := SimulateGame(deck, communityCards, myHand, rank);
      if outcome == Win {
        winCount := winCount + 1;
      }
    }
    advice := Recommend(winCount);
  }

  /** The suits the pre-flop equity tries. */
  const PREFLOP_SUITS: string := "CDHS"

  /** `[(s1, s2) for s1 in firsts for s2 in PREFLOP_SUITS if s1 != s2]`. */
  function PairsFrom(firsts: string): seq<(char, char)> {
    if firsts == [] then [] else PairsWith(firsts[0], PREFLOP_SUITS) + PairsFrom(firsts[1..])
  }

  /** `[(s1, s2) for s2 in seconds if s1 != s2]`. */
  function PairsWith(s1: char, seconds: string): seq<(char, char)> {
    if seconds == [] then []
    else (if s1 != seconds[0] then [(s1, seconds[0])] else []) + PairsWith(s1, seconds[1..])
  }

  /** The pairs for one first suit: that suit with each different second suit. */
  lemma {:induction false} PairsWithMembers(s1: char, seconds: string, p: (char, char))
    ensures p in PairsWith(s1, seconds) <==> p.0 == s1 && p.1 in seconds && p.1 != s1
  {
    if seconds != [] {
      PairsWithMembers(s1, seconds[1..], p);
      assert seconds == [seconds[0]] + seconds[1..];
    }
  }

  /** The pairs for several first suits: each of them with each different suit of PREFLOP_SUITS. */
  lemma {:induction false} PairsFromMembers(firsts: string, p: (char, char))
    ensures p in PairsFrom(firsts) <==> p.0 in firsts && p.1 in PREFLOP_SUITS && p.0 != p.1
  {
    if firsts != [] {
      PairsFromMembers(firsts[1..], p);
      PairsWithMembers(firsts[0], PREFLOP_SUITS, p);
      assert firsts == [firsts[0]] + firsts[1..];
    }
  }

  /** Joining two sequences without repetitions and without a common member repeats nothing. */
  lemma DistinctJoin<T>(a: seq<T>, b: seq<T>)
    requires Distinct(a) && Distinct(b)
    requires forall x :: x in a ==> x !in b
    ensures Distinct(a + b)
  {
    forall i, j | 0 <= i < j < |a + b| ensures (a + b)[i] != (a + b)[j] {
      if i < |a| && |a| <= j {
        assert (a + b)[i] in a && (a + b)[j] == b[j - |a|];
      }
    }
  }

  /** One first suit gives each different second suit once. */
  lemma {:induction false} PairsWithDistinct(s1: char, seconds: string)
    requires Distinct(seconds)
    ensures Distinct(PairsWith(s1, seconds))
    ensures |PairsWith(s1, seconds)| == |seconds| - (if s1 in seconds then 1 else 0)
  {
    if seconds != [] {
      var rest := seconds[1..];
      assert seconds == [seconds[0]] + rest;
      assert Distinct(rest);
      PairsWithDistinct(s1, rest);
      var head := if s1 != seconds[0] then [(s1, seconds[0])] else [];
      forall x | x in head ensures x !in PairsWith(s1, rest) {
        PairsWithMembers(s1, rest, x);
      }
      DistinctJoin(head, PairsWith(s1, rest));
    }
  }

  /** Distinct first suits, each one of PREFLOP_SUITS, give three pairs each and no pair twice. */
  lemma {:induction false} PairsFromDistinct(firsts: string)
    requires Distinct(firsts) && forall c :: c in firsts ==> c in PREFLOP_SUITS
    ensures Distinct(PairsFrom(firsts))
    ensures |PairsFrom(firsts)| == 3 * |firsts|
  {
    if firsts != [] {
      var rest := firsts[1..];
      assert firsts == [firsts[0]] + rest;
      assert Distinct(rest);
      PairsFromDistinct(rest);
      assert Distinct(PREFLOP_SUITS);
      PairsWithDistinct(firsts[0], PREFLOP_SUITS);
      forall x | x in PairsWith(firsts[0], PREFLOP_SUITS) ensures x !in PairsFrom(rest) {
        PairsWithMembers(firsts[0], PREFLOP_SUITS, x);
        PairsFromMembers(rest, x);
      }
      DistinctJoin(PairsWith(firsts[0], PREFLOP_SUITS), PairsFrom(rest));
    }
  }

  /**
   * The suit assignments tried: the hole cards' own suits when they match,
   * otherwise each of the twelve ordered pairs of distinct suits once.
   */
  function SuitCombinations(holeCards: seq<Card>): (combos: seq<(char, char)>)
    requires |holeCards| >= 2 && |holeCards[0]| >= 2 && |holeCards[1]| >= 2
    ensures holeCards[0][1] == holeCards[1][1] ==> combos == [(holeCards[0][1], holeCards[1][1])]
    ensures 1 <= |combos| <= 12
  {
    if holeCards[0][1] == holeCards[1][1] then [(holeCards[0][1], holeCards[1][1])]
    else
      assert Distinct(PREFLOP_SUITS);
      PairsFromDistinct(PREFLOP_SUITS);
      PairsFrom(PREFLOP_SUITS)
  }

  /** An unsuited hand is tried with every ordered pair of distinct suits, each once. */
  lemma UnsuitedCombinations(holeCards: seq<Card>)
    requires |holeCards| >= 2 && |holeCards[0]| >= 2 && |holeCards[1]| >= 2
    requires holeCards[0][1] != holeCards[1][1]
    ensures |SuitCombinations(holeCards)| == 12
    ensures Distinct(SuitCombinations(holeCards))
    ensures forall p :: p in SuitCombinations(holeCards) <==> p.0 in PREFLOP_SUITS && p.1 in PREFLOP_SUITS && p.0 != p.1
  {
    assert Distinct(PREFLOP_SUITS);
    PairsFromDistinct(PREFLOP_SUITS);
    forall p ensures p in SuitCombinations(holeCards) <==> p.0 in PREFLOP_SUITS && p.1 in PREFLOP_SUITS && p.0 != p.1 {
      PairsFromMembers(PREFLOP_SUITS, p);
    }
  }

  /** The two hole ranks with the suits of one assignment. */
  function SuitedHole(holeCards: seq<Card>, suits: (char, char)): (hole: seq<Card>)
    requires |holeCards| >= 2 && |holeCards[0]| >= 1 && |holeCards[1]| >= 1
    ensures |hole| == 2
  {
    [[holeCards[0][0], suits.0], [holeCards[1][0], suits.1]]
  }

  /**
   * One pre-flop trial: a deck without the two hole cards, five board cards,
   * `numOpponents` two-card hands; a win beats every opponent strictly.
   */
  predicate PreflopTrialWon(hole: seq<Card>, numOpponents: nat, rank: Ranker, draw: nat -> nat)
    requires |hole| == 2 && numOpponents <= 22
  {
    var deck := ShuffleDeck(hole, draw);
    var board := Dealt(deck, 5);
    var mine := HandStrengthOf(hole + board, rank);
    mine.Some? && BeatsAll(mine.value, OpponentStrengths(deck[..|deck| - 5], board, rank, numOpponents))
  }

  /**
   * A pre-flop trial is won exactly when the hole cards with the five board
   * cards rank strictly better than each opponent's two cards with the board.
   */
  lemma PreflopTrialWonMeaning(hole: seq<Card>, numOpponents: nat, rank: Ranker, draw: nat -> nat)
    requires |hole| == 2 && numOpponents <= 22
    ensures var deck := ShuffleDeck(hole, draw);
            PreflopTrialWon(hole, numOpponents, rank, draw)
            <==> BetterThanOpponents(hole, Dealt(deck, 5), deck[..|deck| - 5], rank, numOpponents)
  {
    var deck := ShuffleDeck(hole, draw);
    BeatsAllIffBetterRanks(hole, Dealt(deck, 5), deck[..|deck| - 5], rank, numOpponents);
  }

  /** Wins among the first n trials of one suit assignment; trial t of it uses rng(base + t). */
  function TrialWins(hole: seq<Card>, numOpponents: nat, rank: Ranker, rng: Rng, base: nat, n: nat): (w: nat)
    requires |hole| == 2 && numOpponents <= 22
    ensures w <= n
  {
    if n == 0 then 0
    else TrialWins(hole, numOpponents, rank, rng, base, n - 1)
         + (if PreflopTrialWon(hole, numOpponents, rank, rng(base + n - 1)) then 1 else 0)
  }

  /** Wins over the first c suit assignments, `iterations` trials each. */
  function PreflopWins(holeCards: seq<Card>, combos: seq<(char, char)>, c: nat, numOpponents: nat,
                       iterations: nat, rank: Ranker, rng: Rng): (w: nat)
    requires |holeCards| >= 2 && |holeCards[0]| >= 1 && |holeCards[1]| >= 1
    requires c <= |combos| && numOpponents <= 22
    ensures w <= c * iterations
  {
    if c == 0 then 0
    else
      PreflopWins(holeCards, combos, c - 1, numOpponents, iterations, rank, rng)
      + TrialWins(SuitedHole(holeCards, combos[c - 1]), numOpponents, rank, rng, (c - 1) * iterations, iterations)
  }

  lemma PreflopWinsStep(holeCards: seq<Card>, combos: seq<(char, char)>, c: nat, numOpponents: nat,
                        iterations: nat, rank: Ranker, rng: Rng, wins: nat)
    requires |holeCards| >= 2 && |holeCards[0]| >= 1 && |holeCards[1]| >= 1
    requires c < |combos| && numOpponents <= 22
    requires wins == TrialWins(SuitedHole(holeCards, combos[c]), numOpponents, rank, rng, c * iterations, iterations)
    ensures PreflopWins(holeCards, combos, c + 1, numOpponents, iterations, rank, rng)
            == PreflopWins(holeCards, combos, c, numOpponents, iterations, rank, rng) + wins
  {
  }

  /**
   * calculate_preflop_equity: the fraction of won trials over every suit
   * assignment, iterations trials each; trial t overall shuffles with rng(t).
   */
  method CalculatePreflopEquity(holeCards: seq<Card>, numOpponents: nat, iterations: nat, rank: Ranker, rng: Rng)
    returns (equity: real)
    requires |holeCards| >= 2 && |holeCards[0]| >= 2 && |holeCards[1]| >= 2
    requires iterations > 0
    requires numOpponents <= 22
    ensures var combos := SuitCombinations(holeCards);
            equity == (PreflopWins(holeCards, combos, |combos|, numOpponents, iterations, rank, rng) as real)
                      / ((|combos| * iterations) as real)
    ensures 0.0 <= equity <= 1.0
  {
    var combos := SuitCombinations(holeCards);
    var totalWins, totalIterations := SuitAssignmentTrials(holeCards, combos, numOpponents, iterations, rank, rng);
    FractionBounds(totalWins, totalIterations);
    equity := (totalWins as real) / (totalIterations as real);
  }

  /** The loop of calculate_preflop_equity over the suit assignments, counting wins and trials. */
  method SuitAssignmentTrials(holeCards: seq<Card>, combos: seq<(char, char)>, numOpponents: nat, iterations: nat,
                              rank: Ranker, rng: Rng)
    returns (totalWins: nat, totalIterations: nat)
    requires |holeCards| >= 2 && |holeCards[0]| >= 1 && |holeCards[1]| >= 1
    requires numOpponents <= 22
    ensures totalWins == PreflopWins(holeCards, combos, |combos|, numOpponents, iterations, rank, rng)
    ensures totalIterations == |combos| * iterations
  {
    totalWins := 0;
    totalIterations := 0;
    for c := 0 to |combos|
      invariant totalWins == PreflopWins(holeCards, combos, c, numOpponents, iterations, rank, rng)
      invariant totalIterations == c * iterations
    {
      var suitedHoleCards := SuitedHole(holeCards, combos[c]);
      var wins := PreflopTrials(suitedHoleCards, numOpponents, iterations, rank, rng, totalIterations);
      PreflopWinsStep(holeCards, combos, c, numOpponents, iterations, rank, rng, wins);
      totalWins := totalWins + wins;
      totalIterations := totalIterations + iterations;
    }
  }

  lemma FractionBounds(part: nat, whole: nat)
    requires 0 < whole && part <= whole
    ensures 0.0 <= (part as real) / (whole as real) <= 1.0
  {
    var q := (part as real) / (whole as real);
    assert q * (whole as real) == part as real;
  }

  lemma TrialWinsStep(hole: seq<Card>, numOpponents: nat, rank: Ranker, rng: Rng, base: nat, t: nat, wins: nat, won: bool)
    requires |hole| == 2 && numOpponents <= 22
    requires wins == TrialWins(hole, numOpponents, rank, rng, base, t)
    requires won == PreflopTrialWon(hole, numOpponents, rank, rng(base + t))
    ensures TrialWins(hole, numOpponents, rank, rng, base, t + 1) == wins + (if won then 1 else 0)
  {
  }

  /** The trial loop of one suit assignment; trial t shuffles with rng(base + t). */
  method PreflopTrials(hole: seq<Card>, numOpponents: nat, iterations: nat, rank: Ranker, rng: Rng, base: nat)
    returns (wins: nat)
    requires |hole| == 2 && numOpponents <= 22
    ensures wins == TrialWins(hole, numOpponents, rank, rng, base, iterations)
  {
    wins := 0;
    for t := 0 to iterations
      invariant wins == TrialWins(hole, numOpponents, rank, rng, base, t)
    {
      var won := PreflopTrial(hole, numOpponents, rank, rng(base + t));
      TrialWinsStep(hole, numOpponents, rank, rng, base, t, wins, won);
      wins := wins + if won then 1 else 0;
    }
  }

  /**
   * One trial: shuffle a deck without the hole cards, deal the board, then the
   * opponents' hands, skipping any hand that cannot be rated.
   */
  method PreflopTrial(hole: seq<Card>, numOpponents: nat, rank: Ranker, draw: nat -> nat) returns (won: bool)
    requires |hole| == 2 && numOpponents <= 22
    ensures won == PreflopTrialWon(hole, numOpponents, rank, draw)
  {
    var deck := new Deck(ShuffleDeck(hole, draw));
    var communityCards := deck.Deal(5);
    var myStrength := EvaluateHandStrength(hole + communityCards, rank);
    won := false;
    if myStrength.Some? {
      var opponentStrengths := PreflopOpponents(deck, communityCards, numOpponents, rank);
      won := BeatsAll(myStrength.value, opponentStrengths);
    }
  }

  /**
   * The opponent loop of one pre-flop trial: deal and rate `count` hands,
   * keeping only the strengths that could be computed.
   */
  method PreflopOpponents(deck: Deck, board: seq<Card>, count: nat, rank: Ranker) returns (strengths: seq<real>)
    requires 2 * count <= |deck.cards| && |board| >= 3
    modifies deck
    ensures strengths == OpponentStrengths(old(deck.cards), board, rank, count)
    ensures deck.cards == old(deck.cards)[..|old(deck.cards)| - 2 * count]
  {
    ghost var rest := deck.cards;
    strengths := [];
    for k := 0 to count
      invariant deck.cards == rest[..|rest| - 2 * k]
      invariant strengths == OpponentStrengths(rest, board, rank, k)
    {
      OpponentStrengthsStep(rest, board, rank, k);
      PopTwo(rest, k);
      var opponentHand := deck.Deal(2);
      var opponentStrength := EvaluateHandStrength(opponentHand + board, rank);
      if opponentStrength.Some? {
        strengths := strengths + [opponentStrength.value];
      }
    }
  }
}
