/**
 * Hand strength: the best 5-card rank among all 5-card choices from a hand,
 * normalised to a strength in [0, 1), and the rank-to-category ladder.
 * The external 5-card evaluator is a parameter of type Ranker.
 */
module HandStrength {
  import opened Common
  import opened Cards

  /** The weakest rank the external evaluator returns. */
  const WORST_RANK: int := 7462

  /** A rank of the external 5-card evaluator: 1 is the best hand, 7462 the worst. */
  type Rank = r: int | 1 <= r <= 7462 witness 1

  /** The external evaluator (`evaluate_cards`), supplied by the caller. */
  type Ranker = seq<Card> -> Rank

  function Binomial(n: nat, k: nat): nat {
    if k == 0 then 1 else if n == 0 then 0 else Binomial(n - 1, k - 1) + Binomial(n - 1, k)
  }

  /** `x` put in front of every sequence of `cs`. */
  function PrependAll(x: Card, cs: seq<seq<Card>>): seq<seq<Card>> {
    seq(|cs|, i requires 0 <= i < |cs| => [x] + cs[i])
  }

  /**
   * itertools.combinations(s, k): every choice of k positions of s, listed in
   * lexicographic order of the chosen positions.
   */
  function Combinations(s: seq<Card>, k: nat): seq<seq<Card>>
    decreases |s|
  {
    if k == 0 then [[]]
    else if s == [] then []
    else PrependAll(s[0], Combinations(s[1..], k - 1)) + Combinations(s[1..], k)
  }

  /** Every combination has exactly k cards. */
  lemma {:induction false} CombinationsHaveSize(s: seq<Card>, k: nat, i: nat)
    requires i < |Combinations(s, k)|
    ensures |Combinations(s, k)[i]| == k
    decreases |s|
  {
    if k > 0 && s != [] {
      var shorter := Combinations(s[1..], k - 1);
      if i < |shorter| {
        CombinationsHaveSize(s[1..], k - 1, i);
      } else {
        CombinationsHaveSize(s[1..], k, i - |shorter|);
      }
    }
  }

  /** There are C(|s|, k) of them. */
  lemma {:induction false} CombinationsCount(s: seq<Card>, k: nat)
    ensures |Combinations(s, k)| == Binomial(|s|, k)
    decreases |s|
  {
    if k > 0 && s != [] {
      CombinationsCount(s[1..], k - 1);
      CombinationsCount(s[1..], k);
    }
  }

  /** Where combination i comes from: the first card with a shorter choice, or a choice from the rest. */
  lemma CombinationsAt(s: seq<Card>, k: nat, i: nat)
    requires k > 0 && s != [] && i < |Combinations(s, k)|
    ensures var shorter := Combinations(s[1..], k - 1);
            && (i < |shorter| ==> Combinations(s, k)[i] == [s[0]] + shorter[i])
            && (i >= |shorter| ==> Combinations(s, k)[i] == Combinations(s[1..], k)[i - |shorter|])
  {
    var shorter := Combinations(s[1..], k - 1);
    assert |PrependAll(s[0], shorter)| == |shorter|;
  }

  /** `c` picks some of the cards of `s`, keeping their order. */
  predicate Subsequence(c: seq<Card>, s: seq<Card>)
    decreases |s|
  {
    c == [] || (s != [] && ((c[0] == s[0] && Subsequence(c[1..], s[1..])) || Subsequence(c, s[1..])))
  }

  /** Each combination picks its cards from the hand, in the hand's order. */
  lemma {:induction false} CombinationsAreChoices(s: seq<Card>, k: nat, i: nat)
    requires i < |Combinations(s, k)|
    ensures Subsequence(Combinations(s, k)[i], s)
    decreases |s|
  {
    if k > 0 && s != [] {
      var shorter := Combinations(s[1..], k - 1);
      CombinationsAt(s, k, i);
      if i < |shorter| {
        CombinationsAreChoices(s[1..], k - 1, i);
        assert ([s[0]] + shorter[i])[1..] == shorter[i];
      } else {
        CombinationsAreChoices(s[1..], k, i - |shorter|);
      }
    }
  }

  /** Conversely, every choice of cards from the hand, in the hand's order, is one of the combinations. */
  lemma {:induction false} ChoicesAreCombinations(c: seq<Card>, s: seq<Card>)
    requires Subsequence(c, s)
    ensures c in Combinations(s, |c|)
    decreases |s|
  {
    if c != [] {
      var shorter := Combinations(s[1..], |c| - 1);
      var withFirst := PrependAll(s[0], shorter);
      var without := Combinations(s[1..], |c|);
      assert Combinations(s, |c|) == withFirst + without;
      if c[0] == s[0] && Subsequence(c[1..], s[1..]) {
        ChoicesAreCombinations(c[1..], s[1..]);
        var i :| 0 <= i < |shorter| && shorter[i] == c[1..];
        assert withFirst[i] == c;
        assert c in withFirst;
      } else {
        ChoicesAreCombinations(c, s[1..]);
        assert c in without;
      }
    }
  }

  /** A subsequence uses no card more often than the sequence holds it. */
  lemma {:induction false} SubsequenceCounts(c: seq<Card>, s: seq<Card>)
    requires Subsequence(c, s)
    ensures multiset(c) <= multiset(s)
    decreases |s|
  {
    if c != [] {
      assert s == [s[0]] + s[1..];
      if c[0] == s[0] && Subsequence(c[1..], s[1..]) {
        SubsequenceCounts(c[1..], s[1..]);
        assert c == [c[0]] + c[1..];
      } else {
        SubsequenceCounts(c, s[1..]);
      }
    }
  }

  lemma {:induction false} BinomialPositive(n: nat, k: nat)
    requires k <= n
    ensures Binomial(n, k) >= 1
  {
    if k > 0 {
      BinomialPositive(n - 1, k - 1);
    }
  }

  /** A hand of exactly k cards has one k-card choice: the hand itself. */
  lemma {:induction false} CombinationsOfAll(s: seq<Card>)
    ensures Combinations(s, |s|) == [s]
  {
    if s != [] {
      var tail := s[1..];
      CombinationsOfAll(tail);
      CombinationsTooLarge(tail, |s|);
      assert Combinations(s, |s|) == PrependAll(s[0], Combinations(tail, |tail|)) + Combinations(tail, |s|);
      assert PrependAll(s[0], [tail]) == [[s[0]] + tail];
      assert [s[0]] + tail == s;
    }
  }

  /** There is no way to choose more cards than there are. */
  lemma {:induction false} CombinationsTooLarge(s: seq<Card>, k: nat)
    requires |s| < k
    ensures Combinations(s, k) == []
    decreases |s|
  {
    if s != [] {
      CombinationsTooLarge(s[1..], k - 1);
      CombinationsTooLarge(s[1..], k);
    }
  }


  /** best_rank after scanning `combos` in order, starting from WORST_RANK. */
  function BestRank(combos: seq<seq<Card>>, rank: Ranker): Rank {
    if combos == [] then WORST_RANK
    else
      var prev := BestRank(combos[..|combos| - 1], rank);
      var last := combos[|combos| - 1];
      if rank(last) < prev then rank(last) else prev
  }

  /**
   * The scan finds the minimum: no combination ranks better, and when there is
   * any combination, one of them attains it.
   */
  lemma {:induction false} BestRankIsMinimum(combos: seq<seq<Card>>, rank: Ranker)
    ensures forall c :: c in combos ==> BestRank(combos, rank) <= rank(c)
    ensures combos == [] ==> BestRank(combos, rank) == WORST_RANK
    ensures combos != [] ==> exists c :: c in combos && rank(c) == BestRank(combos, rank)
  {
    if combos != [] {
      var front := combos[..|combos| - 1];
      var last := combos[|combos| - 1];
      assert combos == front + [last];
      BestRankIsMinimum(front, rank);
      if front == [] {
        assert BestRank(combos, rank) == rank(last);
      }
    }
  }

  /** The best rank of any 5-card choice from the hand. */
  function BestHandRank(hand: seq<Card>, rank: Ranker): Rank
    requires |hand| >= 5
  {
    BestRank(Combinations(hand, 5), rank)
  }

  /** best_rank is the rank of the strongest 5-card choice from the hand. */
  lemma BestHandRankIsMinimum(hand: seq<Card>, rank: Ranker)
    requires |hand| >= 5
    ensures forall c :: c in Combinations(hand, 5) ==> BestHandRank(hand, rank) <= rank(c)
    ensures exists c :: c in Combinations(hand, 5) && rank(c) == BestHandRank(hand, rank)
  {
    CombinationsCount(hand, 5);
    BinomialPositive(|hand|, 5);
    BestRankIsMinimum(Combinations(hand, 5), rank);
  }

  /** With exactly five cards the best rank is the evaluator's rank of the hand. */
  lemma FiveCardHand(hand: seq<Card>, rank: Ranker)
    requires |hand| == 5
    ensures BestHandRank(hand, rank) == rank(hand)
  {
    CombinationsOfAll(hand);
    BestRankIsMinimum([hand], rank);
  }

  /** `1 - best_rank / 7462`. */
  function StrengthOf(best: Rank): (s: real)
    ensures 0.0 <= s < 1.0
  {
    1.0 - (best as real) / (WORST_RANK as real)
  }

  /** A strictly better rank gives a strictly greater strength, and equal ranks equal strengths. */
  lemma StrengthOrder(a: Rank, b: Rank)
    ensures a < b <==> StrengthOf(a) > StrengthOf(b)
    ensures a == b <==> StrengthOf(a) == StrengthOf(b)
  {
  }

  /** evaluate_hand_strength as a value: no strength below five cards. */
  function HandStrengthOf(hand: seq<Card>, rank: Ranker): (s: Option<real>)
    ensures s.None? <==> |hand| < 5
    ensures s.Some? ==> 0.0 <= s.value < 1.0
  {
    if |hand| < 5 then None else Some(StrengthOf(BestHandRank(hand, rank)))
  }

  /**
   * evaluate_hand_strength: scan every 5-card choice, keep the lowest rank
   * seen (starting from 7462) and normalise it.
   */
  method EvaluateHandStrength(hand: seq<Card>, rank: Ranker) returns (strength: Option<real>)
    ensures strength == HandStrengthOf(hand, rank)
  {
    if |hand| < 5 {
      return None;
    }
    var combos := Combinations(hand, 5);
    var best: Rank := WORST_RANK;
    for i := 0 to |combos|
      invariant best == BestRank(combos[..i], rank)
    {
      ghost var seen := combos[..i + 1];
      assert seen[..|seen| - 1] == combos[..i] && seen[|seen| - 1] == combos[i];
      var r := rank(combos[i]);
      if r < best {
        best := r;
      }
    }
    assert combos[..|combos|] == combos;
    assert best == BestHandRank(hand, rank);
    strength := Some(StrengthOf(best));
  }

  /** Comparing two evaluated hands is comparing their best ranks, the other way round. */
  lemma StrongerIffBetterRank(h1: seq<Card>, h2: seq<Card>, rank: Ranker)
    requires |h1| >= 5 && |h2| >= 5
    ensures HandStrengthOf(h1, rank).value > HandStrengthOf(h2, rank).value
            <==> BestHandRank(h1, rank) < BestHandRank(h2, rank)
  {
    StrengthOrder(BestHandRank(h1, rank), BestHandRank(h2, rank));
  }

  datatype HandCategory =
    | RoyalFlush | StraightFlush | FourOfAKind | FullHouse | Flush
    | Straight | ThreeOfAKind | TwoPair | OnePair | HighCard

  /** Position of a category from strongest (0) to weakest (9). */
  function Ordinal(c: HandCategory): nat {
    match c
    case RoyalFlush => 0
    case StraightFlush => 1
    case FourOfAKind => 2
    case FullHouse => 3
    case Flush => 4
    case Straight => 5
    case ThreeOfAKind => 6
    case TwoPair => 7
    case OnePair => 8
    case HighCard => 9
  }

  /** The highest (weakest) rank the ladder puts in each category. */
  function HighestRankIn(c: HandCategory): int {
    match c
    case RoyalFlush => 1
    case StraightFlush => 10
    case FourOfAKind => 166
    case FullHouse => 322
    case Flush => 1599
    case Straight => 1609
    case ThreeOfAKind => 2467
    case TwoPair => 3325
    case OnePair => 6185
    case HighCard => WORST_RANK
  }

  /**
   * rank_to_human_readable. The argument is a number: the helper passes it
   * a rank, and its main script passes it a normalised strength.
   */
  function RankToHumanReadable(rank: real): (c: HandCategory)
    ensures rank <= 10.0 ==> Ordinal(c) <= 1
    ensures rank > 6185.0 ==> c == HighCard
  {
    if rank == 1.0 then RoyalFlush
    else if rank <= 10.0 then StraightFlush
    else if rank <= 166.0 then FourOfAKind
    else if rank <= 322.0 then FullHouse
    else if rank <= 1599.0 then Flush
    else if rank <= 1609.0 then Straight
    else if rank <= 2467.0 then ThreeOfAKind
    else if rank <= 3325.0 then TwoPair
    else if rank <= 6185.0 then OnePair
    else HighCard
  }

  /** Every evaluator rank falls in exactly one category: the one whose band holds it. */
  lemma CategoryBands(r: Rank, c: HandCategory)
    ensures RankToHumanReadable(r as real) == c
            <==> (c == RoyalFlush || HighestRankIn(PreviousBand(c)) < r) && r <= HighestRankIn(c)
  {
  }

  /** The category one step stronger (RoyalFlush has none; it maps to itself). */
  function PreviousBand(c: HandCategory): HandCategory {
    match c
    case RoyalFlush => RoyalFlush
    case StraightFlush => RoyalFlush
    case FourOfAKind => StraightFlush
    case FullHouse => FourOfAKind
    case Flush => FullHouse
    case Straight => Flush
    case ThreeOfAKind => Straight
    case TwoPair => ThreeOfAKind
    case OnePair => TwoPair
    case HighCard => OnePair
  }

  /** A better (lower) rank never lands in a weaker category. */
  lemma CategoryMonotone(a: Rank, b: Rank)
    requires a <= b
    ensures Ordinal(RankToHumanReadable(a as real)) <= Ordinal(RankToHumanReadable(b as real))
  {
  }

  /**
   * The main script's closing report as written: it hands
   * rank_to_human_readable the normalised strength instead of a rank.
   */
  function FinalCategoryAsWritten(hand: seq<Card>, rank: Ranker): HandCategory
    requires |hand| >= 5
  {
    RankToHumanReadable(HandStrengthOf(hand, rank).value)
  }

  /** A strength lies in [0, 1), so the report as written always names a straight flush. */
  lemma FinalCategoryAlwaysStraightFlush(hand: seq<Card>, rank: Ranker)
    requires |hand| >= 5
    ensures FinalCategoryAsWritten(hand, rank) == StraightFlush
  {
  }

  /** The closing report on the best rank of the final hand. */
  function FinalCategory(hand: seq<Card>, rank: Ranker): HandCategory
    requires |hand| >= 5
  {
    RankToHumanReadable(BestHandRank(hand, rank) as real)
  }

  /** The report names the category whose rank band holds the best 5-card choice's rank. */
  lemma FinalCategoryBand(hand: seq<Card>, rank: Ranker)
    requires |hand| >= 5
    ensures var c := FinalCategory(hand, rank);
            var best := BestHandRank(hand, rank);
            (c == RoyalFlush || HighestRankIn(PreviousBand(c)) < best) && best <= HighestRankIn(c)
  {
    CategoryBands(BestHandRank(hand, rank), FinalCategory(hand, rank));
  }
}
