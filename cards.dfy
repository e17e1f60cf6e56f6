/**
 * Cards, the 52-card deck, the exclusion-aware shuffle, dealing from the top
 * of a working deck, and the normalisation of typed card names.
 */
module Cards {
  import opened Common

  /** A card is the helper's two-character string: a rank character, then a suit character. */
  type Card = string

  const RANK_CHARS: string := "23456789TJQKA"
  const SUIT_CHARS: string := "SHDC"

  /** The deck in the order the helper builds it: rank by rank, each rank in suit order S, H, D, C. */
  const DECK: seq<Card> := BuildDeck()

  /** Card i of the deck is rank i / 4 with suit i % 4, as the nested comprehension orders them. */
  function BuildDeck(): (d: seq<Card>)
  {
    seq(52, i requires 0 <= i < 52 => [RANK_CHARS[i / 4], SUIT_CHARS[i % 4]])
  }

  predicate Distinct<T(==)>(s: seq<T>) {
    forall i, j :: 0 <= i < j < |s| ==> s[i] != s[j]
  }

  /** A well-formed card name: one rank character followed by one suit character. */
  predicate IsCard(c: string) {
    |c| == 2 && c[0] in RANK_CHARS && c[1] in SUIT_CHARS
  }

  lemma DeckIsDistinct()
    ensures |DECK| == 52 && Distinct(DECK)
  {
    assert Distinct(RANK_CHARS) && Distinct(SUIT_CHARS);
    forall i, j | 0 <= i < j < 52 ensures DECK[i] != DECK[j] {
      if i / 4 == j / 4 {
        assert DECK[i][1] == SUIT_CHARS[i % 4] != SUIT_CHARS[j % 4] == DECK[j][1];
      } else {
        assert DECK[i][0] == RANK_CHARS[i / 4] != RANK_CHARS[j / 4] == DECK[j][0];
      }
    }
  }

  /** The card of rank r and suit s sits at position 4 * r + s. */
  lemma DeckAt(r: nat, s: nat)
    requires r < |RANK_CHARS| && s < |SUIT_CHARS|
    ensures 4 * r + s < |DECK| && DECK[4 * r + s] == [RANK_CHARS[r], SUIT_CHARS[s]]
  {
    var i := 4 * r + s;
    assert i / 4 == r && i % 4 == s;
  }

  /** The deck holds exactly the well-formed cards. */
  lemma DeckHoldsEveryCard(c: string)
    ensures c in DECK <==> IsCard(c)
  {
    if c in DECK {
      var i :| 0 <= i < |DECK| && DECK[i] == c;
      assert 0 <= i / 4 < |RANK_CHARS| && 0 <= i % 4 < |SUIT_CHARS|;
      assert c == [RANK_CHARS[i / 4], SUIT_CHARS[i % 4]];
    }
    if IsCard(c) {
      var r :| 0 <= r < |RANK_CHARS| && RANK_CHARS[r] == c[0];
      var s :| 0 <= s < |SUIT_CHARS| && SUIT_CHARS[s] == c[1];
      DeckAt(r, s);
      assert DECK[4 * r + s] == c;
    }
  }

  /** A sequence without repetitions holds each of its members exactly once. */
  lemma {:induction false} DistinctCounts<T>(s: seq<T>)
    requires Distinct(s)
    ensures forall x :: multiset(s)[x] == if x in s then 1 else 0
  {
    if s != [] {
      DistinctCounts(s[1..]);
      assert s == [s[0]] + s[1..];
      assert s[0] !in s[1..];
    }
  }

  /** Every well-formed card occurs exactly once in the deck, and nothing else occurs. */
  lemma DeckCounts()
    ensures forall c :: multiset(DECK)[c] == if IsCard(c) then 1 else 0
  {
    DeckIsDistinct();
    DistinctCounts(DECK);
    forall c ensures multiset(DECK)[c] == if IsCard(c) then 1 else 0 {
      DeckHoldsEveryCard(c);
    }
  }

  /** The comprehension `[card for card in cards if card not in exclude]`. */
  function Without(cards: seq<Card>, exclude: seq<Card>): (r: seq<Card>)
    ensures |r| <= |cards|
  {
    if cards == [] then []
    else
      var rest := Without(cards[1..], exclude);
      if cards[0] in exclude then rest else [cards[0]] + rest
  }

  /**
   * The filter keeps every card that is not excluded as often as it occurs,
   * drops every excluded one, and so adds no repetition.
   */
  lemma {:induction false} WithoutContents(cards: seq<Card>, exclude: seq<Card>)
    ensures forall c :: multiset(Without(cards, exclude))[c] == if c in exclude then 0 else multiset(cards)[c]
    ensures Distinct(cards) ==> Distinct(Without(cards, exclude))
  {
    if cards != [] {
      var x, tail := cards[0], cards[1..];
      assert cards == [x] + tail;
      WithoutContents(tail, exclude);
      var rest := Without(tail, exclude);
      if x !in exclude && Distinct(cards) {
        assert multiset(tail)[x] == 0;
        assert multiset(rest)[x] == 0;
        assert x !in rest;
        assert Distinct(tail);
        assert Distinct([x] + rest);
      }
    }
  }

  /** Excluding one card more from a sequence without repetitions shortens it by at most one. */
  lemma {:induction false} WithoutOneMore(cards: seq<Card>, exclude: seq<Card>, e: Card)
    requires Distinct(cards)
    ensures Without(cards, exclude + [e]) == Without(Without(cards, exclude), [e])
    ensures |Without(cards, exclude + [e])| >= |Without(cards, exclude)| - 1
  {
    if cards != [] {
      var c, tail := cards[0], cards[1..];
      WithoutOneMore(tail, exclude, e);
      var rest := Without(tail, exclude);
      if c in exclude {
        assert Without(cards, exclude + [e]) == Without(tail, exclude + [e]);
        assert Without(cards, exclude) == rest;
      } else if c == e {
        // e occurs nowhere else, so the second filter keeps all of `rest`.
        assert cards == [c] + tail;
        WithoutContents(tail, exclude);
        assert multiset(tail)[e] == 0;
        assert multiset(rest)[e] == 0;
        KeepsAllAbsent(rest, [e]);
        assert Without(cards, exclude + [e]) == Without(tail, exclude + [e]);
        assert Without(cards, exclude) == [c] + rest;
        assert Without([c] + rest, [e]) == Without(rest, [e]) by {
          assert ([c] + rest)[1..] == rest;
        }
      } else {
        assert Without(cards, exclude + [e]) == [c] + Without(tail, exclude + [e]);
        assert Without(cards, exclude) == [c] + rest;
        assert Without([c] + rest, [e]) == [c] + Without(rest, [e]) by {
          assert ([c] + rest)[1..] == rest;
        }
      }
    }
  }

  /** Excluding cards that do not occur changes nothing. */
  lemma {:induction false} KeepsAllAbsent(cards: seq<Card>, exclude: seq<Card>)
    requires forall c :: c in exclude ==> multiset(cards)[c] == 0
    ensures Without(cards, exclude) == cards
  {
    if cards != [] {
      assert cards == [cards[0]] + cards[1..];
      KeepsAllAbsent(cards[1..], exclude);
    }
  }

  /** Excluding n cards from a sequence without repetitions removes at most n of them. */
  lemma {:induction false} WithoutBound(cards: seq<Card>, exclude: seq<Card>)
    requires Distinct(cards)
    ensures |Without(cards, exclude)| >= |cards| - |exclude|
    decreases |exclude|
  {
    if exclude == [] {
      KeepsAllAbsent(cards, exclude);
    } else {
      var front := exclude[..|exclude| - 1];
      assert exclude == front + [exclude[|exclude| - 1]];
      WithoutBound(cards, front);
      WithoutOneMore(cards, front, exclude[|exclude| - 1]);
    }
  }

  /** The number of deck cards left once `exclude` is taken out. */
  function RemainingCount(exclude: seq<Card>): (n: nat)
    ensures n >= 52 - |exclude|
    ensures n <= 52
  {
    DeckIsDistinct();
    WithoutBound(DECK, exclude);
    |Without(DECK, exclude)|
  }

  /**
   * Random numbers for the shuffles: `rng(k)(i)` is the draw the k-th shuffle
   * makes at position i. It is reduced into 0..i, the range of randbelow(i + 1).
   */
  type Rng = nat -> nat -> nat

  /**
   * The in-place shuffle the helper calls: for i from |s|-1 down to 1, swap
   * s[i] with s[j] where j is the draw for position i reduced into 0..i.
   */
  function Shuffle(s: seq<Card>, draw: nat -> nat): (r: seq<Card>)
    ensures |r| == |s|
  {
    if |s| <= 1 then s else ShuffleDown(s, |s| - 1, draw)
  }

  /** The swaps at positions i, i-1, ..., 1. */
  function ShuffleDown(s: seq<Card>, i: nat, draw: nat -> nat): (r: seq<Card>)
    requires i < |s|
    ensures |r| == |s|
    decreases i
  {
    if i == 0 then s
    else
      var j := draw(i) % (i + 1);
      ShuffleDown(s[i := s[j]][j := s[i]], i - 1, draw)
  }

  /** Swapping loses and duplicates nothing: the shuffle is a permutation. */
  lemma {:induction false} ShuffleDownPermutes(s: seq<Card>, i: nat, draw: nat -> nat)
    requires i < |s|
    ensures multiset(ShuffleDown(s, i, draw)) == multiset(s)
    decreases i
  {
    if i > 0 {
      var j := draw(i) % (i + 1);
      var t := s[i := s[j]][j := s[i]];
      assert multiset(t) == multiset(s);
      ShuffleDownPermutes(t, i - 1, draw);
    }
  }

  lemma ShufflePermutes(s: seq<Card>, draw: nat -> nat)
    ensures multiset(Shuffle(s, draw)) == multiset(s)
  {
    if |s| > 1 {
      ShuffleDownPermutes(s, |s| - 1, draw);
    }
  }

  /** shuffle_deck: the deck without the known cards, shuffled. */
  function ShuffleDeck(exclude: seq<Card>, draw: nat -> nat): (deck: seq<Card>)
    ensures |deck| == RemainingCount(exclude)
  {
    Shuffle(Without(DECK, exclude), draw)
  }

  /** The shuffled deck holds every card not excluded exactly once, and nothing else. */
  lemma ShuffleDeckContents(exclude: seq<Card>, draw: nat -> nat)
    ensures forall c :: multiset(ShuffleDeck(exclude, draw))[c] == if IsCard(c) && c !in exclude then 1 else 0
  {
    DeckCounts();
    WithoutContents(DECK, exclude);
    ShufflePermutes(Without(DECK, exclude), draw);
  }

  /** The cards `n` pops take from the end of `s`, in the order they are popped. */
  function Dealt(s: seq<Card>, n: nat): (r: seq<Card>)
    requires n <= |s|
    ensures |r| == n
  {
    if n == 0 then [] else Dealt(s, n - 1) + [s[|s| - n]]
  }

  /** The i-th card dealt is the i-th from the end of the deck. */
  lemma {:induction false} DealtOrder(s: seq<Card>, n: nat)
    requires n <= |s|
    ensures forall i :: 0 <= i < n ==> Dealt(s, n)[i] == s[|s| - 1 - i]
  {
    if n > 0 {
      DealtOrder(s, n - 1);
    }
  }

  /** The dealt cards are the last n cards of the deck, in some order. */
  lemma {:induction false} DealtIsSuffix(s: seq<Card>, n: nat)
    requires n <= |s|
    ensures multiset(Dealt(s, n)) == multiset(s[|s| - n..])
  {
    if n > 0 {
      var k := |s| - n;
      DealtIsSuffix(s, n - 1);
      assert multiset(Dealt(s, n - 1)) == multiset(s[k + 1..]);
      assert Dealt(s, n) == Dealt(s, n - 1) + [s[k]];
      assert s[k..] == [s[k]] + s[k + 1..];
    }
  }

  /** Dealing loses and duplicates nothing: the dealt cards and what is left make up the deck. */
  lemma DealtPartition(s: seq<Card>, n: nat)
    requires n <= |s|
    ensures multiset(Dealt(s, n)) + multiset(s[..|s| - n]) == multiset(s)
  {
    DealtIsSuffix(s, n);
    assert s == s[..|s| - n] + s[|s| - n..];
  }

  /** A working deck: a list that `Deal` pops from in place. */
  class Deck {
    var cards: seq<Card>

    constructor (cards: seq<Card>)
      ensures this.cards == cards
    {
      this.cards := cards;
    }

    /** deal_cards: pop `n` cards off the end of the deck and return them in popping order. */
    method Deal(n: nat) returns (hand: seq<Card>)
      requires n <= |cards|
      modifies this
      ensures hand == Dealt(old(cards), n)
      ensures cards == old(cards)[..|old(cards)| - n]
    {
      hand := [];
      var k := 0;
      while k < n
        invariant 0 <= k <= n
        invariant cards == old(cards)[..|old(cards)| - k]
        invariant hand == Dealt(old(cards), k)
      {
        var top := cards[|cards| - 1];
        cards := cards[..|cards| - 1];
        hand := hand + [top];
        k := k + 1;
      }
    }
  }

  function Upper(c: char): char {
    if 'a' <= c <= 'z' then (c as int - 32) as char else c
  }

  function Lower(c: char): char {
    if 'A' <= c <= 'Z' then (c as int + 32) as char else c
  }

  /**
   * standardize_card_input: "10" followed by a suit becomes "T" and the suit;
   * any other name is cut to its first two characters. Both are upper-cased.
   * A name shorter than two characters has no card (the source raises IndexError).
   */
  function StandardizeCardInput(card: string): (r: Option<Card>)
    ensures r.None? <==> |card| < 2
    ensures r.Some? ==> |r.value| == 2 && r.value[0] == Upper(r.value[0]) && r.value[1] == Upper(r.value[1])
    ensures |card| == 3 && card[..2] == "10" ==> r == Some(['T', Upper(card[2])])
    ensures |card| >= 2 && !(|card| == 3 && card[..2] == "10") ==> r == Some([Upper(card[0]), Upper(card[1])])
  {
    if |card| > 0 && card[..|card| - 1] == "10" then Some(['T', Upper(card[|card| - 1])])
    else if |card| < 2 then None
    else Some([Upper(card[0]), Upper(card[1])])
  }

  /** Normalising a normalised name changes nothing. */
  lemma StandardizeIdempotent(card: string)
    requires StandardizeCardInput(card).Some?
    ensures StandardizeCardInput(StandardizeCardInput(card).value) == StandardizeCardInput(card)
  {
    var c := StandardizeCardInput(card).value;
    assert c[..1] != "10";
  }

  /**
   * Every spelling of a deck card the helper accepts -- upper or lower case,
   * and "10" for the ten -- is normalised to that deck card.
   */
  lemma StandardizeSpellings(r: nat, s: nat)
    requires r < |RANK_CHARS| && s < |SUIT_CHARS|
    ensures StandardizeCardInput([RANK_CHARS[r], SUIT_CHARS[s]]) == Some(DECK[4 * r + s])
    ensures StandardizeCardInput([Lower(RANK_CHARS[r]), Lower(SUIT_CHARS[s])]) == Some(DECK[4 * r + s])
    ensures RANK_CHARS[r] == 'T' ==> StandardizeCardInput(['1', '0', SUIT_CHARS[s]]) == Some(DECK[4 * r + s])
    ensures RANK_CHARS[r] == 'T' ==> StandardizeCardInput(['1', '0', Lower(SUIT_CHARS[s])]) == Some(DECK[4 * r + s])
  {
    DeckAt(r, s);
    assert [RANK_CHARS[r], SUIT_CHARS[s]][..1] != "10";
    assert [Lower(RANK_CHARS[r]), Lower(SUIT_CHARS[s])][..1] != "10";
    assert ['1', '0', SUIT_CHARS[s]][..2] == "10";
    assert ['1', '0', Lower(SUIT_CHARS[s])][..2] == "10";
  }

}
