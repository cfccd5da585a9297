/**
 * Cards, hands and the soft-ace scoring rule of the blackjack engine
 * (the module-level helpers of cogs/BlackJack.py and the static Utils
 * class of games/blackjack/utils.py).
 */
module Cards {

  datatype Suit = Spades | Hearts | Diamonds | Clubs

  datatype Rank = Ace | Two | Three | Four | Five | Six | Seven | Eight | Nine | Ten | Jack | Queen | King

  datatype Card = Card(rank: Rank, suit: Suit)

  /** A hand is the ordered list of cards dealt to one side; its value is derived, never stored. */
  type Hand = seq<Card>

  /** The suits a card is drawn from, in the source's order. */
  const SUITS: seq<Suit> := [Spades, Hearts, Diamonds, Clubs]

  /** The ranks a card is drawn from, in the source's order. */
  const RANKS: seq<Rank> := [Ace, Two, Three, Four, Five, Six, Seven, Eight, Nine, Ten, Jack, Queen, King]

  /** The table VALUES: an ace starts at 11, numerals count their face value, pictures count 10. */
  function Value(r: Rank): (v: nat)
    ensures 2 <= v <= 11
    ensures v == 11 <==> r == Ace
  {
    match r
    case Ace => 11
    case Two => 2
    case Three => 3
    case Four => 4
    case Five => 5
    case Six => 6
    case Seven => 7
    case Eight => 8
    case Nine => 9
    case Ten => 10
    case Jack => 10
    case Queen => 10
    case King => 10
  }

  /** Every rank and every suit is listed exactly once, so a uniform choice from
      each list is a uniform choice over the 52 rank/suit pairs. */
  lemma DeckListsEachCardOnce(c: Card)
    ensures |RANKS| == 13 && |SUITS| == 4
    ensures c.rank in RANKS && c.suit in SUITS
    ensures forall i, j :: 0 <= i < j < |RANKS| ==> RANKS[i] != RANKS[j]
    ensures forall i, j :: 0 <= i < j < |SUITS| ==> SUITS[i] != SUITS[j]
  {
    match c.rank {
      case Ace => assert RANKS[0] == c.rank;
      case Two => assert RANKS[1] == c.rank;
      case Three => assert RANKS[2] == c.rank;
      case Four => assert RANKS[3] == c.rank;
      case Five => assert RANKS[4] == c.rank;
      case Six => assert RANKS[5] == c.rank;
      case Seven => assert RANKS[6] == c.rank;
      case Eight => assert RANKS[7] == c.rank;
      case Nine => assert RANKS[8] == c.rank;
      case Ten => assert RANKS[9] == c.rank;
      case Jack => assert RANKS[10] == c.rank;
      case Queen => assert RANKS[11] == c.rank;
      case King => assert RANKS[12] == c.rank;
    }
    match c.suit {
      case Spades => assert SUITS[0] == c.suit;
      case Hearts => assert SUITS[1] == c.suit;
      case Diamonds => assert SUITS[2] == c.suit;
      case Clubs => assert SUITS[3] == c.suit;
    }
  }

  /** draw_card: a rank chosen from RANKS and a suit chosen from SUITS, with
      replacement (an unlimited deck). The random choice is nondeterministic here. */
  method DrawCard() returns (c: Card)
    ensures c.rank in RANKS && c.suit in SUITS
  {
    assert RANKS[0] in RANKS && SUITS[0] in SUITS;
    var r :| r in RANKS;
    var s :| s in SUITS;
    c := Card(r, s);
  }

  /** Sum of VALUES over the hand, every ace counted as 11. */
  function RawSum(hand: Hand): (sum: nat)
    ensures 2 * |hand| <= sum <= 11 * |hand|
  {
    if hand == [] then 0 else RawSum(hand[..|hand| - 1]) + Value(hand[|hand| - 1].rank)
  }

  /** Number of aces in the hand. */
  function AceCount(hand: Hand): (aces: nat)
    ensures aces <= |hand|
  {
    if hand == [] then 0 else AceCount(hand[..|hand| - 1]) + (if hand[|hand| - 1].rank == Ace then 1 else 0)
  }

  /** A card's value when an ace counts 1. */
  function HardValue(r: Rank): (v: nat)
    ensures 1 <= v <= 10
    ensures r == Ace <==> v == Value(r) - 10
  {
    if r == Ace then 1 else Value(r)
  }

  /** The hand's value when every ace counts 1. */
  function HardTotal(hand: Hand): (total: nat)
    ensures |hand| <= total <= 10 * |hand|
  {
    if hand == [] then 0 else HardTotal(hand[..|hand| - 1]) + HardValue(hand[|hand| - 1].rank)
  }

  /** Counting every ace as 1 is the raw sum less 10 per ace. */
  lemma {:induction false} HardTotalIsRawLessAces(hand: Hand)
    ensures HardTotal(hand) == RawSum(hand) - 10 * AceCount(hand)
  {
    if hand != [] {
      HardTotalIsRawLessAces(hand[..|hand| - 1]);
    }
  }

  /** The number of aces that drop from 11 to 1 when a hand totals `total`
      with `aces` aces: the fewest that bring the total to 21 or less, or all
      of them when even that is not enough. */
  function Demotions(total: int, aces: nat): (k: nat)
    ensures k <= aces
    ensures k == 0 || total - 10 * (k - 1) > 21
    ensures total - 10 * k <= 21 || k == aces
  {
    if total <= 21 then 0
    else if (total - 12) / 10 < aces then (total - 12) / 10
    else aces
  }

  /** hand_value, stated as the raw sum less 10 for each ace that must be demoted. */
  function HandValue(hand: Hand): (value: int)
    ensures HardTotal(hand) <= value <= RawSum(hand)
    ensures value <= 21 || value == HardTotal(hand)
  {
    HardTotalIsRawLessAces(hand);
    RawSum(hand) - 10 * Demotions(RawSum(hand), AceCount(hand))
  }

  /** hand_value as the source computes it: start from the raw sum and demote
      one ace at a time while the total is over 21 and aces remain. */
  method ComputeHandValue(hand: Hand) returns (value: int)
    ensures value == HandValue(hand)
  {
    value := RawSum(hand);
    var aces := AceCount(hand);
    while value > 21 && aces > 0
      invariant 0 <= aces <= AceCount(hand)
      invariant value == RawSum(hand) - 10 * (AceCount(hand) - aces)
      invariant AceCount(hand) - aces <= Demotions(RawSum(hand), AceCount(hand))
    {
      value := value - 10;
      aces := aces - 1;
    }
  }

  lemma {:induction false} RawSumAppend(hand: Hand, c: Card)
    ensures RawSum(hand + [c]) == RawSum(hand) + Value(c.rank)
    ensures AceCount(hand + [c]) == AceCount(hand) + (if c.rank == Ace then 1 else 0)
    ensures HardTotal(hand + [c]) == HardTotal(hand) + HardValue(c.rank)
  {
    assert (hand + [c])[..|hand|] == hand;
  }

  /** Drawing a card raises the hard total by at least one (an ace adds 1,
      anything else at least 2): the measure that ends the dealer's loop. */
  lemma HardTotalGrows(hand: Hand, c: Card)
    ensures HardTotal(hand) + 1 <= HardTotal(hand + [c]) <= HardTotal(hand) + 10
  {
    RawSumAppend(hand, c);
  }

  /** The soft-ace rule in terms of the hand: the value lies between the hard
      total and the raw sum; a hand without aces scores its raw sum; a value
      over 21 means every ace already counts 1; a non-empty hand is worth at least 2. */
  lemma HandValueBounds(hand: Hand)
    ensures HardTotal(hand) <= HandValue(hand) <= RawSum(hand)
    ensures AceCount(hand) == 0 ==> HandValue(hand) == RawSum(hand)
    ensures HandValue(hand) > 21 ==> HandValue(hand) == HardTotal(hand)
    ensures hand != [] ==> HandValue(hand) >= 2
  {
    if hand != [] {
      RawSumAppend(hand[..|hand| - 1], hand[|hand| - 1]);
      assert hand[..|hand| - 1] + [hand[|hand| - 1]] == hand;
    }
  }

  /** Any freshly dealt two-card hand is worth at most 21 (two aces score 12). */
  lemma TwoCardsNeverBust(a: Card, b: Card)
    ensures HandValue([a, b]) <= 21
  {
    RawSumAppend([a], b);
    RawSumAppend([], a);
    assert [a] + [b] == [a, b];
    assert [] + [a] == [a];
  }

  /** Ten and King score exactly 20. */
  lemma TenKingIs20()
    ensures HandValue([Card(Ten, Spades), Card(King, Hearts)]) == 20
  {
    var ten, king := Card(Ten, Spades), Card(King, Hearts);
    RawSumAppend([], ten);
    assert [] + [ten] == [ten];
    RawSumAppend([ten], king);
    assert [ten] + [king] == [ten, king];
  }

  /** The raw sum, ace count and hard total of a three-card hand, card by card. */
  lemma {:induction false} HandOfThree(a: Card, b: Card, c: Card)
    ensures RawSum([a, b, c]) == Value(a.rank) + Value(b.rank) + Value(c.rank)
    ensures AceCount([a, b, c]) ==
      (if a.rank == Ace then 1 else 0) + (if b.rank == Ace then 1 else 0) + (if c.rank == Ace then 1 else 0)
  {
    RawSumAppend([], a);
    assert [] + [a] == [a];
    RawSumAppend([a], b);
    assert [a] + [b] == [a, b];
    RawSumAppend([a, b], c);
    assert [a, b] + [c] == [a, b, c];
  }

  /** Ace, six, five score 12: the ace is demoted once the total passes 21. */
  lemma AceSixFiveIs12()
    ensures HandValue([Card(Ace, Spades), Card(Six, Hearts), Card(Five, Clubs)]) == 12
  {
    HandOfThree(Card(Ace, Spades), Card(Six, Hearts), Card(Five, Clubs));
  }

  /** Ace, ace, nine score 21: demoting one ace is enough, the other keeps 11. */
  lemma AceAceNineIs21()
    ensures HandValue([Card(Ace, Spades), Card(Ace, Hearts), Card(Nine, Clubs)]) == 21
  {
    HandOfThree(Card(Ace, Spades), Card(Ace, Hearts), Card(Nine, Clubs));
  }

  function RankLabel(r: Rank): (s: string)
    ensures |s| > 0 && forall i :: 0 <= i < |s| ==> s[i] != ' '
  {
    match r
    case Ace => "A"
    case Two => "2"
    case Three => "3"
    case Four => "4"
    case Five => "5"
    case Six => "6"
    case Seven => "7"
    case Eight => "8"
    case Nine => "9"
    case Ten => "10"
    case Jack => "J"
    case Queen => "Q"
    case King => "K"
  }

  function SuitSymbol(s: Suit): (t: string)
    ensures |t| == 1 && t[0] != ' '
  {
    match s
    case Spades => "♠"
    case Hearts => "♥"
    case Diamonds => "♦"
    case Clubs => "♣"
  }

  /** One card as the source prints it: the rank followed by the suit, no space. */
  function CardText(c: Card): (t: string)
    ensures |t| >= 2 && forall i :: 0 <= i < |t| ==> t[i] != ' '
  {
    RankLabel(c.rank) + SuitSymbol(c.suit)
  }

  /** format_hand: the cards' texts joined by single spaces. */
  function FormatHand(hand: Hand): (text: string)
    ensures text == "" <==> hand == []
    ensures hand != [] ==> CardText(hand[0]) <= text
  {
    if hand == [] then ""
    else if |hand| == 1 then CardText(hand[0])
    else FormatHand(hand[..|hand| - 1]) + " " + CardText(hand[|hand| - 1])
  }

  function CountSpaces(s: string): nat
  {
    if s == [] then 0 else CountSpaces(s[..|s| - 1]) + (if s[|s| - 1] == ' ' then 1 else 0)
  }

  lemma {:induction false} CountSpacesConcat(a: string, b: string)
    ensures CountSpaces(a + b) == CountSpaces(a) + CountSpaces(b)
    decreases |b|
  {
    if b == [] {
      assert a + b == a;
    } else {
      CountSpacesConcat(a, b[..|b| - 1]);
      assert (a + b)[..|a + b| - 1] == a + b[..|b| - 1];
    }
  }

  lemma {:induction false} NoSpaces(s: string)
    requires forall i :: 0 <= i < |s| ==> s[i] != ' '
    ensures CountSpaces(s) == 0
  {
    if s != [] {
      NoSpaces(s[..|s| - 1]);
    }
  }

  /** format_hand puts exactly one separator between neighbouring cards: n
      cards give n - 1 spaces, every other character belongs to a card, and
      only the empty hand gives the empty string. */
  lemma {:induction false} FormatHandSeparators(hand: Hand)
    ensures FormatHand(hand) == "" <==> hand == []
    ensures hand != [] ==> CountSpaces(FormatHand(hand)) == |hand| - 1
    ensures hand != [] ==> |FormatHand(hand)| >= 3 * |hand| - 1
  {
    if |hand| == 1 {
      NoSpaces(CardText(hand[0]));
    } else if |hand| > 1 {
      var front := hand[..|hand| - 1];
      var last := CardText(hand[|hand| - 1]);
      FormatHandSeparators(front);
      NoSpaces(last);
      CountSpacesConcat(FormatHand(front) + " ", last);
      CountSpacesConcat(FormatHand(front), " ");
      assert CountSpaces(" ") == 1 by {
        assert " "[..0] == [];
      }
    }
  }
}
