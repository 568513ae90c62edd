/**
 The card model shared by the room engine and the older controller: a card is
 a suit letter (C, D, H, S) and a value 1..13, where 1 is the Ace and 11..13
 are Jack, Queen and King.  `Compare` is the game's ordering, `LowestCard`
 the left-to-right scan for the lowest card, and `StandardDeck` the 52-card
 deck in the order the server lists it.
 */
module Cards {
  import opened Seqs

  datatype Suit = Clubs | Diamonds | Hearts | Spades

  type Value = v: int | 1 <= v <= 13 witness 1

  datatype Card = Card(suit: Suit, value: Value)

  /** The letter that starts the card's string form ("C3", "H12"). */
  function Letter(s: Suit): char {
    match s
    case Clubs => 'C'
    case Diamonds => 'D'
    case Hearts => 'H'
    case Spades => 'S'
  }

  /** Position of a value in the rank order 3 < 4 < ... < K < Ace < 2. */
  function RankIndex(v: Value): nat {
    if v <= 2 then v + 10 else v - 3
  }

  /** Position of a suit in the tie-break order Spades < Clubs < Diamonds < Hearts. */
  function SuitIndex(s: Suit): nat {
    match s
    case Spades => 0
    case Clubs => 1
    case Diamonds => 2
    case Hearts => 3
  }

  /** Reference ordering: the card's place among all 52, rank first, suit second. */
  function Key(c: Card): nat {
    4 * RankIndex(c.value) + SuitIndex(c.suit)
  }

  /**
   The comparator as the server writes it: identical cards give 0; equal
   values fall to the suit (Spades lowest, then by letter); otherwise a 2 beats
   everything and an Ace everything but a 2; otherwise the larger value wins.
   Its result agrees with the reference ordering `Key`.
   */
  function Compare(a: Card, b: Card): (r: int)
    ensures r == 0 <==> a == b
    ensures r == 1 <==> Key(a) > Key(b)
    ensures r == -1 <==> Key(a) < Key(b)
  {
    if a == b then 0
    else if a.value == b.value then
      if a.suit == Spades then -1
      else if b.suit == Spades then 1
      else if Letter(a.suit) > Letter(b.suit) then 1 else -1
    else if a.value <= 2 || b.value <= 2 then
      if a.value == 2 || (a.value == 1 && b.value != 2) then 1 else -1
    else if a.value > b.value then 1 else -1
  }

  /** `Compare` is a strict total order on the 52 cards: exactly one of a < b, a = b, a > b holds, and it is transitive. */
  lemma CompareIsStrictTotalOrder()
    ensures forall a: Card :: Compare(a, a) == 0
    ensures forall a: Card, b: Card :: Compare(a, b) == -Compare(b, a)
    ensures forall a: Card, b: Card :: Compare(a, b) in {-1, 0, 1}
    ensures forall a: Card, b: Card, c: Card :: Compare(a, b) == 1 && Compare(b, c) == 1 ==> Compare(a, c) == 1
  {
  }

  /** The rank order: a 2 beats every other value, an Ace every value but a 2, and a 3 loses to every other value. */
  lemma RankOrder(a: Card, b: Card)
    requires a.value != b.value
    ensures a.value == 2 ==> Compare(a, b) == 1
    ensures a.value == 1 && b.value != 2 ==> Compare(a, b) == 1
    ensures a.value == 3 ==> Compare(a, b) == -1
    ensures 3 <= a.value < b.value ==> Compare(a, b) == -1
  {
  }

  /** The suit tie-break: for one value, Spades < Clubs < Diamonds < Hearts. */
  lemma SuitOrder(v: Value)
    ensures Compare(Card(Spades, v), Card(Clubs, v)) == -1
    ensures Compare(Card(Clubs, v), Card(Diamonds, v)) == -1
    ensures Compare(Card(Diamonds, v), Card(Hearts, v)) == -1
  {
  }

  /** S3 is the lowest card of all: no other card compares at or below it. */
  lemma NothingBelowThreeOfSpades(c: Card)
    ensures Compare(c, Card(Spades, 3)) != 1 <==> c == Card(Spades, 3)
  {
  }

  /**
   The running minimum of the server's scan: starting from `lowest`, each
   later card replaces it when the current lowest compares greater.
   */
  function LowestFrom(lowest: Card, rest: seq<Card>): (l: Card)
    ensures l == lowest || l in rest
    ensures Compare(l, lowest) != 1
    ensures forall c :: c in rest ==> Compare(l, c) != 1
    decreases |rest|
  {
    if |rest| == 0 then lowest
    else LowestFrom(if Compare(lowest, rest[0]) == 1 then rest[0] else lowest, rest[1..])
  }

  /** The lowest card of a non-empty list: a member that no member lies below. */
  function LowestCard(cards: seq<Card>): (l: Card)
    requires |cards| > 0
    ensures l in cards
    ensures forall c :: c in cards ==> Compare(l, c) != 1
  {
    LowestFrom(cards[0], cards)
  }

  /** The suit of the i-th block of 13 in the server's deck listing. */
  function SuitAt(i: int): Suit {
    if i == 0 then Clubs else if i == 1 then Diamonds else if i == 2 then Hearts else Spades
  }

  /** Index of a suit's block in the server's deck listing (C, D, H, S). */
  function BlockOf(s: Suit): nat {
    match s
    case Clubs => 0
    case Diamonds => 1
    case Hearts => 2
    case Spades => 3
  }

  /** The 52-card deck in the order the server lists it: C1..C13, D1..D13, H1..H13, S1..S13. */
  function StandardDeck(): seq<Card> {
    seq(52, i requires 0 <= i < 52 => Card(SuitAt(i / 13), i % 13 + 1))
  }

  /** Every card appears in the standard deck exactly once, at position 13 * block + value - 1. */
  lemma StandardDeckComplete(c: Card)
    ensures 0 <= 13 * BlockOf(c.suit) + c.value - 1 < 52
    ensures StandardDeck()[13 * BlockOf(c.suit) + c.value - 1] == c
    ensures Distinct(StandardDeck())
  {
  }

  /** The standard deck holds 52 different cards: the whole card domain. */
  lemma StandardDeckSize()
    ensures |Elements(StandardDeck())| == 52
    ensures forall c: Card :: c in Elements(StandardDeck())
  {
    StandardDeckComplete(Card(Spades, 3));
    DistinctElementsCount(StandardDeck());
    forall c: Card ensures c in Elements(StandardDeck()) {
      StandardDeckComplete(c);
    }
  }
}
