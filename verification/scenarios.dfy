/**
 Rounds of the room engine played out on fixed hands: seat 1 and seat 2 get
 supplied hands, seats 3 and 4 draw from the deck, and S3 is given as the
 opening card.  Each lemma starts from any room dealt that way (`Fresh`), follows one
 sequence of calls, and states which calls are accepted and what the board
 holds afterwards.
 */
module Scenarios {
  import opened Options
  import opened Seqs
  import opened Cards
  import opened Combinations
  import opened Seats
  import opened Engine

  /** The hand supplied for seat 1: the four threes, three fours, three fives, S6 and S7. */
  function FirstHand(): seq<Card> {
    [Card(Spades, 3), Card(Diamonds, 3), Card(Hearts, 3), Card(Clubs, 3),
     Card(Spades, 4), Card(Diamonds, 4), Card(Hearts, 4),
     Card(Spades, 5), Card(Diamonds, 5), Card(Hearts, 5),
     Card(Spades, 6), Card(Spades, 7)]
  }

  /** The hand supplied for seat 2: four tens and the spades from J up to 2. */
  function SecondHand(): seq<Card> {
    [Card(Spades, 10), Card(Diamonds, 10), Card(Clubs, 10), Card(Hearts, 10),
     Card(Spades, 11), Card(Spades, 12), Card(Spades, 13), Card(Spades, 1), Card(Spades, 2)]
  }

  /** A four-seat round with the two supplied hands, two drawn hands, and S3 to open. */
  function Start(d3: seq<Card>, d4: seq<Card>): (r: Room)
    requires |d3| > 0 && |d4| > 0
    ensures Fresh(r)
  {
    InitGame(StandardDeck(), 4, [Injected(FirstHand()), Injected(SecondHand()), Drawn(d3), Drawn(d4)], Some(Card(Spades, 3)))
  }

  /** A room as the test round leaves it before the first play: nothing played yet, S3 to open, the two supplied hands in place. */
  predicate Fresh(r: Room) {
    && r.current.None? && r.top.None? && r.boardType.None? && r.last.None? && r.board == {}
    && r.lowest == Some(Card(Spades, 3))
    && r.Hand(1) == Elements(FirstHand()) && r.Hand(2) == Elements(SecondHand())
  }

  /** A play that passes the checks, names different cards and finds them all in the hand is recorded in full. */
  lemma Accepted(r: Room, cards: seq<Card>, player: int, t: Combination)
    requires Screen(r, cards, player) == Some(t) && Distinct(cards) && Elements(cards) <= r.Hand(player)
    ensures PlayCards(r, cards, player).accepted
    ensures PlayCards(r, cards, player).room.board == r.board + Elements(cards)
    ensures PlayCards(r, cards, player).room.boardType == Some(t)
    ensures PlayCards(r, cards, player).room.top == Some(cards[|cards| - 1])
    ensures PlayCards(r, cards, player).room.current == Some(Rotate(player))
    ensures forall q :: q != player ==> PlayCards(r, cards, player).room.Hand(q) == r.Hand(q)
  {
  }

  /** Opening with the pair S3, D3 moves both cards to the board and passes the turn to seat 2. */
  lemma PairOpens(r: Room)
    requires Fresh(r)
    ensures PlayCards(r, [Card(Spades, 3), Card(Diamonds, 3)], 1).accepted
    ensures PlayCards(r, [Card(Spades, 3), Card(Diamonds, 3)], 1).room.board == {Card(Spades, 3), Card(Diamonds, 3)}
    ensures PlayCards(r, [Card(Spades, 3), Card(Diamonds, 3)], 1).room.current == Some(2)
  {
    var cards := [Card(Spades, 3), Card(Diamonds, 3)];
    assert DetermineCombination(cards) == Pair;
    assert Elements(cards) <= r.Hand(1);
  }

  /** S3, S4 is no combination: the play is refused and the room is unchanged. */
  lemma MixedPairRefused(r: Room)
    requires Fresh(r)
    ensures PlayCards(r, [Card(Spades, 3), Card(Spades, 4)], 1) == Outcome(false, r)
  {
  }

  /** Seat 1 opens with the run S3, S4, S5: the run is the board's type, S5 its top card, and seat 2 is next. */
  lemma LowRunOpens(r: Room, run: seq<Card>)
    requires Fresh(r)
    requires run == [Card(Spades, 3), Card(Spades, 4), Card(Spades, 5)]
    ensures
      var o := PlayCards(r, run, 1);
      && o.accepted
      && o.room.board == Elements(run)
      && o.room.top == Some(Card(Spades, 5)) && o.room.boardType == Some(RunOfSingles)
      && o.room.current == Some(2)
      && o.room.Hand(2) == Elements(SecondHand())
  {
    LowRunPasses(r, run);
    Accepted(r, run, 1, RunOfSingles);
  }

  /** The run S3, S4, S5 passes the opening checks and is in seat 1's hand. */
  lemma LowRunPasses(r: Room, run: seq<Card>)
    requires Fresh(r)
    requires run == [Card(Spades, 3), Card(Spades, 4), Card(Spades, 5)]
    ensures Screen(r, run, 1) == Some(RunOfSingles)
    ensures Distinct(run) && Elements(run) <= r.Hand(1)
  {
    KingAceTwoIsRun(run);
    var h := FirstHand();
    assert run[0] == h[0] && run[1] == h[4] && run[2] == h[7];
  }

  /** On a board whose top is the run ending in S5, seat 2 may play the run K-A-2, which wraps from King to Ace to 2. */
  lemma KingAceTwoOnRun(r: Room, run: seq<Card>)
    requires r.current == Some(2) && r.top == Some(Card(Spades, 5)) && r.boardType == Some(RunOfSingles)
    requires r.Hand(2) == Elements(SecondHand())
    requires run == [Card(Spades, 13), Card(Spades, 1), Card(Spades, 2)]
    ensures PlayCards(r, run, 2).accepted
    ensures PlayCards(r, run, 2).room.board == r.board + Elements(run)
  {
    KingAceTwoIsRun(run);
    assert Screen(r, run, 2) == Some(RunOfSingles);
    var h := SecondHand();
    assert run[0] == h[6] && run[1] == h[7] && run[2] == h[8];
    assert Elements(run) <= r.Hand(2);
    Accepted(r, run, 2, RunOfSingles);
  }

  /** After the run 3-4-5 by seat 1, seat 2 beats it with the run K-A-2, and all six cards end on the board. */
  lemma KingAceTwoBeatsLowRun(r: Room, low: seq<Card>, high: seq<Card>)
    requires Fresh(r)
    requires low == [Card(Spades, 3), Card(Spades, 4), Card(Spades, 5)]
    requires high == [Card(Spades, 13), Card(Spades, 1), Card(Spades, 2)]
    ensures
      var o1 := PlayCards(r, low, 1);
      var o2 := PlayCards(o1.room, high, 2);
      && o1.accepted && o2.accepted
      && o2.room.board == Elements(low) + Elements(high)
  {
    LowRunOpens(r, low);
    KingAceTwoOnRun(PlayCards(r, low, 1).room, high);
  }

  /** Seat 1 opens with the single S3: S3 is the top card of a board of singles, and seat 2 is next. */
  lemma SingleOpens(r: Room)
    requires Fresh(r)
    ensures
      var o := PlayCards(r, [Card(Spades, 3)], 1);
      && o.accepted
      && o.room.top == Some(Card(Spades, 3)) && o.room.boardType == Some(Single)
      && o.room.current == Some(2)
      && o.room.Hand(2) == Elements(SecondHand())
  {
    assert Elements([Card(Spades, 3)]) <= r.Hand(1);
  }

  /** On a board of singles, a pair is the wrong combination and is refused. */
  lemma PairOnSingleRefused(r: Room, pair: seq<Card>)
    requires r.top.Some? && r.boardType == Some(Single)
    requires pair == [Card(Spades, 10), Card(Diamonds, 10)]
    ensures PlayCards(r, pair, 2) == Outcome(false, r)
  {
    assert DetermineCombination(pair) == Pair;
  }

  /** On a board of singles topped by S3, seat 2 may play four of a kind. */
  lemma FourOfAKindOnSingle(r: Room, four: seq<Card>)
    requires r.current == Some(2) && r.top == Some(Card(Spades, 3)) && r.boardType == Some(Single)
    requires r.Hand(2) == Elements(SecondHand())
    requires four == [Card(Spades, 10), Card(Diamonds, 10), Card(Hearts, 10), Card(Clubs, 10)]
    ensures PlayCards(r, four, 2).accepted
  {
    assert AllSameValue(four);
    assert DetermineCombination(four) == FourOfAKind;
    assert Screen(r, four, 2) == Some(FourOfAKind);
    var h := SecondHand();
    assert four[0] == h[0] && four[1] == h[1] && four[2] == h[3] && four[3] == h[2];
    assert Elements(four) <= r.Hand(2);
  }

  /** After seat 1 opens with S3, seat 2 may not answer with a pair but may with four of a kind. */
  lemma FourOfAKindGoesOnSingles(r: Room)
    requires Fresh(r)
    ensures
      var o1 := PlayCards(r, [Card(Spades, 3)], 1);
      && o1.accepted
      && !PlayCards(o1.room, [Card(Spades, 10), Card(Diamonds, 10)], 2).accepted
      && PlayCards(o1.room, [Card(Spades, 10), Card(Diamonds, 10), Card(Hearts, 10), Card(Clubs, 10)], 2).accepted
  {
    SingleOpens(r);
    var r1 := PlayCards(r, [Card(Spades, 3)], 1).room;
    PairOnSingleRefused(r1, [Card(Spades, 10), Card(Diamonds, 10)]);
    FourOfAKindOnSingle(r1, [Card(Spades, 10), Card(Diamonds, 10), Card(Hearts, 10), Card(Clubs, 10)]);
  }

  /** A run that skips a value is no combination: S3, S4, S6 is refused. */
  lemma SkippedValueRefused(r: Room)
    requires Fresh(r)
    ensures !PlayCards(r, [Card(Spades, 3), Card(Spades, 4), Card(Spades, 6)], 1).accepted
  {
  }

  /** Before the round opens, nobody may pass. */
  lemma NoPassBeforeOpening(r: Room, player: int)
    requires Fresh(r)
    ensures !PassTurn(r, player).accepted
  {
  }
}
