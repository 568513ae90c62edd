/**
 The older single-card game controller, a state machine of its own: one
 card per play, no top card or board type (a play is compared against
 whichever board card the store lists first), and the turn passed on as
 `(p + 1) % 4`.  It shares the card order and the lowest-card scan with the
 room engine and nothing else.
 */
module Controller {
  import opened Options
  import opened Seqs
  import opened Cards
  import opened Seats
  import opened Dealing

  /** What the store holds for a room under this controller. */
  datatype Table = Table(
    deck: set<Card>,
    hands: Hands,
    board: set<Card>,
    current: Option<int>,
    last: Option<int>,
    lowest: Option<Card>)
  {
    /** The hand read back for player number p. */
    function Hand(p: int): set<Card> {
      HandOf(hands, p)
    }
  }

  /** A call's result and the table it leaves behind. */
  datatype Outcome = Outcome(accepted: bool, table: Table)

  /** No card in two hands and no held card on the board. */
  ghost predicate Consistent(t: Table) {
    HandsDisjoint(t.hands) && Held(t.hands) !! t.board
  }

  /**
   Start a round: empty the board and the four hands, deal seats
   1..playerCount five cards each from the standard deck, and record the
   lowest card dealt.  The turn and the last player are left as they were.
   */
  function InitGame(prev: Table, playerCount: int, dealt: seq<seq<Card>>): (t: Table)
    requires 1 <= playerCount <= 4 && |dealt| == playerCount
    requires IsDraw(Elements(StandardDeck()), dealt)
    ensures t.board == {}
    ensures t.current == prev.current && t.last == prev.last
    ensures forall p :: 1 <= p <= playerCount ==> t.Hand(p) == Elements(dealt[p - 1]) && |t.Hand(p)| == HandSize
    ensures forall p :: IsSeat(p) && p > playerCount ==> t.Hand(p) == {}
    ensures Consistent(t)
    ensures Held(t.hands) !! t.deck && Held(t.hands) + t.deck == Elements(StandardDeck())
    ensures t.lowest.Some? && t.lowest.value in Held(t.hands)
    ensures forall c :: c in Held(t.hands) ==> Compare(t.lowest.value, c) != 1
  {
    var hands := DealtHands(dealt);
    DrawnHands(Elements(StandardDeck()), dealt);
    LowestIsHeldLowest(dealt);
    Table(Elements(StandardDeck()) - Held(hands), hands, {}, prev.current, prev.last, Some(LowestDealt(dealt)))
  }

  lemma LowestIsHeldLowest(dealt: seq<seq<Card>>)
    requires 1 <= |dealt| <= 4
    requires forall i :: 0 <= i < |dealt| ==> |dealt[i]| > 0
    ensures LowestDealt(dealt) in Held(DealtHands(dealt))
    ensures forall c :: c in Held(DealtHands(dealt)) ==> Compare(LowestDealt(dealt), c) != 1
  {
  }

  /**
   The checks and the single move of a play, the turn going to `next` on
   success.  `members` is the board as the store lists it; its first element
   is the card the play must beat.
   */
  function Attempt(t: Table, card: Card, player: int, members: seq<Card>, next: int): (o: Outcome)
    requires Elements(members) == t.board
  {
    if t.current.None? && t.lowest != Some(card) then Outcome(false, t)
    else if t.current.Some? && t.current.value != player then Outcome(false, t)
    else if |members| > 0 && Compare(card, members[0]) != 1 then Outcome(false, t)
    else if card !in t.Hand(player) then Outcome(false, t)
    else
      Outcome(true, t.(
        hands := WithHand(t.hands, player, t.Hand(player) - {card}),
        board := t.board + {card},
        current := Some(next),
        last := Some(player)))
  }

  /**
   Play one card, as written: before the first play only the lowest dealt
   card itself is accepted; after it only the player whose turn it is; the
   card must beat the first listed board card unless the board is empty, and
   must be in the player's hand.  An accepted card moves to the board, the
   turn goes to `(player + 1) % 4` and the player becomes the last player;
   a refused play changes nothing.
   */
  function PlayCard(t: Table, card: Card, player: int, members: seq<Card>): (o: Outcome)
    requires Elements(members) == t.board
    ensures o.accepted <==>
      && (t.current.None? ==> t.lowest == Some(card))
      && (t.current.Some? ==> t.current.value == player)
      && (t.board == {} || Compare(card, members[0]) == 1)
      && card in t.Hand(player)
    ensures !o.accepted ==> o.table == t
    ensures o.accepted ==>
      && IsSeat(player)
      && o.table.board == t.board + {card}
      && o.table.Hand(player) == t.Hand(player) - {card}
      && o.table.current == Some((player + 1) % 4)
      && o.table.last == Some(player)
      && o.table.lowest == t.lowest && o.table.deck == t.deck
    ensures forall q :: q != player ==> o.table.Hand(q) == t.Hand(q)
  {
    assert |members| > 0 ==> members[0] in t.board;
    Attempt(t, card, player, members, (player + 1) % 4)
  }

  /** A play never creates or loses a card, and keeps the table consistent. */
  lemma PlayCardConserves(t: Table, card: Card, player: int, members: seq<Card>)
    requires Elements(members) == t.board
    ensures Held(PlayCard(t, card, player, members).table.hands) + PlayCard(t, card, player, members).table.board
      == Held(t.hands) + t.board
    ensures Consistent(t) ==> Consistent(PlayCard(t, card, player, members).table)
  {
  }

  /**
   The answer depends on which board card the store lists first: with S5 and
   S9 on the board, S7 is accepted against one listing and refused against
   the other.
   */
  lemma FirstListedCardDecides(t: Table)
    requires t.current == Some(1) && t.board == {Card(Spades, 5), Card(Spades, 9)}
    requires Card(Spades, 7) in t.Hand(1)
    ensures PlayCard(t, Card(Spades, 7), 1, [Card(Spades, 5), Card(Spades, 9)]).accepted
    ensures !PlayCard(t, Card(Spades, 7), 1, [Card(Spades, 9), Card(Spades, 5)]).accepted
  {
  }

  // ------------------------------------------------------ turn rotation

  /** An accepted play by seat 3 hands the turn to player 0, a seat that does not exist. */
  lemma SeatThreeHandsTurnToSeatZero(t: Table, card: Card, members: seq<Card>)
    requires Elements(members) == t.board
    requires PlayCard(t, card, 3, members).accepted
    ensures PlayCard(t, card, 3, members).table.current == Some(0)
    ensures !IsSeat(0)
  {
  }

  /** With the turn at player 0, every later play is refused: player 0 has no hand. */
  lemma SeatZeroRefusesEveryPlay(t: Table, card: Card, player: int, members: seq<Card>)
    requires Elements(members) == t.board
    requires t.current == Some(0)
    ensures PlayCard(t, card, player, members) == Outcome(false, t)
  {
  }

  /** Three five-card hands; the third holds the lowest card of the deck, S3. */
  function StallDeal(): seq<seq<Card>> {
    [[Card(Clubs, 4), Card(Clubs, 5), Card(Clubs, 6), Card(Clubs, 7), Card(Clubs, 8)],
     [Card(Diamonds, 4), Card(Diamonds, 5), Card(Diamonds, 6), Card(Diamonds, 7), Card(Diamonds, 8)],
     [Card(Spades, 3), Card(Hearts, 4), Card(Hearts, 5), Card(Hearts, 6), Card(Hearts, 7)]]
  }

  /** The three hands are a possible draw from the standard deck, with S3 in the third. */
  lemma StallDealIsDraw()
    ensures IsDraw(Elements(StandardDeck()), StallDeal())
    ensures |StallDeal()| == 3 && Card(Spades, 3) in StallDeal()[2]
  {
    StandardDeckSize();
    StallDealDrawsFrom(Elements(StandardDeck()));
  }

  /** The three hands are a possible draw from any deck that holds every card. */
  lemma StallDealDrawsFrom(deck: set<Card>)
    requires forall c: Card :: c in deck
    ensures IsDraw(deck, StallDeal())
  {
  }

  /**
   A round of three where seat 3 is dealt S3, the lowest card of all: S3 is
   recorded as the opening card, seat 3 opens with it, and the turn goes to
   player 0, from where no play is ever accepted.  `StallDealIsDraw` shows
   such a deal exists.
   */
  lemma SeatThreeOpeningStallsRound(prev: Table, dealt: seq<seq<Card>>)
    requires prev.current.None?
    requires |dealt| == 3 && IsDraw(Elements(StandardDeck()), dealt)
    requires Card(Spades, 3) in dealt[2]
    ensures InitGame(prev, 3, dealt).lowest == Some(Card(Spades, 3))
    ensures PlayCard(InitGame(prev, 3, dealt), Card(Spades, 3), 3, []).accepted
    ensures PlayCard(InitGame(prev, 3, dealt), Card(Spades, 3), 3, []).table.current == Some(0)
  {
    var t := InitGame(prev, 3, dealt);
    assert Card(Spades, 3) in t.Hand(3);
    NothingBelowThreeOfSpades(t.lowest.value);
  }

  /** The rotation the room engine uses instead, `(player % 4) + 1`, in an otherwise unchanged play. */
  function PlayCardCorrected(t: Table, card: Card, player: int, members: seq<Card>): (o: Outcome)
    requires Elements(members) == t.board
    ensures o.accepted <==> PlayCard(t, card, player, members).accepted
    ensures !o.accepted ==> o.table == t
    ensures o.accepted ==> o.table == PlayCard(t, card, player, members).table.(current := Some(Rotate(player)))
  {
    Attempt(t, card, player, members, Rotate(player))
  }

  /** With the corrected rotation the turn only ever rests on seats 1..4, and moves on to a different seat. */
  lemma CorrectedTurnStaysSeated(t: Table, card: Card, player: int, members: seq<Card>)
    requires Elements(members) == t.board
    requires t.current.Some? ==> IsSeat(t.current.value)
    ensures var o := PlayCardCorrected(t, card, player, members);
      && (o.table.current.Some? ==> IsSeat(o.table.current.value))
      && (o.accepted ==> o.table.current != Some(player))
  {
  }
}
