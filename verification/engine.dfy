/**
 The per-room game engine: the room's stored keys as one record, and the
 three calls that change them (initialise a round, play cards, pass) as
 functions from a room to an outcome and the next room.  Each call is one
 atomic step; the reads a call makes before writing are not interleaved with
 other calls.
 */
module Engine {
  import opened Options
  import opened Seqs
  import opened Cards
  import opened Combinations
  import opened Seats
  import opened Dealing

  /**
   Everything the store holds for one room: the deck left after dealing, the
   four hands, the board (every card played since the last reset), the last
   card of the latest accepted play, its combination, whose turn it is, who
   played last, and the card that must open the round.
   */
  datatype Room = Room(
    deck: set<Card>,
    hands: Hands,
    board: set<Card>,
    top: Option<Card>,
    boardType: Option<Combination>,
    current: Option<int>,
    last: Option<int>,
    lowest: Option<Card>)
  {
    /** The hand read back for player number p. */
    function Hand(p: int): set<Card> {
      HandOf(hands, p)
    }
  }

  /** A call's result (truthy or falsy) and the room it leaves behind. */
  datatype Outcome = Outcome(accepted: bool, room: Room)

  /**
   The room's state as the engine keeps it consistent: no card in two places,
   seats in range, and the board's type, top card and last player set and
   cleared together.
   */
  ghost predicate Valid(r: Room) {
    && HandsDisjoint(r.hands)
    && Held(r.hands) !! r.board
    && (r.current.Some? ==> IsSeat(r.current.value))
    && (r.last.Some? ==> IsSeat(r.last.value))
    && (r.top.Some? <==> r.boardType.Some?)
    && (r.top.Some? <==> r.last.Some?)
    && (r.top.Some? ==> r.top.value in r.board && r.boardType.value != Invalid)
    && (r.current.None? ==> r.top.None?)
  }

  // ---------------------------------------------------------------- dealing

  /** Where a seat's cards come from: a draw from the deck, or a hand supplied by the caller. */
  datatype SeatDeal = Drawn(cards: seq<Card>) | Injected(cards: seq<Card>)

  /** The card lists of a deal, seat by seat. */
  function DealtLists(seats: seq<SeatDeal>): seq<seq<Card>> {
    seq(|seats|, i requires 0 <= i < |seats| => seats[i].cards)
  }

  /** The cards the draws took out of the deck; supplied hands take nothing. */
  function DrawnCards(seats: seq<SeatDeal>): set<Card> {
    set i, c | 0 <= i < |seats| && seats[i].Drawn? && c in seats[i].cards :: c
  }

  /**
   Start a round: clear the room, put the deck (the standard one or a
   supplied one) in place, give seats 1..playerCount their cards, and record
   the lowest card dealt unless a lowest card is supplied.  Whose turn it is
   stays unset until the first accepted play.
   */
  function InitGame(deckCards: seq<Card>, playerCount: int, seats: seq<SeatDeal>, testLowest: Option<Card>): (r: Room)
    requires 1 <= playerCount <= 4 && |seats| == playerCount
    requires forall i :: 0 <= i < |seats| ==> |seats[i].cards| > 0
    ensures r.board == {} && r.top.None? && r.boardType.None? && r.current.None? && r.last.None?
    ensures forall p :: 1 <= p <= playerCount ==> r.Hand(p) == Elements(seats[p - 1].cards)
    ensures forall p :: IsSeat(p) && p > playerCount ==> r.Hand(p) == {}
    ensures r.deck == Elements(deckCards) - DrawnCards(seats)
    ensures testLowest.Some? ==> r.lowest == testLowest
    ensures testLowest.None? ==> r.lowest.Some? && r.lowest.value in Held(r.hands)
    ensures testLowest.None? ==> forall c :: c in Held(r.hands) ==> Compare(r.lowest.value, c) != 1
  {
    var dealt := DealtLists(seats);
    var hands := DealtHands(dealt);
    LowestDealtIsHeldLowest(dealt);
    Room(
      Elements(deckCards) - DrawnCards(seats),
      hands,
      {},
      None,
      None,
      None,
      None,
      if testLowest.Some? then testLowest else Some(LowestDealt(dealt)))
  }

  lemma LowestDealtIsHeldLowest(dealt: seq<seq<Card>>)
    requires 1 <= |dealt| <= 4
    requires forall i :: 0 <= i < |dealt| ==> |dealt[i]| > 0
    ensures LowestDealt(dealt) in Held(DealtHands(dealt))
    ensures forall c :: c in Held(DealtHands(dealt)) ==> Compare(LowestDealt(dealt), c) != 1
  {
  }

  /** A deal made only of draws of five from the given deck. */
  predicate RandomDeal(deckCards: seq<Card>, seats: seq<SeatDeal>) {
    && (forall i :: 0 <= i < |seats| ==> seats[i].Drawn?)
    && IsDraw(Elements(deckCards), DealtLists(seats))
  }

  /**
   After a deal by draws, seats 1..playerCount hold pairwise-disjoint
   five-card subsets of the deck, the other seats nothing, the deck keeps
   exactly the undealt cards, and the room is consistent.
   */
  lemma InitGameDeals(deckCards: seq<Card>, playerCount: int, seats: seq<SeatDeal>, testLowest: Option<Card>)
    requires 1 <= playerCount <= 4 && |seats| == playerCount
    requires RandomDeal(deckCards, seats)
    ensures forall i :: 0 <= i < |seats| ==> |seats[i].cards| > 0
    ensures HandsDisjoint(InitGame(deckCards, playerCount, seats, testLowest).hands)
    ensures forall p :: 1 <= p <= playerCount ==> |InitGame(deckCards, playerCount, seats, testLowest).Hand(p)| == HandSize
    ensures Held(InitGame(deckCards, playerCount, seats, testLowest).hands) !! InitGame(deckCards, playerCount, seats, testLowest).deck
    ensures Held(InitGame(deckCards, playerCount, seats, testLowest).hands) + InitGame(deckCards, playerCount, seats, testLowest).deck
      == Elements(deckCards)
    ensures Valid(InitGame(deckCards, playerCount, seats, testLowest))
  {
    var dealt := DealtLists(seats);
    DrawnHands(Elements(deckCards), dealt);
    var r := InitGame(deckCards, playerCount, seats, testLowest);
    assert r.hands == DealtHands(dealt);
    assert DrawnCards(seats) == Held(r.hands) by {
      forall c ensures c in DrawnCards(seats) <==> c in Held(r.hands) {
        if c in Held(r.hands) {
          var j :| 0 <= j < 4 && c in r.hands[j];
          assert c in seats[j].cards;
        }
      }
    }
  }

  // ---------------------------------------------------------------- playing

  /**
   The checks a play goes through before any card moves, in the server's
   order: the turn (before the first play, only that the opening card is
   among the cards), the combination against the board's type (four of a
   kind may go on any board), and whether the last card listed beats the top
   card.  Yields the play's combination when all pass.
   */
  function Screen(r: Room, cards: seq<Card>, player: int): (t: Option<Combination>)
    ensures t.Some? ==> t.value == DetermineCombination(cards) && t.value != Invalid && |cards| > 0
  {
    if r.current.None? && !(r.lowest.Some? && r.lowest.value in cards) then None
    else if r.current.Some? && r.current.value != player then None
    else
      var t := DetermineCombination(cards);
      if t == Invalid || (r.top.Some? && r.boardType != Some(t) && t != FourOfAKind) then None
      else if r.top.Some? && Compare(cards[|cards| - 1], r.top.value) != 1 then None
      else Some(t)
  }

  /** Hand and board after a batch of moves, and whether every move reported success. */
  datatype Moved = Moved(hand: set<Card>, board: set<Card>, allMoved: bool)

  /**
   One SMOVE per card, executed in order inside MULTI/EXEC, which rolls
   nothing back: a card still in the hand moves to the board, any other card
   reports failure and changes nothing.  Every move succeeds exactly when
   the cards are different and all in the hand.
   */
  function MoveEach(hand: set<Card>, board: set<Card>, cards: seq<Card>): (m: Moved)
    ensures m.hand == hand - Elements(cards)
    ensures m.board == board + (hand * Elements(cards))
    ensures m.allMoved <==> Distinct(cards) && Elements(cards) <= hand
    decreases |cards|
  {
    if |cards| == 0 then Moved(hand, board, true)
    else
      var c := cards[0];
      assert Elements(cards) == {c} + Elements(cards[1..]) by {
        assert cards == [c] + cards[1..];
      }
      assert Distinct(cards) <==> c !in cards[1..] && Distinct(cards[1..]) by {
        if c !in cards[1..] && Distinct(cards[1..]) {
          forall i, j | 0 <= i < j < |cards|
            ensures cards[i] != cards[j]
          {
            assert cards[j] == cards[1..][j - 1];
            if i > 0 {
              assert cards[i] == cards[1..][i - 1];
            }
          }
        }
        if Distinct(cards) {
          forall i, j | 0 <= i < j < |cards| - 1
            ensures cards[1..][i] != cards[1..][j]
          {
            assert cards[1..][i] == cards[i + 1] && cards[1..][j] == cards[j + 1];
          }
          forall j | 0 <= j < |cards| - 1
            ensures cards[1..][j] != c
          {
            assert cards[1..][j] == cards[j + 1];
          }
        }
      }
      if c in hand then
        MoveEach(hand - {c}, board + {c}, cards[1..])
      else
        var m := MoveEach(hand, board, cards[1..]);
        Moved(m.hand, m.board, false)
  }

  /**
   Play an ordered list of cards for a player.  When the checks pass, every
   card still in the player's hand moves to the board; only when all of them
   moved does the room record the play: its combination, the next seat, the
   player as last, and the last card listed as the top card.  A batch with a
   missing card keeps the cards that did move on the board and records
   nothing else.
   */
  function PlayCards(r: Room, cards: seq<Card>, player: int): (o: Outcome)
    ensures Screen(r, cards, player).None? ==> o == Outcome(false, r)
    ensures o.accepted <==> Screen(r, cards, player).Some? && Distinct(cards) && Elements(cards) <= r.Hand(player)
    ensures Screen(r, cards, player).Some? ==>
      && o.room.Hand(player) == r.Hand(player) - Elements(cards)
      && o.room.board == r.board + (r.Hand(player) * Elements(cards))
    ensures forall q :: q != player ==> o.room.Hand(q) == r.Hand(q)
    ensures o.room.Hand(player) + o.room.board == r.Hand(player) + r.board
    ensures o.room.deck == r.deck && o.room.lowest == r.lowest
    ensures !o.accepted ==> o.room.(hands := r.hands, board := r.board) == r
    ensures o.accepted ==>
      && IsSeat(player)
      && o.room.boardType == Screen(r, cards, player)
      && o.room.top == Some(cards[|cards| - 1])
      && o.room.current == Some(Rotate(player))
      && o.room.last == Some(player)
  {
    match Screen(r, cards, player)
    case None => Outcome(false, r)
    case Some(t) =>
      var m := MoveEach(r.Hand(player), r.board, cards);
      var moved := r.(hands := WithHand(r.hands, player, m.hand), board := m.board);
      if m.allMoved then
        assert cards[0] in r.Hand(player);
        Outcome(true, moved.(
          boardType := Some(t),
          current := Some(Rotate(player)),
          last := Some(player),
          top := Some(cards[|cards| - 1])))
      else
        Outcome(false, moved)
  }

  /**
   The five ways a play is refused before any card moves, each leaving the
   room exactly as it was.
   */
  lemma PlayCardsRejects(r: Room, cards: seq<Card>, player: int)
    ensures r.current.Some? && r.current.value != player ==> PlayCards(r, cards, player) == Outcome(false, r)
    ensures r.current.None? && (r.lowest.None? || r.lowest.value !in cards) ==> PlayCards(r, cards, player) == Outcome(false, r)
    ensures DetermineCombination(cards) == Invalid ==> PlayCards(r, cards, player) == Outcome(false, r)
    ensures r.top.Some? && r.boardType != Some(DetermineCombination(cards)) && DetermineCombination(cards) != FourOfAKind
      ==> PlayCards(r, cards, player) == Outcome(false, r)
    ensures r.top.Some? && |cards| > 0 && Compare(cards[|cards| - 1], r.top.value) != 1
      ==> PlayCards(r, cards, player) == Outcome(false, r)
  {
  }

  /** Cards neither appear nor vanish in a play: the held cards and the board together stay the same set. */
  lemma PlayCardsConserves(r: Room, cards: seq<Card>, player: int)
    ensures Held(PlayCards(r, cards, player).room.hands) + PlayCards(r, cards, player).room.board == Held(r.hands) + r.board
  {
  }

  /** A play keeps the room consistent. */
  lemma PlayCardsKeepsValid(r: Room, cards: seq<Card>, player: int)
    requires Valid(r)
    ensures Valid(PlayCards(r, cards, player).room)
  {
    var o := PlayCards(r, cards, player);
    if Screen(r, cards, player).Some? && IsSeat(player) {
      var i := player - 1;
      assert o.room.hands == r.hands[i := r.hands[i] - Elements(cards)];
      assert Held(o.room.hands) <= Held(r.hands);
      assert o.room.board <= r.board + r.hands[i];
      forall a, b | 0 <= a < b < 4
        ensures o.room.hands[a] !! o.room.hands[b]
      {
        assert o.room.hands[a] <= r.hands[a] && o.room.hands[b] <= r.hands[b];
      }
      forall c | c in o.room.board
        ensures c !in Held(o.room.hands)
      {
        if c in r.hands[i] {
          forall j | 0 <= j < 4 && j != i
            ensures c !in o.room.hands[j]
          {
            assert r.hands[i] !! r.hands[j] by {
              if i < j {
                assert r.hands[i] !! r.hands[j];
              } else {
                assert r.hands[j] !! r.hands[i];
              }
            }
          }
        }
      }
    }
  }

  // ---------------------------------------------------------------- passing

  /**
   Pass the turn.  Only the player whose turn it is may pass, so nobody can
   pass before the first play.  When the turn has come back round to the last
   player to play, the board is thrown away and the top card, board type and
   last player are cleared, the turn staying put; otherwise the turn moves to
   the next seat.
   */
  function PassTurn(r: Room, player: int): (o: Outcome)
    ensures o.accepted <==> r.current == Some(player)
    ensures !o.accepted ==> o.room == r
    ensures o.room.hands == r.hands && o.room.deck == r.deck && o.room.lowest == r.lowest
    ensures o.room.board == r.board || o.room.board == {}
  {
    if r.current != Some(player) then Outcome(false, r)
    else if r.current == r.last then
      Outcome(true, r.(board := {}, top := None, last := None, boardType := None))
    else
      Outcome(true, r.(current := Some(Rotate(player))))
  }

  /** A pass keeps the room consistent. */
  lemma PassTurnKeepsValid(r: Room, player: int)
    requires Valid(r)
    ensures Valid(PassTurn(r, player).room)
  {
  }

  /**
   An accepted pass either hands the turn to the next seat and changes
   nothing else, or, when the passer played last, discards the board and
   keeps the turn.
   */
  lemma PassTurnEffect(r: Room, player: int)
    requires PassTurn(r, player).accepted
    ensures r.last == Some(player) ==>
      PassTurn(r, player).room == r.(board := {}, top := None, last := None, boardType := None)
    ensures r.last != Some(player) ==>
      PassTurn(r, player).room == r.(current := Some(Rotate(player)))
  {
  }

  /**
   After a play, the three other seats pass in turn and the player who played
   passes too: the board is cleared, the turn is back with that player, and
   no last player is recorded.
   */
  lemma FullCircuitResets(r: Room, cards: seq<Card>, p: int)
    requires PlayCards(r, cards, p).accepted
    ensures IsSeat(p)
    ensures
      var r1 := PlayCards(r, cards, p).room;
      var o2 := PassTurn(r1, Rotate(p));
      var o3 := PassTurn(o2.room, Rotate(Rotate(p)));
      var o4 := PassTurn(o3.room, Rotate(Rotate(Rotate(p))));
      var o5 := PassTurn(o4.room, p);
      && o2.accepted && o3.accepted && o4.accepted && o5.accepted
      && o5.room.board == {} && o5.room.top.None? && o5.room.boardType.None? && o5.room.last.None?
      && o5.room.current == Some(p)
      && o5.room.hands == r1.hands
  {
    RotateCycles(p);
  }

  // ------------------------------------------------- all-or-nothing plays

  /** Nobody has opened and the opening card is in no hand, so no play can ever include it from a hand. */
  predicate CannotOpen(r: Room) {
    r.current.None? && (r.lowest.None? || r.lowest.value !in Held(r.hands))
  }

  /**
   Once the opening card has left every hand before the round opened, every
   play and every pass is refused, and the room stays unable to open.
   */
  lemma CannotOpenIsPermanent(r: Room, cards: seq<Card>, player: int)
    requires CannotOpen(r)
    ensures !PlayCards(r, cards, player).accepted
    ensures CannotOpen(PlayCards(r, cards, player).room)
    ensures PassTurn(r, player) == Outcome(false, r)
  {
  }

  /**
   The opening pair S3, D3 played by seat 1 while D3 sits in seat 2's hand:
   the checks pass, S3 moves to the board, D3 does not, and the play is
   refused, leaving the opening card on the board and the round unable to
   open.
   */
  lemma PartialMoveStrandsOpeningCard()
    ensures
      var r := InitGame(StandardDeck(), 2,
        [Injected([Card(Spades, 3), Card(Spades, 4)]), Injected([Card(Diamonds, 3), Card(Diamonds, 4)])], None);
      var o := PlayCards(r, [Card(Spades, 3), Card(Diamonds, 3)], 1);
      && r.lowest == Some(Card(Spades, 3))
      && !o.accepted
      && Card(Spades, 3) in o.room.board
      && CannotOpen(o.room)
  {
    var r := InitGame(StandardDeck(), 2,
      [Injected([Card(Spades, 3), Card(Spades, 4)]), Injected([Card(Diamonds, 3), Card(Diamonds, 4)])], None);
    var cards := [Card(Spades, 3), Card(Diamonds, 3)];
    assert Card(Spades, 3) in r.Hand(1) && Card(Diamonds, 3) !in r.Hand(1);
    NothingBelowThreeOfSpades(r.lowest.value);
    assert DetermineCombination(cards) == Pair;
    assert Screen(r, cards, 1) == Some(Pair);
    var o := PlayCards(r, cards, 1);
    HeldBySomeSeat(o.room.hands, Card(Spades, 3));
    assert o.room.Hand(1) == r.Hand(1) - Elements(cards);
  }

  /**
   A play that either moves every card and records the play, or is refused
   and changes nothing: the commit-or-revert reading of the MULTI/EXEC batch.
   */
  function PlayCardsAtomic(r: Room, cards: seq<Card>, player: int): (o: Outcome)
    ensures !o.accepted ==> o.room == r
    ensures o.accepted <==> PlayCards(r, cards, player).accepted
    ensures o.accepted ==> o.room == PlayCards(r, cards, player).room
  {
    if Screen(r, cards, player).Some? && Distinct(cards) && Elements(cards) <= r.Hand(player) then
      PlayCards(r, cards, player)
    else
      Outcome(false, r)
  }

  /** With all-or-nothing plays, a round that can open stays able to open, and a refused play leaves the room as it was. */
  lemma AtomicPlayKeepsOpening(r: Room, cards: seq<Card>, player: int)
    requires !CannotOpen(r)
    ensures !CannotOpen(PlayCardsAtomic(r, cards, player).room)
    ensures PlayCardsAtomic(r, cards, player).accepted || PlayCardsAtomic(r, cards, player).room == r
  {
  }
}
