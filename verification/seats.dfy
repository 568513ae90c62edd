/**
 Seats 1..4 of a room and the hands stored under them.  A player number
 outside 1..4 names a hand key that is never written, so it reads as an
 empty hand.
 */
module Seats {
  import opened Cards

  predicate IsSeat(p: int) {
    1 <= p <= 4
  }

  /** The four stored hands; seat p's hand is at index p - 1. */
  type Hands = h: seq<set<Card>> | |h| == 4 witness [{}, {}, {}, {}]

  /** The hand stored for player number p. */
  function HandOf(hands: Hands, p: int): set<Card> {
    if IsSeat(p) then hands[p - 1] else {}
  }

  /** Stores h as player p's hand; writing to a non-seat changes nothing that any seat can read. */
  function WithHand(hands: Hands, p: int, h: set<Card>): (r: Hands)
    ensures forall q :: HandOf(r, q) == if IsSeat(p) && q == p then h else HandOf(hands, q)
  {
    if IsSeat(p) then hands[p - 1 := h] else hands
  }

  /** Every card held in some hand. */
  function Held(hands: Hands): set<Card> {
    hands[0] + hands[1] + hands[2] + hands[3]
  }

  /** No card is held in two hands. */
  predicate HandsDisjoint(hands: Hands) {
    forall i, j :: 0 <= i < j < 4 ==> hands[i] !! hands[j]
  }

  /** A card is held exactly when some seat holds it. */
  lemma HeldBySomeSeat(hands: Hands, c: Card)
    ensures c in Held(hands) <==> exists p :: IsSeat(p) && c in HandOf(hands, p)
  {
    if c in Held(hands) {
      var i :| 0 <= i < 4 && c in hands[i];
      assert IsSeat(i + 1) && c in HandOf(hands, i + 1);
    }
  }

  /**
   The seat after p, as `(p % 4) + 1` computes it; `%` in the server's
   language truncates toward zero, which differs from Dafny's for negative p.
   */
  function Rotate(p: int): (r: int)
    ensures IsSeat(p) ==> r == (if p == 4 then 1 else p + 1)
    ensures IsSeat(p) ==> IsSeat(r) && r != p
  {
    (if p >= 0 then p % 4 else -((-p) % 4)) + 1
  }

  /** Rotation visits the three other seats and is back after four steps. */
  lemma RotateCycles(p: int)
    requires IsSeat(p)
    ensures Rotate(p) != p && Rotate(Rotate(p)) != p && Rotate(Rotate(Rotate(p))) != p
    ensures Rotate(Rotate(Rotate(Rotate(p)))) == p
  {
  }
}
