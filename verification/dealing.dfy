/**
 Dealing: each seated player draws five cards from the deck, one SPOP of
 five per seat, and the lowest card dealt is the lowest of each hand's
 lowest card.  Which five cards a draw yields is left open: a deal is any
 list of hands that successive draws could have produced.
 */
module Dealing {
  import opened Seqs
  import opened Cards
  import opened Seats

  /** The number of cards each seat draws. */
  const HandSize := 5

  /**
   What successive draws of five can yield: each hand five different deck
   cards, and no card in two hands.
   */
  predicate IsDraw(deck: set<Card>, dealt: seq<seq<Card>>) {
    && (forall i :: 0 <= i < |dealt| ==> |dealt[i]| == HandSize && Distinct(dealt[i]) && Elements(dealt[i]) <= deck)
    && (forall i, j :: 0 <= i < j < |dealt| ==> Elements(dealt[i]) !! Elements(dealt[j]))
  }

  /** Seat p holds the p-th dealt list; seats past the deal hold nothing. */
  function DealtHands(dealt: seq<seq<Card>>): (h: Hands)
    requires |dealt| <= 4
  {
    seq(4, i requires 0 <= i < 4 => if i < |dealt| then Elements(dealt[i]) else {})
  }

  /** The lowest card of each dealt hand, seat by seat. */
  function Lows(dealt: seq<seq<Card>>): (lows: seq<Card>)
    requires forall i :: 0 <= i < |dealt| ==> |dealt[i]| > 0
    ensures |lows| == |dealt|
  {
    seq(|dealt|, i requires 0 <= i < |dealt| => LowestCard(dealt[i]))
  }

  /** The lowest of the hands' lowest cards is a dealt card no dealt card lies below. */
  function LowestDealt(dealt: seq<seq<Card>>): (l: Card)
    requires |dealt| > 0
    requires forall i :: 0 <= i < |dealt| ==> |dealt[i]| > 0
    ensures exists i :: 0 <= i < |dealt| && l in dealt[i]
    ensures forall i, c :: 0 <= i < |dealt| && c in dealt[i] ==> Compare(l, c) != 1
  {
    var lows := Lows(dealt);
    var l := LowestCard(lows);
    assert exists i :: 0 <= i < |dealt| && l in dealt[i] by {
      var i :| 0 <= i < |lows| && lows[i] == l;
      assert l in dealt[i];
    }
    assert forall i, c :: 0 <= i < |dealt| && c in dealt[i] ==> Compare(l, c) != 1 by {
      forall i, c | 0 <= i < |dealt| && c in dealt[i]
        ensures Compare(l, c) != 1
      {
        assert lows[i] in lows;
        assert Compare(lows[i], c) != 1;
      }
    }
    l
  }

  /**
   A deal by draws gives seats 1..n pairwise-disjoint five-card subsets of the
   deck and leaves the other seats empty.
   */
  lemma DrawnHands(deck: set<Card>, dealt: seq<seq<Card>>)
    requires |dealt| <= 4 && IsDraw(deck, dealt)
    ensures HandsDisjoint(DealtHands(dealt))
    ensures Held(DealtHands(dealt)) <= deck
    ensures forall p :: 1 <= p <= |dealt| ==> HandOf(DealtHands(dealt), p) == Elements(dealt[p - 1])
    ensures forall p :: 1 <= p <= |dealt| ==> |HandOf(DealtHands(dealt), p)| == HandSize
    ensures forall p :: IsSeat(p) && p > |dealt| ==> HandOf(DealtHands(dealt), p) == {}
  {
    var h := DealtHands(dealt);
    forall p | 1 <= p <= |dealt|
      ensures |HandOf(h, p)| == HandSize
    {
      DistinctElementsCount(dealt[p - 1]);
    }
  }
}
