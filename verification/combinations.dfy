/**
 The combination classifier: whether an ordered play is a single, a pair, a
 triple, a run of singles, pairs or triples, or four of a kind.  Plays are
 ordered lists because run detection reads the cards in the order given and
 expects them sorted from the lowest value up.
 */
module Combinations {
  import opened Cards

  datatype Combination =
    | Invalid
    | Single
    | Pair
    | Triple
    | RunOfSingles
    | RunOfPairs
    | RunOfTriples
    | FourOfAKind

  /** Every card of the list has the same value as every other. */
  predicate AllSameValue(cards: seq<Card>) {
    forall i, j :: 0 <= i < |cards| && 0 <= j < |cards| ==> cards[i].value == cards[j].value
  }

  /** The server's same-value test: every card's value equals the first card's. */
  function AreSameValue(cards: seq<Card>): (r: bool)
    ensures r <==> AllSameValue(cards)
  {
    forall k :: 0 <= k < |cards| ==> cards[k].value == cards[0].value
  }

  /** Value used only to test adjacency in a run: Ace counts 14 and 2 counts 15, so K, A, 2 are consecutive. */
  function RunValue(c: Card): int {
    if c.value < 3 then c.value + 13 else c.value
  }

  /** Number of leading cards whose run value is x. */
  function LeadingCount(cards: seq<Card>, x: int): (n: nat)
    ensures n <= |cards|
    ensures forall k :: 0 <= k < n ==> RunValue(cards[k]) == x
    ensures n < |cards| ==> RunValue(cards[n]) != x
  {
    if |cards| == 0 || RunValue(cards[0]) != x then 0
    else 1 + LeadingCount(cards[1..], x)
  }

  /**
   The cards split into consecutive groups of u, where group j holds only the
   run value of the first card plus j.
   */
  predicate IsRunOf(cards: seq<Card>, u: int) {
    && u >= 1
    && |cards| > 0
    && |cards| % u == 0
    && forall k :: 0 <= k < |cards| ==> RunValue(cards[k]) == RunValue(cards[0]) + k / u
  }

  /** A product with a factor of at least 1 is at least the other factor. */
  lemma MulAtLeast(d: int, u: int)
    ensures d >= 1 && u > 0 ==> d * u >= u
  {
  }

  /** Every position inside block m of width u has quotient m. */
  lemma DivOfBlock(k: int, u: int, m: int)
    requires u > 0 && m * u <= k < m * u + u
    ensures k / u == m
  {
    var q := k / u;
    assert q * u <= k < q * u + u;
    assert (q - m) * u == q * u - m * u;
    assert (m - q) * u == m * u - q * u;
    MulAtLeast(q - m, u);
    MulAtLeast(m - q, u);
  }

  /** A multiple of u is divisible by u. */
  lemma ModOfMultiple(m: int, u: int)
    requires u > 0
    ensures (m * u) % u == 0
  {
    DivOfBlock(m * u, u, m);
  }

  /** A run of groups of u is at least one group long, and its group size is the number of leading cards of the first value. */
  lemma {:induction false} RunUnitIsLeadingCount(cards: seq<Card>, u: int)
    requires IsRunOf(cards, u)
    ensures u <= |cards|
    ensures LeadingCount(cards, RunValue(cards[0])) == u
  {
    var x := RunValue(cards[0]);
    assert u <= |cards| by {
      var d := |cards| / u;
      assert |cards| == d * u;
      MulAtLeast(d, u);
    }
    forall k | 0 <= k < u
      ensures RunValue(cards[k]) == x
    {
      DivOfBlock(k, u, 0);
    }
    if u < |cards| {
      DivOfBlock(u, u, 1);
      assert RunValue(cards[u]) == x + 1;
    }
    LeadingCountUnique(cards, x, u);
  }

  /** A run made of a single group is all one value. */
  lemma SingleGroupRun(cards: seq<Card>)
    ensures IsRunOf(cards, |cards|) ==> AllSameValue(cards)
  {
    if IsRunOf(cards, |cards|) {
      forall k | 0 <= k < |cards|
        ensures cards[k].value == cards[0].value
      {
        DivOfBlock(k, |cards|, 0);
      }
    }
  }

  /**
   The server's run type of an ordered play: the group size u when the play has
   at least three cards and forms a run of groups of u, and 0 otherwise.
   */
  function TypeOfRun(cards: seq<Card>): (r: nat)
    ensures r > 0 ==> |cards| >= 3 && IsRunOf(cards, r)
    ensures r > 0 <==> |cards| >= 3 && exists u :: IsRunOf(cards, u)
  {
    if |cards| < 3 then 0
    else
      var u := LeadingCount(cards, RunValue(cards[0]));
      assert u >= 1;
      if IsRunOf(cards, u) then
        u
      else
        assert forall w :: IsRunOf(cards, w) ==> w == u by {
          forall w | IsRunOf(cards, w) ensures w == u {
            RunUnitIsLeadingCount(cards, w);
          }
        }
        0
  }

  /** The slots [0, n) of the scan exist and agree with groups of u starting at run value `low`. */
  ghost predicate ScanOk(cards: seq<Card>, low: int, u: int, n: int)
    requires u > 0
  {
    n <= |cards| && forall k :: 0 <= k < n ==> RunValue(cards[k]) == low + k / u
  }

  /**
   The server's run detection, loop for loop: count the leading cards of the
   first value, then walk the play in steps of that count and clear the result
   when a slot is missing or holds the wrong value.
   */
  method ScanRun(cards: seq<Card>) returns (runType: nat)
    ensures runType == TypeOfRun(cards)
    ensures runType > 0 <==> |cards| >= 3 && exists u :: IsRunOf(cards, u)
  {
    if |cards| < 3 {
      return 0;
    }
    var low := RunValue(cards[0]);
    var runLength := CountLeading(cards, low);
    runType := ScanGroups(cards, runLength);
  }

  /** The first loop: how many leading cards have run value `low`. */
  method CountLeading(cards: seq<Card>, low: int) returns (runLength: nat)
    ensures runLength == LeadingCount(cards, low)
  {
    runLength := 0;
    // values[runLength] reads undefined past the end, which ends the loop
    while runLength < |cards| && RunValue(cards[runLength]) == low
      invariant 0 <= runLength <= |cards|
      invariant forall k :: 0 <= k < runLength ==> RunValue(cards[k]) == low
    {
      runLength := runLength + 1;
    }
    LeadingCountUnique(cards, low, runLength);
  }

  /** The leading count is the one prefix length of value x that is followed by the end or another value. */
  lemma LeadingCountUnique(cards: seq<Card>, x: int, n: nat)
    requires n <= |cards|
    requires forall k :: 0 <= k < n ==> RunValue(cards[k]) == x
    requires n < |cards| ==> RunValue(cards[n]) != x
    ensures n == LeadingCount(cards, x)
  {
  }

  /**
   The second loop: walk the play in groups of u, clearing the result when a
   slot is missing or holds the wrong value; the result is u exactly when the
   play is a run of groups of u.
   */
  method ScanGroups(cards: seq<Card>, u: nat) returns (runType: nat)
    requires |cards| > 0 && u > 0
    ensures runType == if IsRunOf(cards, u) then u else 0
  {
    var low := RunValue(cards[0]);
    runType := u;
    var i := 0;
    ghost var m := 0;
    while i < |cards|
      invariant i == m * u && 0 <= m
      invariant i < |cards| + u
      invariant runType == if ScanOk(cards, low, u, i) then u else 0
      decreases |cards| - i
    {
      runType := ScanGroup(cards, low, u, i, m, runType);
      i := i + u;
      m := m + 1;
    }
    ScanMatchesRun(cards, u, i, m);
  }

  /** The scan's agreement extends by one slot exactly when that slot exists and holds its group's value. */
  lemma ScanOkStep(cards: seq<Card>, low: int, u: int, k: int)
    requires u > 0 && 0 <= k
    ensures ScanOk(cards, low, u, k + 1) <==> ScanOk(cards, low, u, k) && k < |cards| && RunValue(cards[k]) == low + k / u
  {
  }

  /**
   One step of the outer scan: check the u slots of group m, clearing the
   result when a slot is missing or does not hold the group's value.
   */
  method ScanGroup(cards: seq<Card>, low: int, u: int, i: int, ghost m: int, runType: nat) returns (r: nat)
    requires u > 0 && 0 <= m && i == m * u
    requires runType == if ScanOk(cards, low, u, i) then u else 0
    ensures r == if ScanOk(cards, low, u, i + u) then u else 0
  {
    DivOfBlock(i, u, m);
    r := runType;
    var k := i;
    while k < i + u
      invariant i <= k <= i + u
      invariant r == if ScanOk(cards, low, u, k) then u else 0
      decreases i + u - k
    {
      DivOfBlock(k, u, m);
      ScanOkStep(cards, low, u, k);
      // a slot past the end reads undefined, which never equals a number
      if k >= |cards| || RunValue(cards[k]) != low + i / u {
        r := 0;
      }
      k := k + 1;
    }
  }

  /** Once the scan has stepped past the end, it succeeded exactly when the play is a run of groups of u. */
  lemma ScanMatchesRun(cards: seq<Card>, u: int, i: int, m: int)
    requires |cards| > 0 && u > 0 && 0 <= m && i == m * u
    requires |cards| <= i < |cards| + u
    ensures ScanOk(cards, RunValue(cards[0]), u, i) <==> IsRunOf(cards, u)
  {
    ModOfMultiple(m, u);
    if IsRunOf(cards, u) {
      var q := |cards| / u;
      assert |cards| == q * u;
      DivOfBlock(i, u, q);
      DivOfBlock(i, u, m);
    }
  }

  /**
   The server's classifier: 1 card is a single; 2 a pair when equal in value;
   3 a triple when equal, else a run of singles when they form one; 4 only
   four of a kind; 5 or more only a run, by group size 1, 2 or 3.  The
   verdict is combination k exactly when the play has k's shape, and
   "invalid" exactly when it has no shape at all.
   */
  function DetermineCombination(cards: seq<Card>): (r: Combination)
    ensures r != Invalid ==> |cards| > 0
    ensures r != Invalid ==> Shape(cards, r)
    ensures forall k :: Shape(cards, k) ==> r == k
  {
    if |cards| == 3 then ThreeCardRun(cards); Classify(cards)
    else if |cards| >= 5 then RunTypeIsUnique(cards); Classify(cards)
    else Classify(cards)
  }

  /** The classifier's branches, in the server's order. */
  function Classify(cards: seq<Card>): Combination {
    if |cards| == 1 then Single
    else if |cards| == 2 then (if AreSameValue(cards) then Pair else Invalid)
    else if |cards| == 3 then
      if AreSameValue(cards) then Triple
      else if TypeOfRun(cards) != 0 then RunOfSingles
      else Invalid
    else if |cards| == 4 then (if AreSameValue(cards) then FourOfAKind else Invalid)
    else
      var runType := TypeOfRun(cards);
      if runType == 1 then RunOfSingles
      else if runType == 2 then RunOfPairs
      else if runType == 3 then RunOfTriples
      else Invalid
  }

  /** Reference description of each combination in terms of card values alone. */
  predicate Shape(cards: seq<Card>, k: Combination) {
    match k
    case Invalid => false
    case Single => |cards| == 1
    case Pair => |cards| == 2 && AllSameValue(cards)
    case Triple => |cards| == 3 && AllSameValue(cards)
    case FourOfAKind => |cards| == 4 && AllSameValue(cards)
    case RunOfSingles => (|cards| == 3 || |cards| >= 5) && IsRunOf(cards, 1)
    case RunOfPairs => |cards| >= 5 && IsRunOf(cards, 2)
    case RunOfTriples => |cards| >= 5 && IsRunOf(cards, 3)
  }

  /** Three cards are a run of singles exactly when the run test accepts them and they are not a triple. */
  lemma ThreeCardRun(cards: seq<Card>)
    requires |cards| == 3
    ensures TypeOfRun(cards) != 0 && !AllSameValue(cards) <==> IsRunOf(cards, 1)
  {
    SingleGroupRun(cards);
    if IsRunOf(cards, 1) {
      assert RunValue(cards[1]) == RunValue(cards[0]) + 1;
    }
    var u := TypeOfRun(cards);
    if u != 0 {
      RunUnitIsLeadingCount(cards, u);
    }
  }

  /** A run of three or more cards has one group size, the one the run test reports. */
  lemma RunTypeIsUnique(cards: seq<Card>)
    requires |cards| >= 3
    ensures forall w :: IsRunOf(cards, w) ==> w == TypeOfRun(cards)
  {
    forall w | IsRunOf(cards, w)
      ensures w == TypeOfRun(cards)
    {
      RunUnitIsLeadingCount(cards, w);
      RunUnitIsLeadingCount(cards, TypeOfRun(cards));
    }
  }

  /** Four cards in a row of values are never recognised; four cards are four of a kind or nothing. */
  lemma NoFourCardRun(cards: seq<Card>)
    requires |cards| == 4
    ensures DetermineCombination(cards) == FourOfAKind || DetermineCombination(cards) == Invalid
  {
  }

  /** The reference shapes read values only. */
  lemma ShapeIgnoresSuits(a: seq<Card>, b: seq<Card>, k: Combination)
    requires |a| == |b|
    requires forall i :: 0 <= i < |a| ==> a[i].value == b[i].value
    ensures Shape(a, k) <==> Shape(b, k)
  {
  }

  /** Classification reads values only: replacing suits position by position never changes the result. */
  lemma ClassifyIgnoresSuits(a: seq<Card>, b: seq<Card>)
    requires |a| == |b|
    requires forall i :: 0 <= i < |a| ==> a[i].value == b[i].value
    ensures DetermineCombination(a) == DetermineCombination(b)
  {
    var ka, kb := DetermineCombination(a), DetermineCombination(b);
    ShapeIgnoresSuits(a, b, ka);
    ShapeIgnoresSuits(a, b, kb);
  }

  /** K, A, 2 is a run (Ace counts 14 and 2 counts 15), as is 3, 4, 5. */
  lemma KingAceTwoIsRun(run: seq<Card>)
    requires run == [Card(Spades, 13), Card(Spades, 1), Card(Spades, 2)]
          || run == [Card(Spades, 3), Card(Spades, 4), Card(Spades, 5)]
    ensures DetermineCombination(run) == RunOfSingles
  {
    assert IsRunOf(run, 1);
    assert Shape(run, RunOfSingles);
  }

  /** A run may not skip a value: 3, 4, 6 is no combination. */
  lemma SkippedValueIsInvalid(cards: seq<Card>)
    requires cards == [Card(Spades, 3), Card(Spades, 4), Card(Spades, 6)]
    ensures DetermineCombination(cards) == Invalid
  {
    assert !AllSameValue(cards) by {
      assert cards[0].value != cards[1].value;
    }
    assert !IsRunOf(cards, 1) by {
      assert RunValue(cards[2]) != RunValue(cards[0]) + 2 / 1;
    }
  }

  /**
   Runs are read in the order the cards are listed: 3, 4, 5 is a run, the
   same cards listed as 4, 3, 5 are no combination.
   */
  lemma RunsReadOrder(sorted: seq<Card>, unsorted: seq<Card>)
    requires sorted == [Card(Spades, 3), Card(Spades, 4), Card(Spades, 5)]
    requires unsorted == [Card(Spades, 4), Card(Spades, 3), Card(Spades, 5)]
    ensures multiset(sorted) == multiset(unsorted)
    ensures DetermineCombination(sorted) == RunOfSingles
    ensures DetermineCombination(unsorted) == Invalid
  {
    KingAceTwoIsRun(sorted);
    assert !AllSameValue(unsorted) by {
      assert unsorted[0].value != unsorted[1].value;
    }
    assert !IsRunOf(unsorted, 1) by {
      assert RunValue(unsorted[1]) != RunValue(unsorted[0]) + 1 / 1;
    }
  }

  /** Three pairs in a row are a run of pairs; two pairs in a row are four cards and so no combination. */
  lemma RunOfPairsNeedsThreePairs(three: seq<Card>, two: seq<Card>)
    requires three == [Card(Spades, 3), Card(Diamonds, 3), Card(Spades, 4), Card(Diamonds, 4), Card(Spades, 5), Card(Diamonds, 5)]
    requires two == three[..4]
    ensures DetermineCombination(three) == RunOfPairs
    ensures DetermineCombination(two) == Invalid
  {
  }

  /** Three threes are a triple, and three threes, fours and fives in that order are a run of triples. */
  lemma TriplesAndRunOfTriples(triple: seq<Card>, run: seq<Card>)
    requires triple == [Card(Spades, 3), Card(Diamonds, 3), Card(Hearts, 3)]
    requires run == triple + [Card(Spades, 4), Card(Diamonds, 4), Card(Hearts, 4), Card(Spades, 5), Card(Diamonds, 5), Card(Hearts, 5)]
    ensures DetermineCombination(triple) == Triple
    ensures DetermineCombination(run) == RunOfTriples
  {
    assert AllSameValue(triple);
    assert IsRunOf(run, 3) by {
      forall k | 0 <= k < 9 ensures RunValue(run[k]) == RunValue(run[0]) + k / 3 {
        DivOfBlock(k, 3, k / 3);
      }
    }
    assert Shape(run, RunOfTriples);
  }

  /**
   Broken runs are no combination: a run of triples whose last card is
   S6, and a run of pairs with a fifth left over.
   */
  lemma BrokenRunsAreInvalid(triples: seq<Card>, mixed: seq<Card>)
    requires triples == [Card(Spades, 3), Card(Diamonds, 3), Card(Hearts, 3), Card(Spades, 4), Card(Diamonds, 4),
                         Card(Hearts, 4), Card(Spades, 5), Card(Diamonds, 5), Card(Spades, 6)]
    requires mixed == [Card(Spades, 3), Card(Diamonds, 3), Card(Spades, 4), Card(Diamonds, 4), Card(Spades, 5),
                       Card(Diamonds, 5), Card(Hearts, 5)]
    ensures DetermineCombination(triples) == Invalid
    ensures DetermineCombination(mixed) == Invalid
  {
    assert !IsRunOf(triples, 3) by {
      assert RunValue(triples[8]) != RunValue(triples[0]) + 8 / 3;
    }
    RunShapeFromLead(triples, 3);
    assert !IsRunOf(mixed, 2) by {
      assert RunValue(mixed[6]) != RunValue(mixed[0]) + 6 / 2;
    }
    RunShapeFromLead(mixed, 2);
  }

  /**
   A list of five or more cards whose first u cards share a value, the next
   one differing, is a combination only as a run in groups of u.
   */
  lemma RunShapeFromLead(cards: seq<Card>, u: nat)
    requires |cards| >= 5 && 0 < u < |cards|
    requires forall k :: 0 <= k < u ==> RunValue(cards[k]) == RunValue(cards[0])
    requires RunValue(cards[u]) != RunValue(cards[0])
    requires !IsRunOf(cards, u)
    ensures DetermineCombination(cards) == Invalid
  {
  }

  /** Three threes with a four in front are neither four of a kind nor anything else. */
  lemma ThreeOfAKindAndOneIsInvalid(cards: seq<Card>)
    requires cards == [Card(Spades, 4), Card(Diamonds, 3), Card(Hearts, 3), Card(Clubs, 3)]
    ensures DetermineCombination(cards) == Invalid
  {
    assert cards[1].value != cards[0].value;
  }
}
