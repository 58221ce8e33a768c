/**
 * Blackjack values of cards and hands: aces count eleven and are reduced
 * to one, one at a time, only while the hand would otherwise bust.
 */
module Valuation {
  import opened CardModel

  const Bust := 21

  /** An ace is worth eleven; every other card its face value, capped at ten. */
  function CardValue(c: Card): (v: int)
    ensures 2 <= v <= 11
    ensures v == 11 <==> c.rank == Ace
    ensures c.rank != Ace ==> v == c.rank.Numeric()
  {
    if c.rank == Ace then 11
    else if c.rank.Numeric() >= 10 then 10
    else c.rank.Numeric()
  }

  function AceWeight(c: Card): int {
    if c.rank == Ace then 1 else 0
  }

  /** The sum of `f` over a hand, accumulated from its first card to its last. */
  function Tally(hand: seq<Card>, f: Card -> int): int {
    if hand == [] then 0 else Tally(hand[..|hand| - 1], f) + f(hand[|hand| - 1])
  }

  /** Every card counted at full value, aces as eleven. */
  function RawSum(hand: seq<Card>): int {
    Tally(hand, CardValue)
  }

  function AceCount(hand: seq<Card>): int {
    Tally(hand, AceWeight)
  }

  /**
   * Turns aces from eleven into one while the total exceeds 21 and an
   * unreduced ace remains. The result takes a whole number of reductions,
   * no more than there are aces; it exceeds 21 only once every ace is
   * reduced; and each reduction it made was needed.
   */
  function Reduce(sum: int, aces: int): (r: int)
    ensures r <= sum && (sum - r) % 10 == 0
    ensures aces >= 0 ==> sum - r <= 10 * aces
    ensures r > Bust ==> aces <= 0 || r == sum - 10 * aces
    ensures r < sum ==> r + 10 > Bust
    decreases aces
  {
    if sum > Bust && aces > 0 then Reduce(sum - 10, aces - 1) else sum
  }

  /** The value of a hand, under the soft/hard ace rule. */
  function HandValue(hand: seq<Card>): int {
    Reduce(RawSum(hand), AceCount(hand))
  }

  predicate IsNatural(hand: seq<Card>) {
    |hand| == 2 && HandValue(hand) == Bust
  }

  /** The hand's value computed with two loops over local accumulators. */
  method ComputeHandValue(hand: seq<Card>) returns (total: int)
    ensures total == HandValue(hand)
  {
    var sum, aces := 0, 0;
    for i := 0 to |hand|
      invariant sum == RawSum(hand[..i]) && aces == AceCount(hand[..i])
    {
      assert hand[..i + 1][..i] == hand[..i];
      sum := sum + CardValue(hand[i]);
      if hand[i].rank == Ace {
        aces := aces + 1;
      }
    }
    assert hand[..|hand|] == hand;
    AceCountNonNegative(hand);
    while sum > Bust && aces > 0
      invariant aces >= 0
      invariant Reduce(sum, aces) == HandValue(hand)
      decreases aces
    {
      sum := sum - 10;
      aces := aces - 1;
    }
    total := sum;
  }

  lemma {:induction false} AceCountNonNegative(hand: seq<Card>)
    ensures 0 <= AceCount(hand) <= |hand|
  {
    if hand != [] {
      AceCountNonNegative(hand[..|hand| - 1]);
    }
  }

  /** A hand's value is its raw sum less ten per reduced ace, never less than all aces reduced. */
  lemma HandValueBounds(hand: seq<Card>)
    ensures RawSum(hand) - 10 * AceCount(hand) <= HandValue(hand) <= RawSum(hand)
  {
    AceCountNonNegative(hand);
  }

  /** A hand over 21 has had every one of its aces reduced. */
  lemma BustHandHasNoSoftAce(hand: seq<Card>)
    requires HandValue(hand) > Bust
    ensures HandValue(hand) == RawSum(hand) - 10 * AceCount(hand)
  {
    AceCountNonNegative(hand);
  }

  /**
   * Among the totals reachable by reducing some of the aces, the hand's
   * value is the largest that does not exceed 21.
   */
  lemma HandValueIsBestTotal(hand: seq<Card>, k: int)
    requires 0 <= k <= AceCount(hand)
    requires RawSum(hand) - 10 * k <= Bust
    ensures RawSum(hand) - 10 * k <= HandValue(hand) <= Bust
  {
    var raw, v := RawSum(hand), HandValue(hand);
    var m := (raw - v) / 10;
    assert raw - v == 10 * m;
  }

  /** Taking one card out of a hand takes its share out of the tally. */
  lemma {:induction false} TallyRemove(h: seq<Card>, i: nat, f: Card -> int)
    requires i < |h|
    ensures Tally(h, f) == f(h[i]) + Tally(h[..i] + h[i + 1..], f)
    decreases |h|
  {
    var n := |h|;
    var init := h[..n - 1];
    if i == n - 1 {
      assert h[..i] + h[i + 1..] == init;
    } else {
      TallyRemove(init, i, f);
      var rest := h[..i] + h[i + 1..];
      assert rest[..|rest| - 1] == init[..i] + init[i + 1..];
      assert rest[|rest| - 1] == h[n - 1];
    }
  }

  /** Removing the card at position i removes one copy of it from the multiset. */
  lemma MultisetWithout(s: seq<Card>, i: nat)
    requires i < |s|
    ensures multiset(s[..i] + s[i + 1..]) == multiset(s) - multiset{s[i]}
  {
    assert s == s[..i] + [s[i]] + s[i + 1..];
  }

  /** A tally does not depend on the order of the cards. */
  lemma {:induction false} TallyPermutation(a: seq<Card>, b: seq<Card>, f: Card -> int)
    requires multiset(a) == multiset(b)
    ensures Tally(a, f) == Tally(b, f)
    decreases |a|
  {
    if a != [] {
      var n := |a|;
      var x := a[n - 1];
      MultisetWithout(a, n - 1);
      assert a[..n - 1] + a[n..] == a[..n - 1];
      assert x in multiset(b);
      var i :| 0 <= i < |b| && b[i] == x;
      MultisetWithout(b, i);
      TallyPermutation(a[..n - 1], b[..i] + b[i + 1..], f);
      TallyRemove(b, i, f);
    } else {
      assert |b| == |multiset(b)| == 0;
    }
  }

  /** Reordering a hand never changes its value. */
  lemma HandValueOrderIndependent(a: seq<Card>, b: seq<Card>)
    requires multiset(a) == multiset(b)
    ensures HandValue(a) == HandValue(b)
  {
    TallyPermutation(a, b, CardValue);
    TallyPermutation(a, b, AceWeight);
  }

  lemma TwoCardTally(a: Card, b: Card)
    ensures RawSum([a, b]) == CardValue(a) + CardValue(b)
    ensures AceCount([a, b]) == AceWeight(a) + AceWeight(b)
  {
    assert [a, b][..1] == [a];
    assert [a][..0] == [];
    assert Tally([a], CardValue) == CardValue(a);
    assert Tally([a], AceWeight) == AceWeight(a);
  }

  /** A two-card 21 is exactly an ace with a ten-valued card. */
  lemma NaturalIsAceAndTen(a: Card, b: Card)
    ensures IsNatural([a, b]) <==>
      (a.rank == Ace && b.rank.IsFace()) || (b.rank == Ace && a.rank.IsFace())
  {
    TwoCardTally(a, b);
  }

  /** Two aces make 12, ace and king 21, three aces and an eight 21. */
  lemma ValueExamples()
    ensures HandValue([Card(Spades, Ace), Card(Hearts, Ace)]) == 12
    ensures HandValue([Card(Spades, Ace), Card(Hearts, King)]) == 21
    ensures HandValue([Card(Spades, Ace), Card(Hearts, Ace), Card(Clubs, Ace), Card(Diamonds, Eight)]) == 21
  {
    TwoCardTally(Card(Spades, Ace), Card(Hearts, Ace));
    TwoCardTally(Card(Spades, Ace), Card(Hearts, King));
    var h := [Card(Spades, Ace), Card(Hearts, Ace), Card(Clubs, Ace), Card(Diamonds, Eight)];
    assert h[..3][..2] == [Card(Spades, Ace), Card(Hearts, Ace)];
    assert h[..3] == [Card(Spades, Ace), Card(Hearts, Ace), Card(Clubs, Ace)];
    assert RawSum(h) == 41 && AceCount(h) == 3;
  }

  /**
   * The dealer total on display: the whole hand once revealed, otherwise
   * only the up card, so the hidden card never shows through.
   */
  function ShownDealerTotal(revealed: bool, dealerHand: seq<Card>): (t: int)
    ensures revealed ==> t == HandValue(dealerHand)
    ensures !revealed ==> 0 <= t <= 11 && (t == 0 <==> dealerHand == [])
  {
    if revealed then HandValue(dealerHand)
    else if dealerHand == [] then 0
    else CardValue(dealerHand[0])
  }

  /** While the dealer's hand is hidden, the cards after the first do not change the shown total. */
  lemma HiddenCardsNotShown(h1: seq<Card>, h2: seq<Card>)
    requires h1 != [] && h2 != [] && h1[0] == h2[0]
    ensures ShownDealerTotal(false, h1) == ShownDealerTotal(false, h2)
  {
  }
}
