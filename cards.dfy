/**
 * Cards and the shoe: suits, ranks, immutable cards, and a deck that is
 * filled suit by suit, shuffled in place and drawn from its end.
 */
module CardModel {

  datatype Suit = Spades | Hearts | Diamonds | Clubs {

    /** Hearts and diamonds are printed in red, spades and clubs in black. */
    predicate IsRed()
      ensures IsRed() <==> !(this == Spades || this == Clubs)
    {
      this == Hearts || this == Diamonds
    }
  }

  /** The ranks of the deck; there is no ten, so a suit holds twelve cards. */
  datatype Rank = Ace | Two | Three | Four | Five | Six | Seven | Eight | Nine | Jack | Queen | King {

    predicate IsFace() {
      this == Jack || this == Queen || this == King
    }

    /** The rank's face value: ace counts one, face cards ten. */
    function Numeric(): (n: int)
      ensures 1 <= n <= 10
      ensures n == 1 <==> this == Ace
      ensures n == 10 <==> IsFace()
    {
      match this
      case Ace => 1
      case Two => 2
      case Three => 3
      case Four => 4
      case Five => 5
      case Six => 6
      case Seven => 7
      case Eight => 8
      case Nine => 9
      case Jack => 10
      case Queen => 10
      case King => 10
    }

    /** The corner label printed on the card. */
    function Label(): (l: string)
      ensures |l| == 1
      ensures IsFace() || this == Ace <==> !('2' <= l[0] <= '9')
    {
      match this
      case Ace => "A"
      case Two => "2"
      case Three => "3"
      case Four => "4"
      case Five => "5"
      case Six => "6"
      case Seven => "7"
      case Eight => "8"
      case Nine => "9"
      case Jack => "J"
      case Queen => "Q"
      case King => "K"
    }
  }

  datatype Card = Card(suit: Suit, rank: Rank)

  /** The suits in declaration order, as enumerated when a deck is filled. */
  const AllSuits: seq<Suit> := [Spades, Hearts, Diamonds, Clubs]

  /** The ranks in declaration order. */
  const AllRanks: seq<Rank> := [Ace, Two, Three, Four, Five, Six, Seven, Eight, Nine, Jack, Queen, King]

  const SuitCount := 4
  const RankCount := 12
  const DeckSize := 48

  function SuitIndex(s: Suit): (i: nat)
    ensures i < SuitCount && AllSuits[i] == s
  {
    match s
    case Spades => 0
    case Hearts => 1
    case Diamonds => 2
    case Clubs => 3
  }

  function RankIndex(r: Rank): (i: nat)
    ensures i < RankCount && AllRanks[i] == r
  {
    match r
    case Ace => 0
    case Two => 1
    case Three => 2
    case Four => 3
    case Five => 4
    case Six => 5
    case Seven => 6
    case Eight => 7
    case Nine => 8
    case Jack => 9
    case Queen => 10
    case King => 11
  }

  /** Below the face cards, a rank's numeric value is its pip count. */
  lemma RankNumericIsPipCount(i: nat)
    requires i < RankCount
    ensures AllRanks[i].Numeric() == if i < 9 then i + 1 else 10
  {
  }

  /** Labels identify ranks: two different ranks never share a label. */
  lemma LabelsDistinct(r1: Rank, r2: Rank)
    requires r1 != r2
    ensures r1.Label() != r2.Label()
  {
  }

  /** The deck before shuffling: for each suit in order, each rank in order. */
  function FreshOrder(): (cards: seq<Card>)
    ensures |cards| == DeckSize
  {
    seq(DeckSize, k requires 0 <= k < DeckSize => Card(AllSuits[k / RankCount], AllRanks[k % RankCount]))
  }

  lemma FreshOrderAt(i: nat, j: nat)
    requires i < SuitCount && j < RankCount
    ensures RankCount * i + j < DeckSize
    ensures FreshOrder()[RankCount * i + j] == Card(AllSuits[i], AllRanks[j])
  {
    var k := RankCount * i + j;
    assert k / RankCount == i && k % RankCount == j;
  }

  /** Every suit and rank pair is in a fresh deck. */
  lemma {:induction false} FreshOrderComplete(c: Card)
    ensures c in FreshOrder()
  {
    FreshOrderAt(SuitIndex(c.suit), RankIndex(c.rank));
  }

  /** A card's place in a fresh deck is determined by its suit and rank indices. */
  lemma FreshOrderPosition(k: nat)
    requires k < DeckSize
    ensures RankCount * SuitIndex(FreshOrder()[k].suit) + RankIndex(FreshOrder()[k].rank) == k
  {
    var i, j := k / RankCount, k % RankCount;
    FreshOrderAt(i, j);
    assert SuitIndex(AllSuits[i]) == i;
    assert RankIndex(AllRanks[j]) == j;
  }

  /** No card occurs twice in a fresh deck. */
  lemma {:induction false} FreshOrderDistinct(a: nat, b: nat)
    requires a < b < DeckSize
    ensures FreshOrder()[a] != FreshOrder()[b]
  {
    FreshOrderPosition(a);
    FreshOrderPosition(b);
  }

  /** A fresh deck holds each of the 48 cards exactly once. */
  lemma FreshOrderOnceEach(c: Card)
    ensures multiset(FreshOrder())[c] == 1
  {
    var f := FreshOrder();
    FreshOrderComplete(c);
    var k :| 0 <= k < |f| && f[k] == c;
    SplitAt(f, k);
    var rest := f[..k] + f[k + 1..];
    forall m | 0 <= m < |rest| ensures rest[m] != c {
      if m < k {
        FreshOrderDistinct(m, k);
      } else {
        FreshOrderDistinct(k, m + 1);
      }
    }
    assert multiset(f) == multiset(rest) + multiset{c};
    assert c !in rest;
  }

  lemma PrefixGrows(s: seq<Card>, k: nat)
    requires k < |s|
    ensures s[..k + 1] == s[..k] + [s[k]]
  {
  }

  lemma SplitAt(s: seq<Card>, k: nat)
    requires k < |s|
    ensures s == s[..k] + [s[k]] + s[k + 1..]
  {
  }

  /** Fills a deck the way the deck constructor does, with two nested loops. */
  method BuildFreshOrder() returns (cards: seq<Card>)
    ensures cards == FreshOrder()
  {
    cards := [];
    for i := 0 to |AllSuits|
      invariant cards == FreshOrder()[..RankCount * i]
    {
      for j := 0 to |AllRanks|
        invariant cards == FreshOrder()[..RankCount * i + j]
      {
        FreshOrderAt(i, j);
        PrefixGrows(FreshOrder(), RankCount * i + j);
        cards := cards + [Card(AllSuits[i], AllRanks[j])];
      }
    }
  }

  /** The random choices of one shuffle: picks[k] is the index, at most k, swapped into position k. */
  predicate IsPickSeq(picks: seq<nat>, n: nat) {
    |picks| == n && forall k :: 0 <= k < n ==> picks[k] <= k
  }

  /** Exchanges the cards at positions i and j. */
  function Swap(s: seq<Card>, i: nat, j: nat): (r: seq<Card>)
    requires i < |s| && j < |s|
    ensures |r| == |s|
  {
    s[i := s[j]][j := s[i]]
  }

  /** A swap exchanges exactly two cards and keeps the same cards. */
  lemma SwapExchanges(s: seq<Card>, i: nat, j: nat)
    requires i < |s| && j < |s|
    ensures Swap(s, i, j)[i] == s[j] && Swap(s, i, j)[j] == s[i]
    ensures forall k :: 0 <= k < |s| && k != i && k != j ==> Swap(s, i, j)[k] == s[k]
    ensures multiset(Swap(s, i, j)) == multiset(s)
  {
    var r := Swap(s, i, j);
    if i != j {
      assert s == s[..i] + [s[i]] + s[i + 1..];
    }
  }

  /** Positions i-1 down to 1 of the shuffle, each swapped with its pick. */
  function ShuffleDown(s: seq<Card>, picks: seq<nat>, i: nat): (r: seq<Card>)
    requires i <= |s| && IsPickSeq(picks, |s|)
    ensures |r| == |s|
    decreases i
  {
    if i <= 1 then s else ShuffleDown(Swap(s, i - 1, picks[i - 1]), picks, i - 1)
  }

  /** The order a shuffle with the given random choices leaves. */
  function Shuffled(s: seq<Card>, picks: seq<nat>): (r: seq<Card>)
    requires IsPickSeq(picks, |s|)
    ensures |r| == |s|
  {
    ShuffleDown(s, picks, |s|)
  }

  /** Shuffling only permutes: the same cards, as many of each. */
  lemma {:induction false} ShuffleDownPermutes(s: seq<Card>, picks: seq<nat>, i: nat)
    requires i <= |s| && IsPickSeq(picks, |s|)
    ensures |ShuffleDown(s, picks, i)| == |s|
    ensures multiset(ShuffleDown(s, picks, i)) == multiset(s)
    decreases i
  {
    if i > 1 {
      SwapExchanges(s, i - 1, picks[i - 1]);
      ShuffleDownPermutes(Swap(s, i - 1, picks[i - 1]), picks, i - 1);
    }
  }

  /** Choices that never move a card leave the order as it was. */
  lemma {:induction false} ShuffleDownIdentity(s: seq<Card>, picks: seq<nat>, i: nat)
    requires i <= |s| && IsPickSeq(picks, |s|)
    requires forall k :: 0 <= k < |s| ==> picks[k] == k
    ensures ShuffleDown(s, picks, i) == s
    decreases i
  {
    if i > 1 {
      assert Swap(s, i - 1, picks[i - 1]) == s;
      ShuffleDownIdentity(s, picks, i - 1);
    }
  }

  lemma ShuffledPermutes(s: seq<Card>, picks: seq<nat>)
    requires IsPickSeq(picks, |s|)
    ensures |Shuffled(s, picks)| == |s|
    ensures multiset(Shuffled(s, picks)) == multiset(s)
  {
    ShuffleDownPermutes(s, picks, |s|);
  }

  /** A shuffled fresh deck holds 48 cards, each of them exactly once. */
  lemma ShuffledDeckOnceEach(picks: seq<nat>, c: Card)
    requires IsPickSeq(picks, DeckSize)
    ensures |Shuffled(FreshOrder(), picks)| == DeckSize
    ensures multiset(Shuffled(FreshOrder(), picks))[c] == 1
  {
    ShuffledPermutes(FreshOrder(), picks);
    FreshOrderOnceEach(c);
  }

  /** The card a draw takes: the last of the list. */
  function Top(cards: seq<Card>): Card
    requires cards != []
  {
    cards[|cards| - 1]
  }

  /** What a draw leaves: every card but the last, in the same order. */
  function Rest(cards: seq<Card>): (r: seq<Card>)
    requires cards != []
    ensures |r| == |cards| - 1 && cards == r + [Top(cards)]
  {
    cards[..|cards| - 1]
  }

  /** The shoe: an ordered list of undealt cards whose end is its top. */
  class Deck {
    var cards: seq<Card>

    /** Fills the deck suit by suit, rank by rank, then shuffles it. */
    constructor (picks: seq<nat>)
      requires IsPickSeq(picks, DeckSize)
      ensures cards == Shuffled(FreshOrder(), picks)
      ensures |cards| == DeckSize
    {
      var ordered := BuildFreshOrder();
      cards := ordered;
      new;
      Shuffle(picks);
    }

    /** Fisher-Yates from the last position down, as the library shuffle does it. */
    method Shuffle(picks: seq<nat>)
      requires IsPickSeq(picks, |cards|)
      modifies this
      ensures cards == Shuffled(old(cards), picks)
      ensures multiset(cards) == multiset(old(cards)) && |cards| == |old(cards)|
    {
      var i := |cards|;
      while i > 1
        invariant 0 <= i <= |cards| == |picks|
        invariant ShuffleDown(cards, picks, i) == Shuffled(old(cards), picks)
      {
        cards := Swap(cards, i - 1, picks[i - 1]);
        i := i - 1;
      }
      ShuffledPermutes(old(cards), picks);
    }

    /** Removes and returns the last card; an empty deck has nothing to remove. */
    method Draw() returns (c: Card)
      requires cards != []
      modifies this
      ensures c == Top(old(cards)) && cards == Rest(old(cards))
      ensures Size() == old(Size()) - 1
    {
      c := Top(cards);
      cards := Rest(cards);
    }

    function Size(): nat
      reads this
    {
      |cards|
    }
  }
}
