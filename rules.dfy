/**
 * The rules of a round that do not depend on the table state: who wins,
 * what is paid, how a bet is opened and adjusted by chips, how the
 * recent-results history is kept, and how the dealer draws.
 */
module Rules {
  import opened CardModel
  import opened Valuation

  function Min(a: int, b: int): int { if a <= b then a else b }
  function Max(a: int, b: int): int { if a >= b then a else b }

  // ----- Outcome -----

  datatype Outcome = Win | Loss | Push

  /** The history entry for an outcome: a win +1, a push 0, a loss -1. */
  function Score(o: Outcome): int {
    match o
    case Win => 1
    case Push => 0
    case Loss => -1
  }

  /** The same round seen from the other side of the table. */
  function Mirror(o: Outcome): Outcome {
    match o
    case Win => Loss
    case Loss => Win
    case Push => Push
  }

  /**
   * Both bust is a push; otherwise a bust player loses and a bust dealer
   * loses; otherwise the higher total wins and equal totals push.
   */
  function OutcomeOf(playerTotal: int, dealerTotal: int): (o: Outcome)
    ensures o == Push <==>
      (playerTotal > Bust && dealerTotal > Bust) ||
      (playerTotal <= Bust && dealerTotal <= Bust && playerTotal == dealerTotal)
    ensures o == Win <==> playerTotal <= Bust && (dealerTotal > Bust || playerTotal > dealerTotal)
    ensures o == Loss <==> dealerTotal <= Bust && (playerTotal > Bust || dealerTotal > playerTotal)
  {
    var playerBust, dealerBust := playerTotal > Bust, dealerTotal > Bust;
    if playerBust && dealerBust then Push
    else if playerBust then Loss
    else if dealerBust then Win
    else if playerTotal > dealerTotal then Win
    else if dealerTotal > playerTotal then Loss
    else Push
  }

  /** Swapping the two totals turns a win into a loss and keeps a push. */
  lemma OutcomeAntisymmetric(playerTotal: int, dealerTotal: int)
    ensures OutcomeOf(dealerTotal, playerTotal) == Mirror(OutcomeOf(playerTotal, dealerTotal))
  {
  }

  // ----- Payouts and bets -----

  /** One and a half times the bet, rounded half up, in whole currency units. */
  function NaturalPayout(bet: int): (p: int)
    ensures 3 * bet <= 2 * p <= 3 * bet + 1
  {
    (3 * bet + 1) / 2
  }

  lemma NaturalPayoutExamples()
    ensures NaturalPayout(100) == 150
    ensures NaturalPayout(5) == 8
    ensures NaturalPayout(0) == 0
  {
  }

  const DefaultBet := 100
  const RefillBalance := 1000

  /**
   * The bet a round opens with: the bet clamped to the balance, or, when
   * that leaves nothing, the default bet clamped to the balance.
   */
  function OpeningBet(bet: int, balance: int): (b: int)
    requires balance >= 0
    ensures 0 <= b <= balance
    ensures b == 0 <==> balance == 0
    ensures 0 < bet <= balance ==> b == bet
    ensures bet > balance > 0 ==> b == balance
    ensures bet <= 0 ==> b == Min(DefaultBet, balance)
  {
    var clamped := if bet > balance then balance else bet;
    if clamped <= 0 then Min(DefaultBet, balance) else clamped
  }

  /** The denominations of the chip rack. */
  const ChipValues: seq<int> := [50, 100, 500, 1000]

  /** A left click on a chip adds it to the bet, never taking the bet past the balance. */
  function ChipAdded(balance: int, bet: int, amount: int): (b: int)
    ensures b == Min(bet + amount, balance)
  {
    bet + Min(amount, balance - bet)
  }

  /** A right click on a chip takes it off the bet, never below zero. */
  function ChipRemoved(bet: int, amount: int): (b: int)
    requires amount >= 0
    ensures 0 <= b && b <= Max(bet, 0)
    ensures b == 0 || b == bet - amount
  {
    Max(0, bet - amount)
  }

  /** Taking a chip back off undoes adding it, when the balance covered it. */
  lemma ChipRemoveUndoesAdd(balance: int, bet: int, amount: int)
    requires amount >= 0 && bet >= 0 && bet + amount <= balance
    ensures ChipRemoved(ChipAdded(balance, bet, amount), amount) == bet
  {
  }

  /**
   * The chip handlers as the table has them, acting whether or not a round
   * is under way. From a bet the balance covers, a click keeps the bet
   * within the balance, moves it by at most the chip's value, up on a left
   * click and down on a right one, and by exactly the chip's value when
   * neither the balance nor zero gets in the way.
   */
  function ChipClickAsWritten(balance: int, bet: int, amount: int, primary: bool): (b: int)
    requires amount >= 0
    ensures 0 <= bet <= balance ==> 0 <= b <= balance && -amount <= b - bet <= amount
    ensures 0 <= bet <= balance ==> (primary ==> bet <= b) && (!primary ==> b <= bet)
    ensures primary && bet + amount <= balance ==> b == bet + amount
    ensures !primary && amount <= bet ==> b == bet - amount
  {
    if primary then ChipAdded(balance, bet, amount) else ChipRemoved(bet, amount)
  }

  /** Clear Bet as the table has it: whatever the round state, it takes the whole bet off. */
  function ClearedBetAsWritten(bet: int): (b: int)
    ensures b == 0
    ensures bet >= 0 ==> b == ChipRemoved(bet, bet)
  {
    0
  }

  /**
   * With a 100 stake already taken from a 1000 balance, leaving 900: a left
   * click on the 500 chip raises the live bet to 600, so a win settles to
   * 2100 where the stake actually taken would settle to 1100; Clear Bet
   * makes the same win settle to 900, returning nothing of the stake.
   */
  lemma MidRoundChipChangesStake(b: Books)
    requires b.balance == 900
    ensures ChipClickAsWritten(900, 100, 500, true) == 600
    ensures Settle(b, Win, ChipClickAsWritten(900, 100, 500, true)).balance == 2100
    ensures Settle(b, Win, 100).balance == 1100
    ensures Settle(b, Win, ClearedBetAsWritten(100)).balance == 900
  {
  }

  /** The chip handlers as intended: a click while a round is under way leaves the stake alone. */
  function ChipClick(inRound: bool, balance: int, bet: int, amount: int, primary: bool): (b: int)
    requires amount >= 0
    ensures inRound ==> b == bet
    ensures !inRound ==> b == ChipClickAsWritten(balance, bet, amount, primary)
  {
    if inRound then bet else ChipClickAsWritten(balance, bet, amount, primary)
  }

  /** Clear Bet as intended: it empties the bet only between rounds. */
  function ClearedBet(inRound: bool, bet: int): (b: int)
    ensures inRound ==> b == bet
    ensures !inRound ==> b == ClearedBetAsWritten(bet)
  {
    if inRound then bet else ClearedBetAsWritten(bet)
  }

  // ----- Recent results -----

  const HistoryCapacity := 10

  /** Adds a result at the newest end, dropping the oldest once there are more than ten. */
  function Appended(history: seq<int>, r: int): (h: seq<int>)
  {
    var full := history + [r];
    if |full| > HistoryCapacity then full[1..] else full
  }

  /** The history after recording each of `results` in turn, starting empty. */
  function Recorded(results: seq<int>): seq<int> {
    if results == [] then [] else Appended(Recorded(results[..|results| - 1]), results[|results| - 1])
  }

  /** The ten (or fewer) most recent of `results`, oldest first. */
  function LastTen(results: seq<int>): seq<int> {
    results[|results| - Min(|results|, HistoryCapacity)..]
  }

  /** Appending to the last ten of a run gives the last ten of the longer run. */
  lemma AppendedLastTen(results: seq<int>, r: int)
    ensures Appended(LastTen(results), r) == LastTen(results + [r])
  {
    var n := |results|;
    var longer := results + [r];
    if n < HistoryCapacity {
      assert LastTen(results) == results;
      assert LastTen(longer) == longer;
    } else {
      var tail := results[n - HistoryCapacity..];
      assert LastTen(results) == tail;
      assert (tail + [r])[1..] == longer[n + 1 - HistoryCapacity..];
    }
  }

  /** The history always holds exactly the ten (or fewer) most recent results, oldest first. */
  lemma {:induction false} RecordedKeepsLastTen(results: seq<int>)
    ensures Recorded(results) == LastTen(results)
  {
    if results != [] {
      var n := |results|;
      var prefix := results[..n - 1];
      RecordedKeepsLastTen(prefix);
      AppendedLastTen(prefix, results[n - 1]);
      assert prefix + [results[n - 1]] == results;
    }
  }

  // ----- Session books -----

  /** The balance and the statistics counters of a session, as one snapshot. */
  datatype Books = Books(
    balance: int,
    gamesPlayed: int,
    wins: int,
    losses: int,
    pushes: int,
    currentStreak: int,
    bestStreak: int,
    biggestWin: int,
    last10: seq<int>)

  /** Every round counted once; streaks and the history within their bounds; no debt. */
  predicate BooksOk(b: Books) {
    b.balance >= 0 &&
    b.wins >= 0 && b.losses >= 0 && b.pushes >= 0 &&
    b.gamesPlayed - b.wins == b.losses + b.pushes &&
    0 <= b.currentStreak <= b.bestStreak && b.currentStreak <= b.wins &&
    b.biggestWin >= 0 &&
    |b.last10| <= HistoryCapacity &&
    forall i :: 0 <= i < |b.last10| ==> -1 <= b.last10[i] <= 1
  }

  /** Settles an ordinary round: the stake back on a push, twice the stake on a win, nothing on a loss. */
  function Settle(b: Books, o: Outcome, stake: int): (r: Books)
  {
    var played := b.(gamesPlayed := b.gamesPlayed + 1, last10 := Appended(b.last10, Score(o)));
    match o
    case Push =>
      played.(balance := b.balance + stake, pushes := b.pushes + 1, currentStreak := 0)
    case Win =>
      played.(balance := b.balance + 2 * stake, wins := b.wins + 1,
              currentStreak := b.currentStreak + 1,
              bestStreak := Max(b.bestStreak, b.currentStreak + 1),
              biggestWin := Max(b.biggestWin, stake))
    case Loss =>
      played.(losses := b.losses + 1, currentStreak := 0)
  }

  /** Settles a natural blackjack: the stake back plus one and a half times it. */
  function SettleNatural(b: Books, stake: int): (r: Books)
  {
    var payout := NaturalPayout(stake);
    b.(balance := b.balance + stake + payout,
       wins := b.wins + 1,
       gamesPlayed := b.gamesPlayed + 1,
       currentStreak := b.currentStreak + 1,
       bestStreak := Max(b.bestStreak, b.currentStreak + 1),
       biggestWin := Max(b.biggestWin, payout),
       last10 := Appended(b.last10, 1))
  }

  lemma AppendedKeepsBounds(history: seq<int>, r: int)
    requires |history| <= HistoryCapacity && -1 <= r <= 1
    requires forall i :: 0 <= i < |history| ==> -1 <= history[i] <= 1
    ensures |Appended(history, r)| <= HistoryCapacity
    ensures forall i :: 0 <= i < |Appended(history, r)| ==> -1 <= Appended(history, r)[i] <= 1
  {
  }

  /** Settling a round with a non-negative stake keeps the books consistent. */
  lemma SettleKeepsBooksOk(b: Books, o: Outcome, stake: int)
    requires BooksOk(b) && stake >= 0
    ensures BooksOk(Settle(b, o, stake))
  {
    AppendedKeepsBounds(b.last10, Score(o));
  }

  lemma SettleNaturalKeepsBooksOk(b: Books, stake: int)
    requires BooksOk(b) && stake >= 0
    ensures BooksOk(SettleNatural(b, stake))
  {
    AppendedKeepsBounds(b.last10, 1);
  }

  /**
   * A settled round is counted once, under exactly the one of wins,
   * losses and pushes its outcome names; its score becomes the newest
   * history entry; a win extends the streak and any other outcome ends it.
   */
  lemma SettleCounts(b: Books, o: Outcome, stake: int)
    ensures var r := Settle(b, o, stake);
      r.gamesPlayed == b.gamesPlayed + 1 &&
      r.wins + r.losses + r.pushes == b.wins + b.losses + b.pushes + 1 &&
      (r.wins == b.wins + 1 <==> o == Win) &&
      (r.losses == b.losses + 1 <==> o == Loss) &&
      (r.pushes == b.pushes + 1 <==> o == Push) &&
      |r.last10| > 0 && r.last10[|r.last10| - 1] == Score(o) &&
      (o == Win ==>
        r.currentStreak == b.currentStreak + 1 &&
        r.bestStreak == Max(b.bestStreak, b.currentStreak + 1) && r.biggestWin == Max(b.biggestWin, stake)) &&
      (o != Win ==> r.currentStreak == 0 && r.bestStreak == b.bestStreak && r.biggestWin == b.biggestWin)
  {
  }

  /**
   * A natural is booked as a win, except that the balance gets the stake
   * plus the three-to-two payout and the biggest win compares the payout.
   */
  lemma SettleNaturalIsWin(b: Books, stake: int)
    ensures SettleNatural(b, stake) ==
      Settle(b, Win, stake).(balance := b.balance + stake + NaturalPayout(stake),
                             biggestWin := Max(b.biggestWin, NaturalPayout(stake)))
  {
  }

  /**
   * Measured from the balance before the stake was taken, a push nets
   * nothing, a win nets the stake, a loss loses it, and a natural nets
   * one and a half times it.
   */
  lemma SettlementNet(b: Books, stake: int)
    ensures Settle(b, Push, stake).balance - (b.balance + stake) == 0
    ensures Settle(b, Win, stake).balance - (b.balance + stake) == stake
    ensures Settle(b, Loss, stake).balance - (b.balance + stake) == -stake
    ensures SettleNatural(b, stake).balance - (b.balance + stake) == NaturalPayout(stake)
  {
  }

  // ----- The dealer's turn -----

  /**
   * The dealer's draws: while the hand is under 17 and the deck is not
   * empty, the last card of the deck goes to the hand. Returns the final
   * hand and the deck that is left; the hand grows by the deck's last
   * cards, taken from the end.
   */
  function DealerDraws(hand: seq<Card>, deck: seq<Card>): (r: (seq<Card>, seq<Card>))
    ensures |r.0| == |hand| + |deck| - |r.1|
    ensures |r.1| <= |deck| && r.1 == deck[..|r.1|]
    ensures r.0[..|hand|] == hand
    ensures forall k :: |hand| <= k < |r.0| ==> r.0[k] == deck[|deck| - 1 - (k - |hand|)]
    decreases |deck|
  {
    if HandValue(hand) >= DealerStand || deck == [] then (hand, deck)
    else
      var next := DealerDraws(hand + [deck[|deck| - 1]], deck[..|deck| - 1]);
      assert next.0[..|hand| + 1][..|hand|] == hand;
      next
  }

  /**
   * The dealer stops on 17 or more (or on an empty deck), and every card
   * it drew was drawn while its total was under 17.
   */
  lemma {:induction false} DealerDrawsStopRule(hand: seq<Card>, deck: seq<Card>)
    ensures var r := DealerDraws(hand, deck);
      (HandValue(r.0) >= DealerStand || r.1 == []) &&
      forall k :: |hand| <= k < |r.0| ==> HandValue(r.0[..k]) < DealerStand
    decreases |deck|
  {
    if HandValue(hand) < DealerStand && deck != [] {
      var hand' := hand + [deck[|deck| - 1]];
      DealerDrawsStopRule(hand', deck[..|deck| - 1]);
      var r := DealerDraws(hand, deck);
      assert r == DealerDraws(hand', deck[..|deck| - 1]);
      forall k | |hand| <= k < |r.0|
        ensures HandValue(r.0[..k]) < DealerStand
      {
        if k == |hand| {
          assert r.0[..|hand'|][..k] == hand;
        }
      }
    }
  }

  const DealerStand := 17

  /** A dealer already on 17 or more draws nothing, whether the total is soft or hard. */
  lemma DealerStandsOnSeventeen(hand: seq<Card>, deck: seq<Card>)
    requires HandValue(hand) >= DealerStand
    ensures DealerDraws(hand, deck) == (hand, deck)
  {
  }
}
