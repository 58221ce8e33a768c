/**
 * One blackjack session at the table: the balance and bet, both hands,
 * the shoe of the current round, the round flags and the statistics.
 * Each command runs to completion; the dealer's timed draws become a loop.
 */
module Session {
  import opened CardModel
  import opened Valuation
  import opened Rules

  /** What a command did. */
  datatype Status = Done | Ignored | NotEnoughBalance | DeckExhausted

  /** One card leaving the deck: the card and whether it lands face up. */
  datatype Deal = Dealt(card: Card, faceUp: bool) | Exhausted

  class Game {
    var balance: int
    var bet: int
    var dealerRevealed: bool
    var roundOver: bool

    var gamesPlayed: int
    var wins: int
    var losses: int
    var pushes: int
    var bestStreak: int
    var currentStreak: int
    var biggestWin: int
    var last10: seq<int>

    var playerHand: seq<Card>
    var dealerHand: seq<Card>
    /** The shoe of the current round; empty before the first round. */
    var deck: seq<Card>

    /** The balance and statistics as one value. */
    function Ledger(): Books
      reads this`balance, this`gamesPlayed, this`wins, this`losses, this`pushes,
        this`currentStreak, this`bestStreak, this`biggestWin, this`last10
    {
      Books(balance, gamesPlayed, wins, losses, pushes, currentStreak, bestStreak, biggestWin, last10)
    }

    ghost predicate Valid()
      reads this
    {
      BooksOk(Ledger()) && bet >= 0
    }

    function PlayerTotal(): int
      reads this`playerHand
    {
      HandValue(playerHand)
    }

    function DealerTotal(): int
      reads this`dealerHand
    {
      HandValue(dealerHand)
    }

    /** Cards are on the table and the round is not yet settled. */
    predicate InRound()
      reads this
    {
      !roundOver && playerHand != []
    }

    constructor ()
      ensures Valid()
      ensures Ledger() == Books(RefillBalance, 0, 0, 0, 0, 0, 0, 0, [])
      ensures bet == DefaultBet && !dealerRevealed && !roundOver
      ensures playerHand == [] && dealerHand == [] && deck == []
    {
      balance, bet := RefillBalance, DefaultBet;
      dealerRevealed, roundOver := false, false;
      gamesPlayed, wins, losses, pushes := 0, 0, 0, 0;
      bestStreak, currentStreak, biggestWin := 0, 0, 0;
      last10 := [];
      playerHand, dealerHand, deck := [], [], [];
    }

    // ----- Betting -----

    /** A left (primary) or right click on a chip of the rack; ignored while a round is under way. */
    method ClickChip(amount: int, primary: bool)
      requires Valid() && amount in ChipValues
      modifies this`bet
      ensures Valid()
      ensures bet == ChipClick(InRound(), balance, old(bet), amount, primary)
    {
      bet := ChipClick(InRound(), balance, bet, amount, primary);
    }

    /** The Clear Bet button; ignored while a round is under way. */
    method ClearBet()
      requires Valid()
      modifies this`bet
      ensures Valid()
      ensures bet == ClearedBet(InRound(), old(bet))
    {
      bet := ClearedBet(InRound(), bet);
    }

    // ----- Dealing and settling -----

    /**
     * Moves the deck's last card to the player's or the dealer's hand. It
     * lands face down only as the dealer's second card while the dealer is
     * unrevealed and the caller asks for the hole card.
     */
    method DealTo(toDealer: bool, hideDealerSecond: bool) returns (d: Deal)
      modifies this`deck, this`playerHand, this`dealerHand
      ensures old(deck) == [] ==> d == Exhausted && unchanged(this)
      ensures old(deck) != [] ==>
        var c := Top(old(deck));
        deck == Rest(old(deck)) &&
        (toDealer ==> dealerHand == old(dealerHand) + [c] && playerHand == old(playerHand)) &&
        (!toDealer ==> playerHand == old(playerHand) + [c] && dealerHand == old(dealerHand)) &&
        d == Dealt(c, !(toDealer && !dealerRevealed && |dealerHand| == 2 && hideDealerSecond))
    {
      if deck == [] {
        return Exhausted;
      }
      var c := Top(deck);
      deck := Rest(deck);
      if toDealer {
        dealerHand := dealerHand + [c];
      } else {
        playerHand := playerHand + [c];
      }
      var faceDown := toDealer && !dealerRevealed && |dealerHand| == 2 && hideDealerSecond;
      d := Dealt(c, !faceDown);
    }

    /** Records a result in the recent-results history. */
    method AddResult(r: int)
      modifies this`last10
      ensures last10 == Appended(old(last10), r)
    {
      last10 := last10 + [r];
      if |last10| > HistoryCapacity {
        last10 := last10[1..];
      }
    }

    /** Settles the round once; a round already over is left as it is. */
    method EndRound(o: Outcome)
      requires Valid()
      modifies this`roundOver, this`balance, this`gamesPlayed, this`wins, this`losses, this`pushes,
        this`bestStreak, this`currentStreak, this`biggestWin, this`last10
      ensures Valid() && roundOver
      ensures old(roundOver) ==> unchanged(this)
      ensures !old(roundOver) ==> Ledger() == Settle(old(Ledger()), o, bet)
    {
      if roundOver {
        return;
      }
      roundOver := true;
      match o {
        case Push =>
          balance := balance + bet;
          pushes := pushes + 1;
          currentStreak := 0;
          AddResult(0);
        case Win =>
          balance := balance + bet * 2;
          wins := wins + 1;
          currentStreak := currentStreak + 1;
          bestStreak := Max(bestStreak, currentStreak);
          biggestWin := Max(biggestWin, bet);
          AddResult(1);
        case Loss =>
          losses := losses + 1;
          currentStreak := 0;
          AddResult(-1);
      }
      gamesPlayed := gamesPlayed + 1;
      assert Ledger() == Settle(old(Ledger()), o, bet);
      SettleKeepsBooksOk(old(Ledger()), o, bet);
    }

    /**
     * After the opening deal, with the dealer still hidden and the round
     * open: a player on 21 reveals the dealer, pushes against a dealer 21,
     * and otherwise is paid three to two at once.
     */
    method CheckNaturalBlackjack()
      requires Valid() && !roundOver && !dealerRevealed
      modifies this`dealerRevealed, this`roundOver, this`balance, this`gamesPlayed, this`wins, this`losses,
        this`pushes, this`bestStreak, this`currentStreak, this`biggestWin, this`last10
      ensures Valid() && NaturalChecked(old(Ledger()))
    {
      if PlayerTotal() == Bust {
        dealerRevealed := true;
        if DealerTotal() == Bust {
          EndRound(Push);
        } else {
          PayNatural();
        }
      }
    }

    /** Pays a natural blackjack three to two and closes the round. */
    method PayNatural()
      requires Valid()
      modifies this`roundOver, this`balance, this`gamesPlayed, this`wins, this`losses, this`pushes,
        this`bestStreak, this`currentStreak, this`biggestWin, this`last10
      ensures Valid() && roundOver
      ensures Ledger() == SettleNatural(old(Ledger()), bet)
    {
      roundOver := true;
      var payout := NaturalPayout(bet);
      balance := balance + bet + payout;
      wins := wins + 1;
      gamesPlayed := gamesPlayed + 1;
      currentStreak := currentStreak + 1;
      bestStreak := Max(bestStreak, currentStreak);
      biggestWin := Max(biggestWin, payout);
      AddResult(1);
      SettleNaturalKeepsBooksOk(old(Ledger()), bet);
    }

    /**
     * The state right after a round opens from books `before`, bet `bet0`
     * and the freshly shuffled shoe `d`: the opening bet taken, two cards
     * each dealt from the end of the shoe player first, and a natural
     * blackjack already settled.
     */
    ghost predicate Opened(before: Books, bet0: int, d: seq<Card>)
      requires |d| == DeckSize && before.balance >= 0
      reads this
    {
      var stake := OpeningBet(bet0, before.balance);
      var staked := before.(balance := before.balance - stake);
      bet == stake &&
      playerHand == [d[47], d[45]] && dealerHand == [d[46], d[44]] && deck == d[..44] &&
      NaturalChecked(staked)
    }

    /**
     * The natural-blackjack check done on a fresh deal with books `staked`:
     * a player 21 has revealed the dealer and closed the round, pushing
     * against a dealer 21 and otherwise paid three to two; any other
     * total leaves the round open and the books as they were.
     */
    ghost predicate NaturalChecked(staked: Books)
      reads this
    {
      if HandValue(playerHand) == Bust then
        dealerRevealed && roundOver &&
        Ledger() == if HandValue(dealerHand) == Bust then Settle(staked, Push, bet) else SettleNatural(staked, bet)
      else
        !dealerRevealed && !roundOver && Ledger() == staked
    }

    /**
     * The opening deal: player, dealer, player, dealer from the end of the
     * shoe, the dealer's second card face down.
     */
    method DealOpening() returns (events: seq<Deal>)
      requires |deck| >= 4 && playerHand == [] && dealerHand == [] && !dealerRevealed
      modifies this`deck, this`playerHand, this`dealerHand
      ensures var d, n := old(deck), |old(deck)|;
        playerHand == [d[n - 1], d[n - 3]] && dealerHand == [d[n - 2], d[n - 4]] && deck == d[..n - 4] &&
        events == [Dealt(d[n - 1], true), Dealt(d[n - 2], true), Dealt(d[n - 3], true), Dealt(d[n - 4], false)]
    {
      ghost var d, n := deck, |deck|;
      var e1 := DealTo(false, false);
      var e2 := DealTo(true, false);
      assert deck == d[..n - 2];
      var e3 := DealTo(false, false);
      var e4 := DealTo(true, true);
      assert deck == d[..n - 4];
      events := [e1, e2, e3, e4];
    }

    /** Clamps the bet to what the balance allows, or to the default when none is set, and takes it. */
    method TakeOpeningBet()
      requires Valid()
      modifies this`bet, this`balance
      ensures Valid()
      ensures bet == OpeningBet(old(bet), old(balance))
      ensures Ledger() == old(Ledger()).(balance := old(balance) - bet)
    {
      if bet > balance {
        bet := balance;
      }
      if bet <= 0 {
        bet := Min(DefaultBet, balance);
      }
      balance := balance - bet;
    }

    /**
     * Opens a round: a fresh shuffled shoe, then the opening bet, the deal
     * and the natural-blackjack check.
     */
    method StartRound(picks: seq<nat>) returns (events: seq<Deal>, ghost shoe: seq<Card>)
      requires Valid() && IsPickSeq(picks, DeckSize)
      modifies this
      ensures Valid()
      ensures shoe == Shuffled(FreshOrder(), picks)
      ensures |shoe| == DeckSize && Opened(old(Ledger()), old(bet), shoe)
      ensures events == [Dealt(shoe[47], true), Dealt(shoe[46], true), Dealt(shoe[45], true), Dealt(shoe[44], false)]
    {
      ClearTable();
      ghost var before := Ledger();
      var newDeck := new Deck(picks);
      deck := newDeck.cards;
      shoe := deck;
      assert Ledger() == before;
      events := OpenWithShoe();
    }

    /** Clears both hands and the round flags; the balance, bet and statistics stay. */
    method ClearTable()
      modifies this`roundOver, this`dealerRevealed, this`playerHand, this`dealerHand
      ensures !roundOver && !dealerRevealed && playerHand == [] && dealerHand == []
    {
      roundOver := false;
      dealerRevealed := false;
      playerHand := [];
      dealerHand := [];
    }

    /**
     * The rest of opening a round once the shoe is in place: the bet
     * clamped and taken, the opening deal, the natural-blackjack check.
     */
    method OpenWithShoe() returns (events: seq<Deal>)
      requires Valid() && |deck| == DeckSize
      requires playerHand == [] && dealerHand == [] && !dealerRevealed && !roundOver
      modifies this`bet, this`balance, this`deck, this`playerHand, this`dealerHand, this`dealerRevealed,
        this`roundOver, this`gamesPlayed, this`wins, this`losses, this`pushes, this`bestStreak,
        this`currentStreak, this`biggestWin, this`last10
      ensures Valid()
      ensures Opened(old(Ledger()), old(bet), old(deck))
      ensures var d := old(deck);
        events == [Dealt(d[47], true), Dealt(d[46], true), Dealt(d[45], true), Dealt(d[44], false)]
    {
      TakeOpeningBet();
      ghost var staked, d := Ledger(), deck;
      events := DealOpening();
      assert playerHand == [d[47], d[45]] && dealerHand == [d[46], d[44]] && deck == d[..44];
      assert Ledger() == staked;
      CheckNaturalBlackjack();
    }

    /** The Play button: an empty balance is refilled to 1000 if the player agrees, then a round opens. */
    method PlayAgain(refill: bool, picks: seq<nat>) returns (started: bool, events: seq<Deal>, ghost shoe: seq<Card>)
      requires Valid() && IsPickSeq(picks, DeckSize)
      modifies this
      ensures Valid()
      ensures started <==> old(balance) > 0 || refill
      ensures !started ==> unchanged(this) && events == []
      ensures started ==>
        shoe == Shuffled(FreshOrder(), picks) && |shoe| == DeckSize &&
        Opened(old(Ledger()).(balance := if old(balance) <= 0 then RefillBalance else old(balance)), old(bet), shoe)
    {
      events, shoe := [], [];
      if balance <= 0 {
        if !refill {
          return false, events, shoe;
        }
        balance := RefillBalance;
      }
      events, shoe := StartRound(picks);
      started := true;
    }

    // ----- Player and dealer turns -----

    /** The player's hand got the deck's last card. */
    ghost predicate PlayerDrew(hand0: seq<Card>, deck0: seq<Card>)
      reads this
    {
      deck0 != [] && playerHand == hand0 + [deck0[|deck0| - 1]] && deck == deck0[..|deck0| - 1]
    }

    /**
     * The dealer played out from `hand0` and `deck0`: the draws of
     * DealerDraws, then, on 17 or more, the round settled by comparing
     * totals; on an empty shoe below 17 the round stays open.
     */
    ghost predicate DealerFinished(before: Books, hand0: seq<Card>, deck0: seq<Card>)
      reads this
    {
      var r := DealerDraws(hand0, deck0);
      dealerHand == r.0 && deck == r.1 &&
      if HandValue(r.0) >= DealerStand then
        roundOver && Ledger() == Settle(before, OutcomeOf(PlayerTotal(), DealerTotal()), bet)
      else
        !roundOver && Ledger() == before
    }

    /** Hit: one card to the player; a bust reveals the dealer and loses the round. */
    method Hit() returns (s: Status)
      requires Valid()
      modifies this
      ensures Valid()
      ensures old(roundOver) ==> s == Ignored && unchanged(this)
      ensures !old(roundOver) && old(deck) == [] ==> s == DeckExhausted && unchanged(this)
      ensures !old(roundOver) && old(deck) != [] ==>
        s == Done && PlayerDrew(old(playerHand), old(deck)) &&
        dealerHand == old(dealerHand) && bet == old(bet) &&
        (PlayerTotal() > Bust ==> dealerRevealed && roundOver && Ledger() == Settle(old(Ledger()), Loss, bet)) &&
        (PlayerTotal() <= Bust ==> dealerRevealed == old(dealerRevealed) && !roundOver && Ledger() == old(Ledger()))
    {
      if roundOver {
        return Ignored;
      }
      var d := DealTo(false, false);
      if d.Exhausted? {
        return DeckExhausted;
      }
      if PlayerTotal() > Bust {
        dealerRevealed := true;
        EndRound(Loss);
      }
      s := Done;
    }

    /**
     * The dealer's automatic play: draw while under 17, then settle by
     * comparing totals. An empty shoe below 17 leaves the round open.
     */
    method DealerTurn() returns (s: Status)
      requires Valid()
      modifies this`deck, this`playerHand, this`dealerHand, this`roundOver, this`balance, this`gamesPlayed,
        this`wins, this`losses, this`pushes, this`bestStreak, this`currentStreak, this`biggestWin, this`last10
      ensures Valid() && playerHand == old(playerHand)
      ensures old(roundOver) ==> s == Ignored && unchanged(this)
      ensures !old(roundOver) ==>
        DealerFinished(old(Ledger()), old(dealerHand), old(deck)) &&
        (s == Done <==> roundOver) && (s == Done || s == DeckExhausted)
    {
      if roundOver {
        return Ignored;
      }
      DealerDraw();
      if DealerTotal() >= DealerStand {
        DecideOutcome();
        s := Done;
      } else {
        s := DeckExhausted;
      }
    }

    /** The dealer's timed draws: one card at a time while under 17 and the shoe lasts. */
    method DealerDraw()
      modifies this`deck, this`playerHand, this`dealerHand
      ensures (dealerHand, deck) == DealerDraws(old(dealerHand), old(deck))
      ensures playerHand == old(playerHand)
    {
      while DealerTotal() < DealerStand && deck != []
        invariant DealerDraws(dealerHand, deck) == DealerDraws(old(dealerHand), old(deck))
        invariant playerHand == old(playerHand)
        decreases |deck|
      {
        var d := DealTo(true, false);
      }
    }

    /** Settles the round by comparing the two totals; a round already over is left as it is. */
    method DecideOutcome()
      requires Valid()
      modifies this`roundOver, this`balance, this`gamesPlayed, this`wins, this`losses, this`pushes,
        this`bestStreak, this`currentStreak, this`biggestWin, this`last10
      ensures Valid() && roundOver
      ensures old(roundOver) ==> unchanged(this)
      ensures !old(roundOver) ==> Ledger() == Settle(old(Ledger()), OutcomeOf(PlayerTotal(), DealerTotal()), bet)
    {
      if roundOver {
        return;
      }
      EndRound(OutcomeOf(PlayerTotal(), DealerTotal()));
    }

    /** Stand: reveal the dealer's hole card and let the dealer play. */
    method Stand() returns (s: Status)
      requires Valid()
      modifies this
      ensures Valid()
      ensures old(roundOver) ==> s == Ignored && unchanged(this)
      ensures !old(roundOver) ==>
        dealerRevealed && playerHand == old(playerHand) && bet == old(bet) &&
        DealerFinished(old(Ledger()), old(dealerHand), old(deck)) &&
        (s == Done <==> roundOver) && (s == Done || s == DeckExhausted)
    {
      if roundOver {
        return Ignored;
      }
      dealerRevealed := true;
      s := DealerTurn();
    }

    /**
     * Double: with the balance to cover it, the bet is taken again and
     * doubled, exactly one card goes to the player, and the dealer is
     * revealed; a bust loses, otherwise the dealer plays.
     */
    method Double() returns (s: Status)
      requires Valid()
      modifies this
      ensures Valid()
      ensures old(roundOver) ==> s == Ignored && unchanged(this)
      ensures !old(roundOver) && old(balance) < old(bet) ==> s == NotEnoughBalance && unchanged(this)
      ensures !old(roundOver) && old(balance) >= old(bet) ==>
        var doubled := old(Ledger()).(balance := old(balance) - old(bet));
        bet == 2 * old(bet) &&
        (old(deck) == [] ==>
          s == DeckExhausted && Ledger() == doubled && playerHand == old(playerHand) &&
          dealerHand == old(dealerHand) && deck == old(deck) && dealerRevealed == old(dealerRevealed) && !roundOver) &&
        (old(deck) != [] ==>
          playerHand == old(playerHand) + [old(deck)[|old(deck)| - 1]] && dealerRevealed &&
          (PlayerTotal() > Bust ==>
            s == Done && roundOver && PlayerDrew(old(playerHand), old(deck)) && dealerHand == old(dealerHand) &&
            Ledger() == Settle(doubled, Loss, bet)) &&
          (PlayerTotal() <= Bust ==>
            DealerFinished(doubled, old(dealerHand), old(deck)[..|old(deck)| - 1]) &&
            (s == Done <==> roundOver) && (s == Done || s == DeckExhausted)))
    {
      if roundOver {
        return Ignored;
      }
      if balance < bet {
        return NotEnoughBalance;
      }
      DoubleStake();
      s := DoubledCard();
    }

    /** Takes the bet from the balance a second time and doubles it. */
    method DoubleStake()
      requires Valid() && balance >= bet
      modifies this`balance, this`bet
      ensures Valid()
      ensures bet == 2 * old(bet) && Ledger() == old(Ledger()).(balance := old(balance) - old(bet))
    {
      balance := balance - bet;
      bet := bet * 2;
    }

    /**
     * The one card of a double: the dealer is revealed, a bust loses the
     * doubled stake, otherwise the dealer plays.
     */
    method DoubledCard() returns (s: Status)
      requires Valid() && !roundOver
      modifies this`deck, this`playerHand, this`dealerHand, this`dealerRevealed, this`roundOver, this`balance,
        this`gamesPlayed, this`wins, this`losses, this`pushes, this`bestStreak, this`currentStreak,
        this`biggestWin, this`last10
      ensures Valid()
      ensures old(deck) == [] ==> s == DeckExhausted && unchanged(this)
      ensures old(deck) != [] ==>
        playerHand == old(playerHand) + [old(deck)[|old(deck)| - 1]] && dealerRevealed &&
        (PlayerTotal() > Bust ==>
          s == Done && roundOver && PlayerDrew(old(playerHand), old(deck)) && dealerHand == old(dealerHand) &&
          Ledger() == Settle(old(Ledger()), Loss, bet)) &&
        (PlayerTotal() <= Bust ==>
          DealerFinished(old(Ledger()), old(dealerHand), old(deck)[..|old(deck)| - 1]) &&
          (s == Done <==> roundOver) && (s == Done || s == DeckExhausted))
    {
      var d := DealTo(false, false);
      if d.Exhausted? {
        return DeckExhausted;
      }
      dealerRevealed := true;
      if PlayerTotal() > Bust {
        EndRound(Loss);
        s := Done;
      } else {
        s := DealerTurn();
      }
    }
  }
}
