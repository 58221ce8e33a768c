# Blackjack table: cards, hand values and the round engine

A model of a single-player blackjack table against a dealer. The table
keeps a balance and a bet, deals from a freshly shuffled single deck each
round, values hands under the soft/hard ace rule, lets the player hit,
stand or double, plays the dealer out (draw while under 17), pays a
natural blackjack three to two, and keeps session statistics: games, wins,
losses, pushes, the current and best win streak, the biggest win and the
last ten results.

The project has four modules:

- `CardModel` (`cards.dfy`) has suits, ranks, cards and the `Deck` class.
  The deck is filled suit by suit and rank by rank in two loops. It is then
  shuffled in place by Fisher–Yates and drawn from its end.
- `Valuation` (`valuation.dfy`) has the card value, the hand value and the
  dealer total on display. The hand value is specified as a function and
  computed by a method with the two loops of `handValue`.
- `Rules` (`rules.dfy`) holds the pure rules:
  - the outcome precedence and the natural payout;
  - the opening-bet clamp and the chip arithmetic;
  - the ten-entry result history and the dealer's drawing rule;
  - how a settlement changes the balance and the statistics (`Books`, a
    snapshot of those fields).
- `Session` (`session.dfy`) has one `Game` class whose fields are the
  table's state. Each button handler is a method with a `modifies` frame
  and a contract that ties the new state to the `Rules` functions. The
  `Valid()` invariant (books consistent, no debt, a non-negative bet) is
  kept by every command.

The dealer's timed loop and the animation callbacks become plain
sequential steps. Revealing the dealer just sets `dealerRevealed`. The
random choices of the shuffle are a parameter `picks`: `picks[k] <= k` is
the index swapped into position `k`.

Three behaviours of the code worth knowing:

- The deck has 48 cards, because the rank list has no ten.
- The natural payout is `Math.round(1.5 * bet)`, which rounds half up; for
  a non-negative bet it is `(3 * bet + 1) / 2`.
- A bet of zero or less is not refused: the round opens with
  `min(100, balance)` instead.

## Model

| member | source | states |
|---|---|---|
| CardModel.Suit.IsRed | blackjack/CardModel.java:17-19 | red exactly for hearts and diamonds, so not for spades or clubs |
| CardModel.Rank.Numeric | blackjack/CardModel.java:24-27 | the numeric value lies in 1..10; it is 1 exactly for the ace and 10 exactly for the face cards |
| CardModel.Rank.Label | blackjack/CardModel.java:24-27 | one character, a digit 2..9 exactly for the pip ranks |
| CardModel.RankNumericIsPipCount | blackjack/CardModel.java:24-27 | in declaration order, ranks below the jack carry their pip count, the rest 10 |
| CardModel.LabelsDistinct | blackjack/CardModel.java:24-27 | different ranks have different labels |
| CardModel.FreshOrder | blackjack/CardModel.java:54-59 | the unshuffled deck has 48 cards |
| CardModel.FreshOrderComplete | blackjack/CardModel.java:54-59 | every suit and rank pair is in the unshuffled deck |
| CardModel.FreshOrderDistinct | blackjack/CardModel.java:54-59 | no two positions of the unshuffled deck hold the same card |
| CardModel.FreshOrderOnceEach | blackjack/CardModel.java:54-59 | every card occurs exactly once in the unshuffled deck |
| CardModel.BuildFreshOrder | blackjack/CardModel.java:54-59 | the nested suit and rank loops produce exactly the suit-major order |
| CardModel.SwapExchanges | blackjack/CardModel.java:63-65 | one shuffle step exchanges two positions, leaves every other position alone and keeps the same cards |
| CardModel.ShuffleDownPermutes | blackjack/CardModel.java:63-65 | any number of shuffle steps keeps the length and the multiset of cards |
| CardModel.ShuffleDownIdentity | blackjack/CardModel.java:63-65 | choices that swap every position with itself leave the order unchanged |
| CardModel.ShuffledPermutes | blackjack/CardModel.java:63-65 | a full shuffle is a permutation of its input |
| CardModel.ShuffledDeckOnceEach | blackjack/CardModel.java:54-65 | a new shuffled deck has 48 cards and holds each card exactly once |
| CardModel.Deck.constructor | blackjack/CardModel.java:54-61 | the new deck is the suit-major order shuffled with the given choices, 48 cards |
| CardModel.Deck.Shuffle | blackjack/CardModel.java:63-65 | the in-place Fisher–Yates loop leaves the order the shuffle function describes, with the same cards and length |
| CardModel.Deck.Draw | blackjack/CardModel.java:67-73 | on a non-empty deck, returns the last card; the rest keep their order and the size drops by one |
| Valuation.CardValue | BlackJack.java:937-941 | 11 exactly for an ace, otherwise the numeric value capped at 10; always 2..11 |
| Valuation.Reduce | BlackJack.java:929-932 | the reduction takes off whole tens, at most one per ace; it stays over 21 only with every ace reduced; each ten taken was needed |
| Valuation.ComputeHandValue | BlackJack.java:920-935 | the two-loop computation returns exactly the hand value |
| Valuation.HandValueBounds | BlackJack.java:920-935 | a hand's value lies between its raw sum with all aces reduced and its raw sum |
| Valuation.BustHandHasNoSoftAce | BlackJack.java:929-932 | a hand over 21 has every ace counted as one |
| Valuation.HandValueIsBestTotal | BlackJack.java:920-935 | among the totals reachable by reducing aces, the value is the largest not over 21 |
| Valuation.TallyPermutation | BlackJack.java:924-927 | the summing loop's result does not depend on the order of the cards |
| Valuation.HandValueOrderIndependent | BlackJack.java:920-935 | two hands with the same cards have the same value |
| Valuation.NaturalIsAceAndTen | BlackJack.java:920-941 | a two-card hand is worth 21 exactly when it is an ace and a face card |
| Valuation.ValueExamples | BlackJack.java:920-941 | A+A is 12, A+K is 21, A+A+A+8 is 21 |
| Valuation.ShownDealerTotal | BlackJack.java:865-867 | once revealed, the shown total is the dealer's hand value; before that, 0 for an empty hand, otherwise at most one card's value |
| Valuation.HiddenCardsNotShown | BlackJack.java:865-867 | while unrevealed, cards after the first never change the shown total |
| Rules.OutcomeOf | BlackJack.java:557-570 | push, win or loss exactly under the precedence both bust, player bust, dealer bust, higher total |
| Rules.OutcomeAntisymmetric | BlackJack.java:557-570 | swapping the totals swaps win and loss and keeps a push |
| Rules.NaturalPayout | BlackJack.java:952 | the payout is one and a half times the bet rounded half up: 3·bet ≤ 2·payout ≤ 3·bet + 1 |
| Rules.NaturalPayoutExamples | BlackJack.java:952 | 100 pays 150, 5 pays 8 |
| Rules.OpeningBet | BlackJack.java:452-455 | the opening bet lies in 0..balance; it is 0 only on an empty balance; a bet the balance covers is kept; a larger one is cut to the balance; none becomes min(100, balance) |
| Rules.ChipAdded | BlackJack.java:300-304 | a left click sets the bet to the smaller of bet plus chip and the balance |
| Rules.ChipRemoved | BlackJack.java:305-306 | a right click takes the chip off, never below zero |
| Rules.ChipRemoveUndoesAdd | BlackJack.java:300-307 | removing a chip undoes adding it when the balance covered it |
| Rules.ChipClickAsWritten | BlackJack.java:300-307 | the handler as written, with no round-state input: from a bet the balance covers, the bet stays within 0..balance and moves by at most the chip, up on a left click and down on a right one, by exactly the chip when unclamped |
| Rules.ClearedBetAsWritten | BlackJack.java:242-245 | Clear Bet as written, with no round-state input: the bet becomes 0, the same as taking the whole bet off as chips |
| Rules.MidRoundChipChangesStake | BlackJack.java:300-307 | with 100 taken from 1000, a mid-round 500 chip makes the live bet 600 and a win settles the balance to 2100 instead of 1100; a mid-round Clear Bet makes the same win settle to 900 |
| Rules.ChipClick | BlackJack.java:300-307 | the corrected handler leaves the bet alone during a round and otherwise acts as written |
| Rules.ClearedBet | BlackJack.java:242-245 | the corrected Clear Bet keeps the bet during a round and otherwise acts as written |
| Rules.AppendedKeepsBounds | BlackJack.java:623-626 | recording a result keeps the history at ten entries or fewer, each in -1..1 |
| Rules.AppendedLastTen | BlackJack.java:623-626 | appending a result to the last ten of a run gives the last ten of the longer run |
| Rules.RecordedKeepsLastTen | BlackJack.java:623-626 | after any run of results the history is exactly the last ten, or fewer, oldest first |
| Rules.SettleKeepsBooksOk | BlackJack.java:572-601 | settling with a non-negative stake keeps the books consistent and the balance non-negative |
| Rules.SettleNaturalKeepsBooksOk | BlackJack.java:951-963 | paying a natural keeps the books consistent |
| Rules.SettleCounts | BlackJack.java:580-601 | a settlement counts one game, under exactly the counter its outcome names; it records the outcome's score as the newest entry; a win extends the streak, sets the best streak to the larger of it and the old best, and the biggest win to the larger of the stake and the old biggest; anything else resets the streak |
| Rules.SettleNaturalIsWin | BlackJack.java:951-963 | a natural is booked as a win, except for the 3:2 balance credit and the payout as biggest win |
| Rules.SettlementNet | BlackJack.java:580-599 | counted from before the stake was taken, a push nets 0, a win the stake, a loss minus the stake, a natural the 3:2 payout |
| Rules.DealerDraws | BlackJack.java:534-545 | the dealer's hand grows only by the deck's last cards, in draw order, and the deck left is a prefix |
| Rules.DealerDrawsStopRule | BlackJack.java:534-545 | the dealer stops on 17 or more or an empty deck, and every card was drawn on a total under 17 |
| Rules.DealerStandsOnSeventeen | BlackJack.java:540-545 | on 17 or more, soft or hard, the dealer draws nothing |
| Session.Game.constructor | BlackJack.java:53-70 | a new table has balance 1000, bet 100, no cards, clear flags and zeroed statistics |
| Session.Game.ClickChip | BlackJack.java:300-307 | the bet becomes the corrected chip click's result; the invariant holds |
| Session.Game.ClearBet | BlackJack.java:242-245 | the bet becomes the corrected Clear Bet result |
| Session.Game.DealTo | BlackJack.java:675-679 | the deck's top card (Top, as a deck draw takes it) moves to the chosen hand and Rest remains; it is face down only as the unrevealed dealer's second card when the hole card is asked for; an empty deck changes nothing |
| Session.Game.AddResult | BlackJack.java:623-626 | the history becomes the old one with the result appended, dropping the oldest beyond ten |
| Session.Game.EndRound | BlackJack.java:572-601 | an open round is settled by the outcome and closed; a closed round is left unchanged |
| Session.Game.CheckNaturalBlackjack | BlackJack.java:943-969 | a player 21 reveals the dealer and closes the round, pushing against a dealer 21 and otherwise paying 3:2; any other total changes nothing |
| Session.Game.PayNatural | BlackJack.java:951-963 | pays the stake plus the 3:2 payout, counts a win and closes the round |
| Session.Game.TakeOpeningBet | BlackJack.java:452-455 | the bet is clamped to the opening bet and taken from the balance; nothing else changes |
| Session.Game.DealOpening | BlackJack.java:464-484 | player, dealer, player, dealer from the end of the deck, only the dealer's second card face down |
| Session.Game.ClearTable | BlackJack.java:440-444 | both hands are emptied and both round flags cleared |
| Session.Game.OpenWithShoe | BlackJack.java:452-484 | from a full deck: bet taken, cards dealt, natural settled, as the opening-state predicate describes |
| Session.Game.StartRound | BlackJack.java:437-486 | a new shuffled 48-card deck is dealt from; the state is the opening state over it; the invariant holds |
| Session.Game.PlayAgain | BlackJack.java:427-435 | a round opens exactly when the balance is positive or a refill is accepted, the refill setting 1000; otherwise nothing changes |
| Session.Game.Hit | BlackJack.java:489-498 | ignored once the round is over; otherwise one card to the player, and a bust reveals the dealer and settles a loss |
| Session.Game.DealerDraw | BlackJack.java:536-541 | the dealer's timed draws leave exactly the hand and deck of the drawing rule |
| Session.Game.DecideOutcome | BlackJack.java:557-570 | an open round is settled with the outcome of the two totals |
| Session.Game.DealerTurn | BlackJack.java:534-548 | ignored once over; otherwise the dealer draws by the rule and on 17 or more the round is settled by the totals; an exhausted deck leaves it open |
| Session.Game.Stand | BlackJack.java:500-505 | ignored once over; otherwise the dealer is revealed and plays out |
| Session.Game.DoubleStake | BlackJack.java:514-515 | the old bet is taken again from the balance and the bet doubles |
| Session.Game.DoubledCard | BlackJack.java:522-531 | one card to the player and the dealer revealed; a bust settles a loss on the doubled stake, otherwise the dealer plays |
| Session.Game.Double | BlackJack.java:507-532 | ignored once over or when the balance cannot cover the bet; otherwise the doubled stake is taken, exactly one card goes to the player, then a bust loses or the dealer plays |

## Left out

- The JavaFX user interface is left out: labels, buttons, layout geometry, card nodes, glow, the deck and graph drawing, and the start screen. They have no effect on the game state.
- blackjack/HUDComponents.java is not part of this model; it only styles panels and labels.
- Timers, transitions and `Platform.runLater` chains are not modelled. Each command runs to completion as a sequence of steps, and revealing the dealer sets the flag at once.
- The window in which the natural check and the button enabling run asynchronously is not modelled.
- `java.util.Random` and `Collections.shuffle`'s random source are not modelled. The random indices are the `picks` parameter. The random tilt of the card pictures is not modelled either.
- The `confirm` dialog of Play Again is the boolean `refill`. The "not enough balance" `alert` is the status `NotEnoughBalance`.
- Session.Game.DealTo: an empty deck makes `deck.draw()` throw in the source. The model returns `Exhausted` and leaves the state unchanged; Hit, Double and the dealer's turn then report `DeckExhausted`. A 48-card deck per round is never exhausted in practice.
- The cached `playerTotal` and `dealerTotal` fields are not kept. They are recomputed before every use, so the model states them as functions of the hands.
- 32-bit `int` overflow of the balance and counters is not modelled; integers are unbounded.
- `Math.round(1.5 * bet)` is computed in floating point in the source. The model uses the exact integer `(3 * bet + 1) / 2`, which agrees for every non-negative bet.
- The helper methods ClearTable, TakeOpeningBet, DealOpening, OpenWithShoe, PayNatural, DealerDraw, DoubleStake and DoubledCard split larger handlers into steps. They do not exist in the source; their composition is the source's handler.
- Deck.Size is a plain function on the deck. Draw's contract states its change.

## Findings

| source | as written | input that shows it | evidently intended | confidence | as-written member | corrected member |
|---|---|---|---|---|---|---|
| BlackJack.java:300-307 | the chip handlers change `bet` whatever the round state, although the stake was already taken from the balance when the round opened; Clear Bet (242-245) likewise | balance 900 after a 100 stake; a left click on the 500 chip makes the bet 600, and a win then credits 1200 (balance 2100 instead of 1100); Clear Bet instead makes the win credit 0 | a click during a round leaves the live stake unchanged | likely; not executed | Rules.ChipClickAsWritten, Rules.ClearedBetAsWritten, Rules.MidRoundChipChangesStake | Rules.ChipClick, Rules.ClearedBet |
