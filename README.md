# Single-deck blackjack, modelled in Dafny

This project models the core of a small Rust blackjack game. A round deals from
one shuffled 52-card deck. The player draws until they stand, bust or reach 21.
The dealer then draws by a fixed rule, and the engine announces a tie, a player
win or a player loss to the user interface.

Two generations of the turn engine exist side by side, and both are modelled:

- the current one, `src/backend/blackjack.rs`, whose score carries a soft flag;
- the older one, `src/blackjack.rs`, whose score is a bare total and whose dealer
  stands on 17 when the hand holds an Ace.

The modules follow the program's structure:

- `Cards` (`src/card.rs`): ranks, suits, cards and their display string, with a
  parser that inverts the display.
- `Decks` (`src/backend/deck.rs`, `src/deck.rs`): the suit-major construction, the
  shuffle as an arbitrary permutation, and `draw` as `Vec::pop`.
- `Scoring`: the scoring rule of `src/hand.rs` stated as functions, with its
  meaning proved. The score is the best total not over 21, counting each Ace as 1
  or 11.
- `Hands` (`src/hand.rs`): the hand as a class. `draw_from` and `score` are
  imperative methods proved against `Scoring`. `Display` is a fold, proved equal
  to a join.
- `Interface`: the `Action`/`Event` enums. The presentation port is a scripted
  user: a list of answers and a log of the events sent to it.
- `Engine` (`src/backend/blackjack.rs`):
  - the round is specified on values (`PlayerPhase`, `DealerPhase`, `Winner`,
    `Round`);
  - each turn is characterised both ways (`PlayerPhaseShape`/`PlayerTurnPlays`);
  - the `Blackjack` class over the deck, both hands and the port is proved to
    follow those functions.
- `Legacy` (`src/blackjack.rs`): the older engine in the same style, related to
  the current one.
- `Scenarios`: the five rounds of `tests/unit/blackjack.rs`, each proved to give
  the events the test checks.

A panic in the source (`expect`/`unwrap` on an empty deck, an exhausted scripted
answer list, `unreachable!()`) is a `Panic` outcome carrying `DeckExhausted`,
`NoAction` or `Unreachable`.

## Model

| member | source | states |
|---|---|---|
| Cards.AccessorsOfNew | src/card.rs:40-52 | `get_rank` and `get_suit` return the rank and suit given to `Card::new` |
| Cards.CardEquality | src/card.rs:32-36 | two cards are equal exactly when their suits and ranks are equal |
| Cards.ParseToString | src/card.rs:55-58 | the display string `"<Rank> of <Suit>s"` of every card parses back to that card |
| Cards.ToStringInjective | src/card.rs:55-58 | different cards have different display strings |
| Cards.ToStringNonEmpty | src/card.rs:55-58 | every display string is longer than five characters, so never empty |
| Decks.RowContents | src/backend/deck.rs:32-34 | one suit's pass of the inner `for_each` pushes exactly one card of that suit per listed rank, without duplicates |
| Decks.GridLength | src/backend/deck.rs:32-34 | the nested `for_each` pushes \|SUITS\| * \|RANKS\| cards |
| Decks.GridMembers | src/backend/deck.rs:32-34 | a card is pushed exactly when its suit and its rank are both listed |
| Decks.GridDistinct | src/backend/deck.rs:32-34 | listing each suit and rank once pushes each card once |
| Decks.RanksComplete | src/backend/deck.rs:6-20 | `RANKS` lists all 13 ranks, each once |
| Decks.SuitsComplete | src/backend/deck.rs:22 | `SUITS` lists all 4 suits, each once |
| Decks.FreshOrderIsComplete | src/deck.rs:13-32 | before the shuffle the deck holds 52 cards, every card exactly once |
| Decks.ShuffledIsComplete | src/backend/deck.rs:35 | any permutation of the fresh order holds 52 cards, every card exactly once |
| Decks.PushAll | src/backend/deck.rs:31-34 | the nested `for_each` pushes the cards in suit-major order, one per (suit, rank): exactly the unshuffled order whose contents the lemmas above describe |
| Decks.Deck.constructor | src/backend/deck.rs:30-37 | `Deck::new` builds the suit-major order with the nested loops; afterwards the deck is a permutation of it, holding 52 distinct cards that cover every card |
| Decks.Deck.Draw | src/backend/deck.rs:40-43 | `draw` pops the last card and keeps the rest as an unchanged prefix; an empty deck gives `None` and stays empty |
| Decks.DrawAll | src/deck.rs:38-41 | drawing until `None` empties the deck and yields its cards last first; a fresh deck yields 52 distinct cards (tests/integration/deck.rs) |
| Scoring.Demote | src/hand.rs:78-81 | the `while` loop turns Aces from 11 into 1 one at a time, only while the total is over 21; it stops as soon as the total fits or no Ace is left |
| Scoring.ScoreOf | src/hand.rs:52-89 | a `Points` score is below 21, and a soft one comes from a hand with an Ace |
| Scoring.FaceSumSplit | src/hand.rs:55-76 | the first-pass total is the total with Aces at 1 plus 10 per Ace |
| Scoring.ScoreIsBestTotal | src/hand.rs:52-89 | the score is `Bust` iff every Ace-as-1-or-11 total is over 21, and `Blackjack` iff 21 is one of them; otherwise it is the largest total not over 21, soft iff it exceeds the all-Aces-at-1 total |
| Scoring.BustIffHardOver21 | src/hand.rs:52-89 | a hand busts exactly when its total with every Ace at 1 is over 21 |
| Scoring.NoAcesIsHard | src/hand.rs:52-89 | without Aces the score is the plain face total, compared with 21 |
| Scoring.ScoreDependsOnRanks | src/hand.rs:52-89 | hands with the same ranks in any order and of any suits score alike |
| Scoring.ScoreIgnoresSuits | src/hand.rs:52-89 | suits never change a score |
| Scoring.ScoreIgnoresOrder | src/hand.rs:52-89 | draw order never changes a score |
| Scoring.ScoreExamples | tests/unit/hand.rs:86-97 | the tests' one- and two-card cases: Three is 3, Ace Queen is 21 |
| Scoring.ThreeCardExamples | tests/unit/hand.rs:73-120 | the tests' three-card cases: Four Five Jack is 19, King Six Five is 21, King Six Seven busts |
| Scoring.AceExamples | src/hand.rs:77-87 | cases of this model's own, not of the tests: Ace Seven is a soft 18, two Aces a soft 12, Ace Seven Nine a hard 17 (the Ace demoted to 1), the empty hand a hard 0 |
| Hands.Hand.constructor | src/hand.rs:16-18 | a new hand is empty |
| Hands.Hand.DrawFrom | src/hand.rs:37-45 | `draw_from` moves the deck's last card onto the end of the hand; from an empty deck it fails and changes nothing |
| Hands.Hand.Score | src/hand.rs:52-89 | the two loops and the final match compute `ScoreOf` of the hand |
| Hands.RenderIsJoin | src/hand.rs:91-101 | the `fold` of `Display` writes the cards' strings in draw order separated by ", ", and an empty hand as "" |
| Hands.JoinSnoc | src/hand.rs:91-101 | drawing a card appends ", " and that card's string to a non-empty hand's rendering |
| Hands.DrawWholeDeck | tests/integration/hand.rs:20-33 | a fresh deck fills a hand with 52 successful draws, every card exactly once, and the 53rd draw fails |
| Interface.Ui.GetAction | tests/unit/blackjack.rs:165-168 | the scripted user answers the next action in order; with none left there is no answer |
| Interface.Ui.Send | tests/unit/blackjack.rs:170-188 | every event sent is recorded at the end of the log |
| Engine.PlayerLogSnapshots | src/backend/blackjack.rs:58 | the player's log holds one `PlayerHand` per draw, each showing the hand right after that draw |
| Engine.DealerLogSnapshots | src/backend/blackjack.rs:79-86 | the dealer's log holds one `DealerHand` per draw, each showing the hand as it was, alternating with `DealerHit` |
| Engine.DealerLogHits | src/backend/blackjack.rs:84-86 | the dealer announces one hit fewer than it draws cards |
| Engine.PlayerPhaseShape | src/backend/blackjack.rs:54-67 | a player turn that finishes took cards from the top of the deck in order. Every hand before the last scored points, the last scores the result, the log gains each hand then the verdict, and the answers used were hits then a stay if the result is points |
| Engine.PlayerTurnPlays | src/backend/blackjack.rs:54-67 | conversely every such play is what `player_turn` does, so the characterisation is exact |
| Engine.DealerPhaseShape | src/backend/blackjack.rs:74-92 | a dealer turn that finishes took cards from the top of the deck. `is_dealer_hitting` held on every hand but the last and fails on the last, and the log gains each hand with a hit in between, then the verdict |
| Engine.DealerTurnPlays | src/backend/blackjack.rs:74-92 | conversely every such play is what `dealer_turn` does |
| Engine.DealerTurnCounts | src/backend/blackjack.rs:81-90 | a dealer turn sends `DealerHit` once per draw but the last and exactly one of `DealerBust`, `DealerBlackjack`, `DealerStay` |
| Engine.DealtConserves | src/backend/blackjack.rs:55-57 | drawing only moves cards from deck to hand: the multiset of all cards is unchanged |
| Engine.PlayerPhaseBounded | src/backend/blackjack.rs:54-67 | a player below a hard 21 with enough cards left never exhausts the deck, and draws at most 21 minus the hard total |
| Engine.DealerPhaseBounded | src/backend/blackjack.rs:74-92 | a dealer below a hard 18 with enough cards left always finishes |
| Engine.PlayerPhaseFailures | src/backend/blackjack.rs:55-63 | a player turn fails only for want of a card or of an answer |
| Engine.DealerPhaseFailures | src/backend/blackjack.rs:76-78 | a dealer turn fails only for want of a card |
| Engine.RoundNeverExhausts | src/backend/blackjack.rs:47-51 | from empty hands, 39 cards always suffice for a round |
| Engine.RoundShape | src/backend/blackjack.rs:47-51 | a round that completes keeps every card, only appends to the log, ends it with the one result for the final hands' scores, and adds exactly one result event |
| Engine.PlayerHitStep | src/backend/blackjack.rs:63 | unfolding helper: after a points hand, a hit continues the turn with the next answer |
| Engine.PlayerStayStep | src/backend/blackjack.rs:63-66 | unfolding helper: after a points hand, a stay ends the turn with that score |
| Engine.PlayerStopStep | src/backend/blackjack.rs:60-62 | unfolding helper: a bust or 21 ends the turn with its event and asks nothing |
| Engine.DealerHitStep | src/backend/blackjack.rs:84-87 | unfolding helper: a hitting score announces a hit and continues the turn |
| Engine.DealerStopStep | src/backend/blackjack.rs:81-90 | unfolding helper: any other score sends its verdict and ends the turn |
| Engine.WinnerPanicsExactly | src/backend/blackjack.rs:95-105 | `determine_winner` reaches `unreachable!()` exactly on equal totals of different softness |
| Engine.WinnerRanks | src/backend/blackjack.rs:95-105 | where it decides, the result follows the order bust, then each total, then 21 |
| Engine.WinnerSymmetric | src/backend/blackjack.rs:95-105 | swapping the two scores swaps win and loss |
| Scenarios.SoftTiePanics | src/backend/blackjack.rs:95-105 | a reachable round panics there: any Ace, Seven standing after Hit, Stay against any Ten, Eight, whatever lies below and follows; the intended round ties there with the same table |
| Engine.RoundFromTurns | src/backend/blackjack.rs:47-51 | unfolding helper: `start` is the player turn, then the dealer turn, then the decision |
| Engine.IntendedWinnerRanks | src/backend/blackjack.rs:95-105 | the corrected decision is the ranking of the two results, tie on equal totals |
| Engine.IntendedWinnerAgrees | src/backend/blackjack.rs:95-105 | the corrected decision agrees with the source wherever the source decides, and ties where it panics |
| Engine.IntendedRoundAgrees | src/backend/blackjack.rs:47-51 | the corrected round never reaches the unmatched case and otherwise equals the source's round |
| Engine.Blackjack.constructor | src/backend/blackjack.rs:31-44 | the game borrows the port, the deck and two distinct hands |
| Engine.Blackjack.Start | src/backend/blackjack.rs:47-51 | `start` leaves exactly the state `Round` specifies, or fails as it does |
| Engine.Blackjack.PlayerTurn | src/backend/blackjack.rs:54-67 | the recursive `player_turn` returns and leaves what `PlayerPhase` specifies |
| Engine.Blackjack.DealerTurn | src/backend/blackjack.rs:74-92 | the `loop` of `dealer_turn` returns and leaves what `DealerPhase` specifies |
| Engine.Blackjack.DetermineWinner | src/backend/blackjack.rs:95-105 | `determine_winner` sends the one result `Winner` gives, or panics where no arm matches |
| Legacy.PlayerAgrees | src/blackjack.rs:39-58 | the older player turn draws, shows, asks and fails exactly as the current one, its score the current one's without the soft flag |
| Legacy.HasAces | src/blackjack.rs:60-62 | `has_aces` is true iff some card of the hand is an Ace |
| Legacy.HasAcesCountsAces | src/blackjack.rs:60-62 | `has_aces` agrees with the Ace count of the scoring rule |
| Legacy.DealerFromEnds | src/blackjack.rs:65-89 | an older dealer turn leaves the answers alone, only appends to the log, fails only for want of a card, and stands only on 17 to 20 with `DealerStay` last |
| Legacy.DealerFromShape | src/blackjack.rs:65-89 | a finished older dealer turn takes its cards off the top of the deck in order, hits on every hand before the last (points on which `v == 17 && has_aces \|\| v > 17` fails), returns the final hand's score, standing by that rule when it is points, sends one `DealerHit` per extra draw and exactly one of `DealerBust`, `DealerBlackjack`, `DealerStay` |
| Legacy.DealerRulesCompare | src/blackjack.rs:80-85 | the older rule agrees with `is_dealer_hitting` away from 17. On a soft 17 the older dealer stands where the current one hits; on a 17 without an Ace it hits where the current one stands |
| Legacy.DealerRuleExamples | src/blackjack.rs:81 | Ace, Six: the older dealer stands, the current one hits; Ten, Seven: the reverse |
| Legacy.DealerAgrees | src/blackjack.rs:65-89 | wherever the two rules agree on every hand the deck can deal, the older dealer turn is the current one without the soft flag |
| Legacy.Winner | src/blackjack.rs:92-103 | with one-field points some arm always matches, so `unreachable!()` is never reached, and the event is a result |
| Legacy.WinnerIsIntended | src/blackjack.rs:92-103 | the older decision on the projected scores is the current engine's corrected decision |
| Legacy.WinnerRanks | src/blackjack.rs:92-103 | the older decision follows the same order: bust, then each total, then 21 |
| Legacy.Blackjack.constructor | src/blackjack.rs:30-36 | the game borrows the port and the deck |
| Legacy.Blackjack.PlayerTurn | src/blackjack.rs:39-58 | the `loop` over a fresh hand returns and leaves what `PlayerPhase` specifies |
| Legacy.Blackjack.DealerTurn | src/blackjack.rs:65-89 | the `loop` over a fresh hand returns and leaves what `DealerPhase` specifies |
| Legacy.Blackjack.DetermineWinner | src/blackjack.rs:92-103 | `determine_winner` sends exactly the one result `Winner` gives |
| Scenarios.SixFiveNineAgainstTwoSixJack | tests/unit/blackjack.rs:207-245 | six, five, nine with hit, hit, stay against two, six, jack: the hands shown, two dealer hits, `DealerStay`, `PlayerWin` |
| Scenarios.KingSevenTenAgainstAceJack | tests/unit/blackjack.rs:247-280 | king, seven, ten busts and ace, jack reaches 21 after one hit: `PlayerLoose` |
| Scenarios.KingSevenFourAgainstSixEightJack | tests/unit/blackjack.rs:282-320 | king, seven, four reaches 21, six, eight, jack busts after two hits: `PlayerWin` |
| Scenarios.AceKingAgainstAceKing | tests/unit/blackjack.rs:322-350 | both reach 21 on the second card: `Tie`, one scripted hit left unused |
| Scenarios.AceNineKingFourAgainstAceSixNineFour | tests/unit/blackjack.rs:352-394 | the player's Ace drops to 1 and the Four busts; the dealer hits a soft 17 and stands on a hard 20 after three hits: `PlayerLoose` |
| Scenarios.SixFiveNinePlayer | tests/unit/blackjack.rs:207-245 | the player turn of the first test, for any cards of those ranks and any deck below them |
| Scenarios.TwoSixJackDealer | tests/unit/blackjack.rs:207-245 | the dealer turn of the first test |

## Left out

- `src/cui.rs` and `src/main.rs`: console input and output and the wiring of a game. The port is a scripted list of answers plus an event log instead.
- The shuffle (`rand::thread_rng` and `SliceRandom::shuffle`): foreign randomness. It is modelled as an arbitrary permutation of the pushed cards, chosen with `:|`.
- `u8` totals in `score`: totals are `nat`, so the overflow panic of a hand whose face sum exceeds 255 is not modelled. No such hand arises in a round; it takes more than 21 cards.
- Trait and type-only files (`src/interface.rs`, `src/draw.rs`, `src/score.rs`, `src/behaviour/*.rs`, `src/card_iter.rs`, `src/card_like.rs`, `src/lib.rs`, `src/backend/mod.rs`): only their enums are transcribed. Generics, lifetimes, `PhantomData` and `automock` have no counterpart.
- The test doubles (`tests/mock/*`, `tests/fake/hand.rs`, the mock interface in `tests/unit/blackjack.rs`) serve as evidence only. The scripted `Ui` answers as the mock does, and running out of answers is the `NoAction` panic; the console never runs out.
- `src/backend/card.rs` is not part of this model. The backend deck imports `crate::backend::card` (src/backend/deck.rs:1), which src/backend/mod.rs:5 declares as that file of its own. `Cards` follows `src/card.rs` instead, on the assumption that the backend card module defines the same `Card::new(suit, rank)`, `Rank` and `Suit`. The tests support this: `mock_card` takes the `Rank` and `Suit` of `crate::card` (tests/mock/card.rs:1-4), and the mock deck passes it the backend's `Rank` and `Suit` (tests/mock/deck.rs:2-8).
- `src/deck.rs` is the same construction and the same `pop` as `src/backend/deck.rs`, written with `for_each` over local arrays. One `Deck` class models both.
- `Card` is not `Copy` in the source, so a card lives in exactly one place. Dafny values are copied freely; instead, every move is proved to keep the multiset of all cards (`Engine.DealtConserves`, `Engine.RoundShape`).
- The mismatched `Points` arities of the two engines: the older engine scores with the same rule, and its one-field `Value` of `src/score.rs` is the score without the soft flag.
- `Hand::iter` is the `cards` field, read directly.
- Legacy.DealerAgrees: relates the two dealers only where their rules agree along the way. Where they differ, `Legacy.DealerRulesCompare` says how.

## Findings

| source | as written | input that shows it | evidently intended | confidence | as-written member | corrected member |
|---|---|---|---|---|---|---|
| src/backend/blackjack.rs:95-105 | the tie arm uses the derived equality of `Value`, which also compares the soft flag, so equal totals of different softness match no arm and reach `unreachable!()` | the player stands on Ace♠, Seven♥ (soft 18) after Hit, Stay; the dealer draws Ten♣, Eight♦ and stands on a hard 18 | equal totals tie whatever their softness, as they do in the older engine | not executed | Engine.Winner, Scenarios.SoftTiePanics | Engine.IntendedWinner, Engine.IntendedRoundAgrees |
