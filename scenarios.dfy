/** The rounds of the engine's unit tests (tests/unit/blackjack.rs), each played out
    against the round specification. The tests' mock deck hands out its list front
    first, so here the deck is that list reversed: its last card is drawn first. Scoring
    reads only ranks, so each round is stated for any cards of the test's ranks, and
    for whatever lies below them in the deck. */
module Scenarios {
  import opened Wrappers
  import opened Seqs
  import opened Cards
  import opened Scoring
  import opened Interface
  import opened Engine

  /** Two cards dealt from the top of a deck, first card on top. */
  lemma Reversed2(a: Card, b: Card)
    ensures Reversed([a, b]) == [b, a]
  {
    ReversedCons(a, [b]);
    assert [a, b] == [a] + [b];
  }

  /** Three cards dealt from the top of a deck, first card on top. */
  lemma Reversed3(a: Card, b: Card, c: Card)
    ensures Reversed([a, b, c]) == [c, b, a]
  {
    Reversed2(b, c);
    ReversedCons(a, [b, c]);
    assert [a, b, c] == [a] + [b, c];
  }

  /** Four cards dealt from the top of a deck, first card on top. */
  lemma Reversed4(a: Card, b: Card, c: Card, d: Card)
    ensures Reversed([a, b, c, d]) == [d, c, b, a]
  {
    Reversed3(b, c, d);
    ReversedCons(a, [b, c, d]);
    assert [a, b, c, d] == [a] + [b, c, d];
  }

  /** The player's log of two draws into an empty hand. */
  lemma PlayerLog2(a: Card, b: Card)
    ensures PlayerLog([], [a, b]) == [PlayerHand([a]), PlayerHand([a, b])]
  {
    assert [a, b][1..] == [b] && [b][1..] == [];
    assert [] + [a] == [a] && [a] + [b] == [a, b];
    assert PlayerLog([a], [b]) == [PlayerHand([a, b])];
  }

  /** The player's log of three draws into an empty hand. */
  lemma PlayerLog3(a: Card, b: Card, c: Card)
    ensures PlayerLog([], [a, b, c]) == [PlayerHand([a]), PlayerHand([a, b]), PlayerHand([a, b, c])]
  {
    assert [a, b, c][1..] == [b, c] && [b, c][1..] == [c] && [c][1..] == [];
    assert [] + [a] == [a] && [a] + [b] == [a, b] && [a, b] + [c] == [a, b, c];
    assert PlayerLog([a, b], [c]) == [PlayerHand([a, b, c])];
    assert PlayerLog([a], [b, c]) == [PlayerHand([a, b])] + PlayerLog([a, b], [c]);
  }

  /** The player's log of four draws into an empty hand. */
  lemma PlayerLog4(a: Card, b: Card, c: Card, d: Card)
    ensures PlayerLog([], [a, b, c, d])
         == [PlayerHand([a]), PlayerHand([a, b]), PlayerHand([a, b, c]), PlayerHand([a, b, c, d])]
  {
    assert [a, b, c, d][1..] == [b, c, d] && [b, c, d][1..] == [c, d] && [c, d][1..] == [d] && [d][1..] == [];
    assert [] + [a] == [a] && [a] + [b] == [a, b] && [a, b] + [c] == [a, b, c] && [a, b, c] + [d] == [a, b, c, d];
    assert PlayerLog([a, b, c], [d]) == [PlayerHand([a, b, c, d])];
    assert PlayerLog([a, b], [c, d]) == [PlayerHand([a, b, c])] + PlayerLog([a, b, c], [d]);
    assert PlayerLog([a], [b, c, d]) == [PlayerHand([a, b])] + PlayerLog([a, b], [c, d]);
  }

  /** The dealer's log of two draws into an empty hand. */
  lemma DealerLog2(a: Card, b: Card)
    ensures DealerLog([], [a, b]) == [DealerHand([a]), DealerHit, DealerHand([a, b])]
  {
    assert [a, b][1..] == [b];
    assert [] + [a] == [a] && [a] + [b] == [a, b];
    assert DealerLog([a], [b]) == [DealerHand([a, b])];
  }

  /** The dealer's log of three draws into an empty hand. */
  lemma DealerLog3(a: Card, b: Card, c: Card)
    ensures DealerLog([], [a, b, c])
         == [DealerHand([a]), DealerHit, DealerHand([a, b]), DealerHit, DealerHand([a, b, c])]
  {
    assert [a, b, c][1..] == [b, c] && [b, c][1..] == [c];
    assert [] + [a] == [a] && [a] + [b] == [a, b] && [a, b] + [c] == [a, b, c];
    assert DealerLog([a, b], [c]) == [DealerHand([a, b, c])];
    assert DealerLog([a], [b, c]) == [DealerHand([a, b]), DealerHit] + DealerLog([a, b], [c]);
  }

  /** The dealer's log of four draws into an empty hand. */
  lemma DealerLog4(a: Card, b: Card, c: Card, d: Card)
    ensures DealerLog([], [a, b, c, d])
         == [DealerHand([a]), DealerHit, DealerHand([a, b]), DealerHit, DealerHand([a, b, c]),
             DealerHit, DealerHand([a, b, c, d])]
  {
    assert [a, b, c, d][1..] == [b, c, d] && [b, c, d][1..] == [c, d] && [c, d][1..] == [d];
    assert [] + [a] == [a] && [a] + [b] == [a, b] && [a, b] + [c] == [a, b, c] && [a, b, c] + [d] == [a, b, c, d];
    assert DealerLog([a, b, c], [d]) == [DealerHand([a, b, c, d])];
    assert DealerLog([a, b], [c, d]) == [DealerHand([a, b, c]), DealerHit] + DealerLog([a, b, c], [d]);
    assert DealerLog([a], [b, c, d]) == [DealerHand([a, b]), DealerHit] + DealerLog([a, b], [c, d]);
  }

  /** The scores of the player's hand after each draw. */
  lemma SixFiveNineScores(p1: Card, p2: Card, p3: Card)
    requires p1.rank == Six && p2.rank == Five && p3.rank == Nine
    ensures ScoreOf([p1]) == Points(6, false)
    ensures ScoreOf([p1, p2]) == Points(11, false)
    ensures ScoreOf([p1, p2, p3]) == Points(20, false)
  {
    ScoreSnoc([], p1); ScoreSnoc([p1], p2); ScoreSnoc([p1, p2], p3);
    assert [] + [p1] == [p1] && [p1] + [p2] == [p1, p2] && [p1, p2] + [p3] == [p1, p2, p3];
  }

  /** `player_six_five_nine_stay_dealer_two_six_jack`, the player's turn: hits, then stays. */
  lemma SixFiveNinePlayer(below: seq<Card>, p1: Card, p2: Card, p3: Card)
    requires p1.rank == Six && p2.rank == Five && p3.rank == Nine
    ensures PlayerPhase(Table(below + [p3, p2, p1], [], [], [PlayerHit, PlayerHit, PlayerStay], []))
      == Done((Points(20, false), Table(below, [p1, p2, p3], [], [],
               [PlayerHand([p1]), PlayerHand([p1, p2]), PlayerHand([p1, p2, p3])])))
  {
    var t := Table(below + [p3, p2, p1], [], [], [PlayerHit, PlayerHit, PlayerStay], []);
    var hand := [p1, p2, p3];
    var u := Table(below, hand, [], [], [PlayerHand([p1]), PlayerHand([p1, p2]), PlayerHand([p1, p2, p3])]);
    SixFiveNineScores(p1, p2, p3);
    Reversed3(p1, p2, p3);
    assert hand[0..] == hand && hand[..1] == [p1] && hand[..2] == [p1, p2];
    assert PlayerDealt(t, Points(20, false), u);
    PlayerLog3(p1, p2, p3);
    assert Hits(2) == [PlayerHit, PlayerHit];
    assert PlayerTold(t, Points(20, false), u);
    PlayerTurnPlays(t, Points(20, false), u);
  }

  /** The scores of the dealer's hand after each draw. */
  lemma TwoSixJackScores(d1: Card, d2: Card, d3: Card)
    requires d1.rank == Two && d2.rank == Six && d3.rank == Jack
    ensures ScoreOf([d1]) == Points(2, false)
    ensures ScoreOf([d1, d2]) == Points(8, false)
    ensures ScoreOf([d1, d2, d3]) == Points(18, false)
  {
    ScoreSnoc([], d1); ScoreSnoc([d1], d2); ScoreSnoc([d1, d2], d3);
    assert [] + [d1] == [d1] && [d1] + [d2] == [d1, d2] && [d1, d2] + [d3] == [d1, d2, d3];
  }

  /** `player_six_five_nine_stay_dealer_two_six_jack`, the dealer's turn. */
  lemma TwoSixJackDealer(below: seq<Card>, player: seq<Card>, pending: seq<Action>, log: seq<Event>, d1: Card, d2: Card, d3: Card)
    requires d1.rank == Two && d2.rank == Six && d3.rank == Jack
    ensures DealerPhase(Table(below + [d3, d2, d1], player, [], pending, log))
      == Done((Points(18, false), Table(below, player, [d1, d2, d3], pending,
               log + [DealerHand([d1]), DealerHit, DealerHand([d1, d2]), DealerHit, DealerHand([d1, d2, d3]), DealerStay])))
  {
    var t := Table(below + [d3, d2, d1], player, [], pending, log);
    var hand := [d1, d2, d3];
    var u := Table(below, player, hand, pending, log + [DealerHand([d1]), DealerHit, DealerHand([d1, d2]), DealerHit, DealerHand([d1, d2, d3]), DealerStay]);
    TwoSixJackScores(d1, d2, d3);
    Reversed3(d1, d2, d3);
    assert hand[0..] == hand && hand[..1] == [d1] && hand[..2] == [d1, d2];
    assert DealerDealt(t, Points(18, false), u);
    DealerLog3(d1, d2, d3);
    assert DealerTold(t, Points(18, false), u);
    DealerTurnPlays(t, Points(18, false), u);
  }

  /** `player_six_five_nine_stay_dealer_two_six_jack`: the player stands on 20 after two hits, the dealer hits twice and stands on 18, and the player wins. */
  lemma SixFiveNineAgainstTwoSixJack(below: seq<Card>, p1: Card, p2: Card, p3: Card, d1: Card, d2: Card, d3: Card)
    requires p1.rank == Six && p2.rank == Five && p3.rank == Nine
    requires d1.rank == Two && d2.rank == Six && d3.rank == Jack
    ensures Round(Table(below + [d3, d2, d1, p3, p2, p1], [], [], [PlayerHit, PlayerHit, PlayerStay], []))
      == Done(Table(below, [p1, p2, p3], [d1, d2, d3], [],
                    [PlayerHand([p1]), PlayerHand([p1, p2]), PlayerHand([p1, p2, p3])]
                    + [DealerHand([d1]), DealerHit, DealerHand([d1, d2]), DealerHit, DealerHand([d1, d2, d3]), DealerStay]
                    + [PlayerWin]))
  {
    assert Winner(Points(20, false), Points(18, false)) == Some(PlayerWin);
    var t := Table(below + [d3, d2, d1, p3, p2, p1], [], [], [PlayerHit, PlayerHit, PlayerStay], []);
    var playerLog := [PlayerHand([p1]), PlayerHand([p1, p2]), PlayerHand([p1, p2, p3])];
    var a := Table(below + [d3, d2, d1], [p1, p2, p3], [], [], playerLog);
    var b := Table(below, [p1, p2, p3], [d1, d2, d3], [], playerLog + [DealerHand([d1]), DealerHit, DealerHand([d1, d2]), DealerHit, DealerHand([d1, d2, d3]), DealerStay]);
    assert PlayerPhase(t) == Done((Points(20, false), a)) by {
      assert below + [d3, d2, d1, p3, p2, p1] == (below + [d3, d2, d1]) + [p3, p2, p1];
      SixFiveNinePlayer(below + [d3, d2, d1], p1, p2, p3);
    }
    assert DealerPhase(a) == Done((Points(18, false), b)) by {
      TwoSixJackDealer(below, [p1, p2, p3], [], playerLog, d1, d2, d3);
    }
    RoundFromTurns(t, Points(20, false), a, Points(18, false), b);
  }

  /** The scores of the player's hand after each draw. */
  lemma KingSevenTenScores(p1: Card, p2: Card, p3: Card)
    requires p1.rank == King && p2.rank == Seven && p3.rank == Ten
    ensures ScoreOf([p1]) == Points(10, false)
    ensures ScoreOf([p1, p2]) == Points(17, false)
    ensures ScoreOf([p1, p2, p3]) == Bust
  {
    ScoreSnoc([], p1); ScoreSnoc([p1], p2); ScoreSnoc([p1, p2], p3);
    assert [] + [p1] == [p1] && [p1] + [p2] == [p1, p2] && [p1, p2] + [p3] == [p1, p2, p3];
  }

  /** `player_king_seven_ten_bust_dealer_ace_jack`, the player's turn: hits until the last draw ends the turn. */
  lemma KingSevenTenPlayer(below: seq<Card>, p1: Card, p2: Card, p3: Card)
    requires p1.rank == King && p2.rank == Seven && p3.rank == Ten
    ensures PlayerPhase(Table(below + [p3, p2, p1], [], [], [PlayerHit, PlayerHit], []))
      == Done((Bust, Table(below, [p1, p2, p3], [], [],
               [PlayerHand([p1]), PlayerHand([p1, p2]), PlayerHand([p1, p2, p3]), PlayerBust])))
  {
    var t := Table(below + [p3, p2, p1], [], [], [PlayerHit, PlayerHit], []);
    var hand := [p1, p2, p3];
    var u := Table(below, hand, [], [], [PlayerHand([p1]), PlayerHand([p1, p2]), PlayerHand([p1, p2, p3]), PlayerBust]);
    KingSevenTenScores(p1, p2, p3);
    Reversed3(p1, p2, p3);
    assert hand[0..] == hand && hand[..1] == [p1] && hand[..2] == [p1, p2];
    assert PlayerDealt(t, Bust, u);
    PlayerLog3(p1, p2, p3);
    assert Hits(2) == [PlayerHit, PlayerHit];
    assert PlayerTold(t, Bust, u);
    PlayerTurnPlays(t, Bust, u);
  }

  /** The scores of the dealer's hand after each draw. */
  lemma AceJackScores(d1: Card, d2: Card)
    requires d1.rank == Ace && d2.rank == Jack
    ensures ScoreOf([d1]) == Points(11, true)
    ensures ScoreOf([d1, d2]) == Blackjack
  {
    ScoreSnoc([], d1); ScoreSnoc([d1], d2);
    assert [] + [d1] == [d1] && [d1] + [d2] == [d1, d2];
  }

  /** `player_king_seven_ten_bust_dealer_ace_jack`, the dealer's turn. */
  lemma AceJackDealer(below: seq<Card>, player: seq<Card>, pending: seq<Action>, log: seq<Event>, d1: Card, d2: Card)
    requires d1.rank == Ace && d2.rank == Jack
    ensures DealerPhase(Table(below + [d2, d1], player, [], pending, log))
      == Done((Blackjack, Table(below, player, [d1, d2], pending,
               log + [DealerHand([d1]), DealerHit, DealerHand([d1, d2]), DealerBlackjack])))
  {
    var t := Table(below + [d2, d1], player, [], pending, log);
    var hand := [d1, d2];
    var u := Table(below, player, hand, pending, log + [DealerHand([d1]), DealerHit, DealerHand([d1, d2]), DealerBlackjack]);
    AceJackScores(d1, d2);
    Reversed2(d1, d2);
    assert hand[0..] == hand && hand[..1] == [d1];
    assert DealerDealt(t, Blackjack, u);
    DealerLog2(d1, d2);
    assert DealerTold(t, Blackjack, u);
    DealerTurnPlays(t, Blackjack, u);
  }

  /** `player_king_seven_ten_bust_dealer_ace_jack`: the player busts on the third card, the dealer hits on a soft 11 and reaches 21, and the player loses. */
  lemma KingSevenTenAgainstAceJack(below: seq<Card>, p1: Card, p2: Card, p3: Card, d1: Card, d2: Card)
    requires p1.rank == King && p2.rank == Seven && p3.rank == Ten
    requires d1.rank == Ace && d2.rank == Jack
    ensures Round(Table(below + [d2, d1, p3, p2, p1], [], [], [PlayerHit, PlayerHit], []))
      == Done(Table(below, [p1, p2, p3], [d1, d2], [],
                    [PlayerHand([p1]), PlayerHand([p1, p2]), PlayerHand([p1, p2, p3]), PlayerBust]
                    + [DealerHand([d1]), DealerHit, DealerHand([d1, d2]), DealerBlackjack]
                    + [PlayerLoose]))
  {
    assert Winner(Bust, Blackjack) == Some(PlayerLoose);
    var t := Table(below + [d2, d1, p3, p2, p1], [], [], [PlayerHit, PlayerHit], []);
    var playerLog := [PlayerHand([p1]), PlayerHand([p1, p2]), PlayerHand([p1, p2, p3]), PlayerBust];
    var a := Table(below + [d2, d1], [p1, p2, p3], [], [], playerLog);
    var b := Table(below, [p1, p2, p3], [d1, d2], [], playerLog + [DealerHand([d1]), DealerHit, DealerHand([d1, d2]), DealerBlackjack]);
    assert PlayerPhase(t) == Done((Bust, a)) by {
      assert below + [d2, d1, p3, p2, p1] == (below + [d2, d1]) + [p3, p2, p1];
      KingSevenTenPlayer(below + [d2, d1], p1, p2, p3);
    }
    assert DealerPhase(a) == Done((Blackjack, b)) by {
      AceJackDealer(below, [p1, p2, p3], [], playerLog, d1, d2);
    }
    RoundFromTurns(t, Bust, a, Blackjack, b);
  }

  /** The scores of the player's hand after each draw. */
  lemma KingSevenFourScores(p1: Card, p2: Card, p3: Card)
    requires p1.rank == King && p2.rank == Seven && p3.rank == Four
    ensures ScoreOf([p1]) == Points(10, false)
    ensures ScoreOf([p1, p2]) == Points(17, false)
    ensures ScoreOf([p1, p2, p3]) == Blackjack
  {
    ScoreSnoc([], p1); ScoreSnoc([p1], p2); ScoreSnoc([p1, p2], p3);
    assert [] + [p1] == [p1] && [p1] + [p2] == [p1, p2] && [p1, p2] + [p3] == [p1, p2, p3];
  }

  /** `player_king_seven_four_blackjack_dealer_six_eight_jack`, the player's turn: hits until the last draw ends the turn. */
  lemma KingSevenFourPlayer(below: seq<Card>, p1: Card, p2: Card, p3: Card)
    requires p1.rank == King && p2.rank == Seven && p3.rank == Four
    ensures PlayerPhase(Table(below + [p3, p2, p1], [], [], [PlayerHit, PlayerHit], []))
      == Done((Blackjack, Table(below, [p1, p2, p3], [], [],
               [PlayerHand([p1]), PlayerHand([p1, p2]), PlayerHand([p1, p2, p3]), PlayerBlackjack])))
  {
    var t := Table(below + [p3, p2, p1], [], [], [PlayerHit, PlayerHit], []);
    var hand := [p1, p2, p3];
    var u := Table(below, hand, [], [], [PlayerHand([p1]), PlayerHand([p1, p2]), PlayerHand([p1, p2, p3]), PlayerBlackjack]);
    KingSevenFourScores(p1, p2, p3);
    Reversed3(p1, p2, p3);
    assert hand[0..] == hand && hand[..1] == [p1] && hand[..2] == [p1, p2];
    assert PlayerDealt(t, Blackjack, u);
    PlayerLog3(p1, p2, p3);
    assert Hits(2) == [PlayerHit, PlayerHit];
    assert PlayerTold(t, Blackjack, u);
    PlayerTurnPlays(t, Blackjack, u);
  }

  /** The scores of the dealer's hand after each draw. */
  lemma SixEightJackScores(d1: Card, d2: Card, d3: Card)
    requires d1.rank == Six && d2.rank == Eight && d3.rank == Jack
    ensures ScoreOf([d1]) == Points(6, false)
    ensures ScoreOf([d1, d2]) == Points(14, false)
    ensures ScoreOf([d1, d2, d3]) == Bust
  {
    ScoreSnoc([], d1); ScoreSnoc([d1], d2); ScoreSnoc([d1, d2], d3);
    assert [] + [d1] == [d1] && [d1] + [d2] == [d1, d2] && [d1, d2] + [d3] == [d1, d2, d3];
  }

  /** `player_king_seven_four_blackjack_dealer_six_eight_jack`, the dealer's turn. */
  lemma SixEightJackDealer(below: seq<Card>, player: seq<Card>, pending: seq<Action>, log: seq<Event>, d1: Card, d2: Card, d3: Card)
    requires d1.rank == Six && d2.rank == Eight && d3.rank == Jack
    ensures DealerPhase(Table(below + [d3, d2, d1], player, [], pending, log))
      == Done((Bust, Table(below, player, [d1, d2, d3], pending,
               log + [DealerHand([d1]), DealerHit, DealerHand([d1, d2]), DealerHit, DealerHand([d1, d2, d3]), DealerBust])))
  {
    var t := Table(below + [d3, d2, d1], player, [], pending, log);
    var hand := [d1, d2, d3];
    var u := Table(below, player, hand, pending, log + [DealerHand([d1]), DealerHit, DealerHand([d1, d2]), DealerHit, DealerHand([d1, d2, d3]), DealerBust]);
    SixEightJackScores(d1, d2, d3);
    Reversed3(d1, d2, d3);
    assert hand[0..] == hand && hand[..1] == [d1] && hand[..2] == [d1, d2];
    assert DealerDealt(t, Bust, u);
    DealerLog3(d1, d2, d3);
    assert DealerTold(t, Bust, u);
    DealerTurnPlays(t, Bust, u);
  }

  /** `player_king_seven_four_blackjack_dealer_six_eight_jack`: the player reaches 21 on the third card, the dealer hits twice and busts, and the player wins. */
  lemma KingSevenFourAgainstSixEightJack(below: seq<Card>, p1: Card, p2: Card, p3: Card, d1: Card, d2: Card, d3: Card)
    requires p1.rank == King && p2.rank == Seven && p3.rank == Four
    requires d1.rank == Six && d2.rank == Eight && d3.rank == Jack
    ensures Round(Table(below + [d3, d2, d1, p3, p2, p1], [], [], [PlayerHit, PlayerHit], []))
      == Done(Table(below, [p1, p2, p3], [d1, d2, d3], [],
                    [PlayerHand([p1]), PlayerHand([p1, p2]), PlayerHand([p1, p2, p3]), PlayerBlackjack]
                    + [DealerHand([d1]), DealerHit, DealerHand([d1, d2]), DealerHit, DealerHand([d1, d2, d3]), DealerBust]
                    + [PlayerWin]))
  {
    assert Winner(Blackjack, Bust) == Some(PlayerWin);
    var t := Table(below + [d3, d2, d1, p3, p2, p1], [], [], [PlayerHit, PlayerHit], []);
    var playerLog := [PlayerHand([p1]), PlayerHand([p1, p2]), PlayerHand([p1, p2, p3]), PlayerBlackjack];
    var a := Table(below + [d3, d2, d1], [p1, p2, p3], [], [], playerLog);
    var b := Table(below, [p1, p2, p3], [d1, d2, d3], [], playerLog + [DealerHand([d1]), DealerHit, DealerHand([d1, d2]), DealerHit, DealerHand([d1, d2, d3]), DealerBust]);
    assert PlayerPhase(t) == Done((Blackjack, a)) by {
      assert below + [d3, d2, d1, p3, p2, p1] == (below + [d3, d2, d1]) + [p3, p2, p1];
      KingSevenFourPlayer(below + [d3, d2, d1], p1, p2, p3);
    }
    assert DealerPhase(a) == Done((Bust, b)) by {
      SixEightJackDealer(below, [p1, p2, p3], [], playerLog, d1, d2, d3);
    }
    RoundFromTurns(t, Blackjack, a, Bust, b);
  }

  /** The scores of the player's hand after each draw. */
  lemma AceKingScores(p1: Card, p2: Card)
    requires p1.rank == Ace && p2.rank == King
    ensures ScoreOf([p1]) == Points(11, true)
    ensures ScoreOf([p1, p2]) == Blackjack
  {
    ScoreSnoc([], p1); ScoreSnoc([p1], p2);
    assert [] + [p1] == [p1] && [p1] + [p2] == [p1, p2];
  }

  /** `player_ace_king_blackjack_dealer_ace_king`, the player's turn: hits until the last draw ends the turn. */
  lemma AceKingPlayer(below: seq<Card>, p1: Card, p2: Card)
    requires p1.rank == Ace && p2.rank == King
    ensures PlayerPhase(Table(below + [p2, p1], [], [], [PlayerHit, PlayerHit], []))
      == Done((Blackjack, Table(below, [p1, p2], [], [PlayerHit],
               [PlayerHand([p1]), PlayerHand([p1, p2]), PlayerBlackjack])))
  {
    var t := Table(below + [p2, p1], [], [], [PlayerHit, PlayerHit], []);
    var hand := [p1, p2];
    var u := Table(below, hand, [], [PlayerHit], [PlayerHand([p1]), PlayerHand([p1, p2]), PlayerBlackjack]);
    AceKingScores(p1, p2);
    Reversed2(p1, p2);
    assert hand[0..] == hand && hand[..1] == [p1];
    assert PlayerDealt(t, Blackjack, u);
    PlayerLog2(p1, p2);
    assert Hits(1) == [PlayerHit];
    assert PlayerTold(t, Blackjack, u);
    PlayerTurnPlays(t, Blackjack, u);
  }

  /** `player_ace_king_blackjack_dealer_ace_king`, the dealer's turn. */
  lemma AceKingDealer(below: seq<Card>, player: seq<Card>, pending: seq<Action>, log: seq<Event>, d1: Card, d2: Card)
    requires d1.rank == Ace && d2.rank == King
    ensures DealerPhase(Table(below + [d2, d1], player, [], pending, log))
      == Done((Blackjack, Table(below, player, [d1, d2], pending,
               log + [DealerHand([d1]), DealerHit, DealerHand([d1, d2]), DealerBlackjack])))
  {
    var t := Table(below + [d2, d1], player, [], pending, log);
    var hand := [d1, d2];
    var u := Table(below, player, hand, pending, log + [DealerHand([d1]), DealerHit, DealerHand([d1, d2]), DealerBlackjack]);
    AceKingScores(d1, d2);
    Reversed2(d1, d2);
    assert hand[0..] == hand && hand[..1] == [d1];
    assert DealerDealt(t, Blackjack, u);
    DealerLog2(d1, d2);
    assert DealerTold(t, Blackjack, u);
    DealerTurnPlays(t, Blackjack, u);
  }

  /** `player_ace_king_blackjack_dealer_ace_king`: both reach 21 on the second card and the round is a tie; the second scripted hit is never asked for. */
  lemma AceKingAgainstAceKing(below: seq<Card>, p1: Card, p2: Card, d1: Card, d2: Card)
    requires p1.rank == Ace && p2.rank == King
    requires d1.rank == Ace && d2.rank == King
    ensures Round(Table(below + [d2, d1, p2, p1], [], [], [PlayerHit, PlayerHit], []))
      == Done(Table(below, [p1, p2], [d1, d2], [PlayerHit],
                    [PlayerHand([p1]), PlayerHand([p1, p2]), PlayerBlackjack]
                    + [DealerHand([d1]), DealerHit, DealerHand([d1, d2]), DealerBlackjack]
                    + [Tie]))
  {
    assert Winner(Blackjack, Blackjack) == Some(Tie);
    var t := Table(below + [d2, d1, p2, p1], [], [], [PlayerHit, PlayerHit], []);
    var playerLog := [PlayerHand([p1]), PlayerHand([p1, p2]), PlayerBlackjack];
    var a := Table(below + [d2, d1], [p1, p2], [], [PlayerHit], playerLog);
    var b := Table(below, [p1, p2], [d1, d2], [PlayerHit], playerLog + [DealerHand([d1]), DealerHit, DealerHand([d1, d2]), DealerBlackjack]);
    assert PlayerPhase(t) == Done((Blackjack, a)) by {
      assert below + [d2, d1, p2, p1] == (below + [d2, d1]) + [p2, p1];
      AceKingPlayer(below + [d2, d1], p1, p2);
    }
    assert DealerPhase(a) == Done((Blackjack, b)) by {
      AceKingDealer(below, [p1, p2], [PlayerHit], playerLog, d1, d2);
    }
    RoundFromTurns(t, Blackjack, a, Blackjack, b);
  }

  /** The scores of the player's hand after each draw. */
  lemma AceSevenScores(p1: Card, p2: Card)
    requires p1.rank == Ace && p2.rank == Seven
    ensures ScoreOf([p1]) == Points(11, true)
    ensures ScoreOf([p1, p2]) == Points(18, true)
  {
    ScoreSnoc([], p1); ScoreSnoc([p1], p2);
    assert [] + [p1] == [p1] && [p1] + [p2] == [p1, p2];
  }

  /** The soft tie, the player's turn: hits, then stays. */
  lemma AceSevenPlayer(below: seq<Card>, more: seq<Action>, p1: Card, p2: Card)
    requires p1.rank == Ace && p2.rank == Seven
    ensures PlayerPhase(Table(below + [p2, p1], [], [], [PlayerHit, PlayerStay] + more, []))
      == Done((Points(18, true), Table(below, [p1, p2], [], more,
               [PlayerHand([p1]), PlayerHand([p1, p2])])))
  {
    var t := Table(below + [p2, p1], [], [], [PlayerHit, PlayerStay] + more, []);
    var hand := [p1, p2];
    var u := Table(below, hand, [], more, [PlayerHand([p1]), PlayerHand([p1, p2])]);
    AceSevenScores(p1, p2);
    Reversed2(p1, p2);
    assert hand[0..] == hand && hand[..1] == [p1];
    assert PlayerDealt(t, Points(18, true), u);
    PlayerLog2(p1, p2);
    assert Hits(1) == [PlayerHit];
    assert PlayerTold(t, Points(18, true), u);
    PlayerTurnPlays(t, Points(18, true), u);
  }

  /** The scores of the dealer's hand after each draw. */
  lemma TenEightScores(d1: Card, d2: Card)
    requires d1.rank == Ten && d2.rank == Eight
    ensures ScoreOf([d1]) == Points(10, false)
    ensures ScoreOf([d1, d2]) == Points(18, false)
  {
    ScoreSnoc([], d1); ScoreSnoc([d1], d2);
    assert [] + [d1] == [d1] && [d1] + [d2] == [d1, d2];
  }

  /** The soft tie, the dealer's turn. */
  lemma TenEightDealer(below: seq<Card>, player: seq<Card>, pending: seq<Action>, log: seq<Event>, d1: Card, d2: Card)
    requires d1.rank == Ten && d2.rank == Eight
    ensures DealerPhase(Table(below + [d2, d1], player, [], pending, log))
      == Done((Points(18, false), Table(below, player, [d1, d2], pending,
               log + [DealerHand([d1]), DealerHit, DealerHand([d1, d2]), DealerStay])))
  {
    var t := Table(below + [d2, d1], player, [], pending, log);
    var hand := [d1, d2];
    var u := Table(below, player, hand, pending, log + [DealerHand([d1]), DealerHit, DealerHand([d1, d2]), DealerStay]);
    TenEightScores(d1, d2);
    Reversed2(d1, d2);
    assert hand[0..] == hand && hand[..1] == [d1];
    assert DealerDealt(t, Points(18, false), u);
    DealerLog2(d1, d2);
    assert DealerTold(t, Points(18, false), u);
    DealerTurnPlays(t, Points(18, false), u);
  }

  /** The soft-flag mismatch is reachable: the player stands on an Ace and a Seven (a soft
      18) and the dealer on a Ten and an Eight (a hard 18), whatever lies below those four
      cards and whatever actions follow. The round panics where the intended round ties. */
  lemma SoftTiePanics(below: seq<Card>, more: seq<Action>, p1: Card, p2: Card, d1: Card, d2: Card)
    requires p1.rank == Ace && p2.rank == Seven
    requires d1.rank == Ten && d2.rank == Eight
    ensures Round(Table(below + [d2, d1, p2, p1], [], [], [PlayerHit, PlayerStay] + more, [])) == Panic(Unreachable)
    ensures IntendedRound(Table(below + [d2, d1, p2, p1], [], [], [PlayerHit, PlayerStay] + more, []))
      == Done(Table(below, [p1, p2], [d1, d2], more,
                    [PlayerHand([p1]), PlayerHand([p1, p2])]
                    + [DealerHand([d1]), DealerHit, DealerHand([d1, d2]), DealerStay]
                    + [Tie]))
  {
    assert Winner(Points(18, true), Points(18, false)) == None;
    assert IntendedWinner(Points(18, true), Points(18, false)) == Tie;
    var t := Table(below + [d2, d1, p2, p1], [], [], [PlayerHit, PlayerStay] + more, []);
    var playerLog := [PlayerHand([p1]), PlayerHand([p1, p2])];
    var a := Table(below + [d2, d1], [p1, p2], [], more, playerLog);
    var b := Table(below, [p1, p2], [d1, d2], more, playerLog + [DealerHand([d1]), DealerHit, DealerHand([d1, d2]), DealerStay]);
    assert PlayerPhase(t) == Done((Points(18, true), a)) by {
      assert below + [d2, d1, p2, p1] == (below + [d2, d1]) + [p2, p1];
      AceSevenPlayer(below + [d2, d1], more, p1, p2);
    }
    assert DealerPhase(a) == Done((Points(18, false), b)) by {
      TenEightDealer(below, [p1, p2], more, playerLog, d1, d2);
    }
    RoundFromTurns(t, Points(18, true), a, Points(18, false), b);
  }

  /** The scores of the player's hand after each draw. */
  lemma AceNineKingFourScores(p1: Card, p2: Card, p3: Card, p4: Card)
    requires p1.rank == Ace && p2.rank == Nine && p3.rank == King && p4.rank == Four
    ensures ScoreOf([p1]) == Points(11, true)
    ensures ScoreOf([p1, p2]) == Points(20, true)
    ensures ScoreOf([p1, p2, p3]) == Points(20, false)
    ensures ScoreOf([p1, p2, p3, p4]) == Bust
  {
    ScoreSnoc([], p1); ScoreSnoc([p1], p2); ScoreSnoc([p1, p2], p3); ScoreSnoc([p1, p2, p3], p4);
    assert [] + [p1] == [p1] && [p1] + [p2] == [p1, p2] && [p1, p2] + [p3] == [p1, p2, p3] && [p1, p2, p3] + [p4] == [p1, p2, p3, p4];
  }

  /** `player_ace_nine_king_four_dealer_ace_six_nine_four`, the player's turn: hits until the last draw ends the turn. */
  lemma AceNineKingFourPlayer(below: seq<Card>, p1: Card, p2: Card, p3: Card, p4: Card)
    requires p1.rank == Ace && p2.rank == Nine && p3.rank == King && p4.rank == Four
    ensures PlayerPhase(Table(below + [p4, p3, p2, p1], [], [], [PlayerHit, PlayerHit, PlayerHit], []))
      == Done((Bust, Table(below, [p1, p2, p3, p4], [], [],
               [PlayerHand([p1]), PlayerHand([p1, p2]), PlayerHand([p1, p2, p3]), PlayerHand([p1, p2, p3, p4]), PlayerBust])))
  {
    var t := Table(below + [p4, p3, p2, p1], [], [], [PlayerHit, PlayerHit, PlayerHit], []);
    var hand := [p1, p2, p3, p4];
    var u := Table(below, hand, [], [], [PlayerHand([p1]), PlayerHand([p1, p2]), PlayerHand([p1, p2, p3]), PlayerHand([p1, p2, p3, p4]), PlayerBust]);
    AceNineKingFourScores(p1, p2, p3, p4);
    Reversed4(p1, p2, p3, p4);
    assert hand[0..] == hand && hand[..1] == [p1] && hand[..2] == [p1, p2] && hand[..3] == [p1, p2, p3];
    assert PlayerDealt(t, Bust, u);
    PlayerLog4(p1, p2, p3, p4);
    assert Hits(3) == [PlayerHit, PlayerHit, PlayerHit];
    assert PlayerTold(t, Bust, u);
    PlayerTurnPlays(t, Bust, u);
  }

  /** The scores of the dealer's hand after each draw. */
  lemma AceSixNineFourScores(d1: Card, d2: Card, d3: Card, d4: Card)
    requires d1.rank == Ace && d2.rank == Six && d3.rank == Nine && d4.rank == Four
    ensures ScoreOf([d1]) == Points(11, true)
    ensures ScoreOf([d1, d2]) == Points(17, true)
    ensures ScoreOf([d1, d2, d3]) == Points(16, false)
    ensures ScoreOf([d1, d2, d3, d4]) == Points(20, false)
  {
    ScoreSnoc([], d1); ScoreSnoc([d1], d2); ScoreSnoc([d1, d2], d3); ScoreSnoc([d1, d2, d3], d4);
    assert [] + [d1] == [d1] && [d1] + [d2] == [d1, d2] && [d1, d2] + [d3] == [d1, d2, d3] && [d1, d2, d3] + [d4] == [d1, d2, d3, d4];
  }

  /** `player_ace_nine_king_four_dealer_ace_six_nine_four`, the dealer's turn. */
  lemma AceSixNineFourDealer(below: seq<Card>, player: seq<Card>, pending: seq<Action>, log: seq<Event>, d1: Card, d2: Card, d3: Card, d4: Card)
    requires d1.rank == Ace && d2.rank == Six && d3.rank == Nine && d4.rank == Four
    ensures DealerPhase(Table(below + [d4, d3, d2, d1], player, [], pending, log))
      == Done((Points(20, false), Table(below, player, [d1, d2, d3, d4], pending,
               log + [DealerHand([d1]), DealerHit, DealerHand([d1, d2]), DealerHit, DealerHand([d1, d2, d3]), DealerHit, DealerHand([d1, d2, d3, d4]), DealerStay])))
  {
    var t := Table(below + [d4, d3, d2, d1], player, [], pending, log);
    var hand := [d1, d2, d3, d4];
    var u := Table(below, player, hand, pending, log + [DealerHand([d1]), DealerHit, DealerHand([d1, d2]), DealerHit, DealerHand([d1, d2, d3]), DealerHit, DealerHand([d1, d2, d3, d4]), DealerStay]);
    AceSixNineFourScores(d1, d2, d3, d4);
    Reversed4(d1, d2, d3, d4);
    assert hand[0..] == hand && hand[..1] == [d1] && hand[..2] == [d1, d2] && hand[..3] == [d1, d2, d3];
    assert DealerDealt(t, Points(20, false), u);
    DealerLog4(d1, d2, d3, d4);
    assert DealerTold(t, Points(20, false), u);
    DealerTurnPlays(t, Points(20, false), u);
  }

  /** `player_ace_nine_king_four_dealer_ace_six_nine_four`: the player's Ace drops to 1 on the King and the Four busts the hand; the dealer hits a soft 17, drops the Ace on the Nine and stands on 20; the player loses. */
  lemma AceNineKingFourAgainstAceSixNineFour(below: seq<Card>, p1: Card, p2: Card, p3: Card, p4: Card, d1: Card, d2: Card, d3: Card, d4: Card)
    requires p1.rank == Ace && p2.rank == Nine && p3.rank == King && p4.rank == Four
    requires d1.rank == Ace && d2.rank == Six && d3.rank == Nine && d4.rank == Four
    ensures Round(Table(below + [d4, d3, d2, d1, p4, p3, p2, p1], [], [], [PlayerHit, PlayerHit, PlayerHit], []))
      == Done(Table(below, [p1, p2, p3, p4], [d1, d2, d3, d4], [],
                    [PlayerHand([p1]), PlayerHand([p1, p2]), PlayerHand([p1, p2, p3]), PlayerHand([p1, p2, p3, p4]), PlayerBust]
                    + [DealerHand([d1]), DealerHit, DealerHand([d1, d2]), DealerHit, DealerHand([d1, d2, d3]), DealerHit, DealerHand([d1, d2, d3, d4]), DealerStay]
                    + [PlayerLoose]))
  {
    assert Winner(Bust, Points(20, false)) == Some(PlayerLoose);
    var t := Table(below + [d4, d3, d2, d1, p4, p3, p2, p1], [], [], [PlayerHit, PlayerHit, PlayerHit], []);
    var playerLog := [PlayerHand([p1]), PlayerHand([p1, p2]), PlayerHand([p1, p2, p3]), PlayerHand([p1, p2, p3, p4]), PlayerBust];
    var a := Table(below + [d4, d3, d2, d1], [p1, p2, p3, p4], [], [], playerLog);
    var b := Table(below, [p1, p2, p3, p4], [d1, d2, d3, d4], [], playerLog + [DealerHand([d1]), DealerHit, DealerHand([d1, d2]), DealerHit, DealerHand([d1, d2, d3]), DealerHit, DealerHand([d1, d2, d3, d4]), DealerStay]);
    assert PlayerPhase(t) == Done((Bust, a)) by {
      assert below + [d4, d3, d2, d1, p4, p3, p2, p1] == (below + [d4, d3, d2, d1]) + [p4, p3, p2, p1];
      AceNineKingFourPlayer(below + [d4, d3, d2, d1], p1, p2, p3, p4);
    }
    assert DealerPhase(a) == Done((Points(20, false), b)) by {
      AceSixNineFourDealer(below, [p1, p2, p3, p4], [], playerLog, d1, d2, d3, d4);
    }
    RoundFromTurns(t, Bust, a, Points(20, false), b);
  }
}
