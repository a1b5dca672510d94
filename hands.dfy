/** A hand: an append-only buffer of cards that draws from a deck, scores
    itself and renders as a comma-separated list (src/hand.rs). */
module Hands {
  import opened Wrappers
  import opened Seqs
  import opened Cards
  import opened Scoring
  import opened Decks

  /** `Result<(), CannotDrawFromEmpty>`. */
  datatype DrawResult = Drawn | CannotDrawFromEmpty

  class Hand {
    /** The inner `Vec`, in draw order; `iter` walks it front to back. */
    var cards: seq<Card>

    /** `Hand::new`: an empty hand. */
    constructor ()
      ensures cards == []
    {
      cards := [];
    }

    /** `DrawTo::draw_from`: pop a card from the deck and push it onto the hand.
        From an empty deck it fails and nothing changes. */
    method DrawFrom(deck: Deck) returns (r: DrawResult)
      modifies this, deck
      ensures old(deck.cards) == [] ==>
        r == CannotDrawFromEmpty && cards == old(cards) && deck.cards == old(deck.cards)
      ensures old(deck.cards) != [] ==>
        && r == Drawn
        && cards == old(cards) + [old(deck.cards)[|old(deck.cards)| - 1]]
        && deck.cards == old(deck.cards)[..|old(deck.cards)| - 1]
    {
      var drawn := deck.Draw();
      match drawn
      case None =>
        r := CannotDrawFromEmpty;
      case Some(card) =>
        cards := cards + [card];
        r := Drawn;
    }

    /** `Score::score`: sum the cards with every Ace as 11, then count Aces as 1
        one at a time while the total is over 21, then compare the total with 21. */
    method Score() returns (v: Value)
      ensures v == ScoreOf(cards)
    {
      var points: nat := 0;
      var aces: nat := 0;
      for i := 0 to |cards|
        invariant points == FaceSum(cards[..i])
        invariant aces == AceCount(cards[..i])
      {
        var add: nat;
        match GetRank(cards[i]) {
          case Ace => aces := aces + 1; add := 11;
          case Two => add := 2;
          case Three => add := 3;
          case Four => add := 4;
          case Five => add := 5;
          case Six => add := 6;
          case Seven => add := 7;
          case Eight => add := 8;
          case Nine => add := 9;
          case Ten => add := 10;
          case Jack => add := 10;
          case Queen => add := 10;
          case King => add := 10;
        }
        points := points + add;
        assert cards[..i + 1][..i] == cards[..i];
      }
      assert cards[..|cards|] == cards;
      while points > 21 && aces > 0
        invariant Demote(points, aces) == Demote(FaceSum(cards), AceCount(cards))
      {
        points := points - 10;
        aces := aces - 1;
      }
      if points < 21 {
        v := Points(points, aces > 0);
      } else if points > 21 {
        v := Bust;
      } else {
        v := Blackjack;
      }
    }
  }

  /** One step of the `fold` in `Display`: a separator unless nothing was written yet,
      then the card. */
  function RenderStep(acc: string, c: Card): string
  {
    (if acc == "" then acc else acc + ", ") + ToString(c)
  }

  /** The `fold` of `Display`, from the accumulator `acc`, over `cards` front to back. */
  function RenderFrom(acc: string, cards: seq<Card>): string
    decreases |cards|
  {
    if cards == [] then acc else RenderFrom(RenderStep(acc, cards[0]), cards[1..])
  }

  /** `Display` for a hand. */
  function Render(cards: seq<Card>): string
  {
    RenderFrom("", cards)
  }

  /** The card strings in draw order, separated by ", ". */
  function Join(cards: seq<Card>): string
  {
    if cards == [] then ""
    else if |cards| == 1 then ToString(cards[0])
    else ToString(cards[0]) + ", " + Join(cards[1..])
  }

  lemma {:induction false} RenderFromIsJoin(acc: string, cards: seq<Card>)
    ensures RenderFrom(acc, cards) ==
      if acc == "" then Join(cards)
      else if cards == [] then acc
      else acc + ", " + Join(cards)
    decreases |cards|
  {
    if cards != [] {
      var step := RenderStep(acc, cards[0]);
      ToStringNonEmpty(cards[0]);
      RenderFromIsJoin(step, cards[1..]);
    }
  }

  /** A hand renders as its cards' strings joined by ", " in draw order; an empty hand as "". */
  lemma RenderIsJoin(cards: seq<Card>)
    ensures Render(cards) == Join(cards)
    ensures cards == [] ==> Render(cards) == ""
  {
    RenderFromIsJoin("", cards);
  }

  /** Drawing a card adds ", " and that card's string at the end of the rendering. */
  lemma {:induction false} JoinSnoc(cards: seq<Card>, c: Card)
    requires cards != []
    ensures Join(cards + [c]) == Join(cards) + ", " + ToString(c)
  {
    if |cards| > 1 {
      assert (cards + [c])[1..] == cards[1..] + [c];
      JoinSnoc(cards[1..], c);
    }
  }

  /** Draws a fresh deck dry into a fresh hand: 52 draws succeed, the next one fails,
      and the hand then holds every card exactly once. */
  method DrawWholeDeck() returns (drawn: seq<Card>, last: DrawResult)
    ensures |drawn| == 52 && Distinct(drawn)
    ensures forall c: Card :: c in drawn
    ensures last == CannotDrawFromEmpty
  {
    var deck := new Deck();
    var hand := new Hand();
    ghost var initial := deck.cards;
    for i := 0 to 52
      invariant |hand.cards| == i
      invariant deck.cards + Reversed(hand.cards) == initial
    {
      ghost var before, rest := hand.cards, deck.cards;
      var r := hand.DrawFrom(deck);
      assert r == Drawn;
      ghost var c := rest[|rest| - 1];
      assert rest == deck.cards + [c] && hand.cards == before + [c];
      ReversedSnoc(before, c);
      assert deck.cards + Reversed(hand.cards) == (deck.cards + [c]) + Reversed(before);
    }
    last := hand.DrawFrom(deck);
    drawn := hand.cards;
    ReversedMultiset(drawn);
    ShuffledIsComplete(drawn);
  }
}
