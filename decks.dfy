/** The 52-card deck: built suit-major, shuffled, and drawn from its end
    (src/backend/deck.rs; src/deck.rs is the same algorithm). */
module Decks {
  import opened Wrappers
  import opened Seqs
  import opened Cards

  /** `RANKS`: every rank once, Ace first. */
  const Ranks: seq<Rank> := [Ace, Two, Three, Four, Five, Six, Seven, Eight, Nine, Ten, Jack, Queen, King]

  /** `SUITS`: every suit once. */
  const Suits: seq<Suit> := [Spade, Heart, Club, Diamond]

  /** The cards that one suit contributes, in the order of `ranks`. */
  function Row(s: Suit, ranks: seq<Rank>): seq<Card>
  {
    if ranks == [] then [] else Row(s, ranks[..|ranks| - 1]) + [New(s, ranks[|ranks| - 1])]
  }

  /** The unshuffled deck: for each suit in turn, one card per rank. */
  function Grid(suits: seq<Suit>, ranks: seq<Rank>): seq<Card>
  {
    if suits == [] then [] else Grid(suits[..|suits| - 1], ranks) + Row(suits[|suits| - 1], ranks)
  }

  /** A row holds exactly the cards of its suit whose rank is listed, one per listed rank. */
  lemma {:induction false} RowContents(s: Suit, ranks: seq<Rank>)
    ensures |Row(s, ranks)| == |ranks|
    ensures forall c :: c in Row(s, ranks) <==> c.suit == s && c.rank in ranks
    ensures Distinct(ranks) ==> Distinct(Row(s, ranks))
  {
    if ranks != [] {
      var init := ranks[..|ranks| - 1];
      RowContents(s, init);
      assert ranks == init + [ranks[|ranks| - 1]];
      if Distinct(ranks) {
        assert Distinct(init) by {
          forall i, j | 0 <= i < j < |init| ensures init[i] != init[j] {
            assert init[i] == ranks[i] && init[j] == ranks[j];
          }
        }
        assert ranks[|ranks| - 1] !in init;
      }
    }
  }

  /** The grid holds |suits| * |ranks| cards. */
  lemma {:induction false} GridLength(suits: seq<Suit>, ranks: seq<Rank>)
    ensures |Grid(suits, ranks)| == |suits| * |ranks|
  {
    if suits != [] {
      GridLength(suits[..|suits| - 1], ranks);
      RowContents(suits[|suits| - 1], ranks);
      assert |Grid(suits, ranks)| == (|suits| - 1) * |ranks| + |ranks|;
    }
  }

  /** The grid holds exactly the cards whose suit and rank are both listed. */
  lemma {:induction false} GridMembers(suits: seq<Suit>, ranks: seq<Rank>)
    ensures forall c :: c in Grid(suits, ranks) <==> c.suit in suits && c.rank in ranks
  {
    if suits != [] {
      var init := suits[..|suits| - 1];
      GridMembers(init, ranks);
      RowContents(suits[|suits| - 1], ranks);
      assert suits == init + [suits[|suits| - 1]];
    }
  }

  /** Listing each suit and each rank once lists each card once. */
  lemma {:induction false} GridDistinct(suits: seq<Suit>, ranks: seq<Rank>)
    requires Distinct(suits) && Distinct(ranks)
    ensures Distinct(Grid(suits, ranks))
  {
    if suits != [] {
      var init := suits[..|suits| - 1];
      var last := suits[|suits| - 1];
      assert Distinct(init) by {
        forall i, j | 0 <= i < j < |init| ensures init[i] != init[j] {
          assert init[i] == suits[i] && init[j] == suits[j];
        }
      }
      assert last !in init;
      GridDistinct(init, ranks);
      GridMembers(init, ranks);
      RowContents(last, ranks);
      DistinctAppend(Grid(init, ranks), Row(last, ranks));
    }
  }

  /** `RANKS` lists every rank once. */
  lemma RanksComplete()
    ensures Distinct(Ranks) && |Ranks| == 13
    ensures forall r: Rank :: r in Ranks
  {
    forall r: Rank ensures r in Ranks {
      match r
      case Ace => assert Ranks[0] == r;
      case Two => assert Ranks[1] == r;
      case Three => assert Ranks[2] == r;
      case Four => assert Ranks[3] == r;
      case Five => assert Ranks[4] == r;
      case Six => assert Ranks[5] == r;
      case Seven => assert Ranks[6] == r;
      case Eight => assert Ranks[7] == r;
      case Nine => assert Ranks[8] == r;
      case Ten => assert Ranks[9] == r;
      case Jack => assert Ranks[10] == r;
      case Queen => assert Ranks[11] == r;
      case King => assert Ranks[12] == r;
    }
  }

  /** `SUITS` lists every suit once. */
  lemma SuitsComplete()
    ensures Distinct(Suits) && |Suits| == 4
    ensures forall s: Suit :: s in Suits
  {
    forall s: Suit ensures s in Suits {
      match s
      case Spade => assert Suits[0] == s;
      case Heart => assert Suits[1] == s;
      case Club => assert Suits[2] == s;
      case Diamond => assert Suits[3] == s;
    }
  }

  /** One more rank adds one card at the end of the row. */
  lemma RowStep(s: Suit, ranks: seq<Rank>, j: nat)
    requires j < |ranks|
    ensures Row(s, ranks[..j + 1]) == Row(s, ranks[..j]) + [New(s, ranks[j])]
  {
    assert ranks[..j + 1][..j] == ranks[..j];
  }

  /** One more suit adds its row at the end of the grid. */
  lemma GridStep(suits: seq<Suit>, ranks: seq<Rank>, i: nat)
    requires i < |suits|
    ensures Grid(suits[..i + 1], ranks) == Grid(suits[..i], ranks) + Row(suits[i], ranks)
  {
    assert suits[..i + 1][..i] == suits[..i];
  }

  /** The unshuffled deck. */
  function FreshOrder(): seq<Card>
  {
    Grid(Suits, Ranks)
  }

  /** A freshly built deck, before its shuffle, holds all 52 cards exactly once. */
  lemma FreshOrderIsComplete()
    ensures |FreshOrder()| == 52
    ensures Distinct(FreshOrder())
    ensures forall c: Card :: c in FreshOrder()
  {
    RanksComplete();
    SuitsComplete();
    GridLength(Suits, Ranks);
    GridMembers(Suits, Ranks);
    GridDistinct(Suits, Ranks);
  }

  /** Any shuffle of the fresh order holds all 52 cards exactly once. */
  lemma ShuffledIsComplete(s: seq<Card>)
    requires multiset(s) == multiset(FreshOrder())
    ensures |s| == 52
    ensures Distinct(s)
    ensures forall c: Card :: c in s
  {
    FreshOrderIsComplete();
    PermutationDistinct(s, FreshOrder());
    assert |s| == |multiset(s)|;
    forall c: Card ensures c in s {
      assert c in FreshOrder();
      assert c in multiset(FreshOrder());
    }
  }

  /** The two nested loops of `Deck::new`: for each suit, for each rank, push the card. */
  method PushAll() returns (ordered: seq<Card>)
    ensures ordered == FreshOrder()
  {
    ordered := [];
    for i := 0 to |Suits|
      invariant ordered == Grid(Suits[..i], Ranks)
    {
      for j := 0 to |Ranks|
        invariant ordered == Grid(Suits[..i], Ranks) + Row(Suits[i], Ranks[..j])
      {
        RowStep(Suits[i], Ranks, j);
        ordered := ordered + [New(Suits[i], Ranks[j])];
      }
      assert Ranks[..|Ranks|] == Ranks;
      GridStep(Suits, Ranks, i);
    }
    assert Suits[..|Suits|] == Suits;
  }

  /** A card source. The vector's top is its last element. */
  class Deck {
    var cards: seq<Card>

    /** `Deck::new`: push one card per (suit, rank), suit-major, then shuffle.
        The shuffle is any permutation of the pushed cards. */
    constructor ()
      ensures multiset(cards) == multiset(FreshOrder())
      ensures |cards| == 52 && Distinct(cards)
      ensures forall c: Card :: c in cards
    {
      var ordered := PushAll();
      var shuffled :| multiset(shuffled) == multiset(ordered);
      ShuffledIsComplete(shuffled);
      cards := shuffled;
    }

    /** `DrawFrom::draw`, i.e. `Vec::pop`: takes the last card, or `None` from an empty deck. */
    method Draw() returns (c: Option<Card>)
      modifies this
      ensures old(cards) == [] ==> c == None && cards == []
      ensures old(cards) != [] ==> c == Some(old(cards)[|old(cards)| - 1]) && cards == old(cards)[..|old(cards)| - 1]
      ensures c.Some? ==> multiset(old(cards)) == multiset(cards) + multiset{c.value}
    {
      if cards == [] {
        c := None;
      } else {
        c := Some(cards[|cards| - 1]);
        assert cards == cards[..|cards| - 1] + [c.value];
        cards := cards[..|cards| - 1];
      }
    }
  }

  /** Draws until the deck answers `None`, keeping the cards in the order drawn. */
  method DrawAll(d: Deck) returns (drawn: seq<Card>)
    modifies d
    ensures d.cards == []
    ensures Reversed(drawn) == old(d.cards)
    ensures |drawn| == |old(d.cards)|
    ensures Distinct(old(d.cards)) ==> Distinct(drawn)
  {
    drawn := [];
    while true
      invariant old(d.cards) == d.cards + Reversed(drawn)
      decreases |d.cards|
    {
      var c := d.Draw();
      if c.None? {
        break;
      }
      ReversedSnoc(drawn, c.value);
      drawn := drawn + [c.value];
    }
    ReversedMultiset(drawn);
    PermutationDistinct(drawn, old(d.cards));
  }
}
