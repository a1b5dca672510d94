/** French playing cards: ranks, suits, the card record, its accessors and
    its `"<Rank> of <Suit>s"` rendering (src/card.rs). */
module Cards {
  import opened Wrappers

  /** The thirteen ranks, in the source's declaration order. */
  datatype Rank = Ace | Two | Three | Four | Five | Six | Seven | Eight | Nine | Ten | Jack | Queen | King

  /** The four suits, in the source's declaration order. */
  datatype Suit = Spade | Heart | Club | Diamond

  /** A card is an immutable (suit, rank) pair; the derived equality compares both fields. */
  datatype Card = Card(suit: Suit, rank: Rank)

  /** `Card::new(suit, rank)`. */
  function New(suit: Suit, rank: Rank): Card
  {
    Card(suit, rank)
  }

  /** `CardLike::get_rank`. */
  function GetRank(c: Card): Rank
  {
    c.rank
  }

  /** `CardLike::get_suit`. */
  function GetSuit(c: Card): Suit
  {
    c.suit
  }

  /** A card built from a rank and a suit gives them back. */
  lemma AccessorsOfNew(suit: Suit, rank: Rank)
    ensures GetRank(New(suit, rank)) == rank
    ensures GetSuit(New(suit, rank)) == suit
  {
  }

  /** Two cards are equal exactly when their suits and their ranks are. */
  lemma CardEquality(a: Card, b: Card)
    ensures a == b <==> GetSuit(a) == GetSuit(b) && GetRank(a) == GetRank(b)
  {
  }

  /** The `Debug` name of a rank. */
  function RankName(r: Rank): string
  {
    match r
    case Ace => "Ace"
    case Two => "Two"
    case Three => "Three"
    case Four => "Four"
    case Five => "Five"
    case Six => "Six"
    case Seven => "Seven"
    case Eight => "Eight"
    case Nine => "Nine"
    case Ten => "Ten"
    case Jack => "Jack"
    case Queen => "Queen"
    case King => "King"
  }

  /** The `Debug` name of a suit (singular; the rendering adds the plural `s`). */
  function SuitName(s: Suit): string
  {
    match s
    case Spade => "Spade"
    case Heart => "Heart"
    case Club => "Club"
    case Diamond => "Diamond"
  }

  /** `Display` for a card: `"{:?} of {:?}s"` over rank and suit, e.g. "Ten of Clubs". */
  function ToString(c: Card): string
  {
    RankName(c.rank) + " of " + SuitName(c.suit) + "s"
  }

  /** Reads a rank back from its name. */
  function RankNamed(name: string): Option<Rank>
  {
    if name == "Ace" then Some(Ace)
    else if name == "Two" then Some(Two)
    else if name == "Three" then Some(Three)
    else if name == "Four" then Some(Four)
    else if name == "Five" then Some(Five)
    else if name == "Six" then Some(Six)
    else if name == "Seven" then Some(Seven)
    else if name == "Eight" then Some(Eight)
    else if name == "Nine" then Some(Nine)
    else if name == "Ten" then Some(Ten)
    else if name == "Jack" then Some(Jack)
    else if name == "Queen" then Some(Queen)
    else if name == "King" then Some(King)
    else None
  }

  /** Reads a suit back from its singular name. */
  function SuitNamed(name: string): Option<Suit>
  {
    if name == "Spade" then Some(Spade)
    else if name == "Heart" then Some(Heart)
    else if name == "Club" then Some(Club)
    else if name == "Diamond" then Some(Diamond)
    else None
  }

  /** The index of the first blank in `s`, or `|s|` if there is none. */
  function FirstSpace(s: string): (i: nat)
    ensures i <= |s|
    ensures forall k :: 0 <= k < i ==> s[k] != ' '
    ensures i < |s| ==> s[i] == ' '
  {
    if s == [] || s[0] == ' ' then 0 else 1 + FirstSpace(s[1..])
  }

  /** The inverse of `ToString`: splits "<Rank> of <Suit>s" at its first blank. */
  function Parse(s: string): Option<Card>
  {
    var i := FirstSpace(s);
    if i + 5 <= |s| && s[i..i + 4] == " of " && s[|s| - 1] == 's' then
      match (RankNamed(s[..i]), SuitNamed(s[i + 4..|s| - 1]))
      case (Some(r), Some(su)) => Some(Card(su, r))
      case _ => None
    else
      None
  }

  /** Rendering a card and reading it back gives the same card. */
  lemma ParseToString(c: Card)
    ensures Parse(ToString(c)) == Some(c)
  {
    var name := RankName(c.rank);
    var suit := SuitName(c.suit);
    var s := ToString(c);
    assert forall k :: 0 <= k < |name| ==> name[k] != ' ' by {
      match c.rank
      case Ace => case Two => case Three => case Four => case Five =>
      case Six => case Seven => case Eight => case Nine => case Ten =>
      case Jack => case Queen => case King =>
    }
    assert s == name + " of " + suit + "s";
    assert s[|name|] == ' ';
    var i := FirstSpace(s);
    assert i == |name|;
    assert s[..i] == name;
    assert s[i..i + 4] == " of ";
    assert s[i + 4..|s| - 1] == suit;
    assert |suit| >= 4 by {
      match c.suit
      case Spade => case Heart => case Club => case Diamond =>
    }
    assert RankNamed(name) == Some(c.rank) by {
      match c.rank
      case Ace => case Two => case Three => case Four => case Five =>
      case Six => case Seven => case Eight => case Nine => case Ten =>
      case Jack => case Queen => case King =>
    }
    assert SuitNamed(suit) == Some(c.suit) by {
      match c.suit
      case Spade => case Heart => case Club => case Diamond =>
    }
  }

  /** Distinct cards render as distinct strings. */
  lemma ToStringInjective(a: Card, b: Card)
    ensures ToString(a) == ToString(b) ==> a == b
  {
    ParseToString(a);
    ParseToString(b);
  }

  /** A rendered card is longer than five characters, so never empty. */
  lemma ToStringNonEmpty(c: Card)
    ensures |ToString(c)| > 5
  {
  }
}
