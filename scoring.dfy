/** The value of a blackjack hand (src/behaviour/score.rs) and the scoring rule
    of src/hand.rs, stated as functions over the cards of a hand. */
module Scoring {
  import opened Cards

  /** `Value`: `Points` carries the total and whether an Ace still counts 11.
      The source stores the total in a `u8`; here it is a `nat`. */
  datatype Value = Bust | Blackjack | Points(total: nat, soft: bool)

  /** The first-pass value of a rank: Ace 11, Two to Ten face value, pictures 10. */
  function RankPoints(r: Rank): nat
  {
    match r
    case Ace => 11
    case Two => 2
    case Three => 3
    case Four => 4
    case Five => 5
    case Six => 6
    case Seven => 7
    case Eight => 8
    case Nine => 9
    case Ten => 10
    case Jack => 10
    case Queen => 10
    case King => 10
  }

  /** The sum of `f` over the cards, accumulated from the first card to the last. */
  function Sum<T>(s: seq<T>, f: T -> nat): nat
  {
    if s == [] then 0 else Sum(s[..|s| - 1], f) + f(s[|s| - 1])
  }

  /** What one card adds in the first loop: Ace 11. */
  function CardPoints(c: Card): nat
  {
    RankPoints(c.rank)
  }

  /** What one card adds to the Ace count. */
  function AceMark(c: Card): nat
  {
    if c.rank == Ace then 1 else 0
  }

  /** What one card is worth with Aces counted 1. */
  function HardPoints(c: Card): nat
  {
    if c.rank == Ace then 1 else RankPoints(c.rank)
  }

  /** The total with every Ace counted 11 (what the `for` loop accumulates). */
  function FaceSum(cards: seq<Card>): nat
  {
    Sum(cards, CardPoints)
  }

  /** The number of Aces (what the `for` loop counts). */
  function AceCount(cards: seq<Card>): nat
  {
    Sum(cards, AceMark)
  }

  /** The total with every Ace counted 1: the smallest total the hand can have. */
  function HardTotal(cards: seq<Card>): nat
  {
    Sum(cards, HardPoints)
  }

  /** The ranks of the cards, in draw order. */
  function RanksOf(cards: seq<Card>): (r: seq<Rank>)
    ensures |r| == |cards|
    ensures forall i :: 0 <= i < |cards| ==> r[i] == cards[i].rank
  {
    if cards == [] then [] else RanksOf(cards[..|cards| - 1]) + [cards[|cards| - 1].rank]
  }

  /** The `while` loop: turn one Ace from 11 into 1 at a time, only while the total is over 21.
      The result is the final total and the number of Aces still counted 11. */
  function Demote(points: nat, aces: nat): (r: (nat, nat))
    ensures r.1 <= aces
    ensures points >= 10 * (aces - r.1) && r.0 == points - 10 * (aces - r.1)
    ensures r.0 > 21 ==> r.1 == 0
    ensures r.1 < aces ==> r.0 + 10 > 21
  {
    if points > 21 && aces > 0 then Demote(points - 10, aces - 1) else (points, aces)
  }

  /** The final `match` on the total against 21. */
  function Classify(points: nat, aces: nat): Value
  {
    if points < 21 then Points(points, aces > 0)
    else if points > 21 then Bust
    else Blackjack
  }

  /** `Hand::score`. */
  function ScoreOf(cards: seq<Card>): (v: Value)
    ensures v.Points? ==> v.total < 21
    ensures v.Points? && v.soft ==> AceCount(cards) > 0
  {
    var (points, aces) := Demote(FaceSum(cards), AceCount(cards));
    Classify(points, aces)
  }

  /** Every total the hand can be given by counting each Ace as 1 or as 11. */
  function Totals(cards: seq<Card>): set<nat>
  {
    set k | 0 <= k <= AceCount(cards) :: HardTotal(cards) + 10 * k
  }

  /** Counting all Aces as 11 adds 10 per Ace to the hard total; every card is worth at least 1. */
  lemma {:induction false} FaceSumSplit(cards: seq<Card>)
    ensures FaceSum(cards) == HardTotal(cards) + 10 * AceCount(cards)
    ensures HardTotal(cards) >= |cards|
  {
    if cards != [] {
      FaceSumSplit(cards[..|cards| - 1]);
    }
  }

  /** The score is the best total: the largest one not over 21, `Bust` when all of them are
      over 21, `Blackjack` when 21 is among them. `soft` says an Ace still counts 11. */
  lemma ScoreIsBestTotal(cards: seq<Card>)
    ensures ScoreOf(cards) == Bust <==> forall t :: t in Totals(cards) ==> t > 21
    ensures ScoreOf(cards) == Blackjack <==> 21 in Totals(cards)
    ensures ScoreOf(cards).Points? ==>
      && ScoreOf(cards).total in Totals(cards)
      && (forall t :: t in Totals(cards) && t <= 21 ==> t <= ScoreOf(cards).total)
      && (ScoreOf(cards).soft <==> ScoreOf(cards).total > HardTotal(cards))
      && HardTotal(cards) <= ScoreOf(cards).total
  {
    var h, n := HardTotal(cards), AceCount(cards);
    FaceSumSplit(cards);
    var (p, k) := Demote(FaceSum(cards), n);
    assert p == h + 10 * k;
    assert p in Totals(cards);
    forall t | t in Totals(cards) && t <= 21 ensures t <= p {
      var j :| 0 <= j <= n && t == h + 10 * j;
    }
    if p > 21 {
      forall t | t in Totals(cards) ensures t > 21 {
        var j :| 0 <= j <= n && t == h + 10 * j;
      }
    }
  }

  /** A hand is `Bust` exactly when even counting every Ace as 1 exceeds 21. */
  lemma BustIffHardOver21(cards: seq<Card>)
    ensures ScoreOf(cards) == Bust <==> HardTotal(cards) > 21
  {
    ScoreIsBestTotal(cards);
    assert HardTotal(cards) + 10 * 0 in Totals(cards);
  }

  /** Without Aces the score is the plain face-value sum, never soft. */
  lemma NoAcesIsHard(cards: seq<Card>)
    requires AceCount(cards) == 0
    ensures FaceSum(cards) == HardTotal(cards)
    ensures ScoreOf(cards) == Bust <==> FaceSum(cards) > 21
    ensures ScoreOf(cards) == Blackjack <==> FaceSum(cards) == 21
    ensures FaceSum(cards) < 21 ==> ScoreOf(cards) == Points(FaceSum(cards), false)
  {
    FaceSumSplit(cards);
  }

  /** A sum over a concatenation is the sum of the sums. */
  lemma {:induction false} SumAppend<T>(s: seq<T>, t: seq<T>, f: T -> nat)
    ensures Sum(s + t, f) == Sum(s, f) + Sum(t, f)
  {
    if t != [] {
      var init := t[..|t| - 1];
      SumAppend(s, init, f);
      assert (s + t)[..|s + t| - 1] == s + init;
    } else {
      assert s + t == s;
    }
  }

  /** A sum does not depend on the order of its terms. */
  lemma {:induction false} SumPermutation<T>(a: seq<T>, b: seq<T>, f: T -> nat)
    requires multiset(a) == multiset(b)
    ensures Sum(a, f) == Sum(b, f)
    decreases |a|
  {
    if a != [] {
      var init, x := a[..|a| - 1], a[|a| - 1];
      assert a == init + [x];
      assert x in multiset(b);
      var i :| 0 <= i < |b| && b[i] == x;
      var left, right := b[..i], b[i + 1..];
      assert b == left + [x] + right;
      SumAppend(left + [x], right, f);
      SumAppend(left, right, f);
      SumAppend(left, [x], f);
      assert Sum([x], f) == f(x) by {
        assert [x][..0] == [];
      }
      assert multiset(init) == multiset(left + right) by {
        assert multiset(a) == multiset(init) + multiset{x};
        assert multiset(b) == multiset(left) + multiset{x} + multiset(right);
        assert multiset(left + right) == multiset(left) + multiset(right);
        assert multiset(init) == multiset(a) - multiset{x};
        assert multiset(left + right) == multiset(b) - multiset{x};
      }
      SumPermutation(init, left + right, f);
    }
  }

  /** Summing a weight that depends only on the rank is summing over the ranks. */
  lemma {:induction false} SumByRank(cards: seq<Card>, f: Card -> nat, g: Rank -> nat)
    requires forall c :: f(c) == g(c.rank)
    ensures Sum(cards, f) == Sum(RanksOf(cards), g)
  {
    if cards != [] {
      var init := cards[..|cards| - 1];
      SumByRank(init, f, g);
      assert RanksOf(cards)[..|cards| - 1] == RanksOf(init);
    }
  }

  /** `AceMark` seen on the rank alone. */
  function RankAce(r: Rank): nat
  {
    if r == Ace then 1 else 0
  }

  /** The score depends only on the multiset of ranks: neither on suits nor on draw order. */
  lemma ScoreDependsOnRanks(a: seq<Card>, b: seq<Card>)
    requires multiset(RanksOf(a)) == multiset(RanksOf(b))
    ensures ScoreOf(a) == ScoreOf(b)
  {
    SumByRank(a, CardPoints, RankPoints);
    SumByRank(b, CardPoints, RankPoints);
    SumPermutation(RanksOf(a), RanksOf(b), RankPoints);
    SumByRank(a, AceMark, RankAce);
    SumByRank(b, AceMark, RankAce);
    SumPermutation(RanksOf(a), RanksOf(b), RankAce);
  }

  /** Suits do not matter: cards with the same ranks in the same order score the same. */
  lemma ScoreIgnoresSuits(a: seq<Card>, b: seq<Card>)
    requires |a| == |b|
    requires forall i :: 0 <= i < |a| ==> a[i].rank == b[i].rank
    ensures ScoreOf(a) == ScoreOf(b)
  {
    assert RanksOf(a) == RanksOf(b);
    ScoreDependsOnRanks(a, b);
  }

  /** The order in which the same cards were drawn does not matter. */
  lemma ScoreIgnoresOrder(a: seq<Card>, b: seq<Card>)
    requires multiset(a) == multiset(b)
    ensures ScoreOf(a) == ScoreOf(b)
  {
    SumPermutation(a, b, CardPoints);
    SumPermutation(a, b, AceMark);
  }

  /** Adding a card adds its points and its Ace mark. */
  lemma ScoreSnoc(cards: seq<Card>, c: Card)
    ensures FaceSum(cards + [c]) == FaceSum(cards) + CardPoints(c)
    ensures AceCount(cards + [c]) == AceCount(cards) + AceMark(c)
  {
    assert (cards + [c])[..|cards|] == cards;
  }

  /** The one- and two-card cases of the unit tests: Three is 3, Ace Queen is 21. */
  lemma ScoreExamples()
    ensures ScoreOf([Card(Club, Three)]) == Points(3, false)
    ensures ScoreOf([Card(Club, Ace), Card(Spade, Queen)]) == Blackjack
  {
  }

  /** The three-card cases of the unit tests: Four, Five, Jack is 19; King, Six, Five is 21
      (`Blackjack` need not be a two-card natural); King, Six, Seven busts. */
  lemma ThreeCardExamples()
    ensures ScoreOf([Card(Club, Four), Card(Heart, Five), Card(Diamond, Jack)]) == Points(19, false)
    ensures ScoreOf([Card(Club, King), Card(Spade, Six), Card(Diamond, Five)]) == Blackjack
    ensures ScoreOf([Card(Club, King), Card(Spade, Six), Card(Diamond, Seven)]) == Bust
  {
    ThreeCards(Card(Club, Four), Card(Heart, Five), Card(Diamond, Jack));
    ThreeCards(Card(Club, King), Card(Spade, Six), Card(Diamond, Five));
    ThreeCards(Card(Club, King), Card(Spade, Six), Card(Diamond, Seven));
  }

  /** Cases of the Ace rule that no unit test covers: Ace, Seven is a soft 18; two Aces a
      soft 12 (one of them counted as 1); Ace, Seven, Nine a hard 17, the Ace counted as 1
      because 11 would bust; the empty hand scores a hard 0. */
  lemma AceExamples()
    ensures ScoreOf([Card(Club, Ace), Card(Spade, Seven)]) == Points(18, true)
    ensures ScoreOf([Card(Club, Ace), Card(Spade, Ace)]) == Points(12, true)
    ensures ScoreOf([Card(Club, Ace), Card(Spade, Seven), Card(Heart, Nine)]) == Points(17, false)
    ensures ScoreOf([]) == Points(0, false)
  {
    var aceSeven := [Card(Club, Ace), Card(Spade, Seven)];
    var aces := [Card(Club, Ace), Card(Spade, Ace)];
    var aceSevenNine := [Card(Club, Ace), Card(Spade, Seven), Card(Heart, Nine)];
    assert FaceSum(aceSeven) == 18 && AceCount(aceSeven) == 1 by {
      ScoreSnoc([Card(Club, Ace)], Card(Spade, Seven));
      assert [Card(Club, Ace)] + [Card(Spade, Seven)] == aceSeven;
    }
    assert FaceSum(aces) == 22 && AceCount(aces) == 2 by {
      ScoreSnoc([Card(Club, Ace)], Card(Spade, Ace));
      assert [Card(Club, Ace)] + [Card(Spade, Ace)] == aces;
    }
    assert FaceSum(aceSevenNine) == 27 && AceCount(aceSevenNine) == 1 by {
      ThreeCards(Card(Club, Ace), Card(Spade, Seven), Card(Heart, Nine));
    }
    assert Demote(22, 2) == (12, 1);
    assert Demote(27, 1) == (17, 0);
  }

  /** Unfolds the first loop over a three-card hand. */
  lemma ThreeCards(a: Card, b: Card, c: Card)
    ensures FaceSum([a, b, c]) == CardPoints(a) + CardPoints(b) + CardPoints(c)
    ensures AceCount([a, b, c]) == AceMark(a) + AceMark(b) + AceMark(c)
  {
    assert [a, b, c] == [a] + [b, c];
    assert [b, c] == [b] + [c];
    assert [a][..0] == [] && [b][..0] == [] && [c][..0] == [];
    SumAppend([a], [b, c], CardPoints);
    SumAppend([b], [c], CardPoints);
    SumAppend([a], [b, c], AceMark);
    SumAppend([b], [c], AceMark);
  }
}
