/** The older game engine (src/blackjack.rs). It has no `start`: a caller runs
    `player_turn`, `dealer_turn` and `determine_winner` in turn. Each turn deals
    into a fresh local hand, and the dealer stands on 17 exactly when the hand
    holds an Ace. Its `Value` is the one of src/score.rs, whose `Points` carries
    only a total: the hand's score with the soft flag dropped.

    As in the current engine, the turns are specified on values (`PlayerFrom`,
    `DealerFrom`, `Winner`) and the `Blackjack` class is proved to follow them. */
module Legacy {
  import opened Wrappers
  import opened Seqs
  import opened Cards
  import opened Decks
  import opened Hands
  import opened Interface
  import S = Scoring
  import E = Engine

  /** `Value` of src/score.rs. */
  datatype Value = Bust | Blackjack | Points(total: nat)

  /** A hand's score with the soft flag dropped. */
  function Project(v: S.Value): Value
  {
    match v
    case Bust => Bust
    case Blackjack => Blackjack
    case Points(total, _) => Points(total)
  }

  /** The score of a hand. */
  function Score(cards: seq<Card>): Value
  {
    Project(S.ScoreOf(cards))
  }

  /** What the older turns read and change; the hand being dealt is local to each turn. */
  datatype Table = Table(deck: seq<Card>, pending: seq<Action>, log: seq<Event>)

  /** A method's result together with the state it leaves; after a panic there is no state. */
  function Settle<T>(r: Outcome<T>, t: Table): Outcome<(T, Table)>
  {
    match r
    case Done(v) => Done((v, t))
    case Panic(f) => Panic(f)
  }

  /** The table of the current engine with the hands dropped. */
  function Forget(t: E.Table): Table
  {
    Table(t.deck, t.pending, t.log)
  }

  /** A turn of the current engine seen through the older engine's types. */
  function Lift(o: Outcome<(S.Value, E.Table)>): Outcome<(Value, Table)>
  {
    match o
    case Panic(f) => Panic(f)
    case Done((v, t)) => Done((Project(v), Forget(t)))
  }

  // ---------------------------------------------------------------- player turn

  /** The `loop` of `player_turn` with `hand` dealt so far: draw (a panic on an empty deck),
      show the hand, score it; stop on `Bust` or `Blackjack`, otherwise ask, and return the
      points on `PlayerStay`. */
  function PlayerFrom(t: Table, hand: seq<Card>): Outcome<(Value, Table)>
    decreases |t.deck|
  {
    if t.deck == [] then Panic(DeckExhausted)
    else
      var held := hand + [E.Top(t.deck)];
      var shown := t.(deck := E.Rest(t.deck), log := t.log + [PlayerHand(held)]);
      var score := Score(held);
      if score == Bust then Done((score, shown.(log := shown.log + [PlayerBust])))
      else if score == Blackjack then Done((score, shown.(log := shown.log + [PlayerBlackjack])))
      else if shown.pending == [] then Panic(NoAction)
      else if shown.pending[0] == PlayerStay then Done((score, shown.(pending := shown.pending[1..])))
      else PlayerFrom(shown.(pending := shown.pending[1..]), hand + [E.Top(t.deck)])
  }

  /** `player_turn`, from a fresh hand. */
  function PlayerPhase(t: Table): Outcome<(Value, Table)>
  {
    PlayerFrom(t, [])
  }

  /** The older player turn is the current one with the soft flag dropped: same draws,
      same events, same answers consumed, same failures. */
  lemma {:induction false} PlayerAgrees(t: E.Table)
    ensures PlayerFrom(Forget(t), t.player) == Lift(E.PlayerPhase(t))
    decreases |t.deck|
  {
    if t.deck != [] {
      var shown := E.PlayerDraw(t);
      var score := S.ScoreOf(shown.player);
      if score.Points? && shown.pending != [] && shown.pending[0] == PlayerHit {
        var next := shown.(pending := shown.pending[1..]);
        assert E.PlayerPhase(t) == E.PlayerPhase(next);
        PlayerAgrees(next);
        assert Forget(next) == Forget(t).(deck := E.Rest(t.deck), log := shown.log, pending := shown.pending[1..]);
      }
    }
  }

  // ---------------------------------------------------------------- dealer turn

  /** `has_aces`: whether any card of the hand is an Ace, looking from the first card. */
  function HasAces(cards: seq<Card>): (b: bool)
    ensures b <==> exists i :: 0 <= i < |cards| && GetRank(cards[i]) == Ace
  {
    if cards == [] then false
    else if GetRank(cards[0]) == Ace then true
    else
      var r := HasAces(cards[1..]);
      assert forall i :: 1 <= i < |cards| ==> cards[1..][i - 1] == cards[i];
      r
  }

  /** The Ace count of the scoring rule is positive exactly when the hand holds an Ace. */
  lemma {:induction false} AceCountPositive(cards: seq<Card>)
    ensures S.AceCount(cards) > 0 <==> exists i :: 0 <= i < |cards| && cards[i].rank == Ace
  {
    if cards != [] {
      var init := cards[..|cards| - 1];
      AceCountPositive(init);
      assert forall i :: 0 <= i < |init| ==> init[i] == cards[i];
    }
  }

  /** `has_aces` agrees with the Ace count of the scoring rule. */
  lemma HasAcesCountsAces(cards: seq<Card>)
    ensures HasAces(cards) <==> S.AceCount(cards) > 0
  {
    AceCountPositive(cards);
  }

  /** The older dealer's rule: stand above 17, or on 17 with any Ace in the hand. */
  predicate Stands(v: nat, cards: seq<Card>)
  {
    (v == 17 && HasAces(cards)) || v > 17
  }

  /** The `loop` of `dealer_turn` with `hand` dealt so far: draw (a panic on an empty deck),
      show the hand, score it; stop on `Bust`, `Blackjack` or a standing total, otherwise
      announce a hit and draw again. */
  function DealerFrom(t: Table, hand: seq<Card>): Outcome<(Value, Table)>
    decreases |t.deck|
  {
    if t.deck == [] then Panic(DeckExhausted)
    else
      var held := hand + [E.Top(t.deck)];
      var shown := t.(deck := E.Rest(t.deck), log := t.log + [DealerHand(held)]);
      match Score(held)
      case Bust => Done((Bust, shown.(log := shown.log + [DealerBust])))
      case Blackjack => Done((Blackjack, shown.(log := shown.log + [DealerBlackjack])))
      case Points(v) =>
        if Stands(v, held) then Done((Points(v), shown.(log := shown.log + [DealerStay])))
        else DealerFrom(shown.(log := shown.log + [DealerHit]), held)
  }

  /** `dealer_turn`, from a fresh hand. */
  function DealerPhase(t: Table): Outcome<(Value, Table)>
  {
    DealerFrom(t, [])
  }

  /** A dealer turn leaves the answers alone, only appends to the log, never fails but for
      want of a card, and stands only on 17 or more. */
  lemma {:induction false} DealerFromEnds(t: Table, hand: seq<Card>)
    ensures DealerFrom(t, hand).Panic? ==> DealerFrom(t, hand).failure == DeckExhausted
    ensures DealerFrom(t, hand).Done? ==>
      var (v, u) := DealerFrom(t, hand).value;
      && u.pending == t.pending
      && |u.log| > |t.log| && u.log[..|t.log|] == t.log
      && |u.deck| < |t.deck|
      && (v.Points? ==> 17 <= v.total < 21 && u.log[|u.log| - 1] == DealerStay)
    decreases |t.deck|
  {
    if t.deck != [] {
      var held := hand + [E.Top(t.deck)];
      var next := t.(deck := E.Rest(t.deck), log := t.log + [DealerHand(held)] + [DealerHit]);
      var score := S.ScoreOf(held);
      if score.Points? && !Stands(score.total, held) {
        assert DealerFrom(t, hand) == DealerFrom(next, held);
        DealerFromEnds(next, held);
        if DealerFrom(t, hand).Done? {
          var u := DealerFrom(t, hand).value.1;
          assert u.log[..|next.log|] == next.log;
          assert u.log[..|t.log|] == next.log[..|t.log|];
        }
      }
    }
  }

  /** The cards a turn took off `t.deck` to leave `u.deck`, in the order drawn. */
  function Drawn(t: Table, u: Table): seq<Card>
    requires |u.deck| <= |t.deck|
  {
    Reversed(t.deck[|u.deck|..])
  }

  /** Dealing `drawn` in order onto `hand`, the older dealer hits on every hand before the
      last: each of them scores points on which `Stands` does not hold. */
  predicate HitsBeforeLast(hand: seq<Card>, drawn: seq<Card>)
    decreases |drawn|
  {
    |drawn| <= 1 ||
    (var held := hand + [drawn[0]];
     && Score(held).Points? && !Stands(Score(held).total, held)
     && HitsBeforeLast(held, drawn[1..]))
  }

  /** The number of times `a` and `b` occur in a two-event log. */
  lemma CountPair(a: Event, b: Event, e: Event)
    ensures E.Count([a, b], e) == (if a == e then 1 else 0) + (if b == e then 1 else 0)
  {
    assert [a, b][..1] == [a] && [a][..0] == [];
    assert E.Count([a], e) == E.Count([], e) + (if a == e then 1 else 0);
    assert E.Count([a, b], e) == E.Count([a], e) + (if b == e then 1 else 0);
  }

  /** The cards of an older dealer turn from `t` with `hand` dealt so far that leaves `u` and
      ends with `v`: it takes at least one card off the top of the deck, in order; `v` is
      the score of the final hand, on which a points result stands by the older rule; the
      dealer hit on every earlier hand. */
  predicate DealerDrew(t: Table, hand: seq<Card>, v: Value, u: Table)
  {
    && |u.deck| < |t.deck| && t.deck[..|u.deck|] == u.deck
    && v == Score(hand + Drawn(t, u))
    && (v.Points? ==> Stands(v.total, hand + Drawn(t, u)))
    && HitsBeforeLast(hand, Drawn(t, u))
  }

  /** What such a turn announces: one `DealerHit` per extra draw and exactly one of
      `DealerBust`, `DealerBlackjack` or `DealerStay`. */
  predicate DealerAnnounced(t: Table, u: Table)
    requires |u.deck| <= |t.deck|
  {
    && E.Count(u.log, DealerHit) == E.Count(t.log, DealerHit) + |Drawn(t, u)| - 1
    && E.Count(u.log, DealerBust) + E.Count(u.log, DealerBlackjack) + E.Count(u.log, DealerStay)
       == E.Count(t.log, DealerBust) + E.Count(t.log, DealerBlackjack) + E.Count(t.log, DealerStay) + 1
  }

  /** The event that ends an older dealer turn on score `v`. */
  function Verdict(v: Value): Event
  {
    match v
    case Bust => DealerBust
    case Blackjack => DealerBlackjack
    case Points(_) => DealerStay
  }

  /** A turn that ends on its first draw. */
  lemma DealerStopsDrew(t: Table, hand: seq<Card>, u: Table)
    requires t.deck != []
    requires u == t.(deck := E.Rest(t.deck),
                     log := t.log + [DealerHand(hand + [E.Top(t.deck)]), Verdict(Score(hand + [E.Top(t.deck)]))])
    requires var v := Score(hand + [E.Top(t.deck)]); v.Points? ==> Stands(v.total, hand + [E.Top(t.deck)])
    ensures DealerDrew(t, hand, Score(hand + [E.Top(t.deck)]), u)
  {
    assert t.deck[|u.deck|..] == [E.Top(t.deck)];
    assert Drawn(t, u) == [E.Top(t.deck)];
  }

  /** What a turn that ends on its first draw announces. */
  lemma DealerStopsAnnounced(t: Table, hand: seq<Card>, u: Table)
    requires t.deck != []
    requires u == t.(deck := E.Rest(t.deck),
                     log := t.log + [DealerHand(hand + [E.Top(t.deck)]), Verdict(Score(hand + [E.Top(t.deck)]))])
    ensures DealerAnnounced(t, u)
  {
    var verdict := Verdict(Score(hand + [E.Top(t.deck)]));
    assert |Drawn(t, u)| == 1;
    forall e | e == DealerHit || e == DealerBust || e == DealerBlackjack || e == DealerStay
      ensures E.Count(u.log, e) == E.Count(t.log, e) + (if e == verdict then 1 else 0)
    {
      E.CountAppend(t.log, [DealerHand(hand + [E.Top(t.deck)]), verdict], e);
      CountPair(DealerHand(hand + [E.Top(t.deck)]), verdict, e);
    }
  }

  /** The cards a turn draws after its first draw follow that first card. */
  lemma DrawnStep(t: Table, next: Table, u: Table)
    requires t.deck != [] && next.deck == E.Rest(t.deck)
    requires |u.deck| < |next.deck| && next.deck[..|u.deck|] == u.deck
    ensures t.deck[..|u.deck|] == u.deck
    ensures Drawn(t, u) == [E.Top(t.deck)] + Drawn(next, u)
  {
    var rest := next.deck[|u.deck|..];
    assert t.deck[..|u.deck|] == next.deck[..|u.deck|];
    assert t.deck[|u.deck|..] == rest + [E.Top(t.deck)];
    ReversedSnoc(rest, E.Top(t.deck));
  }

  /** A turn that hits on its first draw: that draw, then the cards of the rest of the turn. */
  lemma DealerHitsDrew(t: Table, hand: seq<Card>, next: Table, v: Value, u: Table)
    requires t.deck != []
    requires var held := hand + [E.Top(t.deck)];
      Score(held).Points? && !Stands(Score(held).total, held)
    requires next.deck == E.Rest(t.deck)
    requires DealerDrew(next, hand + [E.Top(t.deck)], v, u)
    ensures DealerDrew(t, hand, v, u)
  {
    var top := E.Top(t.deck);
    var later := Drawn(next, u);
    DrawnStep(t, next, u);
    var drawn := Drawn(t, u);
    assert drawn[0] == top && drawn[1..] == later;
    assert HitsBeforeLast(hand, drawn);
    assert hand + drawn == (hand + [top]) + later;
  }

  /** What a turn that hits on its first draw announces: a `DealerHit`, then what the rest
      of the turn announces. */
  lemma DealerHitsAnnounced(t: Table, hand: seq<Card>, next: Table, u: Table)
    requires t.deck != []
    requires next == t.(deck := E.Rest(t.deck),
                        log := t.log + [DealerHand(hand + [E.Top(t.deck)]), DealerHit])
    requires |u.deck| < |next.deck| && next.deck[..|u.deck|] == u.deck && DealerAnnounced(next, u)
    ensures DealerAnnounced(t, u)
  {
    var top := E.Top(t.deck);
    DrawnStep(t, next, u);
    assert |Drawn(t, u)| == |Drawn(next, u)| + 1;
    forall e | e == DealerHit || e == DealerBust || e == DealerBlackjack || e == DealerStay
      ensures E.Count(next.log, e) == E.Count(t.log, e) + (if e == DealerHit then 1 else 0)
    {
      E.CountAppend(t.log, [DealerHand(hand + [top]), DealerHit], e);
      CountPair(DealerHand(hand + [top]), DealerHit, e);
    }
  }

  /** A finished older dealer turn draws its cards from the top of the deck, hits on every
      hand before the last, stands on the last one by the older rule (or busts, or reaches
      21), announces one `DealerHit` per extra draw and exactly one verdict. */
  lemma {:induction false} DealerFromShape(t: Table, hand: seq<Card>)
    requires DealerFrom(t, hand).Done?
    ensures var (v, u) := DealerFrom(t, hand).value;
      DealerDrew(t, hand, v, u) && DealerAnnounced(t, u)
    decreases |t.deck|
  {
    var top := E.Top(t.deck);
    var held := hand + [top];
    var (v, u) := DealerFrom(t, hand).value;
    var score := Score(held);
    if score.Points? && !Stands(score.total, held) {
      var next := t.(deck := E.Rest(t.deck), log := t.log + [DealerHand(held), DealerHit]);
      assert t.log + [DealerHand(held)] + [DealerHit] == next.log;
      assert DealerFrom(t, hand) == DealerFrom(next, held);
      DealerFromShape(next, held);
      DealerHitsDrew(t, hand, next, v, u);
      DealerHitsAnnounced(t, hand, next, u);
    } else {
      assert t.log + [DealerHand(held)] + [Verdict(score)] == t.log + [DealerHand(held), Verdict(score)];
      assert u == t.(deck := E.Rest(t.deck), log := t.log + [DealerHand(held), Verdict(score)]);
      DealerStopsDrew(t, hand, u);
      DealerStopsAnnounced(t, hand, u);
    }
  }

  /** The two dealer rules hold alike except on 17. */
  predicate RulesAgree(cards: seq<Card>)
  {
    var v := S.ScoreOf(cards);
    v.Points? ==> (Stands(v.total, cards) <==> !E.IsDealerHitting(v.total, v.soft))
  }

  /** The rules compared: away from 17 they agree; on a soft 17 the older dealer stands and
      the current one hits; on a 17 without an Ace the older dealer hits and the current one
      stands; on a 17 whose Aces all count 1 both stand. */
  lemma DealerRulesCompare(cards: seq<Card>)
    ensures var v := S.ScoreOf(cards);
      && (v.Points? && v.total != 17 ==> RulesAgree(cards))
      && (v == S.Points(17, true) ==> Stands(17, cards) && E.IsDealerHitting(17, true))
      && (v.Points? && v.total == 17 && S.AceCount(cards) == 0 ==>
            !Stands(17, cards) && !E.IsDealerHitting(17, v.soft))
      && (v == S.Points(17, false) && S.AceCount(cards) > 0 ==>
            Stands(17, cards) && !E.IsDealerHitting(17, false))
  {
    HasAcesCountsAces(cards);
  }

  /** Ace, Six (soft 17): the older dealer stands, the current one hits. Ten, Seven (a 17
      without an Ace): the older dealer hits, the current one stands. */
  lemma DealerRuleExamples(ace: Card, six: Card, ten: Card, seven: Card)
    requires ace.rank == Ace && six.rank == Six && ten.rank == Ten && seven.rank == Seven
    ensures S.ScoreOf([ace, six]) == S.Points(17, true) && Stands(17, [ace, six])
    ensures E.DealerWouldHit(S.ScoreOf([ace, six]))
    ensures S.ScoreOf([ten, seven]) == S.Points(17, false) && !Stands(17, [ten, seven])
    ensures !E.DealerWouldHit(S.ScoreOf([ten, seven]))
  {
    S.ScoreSnoc([], ace); S.ScoreSnoc([ace], six);
    S.ScoreSnoc([], ten); S.ScoreSnoc([ten], seven);
    assert [] + [ace] == [ace] && [ace] + [six] == [ace, six];
    assert [] + [ten] == [ten] && [ten] + [seven] == [ten, seven];
    assert [ten, seven][1..] == [seven] && [seven][1..] == [];
    DealerRulesCompare([ace, six]);
    DealerRulesCompare([ten, seven]);
  }

  /** The two rules agree on every hand that `hand` grows into as `deck` is dealt into it
      from the top. */
  predicate AgreeAhead(hand: seq<Card>, deck: seq<Card>)
    decreases |deck|
  {
    deck != [] ==> RulesAgree(hand + [E.Top(deck)]) && AgreeAhead(hand + [E.Top(deck)], E.Rest(deck))
  }

  /** Where the two rules agree on every hand the deck can deal, the older dealer turn is
      the current one with the soft flag dropped. */
  lemma {:induction false} DealerAgrees(t: E.Table)
    requires AgreeAhead(t.dealer, t.deck)
    ensures DealerFrom(Forget(t), t.dealer) == Lift(E.DealerPhase(t))
    decreases |t.deck|
  {
    if t.deck != [] {
      var shown := E.DealerDraw(t);
      if E.DealerWouldHit(S.ScoreOf(shown.dealer)) {
        var next := shown.(log := shown.log + [DealerHit]);
        assert E.DealerPhase(t) == E.DealerPhase(next);
        DealerAgrees(next);
        assert Forget(next) == Forget(t).(deck := E.Rest(t.deck), log := next.log);
      }
    }
  }

  // ---------------------------------------------------------------- the winner

  /** `determine_winner`: equal values tie, then Blackjack, then Bust, then the higher total.
      With one-field points equal totals are equal values, so some arm always matches and
      the `unreachable!()` arm (`None`) is never taken. */
  function Winner(p: Value, d: Value): (r: Option<Event>)
    ensures r.Some? && E.IsResult(r.value)
  {
    if p == d then Some(Tie)
    else if p == Blackjack then Some(PlayerWin)
    else if d == Blackjack then Some(PlayerLoose)
    else if p == Bust then Some(PlayerLoose)
    else if d == Bust then Some(PlayerWin)
    else if p.total > d.total then Some(PlayerWin)
    else if p.total < d.total then Some(PlayerLoose)
    else None
  }

  /** The older decision is the current engine's intended one: equal totals tie whatever
      their softness. */
  lemma WinnerIsIntended(p: S.Value, d: S.Value)
    ensures Winner(Project(p), Project(d)) == Some(E.IntendedWinner(p, d))
  {
  }

  /** The older decision ranks the results as the current engine's intended one does. */
  lemma WinnerRanks(p: S.Value, d: S.Value)
    requires E.Scored(p) && E.Scored(d)
    ensures Winner(Project(p), Project(d)) == Some(E.Compare(E.Strength(p), E.Strength(d)))
  {
    WinnerIsIntended(p, d);
    E.IntendedWinnerRanks(p, d);
  }

  /** A game of the older engine: the port and the deck. */
  class Blackjack {
    const ui: Ui
    const deck: Deck

    /** The objects' contents as a table. */
    ghost function State(): Table
      reads ui, deck
    {
      Table(deck.cards, ui.pending, ui.log)
    }

    /** `Blackjack::new`. */
    constructor (ui: Ui, deck: Deck)
      ensures this.ui == ui && this.deck == deck
    {
      this.ui := ui;
      this.deck := deck;
    }

    /** `player_turn`: a `loop` over a fresh hand. */
    method PlayerTurn() returns (r: Outcome<Value>)
      modifies ui, deck
      ensures Settle(r, State()) == PlayerPhase(old(State()))
    {
      var hand := new Hand();
      while true
        invariant fresh(hand)
        invariant PlayerFrom(State(), hand.cards) == PlayerPhase(old(State()))
        decreases |deck.cards|
      {
        ghost var before := State();
        ghost var held := hand.cards;
        var drawn := hand.DrawFrom(deck);
        if drawn == CannotDrawFromEmpty {
          return Panic(DeckExhausted);
        }
        ui.Send(PlayerHand(hand.cards));
        var full := hand.Score();
        var score := Project(full);
        assert hand.cards == held + [E.Top(before.deck)];
        assert State() == before.(deck := E.Rest(before.deck), log := before.log + [PlayerHand(hand.cards)]);
        match score {
          case Bust =>
            ui.Send(PlayerBust);
            return Done(score);
          case Blackjack =>
            ui.Send(PlayerBlackjack);
            return Done(score);
          case Points(_) =>
            var action := ui.GetAction();
            if action == None {
              return Panic(NoAction);
            }
            if action == Some(PlayerStay) {
              return Done(score);
            }
        }
      }
    }

    /** `dealer_turn`: a `loop` over a fresh hand. */
    method DealerTurn() returns (r: Outcome<Value>)
      modifies ui, deck
      ensures Settle(r, State()) == DealerPhase(old(State()))
    {
      var hand := new Hand();
      while true
        invariant fresh(hand)
        invariant DealerFrom(State(), hand.cards) == DealerPhase(old(State()))
        decreases |deck.cards|
      {
        ghost var before := State();
        ghost var held := hand.cards;
        var drawn := hand.DrawFrom(deck);
        if drawn == CannotDrawFromEmpty {
          return Panic(DeckExhausted);
        }
        ui.Send(DealerHand(hand.cards));
        var full := hand.Score();
        var score := Project(full);
        assert hand.cards == held + [E.Top(before.deck)];
        assert State() == before.(deck := E.Rest(before.deck), log := before.log + [DealerHand(hand.cards)]);
        match score {
          case Bust =>
            ui.Send(DealerBust);
            return Done(score);
          case Blackjack =>
            ui.Send(DealerBlackjack);
            return Done(score);
          case Points(v) =>
            if (v == 17 && HasAces(hand.cards)) || v > 17 {
              ui.Send(DealerStay);
              return Done(score);
            }
            ui.Send(DealerHit);
        }
      }
    }

    /** `determine_winner`: sends the one result event. */
    method DetermineWinner(p: Value, d: Value)
      modifies ui
      ensures ui.log == old(ui.log) + [Winner(p, d).value] && ui.pending == old(ui.pending)
    {
      if p == d {
        ui.Send(Tie);
      } else if p == Blackjack {
        ui.Send(PlayerWin);
      } else if d == Blackjack {
        ui.Send(PlayerLoose);
      } else if p == Bust {
        ui.Send(PlayerLoose);
      } else if d == Bust {
        ui.Send(PlayerWin);
      } else if p.total > d.total {
        ui.Send(PlayerWin);
      } else if p.total < d.total {
        ui.Send(PlayerLoose);
      } else {
        assert false;
      }
    }
  }
}
