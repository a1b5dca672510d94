/** The current game engine (src/backend/blackjack.rs): one round of single-deck
    blackjack, player turn then dealer turn then the winner, over a shared deck,
    two hands and the presentation port.

    The round is specified on values: a `Table` holds the deck, both hands, the
    scripted answers and the event log, and `PlayerPhase`, `DealerPhase`,
    `Winner` and `Round` say what each step does to it. The `Blackjack` class
    below owns the same state as objects and its methods are proved to follow
    those functions. */
module Engine {
  import opened Wrappers
  import opened Seqs
  import opened Cards
  import opened Scoring
  import opened Decks
  import opened Hands
  import opened Interface

  /** Everything a round reads and changes. */
  datatype Table = Table(
    deck: seq<Card>,
    player: seq<Card>,
    dealer: seq<Card>,
    pending: seq<Action>,
    log: seq<Event>)

  /** A method's result together with the state it leaves; after a panic there is no state. */
  function Settle<T>(r: Outcome<T>, t: Table): Outcome<(T, Table)>
  {
    match r
    case Done(v) => Done((v, t))
    case Panic(f) => Panic(f)
  }

  /** The card `pop` takes. */
  function Top(deck: seq<Card>): Card
    requires deck != []
  {
    deck[|deck| - 1]
  }

  /** What `pop` leaves. */
  function Rest(deck: seq<Card>): seq<Card>
    requires deck != []
  {
    deck[..|deck| - 1]
  }

  // ---------------------------------------------------------------- player turn

  /** The player's draw: the top card moves into the hand and the hand is shown. */
  function PlayerDraw(t: Table): Table
    requires t.deck != []
  {
    var hand := t.player + [Top(t.deck)];
    t.(deck := Rest(t.deck), player := hand, log := t.log + [PlayerHand(hand)])
  }

  /** `player_turn`: draw (a panic on an empty deck), show the hand, score it;
      stop on `Bust` or `Blackjack`, otherwise ask, and draw again on `PlayerHit`. */
  function PlayerPhase(t: Table): Outcome<(Value, Table)>
    decreases |t.deck|
  {
    if t.deck == [] then Panic(DeckExhausted)
    else
      var shown := PlayerDraw(t);
      var score := ScoreOf(shown.player);
      if score == Bust then Done((score, shown.(log := shown.log + [PlayerBust])))
      else if score == Blackjack then Done((score, shown.(log := shown.log + [PlayerBlackjack])))
      else if shown.pending == [] then Panic(NoAction)
      else if shown.pending[0] == PlayerHit then PlayerPhase(shown.(pending := shown.pending[1..]))
      else Done((score, shown.(pending := shown.pending[1..])))
  }

  /** One `PlayerHand` event per card drawn, each showing the hand after that draw. */
  function PlayerLog(base: seq<Card>, drawn: seq<Card>): seq<Event>
    decreases |drawn|
  {
    if drawn == [] then []
    else [PlayerHand(base + [drawn[0]])] + PlayerLog(base + [drawn[0]], drawn[1..])
  }

  /** The event that closes a player turn. */
  function PlayerVerdict(v: Value): seq<Event>
  {
    match v
    case Bust => [PlayerBust]
    case Blackjack => [PlayerBlackjack]
    case Points(_, _) => []
  }

  /** `n` hits in a row. */
  function Hits(n: nat): seq<Action>
  {
    if n == 0 then [] else [PlayerHit] + Hits(n - 1)
  }

  /** The answer that ends a turn standing on points; a bust or blackjack asks nothing. */
  function StayFor(v: Value): seq<Action>
  {
    if v.Points? then [PlayerStay] else []
  }

  /** The cards of a player turn from `t` that leaves `u` and ends with score `v`: the
      hand gains at least one card, the cards it gains come off the top of the deck in
      draw order, the dealer's hand stays as it is, every hand before the last scores
      points and the last one scores `v`. */
  ghost predicate PlayerDealt(t: Table, v: Value, u: Table)
  {
    && |t.player| < |u.player|
    && u.player[..|t.player|] == t.player
    && t.deck == u.deck + Reversed(u.player[|t.player|..])
    && u.dealer == t.dealer
    && v == ScoreOf(u.player)
    && (forall k :: |t.player| < k < |u.player| ==> ScoreOf(u.player[..k]).Points?)
  }

  /** What that turn tells and asks: the hand after each draw, then the verdict; a hit
      for every draw but the last, a stay after a last draw that scores points. */
  ghost predicate PlayerTold(t: Table, v: Value, u: Table)
    requires |t.player| < |u.player|
  {
    && u.log == t.log + PlayerLog(t.player, u.player[|t.player|..]) + PlayerVerdict(v)
    && t.pending == Hits(|u.player| - |t.player| - 1) + StayFor(v) + u.pending
  }

  /** `u` is what a player turn from `t` leaves when it ends with score `v`. */
  ghost predicate PlayerTurnFrom(t: Table, v: Value, u: Table)
  {
    PlayerDealt(t, v, u) && PlayerTold(t, v, u)
  }

  // ---------------------------------------------------------------- dealer turn

  /** `is_dealer_hitting`: below 17, or a soft 17. */
  predicate IsDealerHitting(points: nat, soft: bool)
  {
    points < 17 || (soft && points == 17)
  }

  /** The score makes the dealer draw again. */
  predicate DealerWouldHit(v: Value)
  {
    v.Points? && IsDealerHitting(v.total, v.soft)
  }

  /** The dealer's draw: the top card moves into the hand and the hand is shown. */
  function DealerDraw(t: Table): Table
    requires t.deck != []
  {
    var hand := t.dealer + [Top(t.deck)];
    t.(deck := Rest(t.deck), dealer := hand, log := t.log + [DealerHand(hand)])
  }

  /** `dealer_turn`: draw (a panic on an empty deck), show the hand, score it;
      stop on `Bust`, `Blackjack` or a standing total, otherwise announce a hit and draw again. */
  function DealerPhase(t: Table): Outcome<(Value, Table)>
    decreases |t.deck|
  {
    if t.deck == [] then Panic(DeckExhausted)
    else
      var shown := DealerDraw(t);
      var score := ScoreOf(shown.dealer);
      match score
      case Bust => Done((score, shown.(log := shown.log + [DealerBust])))
      case Blackjack => Done((score, shown.(log := shown.log + [DealerBlackjack])))
      case Points(p, soft) =>
        if IsDealerHitting(p, soft) then DealerPhase(shown.(log := shown.log + [DealerHit]))
        else Done((score, shown.(log := shown.log + [DealerStay])))
  }

  /** One `DealerHand` event per card drawn, with a `DealerHit` between consecutive ones. */
  function DealerLog(base: seq<Card>, drawn: seq<Card>): seq<Event>
    requires drawn != []
    decreases |drawn|
  {
    [DealerHand(base + [drawn[0]])]
      + (if |drawn| == 1 then [] else [DealerHit] + DealerLog(base + [drawn[0]], drawn[1..]))
  }

  /** The event that closes a dealer turn. */
  function DealerVerdict(v: Value): seq<Event>
  {
    match v
    case Bust => [DealerBust]
    case Blackjack => [DealerBlackjack]
    case Points(_, _) => [DealerStay]
  }

  /** The cards of a dealer turn from `t` that leaves `u` and ends with score `v`: the
      hand gains at least one card, the cards it gains come off the top of the deck in
      draw order, the player's hand and the answers stay as they are, the rule hits on
      every hand before the last and not on the last one, which scores `v`. */
  ghost predicate DealerDealt(t: Table, v: Value, u: Table)
  {
    && |t.dealer| < |u.dealer|
    && u.dealer[..|t.dealer|] == t.dealer
    && t.deck == u.deck + Reversed(u.dealer[|t.dealer|..])
    && u.player == t.player
    && u.pending == t.pending
    && v == ScoreOf(u.dealer)
    && !DealerWouldHit(v)
    && (forall k :: |t.dealer| < k < |u.dealer| ==> DealerWouldHit(ScoreOf(u.dealer[..k])))
  }

  /** What that turn tells: the hand after each draw with a `DealerHit` between two
      draws, then the verdict. */
  ghost predicate DealerTold(t: Table, v: Value, u: Table)
    requires |t.dealer| < |u.dealer|
  {
    u.log == t.log + DealerLog(t.dealer, u.dealer[|t.dealer|..]) + DealerVerdict(v)
  }

  /** `u` is what a dealer turn from `t` leaves when it ends with score `v`. */
  ghost predicate DealerTurnFrom(t: Table, v: Value, u: Table)
  {
    DealerDealt(t, v, u) && DealerTold(t, v, u)
  }

  // ---------------------------------------------------------------- the winner

  /** `determine_winner` as written: the derived equality on `Value` compares the soft
      flag too, so equal totals of different softness match no arm (`None`, the
      `unreachable!()` panic). */
  function Winner(p: Value, d: Value): Option<Event>
  {
    if p == d then Some(Tie)
    else if p == Blackjack then Some(PlayerWin)
    else if d == Blackjack then Some(PlayerLoose)
    else if p == Bust then Some(PlayerLoose)
    else if d == Bust then Some(PlayerWin)
    else if p.total > d.total then Some(PlayerWin)
    else if p.total < d.total then Some(PlayerLoose)
    else None
  }

  /** The winner decision as evidently intended: equal totals tie whatever their softness. */
  function IntendedWinner(p: Value, d: Value): Event
  {
    if p == d then Tie
    else if p == Blackjack then PlayerWin
    else if d == Blackjack then PlayerLoose
    else if p == Bust then PlayerLoose
    else if d == Bust then PlayerWin
    else if p.total > d.total then PlayerWin
    else if p.total < d.total then PlayerLoose
    else Tie
  }

  /** A score `score` can return: points are always below 21. */
  predicate Scored(v: Value)
  {
    v.Points? ==> v.total < 21
  }

  /** The order of results: a bust is worst, then each total, then 21. */
  function Strength(v: Value): nat
  {
    match v
    case Bust => 0
    case Points(total, _) => total + 1
    case Blackjack => 22
  }

  /** The result for the player when their result ranks `p` and the dealer's `d`. */
  function Compare(p: nat, d: nat): Event
  {
    if p == d then Tie else if p > d then PlayerWin else PlayerLoose
  }

  /** The same decision from the dealer's side. */
  function Flip(e: Event): Event
  {
    if e == PlayerWin then PlayerLoose else if e == PlayerLoose then PlayerWin else e
  }

  /** A result event. */
  predicate IsResult(e: Event)
  {
    e == Tie || e == PlayerWin || e == PlayerLoose
  }

  // ---------------------------------------------------------------- the round

  /** `start`: the player turn, then the dealer turn, then the winner; a panic ends the round. */
  function Round(t: Table): Outcome<Table>
  {
    match PlayerPhase(t)
    case Panic(f) => Panic(f)
    case Done((p, afterPlayer)) =>
      match DealerPhase(afterPlayer)
      case Panic(f) => Panic(f)
      case Done((d, afterDealer)) =>
        match Winner(p, d)
        case None => Panic(Unreachable)
        case Some(e) => Done(afterDealer.(log := afterDealer.log + [e]))
  }

  /** The round with the evidently intended winner decision. */
  function IntendedRound(t: Table): Outcome<Table>
  {
    match PlayerPhase(t)
    case Panic(f) => Panic(f)
    case Done((p, afterPlayer)) =>
      match DealerPhase(afterPlayer)
      case Panic(f) => Panic(f)
      case Done((d, afterDealer)) => Done(afterDealer.(log := afterDealer.log + [IntendedWinner(p, d)]))
  }

  /** A game: the port, the deck and two distinct hands, all borrowed mutably. */
  class Blackjack {
    const ui: Ui
    const deck: Deck
    const playerHand: Hand
    const dealerHand: Hand

    /** Two `&mut` borrows never alias. */
    ghost predicate Valid()
    {
      playerHand != dealerHand
    }

    /** The objects' contents as a table. */
    ghost function State(): Table
      reads ui, deck, playerHand, dealerHand
    {
      Table(deck.cards, playerHand.cards, dealerHand.cards, ui.pending, ui.log)
    }

    /** `Blackjack::new`. */
    constructor (ui: Ui, deck: Deck, playerHand: Hand, dealerHand: Hand)
      requires playerHand != dealerHand
      ensures this.ui == ui && this.deck == deck
      ensures this.playerHand == playerHand && this.dealerHand == dealerHand
      ensures Valid()
    {
      this.ui := ui;
      this.deck := deck;
      this.playerHand := playerHand;
      this.dealerHand := dealerHand;
    }

    /** `start`. */
    method Start() returns (r: Outcome<()>)
      requires Valid()
      modifies ui, deck, playerHand, dealerHand
      ensures r.Panic? <==> Round(old(State())).Panic?
      ensures r.Panic? ==> r.failure == Round(old(State())).failure
      ensures r.Done? ==> State() == Round(old(State())).value
    {
      var p := PlayerTurn();
      if p.Panic? {
        return Panic(p.failure);
      }
      var d := DealerTurn();
      if d.Panic? {
        return Panic(d.failure);
      }
      r := DetermineWinner(p.value, d.value);
    }

    /** `player_turn`, recursive as in the source. */
    method PlayerTurn() returns (r: Outcome<Value>)
      requires Valid()
      modifies ui, deck, playerHand
      ensures Settle(r, State()) == PlayerPhase(old(State()))
      decreases |deck.cards|
    {
      var drawn := playerHand.DrawFrom(deck);
      if drawn == CannotDrawFromEmpty {
        return Panic(DeckExhausted);
      }
      ui.Send(PlayerHand(playerHand.cards));
      var score := playerHand.Score();
      match score {
        case Bust => ui.Send(PlayerBust);
        case Blackjack => ui.Send(PlayerBlackjack);
        case Points(_, _) =>
          var action := ui.GetAction();
          if action == None {
            return Panic(NoAction);
          }
          if action == Some(PlayerHit) {
            r := PlayerTurn();
            return;
          }
      }
      r := Done(score);
    }

    /** `dealer_turn`, a `loop` as in the source. */
    method DealerTurn() returns (r: Outcome<Value>)
      requires Valid()
      modifies ui, deck, dealerHand
      ensures Settle(r, State()) == DealerPhase(old(State()))
    {
      while true
        invariant DealerPhase(State()) == DealerPhase(old(State()))
        decreases |deck.cards|
      {
        ghost var before := State();
        var drawn := dealerHand.DrawFrom(deck);
        if drawn == CannotDrawFromEmpty {
          return Panic(DeckExhausted);
        }
        ui.Send(DealerHand(dealerHand.cards));
        var score := dealerHand.Score();
        assert State() == DealerDraw(before);
        match score {
          case Bust => ui.Send(DealerBust);
          case Blackjack => ui.Send(DealerBlackjack);
          case Points(s, soft) =>
            if IsDealerHitting(s, soft) {
              ui.Send(DealerHit);
              DealerHitStep(before);
              continue;
            }
            ui.Send(DealerStay);
        }
        DealerStopStep(before);
        return Done(score);
      }
    }

    /** `determine_winner`: sends the one result event, or panics where no arm matches. */
    method DetermineWinner(p: Value, d: Value) returns (r: Outcome<()>)
      modifies ui
      ensures Winner(p, d).None? ==> r == Panic(Unreachable) && ui.log == old(ui.log)
      ensures Winner(p, d).Some? ==> r == Done(()) && ui.log == old(ui.log) + [Winner(p, d).value]
      ensures ui.pending == old(ui.pending)
    {
      if p == d {
        ui.Send(Tie);
      } else if p == Blackjack {
        ui.Send(PlayerWin);
      } else if d == Blackjack {
        ui.Send(PlayerLoose);
      } else if p == Bust {
        ui.Send(PlayerLoose);
      } else if d == Bust {
        ui.Send(PlayerWin);
      } else if p.total > d.total {
        ui.Send(PlayerWin);
      } else if p.total < d.total {
        ui.Send(PlayerLoose);
      } else {
        return Panic(Unreachable);
      }
      r := Done(());
    }
  }

  // ---------------------------------------------------------------- counting events

  /** How often `e` occurs in `log`. */
  function Count(log: seq<Event>, e: Event): nat
  {
    if log == [] then 0 else Count(log[..|log| - 1], e) + (if log[|log| - 1] == e then 1 else 0)
  }

  lemma {:induction false} CountAppend(a: seq<Event>, b: seq<Event>, e: Event)
    ensures Count(a + b, e) == Count(a, e) + Count(b, e)
  {
    if b != [] {
      assert (a + b)[..|a + b| - 1] == a + b[..|b| - 1];
      CountAppend(a, b[..|b| - 1], e);
    } else {
      assert a + b == a;
    }
  }

  lemma {:induction false} CountAbsent(log: seq<Event>, e: Event)
    requires forall i :: 0 <= i < |log| ==> log[i] != e
    ensures Count(log, e) == 0
  {
    if log != [] {
      assert forall i :: 0 <= i < |log| - 1 ==> log[..|log| - 1][i] == log[i];
      CountAbsent(log[..|log| - 1], e);
    }
  }

  /** The number of result events (`Tie`, `PlayerWin`, `PlayerLoose`) in `log`. */
  function Results(log: seq<Event>): nat
  {
    Count(log, Tie) + Count(log, PlayerWin) + Count(log, PlayerLoose)
  }

  lemma ResultsAppend(a: seq<Event>, b: seq<Event>)
    ensures Results(a + b) == Results(a) + Results(b)
  {
    CountAppend(a, b, Tie);
    CountAppend(a, b, PlayerWin);
    CountAppend(a, b, PlayerLoose);
  }

  /** A log holding no result event counts none. */
  lemma ResultsAbsent(log: seq<Event>)
    requires forall i :: 0 <= i < |log| ==> !IsResult(log[i])
    ensures Results(log) == 0
  {
    CountAbsent(log, Tie);
    CountAbsent(log, PlayerWin);
    CountAbsent(log, PlayerLoose);
  }

  // ---------------------------------------------------------------- the logs of the turns

  /** The player's log shows the hand after each draw, in order. */
  lemma {:induction false} PlayerLogSnapshots(base: seq<Card>, drawn: seq<Card>)
    ensures |PlayerLog(base, drawn)| == |drawn|
    ensures forall k :: 0 <= k < |drawn| ==> PlayerLog(base, drawn)[k] == PlayerHand(base + drawn[..k + 1])
    decreases |drawn|
  {
    if drawn != [] {
      var next := base + [drawn[0]];
      PlayerLogSnapshots(next, drawn[1..]);
      forall k | 0 <= k < |drawn| ensures PlayerLog(base, drawn)[k] == PlayerHand(base + drawn[..k + 1]) {
        if k > 0 {
          assert PlayerLog(base, drawn)[k] == PlayerLog(next, drawn[1..])[k - 1];
          assert next + drawn[1..][..k] == base + drawn[..k + 1];
        }
      }
    }
  }

  /** The dealer's log shows the hand after each draw, with a `DealerHit` between two draws. */
  lemma {:induction false} DealerLogSnapshots(base: seq<Card>, drawn: seq<Card>)
    requires drawn != []
    ensures |DealerLog(base, drawn)| == 2 * |drawn| - 1
    ensures forall j :: 0 <= j < |DealerLog(base, drawn)| ==>
      if j % 2 == 0 then DealerLog(base, drawn)[j] == DealerHand(base + drawn[..j / 2 + 1])
      else DealerLog(base, drawn)[j] == DealerHit
    decreases |drawn|
  {
    var log := DealerLog(base, drawn);
    if |drawn| == 1 {
      assert drawn[..1] == drawn;
    } else {
      var next := base + [drawn[0]];
      var tail := DealerLog(next, drawn[1..]);
      DealerLogSnapshots(next, drawn[1..]);
      DealerLogFirst(base, drawn);
      forall j | 2 <= j < |log| ensures
        if j % 2 == 0 then log[j] == DealerHand(base + drawn[..j / 2 + 1]) else log[j] == DealerHit
      {
        assert log[j] == tail[j - 2];
        assert (j - 2) % 2 == j % 2 && (j - 2) / 2 == j / 2 - 1;
        assert next + drawn[1..][..j / 2] == base + drawn[..j / 2 + 1];
      }
      assert drawn[..1] == [drawn[0]];
    }
  }

  /** The dealer announces one hit fewer than it draws cards. */
  lemma {:induction false} DealerLogHits(base: seq<Card>, drawn: seq<Card>)
    requires drawn != []
    ensures Count(DealerLog(base, drawn), DealerHit) == |drawn| - 1
    decreases |drawn|
  {
    var log := DealerLog(base, drawn);
    if |drawn| == 1 {
      assert log == [DealerHand(base + [drawn[0]])];
      CountAbsent(log, DealerHit);
    } else {
      var next := base + [drawn[0]];
      var tail := DealerLog(next, drawn[1..]);
      DealerLogHits(next, drawn[1..]);
      DealerLogFirst(base, drawn);
      CountAppend([DealerHand(next), DealerHit], tail, DealerHit);
      CountAppend([DealerHand(next)], [DealerHit], DealerHit);
      assert [DealerHand(next)] + [DealerHit] == [DealerHand(next), DealerHit];
    }
  }

  // ---------------------------------------------------------------- what the turns do

  /** A turn that stops after one draw. */
  lemma PlayerTurnStops(t: Table, v: Value, u: Table)
    requires t.deck != [] && v == ScoreOf(t.player + [Top(t.deck)])
    requires v.Points? ==> t.pending != [] && t.pending[0] == PlayerStay
    requires u == t.(deck := Rest(t.deck), player := t.player + [Top(t.deck)],
                     log := t.log + [PlayerHand(t.player + [Top(t.deck)])] + PlayerVerdict(v),
                     pending := t.pending[|StayFor(v)|..])
    ensures PlayerTurnFrom(t, v, u)
  {
    var c := Top(t.deck);
    assert u.player[|t.player|..] == [c];
    assert PlayerDealt(t, v, u) by {
      assert t.deck == Rest(t.deck) + [c];
      assert u.player[..|t.player|] == t.player;
    }
    assert PlayerTold(t, v, u) by {
      assert PlayerLog(t.player, [c]) == [PlayerHand(t.player + [c])];
      assert t.pending == Hits(0) + StayFor(v) + u.pending;
    }
  }

  /** Dealing from the top of `deck` into `hand` until the hand is `hand'` and the deck
      `deck'`: the first card dealt is the top card, and the rest is dealt from what lies
      below it. */
  lemma DealtFirst(deck: seq<Card>, hand: seq<Card>, deck': seq<Card>, hand': seq<Card>)
    requires |hand| < |hand'| && hand'[..|hand|] == hand && deck == deck' + Reversed(hand'[|hand|..])
    ensures deck != [] && Top(deck) == hand'[|hand|]
    ensures hand + [Top(deck)] == hand'[..|hand| + 1]
    ensures Rest(deck) == deck' + Reversed(hand'[|hand| + 1..])
  {
    var c := hand'[|hand|];
    var later := hand'[|hand| + 1..];
    assert hand'[|hand|..] == [c] + later;
    ReversedCons(c, later);
    assert deck == (deck' + Reversed(later)) + [c];
    assert hand'[..|hand| + 1] == hand'[..|hand|] + [c];
  }

  /** The converse of `DealtFirst`: dealing the top card and then the rest is one dealing. */
  lemma DealtBefore(deck: seq<Card>, hand: seq<Card>, deck': seq<Card>, hand': seq<Card>)
    requires deck != [] && |hand| + 1 < |hand'| && hand'[..|hand| + 1] == hand + [Top(deck)]
    requires Rest(deck) == deck' + Reversed(hand'[|hand| + 1..])
    ensures hand'[..|hand|] == hand && deck == deck' + Reversed(hand'[|hand|..])
  {
    var c := Top(deck);
    var later := hand'[|hand| + 1..];
    assert hand'[..|hand|] == hand'[..|hand| + 1][..|hand|];
    assert hand'[|hand|..] == [c] + later;
    ReversedCons(c, later);
    assert deck == Rest(deck) + [c];
  }

  /** The player's log starts with the hand after the first draw. */
  lemma PlayerLogFirst(base: seq<Card>, full: seq<Card>)
    requires |base| < |full| && full[..|base|] == base
    ensures PlayerLog(base, full[|base|..])
         == [PlayerHand(full[..|base| + 1])] + PlayerLog(full[..|base| + 1], full[|base| + 1..])
  {
    var drawn := full[|base|..];
    assert base + [drawn[0]] == full[..|base| + 1];
    assert drawn[1..] == full[|base| + 1..];
  }

  /** The dealer's log of more than one draw starts with the hand after the first draw
      and a `DealerHit`. */
  lemma DealerLogFirst(base: seq<Card>, drawn: seq<Card>)
    requires |drawn| > 1
    ensures DealerLog(base, drawn)
         == [DealerHand(base + [drawn[0]]), DealerHit] + DealerLog(base + [drawn[0]], drawn[1..])
  {
  }

  /** The cards of a turn that hits after its first draw: the first draw, then the cards
      of the rest of the turn. */
  lemma PlayerDealtHits(t: Table, next: Table, v: Value, u: Table)
    requires t.deck != [] && ScoreOf(t.player + [Top(t.deck)]).Points? && t.pending != []
    requires next == t.(deck := Rest(t.deck), player := t.player + [Top(t.deck)],
                        log := t.log + [PlayerHand(t.player + [Top(t.deck)])],
                        pending := t.pending[1..])
    requires PlayerDealt(next, v, u)
    ensures PlayerDealt(t, v, u)
  {
    var hand := next.player;
    DealtBefore(t.deck, t.player, u.deck, u.player);
    forall k | |t.player| < k < |u.player| ensures ScoreOf(u.player[..k]).Points? {
      if k == |hand| {
        assert u.player[..k] == hand;
      }
    }
  }

  /** A turn with more than one draw tells the first hand, then what the rest of the turn tells. */
  lemma PlayerLogStep(t: Table, next: Table, v: Value, u: Table)
    requires |t.player| + 1 < |u.player| && u.player[..|t.player|] == t.player
    requires next.player == u.player[..|t.player| + 1]
    requires next.log == t.log + [PlayerHand(next.player)]
    ensures (u.log == t.log + PlayerLog(t.player, u.player[|t.player|..]) + PlayerVerdict(v))
       <==> (u.log == next.log + PlayerLog(next.player, u.player[|next.player|..]) + PlayerVerdict(v))
  {
    var later := u.player[|next.player|..];
    PlayerLogFirst(t.player, u.player);
    assert t.log + ([PlayerHand(next.player)] + PlayerLog(next.player, later)) + PlayerVerdict(v)
        == next.log + PlayerLog(next.player, later) + PlayerVerdict(v);
  }

  /** A turn with more than one draw asks for a hit first, then what the rest of the turn asks. */
  lemma PlayerPendingStep(t: Table, next: Table, v: Value, u: Table, n: nat)
    requires n > 1 && t.pending != [] && next.pending == t.pending[1..]
    ensures (t.pending == Hits(n - 1) + StayFor(v) + u.pending)
       <==> (t.pending[0] == PlayerHit && next.pending == Hits(n - 2) + StayFor(v) + u.pending)
  {
    assert Hits(n - 1) == [PlayerHit] + Hits(n - 2);
    assert t.pending == [t.pending[0]] + next.pending;
  }

  /** A turn with more than one draw tells and asks exactly this: the first hand, then a
      hit, then what the rest of the turn tells and asks. */
  lemma PlayerToldStep(t: Table, next: Table, v: Value, u: Table)
    requires |t.player| + 1 < |u.player| && u.player[..|t.player|] == t.player
    requires next.player == u.player[..|t.player| + 1]
    requires next.log == t.log + [PlayerHand(next.player)]
    requires t.pending != [] && next.pending == t.pending[1..]
    ensures PlayerTold(t, v, u) <==> t.pending[0] == PlayerHit && PlayerTold(next, v, u)
  {
    PlayerLogStep(t, next, v, u);
    PlayerPendingStep(t, next, v, u, |u.player| - |t.player|);
  }

  /** A turn that hits after its first draw does what the rest of the turn does, one draw
      and one hit earlier. */
  lemma PlayerTurnHits(t: Table, next: Table, v: Value, u: Table)
    requires t.deck != [] && ScoreOf(t.player + [Top(t.deck)]).Points?
    requires t.pending != [] && t.pending[0] == PlayerHit
    requires next == t.(deck := Rest(t.deck), player := t.player + [Top(t.deck)],
                        log := t.log + [PlayerHand(t.player + [Top(t.deck)])],
                        pending := t.pending[1..])
    requires PlayerTurnFrom(next, v, u)
    ensures PlayerTurnFrom(t, v, u)
  {
    PlayerDealtHits(t, next, v, u);
    PlayerToldStep(t, next, v, u);
  }

  /** A player turn that ends moves the drawn cards from the top of the deck into the
      player's hand in draw order, shows the hand after each draw, asks for an action
      exactly at the draws that score points (hits, then a final stay), and leaves the
      dealer alone. Its result is the score of the final hand. */
  lemma {:induction false} PlayerPhaseShape(t: Table)
    requires PlayerPhase(t).Done?
    ensures PlayerTurnFrom(t, PlayerPhase(t).value.0, PlayerPhase(t).value.1)
    decreases |t.deck|
  {
    var hand := t.player + [Top(t.deck)];
    var score := ScoreOf(hand);
    if score.Points? && t.pending[0] == PlayerHit {
      var next := t.(deck := Rest(t.deck), player := hand, log := t.log + [PlayerHand(hand)],
                     pending := t.pending[1..]);
      assert PlayerPhase(t) == PlayerPhase(next);
      PlayerPhaseShape(next);
      PlayerTurnHits(t, next, PlayerPhase(t).value.0, PlayerPhase(t).value.1);
    } else {
      PlayerTurnStops(t, PlayerPhase(t).value.0, PlayerPhase(t).value.1);
    }
  }

  /** A described turn that draws once only is that draw, then the verdict or a stay. */
  lemma PlayerTurnLastDraw(t: Table, v: Value, u: Table)
    requires PlayerTurnFrom(t, v, u) && |u.player| == |t.player| + 1
    ensures t.deck != [] && v == ScoreOf(PlayerDraw(t).player)
    ensures v.Points? ==> t.pending != [] && t.pending[0] == PlayerStay
                          && u == PlayerDraw(t).(pending := t.pending[1..])
    ensures !v.Points? ==> u == PlayerDraw(t).(log := PlayerDraw(t).log + PlayerVerdict(v))
  {
    DealtFirst(t.deck, t.player, u.deck, u.player);
    PlayerLogFirst(t.player, u.player);
    assert u.player[..|t.player| + 1] == u.player;
    assert u.player[|t.player| + 1..] == [];
  }

  /** After a hit, the rest of a described turn deals the rest of its cards. */
  lemma PlayerDealtAfterHit(t: Table, v: Value, u: Table)
    requires PlayerDealt(t, v, u) && |u.player| > |t.player| + 1 && t.pending != []
    ensures t.deck != [] && ScoreOf(PlayerDraw(t).player).Points?
    ensures PlayerDealt(PlayerDraw(t).(pending := t.pending[1..]), v, u)
  {
    DealtFirst(t.deck, t.player, u.deck, u.player);
    var hand := u.player[..|t.player| + 1];
    assert ScoreOf(hand).Points?;
    assert u.player[..|hand|] == hand;
  }

  /** After a hit, the rest of a described turn is again a described turn. */
  lemma PlayerTurnAfterHit(t: Table, v: Value, u: Table)
    requires PlayerTurnFrom(t, v, u) && |u.player| > |t.player| + 1
    ensures t.deck != [] && ScoreOf(PlayerDraw(t).player).Points?
    ensures t.pending != [] && t.pending[0] == PlayerHit
    ensures PlayerTurnFrom(PlayerDraw(t).(pending := t.pending[1..]), v, u)
  {
    var n := |u.player| - |t.player|;
    assert t.pending == [PlayerHit] + (Hits(n - 2) + StayFor(v) + u.pending);
    DealtFirst(t.deck, t.player, u.deck, u.player);
    PlayerToldStep(t, PlayerDraw(t).(pending := t.pending[1..]), v, u);
    PlayerDealtAfterHit(t, v, u);
  }

  /** Conversely, every turn that `PlayerTurnFrom` describes is what the player turn does:
      with `PlayerPhaseShape`, `PlayerPhase(t) == Done((v, u))` exactly when
      `PlayerTurnFrom(t, v, u)`. */
  lemma {:induction false} PlayerTurnPlays(t: Table, v: Value, u: Table)
    requires PlayerTurnFrom(t, v, u)
    ensures PlayerPhase(t) == Done((v, u))
    decreases |u.player| - |t.player|
  {
    if |u.player| > |t.player| + 1 {
      PlayerTurnAfterHit(t, v, u);
      PlayerHitStep(t);
      PlayerTurnPlays(PlayerDraw(t).(pending := t.pending[1..]), v, u);
    } else {
      PlayerTurnLastDraw(t, v, u);
      if v.Points? {
        PlayerStayStep(t);
      } else {
        PlayerStopStep(t);
      }
    }
  }

  /** A dealer turn that stops after one draw. */
  lemma DealerTurnStops(t: Table, v: Value, u: Table)
    requires t.deck != [] && v == ScoreOf(t.dealer + [Top(t.deck)]) && !DealerWouldHit(v)
    requires u == t.(deck := Rest(t.deck), dealer := t.dealer + [Top(t.deck)],
                     log := t.log + [DealerHand(t.dealer + [Top(t.deck)])] + DealerVerdict(v))
    ensures DealerTurnFrom(t, v, u)
  {
    var c := Top(t.deck);
    assert t.deck == Rest(t.deck) + [c];
    assert u.dealer[..|t.dealer|] == t.dealer;
    assert u.dealer[|t.dealer|..] == [c];
    assert DealerLog(t.dealer, [c]) == [DealerHand(t.dealer + [c])];
  }

  /** The cards of a dealer turn that hits after its first draw: the first draw, then
      the cards of the rest of the turn. */
  lemma DealerDealtHits(t: Table, next: Table, v: Value, u: Table)
    requires t.deck != [] && DealerWouldHit(ScoreOf(t.dealer + [Top(t.deck)]))
    requires next == t.(deck := Rest(t.deck), dealer := t.dealer + [Top(t.deck)],
                        log := t.log + [DealerHand(t.dealer + [Top(t.deck)])] + [DealerHit])
    requires DealerDealt(next, v, u)
    ensures DealerDealt(t, v, u)
  {
    var hand := next.dealer;
    DealtBefore(t.deck, t.dealer, u.deck, u.dealer);
    forall k | |t.dealer| < k < |u.dealer| ensures DealerWouldHit(ScoreOf(u.dealer[..k])) {
      if k == |hand| {
        assert u.dealer[..k] == hand;
      }
    }
  }

  /** A dealer turn with more than one draw tells exactly this: the first hand, a
      `DealerHit`, then what the rest of the turn tells. */
  lemma DealerToldStep(t: Table, next: Table, v: Value, u: Table)
    requires |t.dealer| + 1 < |u.dealer| && u.dealer[..|t.dealer|] == t.dealer
    requires next.dealer == u.dealer[..|t.dealer| + 1]
    requires next.log == t.log + [DealerHand(next.dealer)] + [DealerHit]
    ensures DealerTold(t, v, u) <==> DealerTold(next, v, u)
  {
    var drawn := u.dealer[|t.dealer|..];
    var later := u.dealer[|next.dealer|..];
    DealerLogFirst(t.dealer, drawn);
    assert t.dealer + [drawn[0]] == next.dealer;
    assert drawn[1..] == later;
    assert t.log + ([DealerHand(next.dealer), DealerHit] + DealerLog(next.dealer, later)) + DealerVerdict(v)
        == next.log + DealerLog(next.dealer, later) + DealerVerdict(v);
  }

  /** A dealer turn that hits after its first draw does what the rest of the turn does,
      one draw and one `DealerHit` earlier. */
  lemma DealerTurnHits(t: Table, next: Table, v: Value, u: Table)
    requires t.deck != [] && DealerWouldHit(ScoreOf(t.dealer + [Top(t.deck)]))
    requires next == t.(deck := Rest(t.deck), dealer := t.dealer + [Top(t.deck)],
                        log := t.log + [DealerHand(t.dealer + [Top(t.deck)])] + [DealerHit])
    requires DealerTurnFrom(next, v, u)
    ensures DealerTurnFrom(t, v, u)
  {
    DealerDealtHits(t, next, v, u);
    DealerToldStep(t, next, v, u);
  }

  /** A dealer turn that ends moves the drawn cards from the top of the deck into the
      dealer's hand in draw order, hits exactly while the rule says so, stands on a
      total the rule does not hit, shows the hand after each draw, and touches neither
      the player's hand nor the answers. Its result is the score of the final hand. */
  lemma {:induction false} DealerPhaseShape(t: Table)
    requires DealerPhase(t).Done?
    ensures DealerTurnFrom(t, DealerPhase(t).value.0, DealerPhase(t).value.1)
    decreases |t.deck|
  {
    var hand := t.dealer + [Top(t.deck)];
    if DealerWouldHit(ScoreOf(hand)) {
      var next := t.(deck := Rest(t.deck), dealer := hand, log := t.log + [DealerHand(hand)] + [DealerHit]);
      assert DealerPhase(t) == DealerPhase(next);
      DealerPhaseShape(next);
      DealerTurnHits(t, next, DealerPhase(t).value.0, DealerPhase(t).value.1);
    } else {
      DealerTurnStops(t, DealerPhase(t).value.0, DealerPhase(t).value.1);
    }
  }

  /** A described dealer turn that draws once only is that draw, then the verdict. */
  lemma DealerTurnLastDraw(t: Table, v: Value, u: Table)
    requires DealerTurnFrom(t, v, u) && |u.dealer| == |t.dealer| + 1
    ensures t.deck != [] && v == ScoreOf(DealerDraw(t).dealer) && !DealerWouldHit(v)
    ensures u == DealerDraw(t).(log := DealerDraw(t).log + DealerVerdict(v))
  {
    DealtFirst(t.deck, t.dealer, u.deck, u.dealer);
    assert u.dealer[..|t.dealer| + 1] == u.dealer;
    assert u.dealer[|t.dealer| + 1..] == [];
    var drawn := u.dealer[|t.dealer|..];
    assert drawn == [drawn[0]];
    assert DealerLog(t.dealer, drawn) == [DealerHand(u.dealer)];
  }

  /** After a hit, the rest of a described dealer turn deals the rest of its cards. */
  lemma DealerDealtAfterHit(t: Table, v: Value, u: Table)
    requires DealerDealt(t, v, u) && |u.dealer| > |t.dealer| + 1
    ensures t.deck != [] && DealerWouldHit(ScoreOf(DealerDraw(t).dealer))
    ensures DealerDealt(DealerDraw(t).(log := DealerDraw(t).log + [DealerHit]), v, u)
  {
    DealtFirst(t.deck, t.dealer, u.deck, u.dealer);
    var hand := u.dealer[..|t.dealer| + 1];
    assert DealerWouldHit(ScoreOf(hand));
    assert u.dealer[..|hand|] == hand;
  }

  /** After a hit, the rest of a described dealer turn is again a described turn. */
  lemma DealerTurnAfterHit(t: Table, v: Value, u: Table)
    requires DealerTurnFrom(t, v, u) && |u.dealer| > |t.dealer| + 1
    ensures t.deck != [] && DealerWouldHit(ScoreOf(DealerDraw(t).dealer))
    ensures DealerTurnFrom(DealerDraw(t).(log := DealerDraw(t).log + [DealerHit]), v, u)
  {
    DealtFirst(t.deck, t.dealer, u.deck, u.dealer);
    DealerToldStep(t, DealerDraw(t).(log := DealerDraw(t).log + [DealerHit]), v, u);
    DealerDealtAfterHit(t, v, u);
  }

  /** Conversely, every turn that `DealerTurnFrom` describes is what the dealer turn does:
      with `DealerPhaseShape`, `DealerPhase(t) == Done((v, u))` exactly when
      `DealerTurnFrom(t, v, u)`. */
  lemma {:induction false} DealerTurnPlays(t: Table, v: Value, u: Table)
    requires DealerTurnFrom(t, v, u)
    ensures DealerPhase(t) == Done((v, u))
    decreases |u.dealer| - |t.dealer|
  {
    if |u.dealer| > |t.dealer| + 1 {
      DealerTurnAfterHit(t, v, u);
      DealerHitStep(t);
      DealerTurnPlays(DealerDraw(t).(log := DealerDraw(t).log + [DealerHit]), v, u);
    } else {
      DealerTurnLastDraw(t, v, u);
      DealerStopStep(t);
    }
  }

  /** Moving cards from the top of a deck into a hand keeps the cards of both together. */
  lemma DealtConserves(deck: seq<Card>, hand: seq<Card>, deck': seq<Card>, hand': seq<Card>)
    requires |hand| <= |hand'| && hand'[..|hand|] == hand
    requires deck == deck' + Reversed(hand'[|hand|..])
    ensures multiset(deck) + multiset(hand) == multiset(deck') + multiset(hand')
  {
    ReversedMultiset(hand'[|hand|..]);
    assert hand' == hand + hand'[|hand|..];
  }

  /** The dealer announces one hit per extra draw and ends with exactly one of
      `DealerBust`, `DealerBlackjack` or `DealerStay`. */
  lemma DealerTurnCounts(t: Table, v: Value, u: Table)
    requires DealerPhase(t) == Done((v, u))
    ensures Count(u.log, DealerHit) == Count(t.log, DealerHit) + |u.dealer| - |t.dealer| - 1
    ensures Count(u.log, DealerBust) + Count(u.log, DealerBlackjack) + Count(u.log, DealerStay)
         == Count(t.log, DealerBust) + Count(t.log, DealerBlackjack) + Count(t.log, DealerStay) + 1
  {
    DealerPhaseShape(t);
    DealerTurnFromCounts(t, v, u);
  }

  lemma DealerTurnFromCounts(t: Table, v: Value, u: Table)
    requires DealerTurnFrom(t, v, u)
    ensures Count(u.log, DealerHit) == Count(t.log, DealerHit) + |u.dealer| - |t.dealer| - 1
    ensures Count(u.log, DealerBust) + Count(u.log, DealerBlackjack) + Count(u.log, DealerStay)
         == Count(t.log, DealerBust) + Count(t.log, DealerBlackjack) + Count(t.log, DealerStay) + 1
  {
    DealerLogCounts(t.log, t.dealer, u.dealer[|t.dealer|..], v, u.log);
  }

  /** The counts of a log that a dealer turn extended. */
  lemma DealerLogCounts(before: seq<Event>, base: seq<Card>, drawn: seq<Card>, v: Value, after: seq<Event>)
    requires drawn != [] && after == before + DealerLog(base, drawn) + DealerVerdict(v)
    ensures Count(after, DealerHit) == Count(before, DealerHit) + |drawn| - 1
    ensures Count(after, DealerBust) + Count(after, DealerBlackjack) + Count(after, DealerStay)
         == Count(before, DealerBust) + Count(before, DealerBlackjack) + Count(before, DealerStay) + 1
  {
    var log := DealerLog(base, drawn);
    var verdict := DealerVerdict(v);
    DealerLogKinds(base, drawn);
    DealerLogHits(base, drawn);
    forall e | e == DealerBust || e == DealerBlackjack || e == DealerStay
      ensures Count(after, e) == Count(before, e) + Count(verdict, e)
    {
      CountAbsent(log, e);
      CountAppend(before, log, e);
      CountAppend(before + log, verdict, e);
    }
    CountAppend(before, log, DealerHit);
    CountAppend(before + log, verdict, DealerHit);
    DealerVerdictCounts(v);
  }

  lemma DealerVerdictCounts(v: Value)
    ensures Count(DealerVerdict(v), DealerHit) == 0
    ensures Count(DealerVerdict(v), DealerBust) + Count(DealerVerdict(v), DealerBlackjack)
          + Count(DealerVerdict(v), DealerStay) == 1
  {
    var verdict := DealerVerdict(v);
    assert verdict[..0] == [];
    assert Count(verdict[..0], DealerHit) == 0;
  }

  /** A dealer's log holds only hands and hits. */
  lemma {:induction false} DealerLogKinds(base: seq<Card>, drawn: seq<Card>)
    requires drawn != []
    ensures forall i :: 0 <= i < |DealerLog(base, drawn)| ==>
      DealerLog(base, drawn)[i].DealerHand? || DealerLog(base, drawn)[i] == DealerHit
    decreases |drawn|
  {
    if |drawn| > 1 {
      DealerLogKinds(base + [drawn[0]], drawn[1..]);
    }
  }

  /** A player's log holds only hands. */
  lemma {:induction false} PlayerLogKinds(base: seq<Card>, drawn: seq<Card>)
    ensures forall i :: 0 <= i < |PlayerLog(base, drawn)| ==> PlayerLog(base, drawn)[i].PlayerHand?
    decreases |drawn|
  {
    if drawn != [] {
      PlayerLogKinds(base + [drawn[0]], drawn[1..]);
    }
  }

  /** Drawing adds at least 1 to the hand's hard total. */
  lemma HardTotalGrows(cards: seq<Card>, c: Card)
    ensures HardTotal(cards + [c]) >= HardTotal(cards) + 1
  {
    assert (cards + [c])[..|cards|] == cards;
  }

  /** A player who starts below a hard 21 with at least `21 - HardTotal` cards in the deck
      never runs out of cards, and draws at most that many. */
  lemma {:induction false} PlayerPhaseBounded(t: Table)
    requires HardTotal(t.player) < 21 <= HardTotal(t.player) + |t.deck|
    ensures PlayerPhase(t) != Panic(DeckExhausted)
    ensures PlayerPhase(t).Done? ==> |t.deck| - |PlayerPhase(t).value.1.deck| <= 21 - HardTotal(t.player)
    decreases |t.deck|
  {
    var hand := t.player + [Top(t.deck)];
    var shown := t.(deck := Rest(t.deck), player := hand, log := t.log + [PlayerHand(hand)]);
    var score := ScoreOf(hand);
    HardTotalGrows(t.player, Top(t.deck));
    if score.Points? && shown.pending != [] && shown.pending[0] == PlayerHit {
      ScoreIsBestTotal(hand);
      PlayerPhaseBounded(shown.(pending := shown.pending[1..]));
    }
  }

  /** A dealer who starts below a hard 18 with at least `18 - HardTotal` cards in the deck
      always finishes the turn. */
  lemma {:induction false} DealerPhaseBounded(t: Table)
    requires HardTotal(t.dealer) < 18 <= HardTotal(t.dealer) + |t.deck|
    ensures DealerPhase(t).Done?
    decreases |t.deck|
  {
    var hand := t.dealer + [Top(t.deck)];
    var shown := t.(deck := Rest(t.deck), dealer := hand, log := t.log + [DealerHand(hand)]);
    HardTotalGrows(t.dealer, Top(t.deck));
    if DealerWouldHit(ScoreOf(hand)) {
      ScoreIsBestTotal(hand);
      DealerPhaseBounded(shown.(log := shown.log + [DealerHit]));
    }
  }

  /** A player turn can only fail for want of a card or of an answer. */
  lemma {:induction false} PlayerPhaseFailures(t: Table)
    ensures PlayerPhase(t).Panic? ==> PlayerPhase(t).failure == DeckExhausted || PlayerPhase(t).failure == NoAction
    decreases |t.deck|
  {
    if t.deck != [] {
      var hand := t.player + [Top(t.deck)];
      if ScoreOf(hand).Points? && t.pending != [] && t.pending[0] == PlayerHit {
        var next := t.(deck := Rest(t.deck), player := hand, log := t.log + [PlayerHand(hand)],
                       pending := t.pending[1..]);
        assert PlayerPhase(t) == PlayerPhase(next);
        PlayerPhaseFailures(next);
      }
    }
  }

  /** A dealer turn can only fail for want of a card. */
  lemma {:induction false} DealerPhaseFailures(t: Table)
    ensures DealerPhase(t).Panic? ==> DealerPhase(t).failure == DeckExhausted
    decreases |t.deck|
  {
    if t.deck != [] {
      var hand := t.dealer + [Top(t.deck)];
      if DealerWouldHit(ScoreOf(hand)) {
        var next := t.(deck := Rest(t.deck), dealer := hand, log := t.log + [DealerHand(hand)] + [DealerHit]);
        assert DealerPhase(t) == DealerPhase(next);
        DealerPhaseFailures(next);
      }
    }
  }

  /** From empty hands, 39 cards always suffice for a round: it never panics for want of a
      card (it can still run out of scripted answers or reach the unmatched winner case). */
  lemma RoundNeverExhausts(t: Table)
    requires t.player == [] && t.dealer == [] && |t.deck| >= 39
    ensures Round(t) != Panic(DeckExhausted)
  {
    PlayerPhaseBounded(t);
    match PlayerPhase(t)
    case Panic(f) =>
    case Done((p, a)) =>
      PlayerPhaseShape(t);
      assert PlayerDealt(t, p, a);
      DealerPhaseBounded(a);
  }

  /** A log extended by two turns and a result holds one result more. */
  lemma RoundLog(before: seq<Event>, turns: seq<Event>, e: Event)
    requires forall i :: 0 <= i < |turns| ==> !IsResult(turns[i])
    requires IsResult(e)
    ensures Results(before + turns + [e]) == Results(before) + 1
  {
    ResultsAbsent(turns);
    ResultsAppend(before, turns);
    ResultsAppend(before + turns, [e]);
    assert [e][..0] == [];
  }

  /** Cards dealt from one deck to two hands, one after the other, stay together. */
  lemma DealtTwiceConserves(t: Table, a: Table, b: Table)
    requires |t.player| <= |a.player| && a.player[..|t.player|] == t.player
    requires t.deck == a.deck + Reversed(a.player[|t.player|..]) && a.dealer == t.dealer
    requires |a.dealer| <= |b.dealer| && b.dealer[..|a.dealer|] == a.dealer
    requires a.deck == b.deck + Reversed(b.dealer[|a.dealer|..]) && b.player == a.player
    ensures multiset(b.deck) + multiset(b.player) + multiset(b.dealer)
         == multiset(t.deck) + multiset(t.player) + multiset(t.dealer)
  {
    DealtConserves(t.deck, t.player, a.deck, a.player);
    DealtConserves(a.deck, a.dealer, b.deck, b.dealer);
    calc {
      multiset(t.deck) + multiset(t.player) + multiset(t.dealer);
      (multiset(a.deck) + multiset(a.player)) + multiset(a.dealer);
      (multiset(a.deck) + multiset(a.dealer)) + multiset(a.player);
      (multiset(b.deck) + multiset(b.dealer)) + multiset(b.player);
      multiset(b.deck) + multiset(b.player) + multiset(b.dealer);
    }
  }

  /** The two turns and the winner, put together. */
  lemma RoundCompose(t: Table, p: Value, a: Table, d: Value, b: Table, e: Event)
    requires PlayerTurnFrom(t, p, a) && DealerTurnFrom(a, d, b) && Winner(p, d) == Some(e)
    ensures var u := b.(log := b.log + [e]);
      && multiset(u.deck) + multiset(u.player) + multiset(u.dealer)
         == multiset(t.deck) + multiset(t.player) + multiset(t.dealer)
      && |u.log| > |t.log| && u.log[..|t.log|] == t.log
      && Winner(ScoreOf(u.player), ScoreOf(u.dealer)) == Some(u.log[|u.log| - 1])
      && IsResult(u.log[|u.log| - 1])
      && Results(u.log) == Results(t.log) + 1
  {
    var u := b.(log := b.log + [e]);
    assert multiset(u.deck) + multiset(u.player) + multiset(u.dealer)
        == multiset(t.deck) + multiset(t.player) + multiset(t.dealer) by {
      DealtTwiceConserves(t, a, b);
    }
    RoundLogOf(t.log, t.player, a.player, PlayerVerdict(p), a.log,
               a.dealer, b.dealer, DealerVerdict(d), b.log, e);
  }

  /** The log of a round, from what the two turns tell. */
  lemma RoundLogOf(before: seq<Event>, player0: seq<Card>, player1: seq<Card>, playerVerdict: seq<Event>,
                   middle: seq<Event>, dealer0: seq<Card>, dealer1: seq<Card>, dealerVerdict: seq<Event>,
                   after: seq<Event>, e: Event)
    requires |player0| < |player1| && |dealer0| < |dealer1|
    requires middle == before + PlayerLog(player0, player1[|player0|..]) + playerVerdict
    requires after == middle + DealerLog(dealer0, dealer1[|dealer0|..]) + dealerVerdict
    requires playerVerdict == [] || playerVerdict == [PlayerBust] || playerVerdict == [PlayerBlackjack]
    requires dealerVerdict == [DealerStay] || dealerVerdict == [DealerBust] || dealerVerdict == [DealerBlackjack]
    requires IsResult(e)
    ensures |after + [e]| > |before| && (after + [e])[..|before|] == before
    ensures (after + [e])[|after + [e]| - 1] == e
    ensures Results(after + [e]) == Results(before) + 1
  {
    var playerLog := PlayerLog(player0, player1[|player0|..]);
    var dealerLog := DealerLog(dealer0, dealer1[|dealer0|..]);
    PlayerLogKinds(player0, player1[|player0|..]);
    DealerLogKinds(dealer0, dealer1[|dealer0|..]);
    TurnsLog(before, playerLog, playerVerdict, middle, dealerLog, dealerVerdict, after, e);
  }

  /** The log of a round: two turns and a result after what was logged before. */
  lemma TurnsLog(before: seq<Event>, playerLog: seq<Event>, playerVerdict: seq<Event>, middle: seq<Event>,
                 dealerLog: seq<Event>, dealerVerdict: seq<Event>, after: seq<Event>, e: Event)
    requires middle == before + playerLog + playerVerdict && after == middle + dealerLog + dealerVerdict
    requires forall i :: 0 <= i < |playerLog| ==> playerLog[i].PlayerHand?
    requires forall i :: 0 <= i < |dealerLog| ==> dealerLog[i].DealerHand? || dealerLog[i] == DealerHit
    requires forall i :: 0 <= i < |playerVerdict| ==> !IsResult(playerVerdict[i])
    requires forall i :: 0 <= i < |dealerVerdict| ==> !IsResult(dealerVerdict[i])
    requires IsResult(e)
    ensures |after + [e]| > |before| && (after + [e])[..|before|] == before
    ensures (after + [e])[|after + [e]| - 1] == e
    ensures Results(after + [e]) == Results(before) + 1
  {
    var turns := playerLog + playerVerdict + dealerLog + dealerVerdict;
    assert after == before + turns;
    assert forall i :: 0 <= i < |turns| ==> !IsResult(turns[i]) by {
      forall i | 0 <= i < |turns| ensures !IsResult(turns[i]) {
        var k := |playerLog + playerVerdict|;
        if i < |playerLog| {
          assert turns[i] == playerLog[i];
        } else if i < k {
          assert turns[i] == playerVerdict[i - |playerLog|];
        } else if i < k + |dealerLog| {
          assert turns[i] == dealerLog[i - k];
        } else {
          assert turns[i] == dealerVerdict[i - k - |dealerLog|];
        }
      }
    }
    assert (after + [e])[..|before|] == before;
    RoundLog(before, turns, e);
  }

  /** A finished round keeps every card (deck and hands together), appends to the log the
      player's turn, the dealer's turn and exactly one result event, and that result is the
      winner decision on the scores of the two final hands. */
  lemma RoundShape(t: Table)
    requires Round(t).Done?
    ensures var u := Round(t).value;
      && multiset(u.deck) + multiset(u.player) + multiset(u.dealer)
         == multiset(t.deck) + multiset(t.player) + multiset(t.dealer)
      && |u.log| > |t.log| && u.log[..|t.log|] == t.log
      && Winner(ScoreOf(u.player), ScoreOf(u.dealer)) == Some(u.log[|u.log| - 1])
      && IsResult(u.log[|u.log| - 1])
      && Results(u.log) == Results(t.log) + 1
  {
    var (p, a) := PlayerPhase(t).value;
    var (d, b) := DealerPhase(a).value;
    PlayerPhaseShape(t);
    DealerPhaseShape(a);
    RoundCompose(t, p, a, d, b, Winner(p, d).value);
  }

  // ---------------------------------------------------------------- single steps

  /** A scoring draw answered with a hit: the turn goes on from the next draw. */
  lemma PlayerHitStep(t: Table)
    requires t.deck != [] && ScoreOf(PlayerDraw(t).player).Points?
    requires t.pending != [] && t.pending[0] == PlayerHit
    ensures PlayerPhase(t) == PlayerPhase(PlayerDraw(t).(pending := t.pending[1..]))
  {
  }

  /** A scoring draw answered with a stay ends the turn on that score. */
  lemma PlayerStayStep(t: Table)
    requires t.deck != [] && ScoreOf(PlayerDraw(t).player).Points?
    requires t.pending != [] && t.pending[0] == PlayerStay
    ensures PlayerPhase(t) == Done((ScoreOf(PlayerDraw(t).player), PlayerDraw(t).(pending := t.pending[1..])))
  {
  }

  /** A draw that busts or reaches 21 ends the turn without asking. */
  lemma PlayerStopStep(t: Table)
    requires t.deck != [] && !ScoreOf(PlayerDraw(t).player).Points?
    ensures var v := ScoreOf(PlayerDraw(t).player);
      PlayerPhase(t) == Done((v, PlayerDraw(t).(log := PlayerDraw(t).log + PlayerVerdict(v))))
  {
  }

  /** A draw the rule hits on: the dealer announces it and draws again. */
  lemma DealerHitStep(t: Table)
    requires t.deck != [] && DealerWouldHit(ScoreOf(DealerDraw(t).dealer))
    ensures DealerPhase(t) == DealerPhase(DealerDraw(t).(log := DealerDraw(t).log + [DealerHit]))
  {
  }

  /** Any other draw ends the dealer's turn with the matching event. */
  lemma DealerStopStep(t: Table)
    requires t.deck != [] && !DealerWouldHit(ScoreOf(DealerDraw(t).dealer))
    ensures var v := ScoreOf(DealerDraw(t).dealer);
      DealerPhase(t) == Done((v, DealerDraw(t).(log := DealerDraw(t).log + DealerVerdict(v))))
  {
  }

  // ---------------------------------------------------------------- the winner decision

  /** `determine_winner` matches no arm exactly when both totals are equal points that
      differ in softness. */
  lemma WinnerPanicsExactly(p: Value, d: Value)
    ensures Winner(p, d).None? <==> p.Points? && d.Points? && p.total == d.total && p.soft != d.soft
  {
  }

  /** Otherwise it ranks the results: a bust below every total, every total below 21,
      and the higher rank wins. */
  lemma WinnerRanks(p: Value, d: Value)
    requires Scored(p) && Scored(d)
    ensures Winner(p, d).Some? ==> Winner(p, d).value == Compare(Strength(p), Strength(d))
  {
  }

  /** Swapping the two results swaps win and loss. */
  lemma WinnerSymmetric(p: Value, d: Value)
    ensures Winner(d, p) == (if Winner(p, d).None? then None else Some(Flip(Winner(p, d).value)))
  {
  }

  /** The round, read off the results of its two turns. */
  lemma RoundFromTurns(t: Table, p: Value, a: Table, d: Value, b: Table)
    requires PlayerPhase(t) == Done((p, a)) && DealerPhase(a) == Done((d, b))
    ensures Winner(p, d).None? ==> Round(t) == Panic(Unreachable)
    ensures Winner(p, d).Some? ==> Round(t) == Done(b.(log := b.log + [Winner(p, d).value]))
    ensures IntendedRound(t) == Done(b.(log := b.log + [IntendedWinner(p, d)]))
  {
  }

  /** The intended decision ranks the results for every pair of scores. */
  lemma IntendedWinnerRanks(p: Value, d: Value)
    requires Scored(p) && Scored(d)
    ensures IntendedWinner(p, d) == Compare(Strength(p), Strength(d))
  {
  }

  /** The intended decision agrees with `determine_winner` wherever that one matches an arm. */
  lemma IntendedWinnerAgrees(p: Value, d: Value)
    ensures Winner(p, d).Some? ==> Winner(p, d).value == IntendedWinner(p, d)
    ensures Winner(p, d).None? ==> IntendedWinner(p, d) == Tie
  {
  }

  /** The intended round never reaches the unmatched case and agrees with the round as
      written whenever that one does not. */
  lemma IntendedRoundAgrees(t: Table)
    ensures IntendedRound(t) != Panic(Unreachable)
    ensures Round(t) != Panic(Unreachable) ==> Round(t) == IntendedRound(t)
  {
    PlayerPhaseFailures(t);
    if PlayerPhase(t).Done? {
      var (p, a) := PlayerPhase(t).value;
      DealerPhaseFailures(a);
      if DealerPhase(a).Done? {
        var (d, b) := DealerPhase(a).value;
        IntendedWinnerAgrees(p, d);
      }
    }
  }
}
