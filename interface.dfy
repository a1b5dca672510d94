/** The presentation port both engines talk to: player actions in, game events out.
    The port is scripted: a finite list of answers for `get_action`, and a log
    that records every event `send` receives. */
module Interface {
  import opened Wrappers
  import opened Cards

  /** `Action`: what the player may do on their turn. */
  datatype Action = PlayerStay | PlayerHit

  /** `Event`: what the engines report. A hand event carries the hand's cards
      in draw order at the moment it was sent. The name `PlayerLoose` is the source's. */
  datatype Event =
    | PlayerHand(hand: seq<Card>)
    | DealerHand(hand: seq<Card>)
    | PlayerBust
    | PlayerBlackjack
    | DealerBust
    | DealerBlackjack
    | DealerStay
    | DealerHit
    | PlayerWin
    | PlayerLoose
    | Tie

  /** A user interface whose player answers from a script. */
  class Ui {
    /** The answers `get_action` still has to give, next one first. */
    var pending: seq<Action>
    /** Every event sent so far, oldest first. */
    var log: seq<Event>

    constructor (script: seq<Action>)
      ensures pending == script && log == []
    {
      pending := script;
      log := [];
    }

    /** `get_action`: the next scripted answer, or `None` once the script is used up. */
    method GetAction() returns (a: Option<Action>)
      modifies this
      ensures old(pending) == [] ==> a == None && pending == []
      ensures old(pending) != [] ==> a == Some(old(pending)[0]) && pending == old(pending)[1..]
      ensures log == old(log)
    {
      if pending == [] {
        a := None;
      } else {
        a := Some(pending[0]);
        pending := pending[1..];
      }
    }

    /** `send`: records the event. */
    method Send(e: Event)
      modifies this
      ensures log == old(log) + [e] && pending == old(pending)
    {
      log := log + [e];
    }
  }
}
