/** The completion of a request: `done` exchanges the flag `doneSent` first and sends the event afterwards. */
module Completions {
  /** Who won the exchange on `doneSent`: a callback or the request's own handler, or some other thread. */
  datatype Winner = Nobody | Inside | Outside

  /** Who stands between that exchange and sending the event. */
  datatype Sender = NoSender | ByReader(reader: nat) | ByOwner | ByOutsider

  /** `doneSent` is `winner != Nobody`, `ready` is the state of the event; `called` records that a callback or the
      request's own handler has called `done`, whether it won or not. */
  datatype Completion = Completion(winner: Winner, sender: Sender, ready: bool, called: bool)

  const PENDING := Completion(Nobody, NoSender, false, false)

  /** The exchange on `doneSent`; only the winner goes on to send the event. */
  function Exchange(d: Completion, who: Sender): Completion {
    var c := d.(called := d.called || who != ByOutsider);
    if d.winner != Nobody then c else c.(winner := if who == ByOutsider then Outside else Inside, sender := who)
  }

  function Sent(d: Completion): Completion { d.(sender := NoSender, ready := true) }

  /** The event is ready once the winner of the exchange has sent it. */
  predicate Consistent(d: Completion) {
    && (d.ready <==> d.winner != Nobody && d.sender == NoSender)
    && (d.winner == Nobody ==> d.sender == NoSender && !d.called)
    && (d.sender.ByReader? || d.sender == ByOwner ==> d.winner == Inside)
    && (d.sender == ByOutsider ==> d.winner == Outside)
    && (d.winner == Inside ==> d.called)
  }
}
