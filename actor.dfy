/** The actor-side collaborators of the PipeTo bridge: actor references used
    as sender identities, and a recipient whose inbox receives told
    messages. */
module Actor {

  /** An actor reference. `NoSender` is the well-known "no sender" sentinel
      (`ActorRefs.NoSender`); `Ref` is any other addressable actor, known by
      its path. */
  datatype ActorRef = NoSender | Ref(path: string)

  /** One delivery: a message together with the sender it was told on
      behalf of. */
  datatype Envelope<+Msg> = Envelope(message: Msg, sender: ActorRef)

  /** A recipient (`ICanTell`): its mailbox is the sequence of envelopes told
      to it so far, oldest first. */
  class Recipient<Msg> {
    var inbox: seq<Envelope<Msg>>

    constructor ()
      ensures inbox == []
    {
      inbox := [];
    }

    /** `Tell(message, sender)`: enqueue exactly one envelope at the end of
        the inbox; the earlier entries stay as they were. */
    method Tell(message: Msg, sender: ActorRef)
      modifies this
      ensures inbox == old(inbox) + [Envelope(message, sender)]
    {
      inbox := inbox + [Envelope(message, sender)];
    }
  }
}
