/** The one-shot shutdown channel's sending half and the take-once slot that holds it. */
module Signal {

  import opened Wrappers

  /** The sending half of the one-shot channel whose receiving half the server awaits
      before it starts its graceful drain. `receiverOpen` tells whether that receiver
      is still alive when the sender is used. */
  datatype Sender = Sender(receiverOpen: bool)

  /** What a one-shot `send` gives back: the value was delivered, or it is returned
      to the caller because the receiver is gone. */
  datatype SendResult = Delivered | Returned(value: bool)

  /** Sending on a one-shot channel consumes the sender. */
  function Send(tx: Sender, value: bool): (r: SendResult)
    ensures r.Delivered? <==> tx.receiverOpen
    ensures r.Returned? ==> r.value == value
  {
    if tx.receiverOpen then Delivered else Returned(value)
  }

  /** The result of one take: what the caller received and what the slot holds afterwards. */
  datatype Taken = Taken(sender: Option<Sender>, rest: Option<Sender>)

  /** `unwrap_shutdown_tx` on the slot's content `held`. When the lock cannot be
      acquired (it is poisoned), `.ok()?` returns `None` before `take` runs, so the
      slot keeps what it held. */
  function TakeFrom(held: Option<Sender>, lockAcquired: bool): (t: Taken)
    ensures t.sender.Some? <==> lockAcquired && held.Some?
    ensures t.sender.Some? ==> t.sender == held && t.rest == None
    ensures t.sender.None? ==> t.rest == held
  {
    if lockAcquired then Taken(held, None) else Taken(None, held)
  }

  /** The shared single-slot holder of the shutdown sender. The mutex around it only
      makes `Take` atomic, so the slot is modelled with sequential calls. */
  class ShutdownSlot {
    var held: Option<Sender>

    /** `with_shutdown_tx`: the slot starts out holding the sender. */
    constructor (tx: Sender)
      ensures held == Some(tx)
    {
      held := Some(tx);
    }

    /** `unwrap_shutdown_tx`: hand out the sender and leave the slot empty. */
    method Take(lockAcquired: bool) returns (tx: Option<Sender>)
      modifies this
      ensures tx.Some? <==> lockAcquired && old(held).Some?
      ensures tx.Some? ==> tx == old(held) && held == None
      ensures tx.None? ==> held == old(held)
      ensures Taken(tx, held) == TakeFrom(old(held), lockAcquired)
    {
      if lockAcquired {
        tx := held;
        held := None;
      } else {
        tx := None;
      }
    }
  }

  /** A freshly created slot hands its sender to the first take; every later take
      finds it empty. */
  method TakeTwice(tx: Sender) returns (first: Option<Sender>, second: Option<Sender>)
    ensures first == Some(tx)
    ensures second == None
  {
    var slot := new ShutdownSlot(tx);
    first := slot.Take(true);
    second := slot.Take(true);
  }
}
