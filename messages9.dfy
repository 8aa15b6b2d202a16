/**
 * The v9 message (Tileworld_v9 MyCommunication): an immutable record of
 * sender, recipient, message text and discovered entity. The v9 agent uses
 * the text as a type tag, and only two texts are ever sent: the fuel-station
 * announcement and "TILE_PICKED_UP".
 */
module MessagesV9 {
  import opened World

  /** The recipient that addresses every agent. */
  const ALL: string := "ALL"

  /** The two message texts the v9 agent sends. */
  datatype Text = FuelStationFound | TilePickedUp

  datatype Message = Message(from: string, to: string, text: Text, entity: Option<Entity>)

  /** comm.getTo().equals("ALL") || comm.getTo().equals(name). */
  predicate AddressedTo(m: Message, name: string)
  {
    m.to == ALL || m.to == name
  }

  /**
   * Every fuel-station announcement carries a fuel station: the only place
   * that sends this text sends it with the station it saw.
   */
  predicate WellTagged(ms: seq<Message>)
  {
    forall i :: 0 <= i < |ms| && ms[i].text == FuelStationFound ==>
      ms[i].entity.Some? && ms[i].entity.value.kind == FuelStation
  }

  /** The environment's message list for the current step. */
  class Bus {
    var messages: seq<Message>

    constructor ()
      ensures messages == []
    {
      messages := [];
    }

    /** TWEnvironment.receiveMessage: append to the list. */
    method Post(m: Message)
      modifies this
      ensures messages == old(messages) + [m]
      ensures WellTagged(old(messages)) && (m.text == FuelStationFound ==> m.entity.Some? && m.entity.value.kind == FuelStation)
        ==> WellTagged(messages)
    {
      messages := messages + [m];
    }
  }
}
