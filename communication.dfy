/**
 * The v13 message record (MyCommunication): a typed message about a discovered
 * entity, with derived priority, urgency and content, broadcast addressing,
 * and the per-agent "processed by" bookkeeping that makes every agent apply a
 * message at most once. The environment's message bus is modelled here too.
 */
module Communication {
  import opened World

  datatype MessageType =
    | TileFound | HoleFound | FuelStationFound | TilePickedUp | HoleFilled
    | FuelLow | RequestHelp | OfferHelp | TaskCompleted

  /** The recipient "ALL" is stored as no recipient at all (a null `to`). */
  const ALL: string := "ALL"

  /** Base priority of a message type. */
  function BasePriority(t: MessageType): (p: int)
    ensures 1 <= p <= 5
    ensures p == 5 <==> t == FuelStationFound
    ensures p == 4 <==> t == FuelLow
    ensures p == 3 <==> t == RequestHelp
    ensures p == 2 <==> t == TileFound || t == HoleFound
  {
    match t
    case FuelStationFound => 5
    case FuelLow => 4
    case RequestHelp => 3
    case TileFound => 2
    case HoleFound => 2
    case _ => 1
  }

  /** Extra priority for the entity a message carries. */
  function EntityBonus(entity: Option<Entity>): (b: int)
    ensures 0 <= b <= 2
    ensures b == 2 <==> entity.Some? && entity.value.kind == FuelStation
    ensures b == 1 <==> entity.Some? && entity.value.kind == Tile
  {
    match entity
    case None => 0
    case Some(e) => if e.kind == FuelStation then 2 else if e.kind == Tile then 1 else 0
  }

  /** calculatePriority: base value plus entity bonus. */
  function CalculatePriority(t: MessageType, entity: Option<Entity>): (p: int)
    ensures 1 <= p <= 7
    ensures p - EntityBonus(entity) == BasePriority(t)
  {
    BasePriority(t) + EntityBonus(entity)
  }

  /** Only a found fuel station that carries the station reaches the top priority. */
  lemma TopPriority(t: MessageType, entity: Option<Entity>)
    ensures CalculatePriority(t, entity) == 7 <==> t == FuelStationFound && entity.Some? && entity.value.kind == FuelStation
  {
  }

  /** A message without an entity is ranked by its type alone. */
  lemma PriorityWithoutEntity(t: MessageType)
    ensures CalculatePriority(t, None) == BasePriority(t) <= 5
  {
  }

  /** calculateUrgencyLevel. */
  function CalculateUrgencyLevel(t: MessageType): (u: int)
    ensures 1 <= u <= 5
    ensures u == 5 <==> t == FuelLow || t == RequestHelp
    ensures u == 4 <==> t == FuelStationFound
    ensures u == 3 <==> t == TileFound || t == HoleFound
  {
    match t
    case FuelLow => 5
    case RequestHelp => 5
    case FuelStationFound => 4
    case TileFound => 3
    case HoleFound => 3
    case _ => 1
  }

  /** The message text set by the constructor. */
  function Content(t: MessageType): (s: string)
    ensures s == "TILE_PICKED_UP" <==> t == TilePickedUp
    ensures s == "Entity found" <==> t == TileFound
    ensures s == "Fuel station found" <==> t == FuelStationFound
    ensures s == "Unknown message type" <==> t !in {TilePickedUp, TileFound, FuelStationFound}
  {
    match t
    case TilePickedUp => "TILE_PICKED_UP"
    case TileFound => "Entity found"
    case FuelStationFound => "Fuel station found"
    case _ => "Unknown message type"
  }

  /** The stored recipient: none for "ALL", the given name otherwise. */
  function Addressee(to: string): (r: Option<string>)
    ensures r.None? <==> to == ALL
    ensures r.Some? ==> r.value == to
  {
    if to == ALL then None else Some(to)
  }

  predicate NoDup(l: seq<string>)
  {
    forall i, j :: 0 <= i < j < |l| ==> l[i] != l[j]
  }

  /** markProcessedBy on the list: append the id unless it is already there. */
  function Marked(l: seq<string>, a: string): (r: seq<string>)
    ensures a in r
    ensures forall b :: b in r <==> b in l || b == a
    ensures |l| <= |r| <= |l| + 1 && r[..|l|] == l
    ensures a in l ==> r == l
    ensures NoDup(l) ==> NoDup(r)
  {
    if a in l then l else l + [a]
  }

  /** Marking twice is marking once. */
  lemma MarkedIdempotent(l: seq<string>, a: string)
    ensures Marked(Marked(l, a), a) == Marked(l, a)
  {
  }

  /** Marks commute as far as membership goes, and a mark once made is never lost. */
  lemma MarkedKeeps(l: seq<string>, a: string, b: string)
    ensures a in Marked(Marked(l, a), b)
    ensures forall c :: c in Marked(Marked(l, a), b) <==> c in Marked(Marked(l, b), a)
  {
  }

  /** containsAll: every id of ids occurs in l. */
  function ContainsAll(l: seq<string>, ids: seq<string>): (r: bool)
    ensures r <==> forall i :: 0 <= i < |ids| ==> ids[i] in l
  {
    if ids == [] then true
    else ids[0] in l && ContainsAll(l, ids[1..])
  }

  /** After marking every id of ids, in order, the list contains all of them. */
  function MarkAll(l: seq<string>, ids: seq<string>): seq<string>
    decreases |ids|
  {
    if ids == [] then l else MarkAll(Marked(l, ids[0]), ids[1..])
  }

  lemma {:induction false} MarkAllCovers(l: seq<string>, ids: seq<string>)
    requires NoDup(l)
    decreases |ids|
    ensures ContainsAll(MarkAll(l, ids), ids)
    ensures NoDup(MarkAll(l, ids))
    ensures forall b :: b in l ==> b in MarkAll(l, ids)
  {
    if ids != [] {
      MarkAllCovers(Marked(l, ids[0]), ids[1..]);
      var r := MarkAll(l, ids);
      assert ids[0] in r;
      forall i | 0 <= i < |ids| ensures ids[i] in r {
        if i > 0 { assert ids[i] == ids[1..][i - 1]; }
      }
    }
  }

  /** A message record (MyCommunication). */
  class Message {
    const senderId: string
    /** Message.to: None for a broadcast. */
    const to: Option<string>
    const isBroadcast: bool
    const messageType: MessageType
    /** The discovered entity, if any. */
    const entity: Option<Entity>
    const content: string
    /** Wall-clock milliseconds at construction. */
    const timestamp: int
    const priority: int
    const urgency: int
    var isProcessed: bool
    var processedBy: seq<string>

    ghost predicate Valid()
      reads this
    {
      NoDup(processedBy) && 1 <= priority <= 7 && 1 <= urgency <= 5
    }

    constructor (senderId: string, to: string, messageType: MessageType, entity: Option<Entity>, millis: int)
      ensures Valid()
      ensures this.senderId == senderId && this.messageType == messageType && this.entity == entity
      ensures this.to == Addressee(to) && isBroadcast == (to == ALL)
      ensures content == Content(messageType) && timestamp == millis
      ensures priority == CalculatePriority(messageType, entity) && urgency == CalculateUrgencyLevel(messageType)
      ensures !isProcessed && processedBy == []
    {
      this.senderId := senderId;
      this.to := Addressee(to);
      this.messageType := messageType;
      this.entity := entity;
      this.isProcessed := false;
      this.content := Content(messageType);
      this.timestamp := millis;
      this.isBroadcast := to == ALL;
      this.priority := CalculatePriority(messageType, entity);
      this.urgency := CalculateUrgencyLevel(messageType);
      this.processedBy := [];
    }

    /** isProcessedBy. */
    function IsProcessedBy(agentId: string): (r: bool)
      reads this
      ensures r <==> agentId in processedBy
    {
      agentId in processedBy
    }

    /** markProcessedBy: afterwards the agent is recorded, and nothing recorded before is lost. */
    method MarkProcessedBy(agentId: string)
      requires Valid()
      modifies this`processedBy
      ensures Valid()
      ensures processedBy == Marked(old(processedBy), agentId)
      ensures IsProcessedBy(agentId)
      ensures forall b :: old(IsProcessedBy(b)) ==> IsProcessedBy(b)
    {
      if agentId !in processedBy {
        processedBy := processedBy + [agentId];
      }
    }

    /** isProcessedByAll. */
    function IsProcessedByAll(allAgentIds: seq<string>): (r: bool)
      reads this
      ensures r <==> forall i :: 0 <= i < |allAgentIds| ==> IsProcessedBy(allAgentIds[i])
    {
      ContainsAll(processedBy, allAgentIds)
    }

    /** isProcessed. */
    function IsProcessed(): bool
      reads this
    {
      isProcessed
    }

    /** setProcessed: isProcessed() then returns the value set. */
    method SetProcessed(processed: bool)
      modifies this`isProcessed
      ensures IsProcessed() == processed
    {
      isProcessed := processed;
    }
  }

  /** The environment's message list for the current step. */
  class MessageBus {
    var messages: seq<Message>

    constructor ()
      ensures messages == []
    {
      messages := [];
    }

    /** TWEnvironment.receiveMessage: append to the bus. */
    method Post(m: Message)
      modifies this
      ensures messages == old(messages) + [m]
    {
      messages := messages + [m];
    }
  }
}
