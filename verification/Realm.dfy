/** The realm as the adapter's environment: ordered history, event queues that
    are pruned when polled, and registration
    (packages/zulip/in-process-realm.ts). */
module Realm {
  import opened Core

  type UserId = nat
  type QueueId = nat

  datatype EventType = MessageType | ReactionType | RealmType
  datatype EventBody =
    | MessageEvent(m: Message)
    | ReactionEvent(target: nat, actor: UserId)
    | SettingsEvent
    | Heartbeat

  datatype QueuedEvent = QueuedEvent(id: int, body: EventBody)

  /** `lastIssued` starts at -1, so a queue's event ids count up from 0. */
  datatype EventQueue = EventQueue(owner: UserId, eventTypes: Option<set<EventType>>, lastIssued: int,
                                   pending: seq<QueuedEvent>)

  /** `serial` is the realm's one id counter; messages and queues both draw on it. */
  datatype RealmState = RealmState(history: seq<Message>, queues: map<QueueId, EventQueue>, serial: nat)

  predicate Wants(q: EventQueue, t: EventType) {
    q.eventTypes.None? || t in q.eventTypes.value
  }

  function Enqueue(q: EventQueue, body: EventBody): EventQueue {
    var id := q.lastIssued + 1;
    q.(lastIssued := id, pending := q.pending + [QueuedEvent(id, body)])
  }

  predicate Receives(q: EventQueue, audience: set<UserId>, t: EventType) {
    q.owner in audience && Wants(q, t)
  }

  function Deliver(r: RealmState, audience: set<UserId>, t: EventType, body: EventBody): RealmState {
    r.(queues := map id | id in r.queues ::
        if Receives(r.queues[id], audience, t) then Enqueue(r.queues[id], body) else r.queues[id])
  }

  /** `storeMessage`: the message joins history and reaches the queues of everyone
      it was received by. `draft` carries everything but the id. */
  function StoreMessage(r: RealmState, draft: Message): RealmState {
    var m := draft.(id := r.serial + 1);
    Deliver(r.(history := r.history + [m], serial := r.serial + 1), m.receivedBy, MessageType, MessageEvent(m))
  }

  function Register(r: RealmState, owner: UserId, eventTypes: Option<set<EventType>>): RealmState {
    var id := r.serial + 1;
    r.(queues := r.queues[id := EventQueue(owner, eventTypes, -1, [])], serial := id)
  }

  function DropQueue(r: RealmState, id: QueueId): RealmState {
    r.(queues := r.queues - {id})
  }

  predicate OwnsQueue(r: RealmState, caller: UserId, id: QueueId) {
    id in r.queues && r.queues[id].owner == caller
  }

  function After(last: int): QueuedEvent -> bool { (e: QueuedEvent) => last < e.id }

  /** The queue `GET /events` leaves behind: pruned up to what the caller
      acknowledged, and given a heartbeat when that leaves nothing to answer. */
  function Polled(q: EventQueue, last: int): EventQueue {
    var pruned := q.(pending := Filter(After(last), q.pending));
    if pruned.pending == [] then Enqueue(pruned, Heartbeat) else pruned
  }

  /** The events that poll answers with. */
  function Answered(q: EventQueue, last: int): seq<QueuedEvent> {
    Polled(q, last).pending
  }

  function PollEvents(r: RealmState, id: QueueId, last: int): RealmState
    requires id in r.queues
  {
    r.(queues := r.queues[id := Polled(r.queues[id], last)])
  }
}
