// Values shared by the two state machines: identifiers, payloads and the subscriber registry.
module Types {
  datatype Option<+T> = None | Some(value: T)

  type MessageId = string
  type SubscriberId = nat

  datatype Json = Json(text: string)
  type Payload = map<string, Json>

  const ENRICHMENT_KEY := "_enrichment"

  /** delivery_attempts has a unique constraint on (message_id, subscriber_id); the pair names a row. */
  datatype RowId = RowId(message: MessageId, subscriber: SubscriberId)

  datatype Subscriber = Subscriber(active: bool, deleted: bool)
  type Subscribers = map<SubscriberId, Subscriber>

  /** The test made before every POST, and by the consumer when it creates attempts. */
  predicate Receives(subs: Subscribers, id: SubscriberId) {
    id in subs && subs[id].active && !subs[id].deleted
  }

  predicate Deleted(subs: Subscribers, id: SubscriberId) {
    id in subs && subs[id].deleted
  }

  /** Registry writes. `Patch` carries the new is_active when the request has one. It is also
      enabled on a deleted subscriber: a PATCH may read before a concurrent DELETE commits. */
  datatype SubscriberEvent =
    | Register(id: SubscriberId)
    | Patch(id: SubscriberId, active: Option<bool>)
    | Delete(id: SubscriberId)

  predicate CanChange(subs: Subscribers, e: SubscriberEvent) {
    if e.Register? then e.id !in subs else e.id in subs
  }

  function Change(subs: Subscribers, e: SubscriberEvent): Subscribers
    requires CanChange(subs, e)
  {
    match e
    case Register(id) => subs[id := Subscriber(true, false)]
    case Patch(id, active) => if active.Some? then subs[id := subs[id].(active := active.value)] else subs
    case Delete(id) => subs[id := Subscriber(false, true)]
  }

  /** What a worker sends: `ik.enriched_payload or ik.raw_payload`; an empty dict counts as absent. */
  function BodyToSend(raw: Payload, enriched: Option<Payload>): Payload {
    if enriched.Some? && enriched.value != map[] then enriched.value else raw
  }

  predicate NoDuplicates<T(==)>(xs: seq<T>) {
    forall i, j :: 0 <= i < j < |xs| ==> xs[i] != xs[j]
  }

  lemma SubsetIsNoLarger<T>(a: set<T>, b: set<T>)
    requires a <= b
    ensures |a| <= |b|
  {
    assert b == a + (b - a);
  }
}
