/** The event envelope every producer writes, and the routing table the producer and the audit sink share. */
module Events {
  import opened Common

  /** A JSON value as the sink inspects it: a string (with its UUID reading, if it parses) or anything else. */
  datatype Json = Str(text: string, uuid: Option<Uuid>) | Other(tag: nat)

  /** The `data` member of an event: an object, or a value `get` finds nothing in. */
  datatype Data = Object(fields: map<string, Json>) | Scalar(tag: nat)

  /** The envelope as `KafkaEvent::new` builds it: id and type are always present. */
  datatype Envelope = Envelope(eventId: Uuid, eventType: string, data: Data)

  datatype EventSpec = EventSpec(eventType: string, resource: string, idField: string)

  const ALL_SPECS: seq<EventSpec> := [
    EventSpec("order_created", "order", "order_id"),
    EventSpec("order_status_changed", "order", "order_id"),
    EventSpec("booking_created", "booking", "booking_id"),
    EventSpec("booking_cancelled", "booking", "booking_id"),
    EventSpec("user_registered", "user", "user_id")
  ]

  /** The first entry of `specs` for an event type. */
  function FindSpec(specs: seq<EventSpec>, eventType: string): Option<EventSpec> {
    if specs == [] then None
    else if specs[0].eventType == eventType then Some(specs[0])
    else FindSpec(specs[1..], eventType)
  }

  function SpecForEventType(eventType: string): Option<EventSpec> {
    FindSpec(ALL_SPECS, eventType)
  }
}
