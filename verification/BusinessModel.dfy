/**
  The business facts a snapshot freezes (internal/business/contracts.go, version_vector.go).
  `body` stands for the fields no rule inspects.
*/
module BusinessModel {
  import opened Wrappers

  datatype Ticket = Ticket(tenantId: string, ticketId: string, revision: int, orderId: Option<string>, status: string,
                           policyVersion: string, body: string)

  datatype Order = Order(tenantId: string, orderId: string, revision: int, deliveryId: Option<string>, body: string)

  datatype Event = Event(eventId: string, body: string)

  datatype Delivery = Delivery(tenantId: string, deliveryId: string, orderId: string, aggregateRevision: int,
                               events: Option<seq<Event>>, body: string)

  datatype Policy = Policy(version: string, revision: int, corpus: string)

  datatype Index = Index(id: string, profileHash: string, contentHash: string)

  datatype Facts = Facts(ticket: Ticket, order: Option<Order>, delivery: Option<Delivery>, policy: Policy, index: Index)

  datatype Relation = Relation(id: Option<string>, exists': bool, revision: Option<int>)

  datatype VersionVector = VersionVector(schemaVersion: int, ticketId: string, ticketRevision: int, order: Relation,
                                         delivery: Relation, policy: Policy, index: Index)

  const NO_RELATION := Relation(None, false, None)

  /** Every fact and missing relationship: a delivery is reachable only through an existing order. */
  function VectorOf(f: Facts): VersionVector {
    var order := if f.ticket.orderId.None? then NO_RELATION
                 else if f.order.None? then Relation(f.ticket.orderId, false, None)
                 else Relation(f.ticket.orderId, true, Some(f.order.value.revision));
    var delivery := if !order.exists' || f.order.value.deliveryId.None? then NO_RELATION
                    else if f.delivery.None? then Relation(f.order.value.deliveryId, false, None)
                    else Relation(f.order.value.deliveryId, true, Some(f.delivery.value.aggregateRevision));
    VersionVector(1, f.ticket.ticketId, f.ticket.revision, order, delivery, f.policy, f.index)
  }
}
