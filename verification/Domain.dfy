/** Entities, event payloads and the message topology shared by every component. */
module Domain {
  type Id = nat
  type Time = int

  datatype Option<+T> = None | Some(value: T)

  datatype Role = ADMIN | AGENT | CUSTOMER

  datatype Status = OPEN | IN_PROGRESS | PENDING | RESOLVED | CLOSED

  datatype Priority = LOW | MEDIUM | HIGH | URGENT

  /** The part of a user row the modelled code looks at. */
  datatype User = User(organizationId: Id, role: Role, isActive: bool)

  /** The payload of each event a service may enqueue; the constructor is the routing key.
      `NotificationCreated` is a key that no service enqueues and no projection knows. */
  datatype Payload =
    | TicketCreated(ticketId: Id, organizationId: Id, createdById: Id, assignedToId: Option<Id>)
    | TicketUpdated(ticketId: Id, organizationId: Id, updatedById: Id)
    | TicketAssigned(ticketId: Id, organizationId: Id, assigneeId: Id, assignedById: Id)
    | TicketClosed(ticketId: Id, organizationId: Id, closedById: Id)
    | CommentCreated(commentId: Id, ticketId: Id, organizationId: Id, authorId: Id, isInternal: bool)
    | NotificationCreated

  function RoutingKey(p: Payload): string {
    match p
    case TicketCreated(_, _, _, _) => "ticket.created"
    case TicketUpdated(_, _, _) => "ticket.updated"
    case TicketAssigned(_, _, _, _) => "ticket.assigned"
    case TicketClosed(_, _, _) => "ticket.closed"
    case CommentCreated(_, _, _, _, _) => "comment.created"
    case NotificationCreated => "notification.created"
  }

  /** The three consumer queues. Each consumer owns one queue, so the queue also
      stands for the consumer name that keys `processed_events`. */
  datatype Queue = NotificationQueue | AuditQueue | AnalyticsQueue

  function Bindings(q: Queue): seq<string> {
    match q
    case NotificationQueue =>
      ["ticket.created", "ticket.updated", "ticket.assigned", "ticket.closed", "comment.created"]
    case AuditQueue => ["#"]
    case AnalyticsQueue => ["ticket.created", "ticket.assigned", "ticket.closed"]
  }

  /** Topic matching for the two kinds of pattern in use: a literal key and '#'. */
  predicate Matches(pattern: string, key: string) {
    pattern == "#" || pattern == key
  }

  /** The exchange copies a message into every queue with a matching binding. */
  predicate Bound(q: Queue, key: string) {
    exists i :: 0 <= i < |Bindings(q)| && Matches(Bindings(q)[i], key)
  }

  /** A message on the wire: `eventId` is the outbox row's id. */
  datatype Event = Event(eventId: Id, payload: Payload)
}
