/** `TicketsService`, `CommentsService` and `EventPublisherService` as classes over one
    store, each call proved to be the begin and the commit of one operation. */
module TicketsService {
  import opened Domain
  import opened Decimal
  import opened Tickets
  import opened Pagination

  datatype Reply<T> = Ok(value: T) | NotFoundError | ForbiddenError | UniqueError

  class Store {
    var users: map<Id, User>
    var tickets: seq<Ticket>
    var comments: seq<Comment>
    var events: seq<Payload>

    ghost function View(): State
      reads this
    {
      State(users, tickets, comments, events, map[])
    }
  }

  function ReplyOf(found: Found): Reply<Ticket> {
    match found
    case Found(ticket) => Ok(ticket)
    case NotFound => NotFoundError
    case Forbidden => ForbiddenError
  }

  /** A call that nothing overtakes: begin, then commit. */
  function Invoke(s: State, begin: Label, now: Time): State {
    Step(Step(s, begin), Commit(0, now))
  }

  /** A creation that nothing overtakes. */
  lemma CreationIs(s: State, actor: Actor, dto: CreateDto, now: Time)
    requires Authentic(s, actor) && s.operations == map[]
    ensures var reference := Reference(|s.tickets| + 1);
      Invoke(s, BeginCreate(0, actor, dto), now) ==
        if ReferenceTaken(s.tickets, reference) then s
        else
          s.(tickets := s.tickets + [NewTicket(actor, reference, dto)],
             events := s.events + [TicketCreated(|s.tickets|, actor.organizationId, actor.id, None)])
  {
    hide Reference, ReferenceTaken;
    var t := Step(s, BeginCreate(0, actor, dto));
    assert t == s.(operations := map[0 := Creating(actor, |s.tickets|, dto)]);
    assert t.operations - {0} == map[];
  }

  class EventPublisherService {
    /** Inserts the outbox row in the caller's transaction. */
    method Enqueue(tx: Store, payload: Payload)
      modifies tx`events
      ensures tx.events == old(tx.events) + [payload]
    {
      tx.events := tx.events + [payload];
    }
  }

  class Service {
    const prisma: Store
    const events: EventPublisherService

    constructor (prisma: Store, events: EventPublisherService)
      ensures this.prisma == prisma && this.events == events
    {
      this.prisma, this.events := prisma, events;
    }

    method NextReference() returns (reference: string)
      ensures reference == Reference(|prisma.tickets| + 1)
      ensures |reference| >= 10 && reference[..4] == "TKT-"
      ensures IsNumeral(reference[4..]) && Parse(reference[4..]) == |prisma.tickets| + 1
    {
      ReferencesSpellNumbers(|prisma.tickets| + 1);
      var count := |prisma.tickets|;
      reference := "TKT-" + PadStart(Print(count + 1), 6);
    }

    method Create(actor: Actor, dto: CreateDto, now: Time) returns (r: Reply<Ticket>)
      requires Authentic(prisma.View(), actor)
      modifies prisma`tickets, prisma`events
      ensures prisma.View() == Invoke(old(prisma.View()), BeginCreate(0, actor, dto), now)
      ensures r.UniqueError? <==> old(ReferenceTaken(prisma.tickets, Reference(|prisma.tickets| + 1)))
      ensures r.UniqueError? || (r.Ok? && prisma.tickets == old(prisma.tickets) + [r.value])
      ensures r.Ok? ==>
        var n := |old(prisma.tickets)|;
        var priority := if dto.priority.Some? then dto.priority.value else MEDIUM;
        r.value == Ticket(Reference(n + 1), dto.title, OPEN, priority, actor.organizationId, actor.id, None, None, 0) &&
        prisma.events == old(prisma.events) + [TicketCreated(n, actor.organizationId, actor.id, None)]
      ensures r.UniqueError? ==> prisma.tickets == old(prisma.tickets) && prisma.events == old(prisma.events)
    {
      hide Step, Reference, ReferenceTaken;
      CreationIs(prisma.View(), actor, dto, now);
      var reference := NextReference();
      if ReferenceTaken(prisma.tickets, reference) {
        return UniqueError;
      }
      var priority := if dto.priority.Some? then dto.priority.value else MEDIUM;
      var ticket := Ticket(reference, dto.title, OPEN, priority, actor.organizationId, actor.id, None, None, 0);
      var id := |prisma.tickets|;
      prisma.tickets := prisma.tickets + [ticket];
      events.Enqueue(prisma, TicketCreated(id, ticket.organizationId, ticket.createdById, ticket.assignedToId));
      r := Ok(ticket);
    }

    method FindOne(actor: Actor, id: Id) returns (r: Reply<Ticket>)
      ensures r == ReplyOf(Tickets.FindOne(prisma.tickets, actor, id))
      ensures r.NotFoundError? <==>
        !(id < |prisma.tickets| && prisma.tickets[id].organizationId == actor.organizationId)
      ensures r.ForbiddenError? <==>
        id < |prisma.tickets| && prisma.tickets[id].organizationId == actor.organizationId &&
        actor.role == CUSTOMER && prisma.tickets[id].createdById != actor.id
      ensures r.Ok? || r.NotFoundError? || r.ForbiddenError?
      ensures r.Ok? ==> id < |prisma.tickets| && r.value == prisma.tickets[id]
    {
      if id >= |prisma.tickets| || prisma.tickets[id].organizationId != actor.organizationId {
        return NotFoundError;
      }
      var ticket := prisma.tickets[id];
      if actor.role.CUSTOMER? && ticket.createdById != actor.id {
        return ForbiddenError;
      }
      r := Ok(ticket);
    }

    /** `order` is the table in each order the database may be asked for, `fold` its case
        folding. */
    method FindAll(actor: Actor, query: TicketQuery, order: OrderBy -> seq<Id>, fold: string -> string)
      returns (r: Paginated<Id>)
      requires forall o, i :: 0 <= i < |order(o)| ==> order(o)[i] < |prisma.tickets|
      requires PageOf(query.paging) >= 1 && LimitOf(query.paging) >= 1
      ensures var listing := order(ToPrismaOrderBy(query.sort, SORTABLE, NEWEST_FIRST));
        r == Listed(VisibleIds(prisma.tickets, actor, query, fold, listing), query.paging)
    {
      var listing := order(ToPrismaOrderBy(query.sort, SORTABLE, NEWEST_FIRST));
      var rows: seq<Id> := [];
      var i := 0;
      while i < |listing|
        invariant 0 <= i <= |listing|
        invariant rows == VisibleIds(prisma.tickets, actor, query, fold, listing[..i])
      {
        assert listing[..i + 1][..i] == listing[..i];
        if Listable(prisma.tickets[listing[i]], actor, query, fold) {
          rows := rows + [listing[i]];
        }
        i := i + 1;
      }
      assert listing[..|listing|] == listing;
      SliceIsPage(rows, query.paging);
      r := BuildPaginatedResult(Slice(rows, ToPage(query.paging)), |rows|, query.paging);
    }

    method Update(actor: Actor, id: Id, dto: UpdateDto, now: Time) returns (r: Reply<Ticket>)
      requires Authentic(prisma.View(), actor)
      modifies prisma`tickets, prisma`events
      ensures prisma.View() == Invoke(old(prisma.View()), BeginUpdate(0, actor, id, dto), now)
      ensures r.NotFoundError? <==>
        !(id < |old(prisma.tickets)| && old(prisma.tickets)[id].organizationId == actor.organizationId)
      ensures r.ForbiddenError? <==>
        id < |old(prisma.tickets)| && old(prisma.tickets)[id].organizationId == actor.organizationId &&
        actor.role == CUSTOMER &&
        (old(prisma.tickets)[id].createdById != actor.id || dto.status != None || dto.priority != None)
      ensures r.Ok? || r.NotFoundError? || r.ForbiddenError?
      ensures !r.Ok? ==> prisma.tickets == old(prisma.tickets) && prisma.events == old(prisma.events)
      ensures r.Ok? ==>
        id < |old(prisma.tickets)| &&
        var was := old(prisma.tickets)[id];
        var closes := dto.status == Some(CLOSED) && was.status != CLOSED;
        prisma.tickets == old(prisma.tickets)[id := r.value] &&
        r.value.title == (if dto.title.Some? then dto.title.value else was.title) &&
        r.value.priority == (if dto.priority.Some? then dto.priority.value else was.priority) &&
        r.value.status == (if dto.status.Some? then dto.status.value else was.status) &&
        r.value.closedAt == (if closes then Some(now) else was.closedAt) &&
        r.value.assignedToId == was.assignedToId && r.value.reference == was.reference &&
        r.value.organizationId == was.organizationId && r.value.createdById == was.createdById &&
        prisma.events == old(prisma.events) + [TicketUpdated(id, actor.organizationId, actor.id)] +
          if closes then [TicketClosed(id, actor.organizationId, actor.id)] else []
    {
      ghost var s := prisma.View();
      var existing := FindOne(actor, id);
      if !existing.Ok? {
        return existing;
      }
      if actor.role.CUSTOMER? {
        if dto.status.Some? || dto.priority.Some? {
          return ForbiddenError;
        }
      }
      var willClose := dto.status == Some(CLOSED) && !existing.value.status.CLOSED?;
      var ticket := prisma.tickets[id];
      if dto.title.Some? {
        ticket := ticket.(title := dto.title.value);
      }
      if dto.priority.Some? {
        ticket := ticket.(priority := dto.priority.value);
      }
      if dto.status.Some? {
        ticket := SetStatus(ticket, dto.status.value);
      }
      if willClose {
        ticket := ticket.(closedAt := Some(now));
      }
      prisma.tickets := prisma.tickets[id := ticket];
      events.Enqueue(prisma, TicketUpdated(id, ticket.organizationId, actor.id));
      if willClose {
        events.Enqueue(prisma, TicketClosed(id, ticket.organizationId, actor.id));
      }
      r := Ok(ticket);
    }

    method Assign(actor: Actor, id: Id, assigneeId: Id, now: Time) returns (r: Reply<Ticket>)
      requires Authentic(prisma.View(), actor)
      modifies prisma`tickets, prisma`events
      ensures prisma.View() == Invoke(old(prisma.View()), BeginAssign(0, actor, id, assigneeId), now)
      ensures r.ForbiddenError? <==>
        id < |old(prisma.tickets)| && old(prisma.tickets)[id].organizationId == actor.organizationId &&
        actor.role == CUSTOMER && old(prisma.tickets)[id].createdById != actor.id
      ensures r.Ok? <==>
        id < |old(prisma.tickets)| && old(prisma.tickets)[id].organizationId == actor.organizationId &&
        (actor.role == CUSTOMER ==> old(prisma.tickets)[id].createdById == actor.id) &&
        assigneeId in prisma.users && prisma.users[assigneeId].organizationId == actor.organizationId &&
        prisma.users[assigneeId].isActive && prisma.users[assigneeId].role in {AGENT, ADMIN}
      ensures r.Ok? || r.NotFoundError? || r.ForbiddenError?
      ensures !r.Ok? ==> prisma.tickets == old(prisma.tickets) && prisma.events == old(prisma.events)
      ensures r.Ok? ==>
        id < |old(prisma.tickets)| &&
        var was := old(prisma.tickets)[id];
        prisma.tickets == old(prisma.tickets)[id := r.value] &&
        r.value.assignedToId == Some(assigneeId) && r.value.status == IN_PROGRESS &&
        r.value.title == was.title && r.value.priority == was.priority && r.value.closedAt == was.closedAt &&
        r.value.reference == was.reference && r.value.organizationId == was.organizationId &&
        r.value.createdById == was.createdById &&
        prisma.events == old(prisma.events) + [TicketAssigned(id, actor.organizationId, assigneeId, actor.id)]
    {
      var found := FindOne(actor, id);
      if !found.Ok? {
        return found;
      }
      if assigneeId !in prisma.users {
        return NotFoundError;
      }
      var assignee := prisma.users[assigneeId];
      if assignee.organizationId != actor.organizationId || !assignee.isActive || !(assignee.role in {AGENT, ADMIN}) {
        return NotFoundError;
      }
      var ticket := SetStatus(prisma.tickets[id], IN_PROGRESS).(assignedToId := Some(assigneeId));
      prisma.tickets := prisma.tickets[id := ticket];
      events.Enqueue(prisma, TicketAssigned(id, ticket.organizationId, assigneeId, actor.id));
      r := Ok(ticket);
    }
  }

  class CommentsService {
    const prisma: Store
    const tickets: Service
    const events: EventPublisherService

    constructor (tickets: Service, events: EventPublisherService)
      ensures this.prisma == tickets.prisma && this.tickets == tickets && this.events == events
    {
      this.prisma, this.tickets, this.events := tickets.prisma, tickets, events;
    }

    method Create(actor: Actor, ticketId: Id, internal: bool, now: Time) returns (r: Reply<Comment>)
      requires tickets.prisma == prisma && Authentic(prisma.View(), actor)
      modifies prisma`comments, prisma`events
      ensures prisma.View() == Invoke(old(prisma.View()), BeginComment(0, actor, ticketId, internal), now)
      ensures r.NotFoundError? <==>
        !(ticketId < |prisma.tickets| && prisma.tickets[ticketId].organizationId == actor.organizationId)
      ensures r.ForbiddenError? <==>
        ticketId < |prisma.tickets| && prisma.tickets[ticketId].organizationId == actor.organizationId &&
        actor.role == CUSTOMER && prisma.tickets[ticketId].createdById != actor.id
      ensures r.Ok? || r.NotFoundError? || r.ForbiddenError?
      ensures !r.Ok? ==> prisma.comments == old(prisma.comments) && prisma.events == old(prisma.events)
      ensures r.Ok? ==>
        var isInternal := internal && actor.role != CUSTOMER;
        r.value == Comment(ticketId, actor.id, isInternal) &&
        prisma.comments == old(prisma.comments) + [r.value] &&
        prisma.events == old(prisma.events) +
          [CommentCreated(|old(prisma.comments)|, ticketId, actor.organizationId, actor.id, isInternal)]
    {
      var found := tickets.FindOne(actor, ticketId);
      if !found.Ok? {
        return if found.NotFoundError? then NotFoundError else ForbiddenError;
      }
      var isInternal := if actor.role.CUSTOMER? then false else internal;
      var comment := Comment(ticketId, actor.id, isInternal);
      var id := |prisma.comments|;
      prisma.comments := prisma.comments + [comment];
      events.Enqueue(prisma, CommentCreated(id, ticketId, actor.organizationId, actor.id, isInternal));
      r := Ok(comment);
    }

    /** A page of the comments of a ticket the actor may read, oldest first. */
    method FindForTicket(actor: Actor, ticketId: Id, query: Query) returns (r: Reply<Paginated<Comment>>)
      requires tickets.prisma == prisma
      requires PageOf(query) >= 1 && LimitOf(query) >= 1
      ensures var found := Tickets.FindOne(prisma.tickets, actor, ticketId);
        r == if found.Found? then Ok(Listed(CommentsFor(prisma.comments, ticketId, actor.role), query))
             else if found.NotFound? then NotFoundError else ForbiddenError
    {
      var found := tickets.FindOne(actor, ticketId);
      if !found.Ok? {
        return if found.NotFoundError? then NotFoundError else ForbiddenError;
      }
      var rows: seq<Comment> := [];
      var i := 0;
      while i < |prisma.comments|
        invariant 0 <= i <= |prisma.comments|
        invariant rows == CommentsFor(prisma.comments[..i], ticketId, actor.role)
      {
        assert prisma.comments[..i + 1][..i] == prisma.comments[..i];
        if Readable(prisma.comments[i], ticketId, actor.role) {
          rows := rows + [prisma.comments[i]];
        }
        i := i + 1;
      }
      assert prisma.comments[..|prisma.comments|] == prisma.comments;
      SliceIsPage(rows, query);
      r := Ok(BuildPaginatedResult(Slice(rows, ToPage(query)), |rows|, query));
    }
  }

  /** Customers never see internal notes. */
  predicate Readable(c: Comment, ticketId: Id, role: Role) {
    c.ticketId == ticketId && (role.CUSTOMER? ==> !c.isInternal)
  }

  function CommentsFor(comments: seq<Comment>, ticketId: Id, role: Role): seq<Comment> {
    if comments == [] then []
    else
      var last := comments[|comments| - 1];
      CommentsFor(comments[..|comments| - 1], ticketId, role) + (if Readable(last, ticketId, role) then [last] else [])
  }

  /** Readers get the comments in the order in which they were written: those of a later
      stretch come after those of an earlier one. */
  lemma {:induction false} CommentsForKeepsOrder(
      earlier: seq<Comment>, later: seq<Comment>, ticketId: Id, role: Role)
    ensures CommentsFor(earlier + later, ticketId, role) ==
      CommentsFor(earlier, ticketId, role) + CommentsFor(later, ticketId, role)
  {
    if later == [] {
      assert earlier + later == earlier;
    } else {
      CommentsForKeepsOrder(earlier, later[..|later| - 1], ticketId, role);
      assert (earlier + later)[..|earlier + later| - 1] == earlier + later[..|later| - 1];
    }
  }

  /** The comments a reader gets, over all pages, are exactly those of the ticket that the
      reader may see, each as often as it was written: all of them for staff, the public
      ones for a customer. */
  lemma {:induction false} CommentsForAreReadable(comments: seq<Comment>, ticketId: Id, role: Role, limit: nat)
    requires limit >= 1
    ensures var rows := CommentsFor(comments, ticketId, role);
      FirstPages(rows, TotalPages(|rows|, limit), limit) == rows &&
      (forall c :: multiset(rows)[c] ==
        if c.ticketId == ticketId && !(role.CUSTOMER? && c.isInternal) then multiset(comments)[c] else 0)
  {
    PagesPartitionTheListing(CommentsFor(comments, ticketId, role), limit, 1);
    if comments == [] {
    } else {
      assert comments == comments[..|comments| - 1] + [comments[|comments| - 1]];
      CommentsForAreReadable(comments[..|comments| - 1], ticketId, role, limit);
    }
  }
}
