/** The ticket aggregate: `TicketsService` and `CommentsService` as a transition system
    over the tickets, the comments and the events they enqueue. Every operation is split
    where the source awaits between reading and writing, so operations interleave. */
module Tickets {
  import opened Domain
  import opened Decimal

  /** `departures` is a history field: how often the ticket has left CLOSED. */
  datatype Ticket = Ticket(
    reference: string,
    title: string,
    status: Status,
    priority: Priority,
    organizationId: Id,
    createdById: Id,
    assignedToId: Option<Id>,
    closedAt: Option<Time>,
    departures: nat)

  datatype Comment = Comment(ticketId: Id, authorId: Id, isInternal: bool)

  /** The authenticated user of a request; its role may be out of date by the time it is used. */
  datatype Actor = Actor(id: Id, role: Role, organizationId: Id)

  datatype CreateDto = CreateDto(title: string, priority: Option<Priority>)

  datatype UpdateDto = UpdateDto(title: Option<string>, status: Option<Status>, priority: Option<Priority>)

  /** An operation between its reads and its transaction. */
  datatype Operation =
    | Creating(actor: Actor, count: nat, dto: CreateDto)
    | Updating(actor: Actor, ticketId: Id, changes: UpdateDto, existing: Ticket)
    | Assigning(actor: Actor, ticketId: Id, assigneeId: Id)
    | Commenting(actor: Actor, ticketId: Id, isInternal: bool)

  /** Ids of tickets and comments are positions: rows are never deleted. */
  datatype State = State(
    users: map<Id, User>,
    tickets: seq<Ticket>,
    comments: seq<Comment>,
    events: seq<Payload>,
    operations: map<nat, Operation>)

  datatype Label =
    | AddUser(userId: Id, user: User)
    | ChangeUser(userId: Id, role: Role, isActive: bool)
    | BeginCreate(op: nat, actor: Actor, dto: CreateDto)
    | BeginUpdate(op: nat, actor: Actor, ticketId: Id, changes: UpdateDto)
    | BeginAssign(op: nat, actor: Actor, ticketId: Id, assigneeId: Id)
    | BeginComment(op: nat, actor: Actor, ticketId: Id, internal: bool)
    | Commit(op: nat, now: Time)
    | Rollback(op: nat)

  datatype Found = Found(ticket: Ticket) | NotFound | Forbidden

  const INIT := State(map[], [], [], [], map[])

  // ---------------------------------------------------------------- operations

  function Reference(n: nat): string {
    "TKT-" + PadStart(Print(n), 6)
  }

  predicate Authentic(s: State, actor: Actor) {
    actor.id in s.users && s.users[actor.id].organizationId == actor.organizationId
  }

  function FindOne(tickets: seq<Ticket>, actor: Actor, id: Id): Found {
    if id >= |tickets| || tickets[id].organizationId != actor.organizationId then NotFound
    else if actor.role.CUSTOMER? && tickets[id].createdById != actor.id then Forbidden
    else Found(tickets[id])
  }

  predicate UpdateAllowed(s: State, actor: Actor, id: Id, dto: UpdateDto) {
    FindOne(s.tickets, actor, id).Found? &&
    (actor.role.CUSTOMER? ==> dto.status.None? && dto.priority.None?)
  }

  predicate AssignAllowed(s: State, actor: Actor, id: Id, assigneeId: Id) {
    FindOne(s.tickets, actor, id).Found? &&
    assigneeId in s.users &&
    s.users[assigneeId].organizationId == actor.organizationId &&
    s.users[assigneeId].isActive &&
    !s.users[assigneeId].role.CUSTOMER?
  }

  predicate ReferenceTaken(tickets: seq<Ticket>, reference: string) {
    exists i :: 0 <= i < |tickets| && tickets[i].reference == reference
  }

  function SetStatus(t: Ticket, status: Status): Ticket {
    t.(status := status,
       departures := t.departures + if t.status.CLOSED? && !status.CLOSED? then 1 else 0)
  }

  function Or<T>(o: Option<T>, otherwise: T): T {
    if o.Some? then o.value else otherwise
  }

  function NewTicket(actor: Actor, reference: string, dto: CreateDto): Ticket {
    Ticket(reference, dto.title, OPEN, Or(dto.priority, MEDIUM), actor.organizationId, actor.id, None, None, 0)
  }

  predicate WillClose(dto: UpdateDto, existing: Ticket) {
    dto.status == Some(CLOSED) && !existing.status.CLOSED?
  }

  function UpdatedTicket(t: Ticket, dto: UpdateDto, existing: Ticket, now: Time): Ticket {
    var edited := t.(title := Or(dto.title, t.title), priority := Or(dto.priority, t.priority));
    var u := if dto.status.Some? then SetStatus(edited, dto.status.value) else edited;
    if WillClose(dto, existing) then u.(closedAt := Some(now)) else u
  }

  /** The transaction of an operation; a duplicate reference violates the unique
      constraint and rolls the creation back. */
  function CommitOperation(s: State, op: nat, now: Time): State
    requires op in s.operations
  {
    var rest := s.(operations := s.operations - {op});
    match s.operations[op]
    case Creating(actor, count, dto) =>
      if ReferenceTaken(s.tickets, Reference(count + 1)) then rest
      else
        var ticket := NewTicket(actor, Reference(count + 1), dto);
        rest.(tickets := s.tickets + [ticket],
              events := s.events +
                [TicketCreated(|s.tickets|, ticket.organizationId, ticket.createdById, ticket.assignedToId)])
    case Updating(actor, id, dto, existing) =>
      if id >= |s.tickets| then rest
      else
        var ticket := UpdatedTicket(s.tickets[id], dto, existing, now);
        rest.(tickets := s.tickets[id := ticket],
              events := s.events + [TicketUpdated(id, ticket.organizationId, actor.id)] +
                if WillClose(dto, existing) then [TicketClosed(id, ticket.organizationId, actor.id)] else [])
    case Assigning(actor, id, assigneeId) =>
      if id >= |s.tickets| then rest
      else
        var ticket := SetStatus(s.tickets[id], IN_PROGRESS).(assignedToId := Some(assigneeId));
        rest.(tickets := s.tickets[id := ticket],
              events := s.events + [TicketAssigned(id, ticket.organizationId, assigneeId, actor.id)])
    case Commenting(actor, id, isInternal) =>
      rest.(comments := s.comments + [Comment(id, actor.id, isInternal)],
            events := s.events + [CommentCreated(|s.comments|, id, actor.organizationId, actor.id, isInternal)])
  }

  function Begin(s: State, op: nat, operation: Operation, allowed: bool): State {
    if allowed && op !in s.operations then s.(operations := s.operations[op := operation]) else s
  }

  /** One step. A step whose condition does not hold leaves the state as it is. */
  function Step(s: State, l: Label): State {
    match l
    case AddUser(id, user) =>
      if id in s.users then s else s.(users := s.users[id := user])
    case ChangeUser(id, role, isActive) =>
      if id in s.users then s.(users := s.users[id := s.users[id].(role := role, isActive := isActive)]) else s
    case BeginCreate(op, actor, dto) =>
      Begin(s, op, Creating(actor, |s.tickets|, dto), Authentic(s, actor))
    case BeginUpdate(op, actor, id, dto) =>
      if UpdateAllowed(s, actor, id, dto)
      then Begin(s, op, Updating(actor, id, dto, s.tickets[id]), Authentic(s, actor)) else s
    case BeginAssign(op, actor, id, assigneeId) =>
      Begin(s, op, Assigning(actor, id, assigneeId), Authentic(s, actor) && AssignAllowed(s, actor, id, assigneeId))
    case BeginComment(op, actor, id, internal) =>
      Begin(s, op, Commenting(actor, id, !actor.role.CUSTOMER? && internal),
            Authentic(s, actor) && FindOne(s.tickets, actor, id).Found?)
    case Commit(op, now) =>
      if op in s.operations then CommitOperation(s, op, now) else s
    case Rollback(op) =>
      s.(operations := s.operations - {op})
  }

  function Run(s: State, ls: seq<Label>): State {
    if ls == [] then s else Step(Run(s, ls[..|ls| - 1]), ls[|ls| - 1])
  }

  // ---------------------------------------------------------------- invariant

  function TicketOf(p: Payload): Option<Id> {
    match p
    case TicketCreated(t, _, _, _) => Some(t)
    case TicketUpdated(t, _, _) => Some(t)
    case TicketAssigned(t, _, _, _) => Some(t)
    case TicketClosed(t, _, _) => Some(t)
    case CommentCreated(_, t, _, _, _) => Some(t)
    case NotificationCreated => None
  }

  function ActorOf(p: Payload): Option<Id> {
    match p
    case TicketCreated(_, _, a, _) => Some(a)
    case TicketUpdated(_, _, a) => Some(a)
    case TicketAssigned(_, _, _, a) => Some(a)
    case TicketClosed(_, _, a) => Some(a)
    case CommentCreated(_, _, _, a, _) => Some(a)
    case NotificationCreated => None
  }

  function OrganizationOf(p: Payload): Option<Id> {
    match p
    case TicketCreated(_, o, _, _) => Some(o)
    case TicketUpdated(_, o, _) => Some(o)
    case TicketAssigned(_, o, _, _) => Some(o)
    case TicketClosed(_, o, _) => Some(o)
    case CommentCreated(_, _, o, _, _) => Some(o)
    case NotificationCreated => None
  }

  ghost predicate MemberOf(s: State, userId: Id, organizationId: Id) {
    userId in s.users && s.users[userId].organizationId == organizationId
  }

  /** The event names a ticket, and its organization is the ticket's and the actor's. */
  ghost predicate SameTenant(s: State, p: Payload) {
    TicketOf(p).Some? && TicketOf(p).value < |s.tickets| &&
    OrganizationOf(p) == Some(s.tickets[TicketOf(p).value].organizationId) &&
    MemberOf(s, ActorOf(p).value, s.tickets[TicketOf(p).value].organizationId)
  }

  predicate Assigns(p: Payload, ticketId: Id, userId: Id) {
    p.TicketAssigned? && p.ticketId == ticketId && p.assigneeId == userId
  }

  /** `userId` was made the ticket's assignee by a committed `assign`. */
  ghost predicate EverAssigned(events: seq<Payload>, ticketId: Id, userId: Id) {
    exists i :: 0 <= i < |events| && Assigns(events[i], ticketId, userId)
  }

  ghost predicate TicketOk(s: State, id: Id)
    requires id < |s.tickets|
  {
    var t := s.tickets[id];
    t.reference == Reference(id + 1) &&
    MemberOf(s, t.createdById, t.organizationId) &&
    (t.status.CLOSED? ==> t.closedAt.Some?) &&
    (t.assignedToId.Some? ==> EverAssigned(s.events, id, t.assignedToId.value))
  }

  /** What an event says about its ticket stays true for ever. */
  ghost predicate EventOk(s: State, p: Payload) {
    SameTenant(s, p) &&
    (p.TicketCreated? ==> p.createdById == s.tickets[p.ticketId].createdById && p.assignedToId.None?) &&
    (p.TicketAssigned? ==> MemberOf(s, p.assigneeId, p.organizationId))
  }

  ghost predicate OperationOk(s: State, o: Operation) {
    Authentic(s, o.actor) &&
    match o
    case Creating(_, count, _) => count <= |s.tickets|
    case Updating(actor, id, _, existing) =>
      id < |s.tickets| && s.tickets[id].organizationId == actor.organizationId &&
      (existing.status.CLOSED? ==> s.tickets[id].closedAt.Some?)
    case Assigning(actor, id, assigneeId) =>
      id < |s.tickets| && s.tickets[id].organizationId == actor.organizationId &&
      MemberOf(s, assigneeId, actor.organizationId)
    case Commenting(actor, id, _) =>
      id < |s.tickets| && s.tickets[id].organizationId == actor.organizationId
  }

  ghost predicate Inv(s: State) {
    (forall id :: 0 <= id < |s.tickets| ==> TicketOk(s, id)) &&
    (forall i :: 0 <= i < |s.events| ==> EventOk(s, s.events[i])) &&
    (forall op :: op in s.operations ==> OperationOk(s, s.operations[op]))
  }

  /** What no step ever undoes. */
  ghost predicate Extends(s: State, t: State) {
    (forall u :: u in s.users ==> u in t.users && t.users[u].organizationId == s.users[u].organizationId) &&
    |s.tickets| <= |t.tickets| &&
    (forall id :: 0 <= id < |s.tickets| ==> SameIdentity(s.tickets[id], t.tickets[id])) &&
    s.events <= t.events
  }

  ghost predicate SameIdentity(a: Ticket, b: Ticket) {
    b.reference == a.reference && b.organizationId == a.organizationId && b.createdById == a.createdById &&
    (a.closedAt.Some? ==> b.closedAt.Some?)
  }

  lemma StepExtends(s: State, l: Label)
    ensures Extends(s, Step(s, l))
  {}

  lemma {:induction false} RunExtends(s: State, ls: seq<Label>)
    ensures Extends(s, Run(s, ls))
  {
    if ls == [] {
    } else {
      RunExtends(s, ls[..|ls| - 1]);
      StepExtends(Run(s, ls[..|ls| - 1]), ls[|ls| - 1]);
    }
  }

  lemma EventStaysOk(s: State, t: State, p: Payload)
    requires Extends(s, t) && EventOk(s, p)
    ensures EventOk(t, p)
  {}

  lemma OperationStaysOk(s: State, t: State, o: Operation)
    requires Extends(s, t) && OperationOk(s, o)
    ensures OperationOk(t, o)
  {}

  lemma AssignmentStays(events: seq<Payload>, later: seq<Payload>, ticketId: Id, userId: Id)
    requires events <= later && EverAssigned(events, ticketId, userId)
    ensures EverAssigned(later, ticketId, userId)
  {
    var i :| 0 <= i < |events| && Assigns(events[i], ticketId, userId);
    assert later[i] == events[i];
  }

  /** A ticket keeps its invariant as long as its status and assignee do. */
  lemma TicketStaysOk(s: State, t: State, id: Id)
    requires id < |s.tickets| && Extends(s, t) && TicketOk(s, id)
    requires t.tickets[id].status.CLOSED? ==> s.tickets[id].status.CLOSED? || t.tickets[id].closedAt.Some?
    requires t.tickets[id].assignedToId == s.tickets[id].assignedToId
    ensures TicketOk(t, id)
  {
    if s.tickets[id].assignedToId.Some? {
      AssignmentStays(s.events, t.events, id, s.tickets[id].assignedToId.value);
    }
  }

  /** A reference is "TKT-" and the number, with leading zeros exactly up to six digits. */
  lemma ReferencesSpellNumbers(n: nat)
    ensures var r := Reference(n);
      |r| >= 10 && r[..4] == "TKT-" && IsNumeral(r[4..]) && Parse(r[4..]) == n &&
      (|r| > 10 ==> r[4] != '0')
  {
    PaddedNumeralsAreInvertible(n, 6);
    assert Reference(n)[4..] == PadStart(Print(n), 6);
  }

  lemma ReferencesDetermineNumbers(m: nat, n: nat)
    ensures Reference(m) == Reference(n) ==> m == n
  {
    PaddedNumeralsAreInvertible(m, 6);
    PaddedNumeralsAreInvertible(n, 6);
    assert PadStart(Print(m), 6) == Reference(m)[4..] && PadStart(Print(n), 6) == Reference(n)[4..];
  }

  lemma CommitKeepsInv(s: State, op: nat, now: Time)
    requires Inv(s) && op in s.operations
    ensures Inv(CommitOperation(s, op, now))
  {
    var t := CommitOperation(s, op, now);
    StepExtends(s, Commit(op, now));
    assert OperationOk(s, s.operations[op]);
    ExtensionKeepsRest(s, t);
    CommitKeepsEvents(s, op, now);
    CommitKeepsTickets(s, op, now);
  }

  /** Old events and pending operations stay right as long as nothing is undone. */
  lemma ExtensionKeepsRest(s: State, t: State)
    requires Inv(s) && Extends(s, t)
    ensures forall i :: 0 <= i < |s.events| ==> EventOk(t, t.events[i])
    ensures forall q :: q in s.operations ==> OperationOk(t, s.operations[q])
  {
    forall i | 0 <= i < |s.events| ensures EventOk(t, t.events[i]) { EventStaysOk(s, t, s.events[i]); }
    forall q | q in s.operations ensures OperationOk(t, s.operations[q]) { OperationStaysOk(s, t, s.operations[q]); }
  }

  lemma CommitKeepsEvents(s: State, op: nat, now: Time)
    requires op in s.operations && OperationOk(s, s.operations[op])
    requires var t := CommitOperation(s, op, now);
      |s.events| <= |t.events| && forall i :: 0 <= i < |s.events| ==> EventOk(t, t.events[i])
    ensures var t := CommitOperation(s, op, now); forall i :: 0 <= i < |t.events| ==> EventOk(t, t.events[i])
  {
    var t := CommitOperation(s, op, now);
    forall i | |s.events| <= i < |t.events| ensures EventOk(t, t.events[i]) { CommittedEventIsOk(s, op, now, i); }
  }

  lemma CommitKeepsTickets(s: State, op: nat, now: Time)
    requires op in s.operations && OperationOk(s, s.operations[op])
    requires forall id :: 0 <= id < |s.tickets| ==> TicketOk(s, id)
    ensures var t := CommitOperation(s, op, now); forall id :: 0 <= id < |t.tickets| ==> TicketOk(t, id)
  {
    hide CommitOperation;
    var t := CommitOperation(s, op, now);
    forall id | 0 <= id < |t.tickets| ensures TicketOk(t, id) {
      if id < |s.tickets| { CommitKeepsTicket(s, op, now, id); } else { CreatedTicketIsOk(s, op, now, id); }
    }
  }

  lemma CreatedTicketIsOk(s: State, op: nat, now: Time, id: Id)
    requires op in s.operations && OperationOk(s, s.operations[op])
    requires forall k :: 0 <= k < |s.tickets| ==> TicketOk(s, k)
    requires |s.tickets| <= id < |CommitOperation(s, op, now).tickets|
    ensures TicketOk(CommitOperation(s, op, now), id)
  {
    hide CommitOperation, ReferenceTaken, Reference;
    CreationAdds(s, op, now);
    NextReference(s, s.operations[op].count);
  }

  /** Only a creation adds a ticket, one, and only under a free reference. */
  lemma CreationAdds(s: State, op: nat, now: Time)
    requires op in s.operations && |s.tickets| < |CommitOperation(s, op, now).tickets|
    ensures var o := s.operations[op]; var t := CommitOperation(s, op, now);
      o.Creating? && !ReferenceTaken(s.tickets, Reference(o.count + 1)) && t.users == s.users &&
      t.tickets == s.tickets + [NewTicket(o.actor, Reference(o.count + 1), o.dto)]
  {}

  lemma CommittedEventIsOk(s: State, op: nat, now: Time, i: nat)
    requires op in s.operations && OperationOk(s, s.operations[op])
    requires |s.events| <= i < |CommitOperation(s, op, now).events|
    ensures EventOk(CommitOperation(s, op, now), CommitOperation(s, op, now).events[i])
  {}

  lemma CommitKeepsTicket(s: State, op: nat, now: Time, id: Id)
    requires op in s.operations && OperationOk(s, s.operations[op])
    requires id < |s.tickets| && TicketOk(s, id)
    ensures id < |CommitOperation(s, op, now).tickets| && TicketOk(CommitOperation(s, op, now), id)
  {
    var t := CommitOperation(s, op, now);
    var o := s.operations[op];
    StepExtends(s, Commit(op, now));
    if o.Assigning? && o.ticketId == id {
      assert Assigns(t.events[|s.events|], id, o.assigneeId);
    } else {
      TicketStaysOk(s, t, id);
    }
  }

  /** A count read earlier gives a free reference only if it is still the count. */
  lemma NextReference(s: State, count: nat)
    requires forall id :: 0 <= id < |s.tickets| ==> TicketOk(s, id)
    requires count <= |s.tickets|
    ensures ReferenceTaken(s.tickets, Reference(count + 1)) <==> count < |s.tickets|
  {
    if count < |s.tickets| {
      assert TicketOk(s, count);
    } else if ReferenceTaken(s.tickets, Reference(count + 1)) {
      var i :| 0 <= i < |s.tickets| && s.tickets[i].reference == Reference(count + 1);
      assert TicketOk(s, i);
      ReferencesDetermineNumbers(i + 1, count + 1);
    }
  }

  lemma StepKeepsInv(s: State, l: Label)
    requires Inv(s)
    ensures Inv(Step(s, l))
  {
    if l.Commit? && l.op in s.operations {
      CommitKeepsInv(s, l.op, l.now);
    } else {
      var t := Step(s, l);
      StepExtends(s, l);
      ExtensionKeepsRest(s, t);
      if l.BeginUpdate? && UpdateAllowed(s, l.actor, l.ticketId, l.changes) { assert TicketOk(s, l.ticketId); }
      forall id | 0 <= id < |t.tickets| ensures TicketOk(t, id) { TicketStaysOk(s, t, id); }
    }
  }

  lemma {:induction false} RunKeepsInv(ls: seq<Label>)
    ensures Inv(Run(INIT, ls))
  {
    if ls == [] {
    } else {
      RunKeepsInv(ls[..|ls| - 1]);
      StepKeepsInv(Run(INIT, ls[..|ls| - 1]), ls[|ls| - 1]);
    }
  }

  // ---------------------------------------------------------------- whole runs

  /** However creations interleave, the committed references are those of 1..n, in
      commit order, none twice; each one spells its number back. */
  lemma ReferencesAreOneToN(ls: seq<Label>)
    ensures var tickets := Run(INIT, ls).tickets;
      && (forall id :: 0 <= id < |tickets| ==> tickets[id].reference == Reference(id + 1))
      && (forall i, j :: 0 <= i < j < |tickets| ==> tickets[i].reference != tickets[j].reference)
      && (forall id :: 0 <= id < |tickets| ==>
            var r := tickets[id].reference;
            |r| >= 10 && r[..4] == "TKT-" && IsNumeral(r[4..]) && Parse(r[4..]) == id + 1)
  {
    RunKeepsInv(ls);
    var s := Run(INIT, ls);
    forall id | 0 <= id < |s.tickets|
      ensures s.tickets[id].reference == Reference(id + 1)
      ensures var r := s.tickets[id].reference;
        |r| >= 10 && r[..4] == "TKT-" && IsNumeral(r[4..]) && Parse(r[4..]) == id + 1
    {
      assert TicketOk(s, id);
      ReferencesSpellNumbers(id + 1);
    }
    forall i, j | 0 <= i < j < |s.tickets| ensures s.tickets[i].reference != s.tickets[j].reference {
      ReferencesDetermineNumbers(i + 1, j + 1);
    }
  }

  /** In a reachable state a creation commits exactly when no other creation has committed
      since it counted; otherwise it changes no row and enqueues nothing. */
  lemma CreationCommitsIffCountIsCurrent(s: State, op: nat, now: Time)
    requires Inv(s) && op in s.operations && s.operations[op].Creating?
    ensures var t := Step(s, Commit(op, now));
      if s.operations[op].count == |s.tickets|
      then |t.tickets| == |s.tickets| + 1 && |t.events| == |s.events| + 1
      else t.tickets == s.tickets && t.events == s.events
  {
    assert OperationOk(s, s.operations[op]);
    NextReference(s, s.operations[op].count);
  }

  /** In every interleaving a closed ticket has its closing time, although `update`
      decides whether it closes the ticket from a row read before its transaction. */
  lemma ClosedTicketsHaveClosedAt(ls: seq<Label>, id: Id)
    requires id < |Run(INIT, ls).tickets| && Run(INIT, ls).tickets[id].status.CLOSED?
    ensures Run(INIT, ls).tickets[id].closedAt.Some?
  {
    RunKeepsInv(ls);
    assert TicketOk(Run(INIT, ls), id);
  }

  /** Every event ever enqueued carries the organization of its ticket, which is also
      the organization of the user who acted, and keeps doing so as the run goes on. */
  lemma EventsStayWithinTheTenant(ls: seq<Label>, more: seq<Label>, i: nat)
    requires i < |Run(INIT, ls).events|
    ensures var t := Run(Run(INIT, ls), more);
      i < |t.events| && t.events[i] == Run(INIT, ls).events[i] && SameTenant(t, t.events[i])
  {
    RunKeepsInv(ls);
    var s := Run(INIT, ls);
    assert EventOk(s, s.events[i]);
    RunExtends(s, more);
    EventStaysOk(s, Run(s, more), s.events[i]);
  }

  // ---------------------------------------------------------------- lifecycle

  function Closings(events: seq<Payload>, id: Id): nat {
    if events == [] then 0
    else
      var last := events[|events| - 1];
      Closings(events[..|events| - 1], id) + (if last.TicketClosed? && last.ticketId == id then 1 else 0)
  }

  /** How often the ticket has been closed: the departures, and one more if it is closed now. */
  function Entries(t: Ticket): nat {
    t.departures + if t.status.CLOSED? then 1 else 0
  }

  /** ticket.closed events less departures from CLOSED, less one if the ticket is closed now. */
  function Balance(s: State, id: Id): int {
    Closings(s.events, id) - if id < |s.tickets| then Entries(s.tickets[id]) else 0
  }

  lemma ClosingsAppend(events: seq<Payload>, p: Payload, id: Id)
    ensures Closings(events + [p], id) == Closings(events, id) + if p.TicketClosed? && p.ticketId == id then 1 else 0
  {
    assert (events + [p])[..|events|] == events;
  }

  lemma UpdateClosings(s: State, op: nat, now: Time, id: Id)
    requires op in s.operations && s.operations[op].Updating? && s.operations[op].ticketId < |s.tickets|
    ensures var o := s.operations[op];
      Closings(CommitOperation(s, op, now).events, id) == Closings(s.events, id) +
        if WillClose(o.changes, o.existing) && o.ticketId == id then 1 else 0
  {
    var o := s.operations[op];
    var org := s.tickets[o.ticketId].organizationId;
    var updated, closed := TicketUpdated(o.ticketId, org, o.actor.id), TicketClosed(o.ticketId, org, o.actor.id);
    ClosingsAppend(s.events, updated, id);
    ClosingsAppend(s.events + [updated], closed, id);
    assert s.events + [updated] + [] == s.events + [updated];
  }

  lemma CommitClosings(s: State, op: nat, now: Time, id: Id)
    requires op in s.operations && OperationOk(s, s.operations[op])
    ensures var o := s.operations[op];
      Closings(CommitOperation(s, op, now).events, id) == Closings(s.events, id) +
        if o.Updating? && WillClose(o.changes, o.existing) && o.ticketId == id then 1 else 0
  {
    match s.operations[op]
    case Creating(actor, _, _) =>
      ClosingsAppend(s.events, TicketCreated(|s.tickets|, actor.organizationId, actor.id, None), id);
    case Updating(_, _, _, _) =>
      UpdateClosings(s, op, now, id);
    case Assigning(actor, tid, assigneeId) =>
      ClosingsAppend(s.events, TicketAssigned(tid, s.tickets[tid].organizationId, assigneeId, actor.id), id);
    case Commenting(actor, tid, internal) =>
      ClosingsAppend(s.events, CommentCreated(|s.comments|, tid, actor.organizationId, actor.id, internal), id);
  }

  /** A commit closes an open ticket only by a closing update of it. */
  predicate Enters(s: State, op: nat, id: Id)
    requires op in s.operations && id < |s.tickets|
  {
    var o := s.operations[op];
    o.Updating? && o.ticketId == id && o.changes.status == Some(CLOSED) && !s.tickets[id].status.CLOSED?
  }

  lemma CommitEntries(s: State, op: nat, now: Time, id: Id)
    requires op in s.operations && OperationOk(s, s.operations[op])
    ensures var tickets := CommitOperation(s, op, now).tickets;
      |s.tickets| <= |tickets| <= |s.tickets| + 1 &&
      (id < |s.tickets| ==> Entries(tickets[id]) == Entries(s.tickets[id]) + if Enters(s, op, id) then 1 else 0) &&
      (|tickets| == |s.tickets| + 1 ==> Entries(tickets[|s.tickets|]) == 0)
  {}

  /** The exact effect of a commit on the lifecycle balance: only a closing update moves
      it, and only when the row it read disagrees with the row it writes on being closed. */
  lemma CommitBalance(s: State, op: nat, now: Time, id: Id)
    requires Inv(s) && op in s.operations
    ensures var o := s.operations[op]; var t := CommitOperation(s, op, now);
      Balance(t, id) == Balance(s, id) +
        if o.Updating? && o.ticketId == id && o.changes.status == Some(CLOSED)
        then (if s.tickets[id].status.CLOSED? then 1 else 0) - (if o.existing.status.CLOSED? then 1 else 0)
        else 0
  {
    hide CommitOperation;
    assert OperationOk(s, s.operations[op]);
    CommitClosings(s, op, now, id);
    CommitEntries(s, op, now, id);
    if id == |s.tickets| { NoClosingsBeforeCreation(s.events, s); }
  }

  lemma {:induction false} NoClosingsBeforeCreation(events: seq<Payload>, s: State)
    requires forall i :: 0 <= i < |events| ==> EventOk(s, events[i])
    ensures Closings(events, |s.tickets|) == 0
  {
    if events == [] {
    } else {
      assert EventOk(s, events[|events| - 1]);
      NoClosingsBeforeCreation(events[..|events| - 1], s);
    }
  }

  /** A commit preserves the lifecycle balance of every ticket if and only if it is not a
      closing update whose earlier read disagrees with the present row on being closed. */
  predicate StaleClose(s: State, op: nat) {
    op in s.operations && s.operations[op].Updating? && s.operations[op].changes.status == Some(CLOSED) &&
    s.operations[op].ticketId < |s.tickets| &&
    s.operations[op].existing.status.CLOSED? != s.tickets[s.operations[op].ticketId].status.CLOSED?
  }

  lemma CommitKeepsBalanceIff(s: State, op: nat, now: Time)
    requires Inv(s) && op in s.operations
    ensures (forall id: nat :: Balance(Step(s, Commit(op, now)), id) == Balance(s, id)) <==> !StaleClose(s, op)
  {
    assert OperationOk(s, s.operations[op]);
    forall id: nat ensures StaleClose(s, op) || Balance(Step(s, Commit(op, now)), id) == Balance(s, id) {
      CommitBalance(s, op, now, id);
    }
    if StaleClose(s, op) {
      CommitBalance(s, op, now, s.operations[op].ticketId);
    }
  }

  predicate Begins(l: Label) {
    l.BeginCreate? || l.BeginUpdate? || l.BeginAssign? || l.BeginComment?
  }

  /** A serial run: an operation begins only when none is in progress. */
  ghost predicate Serial(ls: seq<Label>) {
    forall k :: 0 <= k < |ls| && Begins(ls[k]) ==> Run(INIT, ls[..k]).operations == map[]
  }

  ghost predicate Current(s: State) {
    (forall op :: op in s.operations && s.operations[op].Updating? ==>
      s.operations[op].ticketId < |s.tickets| &&
      s.operations[op].existing == s.tickets[s.operations[op].ticketId]) &&
    (forall a, b :: a in s.operations && b in s.operations ==> a == b)
  }

  /** By how much a step moves the balance of a ticket: 1 if it closes a ticket again that was
      open when the update read it, and -1 if it closes an open ticket that it read closed. */
  function Drift(s: State, l: Label, id: Id): int {
    if l.Commit? && StaleClose(s, l.op) && s.operations[l.op].ticketId == id
    then if s.tickets[id].status.CLOSED? then 1 else -1
    else 0
  }

  lemma StepDrifts(s: State, l: Label, id: Id)
    requires Inv(s)
    ensures Balance(Step(s, l), id) == Balance(s, id) + Drift(s, l, id)
  {
    if l.Commit? && l.op in s.operations {
      assert OperationOk(s, s.operations[l.op]);
      CommitBalance(s, l.op, l.now, id);
    }
  }

  /** The stale closings of a run, with their signs. */
  function TotalDrift(ls: seq<Label>, id: Id): int {
    if ls == [] then 0
    else TotalDrift(ls[..|ls| - 1], id) + Drift(Run(INIT, ls[..|ls| - 1]), ls[|ls| - 1], id)
  }

  /** The exact lifecycle law of every interleaving: ticket.closed events less departures from
      CLOSED, less one if the ticket is closed, are its stale closings. */
  lemma {:induction false} InterleavedLifecycle(ls: seq<Label>, id: Id)
    ensures Balance(Run(INIT, ls), id) == TotalDrift(ls, id)
  {
    hide Step;
    if ls == [] {
    } else {
      var front := ls[..|ls| - 1];
      InterleavedLifecycle(front, id);
      RunKeepsInv(front);
      StepDrifts(Run(INIT, front), ls[|ls| - 1], id);
    }
  }

  ghost predicate NoStaleClose(ls: seq<Label>) {
    forall k :: 0 <= k < |ls| && ls[k].Commit? ==> !StaleClose(Run(INIT, ls[..k]), ls[k].op)
  }

  lemma {:induction false} FreshCommitsDoNotDrift(ls: seq<Label>, id: Id)
    requires NoStaleClose(ls)
    ensures TotalDrift(ls, id) == 0
  {
    hide Step, Run, StaleClose;
    if ls == [] {
    } else {
      var front := ls[..|ls| - 1];
      assert forall k :: 0 <= k < |front| ==> front[..k] == ls[..k];
      FreshCommitsDoNotDrift(front, id);
      assert ls[|ls| - 1].Commit? ==> !StaleClose(Run(INIT, ls[..|ls| - 1]), ls[|ls| - 1].op);
    }
  }

  /** Without stale closings the ticket.closed events of a ticket, less its departures from
      CLOSED (by `update` or by `assign`), count 1 if it is closed and 0 otherwise. */
  lemma FreshLifecycle(ls: seq<Label>, id: Id)
    requires NoStaleClose(ls)
    ensures Balance(Run(INIT, ls), id) == 0
  {
    InterleavedLifecycle(ls, id);
    FreshCommitsDoNotDrift(ls, id);
  }

  lemma StepKeepsCurrent(s: State, l: Label)
    requires Inv(s) && Current(s) && (Begins(l) ==> s.operations == map[])
    ensures Current(Step(s, l))
    ensures l.Commit? ==> !StaleClose(s, l.op)
  {
    if l.Commit? && l.op in s.operations {
      assert s.operations - {l.op} == map[];
    } else if l.BeginUpdate? && UpdateAllowed(s, l.actor, l.ticketId, l.changes) {
      assert TicketOk(s, l.ticketId);
    }
  }

  lemma {:induction false} SerialRunsAreFresh(ls: seq<Label>)
    requires Serial(ls)
    ensures Current(Run(INIT, ls)) && NoStaleClose(ls)
  {
    hide Step, StaleClose;
    if ls == [] {
    } else {
      var front, l := ls[..|ls| - 1], ls[|ls| - 1];
      assert forall k :: 0 <= k < |front| ==> front[..k] == ls[..k];
      SerialRunsAreFresh(front);
      RunKeepsInv(front);
      StepKeepsCurrent(Run(INIT, front), l);
    }
  }

  /** In a serial run the ticket.closed events of a ticket, less its departures from
      CLOSED (by `update` or by `assign`), count 1 if it is closed and 0 otherwise. */
  lemma SerialLifecycle(ls: seq<Label>, id: Id)
    requires Serial(ls)
    ensures Balance(Run(INIT, ls), id) == 0
  {
    SerialRunsAreFresh(ls);
    FreshLifecycle(ls, id);
  }

  const STAFF := Actor(0, AGENT, 7)
  const CLOSE := UpdateDto(None, Some(CLOSED), None)
  const SUBJECT := CreateDto("Printer", None)
  const OPENED := Ticket(Reference(1), "Printer", OPEN, MEDIUM, 7, 0, None, None, 0)

  /** One open ticket, and two closing updates that have both read it. */
  lemma BothReadOpen() returns (ls: seq<Label>)
    ensures Run(INIT, ls).tickets == [OPENED]
    ensures Run(INIT, ls).events == [TicketCreated(0, 7, 0, None)]
    ensures var closing := Updating(STAFF, 0, CLOSE, OPENED);
      Run(INIT, ls).operations == map[1 := closing, 2 := closing]
  {
    ls := [];
    var s0 := Extend(ls, AddUser(0, User(7, AGENT, true))); ls := ls + [AddUser(0, User(7, AGENT, true))];
    var s1 := Extend(ls, BeginCreate(0, STAFF, SUBJECT)); ls := ls + [BeginCreate(0, STAFF, SUBJECT)];
    var s2 := Extend(ls, Commit(0, 0)); ls := ls + [Commit(0, 0)];
    assert s2.operations == map[] && s2.users == map[0 := User(7, AGENT, true)];
    var s3 := Extend(ls, BeginUpdate(1, STAFF, 0, CLOSE)); ls := ls + [BeginUpdate(1, STAFF, 0, CLOSE)];
    var s4 := Extend(ls, BeginUpdate(2, STAFF, 0, CLOSE)); ls := ls + [BeginUpdate(2, STAFF, 0, CLOSE)];
  }

  /** Two closing updates that both read the ticket open enqueue ticket.closed twice for
      one closing: the lifecycle law does not extend to interleaved runs. */
  lemma InterleavedClosesCountTwice() returns (ls: seq<Label>)
    ensures Balance(Run(INIT, ls), 0) == 1
  {
    ls := BothReadOpen();
    CreationIsNoClosing(Run(INIT, ls));
    RunKeepsInv(ls);
    CommitBalance(Run(INIT, ls), 1, 1, 0);
    var s := Extend(ls, Commit(1, 1)); ls := ls + [Commit(1, 1)];
    RunKeepsInv(ls);
    CommitBalance(s, 2, 2, 0);
    var t := Extend(ls, Commit(2, 2)); ls := ls + [Commit(2, 2)];
  }

  lemma CreationIsNoClosing(s: State)
    requires s.events == [TicketCreated(0, 7, 0, None)]
    ensures Closings(s.events, 0) == 0
  {}

  lemma Extend(ls: seq<Label>, l: Label) returns (s: State)
    ensures s == Step(Run(INIT, ls), l) == Run(INIT, ls + [l])
  {
    assert (ls + [l])[..|ls|] == ls;
    s := Step(Run(INIT, ls), l);
  }
}
