/** What the rows and events of the ticket aggregate go back to, over every interleaving:
    the request behind each event, the last write behind each field of a ticket, and the
    event behind each comment and each assignee. */
module Requests {
  import opened Domain
  import opened Tickets

  // ---------------------------------------------------------------- the request behind an event

  /** The ticket is in the actor's organization, and a customer's own. */
  ghost predicate MayFind(s: State, actor: Actor, id: Id) {
    id < |s.tickets| && s.tickets[id].organizationId == actor.organizationId &&
    (actor.role == CUSTOMER ==> s.tickets[id].createdById == actor.id)
  }

  /** The user exists and is an active agent or admin of the organization. */
  ghost predicate MayWorkFor(s: State, userId: Id, organizationId: Id) {
    userId in s.users && s.users[userId].organizationId == organizationId && s.users[userId].isActive &&
    s.users[userId].role in {AGENT, ADMIN}
  }

  /** The step is a request of a member of the organization, and one to be granted. */
  ghost predicate Granted(s: State, l: Label) {
    match l
    case BeginCreate(_, actor, _) => MemberOf(s, actor.id, actor.organizationId)
    case BeginUpdate(_, actor, id, dto) =>
      MemberOf(s, actor.id, actor.organizationId) && MayFind(s, actor, id) &&
      (actor.role == CUSTOMER ==> dto.status == None && dto.priority == None)
    case BeginAssign(_, actor, id, assigneeId) =>
      MemberOf(s, actor.id, actor.organizationId) && MayFind(s, actor, id) &&
      MayWorkFor(s, assigneeId, actor.organizationId)
    case BeginComment(_, actor, id, _) => MemberOf(s, actor.id, actor.organizationId) && MayFind(s, actor, id)
    case _ => false
  }

  /** The operation is the request, with what it read. */
  ghost predicate Carries(s: State, l: Label, o: Operation) {
    match l
    case BeginCreate(_, actor, dto) => o == Creating(actor, |s.tickets|, dto)
    case BeginUpdate(_, actor, id, dto) => id < |s.tickets| && o == Updating(actor, id, dto, s.tickets[id])
    case BeginAssign(_, actor, id, assigneeId) => o == Assigning(actor, id, assigneeId)
    case BeginComment(_, actor, id, internal) => o == Commenting(actor, id, internal && actor.role != CUSTOMER)
    case _ => false
  }

  /** The event is one that the request, made in that state, asks for. */
  ghost predicate Asks(s: State, l: Label, p: Payload) {
    match l
    case BeginCreate(_, actor, _) =>
      p.TicketCreated? && p.organizationId == actor.organizationId && p.createdById == actor.id &&
      p.assignedToId == None
    case BeginUpdate(_, actor, id, dto) =>
      p == TicketUpdated(id, actor.organizationId, actor.id) ||
      (p == TicketClosed(id, actor.organizationId, actor.id) &&
       dto.status == Some(CLOSED) && id < |s.tickets| && s.tickets[id].status != CLOSED)
    case BeginAssign(_, actor, id, assigneeId) =>
      p == TicketAssigned(id, actor.organizationId, assigneeId, actor.id)
    case BeginComment(_, actor, id, internal) =>
      p.CommentCreated? && p.ticketId == id && p.organizationId == actor.organizationId &&
      p.authorId == actor.id && p.isInternal == (internal && actor.role != CUSTOMER)
    case _ => false
  }

  /** The number under which a request's operation is pending until it commits. */
  function Number(l: Label): Option<nat> {
    match l
    case BeginCreate(op, _, _) => Some(op)
    case BeginUpdate(op, _, _, _) => Some(op)
    case BeginAssign(op, _, _, _) => Some(op)
    case BeginComment(op, _, _, _) => Some(op)
    case _ => None
  }

  /** A request becomes pending if and only if it is granted and its number is free; it stays
      so, unchanged, until it is committed or rolled back. */
  lemma RequestsArePendingIffGranted(s: State, l: Label, op: nat)
    ensures var t := Step(s, l);
      (op !in s.operations && op in t.operations <==> Number(l) == Some(op) && op !in s.operations && Granted(s, l)) &&
      (op !in s.operations && op in t.operations ==> Carries(s, l, t.operations[op])) &&
      (op in s.operations && op in t.operations ==> t.operations[op] == s.operations[op]) &&
      (op in s.operations ==> (op !in t.operations <==> (l.Commit? || l.Rollback?) && l.op == op))
  {}

  /** The `m`-th step of the run is the granted request that is pending as the operation. */
  ghost predicate BegunBy(ls: seq<Label>, m: nat, op: nat) {
    m < |ls| && op in Run(INIT, ls).operations && Number(ls[m]) == Some(op) &&
    Granted(Run(INIT, ls[..m]), ls[m]) && Carries(Run(INIT, ls[..m]), ls[m], Run(INIT, ls).operations[op])
  }

  lemma {:induction false} PendingOperationsWereRequested(ls: seq<Label>, op: nat)
    requires op in Run(INIT, ls).operations
    ensures exists m: nat :: BegunBy(ls, m, op)
  {
    hide Step, Granted, Carries;
    if ls == [] {
    } else {
      var front, l := ls[..|ls| - 1], ls[|ls| - 1];
      RequestsArePendingIffGranted(Run(INIT, front), l, op);
      if op in Run(INIT, front).operations {
        PendingOperationsWereRequested(front, op);
        var m: nat :| BegunBy(front, m, op);
        assert front[..m] == ls[..m];
        assert BegunBy(ls, m, op);
      } else {
        assert BegunBy(ls, |ls| - 1, op);
      }
    }
  }

  /** What a commit enqueues is what the request behind it asks for. */
  lemma CommitEnqueuesWhatWasAsked(s: State, l: Label, r: State, begin: Label, i: nat)
    requires Inv(s) && l.Commit? && l.op in s.operations && |s.events| <= i < |Step(s, l).events|
    requires Carries(r, begin, s.operations[l.op])
    ensures Asks(r, begin, Step(s, l).events[i])
  {
    assert OperationOk(s, s.operations[l.op]);
  }

  lemma OnlyCommitsEnqueue(s: State, l: Label)
    ensures s.events <= Step(s, l).events
    ensures !(l.Commit? && l.op in s.operations) ==> Step(s, l).events == s.events
  {}

  /** The `i`-th event was enqueued by the `n`-th step, which committed the request granted at
      the `m`-th, and is what that request asked for. */
  ghost predicate Enqueued(ls: seq<Label>, m: nat, n: nat, i: nat) {
    m < n < |ls| && i < |Run(INIT, ls).events| &&
    Granted(Run(INIT, ls[..m]), ls[m]) && Asks(Run(INIT, ls[..m]), ls[m], Run(INIT, ls).events[i]) &&
    ls[n].Commit? && Number(ls[m]) == Some(ls[n].op) &&
    |Run(INIT, ls[..n]).events| <= i < |Run(INIT, ls[..n + 1]).events|
  }

  lemma EnqueuedEarlier(ls: seq<Label>, m: nat, n: nat, i: nat)
    requires ls != [] && Enqueued(ls[..|ls| - 1], m, n, i)
    ensures Enqueued(ls, m, n, i)
  {
    hide Step, Granted, Asks;
    var front := ls[..|ls| - 1];
    OnlyCommitsEnqueue(Run(INIT, front), ls[|ls| - 1]);
    assert front[..m] == ls[..m] && front[..n] == ls[..n] && front[..n + 1] == ls[..n + 1];
  }

  lemma EnqueuedLast(ls: seq<Label>, i: nat)
    requires ls != [] && |Run(INIT, ls[..|ls| - 1]).events| <= i < |Run(INIT, ls).events|
    ensures exists m: nat, n: nat :: Enqueued(ls, m, n, i)
  {
    hide Step, Granted, Carries, Asks, Inv;
    var front, l := ls[..|ls| - 1], ls[|ls| - 1];
    var s := Run(INIT, front);
    OnlyCommitsEnqueue(s, l);
    PendingOperationsWereRequested(front, l.op);
    var m: nat :| BegunBy(front, m, l.op);
    assert front[..m] == ls[..m] && ls[..|ls| - 1 + 1] == ls;
    RunKeepsInv(front);
    CommitEnqueuesWhatWasAsked(s, l, Run(INIT, front[..m]), front[m], i);
    assert Enqueued(ls, m, |ls| - 1, i);
  }

  /** In every interleaving each event was asked for: it was enqueued by the commit of one
      request, which a member of the organization made, who was allowed to at that moment, and
      it says who that was and what was asked. */
  lemma {:induction false} EveryEventWasAskedFor(ls: seq<Label>, i: nat)
    requires i < |Run(INIT, ls).events|
    ensures exists m: nat, n: nat :: Enqueued(ls, m, n, i)
  {
    hide Step, Enqueued;
    if ls == [] {
    } else {
      var front := ls[..|ls| - 1];
      if i < |Run(INIT, front).events| {
        EveryEventWasAskedFor(front, i);
        var m: nat, n: nat :| Enqueued(front, m, n, i);
        EnqueuedEarlier(ls, m, n, i);
      } else {
        EnqueuedLast(ls, i);
      }
    }
  }

  // ---------------------------------------------------------------- the last write to each field

  /** What a step writes to the fields of a ticket; None where it writes nothing. */
  datatype Fields = Fields(
    title: Option<string>,
    status: Option<Status>,
    priority: Option<Priority>,
    assignedToId: Option<Id>,
    closedAt: Option<Time>)

  const NOTHING := Fields(None, None, None, None, None)

  /** A creation writes title, OPEN and the priority, MEDIUM if none is given; an update what
      it is given, and the closing time if it closes a ticket that it read open; an assignment
      the assignee and IN_PROGRESS. */
  function Writes(s: State, l: Label, id: Id): Fields {
    if !(l.Commit? && l.op in s.operations) then NOTHING
    else
      match s.operations[l.op]
      case Creating(_, count, dto) =>
        if count != |s.tickets| || count != id then NOTHING
        else
          var priority := if dto.priority.Some? then dto.priority else Some(MEDIUM);
          Fields(Some(dto.title), Some(OPEN), priority, None, None)
      case Updating(_, ticketId, dto, existing) =>
        if ticketId != id then NOTHING
        else
          var closes := dto.status == Some(CLOSED) && existing.status != CLOSED;
          Fields(dto.title, dto.status, dto.priority, None, if closes then Some(l.now) else None)
      case Assigning(_, ticketId, assigneeId) =>
        if ticketId != id then NOTHING else Fields(None, Some(IN_PROGRESS), None, Some(assigneeId), None)
      case Commenting(_, _, _) => NOTHING
  }

  function Later<T>(was: Option<T>, written: Option<T>): Option<T> {
    if written.Some? then written else was
  }

  function Over(was: Fields, written: Fields): Fields {
    Fields(Later(was.title, written.title), Later(was.status, written.status), Later(was.priority, written.priority),
           Later(was.assignedToId, written.assignedToId), Later(was.closedAt, written.closedAt))
  }

  /** The last value that the run wrote to each field of a ticket. */
  function LastWritten(ls: seq<Label>, id: Id): Fields {
    if ls == [] then NOTHING
    else Over(LastWritten(ls[..|ls| - 1], id), Writes(Run(INIT, ls[..|ls| - 1]), ls[|ls| - 1], id))
  }

  function FieldsOf(t: Ticket): Fields {
    Fields(Some(t.title), Some(t.status), Some(t.priority), t.assignedToId, t.closedAt)
  }

  function FieldsAt(s: State, id: Id): Fields {
    if id < |s.tickets| then FieldsOf(s.tickets[id]) else NOTHING
  }

  lemma StepWrites(s: State, l: Label, id: Id)
    requires Inv(s)
    ensures FieldsAt(Step(s, l), id) == Over(FieldsAt(s, id), Writes(s, l, id))
  {
    if l.Commit? && l.op in s.operations {
      assert OperationOk(s, s.operations[l.op]);
      if s.operations[l.op].Creating? { NextReference(s, s.operations[l.op].count); }
    }
  }

  /** However operations overlap, each field of a ticket holds what the last commit that wrote
      it was asked to write: no write is lost, and none reaches another field or ticket. */
  lemma {:induction false} LastWriteWins(ls: seq<Label>, id: Id)
    requires id < |Run(INIT, ls).tickets|
    ensures FieldsOf(Run(INIT, ls).tickets[id]) == LastWritten(ls, id)
  {
    FieldsAreLastWritten(ls, id);
  }

  lemma {:induction false} FieldsAreLastWritten(ls: seq<Label>, id: Id)
    ensures FieldsAt(Run(INIT, ls), id) == LastWritten(ls, id)
  {
    hide Step, Writes, Over, FieldsOf;
    if ls == [] {
    } else {
      var front := ls[..|ls| - 1];
      FieldsAreLastWritten(front, id);
      RunKeepsInv(front);
      StepWrites(Run(INIT, front), ls[|ls| - 1], id);
    }
  }

  // ---------------------------------------------------------------- assignees and their events

  /** Whom the last ticket.assigned event about the ticket names. */
  function LastAssignee(events: seq<Payload>, id: Id): Option<Id> {
    if events == [] then None
    else
      var last := events[|events| - 1];
      if last.TicketAssigned? && last.ticketId == id then Some(last.assigneeId)
      else LastAssignee(events[..|events| - 1], id)
  }

  lemma LastAssigneeSnoc(events: seq<Payload>, p: Payload, id: Id)
    ensures LastAssignee(events + [p], id) ==
      if p.TicketAssigned? && p.ticketId == id then Some(p.assigneeId) else LastAssignee(events, id)
  {
    assert (events + [p])[..|events|] == events;
  }

  lemma {:induction false} LastAssigneeIgnores(events: seq<Payload>, more: seq<Payload>, id: Id)
    requires forall i :: 0 <= i < |more| ==> !more[i].TicketAssigned?
    ensures LastAssignee(events + more, id) == LastAssignee(events, id)
  {
    if more == [] {
      assert events + more == events;
    } else {
      LastAssigneeIgnores(events, more[..|more| - 1], id);
      LastAssigneeSnoc(events + more[..|more| - 1], more[|more| - 1], id);
      assert events + more == events + more[..|more| - 1] + [more[|more| - 1]];
    }
  }

  function AssigneeAt(s: State, id: Id): Option<Id> {
    if id < |s.tickets| then s.tickets[id].assignedToId else None
  }

  /** A step that assigns says so in one event; every other step leaves the assignees alone. */
  lemma StepAssigns(s: State, l: Label, id: Id)
    requires Inv(s)
    ensures var t := Step(s, l);
      s.events <= t.events &&
      if l.Commit? && l.op in s.operations && s.operations[l.op].Assigning? then
        |t.events| == |s.events| + 1 && t.events[|s.events|].TicketAssigned? &&
        var p := t.events[|s.events|];
        AssigneeAt(t, id) == if p.ticketId == id then Some(p.assigneeId) else AssigneeAt(s, id)
      else
        AssigneeAt(t, id) == AssigneeAt(s, id) &&
        forall i :: |s.events| <= i < |t.events| ==> !t.events[i].TicketAssigned?
  {
    if l.Commit? && l.op in s.operations { assert OperationOk(s, s.operations[l.op]); }
  }

  /** In every interleaving a ticket's assignee is the one whom the last ticket.assigned event
      about it names, and before the first such event it has none. */
  lemma {:induction false} AssigneeIsLastAssigned(ls: seq<Label>, id: Id)
    ensures AssigneeAt(Run(INIT, ls), id) == LastAssignee(Run(INIT, ls).events, id)
  {
    hide Step;
    if ls == [] {
    } else {
      var s, l := Run(INIT, ls[..|ls| - 1]), ls[|ls| - 1];
      var t := Step(s, l);
      AssigneeIsLastAssigned(ls[..|ls| - 1], id);
      RunKeepsInv(ls[..|ls| - 1]);
      StepAssigns(s, l, id);
      var more := t.events[|s.events|..];
      assert t.events == s.events + more;
      if l.Commit? && l.op in s.operations && s.operations[l.op].Assigning? {
        assert more == [t.events[|s.events|]];
        LastAssigneeSnoc(s.events, more[0], id);
      } else {
        LastAssigneeIgnores(s.events, more, id);
      }
    }
  }

  // ---------------------------------------------------------------- comments and their events

  /** The comment.created events, in order. */
  function CommentEvents(events: seq<Payload>): seq<Payload> {
    if events == [] then []
    else
      var last := events[|events| - 1];
      CommentEvents(events[..|events| - 1]) + (if last.CommentCreated? then [last] else [])
  }

  lemma CommentEventsSnoc(events: seq<Payload>, p: Payload)
    ensures CommentEvents(events + [p]) == CommentEvents(events) + if p.CommentCreated? then [p] else []
  {
    assert (events + [p])[..|events|] == events;
  }

  lemma {:induction false} CommentEventsIgnore(events: seq<Payload>, more: seq<Payload>)
    requires forall i :: 0 <= i < |more| ==> !more[i].CommentCreated?
    ensures CommentEvents(events + more) == CommentEvents(events)
  {
    if more == [] {
      assert events + more == events;
    } else {
      CommentEventsIgnore(events, more[..|more| - 1]);
      CommentEventsSnoc(events + more[..|more| - 1], more[|more| - 1]);
      assert events + more == events + more[..|more| - 1] + [more[|more| - 1]];
    }
  }

  /** The event tells of the `k`-th comment: its number, ticket, organization, author and
      whether it is internal. */
  ghost predicate TellsOf(s: State, p: Payload, k: nat)
    requires k < |s.comments|
  {
    var c := s.comments[k];
    c.ticketId < |s.tickets| &&
    p == CommentCreated(k, c.ticketId, s.tickets[c.ticketId].organizationId, c.authorId, c.isInternal)
  }

  ghost predicate CommentsAreTold(s: State) {
    |CommentEvents(s.events)| == |s.comments| &&
    forall k :: 0 <= k < |s.comments| ==> TellsOf(s, CommentEvents(s.events)[k], k)
  }

  /** A step that adds a comment tells of it in one event; no other step adds either. */
  lemma StepTells(s: State, l: Label)
    requires Inv(s)
    ensures var t := Step(s, l);
      s.events <= t.events &&
      if l.Commit? && l.op in s.operations && s.operations[l.op].Commenting? then
        |t.events| == |s.events| + 1 && |t.comments| == |s.comments| + 1 && s.comments <= t.comments &&
        TellsOf(t, t.events[|s.events|], |s.comments|)
      else
        t.comments == s.comments && forall i :: |s.events| <= i < |t.events| ==> !t.events[i].CommentCreated?
  {
    if l.Commit? && l.op in s.operations { assert OperationOk(s, s.operations[l.op]); }
  }

  lemma TellsStays(s: State, l: Label, p: Payload, k: nat)
    requires k < |s.comments| && s.comments <= Step(s, l).comments && TellsOf(s, p, k)
    ensures TellsOf(Step(s, l), p, k)
  {
    StepExtends(s, l);
  }

  /** In every interleaving the comment.created events are exactly the comments, in order: the
      k-th event names the k-th comment with its ticket, author and internal flag. */
  lemma {:induction false} CommentsAreAlwaysTold(ls: seq<Label>)
    ensures CommentsAreTold(Run(INIT, ls))
  {
    hide Step, TellsOf;
    if ls == [] {
    } else {
      var s, l := Run(INIT, ls[..|ls| - 1]), ls[|ls| - 1];
      var t := Step(s, l);
      CommentsAreAlwaysTold(ls[..|ls| - 1]);
      RunKeepsInv(ls[..|ls| - 1]);
      StepTells(s, l);
      var more := t.events[|s.events|..];
      assert t.events == s.events + more;
      if l.Commit? && l.op in s.operations && s.operations[l.op].Commenting? {
        assert more == [t.events[|s.events|]];
        LastIsComment(t, t.events[|s.events|], |s.comments|);
        CommentEventsSnoc(s.events, more[0]);
      } else {
        CommentEventsIgnore(s.events, more);
      }
      forall k | 0 <= k < |s.comments| ensures TellsOf(t, CommentEvents(s.events)[k], k) {
        TellsStays(s, l, CommentEvents(s.events)[k], k);
      }
    }
  }

  lemma LastIsComment(s: State, p: Payload, k: nat)
    requires k < |s.comments| && TellsOf(s, p, k)
    ensures p.CommentCreated?
  {}

  // ---------------------------------------------------------------- users who may not be assigned

  ghost predicate UserIsLeftAlone(ls: seq<Label>, userId: Id) {
    forall i :: 0 <= i < |ls| && ls[i].ChangeUser? ==> ls[i].userId != userId
  }

  ghost predicate NoneUnderWay(s: State, userId: Id) {
    forall op :: op in s.operations && s.operations[op].Assigning? ==> s.operations[op].assigneeId != userId
  }

  /** The user is deactivated or a customer, and no assignment to the user is under way. */
  ghost predicate Unassignable(s: State, userId: Id) {
    userId in s.users && (!s.users[userId].isActive || s.users[userId].role == CUSTOMER) && NoneUnderWay(s, userId)
  }

  lemma StepKeepsUnassignable(s: State, l: Label, userId: Id)
    requires Unassignable(s, userId) && (l.ChangeUser? ==> l.userId != userId)
    ensures Unassignable(Step(s, l), userId)
    ensures forall i :: |s.events| <= i < |Step(s, l).events| ==>
      !(Step(s, l).events[i].TicketAssigned? && Step(s, l).events[i].assigneeId == userId)
  {}

  /** Once a user is deactivated or made a customer, no ticket is assigned to the user, except
      by assignments already under way, until the user is changed again. */
  lemma DeactivatedUsersAreNotAssigned(s: State, userId: Id, role: Role, isActive: bool, more: seq<Label>)
    requires userId in s.users && (!isActive || role == CUSTOMER)
    requires NoneUnderWay(s, userId) && UserIsLeftAlone(more, userId)
    ensures var t := Step(s, ChangeUser(userId, role, isActive)); var u := Run(t, more);
      t.events <= u.events &&
      forall i :: |t.events| <= i < |u.events| ==>
        !(u.events[i].TicketAssigned? && u.events[i].assigneeId == userId)
  {
    RunKeepsUnassignable(Step(s, ChangeUser(userId, role, isActive)), more, userId);
  }

  lemma {:induction false} RunKeepsUnassignable(s: State, more: seq<Label>, userId: Id)
    requires Unassignable(s, userId) && UserIsLeftAlone(more, userId)
    ensures var u := Run(s, more);
      Unassignable(u, userId) && s.events <= u.events &&
      forall i :: |s.events| <= i < |u.events| ==>
        !(u.events[i].TicketAssigned? && u.events[i].assigneeId == userId)
  {
    hide Step, Unassignable;
    if more == [] {
    } else {
      var front, l := more[..|more| - 1], more[|more| - 1];
      RunKeepsUnassignable(s, front, userId);
      StepKeepsUnassignable(Run(s, front), l, userId);
      OnlyCommitsEnqueue(Run(s, front), l);
    }
  }
}
