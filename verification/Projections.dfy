/** The three projections (analytics, audit, notification) as functions on their tables,
    and what the tables say about the log of processed events that produced them. */
module Projections {
  import opened Domain

  datatype Metrics = Metrics(ticketsCreated: nat, ticketsAssigned: nat, ticketsClosed: nat)

  datatype Field = CreatedField | AssignedField | ClosedField

  datatype AuditRow = AuditRow(
    action: string,
    entityType: string,
    entityId: Id,
    actorId: Option<Id>,
    organizationId: Option<Id>)

  datatype NotificationType = TICKET_CREATED | TICKET_UPDATED | TICKET_ASSIGNED | TICKET_CLOSED | COMMENT_ADDED

  datatype Notification = Notification(userId: Id, kind: NotificationType, ticketId: Id)

  datatype Tables = Tables(
    metrics: map<(Id, int), Metrics>,
    audit: seq<AuditRow>,
    notifications: seq<Notification>)

  const EMPTY := Tables(map[], [], [])

  /** The ticket row as `findUnique` returns it to the notification projection. */
  datatype TicketView = TicketView(createdById: Id, assignedToId: Option<Id>)

  /** What a projection reads besides the event: the UTC day and the ticket, if it exists. */
  datatype Context = Context(day: int, ticket: Option<TicketView>)

  // ---------------------------------------------------------------- analytics

  /** The organization and the counter an event moves; None for every other event. */
  function MetricOf(p: Payload): Option<(Id, Field)> {
    match p
    case TicketCreated(_, o, _, _) => Some((o, CreatedField))
    case TicketAssigned(_, o, _, _) => Some((o, AssignedField))
    case TicketClosed(_, o, _) => Some((o, ClosedField))
    case _ => None
  }

  function Get(m: Metrics, f: Field): nat {
    match f
    case CreatedField => m.ticketsCreated
    case AssignedField => m.ticketsAssigned
    case ClosedField => m.ticketsClosed
  }

  function Increment(m: Metrics, f: Field): Metrics {
    match f
    case CreatedField => m.(ticketsCreated := m.ticketsCreated + 1)
    case AssignedField => m.(ticketsAssigned := m.ticketsAssigned + 1)
    case ClosedField => m.(ticketsClosed := m.ticketsClosed + 1)
  }

  function OneOf(f: Field): Metrics {
    Metrics(if f == CreatedField then 1 else 0,
            if f == AssignedField then 1 else 0,
            if f == ClosedField then 1 else 0)
  }

  /** `upsert` on the unique (organizationId, date). */
  function Upsert(t: map<(Id, int), Metrics>, key: (Id, int), f: Field): map<(Id, int), Metrics> {
    t[key := if key in t then Increment(t[key], f) else OneOf(f)]
  }

  // ---------------------------------------------------------------- audit

  function Describe(e: Event): AuditRow {
    var key := RoutingKey(e.payload);
    match e.payload
    case TicketCreated(t, o, a, _) => AuditRow(key, "Ticket", t, Some(a), Some(o))
    case TicketUpdated(t, o, a) => AuditRow(key, "Ticket", t, Some(a), Some(o))
    case TicketAssigned(t, o, _, a) => AuditRow(key, "Ticket", t, Some(a), Some(o))
    case TicketClosed(t, o, a) => AuditRow(key, "Ticket", t, Some(a), Some(o))
    case CommentCreated(c, _, o, a, _) => AuditRow(key, "Comment", c, Some(a), Some(o))
    case NotificationCreated => AuditRow(key, "Unknown", e.eventId, None, None)
  }

  // ---------------------------------------------------------------- notification

  /** `unique`: drops the missing ids and keeps the first occurrence of each other. */
  function Unique(ids: seq<Option<Id>>): (r: seq<Id>)
    ensures forall u :: u in r <==> Some(u) in ids
    ensures NoRepeats(r)
  {
    if ids == [] then []
    else
      var front := Unique(ids[..|ids| - 1]);
      var last := ids[|ids| - 1];
      assert ids == ids[..|ids| - 1] + [last];
      if last.None? || last.value in front then front else front + [last.value]
  }

  function Without(ids: seq<Id>, actor: Id): (r: seq<Id>)
    ensures forall u :: u in r <==> u in ids && u != actor
    ensures NoRepeats(ids) ==> NoRepeats(r)
  {
    if ids == [] then []
    else
      var front := Without(ids[..|ids| - 1], actor);
      var last := ids[|ids| - 1];
      assert ids == ids[..|ids| - 1] + [last];
      assert NoRepeats(ids) ==> last !in ids[..|ids| - 1];
      if last == actor then front else front + [last]
  }

  predicate NoRepeats<T(==)>(s: seq<T>) {
    forall i, j :: 0 <= i < j < |s| ==> s[i] != s[j]
  }

  function Recipients(p: Payload, ticket: Option<TicketView>): seq<Id> {
    match p
    case TicketCreated(_, _, creator, assignee) => Unique([Some(creator), assignee])
    case TicketAssigned(_, _, assignee, actor) => Without(Unique([Some(assignee)]), actor)
    case TicketUpdated(_, _, actor) =>
      if ticket.None? then []
      else Without(Unique([Some(ticket.value.createdById), ticket.value.assignedToId]), actor)
    case TicketClosed(_, _, actor) =>
      if ticket.None? then []
      else Without(Unique([Some(ticket.value.createdById), ticket.value.assignedToId]), actor)
    case CommentCreated(_, _, _, author, isInternal) =>
      if ticket.None? then []
      else if isInternal then Without(Unique([ticket.value.assignedToId]), author)
      else Without(Unique([Some(ticket.value.createdById), ticket.value.assignedToId]), author)
    case NotificationCreated => []
  }

  function KindOf(p: Payload): NotificationType {
    match p
    case TicketCreated(_, _, _, _) => TICKET_CREATED
    case TicketAssigned(_, _, _, _) => TICKET_ASSIGNED
    case TicketUpdated(_, _, _) => TICKET_UPDATED
    case TicketClosed(_, _, _) => TICKET_CLOSED
    case _ => COMMENT_ADDED
  }

  function Notify(p: Payload, ticket: Option<TicketView>): seq<Notification> {
    var users := Recipients(p, ticket);
    seq(|users|, i requires 0 <= i < |users| =>
      Notification(users[i], KindOf(p), if p.NotificationCreated? then 0 else p.ticketId))
  }

  /** Who is told about an event: at most one row per user; the acting user is told only
      of a creation; nobody but the creator and the current assignee is told of a
      later event, and of an internal comment nobody but the current assignee. */
  lemma RecipientsAreEntitled(p: Payload, ticket: Option<TicketView>)
    ensures NoRepeats(Recipients(p, ticket))
    ensures p.TicketCreated? ==> forall u :: u in Recipients(p, ticket) <==>
      u == p.createdById || Some(u) == p.assignedToId
    ensures p.TicketAssigned? ==> forall u :: u in Recipients(p, ticket) <==> u == p.assigneeId && u != p.assignedById
    ensures p.TicketUpdated? ==> forall u :: u in Recipients(p, ticket) <==>
      ticket.Some? && u != p.updatedById && (u == ticket.value.createdById || Some(u) == ticket.value.assignedToId)
    ensures p.TicketClosed? ==> forall u :: u in Recipients(p, ticket) <==>
      ticket.Some? && u != p.closedById && (u == ticket.value.createdById || Some(u) == ticket.value.assignedToId)
    ensures p.CommentCreated? ==> forall u :: u in Recipients(p, ticket) <==>
      ticket.Some? && u != p.authorId &&
      (Some(u) == ticket.value.assignedToId || (!p.isInternal && u == ticket.value.createdById))
  {}

  /** The type of the notification is the one for the event: each type stands for exactly one
      kind of event. */
  predicate TypeFits(kind: NotificationType, p: Payload) {
    (kind == TICKET_CREATED <==> p.TicketCreated?) &&
    (kind == TICKET_UPDATED <==> p.TicketUpdated?) &&
    (kind == TICKET_ASSIGNED <==> p.TicketAssigned?) &&
    (kind == TICKET_CLOSED <==> p.TicketClosed?) &&
    (kind == COMMENT_ADDED <==> p.CommentCreated?)
  }

  /** The rows of one event have its type, name its ticket, and go to its recipients. */
  lemma NotifyFits(p: Payload, ticket: Option<TicketView>)
    ensures var rows, users := Notify(p, ticket), Recipients(p, ticket);
      |rows| == |users| && forall k :: 0 <= k < |rows| ==>
        !p.NotificationCreated? && TypeFits(rows[k].kind, p) && rows[k].ticketId == p.ticketId &&
        rows[k].userId == users[k] && rows[k].userId in users
  {
    hide TypeFits, KindOf;
    var rows, users := Notify(p, ticket), Recipients(p, ticket);
    forall k | 0 <= k < |rows|
      ensures rows[k].userId == users[k] && rows[k].userId in users && !p.NotificationCreated?
    {
      assert users[k] in users;
    }
    if !p.NotificationCreated? { KindFits(p); }
  }

  lemma KindFits(p: Payload)
    requires !p.NotificationCreated?
    ensures TypeFits(KindOf(p), p)
  {}

  // ---------------------------------------------------------------- processed events

  /** A row of `processed_events`; `context` is history: what the projection read. */
  datatype Processed = Processed(eventId: Id, queue: Queue, context: Context)

  function Project(q: Queue, e: Event, c: Context, t: Tables): Tables {
    match q
    case AnalyticsQueue =>
      var m := MetricOf(e.payload);
      if m.None? then t else t.(metrics := Upsert(t.metrics, (m.value.0, c.day), m.value.1))
    case AuditQueue => t.(audit := t.audit + [Describe(e)])
    case NotificationQueue => t.(notifications := t.notifications + Notify(e.payload, c.ticket))
  }

  predicate LogOk(payloads: seq<Payload>, log: seq<Processed>) {
    forall i :: 0 <= i < |log| ==> log[i].eventId < |payloads|
  }

  /** The tables as the fold of the projections over the processed events, in commit order. */
  function Replay(payloads: seq<Payload>, log: seq<Processed>): Tables
    requires LogOk(payloads, log)
  {
    if log == [] then EMPTY
    else
      var last := log[|log| - 1];
      Project(last.queue, Event(last.eventId, payloads[last.eventId]), last.context,
              Replay(payloads, log[..|log| - 1]))
  }

  lemma {:induction false} ReplayIgnoresLaterPayloads(payloads: seq<Payload>, later: seq<Payload>, log: seq<Processed>)
    requires LogOk(payloads, log) && payloads <= later
    ensures LogOk(later, log) && Replay(later, log) == Replay(payloads, log)
  {
    if log == [] {
    } else {
      ReplayIgnoresLaterPayloads(payloads, later, log[..|log| - 1]);
    }
  }

  predicate IsMarked(log: seq<Processed>, id: Id, q: Queue) {
    exists i :: 0 <= i < |log| && log[i].eventId == id && log[i].queue == q
  }

  /** The unique constraint on (eventId, consumer). */
  ghost predicate UniqueMarkers(log: seq<Processed>) {
    forall i, j :: 0 <= i < j < |log| ==> !(log[i].eventId == log[j].eventId && log[i].queue == log[j].queue)
  }

  // ---------------------------------------------------------------- metrics as counts

  predicate Moves(p: Payload, org: Id, f: Field) {
    MetricOf(p) == Some((org, f))
  }

  predicate Counts(payloads: seq<Payload>, x: Processed, org: Id, f: Field) {
    x.queue.AnalyticsQueue? && x.eventId < |payloads| && Moves(payloads[x.eventId], org, f)
  }

  /** The distinct events that analytics applied to a counter on a given day. */
  function AppliedOn(payloads: seq<Payload>, log: seq<Processed>, org: Id, day: int, f: Field): set<Id> {
    set i | 0 <= i < |log| && Counts(payloads, log[i], org, f) && log[i].context.day == day :: log[i].eventId
  }

  /** The distinct events that analytics applied to a counter on any day. */
  function Applied(payloads: seq<Payload>, log: seq<Processed>, org: Id, f: Field): set<Id> {
    set i | 0 <= i < |log| && Counts(payloads, log[i], org, f) :: log[i].eventId
  }

  function Cell(t: map<(Id, int), Metrics>, org: Id, day: int, f: Field): nat {
    if (org, day) in t then Get(t[(org, day)], f) else 0
  }

  lemma AppliedOnSnoc(payloads: seq<Payload>, log: seq<Processed>, org: Id, day: int, f: Field)
    requires log != []
    ensures var x := log[|log| - 1]; var front := log[..|log| - 1];
      AppliedOn(payloads, log, org, day, f) == AppliedOn(payloads, front, org, day, f) +
        if Counts(payloads, x, org, f) && x.context.day == day then {x.eventId} else {}
  {
    var front := log[..|log| - 1];
    forall e | e in AppliedOn(payloads, front, org, day, f) ensures e in AppliedOn(payloads, log, org, day, f) {
      var i :| 0 <= i < |front| && Counts(payloads, front[i], org, f) &&
        front[i].context.day == day && front[i].eventId == e;
      assert log[i] == front[i];
    }
  }

  lemma AppliedSnoc(payloads: seq<Payload>, log: seq<Processed>, org: Id, f: Field)
    requires log != []
    ensures var x := log[|log| - 1]; var front := log[..|log| - 1];
      Applied(payloads, log, org, f) == Applied(payloads, front, org, f) +
        if Counts(payloads, x, org, f) then {x.eventId} else {}
  {
    var front := log[..|log| - 1];
    forall e | e in Applied(payloads, front, org, f) ensures e in Applied(payloads, log, org, f) {
      var i :| 0 <= i < |front| && Counts(payloads, front[i], org, f) && front[i].eventId == e;
      assert log[i] == front[i];
    }
  }

  lemma ProjectMovesOneCell(q: Queue, e: Event, c: Context, t: Tables, org: Id, day: int, f: Field)
    ensures Cell(Project(q, e, c, t).metrics, org, day, f) == Cell(t.metrics, org, day, f) +
      if q.AnalyticsQueue? && Moves(e.payload, org, f) && c.day == day then 1 else 0
  {}

  /** Each metrics cell counts the distinct events of its kind that analytics applied on its day. */
  lemma {:induction false} CellsCountAppliedEvents(
      payloads: seq<Payload>, log: seq<Processed>, org: Id, day: int, f: Field)
    requires LogOk(payloads, log) && UniqueMarkers(log)
    ensures Cell(Replay(payloads, log).metrics, org, day, f) == |AppliedOn(payloads, log, org, day, f)|
  {
    if log == [] {
    } else {
      var front, x := log[..|log| - 1], log[|log| - 1];
      AppliedOnSnoc(payloads, log, org, day, f);
      CellsCountAppliedEvents(payloads, front, org, day, f);
      var e := Event(x.eventId, payloads[x.eventId]);
      ProjectMovesOneCell(x.queue, e, x.context, Replay(payloads, front), org, day, f);
      if Counts(payloads, x, org, f) && x.context.day == day {
        assert x.eventId !in AppliedOn(payloads, front, org, day, f);
      }
    }
  }

  /** The distinct ticket.created events of the organization that analytics applied that day,
      and likewise for ticket.assigned and ticket.closed. */
  function CreatedOn(payloads: seq<Payload>, log: seq<Processed>, org: Id, day: int): set<Id> {
    set i | 0 <= i < |log| && AppliedThen(payloads, log[i], day) &&
      payloads[log[i].eventId].TicketCreated? && payloads[log[i].eventId].organizationId == org :: log[i].eventId
  }

  function AssignedOn(payloads: seq<Payload>, log: seq<Processed>, org: Id, day: int): set<Id> {
    set i | 0 <= i < |log| && AppliedThen(payloads, log[i], day) &&
      payloads[log[i].eventId].TicketAssigned? && payloads[log[i].eventId].organizationId == org :: log[i].eventId
  }

  function ClosedOn(payloads: seq<Payload>, log: seq<Processed>, org: Id, day: int): set<Id> {
    set i | 0 <= i < |log| && AppliedThen(payloads, log[i], day) &&
      payloads[log[i].eventId].TicketClosed? && payloads[log[i].eventId].organizationId == org :: log[i].eventId
  }

  predicate AppliedThen(payloads: seq<Payload>, x: Processed, day: int) {
    x.queue.AnalyticsQueue? && x.eventId < |payloads| && x.context.day == day
  }

  lemma KindsOfCounted(payloads: seq<Payload>, log: seq<Processed>, org: Id, day: int)
    ensures AppliedOn(payloads, log, org, day, CreatedField) == CreatedOn(payloads, log, org, day)
    ensures AppliedOn(payloads, log, org, day, AssignedField) == AssignedOn(payloads, log, org, day)
    ensures AppliedOn(payloads, log, org, day, ClosedField) == ClosedOn(payloads, log, org, day)
  {}

  /** A metrics row holds, for its organization and day, the numbers of distinct applied
      ticket.created, ticket.assigned and ticket.closed events, each in its own column. */
  lemma RowsCountAppliedEvents(payloads: seq<Payload>, log: seq<Processed>, org: Id, day: int)
    requires LogOk(payloads, log) && UniqueMarkers(log) && (org, day) in Replay(payloads, log).metrics
    ensures Replay(payloads, log).metrics[(org, day)] ==
      Metrics(|CreatedOn(payloads, log, org, day)|, |AssignedOn(payloads, log, org, day)|,
              |ClosedOn(payloads, log, org, day)|)
  {
    KindsOfCounted(payloads, log, org, day);
    CellsCountAppliedEvents(payloads, log, org, day, CreatedField);
    CellsCountAppliedEvents(payloads, log, org, day, AssignedField);
    CellsCountAppliedEvents(payloads, log, org, day, ClosedField);
  }

  predicate MovesRow(payloads: seq<Payload>, x: Processed, org: Id, day: int) {
    x.queue.AnalyticsQueue? && x.eventId < |payloads| && x.context.day == day &&
    MetricOf(payloads[x.eventId]).Some? && MetricOf(payloads[x.eventId]).value.0 == org
  }

  lemma MovesRowSnoc(payloads: seq<Payload>, log: seq<Processed>, org: Id, day: int)
    requires log != []
    ensures var front := log[..|log| - 1];
      (exists i :: 0 <= i < |log| && MovesRow(payloads, log[i], org, day)) <==>
      (exists i :: 0 <= i < |front| && MovesRow(payloads, front[i], org, day)) ||
        MovesRow(payloads, log[|log| - 1], org, day)
  {
    assert forall i :: 0 <= i < |log| - 1 ==> log[..|log| - 1][i] == log[i];
  }

  lemma ProjectAddsOneRow(payloads: seq<Payload>, x: Processed, t: Tables, org: Id, day: int)
    requires x.eventId < |payloads|
    ensures (org, day) in Project(x.queue, Event(x.eventId, payloads[x.eventId]), x.context, t).metrics <==>
      (org, day) in t.metrics || MovesRow(payloads, x, org, day)
  {}

  /** A metrics row exists exactly for the days on which analytics applied some event of
      the organization. */
  lemma {:induction false} RowsExistForAppliedDays(payloads: seq<Payload>, log: seq<Processed>, org: Id, day: int)
    requires LogOk(payloads, log)
    ensures (org, day) in Replay(payloads, log).metrics <==>
      exists i :: 0 <= i < |log| && MovesRow(payloads, log[i], org, day)
  {
    hide Project, MovesRow;
    if log == [] {
    } else {
      var front, x := log[..|log| - 1], log[|log| - 1];
      RowsExistForAppliedDays(payloads, front, org, day);
      MovesRowSnoc(payloads, log, org, day);
      ProjectAddsOneRow(payloads, x, Replay(payloads, front), org, day);
    }
  }

  /** Analytics applied the same events to the same counters on the same days. */
  ghost predicate SameApplied(payloads: seq<Payload>, log: seq<Processed>, other: seq<Processed>) {
    forall org, day, f :: AppliedOn(payloads, log, org, day, f) == AppliedOn(payloads, other, org, day, f)
  }

  lemma SameRows(payloads: seq<Payload>, log: seq<Processed>, other: seq<Processed>, org: Id, day: int)
    requires LogOk(payloads, log) && LogOk(payloads, other) && SameApplied(payloads, log, other)
    requires (org, day) in Replay(payloads, log).metrics
    ensures (org, day) in Replay(payloads, other).metrics
  {
    RowsExistForAppliedDays(payloads, log, org, day);
    RowsExistForAppliedDays(payloads, other, org, day);
    var i :| 0 <= i < |log| && MovesRow(payloads, log[i], org, day);
    var f := MetricOf(payloads[log[i].eventId]).value.1;
    assert log[i].eventId in AppliedOn(payloads, log, org, day, f);
    assert log[i].eventId in AppliedOn(payloads, other, org, day, f);
    var j :| 0 <= j < |other| && Counts(payloads, other[j], org, f) && other[j].context.day == day;
    assert MovesRow(payloads, other[j], org, day);
  }

  lemma SameCells(payloads: seq<Payload>, log: seq<Processed>, other: seq<Processed>, org: Id, day: int)
    requires LogOk(payloads, log) && LogOk(payloads, other) && UniqueMarkers(log) && UniqueMarkers(other)
    requires SameApplied(payloads, log, other)
    ensures forall f ::
      Cell(Replay(payloads, log).metrics, org, day, f) == Cell(Replay(payloads, other).metrics, org, day, f)
  {
    forall f
      ensures Cell(Replay(payloads, log).metrics, org, day, f) == Cell(Replay(payloads, other).metrics, org, day, f)
    {
      CellsCountAppliedEvents(payloads, log, org, day, f);
      CellsCountAppliedEvents(payloads, other, org, day, f);
    }
  }

  /** Two histories of one outbox in which analytics applied the same events on the same
      days have the same metrics table, whatever the order and whatever else happened. */
  lemma MetricsIgnoreOrder(payloads: seq<Payload>, log: seq<Processed>, other: seq<Processed>)
    requires LogOk(payloads, log) && LogOk(payloads, other) && UniqueMarkers(log) && UniqueMarkers(other)
    requires SameApplied(payloads, log, other)
    ensures Replay(payloads, log).metrics == Replay(payloads, other).metrics
  {
    var a, b := Replay(payloads, log).metrics, Replay(payloads, other).metrics;
    assert SameApplied(payloads, other, log);
    forall k: (Id, int) ensures k in a <==> k in b {
      if k in a { SameRows(payloads, log, other, k.0, k.1); }
      if k in b { SameRows(payloads, other, log, k.0, k.1); }
    }
    forall k | k in a ensures a[k] == b[k] {
      SameCells(payloads, log, other, k.0, k.1);
      assert k == (k.0, k.1) && k in b;
      forall f ensures Get(a[k], f) == Get(b[k], f) {
        assert Cell(a, k.0, k.1, f) == Cell(b, k.0, k.1, f);
      }
      SameMetrics(a[k], b[k]);
    }
  }

  lemma SameMetrics(m: Metrics, n: Metrics)
    requires forall f :: Get(m, f) == Get(n, f)
    ensures m == n
  {
    assert Get(m, CreatedField) == Get(n, CreatedField);
    assert Get(m, AssignedField) == Get(n, AssignedField);
    assert Get(m, ClosedField) == Get(n, ClosedField);
  }

  // ---------------------------------------------------------------- totals over days

  /** A counter summed over the given days. */
  function Total(t: map<(Id, int), Metrics>, org: Id, f: Field, days: seq<int>): nat {
    if days == [] then 0
    else Total(t, org, f, days[..|days| - 1]) + Cell(t, org, days[|days| - 1], f)
  }

  lemma {:induction false} TotalMovesWithOneCell(
      t: map<(Id, int), Metrics>, u: map<(Id, int), Metrics>, org: Id, f: Field, days: seq<int>, day: int, gain: nat)
    requires NoRepeats(days)
    requires forall d :: Cell(u, org, d, f) == Cell(t, org, d, f) + if d == day then gain else 0
    ensures Total(u, org, f, days) == Total(t, org, f, days) + if day in days then gain else 0
  {
    if days == [] {
    } else {
      var front, last := days[..|days| - 1], days[|days| - 1];
      assert days == front + [last];
      TotalMovesWithOneCell(t, u, org, f, front, day, gain);
    }
  }

  ghost predicate Covers(days: seq<int>, log: seq<Processed>) {
    forall i :: 0 <= i < |log| ==> log[i].context.day in days
  }

  function Gain(payloads: seq<Payload>, x: Processed, org: Id, f: Field): nat {
    if Counts(payloads, x, org, f) then 1 else 0
  }

  lemma LastMovesOneCell(payloads: seq<Payload>, log: seq<Processed>, org: Id, f: Field)
    requires log != [] && LogOk(payloads, log)
    ensures var x := log[|log| - 1]; 
      forall d :: Cell(Replay(payloads, log).metrics, org, d, f) ==
                  Cell(Replay(payloads, log[..|log| - 1]).metrics, org, d, f) +
                  (if d == x.context.day then Gain(payloads, x, org, f) else 0)
  {
    var front, x := log[..|log| - 1], log[|log| - 1];
    forall d ensures Cell(Replay(payloads, log).metrics, org, d, f) ==
      Cell(Replay(payloads, front).metrics, org, d, f) + if d == x.context.day then Gain(payloads, x, org, f) else 0
    {
      var e := Event(x.eventId, payloads[x.eventId]);
      ProjectMovesOneCell(x.queue, e, x.context, Replay(payloads, front), org, d, f);
    }
  }

  lemma LastIsAppliedOnce(payloads: seq<Payload>, log: seq<Processed>, org: Id, f: Field)
    requires log != [] && UniqueMarkers(log)
    ensures |Applied(payloads, log, org, f)| ==
      |Applied(payloads, log[..|log| - 1], org, f)| + Gain(payloads, log[|log| - 1], org, f)
  {
    var front, x := log[..|log| - 1], log[|log| - 1];
    AppliedSnoc(payloads, log, org, f);
    if Counts(payloads, x, org, f) { assert x.eventId !in Applied(payloads, front, org, f); }
  }

  /** Summed over any list of days that holds every day of the log once, a counter is the
      number of distinct events of its kind that analytics applied. */
  lemma {:induction false} TotalsCountAppliedEvents(
      payloads: seq<Payload>, log: seq<Processed>, org: Id, f: Field, days: seq<int>)
    requires LogOk(payloads, log) && UniqueMarkers(log)
    requires NoRepeats(days) && Covers(days, log)
    ensures Total(Replay(payloads, log).metrics, org, f, days) == |Applied(payloads, log, org, f)|
  {
    if log == [] {
      TotalOfNothing(org, f, days);
    } else {
      var front, x := log[..|log| - 1], log[|log| - 1];
      TotalsCountAppliedEvents(payloads, front, org, f, days);
      LastIsAppliedOnce(payloads, log, org, f);
      LastMovesOneCell(payloads, log, org, f);
      TotalMovesWithOneCell(Replay(payloads, front).metrics, Replay(payloads, log).metrics, org, f, days,
                            x.context.day, Gain(payloads, x, org, f));
    }
  }

  lemma {:induction false} TotalOfNothing(org: Id, f: Field, days: seq<int>)
    ensures Total(map[], org, f, days) == 0
  {
    if days == [] {
    } else {
      TotalOfNothing(org, f, days[..|days| - 1]);
    }
  }

  // ---------------------------------------------------------------- the audit log

  /** The ids that a consumer has processed, in commit order. */
  function IdsOf(log: seq<Processed>, q: Queue): seq<Id> {
    if log == [] then []
    else
      var last := log[|log| - 1];
      IdsOf(log[..|log| - 1], q) + (if last.queue == q then [last.eventId] else [])
  }

  lemma {:induction false} IdsOfAreMarked(log: seq<Processed>, q: Queue)
    ensures forall id :: id in IdsOf(log, q) <==> IsMarked(log, id, q)
    ensures UniqueMarkers(log) ==> NoRepeats(IdsOf(log, q))
  {
    if log == [] {
    } else {
      var front, last := log[..|log| - 1], log[|log| - 1];
      IdsOfAreMarked(front, q);
      forall id ensures IsMarked(log, id, q) <==> IsMarked(front, id, q) || (last.queue == q && last.eventId == id) {
        if IsMarked(front, id, q) {
          var i :| 0 <= i < |front| && front[i].eventId == id && front[i].queue == q;
          assert log[i] == front[i];
        }
      }
      if UniqueMarkers(log) && last.queue == q {
        assert !IsMarked(front, last.eventId, q);
      }
    }
  }

  /** The row records the event: the routing key as its action, the ticket or the comment, who
      acted, and the organization; of any other event only its id. */
  predicate Describes(row: AuditRow, e: Event) {
    match e.payload
    case TicketCreated(t, o, a, _) => row == AuditRow("ticket.created", "Ticket", t, Some(a), Some(o))
    case TicketUpdated(t, o, a) => row == AuditRow("ticket.updated", "Ticket", t, Some(a), Some(o))
    case TicketAssigned(t, o, _, a) => row == AuditRow("ticket.assigned", "Ticket", t, Some(a), Some(o))
    case TicketClosed(t, o, a) => row == AuditRow("ticket.closed", "Ticket", t, Some(a), Some(o))
    case CommentCreated(c, _, o, a, _) => row == AuditRow("comment.created", "Comment", c, Some(a), Some(o))
    case NotificationCreated => row == AuditRow("notification.created", "Unknown", e.eventId, None, None)
  }

  lemma DescribeFits(e: Event)
    ensures Describes(Describe(e), e)
  {}

  function AuditRows(payloads: seq<Payload>, ids: seq<Id>): seq<AuditRow>
    requires forall i :: 0 <= i < |ids| ==> ids[i] < |payloads|
  {
    seq(|ids|, i requires 0 <= i < |ids| => Describe(Event(ids[i], payloads[ids[i]])))
  }

  lemma {:induction false} IdsInRange(payloads: seq<Payload>, log: seq<Processed>, q: Queue)
    requires LogOk(payloads, log)
    ensures forall i :: 0 <= i < |IdsOf(log, q)| ==> IdsOf(log, q)[i] < |payloads|
  {
    if log == [] {
    } else {
      IdsInRange(payloads, log[..|log| - 1], q);
    }
  }

  /** The audit table describes the audited events, one row each, in commit order. */
  lemma {:induction false} AuditDescribesProcessedEvents(payloads: seq<Payload>, log: seq<Processed>)
    requires LogOk(payloads, log)
    ensures forall i :: 0 <= i < |IdsOf(log, AuditQueue)| ==> IdsOf(log, AuditQueue)[i] < |payloads|
    ensures Replay(payloads, log).audit == AuditRows(payloads, IdsOf(log, AuditQueue))
    ensures var ids, rows := IdsOf(log, AuditQueue), Replay(payloads, log).audit;
      |rows| == |ids| && forall i :: 0 <= i < |rows| ==> Describes(rows[i], Event(ids[i], payloads[ids[i]]))
  {
    hide Describe, Describes;
    IdsInRange(payloads, log, AuditQueue);
    forall e { DescribeFits(e); }
    if log == [] {
    } else {
      AuditDescribesProcessedEvents(payloads, log[..|log| - 1]);
    }
  }

  function Upto(n: nat): seq<Id> {
    seq(n, i => i)
  }

  /** Ids without repeats that are exactly 0..n-1 list them in some order. */
  lemma {:induction false} PermutationOfUpto(ids: seq<Id>, n: nat)
    requires NoRepeats(ids) && forall id: Id :: id in ids <==> id < n
    ensures multiset(ids) == multiset(Upto(n))
  {
    forall id: Id ensures multiset(ids)[id] == multiset(Upto(n))[id] {
      OccursOnce(ids, id);
      OccursOnce(Upto(n), id);
      assert id < n ==> Upto(n)[id] == id;
    }
  }

  lemma {:induction false} OccursOnce(s: seq<Id>, x: Id)
    requires NoRepeats(s)
    ensures multiset(s)[x] == if x in s then 1 else 0
  {
    if s == [] {
    } else {
      var front, last := s[..|s| - 1], s[|s| - 1];
      assert s == front + [last];
      OccursOnce(front, x);
    }
  }

  // ---------------------------------------------------------------- the notifications

  /** For each row of the notification table, the event that wrote it. */
  function NotifiedBy(payloads: seq<Payload>, log: seq<Processed>): seq<Id>
    requires LogOk(payloads, log)
  {
    if log == [] then []
    else
      var last := log[|log| - 1];
      NotifiedBy(payloads, log[..|log| - 1]) +
        (if last.queue.NotificationQueue?
         then seq(|Recipients(payloads[last.eventId], last.context.ticket)|, _ => last.eventId) else [])
  }

  /** The notification consumer has processed the event, and the row is one of those that
      are due for the event and the ticket as it was then. */
  ghost predicate DueTo(payloads: seq<Payload>, log: seq<Processed>, id: Id, row: Notification) {
    exists k :: 0 <= k < |log| && log[k].eventId == id && log[k].queue.NotificationQueue? && id < |payloads| &&
      row in Notify(payloads[id], log[k].context.ticket)
  }

  lemma DueStays(payloads: seq<Payload>, log: seq<Processed>, x: Processed, id: Id, row: Notification)
    requires DueTo(payloads, log, id, row)
    ensures DueTo(payloads, log + [x], id, row)
  {
    var k :| 0 <= k < |log| && log[k].eventId == id && log[k].queue.NotificationQueue? && id < |payloads| &&
      row in Notify(payloads[id], log[k].context.ticket);
    assert (log + [x])[k] == log[k];
  }

  /** The rows that one processed event adds, and who wrote each of them. */
  lemma LastNotifies(payloads: seq<Payload>, log: seq<Processed>)
    requires log != [] && LogOk(payloads, log)
    ensures var front, x := log[..|log| - 1], log[|log| - 1]; var e := Event(x.eventId, payloads[x.eventId]);
      var added := if x.queue.NotificationQueue? then Notify(e.payload, x.context.ticket) else [];
      var was, ids := NotifiedBy(payloads, front), NotifiedBy(payloads, log);
      Replay(payloads, log).notifications == Replay(payloads, front).notifications + added &&
      |ids| == |was| + |added| &&
      (forall i :: 0 <= i < |was| ==> ids[i] == was[i]) &&
      (forall i :: |was| <= i < |ids| ==> ids[i] == x.eventId)
  {}

  lemma {:induction false} RowsAreDue(payloads: seq<Payload>, log: seq<Processed>)
    requires LogOk(payloads, log)
    ensures |NotifiedBy(payloads, log)| == |Replay(payloads, log).notifications|
    ensures forall i :: 0 <= i < |NotifiedBy(payloads, log)| ==>
      DueTo(payloads, log, NotifiedBy(payloads, log)[i], Replay(payloads, log).notifications[i])
  {
    if log == [] {
    } else {
      var front, x := log[..|log| - 1], log[|log| - 1];
      var ids, rows := NotifiedBy(payloads, log), Replay(payloads, log).notifications;
      RowsAreDue(payloads, front);
      LastNotifies(payloads, log);
      assert log == front + [x];
      forall i | 0 <= i < |ids| ensures DueTo(payloads, log, ids[i], rows[i]) {
        if i < |NotifiedBy(payloads, front)| {
          DueStays(payloads, front, x, ids[i], rows[i]);
        } else {
          assert log[|front|] == x && rows[i] in Notify(payloads[x.eventId], x.context.ticket);
        }
      }
    }
  }

  lemma {:induction false} WritersIgnoreLaterPayloads(payloads: seq<Payload>, later: seq<Payload>, log: seq<Processed>)
    requires LogOk(payloads, log) && payloads <= later
    ensures LogOk(later, log) && NotifiedBy(later, log) == NotifiedBy(payloads, log)
  {
    if log == [] {
    } else {
      WritersIgnoreLaterPayloads(payloads, later, log[..|log| - 1]);
    }
  }

  lemma NotifiesEachOnce(p: Payload, ticket: Option<TicketView>)
    ensures var rows := Notify(p, ticket); forall i, j :: 0 <= i < j < |rows| ==> rows[i].userId != rows[j].userId
  {
    RecipientsAreEntitled(p, ticket);
  }

  /** No event notifies a user twice. */
  lemma {:induction false} NobodyIsToldTwice(payloads: seq<Payload>, log: seq<Processed>)
    requires LogOk(payloads, log) && UniqueMarkers(log)
    ensures var ids, rows := NotifiedBy(payloads, log), Replay(payloads, log).notifications;
      |ids| == |rows| && forall i, j :: 0 <= i < j < |ids| && ids[i] == ids[j] ==> rows[i].userId != rows[j].userId
  {
    RowsAreDue(payloads, log);
    if log == [] {
    } else {
      var front, x := log[..|log| - 1], log[|log| - 1];
      var ids, rows := NotifiedBy(payloads, log), Replay(payloads, log).notifications;
      var n := |NotifiedBy(payloads, front)|;
      NobodyIsToldTwice(payloads, front);
      RowsAreDue(payloads, front);
      LastNotifies(payloads, log);
      NotifiesEachOnce(payloads[x.eventId], x.context.ticket);
      assert forall i :: 0 <= i < n ==> DueTo(payloads, front, ids[i], rows[i]);
    }
  }
}
