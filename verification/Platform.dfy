/** The whole platform: the ticket aggregate feeding the event pipeline. The events that
    operations commit are the outbox, and the notification projection reads the tickets
    as they are when it runs. */
module Platform {
  import opened Domain
  import opened Projections
  import T = Tickets
  import P = Pipeline
  import G = Guarantees

  datatype State = State(source: T.State, pipe: P.State)

  const INIT := State(T.INIT, P.INIT)

  /** `Pipe` takes any step of the pipeline except adding events, which only operations do. */
  datatype Label = Source(t: T.Label) | Pipe(p: P.Label)

  function View(source: T.State, p: Payload): Option<TicketView> {
    if T.TicketOf(p).Some? && T.TicketOf(p).value < |source.tickets| then
      var t := source.tickets[T.TicketOf(p).value];
      Some(TicketView(t.createdById, t.assignedToId))
    else None
  }

  /** A projection reads the ticket in its own transaction. */
  function Reading(s: State, l: P.Label): P.Label {
    if l.RunOnce? && l.w in s.pipe.workers
    then l.(context := l.context.(ticket := View(s.source, s.pipe.workers[l.w].delivery.event.payload)))
    else l
  }

  function Step(c: P.Config, s: State, l: Label): State {
    match l
    case Source(t) =>
      var source := T.Step(s.source, t);
      T.StepExtends(s.source, t);
      State(source, P.Step(c, s.pipe, P.Append(source.events[|s.source.events|..])))
    case Pipe(p) =>
      if p.Append? then s else State(s.source, P.Step(c, s.pipe, Reading(s, p)))
  }

  function Run(c: P.Config, s: State, ls: seq<Label>): State {
    if ls == [] then s else Step(c, Run(c, s, ls[..|ls| - 1]), ls[|ls| - 1])
  }

  // ---------------------------------------------------------------- projections onto the parts

  function Added(source: T.State, t: T.Label): seq<Payload> {
    T.StepExtends(source, t);
    T.Step(source, t).events[|source.events|..]
  }

  function SourceLabel(l: Label): seq<T.Label> {
    if l.Source? then [l.t] else []
  }

  function PipeLabel(s: State, l: Label): seq<P.Label> {
    match l
    case Source(t) => [P.Append(Added(s.source, t))]
    case Pipe(p) => if p.Append? then [] else [Reading(s, p)]
  }

  /** The steps of the aggregate in a run of the platform. */
  function SourceLabels(ls: seq<Label>): seq<T.Label> {
    if ls == [] then [] else SourceLabels(ls[..|ls| - 1]) + SourceLabel(ls[|ls| - 1])
  }

  /** The steps of the pipeline in a run of the platform. */
  function PipeLabels(c: P.Config, ls: seq<Label>): seq<P.Label> {
    if ls == [] then []
    else PipeLabels(c, ls[..|ls| - 1]) + PipeLabel(Run(c, INIT, ls[..|ls| - 1]), ls[|ls| - 1])
  }

  lemma SourceRunSnoc(s: T.State, ls: seq<T.Label>, l: Label)
    ensures T.Run(s, ls + SourceLabel(l)) == if l.Source? then T.Step(T.Run(s, ls), l.t) else T.Run(s, ls)
  {
    if l.Source? { assert (ls + [l.t])[..|ls|] == ls; } else { assert ls + [] == ls; }
  }

  lemma PipeRunSnoc(c: P.Config, s: P.State, ls: seq<P.Label>, more: seq<P.Label>)
    requires |more| <= 1
    ensures P.Run(c, s, ls + more) == if more == [] then P.Run(c, s, ls) else P.Step(c, P.Run(c, s, ls), more[0])
  {
    if more == [] { assert ls + more == ls; } else { assert (ls + more)[..|ls|] == ls; }
  }

  lemma StepProjects(c: P.Config, s: State, l: Label)
    ensures var t := Step(c, s, l); var more := PipeLabel(s, l);
      t.source == (if l.Source? then T.Step(s.source, l.t) else s.source) &&
      t.pipe == (if more == [] then s.pipe else P.Step(c, s.pipe, more[0]))
  {}

  lemma StepKeepsOutbox(c: P.Config, s: State, l: Label)
    requires P.Payloads(s.pipe.outbox) == s.source.events
    ensures P.Payloads(Step(c, s, l).pipe.outbox) == Step(c, s, l).source.events
  {
    var t := Step(c, s, l);
    if l.Source? {
      var added := Added(s.source, l.t);
      T.StepExtends(s.source, l.t);
      assert P.Payloads(P.NewRows(added)) == added;
      assert P.Payloads(t.pipe.outbox) == P.Payloads(s.pipe.outbox) + added;
    } else if !l.p.Append? {
      PipeKeepsLength(c, s.pipe, Reading(s, l.p));
      P.StepGrows(c, s.pipe, Reading(s, l.p));
      assert P.Payloads(t.pipe.outbox) == P.Payloads(s.pipe.outbox);
    }
  }

  lemma PipeKeepsLength(c: P.Config, s: P.State, l: P.Label)
    requires !l.Append?
    ensures |P.Step(c, s, l).outbox| == |s.outbox|
  {}

  /** Every run of the platform is a run of the aggregate and a run of the pipeline, and
      the outbox holds exactly the events of the aggregate, in commit order. */
  lemma {:induction false} RunProjects(c: P.Config, ls: seq<Label>)
    ensures Run(c, INIT, ls).source == T.Run(T.INIT, SourceLabels(ls))
    ensures Run(c, INIT, ls).pipe == P.Run(c, P.INIT, PipeLabels(c, ls))
    ensures P.Payloads(Run(c, INIT, ls).pipe.outbox) == Run(c, INIT, ls).source.events
  {
    if ls == [] {
    } else {
      var front, l := ls[..|ls| - 1], ls[|ls| - 1];
      RunProjects(c, front);
      var s := Run(c, INIT, front);
      StepProjects(c, s, l);
      StepKeepsOutbox(c, s, l);
      SourceRunSnoc(T.INIT, SourceLabels(front), l);
      PipeRunSnoc(c, P.INIT, PipeLabels(c, front), PipeLabel(s, l));
    }
  }

  // ---------------------------------------------------------------- read models and source of truth

  /** No projector raises a unique violation of its own. */
  ghost predicate NoUniqueViolation(ls: seq<Label>) {
    forall i :: 0 <= i < |ls| && ls[i].Pipe? && ls[i].p.RunOnce? ==> !ls[i].p.work.UniqueViolation?
  }

  lemma {:induction false} PipeHasNoUniqueViolation(c: P.Config, ls: seq<Label>)
    requires NoUniqueViolation(ls)
    ensures G.NoUniqueViolation(PipeLabels(c, ls))
  {
    if ls == [] {
    } else {
      PipeHasNoUniqueViolation(c, ls[..|ls| - 1]);
    }
  }

  /** The tickets an organization has. */
  function TicketsOf(tickets: seq<T.Ticket>, org: Id): set<Id> {
    set id | 0 <= id < |tickets| && tickets[id].organizationId == org
  }

  /** Each ticket has exactly one ticket.created event, in its own organization. */
  ghost predicate CreationsMatch(s: T.State) {
    (forall i :: 0 <= i < |s.events| && s.events[i].TicketCreated? ==> s.events[i].ticketId < |s.tickets|) &&
    (forall i, j :: 0 <= i < j < |s.events| && s.events[i].TicketCreated? && s.events[j].TicketCreated? ==>
      s.events[i].ticketId != s.events[j].ticketId) &&
    (forall id :: 0 <= id < |s.tickets| ==> Created(s.events, id))
  }

  ghost predicate Created(events: seq<Payload>, id: Id) {
    exists i :: 0 <= i < |events| && events[i].TicketCreated? && events[i].ticketId == id
  }

  /** A step commits one creation, which adds one ticket and its event, or none at all. */
  ghost predicate AddsOneOrNone(s: T.State, t: T.State) {
    s.events <= t.events &&
    if |t.tickets| == |s.tickets|
    then forall i :: |s.events| <= i < |t.events| ==> !t.events[i].TicketCreated?
    else |t.tickets| == |s.tickets| + 1 && |t.events| == |s.events| + 1 &&
         t.events[|s.events|].TicketCreated? && t.events[|s.events|].ticketId == |s.tickets|
  }

  lemma StepAddsOneOrNone(s: T.State, l: T.Label)
    ensures AddsOneOrNone(s, T.Step(s, l))
  {}

  lemma CreationsStep(s: T.State, t: T.State)
    requires AddsOneOrNone(s, t) && CreationsMatch(s)
    ensures CreationsMatch(t)
  {
    forall id | 0 <= id < |t.tickets| ensures Created(t.events, id) {
      if id < |s.tickets| {
        assert Created(s.events, id);
        var i :| 0 <= i < |s.events| && s.events[i].TicketCreated? && s.events[i].ticketId == id;
        assert t.events[i] == s.events[i];
      } else {
        assert t.events[|s.events|].TicketCreated? && t.events[|s.events|].ticketId == id;
      }
    }
  }

  lemma {:induction false} CreationsAlwaysMatch(ls: seq<T.Label>)
    ensures CreationsMatch(T.Run(T.INIT, ls))
  {
    if ls == [] {
    } else {
      var s := T.Run(T.INIT, ls[..|ls| - 1]);
      CreationsAlwaysMatch(ls[..|ls| - 1]);
      StepAddsOneOrNone(s, ls[|ls| - 1]);
      CreationsStep(s, T.Step(s, ls[|ls| - 1]));
    }
  }

  /** As many ticket.created events as tickets, organization by organization. */
  lemma CreationsCountTickets(s: T.State, org: Id)
    requires T.Inv(s) && CreationsMatch(s)
    ensures |G.Emitted(s.events, org, CreatedField)| == |TicketsOf(s.tickets, org)|
  {
    var emitted, tickets := G.Emitted(s.events, org, CreatedField), TicketsOf(s.tickets, org);
    forall i | i in emitted ensures s.events[i].ticketId in tickets {
      assert T.EventOk(s, s.events[i]);
    }
    forall id | id in tickets ensures exists i :: i in emitted && s.events[i].ticketId == id {
      assert Created(s.events, id);
      var i :| 0 <= i < |s.events| && s.events[i].TicketCreated? && s.events[i].ticketId == id;
      assert T.EventOk(s, s.events[i]);
      assert i in emitted;
    }
    Bijection(s.events, emitted, tickets);
  }

  lemma {:induction false} Bijection(events: seq<Payload>, from: set<Id>, to: set<Id>)
    requires forall i :: i in from ==> i < |events| && events[i].TicketCreated? && events[i].ticketId in to
    requires forall i, j :: i in from && j in from && i != j ==> events[i].ticketId != events[j].ticketId
    requires forall id :: id in to ==> exists i :: i in from && events[i].ticketId == id
    ensures |from| == |to|
    decreases from
  {
    if from != {} {
      var i :| i in from;
      var id := events[i].ticketId;
      forall k | k in to - {id} ensures exists j :: j in from - {i} && events[j].ticketId == k {
        var j :| j in from && events[j].ticketId == k;
        assert j in from - {i};
      }
      Bijection(events, from - {i}, to - {id});
    } else {
      assert to == {};
    }
  }

  function AssignmentsIn(events: seq<Payload>, org: Id): set<Id> {
    set i | 0 <= i < |events| && events[i].TicketAssigned? && events[i].organizationId == org
  }

  function ClosingsIn(events: seq<Payload>, org: Id): set<Id> {
    set i | 0 <= i < |events| && events[i].TicketClosed? && events[i].organizationId == org
  }

  lemma EmittedKinds(events: seq<Payload>, org: Id)
    ensures G.Emitted(events, org, AssignedField) == AssignmentsIn(events, org)
    ensures G.Emitted(events, org, ClosedField) == ClosingsIn(events, org)
  {}

  lemma QuietTotal(c: P.Config, ls: seq<Label>, org: Id, f: Field, days: seq<int>)
    requires NoUniqueViolation(ls) && G.Quiet(Run(c, INIT, ls).pipe)
    requires NoRepeats(days) && Covers(days, Run(c, INIT, ls).pipe.processed)
    ensures Total(Run(c, INIT, ls).pipe.tables.metrics, org, f, days) ==
      |G.Emitted(Run(c, INIT, ls).source.events, org, f)|
  {
    RunProjects(c, ls);
    PipeHasNoUniqueViolation(c, ls);
    G.QuietMetricsAgree(c, PipeLabels(c, ls), org, f, days);
  }

  lemma CreatedEventsAreTickets(c: P.Config, ls: seq<Label>, org: Id)
    ensures |G.Emitted(Run(c, INIT, ls).source.events, org, CreatedField)| ==
      |TicketsOf(Run(c, INIT, ls).source.tickets, org)|
  {
    RunProjects(c, ls);
    T.RunKeepsInv(SourceLabels(ls));
    CreationsAlwaysMatch(SourceLabels(ls));
    CreationsCountTickets(Run(c, INIT, ls).source, org);
  }

  /** When the pipeline is quiet, whatever failed on the way, an organization's created
      counter summed over days is the number of its tickets, and its assigned and closed
      counters are the numbers of its committed assignments and closings. */
  lemma MetricsAgreeAtQuiescence(c: P.Config, ls: seq<Label>, org: Id, days: seq<int>)
    requires NoUniqueViolation(ls) && G.Quiet(Run(c, INIT, ls).pipe)
    requires NoRepeats(days) && Covers(days, Run(c, INIT, ls).pipe.processed)
    ensures var s := Run(c, INIT, ls); var metrics := s.pipe.tables.metrics;
      Total(metrics, org, CreatedField, days) == |TicketsOf(s.source.tickets, org)| &&
      Total(metrics, org, AssignedField, days) == |AssignmentsIn(s.source.events, org)| &&
      Total(metrics, org, ClosedField, days) == |ClosingsIn(s.source.events, org)|
  {
    QuietTotal(c, ls, org, CreatedField, days);
    QuietTotal(c, ls, org, AssignedField, days);
    QuietTotal(c, ls, org, ClosedField, days);
    CreatedEventsAreTickets(c, ls, org);
    EmittedKinds(Run(c, INIT, ls).source.events, org);
  }

  /** When the pipeline is quiet the audit log has exactly one row, the right one, for each
      event the services committed. */
  lemma AuditAgreesAtQuiescence(c: P.Config, ls: seq<Label>)
    requires NoUniqueViolation(ls) && G.Quiet(Run(c, INIT, ls).pipe)
    ensures var s := Run(c, INIT, ls);
      multiset(s.pipe.tables.audit) == multiset(AuditRows(s.source.events, Upto(|s.source.events|)))
  {
    RunProjects(c, ls);
    PipeHasNoUniqueViolation(c, ls);
    G.QuietAuditAgrees(c, PipeLabels(c, ls));
  }

  // ---------------------------------------------------------------- tenants

  /** The `i`-th event is about a ticket of its own organization. */
  ghost predicate AboutTicketOf(source: T.State, i: nat, org: Id) {
    i < |source.events| && T.SameTenant(source, source.events[i]) &&
    source.tickets[T.TicketOf(source.events[i]).value].organizationId == org
  }

  ghost predicate DescribesOwnTicket(source: T.State, row: AuditRow, i: nat) {
    row.organizationId.Some? && AboutTicketOf(source, i, row.organizationId.value) &&
    Describes(row, Event(i, source.events[i]))
  }

  lemma AuditRowHasTenant(source: T.State, log: seq<Processed>, k: nat)
    requires T.Inv(source) && LogOk(source.events, log) && k < |Replay(source.events, log).audit|
    ensures exists i :: DescribesOwnTicket(source, Replay(source.events, log).audit[k], i)
  {
    AuditDescribesProcessedEvents(source.events, log);
    var i := IdsOf(log, AuditQueue)[k];
    assert T.EventOk(source, source.events[i]);
    assert DescribesOwnTicket(source, Replay(source.events, log).audit[k], i);
  }

  /** The consumer applied the event on that day. */
  predicate MarkedOn(log: seq<Processed>, i: Id, q: Queue, day: int) {
    exists k :: 0 <= k < |log| && log[k].eventId == i && log[k].queue == q && log[k].context.day == day
  }

  /** Analytics applied the `i`-th event on that day, and it moves a counter of that
      organization's and is about one of its tickets. */
  ghost predicate CountedFor(source: T.State, log: seq<Processed>, i: Id, org: Id, day: int) {
    AboutTicketOf(source, i, org) && MetricOf(source.events[i]).Some? && MarkedOn(log, i, AnalyticsQueue, day)
  }

  lemma MetricsRowHasTenant(source: T.State, log: seq<Processed>, org: Id, day: int)
    requires T.Inv(source) && LogOk(source.events, log) && (org, day) in Replay(source.events, log).metrics
    ensures exists i :: CountedFor(source, log, i, org, day)
  {
    RowsExistForAppliedDays(source.events, log, org, day);
    var k :| 0 <= k < |log| && MovesRow(source.events, log[k], org, day);
    var i := log[k].eventId;
    assert T.EventOk(source, source.events[i]);
    assert CountedFor(source, log, i, org, day);
  }

  /** In every run the aggregate keeps its invariant, and the tables replay its events. */
  lemma TablesReplaySource(c: P.Config, ls: seq<Label>)
    ensures var s := Run(c, INIT, ls);
      T.Inv(s.source) && LogOk(s.source.events, s.pipe.processed) &&
      s.pipe.tables == Replay(s.source.events, s.pipe.processed)
  {
    RunProjects(c, ls);
    G.EffectsHappenOnce(c, PipeLabels(c, ls));
    T.RunKeepsInv(SourceLabels(ls));
  }

  /** Every audit row records the organization of the ticket its event is about. */
  lemma AuditStaysWithinTheTenant(c: P.Config, ls: seq<Label>, k: nat)
    requires k < |Run(c, INIT, ls).pipe.tables.audit|
    ensures exists i :: DescribesOwnTicket(Run(c, INIT, ls).source, Run(c, INIT, ls).pipe.tables.audit[k], i)
  {
    TablesReplaySource(c, ls);
    AuditRowHasTenant(Run(c, INIT, ls).source, Run(c, INIT, ls).pipe.processed, k);
  }

  /** A metrics row exists only for an organization and a day on which analytics applied an
      event about one of that organization's tickets. */
  lemma MetricsStayWithinTheTenant(c: P.Config, ls: seq<Label>, org: Id, day: int)
    requires (org, day) in Run(c, INIT, ls).pipe.tables.metrics
    ensures exists i :: CountedFor(Run(c, INIT, ls).source, Run(c, INIT, ls).pipe.processed, i, org, day)
  {
    TablesReplaySource(c, ls);
    MetricsRowHasTenant(Run(c, INIT, ls).source, Run(c, INIT, ls).pipe.processed, org, day);
  }

  // ---------------------------------------------------------------- notifications

  /** The user belongs to the ticket's organization, and created the ticket or was once
      assigned to it by `assign`. */
  ghost predicate Entitled(source: T.State, n: Notification) {
    n.ticketId < |source.tickets| &&
    T.MemberOf(source, n.userId, source.tickets[n.ticketId].organizationId) &&
    (n.userId == source.tickets[n.ticketId].createdById || T.EverAssigned(source.events, n.ticketId, n.userId))
  }

  ghost predicate AllEntitled(s: State) {
    forall k :: 0 <= k < |s.pipe.tables.notifications| ==> Entitled(s.source, s.pipe.tables.notifications[k])
  }

  lemma EntitledStays(a: T.State, b: T.State, n: Notification)
    requires T.Extends(a, b) && Entitled(a, n)
    ensures Entitled(b, n)
  {
    assert T.SameIdentity(a.tickets[n.ticketId], b.tickets[n.ticketId]);
    if T.EverAssigned(a.events, n.ticketId, n.userId) {
      T.AssignmentStays(a.events, b.events, n.ticketId, n.userId);
    }
  }

  lemma AssigneeIsMember(source: T.State, ticketId: Id, userId: Id)
    requires T.Inv(source) && ticketId < |source.tickets| && T.EverAssigned(source.events, ticketId, userId)
    ensures T.MemberOf(source, userId, source.tickets[ticketId].organizationId)
  {
    var i :| 0 <= i < |source.events| && T.Assigns(source.events[i], ticketId, userId);
    assert T.EventOk(source, source.events[i]);
  }

  lemma RecipientIsEntitled(source: T.State, p: Payload, i: nat, u: Id)
    requires T.Inv(source) && i < |source.events| && source.events[i] == p
    requires u in Recipients(p, View(source, p))
    ensures Entitled(source, Notification(u, KindOf(p), p.ticketId))
  {
    assert T.EventOk(source, p);
    assert T.TicketOk(source, p.ticketId);
    RecipientsAreEntitled(p, View(source, p));
    if u != source.tickets[p.ticketId].createdById {
      if p.TicketAssigned? { assert T.Assigns(source.events[i], p.ticketId, u); }
      assert T.EverAssigned(source.events, p.ticketId, u);
      AssigneeIsMember(source, p.ticketId, u);
    }
  }

  /** What a step of the pipeline may add to the notifications. */
  lemma NotificationsGrow(c: P.Config, s: P.State, l: P.Label)
    ensures var t := P.Step(c, s, l);
      t.tables.notifications == s.tables.notifications ||
      (l.RunOnce? && l.w in s.workers &&
       t.tables.notifications ==
         s.tables.notifications + Notify(s.workers[l.w].delivery.event.payload, l.context.ticket))
  {
    P.WorkerStepCommits(c, s, l);
  }

  lemma SourceKeepsEntitled(c: P.Config, s: State, l: Label)
    requires AllEntitled(s) && l.Source?
    ensures AllEntitled(Step(c, s, l))
  {
    T.StepExtends(s.source, l.t);
    NotificationsGrow(c, s.pipe, P.Append(Added(s.source, l.t)));
    forall k | 0 <= k < |s.pipe.tables.notifications|
      ensures Entitled(T.Step(s.source, l.t), s.pipe.tables.notifications[k])
    {
      EntitledStays(s.source, T.Step(s.source, l.t), s.pipe.tables.notifications[k]);
    }
  }

  lemma StepKeepsEntitled(c: P.Config, s: State, l: Label)
    requires T.Inv(s.source) && P.Safe(c, s.pipe) && P.Payloads(s.pipe.outbox) == s.source.events
    requires AllEntitled(s)
    ensures AllEntitled(Step(c, s, l))
  {
    if l.Source? {
      SourceKeepsEntitled(c, s, l);
    } else if !l.p.Append? {
      var p := Reading(s, l.p);
      NotificationsGrow(c, s.pipe, p);
      if p.RunOnce? && p.w in s.pipe.workers { CommitKeepsEntitled(c, s, p.w); }
    }
  }

  lemma CommitKeepsEntitled(c: P.Config, s: State, w: nat)
    requires T.Inv(s.source) && P.Safe(c, s.pipe) && P.Payloads(s.pipe.outbox) == s.source.events
    requires w in s.pipe.workers
    ensures var p := s.pipe.workers[w].delivery.event.payload; var rows := Notify(p, View(s.source, p));
      forall k :: 0 <= k < |rows| ==> Entitled(s.source, rows[k])
  {
    var d := s.pipe.workers[w].delivery;
    var e := d.event;
    assert P.Genuine(c, s.pipe.outbox, d);
    assert s.source.events[e.eventId] == e.payload;
    assert T.EventOk(s.source, e.payload);
    var rows := Notify(e.payload, View(s.source, e.payload));
    forall k | 0 <= k < |rows| ensures Entitled(s.source, rows[k]) {
      RecipientIsEntitled(s.source, e.payload, e.eventId, Recipients(e.payload, View(s.source, e.payload))[k]);
    }
  }

  /** Every notification ever written goes to a user of the ticket's organization who
      created the ticket or was assigned to it, whatever was updated, reassigned,
      redelivered or retried meanwhile. */
  lemma {:induction false} NotificationsReachOnlyTheEntitled(c: P.Config, ls: seq<Label>)
    ensures AllEntitled(Run(c, INIT, ls))
  {
    if ls == [] {
    } else {
      var front := ls[..|ls| - 1];
      NotificationsReachOnlyTheEntitled(c, front);
      RunProjects(c, front);
      T.RunKeepsInv(SourceLabels(front));
      P.RunKeepsSafe(c, PipeLabels(c, front));
      StepKeepsEntitled(c, Run(c, INIT, front), ls[|ls| - 1]);
    }
  }

  // ---------------------------------------------------------------- who is told, and when

  /** The row is one that the event may cause, the tickets being as given: it has the type of
      the event, it goes to the actor only for a creation, for an internal comment only to
      the assignee, for an assignment only to the user assigned, and otherwise to the creator
      or the assignee. */
  ghost predicate Rightful(source: T.State, p: Payload, row: Notification) {
    T.TicketOf(p) == Some(row.ticketId) && row.ticketId < |source.tickets| && TypeFits(row.kind, p) &&
    var t := source.tickets[row.ticketId];
    (T.ActorOf(p) == Some(row.userId) ==> p.TicketCreated?) &&
    (p.TicketAssigned? ==> row.userId == p.assigneeId) &&
    (p.CommentCreated? && p.isInternal ==> t.assignedToId == Some(row.userId)) &&
    (p.TicketAssigned? || row.userId == t.createdById || t.assignedToId == Some(row.userId))
  }

  lemma NotifyIsRightful(source: T.State, i: nat, k: nat)
    requires T.Inv(source) && i < |source.events|
    requires k < |Notify(source.events[i], View(source, source.events[i]))|
    ensures Rightful(source, source.events[i], Notify(source.events[i], View(source, source.events[i]))[k])
  {
    var p := source.events[i];
    assert T.EventOk(source, p);
    assert T.TicketOk(source, T.TicketOf(p).value);
    hide TypeFits, Notify;
    RecipientsAreEntitled(p, View(source, p));
    NotifyFits(p, View(source, p));
  }

  /** What is known of every reachable state. */
  ghost predicate Sound(c: P.Config, s: State) {
    T.Inv(s.source) && P.Safe(c, s.pipe) && P.Payloads(s.pipe.outbox) == s.source.events
  }

  /** For each notification, the event whose processing wrote it. */
  ghost function Writers(s: State): seq<Id> {
    if LogOk(s.source.events, s.pipe.processed) then NotifiedBy(s.source.events, s.pipe.processed) else []
  }

  lemma EachRowHasWriter(c: P.Config, s: State)
    requires Sound(c, s)
    ensures LogOk(s.source.events, s.pipe.processed) && |Writers(s)| == |s.pipe.tables.notifications|
  {
    RowsAreDue(s.source.events, s.pipe.processed);
  }

  /** The step makes the consumer apply event `id`, which is a committed one. */
  predicate Applies(s: State, l: Label, id: Id) {
    l.Pipe? && P.Commits(s.pipe, l.p) && s.pipe.workers[l.p.w].delivery.event.eventId == id &&
    id < |s.source.events|
  }

  /** Every row the step adds was written by the event that the step applies, and is right
      for that event and the tickets as they are before the step. */
  ghost predicate WritesRightfully(s: State, l: Label, t: State) {
    var before, after := s.pipe.tables.notifications, t.pipe.tables.notifications;
    before <= after && Writers(s) <= Writers(t) && |Writers(t)| == |after| &&
    forall k :: |before| <= k < |after| ==>
      Applies(s, l, Writers(t)[k]) && Rightful(s.source, s.source.events[Writers(t)[k]], after[k])
  }

  lemma SourceWritesNothing(c: P.Config, s: State, l: Label)
    requires Sound(c, s) && Sound(c, Step(c, s, l)) && l.Source?
    ensures WritesRightfully(s, l, Step(c, s, l))
  {
    var t := Step(c, s, l);
    T.StepExtends(s.source, l.t);
    P.WorkerStepCommits(c, s.pipe, P.Append(Added(s.source, l.t)));
    EachRowHasWriter(c, s);
    EachRowHasWriter(c, t);
    WritersIgnoreLaterPayloads(s.source.events, t.source.events, s.pipe.processed);
  }

  lemma PipeWritesRightfully(c: P.Config, s: State, l: Label)
    requires Sound(c, s) && Sound(c, Step(c, s, l)) && l.Pipe? && !l.p.Append?
    ensures WritesRightfully(s, l, Step(c, s, l))
  {
    var t := Step(c, s, l);
    var p := Reading(s, l.p);
    assert P.Commits(s.pipe, p) <==> P.Commits(s.pipe, l.p);
    P.WorkerStepCommits(c, s.pipe, p);
    EachRowHasWriter(c, s);
    EachRowHasWriter(c, t);
    if P.Commits(s.pipe, p) { CommitWritesRightfully(c, s, l, t); }
  }

  lemma CommitWritesRightfully(c: P.Config, s: State, l: Label, t: State)
    requires Sound(c, s) && Sound(c, t) && l.Pipe? && P.Commits(s.pipe, l.p) && t.source == s.source
    requires var d := s.pipe.workers[l.p.w].delivery; var context := Reading(s, l.p).context;
      t.pipe.processed == s.pipe.processed + [Processed(d.event.eventId, d.queue, context)] &&
      t.pipe.tables == Project(d.queue, d.event, context, s.pipe.tables)
    ensures WritesRightfully(s, l, t)
  {
    hide T.Inv, P.Safe, Rightful;
    var d := s.pipe.workers[l.p.w].delivery;
    EachRowHasWriter(c, s);
    EachRowHasWriter(c, t);
    DeliveryIsCommitted(c, s, l.p.w);
    var x := Processed(d.event.eventId, d.queue, Reading(s, l.p).context);
    NewRowsAreRightful(s.source, s.pipe.processed, x);
    assert d.event == Event(d.event.eventId, s.source.events[d.event.eventId]);
  }

  lemma DeliveryIsCommitted(c: P.Config, s: State, w: nat)
    requires Sound(c, s) && w in s.pipe.workers
    ensures var e := s.pipe.workers[w].delivery.event;
      e.eventId < |s.source.events| && s.source.events[e.eventId] == e.payload
  {
    assert P.Genuine(c, s.pipe.outbox, s.pipe.workers[w].delivery);
  }

  /** The rows that one processed event adds when it reads the ticket as it is now. */
  lemma NewRowsAreRightful(source: T.State, log: seq<Processed>, x: Processed)
    requires T.Inv(source) && LogOk(source.events, log) && x.eventId < |source.events|
    requires x.context.ticket == View(source, source.events[x.eventId])
    ensures LogOk(source.events, log + [x])
    ensures var was, ids := NotifiedBy(source.events, log), NotifiedBy(source.events, log + [x]);
      var before, after := Replay(source.events, log).notifications, Replay(source.events, log + [x]).notifications;
      before <= after && was <= ids && |before| == |was| && |after| == |ids| &&
      forall k :: |was| <= k < |ids| ==> ids[k] == x.eventId && Rightful(source, source.events[x.eventId], after[k])
  {
    assert (log + [x])[..|log|] == log;
    RowsAreDue(source.events, log);
    RowsAreDue(source.events, log + [x]);
    LastNotifies(source.events, log + [x]);
    var n := |NotifiedBy(source.events, log)|;
    forall k | n <= k < |NotifiedBy(source.events, log + [x])|
      ensures Rightful(source, source.events[x.eventId], Replay(source.events, log + [x]).notifications[k])
    {
      NotifyIsRightful(source, x.eventId, k - n);
    }
  }

  function Rows(c: P.Config, ls: seq<Label>): seq<Notification> {
    Run(c, INIT, ls).pipe.tables.notifications
  }

  /** The `n`-th step of the run wrote the `k`-th notification by applying the event that is
      the row's writer, and the row is right for that event and the tickets at that moment. */
  ghost predicate WrittenBy(c: P.Config, ls: seq<Label>, n: nat, k: nat)
    requires n < |ls| && k < |Rows(c, ls)| && k < |Writers(Run(c, INIT, ls))|
  {
    var s, id := Run(c, INIT, ls[..n]), Writers(Run(c, INIT, ls))[k];
    |Rows(c, ls[..n])| <= k < |Rows(c, ls[..n + 1])| && Rows(c, ls[..n + 1])[k] == Rows(c, ls)[k] &&
    Applies(s, ls[n], id) && Rightful(s.source, s.source.events[id], Rows(c, ls)[k])
  }

  lemma LastStepWrites(c: P.Config, ls: seq<Label>)
    requires ls != []
    ensures WritesRightfully(Run(c, INIT, ls[..|ls| - 1]), ls[|ls| - 1], Run(c, INIT, ls))
  {
    hide Run;
    var front, l := ls[..|ls| - 1], ls[|ls| - 1];
    var s := Run(c, INIT, front);
    ReachableIsSound(c, front);
    ReachableIsSound(c, ls);
    RunIsStep(c, ls);
    StepWritesRightfully(c, s, l);
  }

  lemma StepWritesRightfully(c: P.Config, s: State, l: Label)
    requires Sound(c, s) && Sound(c, Step(c, s, l))
    ensures WritesRightfully(s, l, Step(c, s, l))
  {
    if l.Source? {
      SourceWritesNothing(c, s, l);
    } else if !l.p.Append? {
      PipeWritesRightfully(c, s, l);
    } else {
      EachRowHasWriter(c, s);
    }
  }

  lemma WrittenEarlier(c: P.Config, ls: seq<Label>, n: nat, k: nat)
    requires n + 1 < |ls| && Rows(c, ls[..|ls| - 1]) <= Rows(c, ls)
    requires Writers(Run(c, INIT, ls[..|ls| - 1])) <= Writers(Run(c, INIT, ls))
    requires k < |Rows(c, ls[..|ls| - 1])| && k < |Writers(Run(c, INIT, ls[..|ls| - 1]))|
    requires WrittenBy(c, ls[..|ls| - 1], n, k)
    ensures WrittenBy(c, ls, n, k)
  {
    hide Step, Run, Writers;
    var front := ls[..|ls| - 1];
    assert front[..n] == ls[..n] && front[..n + 1] == ls[..n + 1];
  }

  lemma WrittenLast(c: P.Config, ls: seq<Label>, k: nat)
    requires ls != [] && |Rows(c, ls[..|ls| - 1])| <= k < |Rows(c, ls)|
    ensures k < |Writers(Run(c, INIT, ls))| && WrittenBy(c, ls, |ls| - 1, k)
  {
    hide Step, Run, Writers;
    LastStepWrites(c, ls);
    assert ls[..|ls| - 1 + 1] == ls;
  }

  /** In every run each notification was written by one step, which applied the row's own
      event, and is right for that event and the ticket as it was then: nobody is told of an
      own update, assignment, closing or comment, and of an internal comment nobody but the
      assignee at that moment. */
  lemma {:induction false} NotificationsFollowTheRules(c: P.Config, ls: seq<Label>, k: nat)
    requires k < |Rows(c, ls)|
    ensures k < |Writers(Run(c, INIT, ls))|
    ensures exists n :: 0 <= n < |ls| && WrittenBy(c, ls, n, k)
  {
    hide Step, Writers;
    if ls == [] {
    } else {
      var front := ls[..|ls| - 1];
      LastStepWrites(c, ls);
      if k < |Rows(c, front)| {
        NotificationsFollowTheRules(c, front, k);
        var n :| 0 <= n < |front| && WrittenBy(c, front, n, k);
        WrittenEarlier(c, ls, n, k);
      } else {
        WrittenLast(c, ls, k);
      }
    }
  }

  lemma RunIsStep(c: P.Config, ls: seq<Label>)
    requires ls != []
    ensures Run(c, INIT, ls) == Step(c, Run(c, INIT, ls[..|ls| - 1]), ls[|ls| - 1])
  {
    hide Step;
  }

  lemma ReachableIsSound(c: P.Config, ls: seq<Label>)
    ensures Sound(c, Run(c, INIT, ls))
  {
    RunProjects(c, ls);
    T.RunKeepsInv(SourceLabels(ls));
    P.RunKeepsSafe(c, PipeLabels(c, ls));
  }

  // ---------------------------------------------------------------- everybody who should be told

  /** The user created the ticket or is its assignee. */
  ghost predicate Concerned(source: T.State, id: Id, u: Id) {
    id < |source.tickets| && (source.tickets[id].createdById == u || source.tickets[id].assignedToId == Some(u))
  }

  /** The user is owed a notification of the event, the tickets being as given. */
  ghost predicate Owed(source: T.State, p: Payload, u: Id) {
    match p
    case TicketCreated(_, _, creator, assignee) => u == creator || Some(u) == assignee
    case TicketAssigned(_, _, assignee, actor) => u == assignee && u != actor
    case TicketUpdated(id, _, actor) => Concerned(source, id, u) && u != actor
    case TicketClosed(id, _, actor) => Concerned(source, id, u) && u != actor
    case CommentCreated(_, id, _, author, isInternal) =>
      Concerned(source, id, u) && u != author && (isInternal ==> source.tickets[id].assignedToId == Some(u))
    case NotificationCreated => false
  }

  lemma RecipientsAreTheOwed(source: T.State, p: Payload)
    ensures forall u: Id :: u in Recipients(p, View(source, p)) <==> Owed(source, p, u)
  {
    RecipientsAreEntitled(p, View(source, p));
  }

  ghost predicate Tells(rows: seq<Notification>, from: nat, u: Id) {
    exists k :: from <= k < |rows| && rows[k].userId == u
  }

  lemma NewRowsTell(rows: seq<Notification>, p: Payload, ticket: Option<TicketView>)
    ensures forall u: Id :: Tells(rows + Notify(p, ticket), |rows|, u) <==> u in Recipients(p, ticket)
  {
    var added, users := Notify(p, ticket), Recipients(p, ticket);
    NotifyFits(p, ticket);
    forall u: Id | u in users ensures Tells(rows + added, |rows|, u) {
      var k :| 0 <= k < |users| && users[k] == u;
      assert (rows + added)[|rows| + k].userId == u;
    }
    forall u: Id | Tells(rows + added, |rows|, u) ensures u in users {
      var k :| |rows| <= k < |rows + added| && (rows + added)[k].userId == u;
      assert added[k - |rows|].userId in users;
    }
  }

  /** In every run, when the notification consumer applies an event, exactly the users who are
      owed a notification of it, by the tickets at that moment, get one. */
  lemma ExactlyTheOwedAreTold(c: P.Config, ls: seq<Label>, l: Label)
    requires var s := Run(c, INIT, ls);
      l.Pipe? && P.Commits(s.pipe, l.p) && s.pipe.workers[l.p.w].delivery.queue == NotificationQueue
    ensures var s := Run(c, INIT, ls); var e := s.pipe.workers[l.p.w].delivery.event;
      var before, after := s.pipe.tables.notifications, Step(c, s, l).pipe.tables.notifications;
      e.eventId < |s.source.events| && s.source.events[e.eventId] == e.payload && before <= after &&
      forall u: Id :: Tells(after, |before|, u) <==> Owed(s.source, e.payload, u)
  {
    hide Run, Owed, Tells, P.Safe, T.Inv;
    var s := Run(c, INIT, ls);
    var e := s.pipe.workers[l.p.w].delivery.event;
    ReachableIsSound(c, ls);
    DeliveryIsCommitted(c, s, l.p.w);
    P.WorkerStepCommits(c, s.pipe, Reading(s, l.p));
    NewRowsTell(s.pipe.tables.notifications, e.payload, View(s.source, e.payload));
    RecipientsAreTheOwed(s.source, e.payload);
  }
}
