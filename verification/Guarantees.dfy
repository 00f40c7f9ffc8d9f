/** What every run of the pipeline guarantees: nothing lost, nothing invented, each effect
    once, and read models that agree with the outbox once the pipeline is quiet. */
module Guarantees {
  import opened Domain
  import opened Projections
  import opened Pipeline

  /** No projector raises a unique violation of its own. */
  ghost predicate NoUniqueViolation(ls: seq<Label>) {
    forall i :: 0 <= i < |ls| && ls[i].RunOnce? ==> !ls[i].work.UniqueViolation?
  }

  lemma {:induction false} NothingSwallowed(c: Config, ls: seq<Label>)
    requires NoUniqueViolation(ls)
    ensures Run(c, INIT, ls).swallowed == {}
  {
    if ls == [] {
    } else {
      var front, l := ls[..|ls| - 1], ls[|ls| - 1];
      NothingSwallowed(c, front);
      SwallowedStays(c, Run(c, INIT, front), l);
    }
  }

  lemma SwallowedStays(c: Config, s: State, l: Label)
    requires !(l.RunOnce? && l.work.UniqueViolation?)
    ensures Step(c, s, l).swallowed == s.swallowed
  {}

  /** The event is at the queue, in a worker's hands, applied, or dead-lettered. */
  ghost predicate Accounted(s: State, id: Id, q: Queue) {
    Queued(s, id, q) || Held(s, id, q) || IsMarked(s.processed, id, q) || Buried(s, id, q)
  }

  /** Whatever fails, crashes, repeats or interleaves: every committed outbox row is still
      to be published, has been given up as FAILED, or is accounted for at every queue bound to its key. */
  lemma NothingIsLost(c: Config, ls: seq<Label>, id: Id, q: Queue)
    requires NoUniqueViolation(ls)
    ensures var s := Run(c, INIT, ls);
      id < |s.outbox| && Bound(q, RoutingKey(s.outbox[id].payload)) ==>
        s.outbox[id].status.Pending? || s.outbox[id].status.Failed? || Accounted(s, id, q)
  {
    RunKeepsNothingLost(c, ls);
    NothingSwallowed(c, ls);
    var s := Run(c, INIT, ls);
    if id < |s.outbox| && s.outbox[id].status.Dispatched? && Bound(q, RoutingKey(s.outbox[id].payload)) {
      assert Covered(s, id) && Traced(s, id, q);
    }
  }

  // ---------------------------------------------------------------- what reached the queues

  /** Some publish of the row reached the queues. */
  predicate Landed(outbox: seq<OutboxRow>, id: Id) {
    id < |outbox| && outbox[id].landed >= 1
  }

  /** Only landed rows leave traces, and landed rows leave one at every bound queue. */
  ghost predicate TracesMatch(s: State) {
    (forall d :: d in s.ready ==> Landed(s.outbox, d.event.eventId)) &&
    (forall w :: w in s.workers ==> Landed(s.outbox, s.workers[w].delivery.event.eventId)) &&
    (forall d :: d in s.dead ==> Landed(s.outbox, d.event.eventId)) &&
    (forall i :: 0 <= i < |s.processed| ==> Landed(s.outbox, s.processed[i].eventId)) &&
    (forall id :: Landed(s.outbox, id) ==> Covered(s, id))
  }

  lemma StepKeepsLanded(c: Config, s: State, l: Label, id: Id)
    requires IsRelayLabel(l)
    ensures Landed(s.outbox, id) ==> Landed(RelayStep(c, s, l).outbox, id)
    ensures Landed(RelayStep(c, s, l).outbox, id) ==>
      Landed(s.outbox, id) ||
      (l.Publish? && At(s, l.r, Ready) && !l.io.Refused? && id == RelayAt(s, l.r).batch[0].id)
  {}

  lemma PublishLands(s: State, r: nat, io: Io)
    requires At(s, r, Ready)
    ensures var t := TryPublish(s, r, io);
      if io.Refused? then t.ready == s.ready else Landed(t.outbox, RelayAt(s, r).batch[0].id)
  {}

  lemma RelayStepKeepsTraces(c: Config, s: State, l: Label)
    requires TracesMatch(s) && IsRelayLabel(l)
    ensures TracesMatch(RelayStep(c, s, l))
  {
    hide RelayStep, Landed, Covered, Copies;
    var t := RelayStep(c, s, l);
    RelayStepHasEffect(c, s, l);
    forall id: Id ensures Landed(s.outbox, id) ==> Landed(t.outbox, id) { StepKeepsLanded(c, s, l, id); }
    forall d | d in t.ready ensures d in s.ready || Landed(t.outbox, d.event.eventId) { NewCopyLanded(c, s, l, d); }
    forall id: Id | Landed(t.outbox, id) ensures Covered(t, id) { LandedIsCovered(c, s, l, id); }
  }

  lemma NewCopyLanded(c: Config, s: State, l: Label, d: Delivery)
    requires IsRelayLabel(l) && d in RelayStep(c, s, l).ready
    ensures d in s.ready || Landed(RelayStep(c, s, l).outbox, d.event.eventId)
  {
    if d !in s.ready { PublishLands(s, l.r, l.io); }
  }

  lemma LandedIsCovered(c: Config, s: State, l: Label, id: Id)
    requires TracesMatch(s) && IsRelayLabel(l) && Landed(RelayStep(c, s, l).outbox, id)
    ensures Covered(RelayStep(c, s, l), id)
  {
    StepKeepsLanded(c, s, l, id);
    if Landed(s.outbox, id) { StepKeepsCovered(c, s, l, id); } else { PublishCovers(s, l.r, l.io); }
  }

  lemma WorkerStepKeepsTraces(c: Config, s: State, l: Label)
    requires TracesMatch(s) && !IsRelayLabel(l)
    ensures TracesMatch(WorkerStep(c, s, l))
  {
    var t := WorkerStep(c, s, l);
    WorkerStepHasEffect(c, s, l);
    WorkerStepCommits(c, s, l);
    forall id: Id | Landed(t.outbox, id) ensures Covered(t, id) { StepKeepsCovered(c, s, l, id); }
    WorkerEffectKeepsLanded(c, s, t, l);
  }

  lemma WorkerEffectKeepsLanded(c: Config, s: State, t: State, l: Label)
    requires TracesMatch(s) && !IsRelayLabel(l) && WorkerEffect(c, s, t, l)
    requires t.processed == s.processed || (l.w in s.workers && |t.processed| == |s.processed| + 1 &&
      t.processed[|s.processed|].eventId == s.workers[l.w].delivery.event.eventId)
    ensures forall d :: d in t.ready ==> Landed(t.outbox, d.event.eventId)
    ensures forall w :: w in t.workers ==> Landed(t.outbox, t.workers[w].delivery.event.eventId)
    ensures forall d :: d in t.dead ==> Landed(t.outbox, d.event.eventId)
    ensures forall i :: 0 <= i < |t.processed| ==> Landed(t.outbox, t.processed[i].eventId)
  {
    forall w | w in t.workers ensures Landed(t.outbox, t.workers[w].delivery.event.eventId) {
      if w != l.w { assert w in s.workers; }
    }
    forall i | 0 <= i < |s.processed| ensures t.processed[i] == s.processed[i] {}
  }

  lemma {:induction false} RunKeepsTraces(c: Config, ls: seq<Label>)
    ensures TracesMatch(Run(c, INIT, ls))
  {
    hide Step;
    if ls == [] {
    } else {
      var s, l := Run(c, INIT, ls[..|ls| - 1]), ls[|ls| - 1];
      RunKeepsTraces(c, ls[..|ls| - 1]);
      StepIs(c, s, l);
      if IsRelayLabel(l) { RelayStepKeepsTraces(c, s, l); } else { WorkerStepKeepsTraces(c, s, l); }
    }
  }

  lemma StepIs(c: Config, s: State, l: Label)
    ensures Step(c, s, l) == if IsRelayLabel(l) then RelayStep(c, s, l) else WorkerStep(c, s, l)
  {}

  /** The exact law: in every run an event is accounted for at a bound queue if and only if
      some publish of its row reached the queues, whatever the status of the row. A FAILED
      row is lost exactly when none did. */
  lemma AccountedIffLanded(c: Config, ls: seq<Label>, id: Id, q: Queue)
    requires NoUniqueViolation(ls)
    ensures var s := Run(c, INIT, ls);
      id < |s.outbox| && Bound(q, RoutingKey(s.outbox[id].payload)) ==>
        (Accounted(s, id, q) <==> s.outbox[id].landed >= 1)
  {
    hide Step, Run;
    RunKeepsTraces(c, ls);
    NothingSwallowed(c, ls);
    TracesAccount(Run(c, INIT, ls), id, q);
  }

  lemma TracesAccount(s: State, id: Id, q: Queue)
    requires TracesMatch(s) && s.swallowed == {}
    ensures id < |s.outbox| && Bound(q, RoutingKey(s.outbox[id].payload)) ==>
      (Accounted(s, id, q) <==> s.outbox[id].landed >= 1)
  {
    if Landed(s.outbox, id) && Bound(q, RoutingKey(s.outbox[id].payload)) { assert Covered(s, id) && Traced(s, id, q); }
  }

  /** Every copy in a queue, in a worker or among the dead letters carries the payload of a
      committed outbox row, sits at a queue bound to its key, and has been retried at most
      `maxRetries` times; a dead letter has been retried exactly that often. */
  lemma NothingIsInvented(c: Config, ls: seq<Label>)
    ensures var s := Run(c, INIT, ls);
      && (forall d :: d in s.ready ==> Genuine(c, s.outbox, d))
      && (forall w :: w in s.workers ==> Genuine(c, s.outbox, s.workers[w].delivery))
      && (forall d :: d in s.dead ==> Genuine(c, s.outbox, d) && d.retry == c.maxRetries)
  {
    RunKeepsSafe(c, ls);
  }

  /** Why the hypothesis is needed, exactly: when a worker's copy is the last trace of an
      unapplied event, running it keeps the event accounted for if and only if the
      projector does not raise a unique violation. */
  lemma LastCopySurvivesIff(c: Config, s: State, w: nat, work: Work, context: Context)
    requires Doing(s, w, Started) && s.workers[w].live
    requires var e := s.workers[w].delivery.event.eventId; var q := s.workers[w].delivery.queue;
      !Queued(s, e, q) && !Buried(s, e, q) && !IsMarked(s.processed, e, q) &&
      forall v :: v in s.workers && v != w ==> !IsCopy(s.workers[v].delivery, e, q)
    ensures var d := s.workers[w].delivery;
      Accounted(Step(c, s, RunOnce(w, work, context)), d.event.eventId, d.queue) <==> !work.UniqueViolation?
  {
    var t := Step(c, s, RunOnce(w, work, context));
    var d := s.workers[w].delivery;
    if work.UniqueViolation? {
      assert t.ready == s.ready && t.dead == s.dead && t.processed == s.processed;
      assert forall v :: v in t.workers ==> v == w || t.workers[v] == s.workers[v];
    } else {
      RunOnceTraces(s, w, work, context);
      assert t.swallowed == s.swallowed;
      if work.Unavailable? || work.Throws? {
        assert IsCopy(t.workers[w].delivery, d.event.eventId, d.queue);
      } else {
        assert t.processed[|s.processed|] == Processed(d.event.eventId, d.queue, context);
      }
    }
  }

  /** Under any interleaving of relays and workers a consumer's marker for an event exists
      at most once, and the tables are what the projections of the marked events make of
      empty tables, each applied once, in commit order. */
  lemma EffectsHappenOnce(c: Config, ls: seq<Label>)
    ensures var s := Run(c, INIT, ls);
      UniqueMarkers(s.processed) && LogOk(Payloads(s.outbox), s.processed) &&
      s.tables == Replay(Payloads(s.outbox), s.processed)
  {
    RunKeepsSafe(c, ls);
  }

  /** In every run each metrics cell is the number of distinct events of its kind that
      analytics has applied on its day, column by column. */
  lemma MetricsAreCounts(c: Config, ls: seq<Label>, org: Id, day: int, f: Field)
    ensures var s := Run(c, INIT, ls); var payloads := Payloads(s.outbox);
      Cell(s.tables.metrics, org, day, f) == |AppliedOn(payloads, s.processed, org, day, f)| &&
      ((org, day) in s.tables.metrics ==>
        s.tables.metrics[(org, day)] ==
          Metrics(|CreatedOn(payloads, s.processed, org, day)|, |AssignedOn(payloads, s.processed, org, day)|,
                  |ClosedOn(payloads, s.processed, org, day)|))
  {
    EffectsHappenOnce(c, ls);
    if (org, day) in Run(c, INIT, ls).tables.metrics {
      RowsCountAppliedEvents(Payloads(Run(c, INIT, ls).outbox), Run(c, INIT, ls).processed, org, day);
    }
    CellsCountAppliedEvents(Payloads(Run(c, INIT, ls).outbox), Run(c, INIT, ls).processed, org, day, f);
  }

  /** Two runs over the same events in which analytics applied the same events on the same
      days end with the same metrics table, however they interleaved, failed or repeated. */
  lemma MetricsAreOrderIndependent(c: Config, ls: seq<Label>, other: seq<Label>)
    requires Payloads(Run(c, INIT, ls).outbox) == Payloads(Run(c, INIT, other).outbox)
    requires SameApplied(Payloads(Run(c, INIT, ls).outbox), Run(c, INIT, ls).processed, Run(c, INIT, other).processed)
    ensures Run(c, INIT, ls).tables.metrics == Run(c, INIT, other).tables.metrics
  {
    EffectsHappenOnce(c, ls);
    EffectsHappenOnce(c, other);
    MetricsIgnoreOrder(Payloads(Run(c, INIT, ls).outbox), Run(c, INIT, ls).processed, Run(c, INIT, other).processed);
  }

  /** In every run each row of the notification table is due to an event that the
      notification consumer has applied, and no event has notified a user twice, however
      often it was published, delivered or retried. */
  lemma EachEventNotifiesOnce(c: Config, ls: seq<Label>)
    ensures var s := Run(c, INIT, ls); var payloads := Payloads(s.outbox); var rows := s.tables.notifications;
      LogOk(payloads, s.processed) &&
      var ids := NotifiedBy(payloads, s.processed);
      |ids| == |rows| &&
      (forall i :: 0 <= i < |ids| ==> DueTo(payloads, s.processed, ids[i], rows[i])) &&
      (forall i, j :: 0 <= i < j < |ids| && ids[i] == ids[j] ==> rows[i].userId != rows[j].userId)
  {
    EffectsHappenOnce(c, ls);
    var s := Run(c, INIT, ls);
    RowsAreDue(Payloads(s.outbox), s.processed);
    NobodyIsToldTwice(Payloads(s.outbox), s.processed);
  }

  // ---------------------------------------------------------------- at quiescence

  /** Everything has been dispatched, no queue holds a copy that is not yet settled, and
      nothing was dead-lettered. */
  ghost predicate Quiet(s: State) {
    (forall id :: 0 <= id < |s.outbox| ==> s.outbox[id].status.Dispatched?) &&
    s.ready == multiset{} && s.dead == multiset{} &&
    (forall w :: w in s.workers && s.workers[w].live ==> s.workers[w].progress.Settled?)
  }

  lemma QuietMeansApplied(c: Config, ls: seq<Label>, id: Id, q: Queue)
    requires NoUniqueViolation(ls) && Quiet(Run(c, INIT, ls))
    requires id < |Run(c, INIT, ls).outbox|
    ensures Bound(q, RoutingKey(Run(c, INIT, ls).outbox[id].payload)) <==> IsMarked(Run(c, INIT, ls).processed, id, q)
  {
    var s := Run(c, INIT, ls);
    if Bound(q, RoutingKey(s.outbox[id].payload)) {
      NothingIsLost(c, ls, id, q);
    }
    RunKeepsSafe(c, ls);
  }

  /** The committed outbox rows of one kind and organization. */
  function Emitted(payloads: seq<Payload>, org: Id, f: Field): set<Id> {
    set id | 0 <= id < |payloads| && Moves(payloads[id], org, f)
  }

  /** The bindings agree with the projectors: analytics receives exactly the events that
      move a counter, notifications exactly those that may have recipients, audit all. */
  lemma BindingsMatchProjectors(p: Payload)
    ensures Bound(AnalyticsQueue, RoutingKey(p)) <==> MetricOf(p).Some?
    ensures Bound(NotificationQueue, RoutingKey(p)) <==> !p.NotificationCreated?
    ensures Bound(AuditQueue, RoutingKey(p))
  {
    var a, n := Bindings(AnalyticsQueue), Bindings(NotificationQueue);
    assert Matches(a[0], "ticket.created") && Matches(a[1], "ticket.assigned") && Matches(a[2], "ticket.closed");
    assert Matches(n[0], "ticket.created") && Matches(n[1], "ticket.updated") && Matches(n[2], "ticket.assigned");
    assert Matches(n[3], "ticket.closed") && Matches(n[4], "comment.created");
    assert Matches(Bindings(AuditQueue)[0], RoutingKey(p));
    DistinctKeys();
  }

  lemma DistinctKeys()
    ensures forall i, j :: 0 <= i < j < |Keys()| ==> Keys()[i] != Keys()[j]
    ensures forall i :: 0 <= i < |Keys()| ==> Keys()[i] != "#"
  {
    var k := Keys();
    assert k[0][7] == 'c' && k[0][8] == 'r' && k[1][7] == 'u' && k[2][7] == 'a' && k[3][8] == 'l';
    assert k[4][0] == 'c' && k[5][0] == 'n' && k[0][0] == 't';
  }

  function Keys(): seq<string> {
    ["ticket.created", "ticket.updated", "ticket.assigned", "ticket.closed", "comment.created", "notification.created"]
  }

  /** At quiescence each organization's counters, summed over days, are the numbers of its
      committed ticket.created, ticket.assigned and ticket.closed events. */
  lemma QuietMetricsAgree(c: Config, ls: seq<Label>, org: Id, f: Field, days: seq<int>)
    requires NoUniqueViolation(ls) && Quiet(Run(c, INIT, ls))
    requires NoRepeats(days) && Covers(days, Run(c, INIT, ls).processed)
    ensures var s := Run(c, INIT, ls);
      Total(s.tables.metrics, org, f, days) == |Emitted(Payloads(s.outbox), org, f)|
  {
    var s := Run(c, INIT, ls);
    var payloads := Payloads(s.outbox);
    EffectsHappenOnce(c, ls);
    TotalsCountAppliedEvents(payloads, s.processed, org, f, days);
    forall id | id in Emitted(payloads, org, f) ensures id in Applied(payloads, s.processed, org, f) {
      BindingsMatchProjectors(payloads[id]);
      QuietMeansApplied(c, ls, id, AnalyticsQueue);
      var i :| 0 <= i < |s.processed| && s.processed[i].eventId == id && s.processed[i].queue == AnalyticsQueue;
      assert Counts(payloads, s.processed[i], org, f);
    }
    assert Applied(payloads, s.processed, org, f) == Emitted(payloads, org, f);
  }

  /** At quiescence the audit log has exactly one row for each committed outbox row, the
      row that describes it, and no other row. */
  lemma QuietAuditAgrees(c: Config, ls: seq<Label>)
    requires NoUniqueViolation(ls) && Quiet(Run(c, INIT, ls))
    ensures var s := Run(c, INIT, ls); var payloads := Payloads(s.outbox);
      multiset(s.tables.audit) == multiset(AuditRows(payloads, Upto(|s.outbox|)))
  {
    var s := Run(c, INIT, ls);
    var payloads := Payloads(s.outbox);
    EffectsHappenOnce(c, ls);
    AuditDescribesProcessedEvents(payloads, s.processed);
    var ids := IdsOf(s.processed, AuditQueue);
    IdsOfAreMarked(s.processed, AuditQueue);
    forall id: Id ensures id in ids <==> id < |s.outbox| {
      if id < |s.outbox| {
        BindingsMatchProjectors(payloads[id]);
        QuietMeansApplied(c, ls, id, AuditQueue);
      } else {
        assert !IsMarked(s.processed, id, AuditQueue);
      }
    }
    PermutationOfUpto(ids, |s.outbox|);
    SameIdsSameRows(payloads, ids, Upto(|s.outbox|));
  }

  /** Taking one id out takes its row out. */
  lemma RemoveRow(payloads: seq<Payload>, ids: seq<Id>, k: nat) returns (rest: seq<Id>)
    requires forall i :: 0 <= i < |ids| ==> ids[i] < |payloads|
    requires k < |ids|
    ensures |rest| == |ids| - 1 && forall i :: 0 <= i < |rest| ==> rest[i] < |payloads|
    ensures multiset(ids) == multiset(rest) + multiset{ids[k]}
    ensures multiset(AuditRows(payloads, ids)) ==
      multiset(AuditRows(payloads, rest)) + multiset{Describe(Event(ids[k], payloads[ids[k]]))}
  {
    var rows := AuditRows(payloads, ids);
    rest := ids[..k] + ids[k + 1..];
    assert ids == ids[..k] + [ids[k]] + ids[k + 1..];
    assert rows == rows[..k] + [rows[k]] + rows[k + 1..];
    assert AuditRows(payloads, rest) == rows[..k] + rows[k + 1..];
  }

  lemma SamePlace(a: seq<Id>, b: seq<Id>) returns (k: nat)
    requires a != [] && multiset(a) == multiset(b)
    ensures k < |b| && b[k] == a[0]
  {
    assert a[0] in multiset(b);
    k :| k < |b| && b[k] == a[0];
  }

  /** The rows of the same ids, in any order, are the same rows. */
  lemma {:induction false} SameIdsSameRows(payloads: seq<Payload>, a: seq<Id>, b: seq<Id>)
    requires forall i :: 0 <= i < |a| ==> a[i] < |payloads|
    requires forall i :: 0 <= i < |b| ==> b[i] < |payloads|
    requires multiset(a) == multiset(b)
    ensures multiset(AuditRows(payloads, a)) == multiset(AuditRows(payloads, b))
    decreases |a|
  {
    if a == [] {
      assert |multiset(b)| == 0;
    } else {
      var k := SamePlace(a, b);
      var x := a[0];
      var ra := RemoveRow(payloads, a, 0);
      var rb := RemoveRow(payloads, b, k);
      assert multiset(ra) == multiset(a) - multiset{x};
      assert multiset(rb) == multiset(b) - multiset{x};
      SameIdsSameRows(payloads, ra, rb);
    }
  }
}
