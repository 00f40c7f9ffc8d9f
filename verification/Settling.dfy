/** Left undisturbed, the pipeline settles: enough relay ticks and enough handles leave no
    event in between, whatever the publishes and the projections do. */
module Settling {
  import opened Domain
  import opened Projections
  import opened Pipeline
  import opened OutboxRelay
  import opened OutboxRelayService
  import opened Consumers
  import G = Guarantees

  // ---------------------------------------------------------------- the relay's part

  /** The steps of whole ticks with working updates, each with its own publish outcomes. */
  function TickLabels(c: Config, s: State, ticks: seq<Id -> Io>): seq<Label> {
    if ticks == [] then []
    else
      var front := ticks[..|ticks| - 1];
      TickLabels(c, s, front) +
      TickScript(c, TickByTick(c, s, front).outbox, false, UpdatesWork(ticks[|ticks| - 1]))
  }

  lemma {:induction false} TickLabelsRun(c: Config, s: State, ticks: seq<Id -> Io>)
    ensures Run(c, s, TickLabels(c, s, ticks)) == TickByTick(c, s, ticks)
  {
    if ticks == [] {
    } else {
      var front := ticks[..|ticks| - 1];
      TickLabelsRun(c, s, front);
      RunConcat(c, s, TickLabels(c, s, front),
                TickScript(c, TickByTick(c, s, front).outbox, false, UpdatesWork(ticks[|ticks| - 1])));
    }
  }

  ghost predicate ByRelays(ls: seq<Label>) {
    forall i :: 0 <= i < |ls| ==> IsRelayLabel(ls[i])
  }

  lemma {:induction false} BatchIsByRelays(ids: seq<Id>, faults: Id -> RowFaults)
    ensures ByRelays(BatchScript(ids, faults))
  {
    if ids == [] {
    } else {
      BatchIsByRelays(ids[1..], faults);
    }
  }

  lemma {:induction false} TicksAreByRelays(c: Config, s: State, ticks: seq<Id -> Io>)
    ensures ByRelays(TickLabels(c, s, ticks))
  {
    if ticks == [] {
    } else {
      var front := ticks[..|ticks| - 1];
      TicksAreByRelays(c, s, front);
      var outbox := TickByTick(c, s, front).outbox;
      BatchIsByRelays(Oldest(c, outbox, |outbox|), UpdatesWork(ticks[|ticks| - 1]));
    }
  }

  lemma {:induction false} RelaysSpareWorkers(c: Config, s: State, ls: seq<Label>)
    requires ByRelays(ls)
    ensures Run(c, s, ls).workers == s.workers
  {
    if ls == [] {
    } else {
      var front, l := ls[..|ls| - 1], ls[|ls| - 1];
      RelaysSpareWorkers(c, s, front);
      RelayStepHasEffect(c, Run(c, s, front), l);
    }
  }

  // ---------------------------------------------------------------- the consumers' part

  ghost predicate NoViolations(attempts: seq<Attempt>) {
    forall i :: 0 <= i < |attempts| ==> !attempts[i].work.UniqueViolation?
  }

  lemma {:induction false} WorkOffRaisesNothing(
      c: Config, s: State, w: nat, queue: seq<Delivery>, attempts: seq<Attempt>)
    requires NoViolations(attempts)
    ensures G.NoUniqueViolation(WorkOff(c, s, w, queue, attempts).labels)
  {
    if attempts == [] {
    } else {
      WorkOffRaisesNothing(c, s, w, queue, attempts[..|attempts| - 1]);
    }
  }

  // ---------------------------------------------------------------- together

  /** Nothing is on its way: no row is pending, no copy is queued and no worker is busy. */
  ghost predicate Settled(s: State) {
    (forall id :: 0 <= id < |s.outbox| ==> !s.outbox[id].status.Pending?) &&
    s.ready == multiset{} && s.workers == map[]
  }

  /** Every event is given up as FAILED, or applied or dead-lettered at each bound queue. */
  ghost predicate AllDecided(s: State) {
    forall id, q :: 0 <= id < |s.outbox| && Bound(q, RoutingKey(s.outbox[id].payload)) ==>
      s.outbox[id].status.Failed? || IsMarked(s.processed, id, q) || Buried(s, id, q)
  }

  lemma SettledIsDecided(c: Config, ls: seq<Label>)
    requires G.NoUniqueViolation(ls) && Settled(Run(c, INIT, ls))
    ensures AllDecided(Run(c, INIT, ls))
  {
    var s := Run(c, INIT, ls);
    forall id: Id, q | id < |s.outbox| && Bound(q, RoutingKey(s.outbox[id].payload))
      ensures s.outbox[id].status.Failed? || IsMarked(s.processed, id, q) || Buried(s, id, q)
    {
      G.NothingIsLost(c, ls, id, q);
      assert !Queued(s, id, q) && !Held(s, id, q);
    }
  }

  lemma RelaysRaiseNothing(ls: seq<Label>)
    requires ByRelays(ls)
    ensures G.NoUniqueViolation(ls)
  {}

  lemma NoneRaised(a: seq<Label>, b: seq<Label>)
    requires G.NoUniqueViolation(a) && G.NoUniqueViolation(b)
    ensures G.NoUniqueViolation(a + b)
  {}

  /** First the relay's ticks. */
  lemma TicksSettleTheOutbox(c: Config, s: State, ticks: seq<Id -> Io>)
    requires c.batchSize >= 1 && c.maxAttempts >= 1 && RelayAt(s, 0) == IDLE
    requires |ticks| >= Batches(PendingCount(s.outbox), c.batchSize) * c.maxAttempts
    ensures var t := Run(c, s, TickLabels(c, s, ticks));
      t.workers == s.workers && |t.outbox| == |s.outbox| &&
      forall id :: 0 <= id < |t.outbox| ==> !t.outbox[id].status.Pending?
  {
    TickLabelsRun(c, s, ticks);
    TicksAreByRelays(c, s, ticks);
    RelaysSpareWorkers(c, s, TickLabels(c, s, ticks));
    RelayDrains(c, s, ticks);
  }

  /** Then the consumers' handles; `queue` lists the copies that are queued by then. */
  lemma AttemptsSettleTheQueues(c: Config, t: State, queue: seq<Delivery>, attempts: seq<Attempt>)
    requires t.workers == map[] && t.ready == multiset(queue) && MessagesOk(c, t)
    requires |attempts| >= |queue| * (c.maxRetries + 1)
    ensures var u := Run(c, t, WorkOff(c, t, 0, queue, attempts).labels);
      u.ready == multiset{} && u.workers == map[] && u.outbox == t.outbox
  {
    hide Step, Run;
    forall i | 0 <= i < |queue| ensures queue[i].retry <= c.maxRetries {
      assert queue[i] in t.ready;
      assert Genuine(c, t.outbox, queue[i]);
    }
    WorkOffTerminatesAndConserves(c, t, 0, queue, attempts);
  }

  /** After any run, whatever failed, crashed or repeated in it, once the relay is idle and
      no worker is busy: ceil(N / batchSize) * maxAttempts undisturbed ticks and then
      n * (maxRetries + 1) undisturbed handles decide every event, whatever becomes of each
      publish and of each transaction. */
  lemma UndisturbedRunsSettle(
      c: Config, ls: seq<Label>, ticks: seq<Id -> Io>, queue: seq<Delivery>, attempts: seq<Attempt>)
    requires c.batchSize >= 1 && c.maxAttempts >= 1 && G.NoUniqueViolation(ls) && NoViolations(attempts)
    requires RelayAt(Run(c, INIT, ls), 0) == IDLE && Run(c, INIT, ls).workers == map[]
    requires |ticks| >= Batches(PendingCount(Run(c, INIT, ls).outbox), c.batchSize) * c.maxAttempts
    requires multiset(queue) == TickByTick(c, Run(c, INIT, ls), ticks).ready
    requires |attempts| >= |queue| * (c.maxRetries + 1)
    ensures var s := Run(c, INIT, ls); var a := TickLabels(c, s, ticks);
      var end := Run(c, INIT, ls + (a + WorkOff(c, Run(c, s, a), 0, queue, attempts).labels));
      Settled(end) && AllDecided(end) && |end.outbox| == |s.outbox|
  {
    hide Step, Run;
    var s := Run(c, INIT, ls);
    var a := TickLabels(c, s, ticks);
    var b := WorkOff(c, Run(c, s, a), 0, queue, attempts).labels;
    TicksSettleTheOutbox(c, s, ticks);
    TickLabelsRun(c, s, ticks);
    RunConcat(c, INIT, ls, a);
    RunKeepsSafe(c, ls + a);
    AttemptsSettleTheQueues(c, Run(c, s, a), queue, attempts);
    TicksAreByRelays(c, s, ticks);
    RelaysRaiseNothing(a);
    WorkOffRaisesNothing(c, Run(c, s, a), 0, queue, attempts);
    DecidedAfter(c, ls, a, b);
  }

  lemma DecidedAfter(c: Config, ls: seq<Label>, a: seq<Label>, b: seq<Label>)
    requires G.NoUniqueViolation(ls) && G.NoUniqueViolation(a) && G.NoUniqueViolation(b)
    requires Settled(Run(c, Run(c, Run(c, INIT, ls), a), b))
    ensures Run(c, INIT, ls + (a + b)) == Run(c, Run(c, Run(c, INIT, ls), a), b)
    ensures AllDecided(Run(c, INIT, ls + (a + b)))
  {
    RunConcat(c, INIT, ls, a + b);
    RunConcat(c, Run(c, INIT, ls), a, b);
    NoneRaised(a, b);
    NoneRaised(ls, a + b);
    SettledIsDecided(c, ls + (a + b));
  }

  // ---------------------------------------------------------------- a dropped event

  /** One committed event, dispatched, with its copies in the queues. */
  lemma OneDispatched(c: Config, p: Payload) returns (ls: seq<Label>)
    requires c.batchSize >= 1
    ensures var s := Run(c, INIT, ls);
      |s.outbox| == 1 && s.outbox[0].payload == p && s.outbox[0].status.Dispatched? && s.outbox[0].landed == 1 &&
      s.ready == Copies(Event(0, p)) && s.workers == map[] && s.dead == multiset{} && s.processed == []
  {
    var a, b := [Append([p]), Tick(0, [0])], [Publish(0, Done), Mark(0, Done)];
    ls := a + b;
    RunTwo(c, INIT, a[0], a[1]);
    var s := Step(c, INIT, a[0]);
    assert s.outbox == [NewRow(p)] && s.relays == map[];
    Reads(c, s, 0);
    var t := Step(c, s, a[1]);
    assert t.outbox == [NewRow(p)] && t.ready == multiset{} && t.workers == map[];
    RunConcat(c, INIT, a, b);
    RunTwo(c, t, b[0], b[1]);
    FirstIsDispatched(c, t);
  }

  lemma FirstIsDispatched(c: Config, t: State)
    requires |t.outbox| == 1 && t.outbox[0].landed == 0 && t.relays == map[0 := HOLDING]
    ensures var u := Step(c, Step(c, t, Publish(0, Done)), Mark(0, Done));
      |u.outbox| == 1 && u.outbox[0].payload == t.outbox[0].payload && u.outbox[0].status.Dispatched? &&
      u.outbox[0].landed == 1 && u.ready == t.ready + Copies(Event(0, t.outbox[0].payload)) &&
      u.workers == t.workers && u.dead == t.dead && u.processed == t.processed
  {
    PublishedRow(c, t, RowFaults(Done, Done, Done));
    MarkedRow(c, Step(c, t, Publish(0, Done)));
  }

  /** A reachable run in which a dispatched event is gone for a consumer: its projector raised
      a unique violation, which reads as "already processed". */
  lemma ViolationDropsEvent(c: Config, p: Payload, q: Queue, context: Context) returns (ls: seq<Label>)
    requires c.batchSize >= 1 && Bound(q, RoutingKey(p))
    ensures var s := Run(c, INIT, ls);
      |s.outbox| == 1 && s.outbox[0].payload == p && s.outbox[0].status.Dispatched? && s.outbox[0].landed == 1 &&
      !G.Accounted(s, 0, q)
  {
    var first := OneDispatched(c, p);
    var s, d := Run(c, INIT, first), Delivery(q, Event(0, p), 0);
    var rest := [Receive(0, d), RunOnce(0, UniqueViolation, context)];
    ls := first + rest;
    RunConcat(c, INIT, first, rest);
    RunTwo(c, s, rest[0], rest[1]);
    assert d in CopyFor(q, d.event);
    Swallowed(c, s, d, context);
  }

  lemma Swallowed(c: Config, s: State, d: Delivery, context: Context)
    requires s.ready == Copies(d.event) && d in s.ready && s.workers == map[] && s.dead == multiset{}
    requires s.processed == []
    ensures var t := Step(c, Step(c, s, Receive(0, d)), RunOnce(0, UniqueViolation, context));
      t.outbox == s.outbox && !G.Accounted(t, d.event.eventId, d.queue)
  {
    hide G.Accounted, Copies;
    ViolationSettles(c, s, d, context);
    OneCopyEach(d.event, d);
    NoTraceLeft(Step(c, Step(c, s, Receive(0, d)), RunOnce(0, UniqueViolation, context)), d);
  }

  lemma ViolationSettles(c: Config, s: State, d: Delivery, context: Context)
    requires d in s.ready && s.workers == map[] && s.processed == []
    ensures var t := Step(c, Step(c, s, Receive(0, d)), RunOnce(0, UniqueViolation, context));
      t.outbox == s.outbox && t.ready == s.ready - multiset{d} && t.dead == s.dead && t.processed == [] &&
      t.workers == map[0 := Handling(d, Progress.Settled, true)]
  {}

  lemma NoTraceLeft(t: State, d: Delivery)
    requires forall f :: f in t.ready ==> f.queue != d.queue
    requires t.workers == map[0 := Handling(d, Progress.Settled, true)] && t.dead == multiset{} && t.processed == []
    ensures !G.Accounted(t, d.event.eventId, d.queue)
  {}

  lemma OneCopyEach(e: Event, d: Delivery)
    requires d in Copies(e)
    ensures forall f :: f in Copies(e) - multiset{d} ==> f.queue != d.queue
  {}
}
