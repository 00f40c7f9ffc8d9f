/** The relay service in its own form: a class whose loop publishes a batch row by row.
    Each call is proved to be exactly a script of the pipeline's relay steps. */
module OutboxRelayService {
  import opened Domain
  import opened Projections
  import opened Pipeline
  import opened OutboxRelay

  class Database {
    var outbox: seq<OutboxRow>
    var processed: seq<Processed>
    var tables: Tables
  }

  class Broker {
    var ready: multiset<Delivery>
    var dead: multiset<Delivery>
  }

  /** How the three awaits of `publishRow` end for a row. */
  datatype RowFaults = RowFaults(publish: Io, mark: Io, record: Io)

  predicate Aborts(f: RowFaults) {
    !(f.publish.Done? && f.mark.Done?) && !f.record.Done?
  }

  function RowScript(f: RowFaults): seq<Label> {
    [Publish(0, f.publish)] + (if f.publish.Done? then [Mark(0, f.mark)] else []) +
    (if f.publish.Done? && f.mark.Done? then [] else [Record(0, f.record)])
  }

  function BatchScript(ids: seq<Id>, faults: Id -> RowFaults): seq<Label> {
    if ids == [] then [EndTick(0)]
    else RowScript(faults(ids[0])) + (if Aborts(faults(ids[0])) then [] else BatchScript(ids[1..], faults))
  }

  /** The pending rows below position `i`, oldest first, at most `batchSize` of them. */
  function Oldest(c: Config, outbox: seq<OutboxRow>, i: nat): seq<Id>
    requires i <= |outbox|
  {
    if i == 0 then [] else Oldest(c, outbox, i - 1) + (if InBatch(c, outbox, i - 1) then [i - 1] else [])
  }

  /** The steps of one undisturbed tick; `readFails` is the query itself failing. */
  function TickScript(c: Config, outbox: seq<OutboxRow>, readFails: bool, faults: Id -> RowFaults): seq<Label> {
    var ids := if readFails then [] else Oldest(c, outbox, |outbox|);
    [Tick(0, ids)] + BatchScript(ids, faults)
  }

  lemma {:induction false} OldestIsTheBatch(c: Config, outbox: seq<OutboxRow>, i: nat)
    requires i <= |outbox|
    ensures var ids := Oldest(c, outbox, i);
      |ids| == (if Rank(outbox, i) < c.batchSize then Rank(outbox, i) else c.batchSize) &&
      (forall k: nat :: k in ids <==> k < i && InBatch(c, outbox, k)) &&
      (forall a, b :: 0 <= a < b < |ids| ==> ids[a] < ids[b])
  {
    if i == 0 {
    } else {
      OldestIsTheBatch(c, outbox, i - 1);
      var front := Oldest(c, outbox, i - 1);
      assert forall a :: 0 <= a < |front| ==> front[a] in front;
    }
  }

  /** Pending rows below position `i` in order of age, at most `batchSize`; a pending row is
      left out only if the batch is full, and then every row of the batch is older. */
  ghost predicate OldestFirst(c: Config, outbox: seq<OutboxRow>, ids: seq<Id>, i: nat)
    requires i <= |outbox|
  {
    |ids| <= c.batchSize &&
    (forall k :: 0 <= k < |ids| ==> ids[k] < i && outbox[ids[k]].status.Pending?) &&
    (forall a, b :: 0 <= a < b < |ids| ==> ids[a] < ids[b]) &&
    (forall id: Id :: id < i && outbox[id].status.Pending? && id !in ids ==> |ids| == c.batchSize) &&
    (forall id: Id, k :: id < i && outbox[id].status.Pending? && id !in ids && 0 <= k < |ids| ==> ids[k] < id)
  }

  lemma BatchStays(c: Config, outbox: seq<OutboxRow>, ids: seq<Id>, i: nat)
    requires i < |outbox| && OldestFirst(c, outbox, ids, i) && (outbox[i].status.Pending? ==> |ids| >= c.batchSize)
    ensures OldestFirst(c, outbox, ids, i + 1)
  {}

  lemma BatchGrows(c: Config, outbox: seq<OutboxRow>, ids: seq<Id>, i: nat)
    requires i < |outbox| && OldestFirst(c, outbox, ids, i) && outbox[i].status.Pending? && |ids| < c.batchSize
    ensures OldestFirst(c, outbox, ids + [i], i + 1)
  {
    assert forall id: Id :: id < i && outbox[id].status.Pending? ==> id in ids;
  }

  /** Each batch that the relay reads is the oldest pending rows. */
  lemma {:induction false} OldestComeFirst(c: Config, outbox: seq<OutboxRow>, i: nat)
    requires i <= |outbox|
    ensures OldestFirst(c, outbox, Oldest(c, outbox, i), i)
  {
    if i == 0 {
    } else {
      hide OldestFirst;
      var front := Oldest(c, outbox, i - 1);
      OldestComeFirst(c, outbox, i - 1);
      OldestSnoc(c, outbox, i);
      if outbox[i - 1].status.Pending? && |front| < c.batchSize {
        BatchGrows(c, outbox, front, i - 1);
      } else {
        BatchStays(c, outbox, front, i - 1);
      }
    }
  }

  lemma OldestSnoc(c: Config, outbox: seq<OutboxRow>, i: nat)
    requires 0 < i <= |outbox|
    ensures var front := Oldest(c, outbox, i - 1);
      Oldest(c, outbox, i) ==
        if outbox[i - 1].status.Pending? && |front| < c.batchSize then front + [i - 1] else front
  {
    OldestIsTheBatch(c, outbox, i - 1);
  }

  lemma {:induction false} RunConcat(c: Config, s: State, a: seq<Label>, b: seq<Label>)
    ensures Run(c, s, a + b) == Run(c, Run(c, s, a), b)
  {
    hide Step;
    if b == [] {
      assert a + b == a;
    } else {
      RunConcat(c, s, a, b[..|b| - 1]);
      assert (a + b)[..|a + b| - 1] == a + b[..|b| - 1];
    }
  }

  lemma RunOne(c: Config, s: State, l: Label)
    ensures Run(c, s, [l]) == Step(c, s, l)
  {
    hide Step;
    assert [l][..0] == [];
  }

  /** The row that `publishRow` leaves behind. */
  function RowAfter(c: Config, row: OutboxRow, job: Job, f: RowFaults): OutboxRow {
    var called := row.(calls := row.calls + 1, landed := row.landed + if f.publish.Refused? then 0 else 1);
    var marked := if f.publish.Done? && !f.mark.Refused? then called.(status := Dispatched) else called;
    if (f.publish.Done? && f.mark.Done?) || f.record.Refused? then marked else Recorded(c, marked, job.attempts + 1)
  }

  function ReadyAfter(ready: multiset<Delivery>, row: OutboxRow, id: Id, f: RowFaults): multiset<Delivery> {
    if f.publish.Refused? then ready else ready + Copies(Event(id, row.payload))
  }

  /** The relay after a row: on to the rest of its batch, or out of the tick. */
  function RelayAfter(relay: Relay, f: RowFaults): Relay
    requires relay.batch != []
  {
    if Aborts(f) then relay.(phase := Ready, batch := [], running := false)
    else relay.(phase := Ready, batch := relay.batch[1..])
  }

  function RowDone(c: Config, s: State, f: RowFaults): State
    requires At(s, 0, Ready)
  {
    var relay := RelayAt(s, 0);
    var job := relay.batch[0];
    s.(outbox := s.outbox[job.id := RowAfter(c, s.outbox[job.id], job, f)],
       ready := ReadyAfter(s.ready, s.outbox[job.id], job.id, f),
       relays := s.relays[0 := RelayAfter(relay, f)])
  }

  lemma MarkedRow(c: Config, s: State)
    requires At(s, 0, Marking)
    ensures var relay := RelayAt(s, 0); var id := relay.batch[0].id;
      Step(c, s, Mark(0, Done)) ==
        s.(outbox := s.outbox[id := s.outbox[id].(status := Dispatched)],
           relays := s.relays[0 := relay.(phase := Ready, batch := relay.batch[1..])])
  {}

  lemma FailedMark(c: Config, s: State, io: Io)
    requires At(s, 0, Marking) && !io.Done?
    ensures var relay := RelayAt(s, 0); var id := relay.batch[0].id; var t := Step(c, s, Mark(0, io));
      t == s.(outbox := s.outbox[id := if io.Refused? then s.outbox[id] else s.outbox[id].(status := Dispatched)],
              relays := s.relays[0 := relay.(phase := Recording)]) &&
      At(t, 0, Recording)
  {
    var id := RelayAt(s, 0).batch[0].id;
    assert s.outbox[id := s.outbox[id]] == s.outbox;
  }

  lemma UnmarkedScript(c: Config, s: State, f: RowFaults)
    requires At(s, 0, Recording)
    ensures var relay := RelayAt(s, 0); var job := relay.batch[0]; var row := s.outbox[job.id];
      Step(c, s, Record(0, f.record)) ==
        s.(outbox := s.outbox[job.id := if f.record.Refused? then row else Recorded(c, row, job.attempts + 1)],
           relays := s.relays[0 := if f.record.Done? then relay.(phase := Ready, batch := relay.batch[1..])
                                   else relay.(phase := Ready, batch := [], running := false)])
  {}

  lemma RunTwo(c: Config, s: State, a: Label, b: Label)
    ensures Run(c, s, [a, b]) == Step(c, Step(c, s, a), b)
  {
    hide Step;
    RunOne(c, s, a);
    assert [a, b][..1] == [a];
  }

  lemma RunThree(c: Config, s: State, a: Label, b: Label, d: Label)
    ensures Run(c, s, [a, b, d]) == Step(c, Step(c, Step(c, s, a), b), d)
  {
    hide Step;
    RunTwo(c, s, a, b);
    assert [a, b, d][..2] == [a, b];
  }

  lemma PublishedRow(c: Config, s: State, f: RowFaults)
    requires At(s, 0, Ready)
    ensures var relay := RelayAt(s, 0); var id := relay.batch[0].id; var row := s.outbox[id];
      var t := Step(c, s, Publish(0, f.publish));
      var landed := row.landed + if f.publish.Refused? then 0 else 1;
      t == s.(outbox := s.outbox[id := row.(calls := row.calls + 1, landed := landed)],
              ready := ReadyAfter(s.ready, row, id, f),
              relays := s.relays[0 := relay.(phase := if f.publish.Done? then Marking else Recording)]) &&
      At(t, 0, if f.publish.Done? then Marking else Recording)
  {}

  lemma RefusedRow(c: Config, s: State, f: RowFaults)
    requires At(s, 0, Ready) && !f.publish.Done?
    ensures Step(c, Step(c, s, Publish(0, f.publish)), Record(0, f.record)) == RowDone(c, s, f)
  {
    hide Step;
    var s1 := Step(c, s, Publish(0, f.publish));
    PublishedRow(c, s, f);
    UnmarkedScript(c, s1, f);
    var t, u := Step(c, s1, Record(0, f.record)), RowDone(c, s, f);
    assert t.relays == u.relays;
    assert t.outbox == u.outbox;
  }

  lemma PutTwice<T>(rows: seq<T>, i: nat, a: T, b: T)
    requires i < |rows|
    ensures rows[i := a][i := b] == rows[i := b]
  {}

  lemma DispatchedRow(c: Config, s: State, f: RowFaults)
    requires At(s, 0, Ready) && f.publish.Done? && f.mark.Done?
    ensures Step(c, Step(c, s, Publish(0, Done)), Mark(0, Done)) == RowDone(c, s, f)
  {
    hide Step;
    var s1 := Step(c, s, Publish(0, f.publish));
    PublishedRow(c, s, f);
    MarkedRow(c, s1);
    var t, u := Step(c, s1, Mark(0, Done)), RowDone(c, s, f);
    assert t.relays == u.relays;
    assert t.outbox == u.outbox;
  }

  lemma UnmarkedRow(c: Config, s: State, f: RowFaults)
    requires At(s, 0, Ready) && f.publish.Done? && !f.mark.Done?
    ensures Step(c, Step(c, Step(c, s, Publish(0, Done)), Mark(0, f.mark)), Record(0, f.record)) == RowDone(c, s, f)
  {
    hide Step;
    var s1 := Step(c, s, Publish(0, f.publish));
    PublishedRow(c, s, f);
    FailedMark(c, s1, f.mark);
    var s2 := Step(c, s1, Mark(0, f.mark));
    UnmarkedScript(c, s2, f);
    var id := RelayAt(s, 0).batch[0].id;
    PutTwice(s.outbox, id, s1.outbox[id], s2.outbox[id]);
    assert s2.outbox == s.outbox[id := s2.outbox[id]];
    var t, u := Step(c, s2, Record(0, f.record)), RowDone(c, s, f);
    assert t.relays == u.relays;
    assert t.outbox == u.outbox;
  }

  lemma RowScriptIs(f: RowFaults)
    ensures !f.publish.Done? ==> RowScript(f) == [Publish(0, f.publish), Record(0, f.record)]
    ensures f.publish.Done? && f.mark.Done? ==> RowScript(f) == [Publish(0, Done), Mark(0, Done)]
    ensures f.publish.Done? && !f.mark.Done? ==>
      RowScript(f) == [Publish(0, Done), Mark(0, f.mark), Record(0, f.record)]
  {}

  /** What the steps of one row add up to. */
  lemma RowScriptRuns(c: Config, s: State, f: RowFaults)
    requires At(s, 0, Ready)
    ensures Run(c, s, RowScript(f)) == RowDone(c, s, f)
  {
    hide Step;
    RowScriptIs(f);
    if !f.publish.Done? {
      RunTwo(c, s, Publish(0, f.publish), Record(0, f.record));
      RefusedRow(c, s, f);
    } else if f.mark.Done? {
      RunTwo(c, s, Publish(0, Done), Mark(0, Done));
      DispatchedRow(c, s, f);
    } else {
      RunThree(c, s, Publish(0, Done), Mark(0, f.mark), Record(0, f.record));
      UnmarkedRow(c, s, f);
    }
  }

  class Service {
    const prisma: Database
    const amqp: Broker
    const config: Config
    var running: bool
    var stopped: bool

    constructor (prisma: Database, amqp: Broker, config: Config)
      ensures this.prisma == prisma && this.amqp == amqp && this.config == config
      ensures !running && !stopped
    {
      this.prisma, this.amqp, this.config := prisma, amqp, config;
      running, stopped := false, false;
    }

    /** The pipeline state this service works on, with the rest of its batch. */
    ghost function View(batch: seq<Job>, phase: Phase): State
      reads this, prisma, amqp
    {
      State(prisma.outbox, map[0 := Relay(running, stopped, batch, phase)], amqp.ready, map[], amqp.dead,
            prisma.processed, prisma.tables, {})
    }

    method OnModuleDestroy()
      modifies this
      ensures stopped && running == old(running)
    {
      stopped := true;
    }

    /** The oldest pending rows, at most `batchSize`. */
    method FindPending() returns (pending: seq<Job>)
      ensures var ids := Oldest(config, prisma.outbox, |prisma.outbox|);
        Selectable(config, View([], Ready), ids) && pending == Jobs(View([], Ready), ids)
    {
      pending := [];
      ghost var ids: seq<Id> := [];
      var i := 0;
      while i < |prisma.outbox|
        invariant 0 <= i <= |prisma.outbox|
        invariant ids == Oldest(config, prisma.outbox, i)
        invariant |ids| == |pending|
        invariant forall k :: 0 <= k < |ids| ==>
          ids[k] < i && pending[k] == Job(ids[k], prisma.outbox[ids[k]].attempts)
      {
        OldestIsTheBatch(config, prisma.outbox, i);
        if prisma.outbox[i].status.Pending? && |pending| < config.batchSize {
          pending := pending + [Job(i, prisma.outbox[i].attempts)];
          ids := ids + [i];
        }
        i := i + 1;
      }
      OldestIsTheBatch(config, prisma.outbox, |prisma.outbox|);
      assert forall k :: 0 <= k < |ids| ==> ids[k] in ids;
      assert pending == Jobs(View([], Ready), ids);
    }

    /** Publish, then mark; on any failure count the attempt. A failing count is thrown. */
    method PublishRow(job: Job, f: RowFaults) returns (thrown: bool)
      requires job.id < |prisma.outbox|
      modifies prisma`outbox, amqp`ready
      ensures thrown == Aborts(f)
      ensures prisma.outbox == old(prisma.outbox)[job.id := RowAfter(config, old(prisma.outbox)[job.id], job, f)]
      ensures amqp.ready == ReadyAfter(old(amqp.ready), old(prisma.outbox)[job.id], job.id, f)
    {
      var id := job.id;
      var row := prisma.outbox[id];
      thrown := false;
      var landed := row.landed + if f.publish.Refused? then 0 else 1;
      prisma.outbox := prisma.outbox[id := row.(calls := row.calls + 1, landed := landed)];
      if !f.publish.Refused? {
        amqp.ready := amqp.ready + Copies(Event(id, row.payload));
      }
      var failed := !f.publish.Done?;
      if f.publish.Done? {
        if !f.mark.Refused? {
          prisma.outbox := prisma.outbox[id := prisma.outbox[id].(status := Dispatched)];
        }
        failed := !f.mark.Done?;
      }
      if failed {
        var attempts := job.attempts + 1;
        var exhausted := attempts >= config.maxAttempts;
        if !f.record.Refused? {
          prisma.outbox := prisma.outbox[id := prisma.outbox[id].(
            attempts := attempts, status := if exhausted then Failed else Pending)];
        }
        thrown := !f.record.Done?;
      }
    }

    /** The loop over the batch; a thrown error ends the tick. */
    method PublishAll(pending: seq<Job>, faults: Id -> RowFaults)
      requires running
      requires forall i :: 0 <= i < |pending| ==> pending[i].id < |prisma.outbox|
      modifies this`running, prisma`outbox, amqp`ready
      ensures View([], Ready) == BatchDone(config, old(View(pending, Ready)), faults)
    {
      hide BatchDone, RowAfter, ReadyAfter, Aborts;
      ghost var end := BatchDone(config, View(pending, Ready), faults);
      assert pending[0..] == pending;
      var k := 0;
      while k < |pending|
        invariant 0 <= k <= |pending| && running
        invariant forall i :: 0 <= i < |pending| ==> pending[i].id < |prisma.outbox|
        invariant BatchDone(config, View(pending[k..], Ready), faults) == end
      {
        var f := faults(pending[k].id);
        assert pending[k..] == [pending[k]] + pending[k + 1..];
        assert View(pending[k..], Ready).relays ==
          map[0 := Relay(true, stopped, [pending[k]] + pending[k + 1..], Ready)];
        ghost var before := View(pending[k..], Ready);
        NextRow(config, before, stopped, pending[k], pending[k + 1..], faults);
        var thrown := PublishRow(pending[k], f);
        if thrown {
          running := false;
          assert View([], Ready) == StateAfterRow(config, before, stopped, pending[k], pending[k + 1..], f);
          return;
        }
        assert View(pending[k + 1..], Ready) == StateAfterRow(config, before, stopped, pending[k], pending[k + 1..], f);
        k := k + 1;
      }
      assert pending[k..] == [];
      assert View([], Ready).relays == map[0 := Relay(true, stopped, [], Ready)];
      NoMoreRows(config, View([], Ready), stopped, faults);
      running := false;
    }

    /** One tick of the interval: unless one is running or the service has stopped, it takes
        the steps of `TickScript` and ends ready for the next tick. */
    method DispatchPending(readFails: bool, faults: Id -> RowFaults)
      modifies this`running, prisma`outbox, amqp`ready
      ensures old(running || stopped) ==>
        prisma.outbox == old(prisma.outbox) && amqp.ready == old(amqp.ready) && running == old(running)
      ensures !old(running || stopped) ==> !running
      ensures !old(running || stopped) ==>
        View([], Ready) == Run(config, old(View([], Ready)), TickScript(config, old(prisma.outbox), readFails, faults))
    {
      if running || stopped {
        return;
      }
      ghost var s := View([], Ready);
      ghost var ids: seq<Id> := if readFails then [] else Oldest(config, prisma.outbox, |prisma.outbox|);
      var pending := [];
      if !readFails {
        pending := FindPending();
      }
      running := true;
      TickBegins(config, s, ids, faults);
      assert View(pending, Ready) == s.(relays := map[0 := Relay(true, false, Jobs(s, ids), Ready)]);
      BatchScriptRuns(config, View(pending, Ready), ids, faults);
      PublishAll(pending, faults);
      assert View([], Ready).relays[0] == RelayAt(View([], Ready), 0);
    }
  }

  /** The rows of a batch, one after the other, until one throws. */
  function BatchDone(c: Config, s: State, faults: Id -> RowFaults): State
    decreases |RelayAt(s, 0).batch|
  {
    if !At(s, 0, Ready) then Step(c, s, EndTick(0))
    else
      var f := faults(RelayAt(s, 0).batch[0].id);
      if Aborts(f) then RowDone(c, s, f) else BatchDone(c, RowDone(c, s, f), faults)
  }

  function StateAfterRow(c: Config, s: State, stopped: bool, job: Job, rest: seq<Job>, f: RowFaults): State
    requires job.id < |s.outbox|
  {
    s.(outbox := s.outbox[job.id := RowAfter(c, s.outbox[job.id], job, f)],
       relays := map[0 := if Aborts(f) then Relay(false, stopped, [], Ready) else Relay(true, stopped, rest, Ready)],
       ready := ReadyAfter(s.ready, s.outbox[job.id], job.id, f))
  }

  lemma RowDoneIs(c: Config, s: State, stopped: bool, job: Job, rest: seq<Job>, f: RowFaults)
    requires job.id < |s.outbox| && s.relays == map[0 := Relay(true, stopped, [job] + rest, Ready)]
    ensures At(s, 0, Ready) && RelayAt(s, 0).batch[0] == job
    ensures RowDone(c, s, f) == StateAfterRow(c, s, stopped, job, rest, f)
  {
    assert ([job] + rest)[1..] == rest;
    assert RowDone(c, s, f).relays == StateAfterRow(c, s, stopped, job, rest, f).relays;
  }

  lemma NextRow(c: Config, s: State, stopped: bool, job: Job, rest: seq<Job>, faults: Id -> RowFaults)
    requires job.id < |s.outbox| && s.relays == map[0 := Relay(true, stopped, [job] + rest, Ready)]
    ensures var f := faults(job.id); var t := StateAfterRow(c, s, stopped, job, rest, f);
      BatchDone(c, s, faults) == if Aborts(f) then t else BatchDone(c, t, faults)
  {
    RowDoneIs(c, s, stopped, job, rest, faults(job.id));
  }

  lemma NoMoreRows(c: Config, s: State, stopped: bool, faults: Id -> RowFaults)
    requires s.relays == map[0 := Relay(true, stopped, [], Ready)]
    ensures BatchDone(c, s, faults) == s.(relays := map[0 := Relay(false, stopped, [], Ready)])
  {}

  ghost predicate Working(s: State, ids: seq<Id>) {
    var relay := RelayAt(s, 0);
    relay.running && relay.phase.Ready? && |relay.batch| == |ids| &&
    forall i :: 0 <= i < |ids| ==> relay.batch[i].id == ids[i] < |s.outbox|
  }

  lemma {:induction false} BatchScriptRuns(c: Config, s: State, ids: seq<Id>, faults: Id -> RowFaults)
    requires Working(s, ids)
    ensures Run(c, s, BatchScript(ids, faults)) == BatchDone(c, s, faults)
    ensures !RelayAt(BatchDone(c, s, faults), 0).running
    decreases |ids|
  {
    if ids == [] {
      RunOne(c, s, EndTick(0));
    } else {
      var f := faults(ids[0]);
      UnfoldBatch(c, s, ids, faults);
      if !Aborts(f) { BatchScriptRuns(c, RowDone(c, s, f), ids[1..], faults); }
    }
  }

  lemma TickBegins(c: Config, s: State, ids: seq<Id>, faults: Id -> RowFaults)
    requires Selectable(c, s, ids) && s.relays == map[0 := Relay(false, false, [], Ready)]
    ensures Run(c, s, [Tick(0, ids)] + BatchScript(ids, faults)) ==
      Run(c, s.(relays := map[0 := Relay(true, false, Jobs(s, ids), Ready)]), BatchScript(ids, faults))
  {
    RunConcat(c, s, [Tick(0, ids)], BatchScript(ids, faults));
    RunOne(c, s, Tick(0, ids));
    assert Step(c, s, Tick(0, ids)).relays == map[0 := Relay(true, false, Jobs(s, ids), Ready)];
  }

  lemma UnfoldBatch(c: Config, s: State, ids: seq<Id>, faults: Id -> RowFaults)
    requires At(s, 0, Ready) && ids != []
    ensures Run(c, s, BatchScript(ids, faults)) ==
      if Aborts(faults(ids[0])) then RowDone(c, s, faults(ids[0]))
      else Run(c, RowDone(c, s, faults(ids[0])), BatchScript(ids[1..], faults))
  {
    hide Step;
    var f := faults(ids[0]);
    var rest := if Aborts(f) then [] else BatchScript(ids[1..], faults);
    RunConcat(c, s, RowScript(f), rest);
    RowScriptRuns(c, s, f);
  }

  // ---------------------------------------------------------------- draining, step by step

  /** Every publish ends as it may; every update works. */
  function UpdatesWork(publishes: Id -> Io): Id -> RowFaults {
    (i: Id) => RowFaults(publishes(i), Done, Done)
  }

  /** The jobs still describe their rows, and no row is in the batch twice. */
  ghost predicate Fresh(s: State) {
    RelayAt(s, 0).running && RelayAt(s, 0).phase.Ready? && BatchOk(s.outbox, RelayAt(s, 0).batch)
  }

  ghost predicate HasJob(batch: seq<Job>, id: Id) {
    exists k :: 0 <= k < |batch| && batch[k].id == id
  }

  lemma HasJobHead(batch: seq<Job>, i: Id)
    requires batch != []
    ensures HasJob(batch, i) <==> i == batch[0].id || HasJob(batch[1..], i)
  {
    if HasJob(batch[1..], i) {
      var k :| 0 <= k < |batch[1..]| && batch[1..][k].id == i;
      assert batch[k + 1].id == i;
    }
  }

  lemma HeadHandled(c: Config, s: State, publishes: Id -> Io)
    requires Fresh(s) && RelayAt(s, 0).batch != []
    ensures var batch := RelayAt(s, 0).batch; var id := batch[0].id;
      At(s, 0, Ready) && !Aborts(UpdatesWork(publishes)(id)) &&
      var t := RowDone(c, s, UpdatesWork(publishes)(id));
      t.outbox == s.outbox[id := Handled(c, s.outbox[id], publishes(id))] &&
      RelayAt(t, 0) == RelayAt(s, 0).(batch := batch[1..]) && Fresh(t) && !HasJob(batch[1..], id)
  {
    var batch := RelayAt(s, 0).batch;
    assert JobOk(s.outbox, batch[0]);
    assert forall i :: 0 <= i < |batch[1..]| ==> batch[1..][i] == batch[i + 1];
    assert forall i :: 0 < i < |batch| ==> JobOk(s.outbox, batch[i]) && batch[i].id != batch[0].id;
  }

  lemma {:induction false} BatchDoneHandles(c: Config, s: State, publishes: Id -> Io)
    requires Fresh(s)
    ensures var t := BatchDone(c, s, UpdatesWork(publishes)); var batch := RelayAt(s, 0).batch;
      |t.outbox| == |s.outbox| &&
      forall i :: 0 <= i < |s.outbox| ==>
        t.outbox[i] == if HasJob(batch, i) then Handled(c, s.outbox[i], publishes(i)) else s.outbox[i]
    ensures RelayAt(BatchDone(c, s, UpdatesWork(publishes)), 0) == RelayAt(s, 0).(running := false, batch := [])
    decreases |RelayAt(s, 0).batch|
  {
    var batch := RelayAt(s, 0).batch;
    if batch == [] {
    } else {
      HeadHandled(c, s, publishes);
      BatchDoneHandles(c, RowDone(c, s, UpdatesWork(publishes)(batch[0].id)), publishes);
      forall i: nat { HasJobHead(batch, i); }
    }
  }

  lemma OldestSelectable(c: Config, s: State)
    ensures Selectable(c, s, Oldest(c, s.outbox, |s.outbox|))
    ensures var jobs := Jobs(s, Oldest(c, s.outbox, |s.outbox|));
      BatchOk(s.outbox, jobs) && forall i: nat :: HasJob(jobs, i) <==> InBatch(c, s.outbox, i)
  {
    var ids := Oldest(c, s.outbox, |s.outbox|);
    OldestIsTheBatch(c, s.outbox, |s.outbox|);
    assert forall k :: 0 <= k < |ids| ==> ids[k] in ids;
    var jobs := Jobs(s, ids);
    forall i: nat | InBatch(c, s.outbox, i) ensures HasJob(jobs, i) {
      assert i in ids;
      var k :| 0 <= k < |ids| && ids[k] == i;
      assert jobs[k].id == i;
    }
  }

  lemma TickReadsTheBatch(c: Config, s: State)
    requires RelayAt(s, 0) == IDLE
    ensures var ids := Oldest(c, s.outbox, |s.outbox|);
      var t := Step(c, s, Tick(0, ids));
      Selectable(c, s, ids) && t.outbox == s.outbox && RelayAt(t, 0) == Relay(true, false, Jobs(s, ids), Ready)
  {
    OldestSelectable(c, s);
  }

  lemma BatchIsTicked(c: Config, s: State, publishes: Id -> Io)
    requires RelayAt(s, 0) == IDLE
    ensures var t := BatchDone(c, Step(c, s, Tick(0, Oldest(c, s.outbox, |s.outbox|))), UpdatesWork(publishes));
      t.outbox == Ticked(c, s.outbox, publishes) && RelayAt(t, 0) == IDLE
  {
    TickReadsTheBatch(c, s);
    OldestSelectable(c, s);
    BatchDoneHandles(c, Step(c, s, Tick(0, Oldest(c, s.outbox, |s.outbox|))), publishes);
  }

  /** One undisturbed tick with working updates handles exactly the oldest pending rows. */
  lemma TickScriptTicks(c: Config, s: State, publishes: Id -> Io)
    requires RelayAt(s, 0) == IDLE
    ensures var t := Run(c, s, TickScript(c, s.outbox, false, UpdatesWork(publishes)));
      t.outbox == Ticked(c, s.outbox, publishes) && RelayAt(t, 0) == IDLE
  {
    hide Step;
    var ids := Oldest(c, s.outbox, |s.outbox|);
    RunConcat(c, s, [Tick(0, ids)], BatchScript(ids, UpdatesWork(publishes)));
    RunOne(c, s, Tick(0, ids));
    TickReadsTheBatch(c, s);
    BatchScriptRuns(c, Step(c, s, Tick(0, ids)), ids, UpdatesWork(publishes));
    BatchIsTicked(c, s, publishes);
  }

  /** A run of whole ticks, each with its own publish outcomes. */
  function TickByTick(c: Config, s: State, ticks: seq<Id -> Io>): State {
    if ticks == [] then s
    else
      var t := TickByTick(c, s, ticks[..|ticks| - 1]);
      Run(c, t, TickScript(c, t.outbox, false, UpdatesWork(ticks[|ticks| - 1])))
  }

  lemma {:induction false} TicksDrain(c: Config, s: State, ticks: seq<Id -> Io>)
    requires RelayAt(s, 0) == IDLE
    ensures TickByTick(c, s, ticks).outbox == Drain(c, s.outbox, ticks)
    ensures RelayAt(TickByTick(c, s, ticks), 0) == IDLE
  {
    if ticks == [] {
    } else {
      TicksDrain(c, s, ticks[..|ticks| - 1]);
      TickScriptTicks(c, TickByTick(c, s, ticks[..|ticks| - 1]), ticks[|ticks| - 1]);
    }
  }

  /** From any state with an idle relay, once the updates work and no events arrive, N
      pending rows are all DISPATCHED or FAILED after ceil(N / batchSize) * maxAttempts
      ticks, whatever becomes of each publish. */
  lemma RelayDrains(c: Config, s: State, ticks: seq<Id -> Io>)
    requires c.batchSize >= 1 && c.maxAttempts >= 1 && RelayAt(s, 0) == IDLE
    requires |ticks| >= Batches(PendingCount(s.outbox), c.batchSize) * c.maxAttempts
    ensures var t := TickByTick(c, s, ticks);
      |t.outbox| == |s.outbox| && forall id :: 0 <= id < |t.outbox| ==> !t.outbox[id].status.Pending?
  {
    TicksDrain(c, s, ticks);
    DrainsInTime(c, s.outbox, ticks);
  }

  // ---------------------------------------------------------------- two relays

  lemma RunSnoc(c: Config, ls: seq<Label>, l: Label) returns (s: State)
    ensures s == Run(c, INIT, ls + [l]) == Step(c, Run(c, INIT, ls), l)
  {
    assert (ls + [l])[..|ls|] == ls;
    s := Step(c, Run(c, INIT, ls), l);
  }

  const HOLDING := Relay(true, false, [Job(0, 0)], Ready)

  /** Relay `r` is about to publish the first row. */
  ghost predicate Holds(s: State, r: nat) {
    |s.outbox| == 1 && r in s.relays && s.relays[r] == HOLDING
  }

  lemma Reads(c: Config, s: State, r: nat)
    requires c.batchSize >= 1 && r !in s.relays
    requires |s.outbox| == 1 && s.outbox[0].status.Pending? && s.outbox[0].attempts == 0
    ensures var t := Step(c, s, Tick(r, [0]));
      t.outbox == s.outbox && t.relays == s.relays[r := HOLDING]
  {
    assert Selectable(c, s, [0]) && Jobs(s, [0]) == [Job(0, 0)];
  }

  lemma BothRelaysRead(c: Config, p: Payload) returns (ls: seq<Label>)
    requires c.batchSize >= 1
    ensures Holds(Run(c, INIT, ls), 0) && Holds(Run(c, INIT, ls), 1)
    ensures Run(c, INIT, ls).relays.Keys == {0, 1}
    ensures Run(c, INIT, ls).outbox[0].status.Pending?
  {
    var s := RunSnoc(c, [], Append([p]));
    assert s.outbox == [NewRow(p)] && s.relays == map[];
    ls := [] + [Append([p])];
    Reads(c, s, 0);
    var t := RunSnoc(c, ls, Tick(0, [0]));
    ls := ls + [Tick(0, [0])];
    Reads(c, t, 1);
    var u := RunSnoc(c, ls, Tick(1, [0]));
    ls := ls + [Tick(1, [0])];
  }

  lemma ZeroDispatches(c: Config, s: State)
    requires Holds(s, 0) && Holds(s, 1)
    ensures var t := Step(c, Step(c, s, Publish(0, Done)), Mark(0, Done));
      Holds(t, 1) && t.outbox[0].status.Dispatched?
  {
    PublishedRow(c, s, RowFaults(Done, Done, Done));
    MarkedRow(c, Step(c, s, Publish(0, Done)));
  }

  lemma OneRecords(c: Config, s: State)
    requires Holds(s, 1) && c.maxAttempts >= 2
    ensures var t := Step(c, Step(c, s, Publish(1, Refused)), Record(1, Done));
      |t.outbox| == 1 && t.outbox[0].status.Pending?
  {}

  /** The `running` flag guards one process: with a second relay a dispatched row can
      become pending again, so the row machine does not extend to several relays. */
  lemma TwoRelaysReopenDispatchedRow(c: Config, p: Payload) returns (ls: seq<Label>, more: seq<Label>)
    requires c.batchSize >= 1 && c.maxAttempts >= 2
    ensures |Run(c, INIT, ls).outbox| == 1 && Run(c, INIT, ls).outbox[0].status.Dispatched?
    ensures |Run(c, INIT, ls + more).outbox| == 1 && Run(c, INIT, ls + more).outbox[0].status.Pending?
  {
    var read := BothRelaysRead(c, p);
    ls := read + [Publish(0, Done), Mark(0, Done)];
    more := [Publish(1, Refused), Record(1, Done)];
    var s := Run(c, INIT, read);
    RunConcat(c, INIT, read, [Publish(0, Done), Mark(0, Done)]);
    RunTwo(c, s, Publish(0, Done), Mark(0, Done));
    ZeroDispatches(c, s);
    RunConcat(c, INIT, ls, more);
    RunTwo(c, Run(c, INIT, ls), Publish(1, Refused), Record(1, Done));
    OneRecords(c, Run(c, INIT, ls));
  }
}
