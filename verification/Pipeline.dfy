/** The event pipeline as a transition system: any number of outbox relays, the broker's
    queues, any number of consumer workers, and the faults each await can meet. A step
    whose condition does not hold changes nothing, so every sequence of labels is a run. */
module Pipeline {
  import opened Domain
  import opened Projections

  /** `batchSize` and `maxAttempts` of the relay, `maxRetries` of the consumers. */
  datatype Config = Config(batchSize: nat, maxAttempts: nat, maxRetries: nat)

  datatype OutboxStatus = Pending | Dispatched | Failed

  /** A row of `event_outbox`; its id is its position. `calls` and `landed` are history:
      how often the row was handed to the broker, and how often that reached the queues. */
  datatype OutboxRow = OutboxRow(payload: Payload, status: OutboxStatus, attempts: nat, calls: nat, landed: nat)

  /** How an awaited call ends: it takes effect and says so; it takes effect and reports
      a failure; it has no effect and reports a failure. */
  datatype Io = Done | Unconfirmed | Refused

  /** A row as the relay read it. */
  datatype Job = Job(id: Id, attempts: nat)

  datatype Phase = Ready | Marking | Recording

  datatype Relay = Relay(running: bool, stopped: bool, batch: seq<Job>, phase: Phase)

  const IDLE := Relay(false, false, [], Ready)

  /** A message copy in a queue; `retry` is its retry header. */
  datatype Delivery = Delivery(queue: Queue, event: Event, retry: nat)

  datatype Progress = Started | Thrown | Settled

  /** A worker with a delivery. `live` is false once the broker has taken the copy back
      while the worker is still busy with it. */
  datatype Handling = Handling(delivery: Delivery, progress: Progress, live: bool)

  /** How a transaction of `runOnce` ends: the database fails before the marker is written;
      or, once it is written, the projector succeeds, throws, raises a unique violation, or
      succeeds while the commit is reported as failed. */
  datatype Work = Unavailable | Succeeds | Throws | UniqueViolation | CommitUnconfirmed

  datatype State = State(
    outbox: seq<OutboxRow>,
    relays: map<nat, Relay>,
    ready: multiset<Delivery>,
    workers: map<nat, Handling>,
    dead: multiset<Delivery>,
    processed: seq<Processed>,
    tables: Tables,
    swallowed: set<(Id, Queue)>)

  const INIT := State([], map[], multiset{}, map[], multiset{}, [], EMPTY, {})

  datatype Label =
    | Append(payloads: seq<Payload>)
    | Tick(r: nat, ids: seq<Id>)
    | Publish(r: nat, io: Io)
    | Mark(r: nat, io: Io)
    | Record(r: nat, io: Io)
    | EndTick(r: nat)
    | StopRelay(r: nat)
    | CrashRelay(r: nat)
    | Receive(w: nat, delivery: Delivery)
    | Detach(w: nat)
    | RunOnce(w: nat, work: Work, context: Context)
    | Republish(w: nat, io: Io)
    | Ack(w: nat)
    | CrashWorker(w: nat)

  // ---------------------------------------------------------------- steps

  function Payloads(outbox: seq<OutboxRow>): (p: seq<Payload>)
    ensures |p| == |outbox| && forall i :: 0 <= i < |p| ==> p[i] == outbox[i].payload
  {
    seq(|outbox|, i requires 0 <= i < |outbox| => outbox[i].payload)
  }

  function NewRow(p: Payload): OutboxRow {
    OutboxRow(p, Pending, 0, 0, 0)
  }

  function NewRows(payloads: seq<Payload>): seq<OutboxRow> {
    seq(|payloads|, i requires 0 <= i < |payloads| => NewRow(payloads[i]))
  }

  function CopyFor(q: Queue, e: Event): multiset<Delivery> {
    if Bound(q, RoutingKey(e.payload)) then multiset{Delivery(q, e, 0)} else multiset{}
  }

  /** What the topic exchange makes of one published event. */
  function Copies(e: Event): multiset<Delivery> {
    CopyFor(NotificationQueue, e) + CopyFor(AuditQueue, e) + CopyFor(AnalyticsQueue, e)
  }

  function RelayAt(s: State, r: nat): Relay {
    if r in s.relays then s.relays[r] else IDLE
  }

  function PutRelay(s: State, r: nat, relay: Relay): State {
    s.(relays := s.relays[r := relay])
  }

  /** The batch `findMany` may return: pending rows, none twice, at most `batchSize`. */
  predicate Selectable(c: Config, s: State, ids: seq<Id>) {
    |ids| <= c.batchSize && NoRepeats(ids) &&
    forall i :: 0 <= i < |ids| ==> ids[i] < |s.outbox| && s.outbox[ids[i]].status.Pending?
  }

  function Jobs(s: State, ids: seq<Id>): seq<Job>
    requires forall i :: 0 <= i < |ids| ==> ids[i] < |s.outbox|
  {
    seq(|ids|, i requires 0 <= i < |ids| => Job(ids[i], s.outbox[ids[i]].attempts))
  }

  /** The relay is at the given await of `publishRow` for the first row of its batch. */
  predicate At(s: State, r: nat, phase: Phase) {
    var relay := RelayAt(s, r);
    relay.running && relay.phase == phase && relay.batch != [] && relay.batch[0].id < |s.outbox|
  }

  function TryPublish(s: State, r: nat, io: Io): State
    requires At(s, r, Ready)
  {
    var relay := RelayAt(s, r);
    var id := relay.batch[0].id;
    var row := s.outbox[id];
    var landed := if io.Refused? then 0 else 1;
    var t := PutRelay(s, r, relay.(phase := if io.Done? then Marking else Recording));
    t.(outbox := s.outbox[id := row.(calls := row.calls + 1, landed := row.landed + landed)],
       ready := if io.Refused? then s.ready else s.ready + Copies(Event(id, row.payload)))
  }

  function TryMark(s: State, r: nat, io: Io): State
    requires At(s, r, Marking)
  {
    var relay := RelayAt(s, r);
    var id := relay.batch[0].id;
    var t := PutRelay(s, r, if io.Done? then relay.(phase := Ready, batch := relay.batch[1..])
                            else relay.(phase := Recording));
    t.(outbox := if io.Refused? then s.outbox else s.outbox[id := s.outbox[id].(status := Dispatched)])
  }

  function Recorded(c: Config, row: OutboxRow, attempts: nat): OutboxRow {
    row.(attempts := attempts, status := if attempts >= c.maxAttempts then Failed else Pending)
  }

  function TryRecord(c: Config, s: State, r: nat, io: Io): State
    requires At(s, r, Recording)
  {
    var relay := RelayAt(s, r);
    var job := relay.batch[0];
    var t := PutRelay(s, r, if io.Done? then relay.(phase := Ready, batch := relay.batch[1..])
                            else relay.(phase := Ready, batch := [], running := false));
    t.(outbox := if io.Refused? then s.outbox
                 else s.outbox[job.id := Recorded(c, s.outbox[job.id], job.attempts + 1)])
  }

  /** The worker lets go of its delivery without acknowledging it. */
  function Release(s: State, w: nat): State
    requires w in s.workers
  {
    var h := s.workers[w];
    s.(workers := s.workers - {w}, ready := if h.live then s.ready + multiset{h.delivery} else s.ready)
  }

  function Progressed(s: State, w: nat, progress: Progress): State
    requires w in s.workers
  {
    s.(workers := s.workers[w := s.workers[w].(progress := progress)])
  }

  function CommitProjection(s: State, d: Delivery, context: Context): State {
    s.(processed := s.processed + [Processed(d.event.eventId, d.queue, context)],
       tables := Project(d.queue, d.event, context, s.tables))
  }

  /** `runOnce`: marker and projection in one transaction. Any unique violation counts as
      "already processed", whether the marker raised it or the projector did. */
  function TryRunOnce(s: State, w: nat, work: Work, context: Context): State
    requires w in s.workers
  {
    var d := s.workers[w].delivery;
    if work.Unavailable? then Progressed(s, w, Thrown)
    else if IsMarked(s.processed, d.event.eventId, d.queue) then Progressed(s, w, Settled)
    else if work.Throws? then Progressed(s, w, Thrown)
    else if work.UniqueViolation? then
      Progressed(s.(swallowed := s.swallowed + {(d.event.eventId, d.queue)}), w, Settled)
    else Progressed(CommitProjection(s, d, context), w, if work.Succeeds? then Settled else Thrown)
  }

  /** `retryOrDeadLetter`: publish first, then return so that the delivery is acknowledged. */
  function TryRepublish(c: Config, s: State, w: nat, io: Io): State
    requires w in s.workers
  {
    var d := s.workers[w].delivery;
    var t :=
      if io.Refused? then s
      else if d.retry < c.maxRetries then s.(ready := s.ready + multiset{d.(retry := d.retry + 1)})
      else s.(dead := s.dead + multiset{d});
    if io.Done? then Progressed(t, w, Settled) else Release(t, w)
  }

  predicate Doing(s: State, w: nat, progress: Progress) {
    w in s.workers && s.workers[w].progress == progress
  }

  predicate IsRelayLabel(l: Label) {
    l.Append? || l.Tick? || l.Publish? || l.Mark? || l.Record? || l.EndTick? || l.StopRelay? || l.CrashRelay?
  }

  /** A transaction of a service, or a step of a relay. */
  function RelayStep(c: Config, s: State, l: Label): State
    requires IsRelayLabel(l)
  {
    match l
    case Append(payloads) => s.(outbox := s.outbox + NewRows(payloads))
    case Tick(r, ids) =>
      var relay := RelayAt(s, r);
      if relay.running || relay.stopped || !Selectable(c, s, ids) then s
      else PutRelay(s, r, relay.(running := true, batch := Jobs(s, ids), phase := Ready))
    case Publish(r, io) => if At(s, r, Ready) then TryPublish(s, r, io) else s
    case Mark(r, io) => if At(s, r, Marking) then TryMark(s, r, io) else s
    case Record(r, io) => if At(s, r, Recording) then TryRecord(c, s, r, io) else s
    case EndTick(r) =>
      var relay := RelayAt(s, r);
      if relay.running && relay.batch == [] then PutRelay(s, r, relay.(running := false)) else s
    case StopRelay(r) => PutRelay(s, r, RelayAt(s, r).(stopped := true))
    case CrashRelay(r) => PutRelay(s, r, IDLE)
  }

  /** A step of a worker, or of the broker towards it. */
  function WorkerStep(c: Config, s: State, l: Label): State
    requires !IsRelayLabel(l)
  {
    match l
    case Receive(w, d) =>
      if w !in s.workers && d in s.ready
      then s.(ready := s.ready - multiset{d}, workers := s.workers[w := Handling(d, Started, true)]) else s
    case Detach(w) =>
      if w in s.workers && s.workers[w].live
      then s.(ready := s.ready + multiset{s.workers[w].delivery},
              workers := s.workers[w := s.workers[w].(live := false)]) else s
    case RunOnce(w, work, context) => if Doing(s, w, Started) then TryRunOnce(s, w, work, context) else s
    case Republish(w, io) => if Doing(s, w, Thrown) then TryRepublish(c, s, w, io) else s
    case Ack(w) => if Doing(s, w, Settled) then s.(workers := s.workers - {w}) else s
    case CrashWorker(w) => if w in s.workers then Release(s, w) else s
  }

  function Step(c: Config, s: State, l: Label): State {
    if IsRelayLabel(l) then RelayStep(c, s, l) else WorkerStep(c, s, l)
  }

  function Run(c: Config, s: State, ls: seq<Label>): State {
    if ls == [] then s else Step(c, Run(c, s, ls[..|ls| - 1]), ls[|ls| - 1])
  }

  // ---------------------------------------------------------------- safety

  predicate Genuine(c: Config, outbox: seq<OutboxRow>, d: Delivery) {
    d.event.eventId < |outbox| && d.event.payload == outbox[d.event.eventId].payload &&
    Bound(d.queue, RoutingKey(d.event.payload)) && d.retry <= c.maxRetries
  }

  ghost predicate MessagesOk(c: Config, s: State) {
    (forall d :: d in s.ready ==> Genuine(c, s.outbox, d)) &&
    (forall w :: w in s.workers ==> Genuine(c, s.outbox, s.workers[w].delivery)) &&
    (forall d :: d in s.dead ==> Genuine(c, s.outbox, d) && d.retry == c.maxRetries)
  }

  ghost predicate RelaysOk(s: State) {
    forall r :: r in s.relays ==> RelayOk(s.outbox, s.relays[r])
  }

  /** The markers are unique, and the tables are exactly the projections of the marked
      events, each applied once, in commit order. */
  ghost predicate AppliedOnce(outbox: seq<OutboxRow>, processed: seq<Processed>, tables: Tables) {
    LogOk(Payloads(outbox), processed) && UniqueMarkers(processed) &&
    (forall i :: 0 <= i < |processed| ==>
      Bound(processed[i].queue, RoutingKey(outbox[processed[i].eventId].payload))) &&
    tables == Replay(Payloads(outbox), processed)
  }

  ghost predicate EffectivelyOnce(s: State) {
    AppliedOnce(s.outbox, s.processed, s.tables)
  }

  ghost predicate Safe(c: Config, s: State) {
    MessagesOk(c, s) && RelaysOk(s) && EffectivelyOnce(s)
  }

  /** Outbox rows are never removed and never change their payload. */
  ghost predicate Grows(outbox: seq<OutboxRow>, later: seq<OutboxRow>) {
    |outbox| <= |later| && forall i :: 0 <= i < |outbox| ==> later[i].payload == outbox[i].payload
  }

  lemma CopiesAreGenuine(c: Config, outbox: seq<OutboxRow>, id: Id)
    requires id < |outbox|
    ensures forall d :: d in Copies(Event(id, outbox[id].payload)) ==> Genuine(c, outbox, d)
  {}

  /** What a relay's or a writer's step does to everybody else: the outbox only grows, and
      the queues only gain the copies of the row being published. */
  ghost predicate RelayEffect(s: State, t: State, l: Label) {
    Grows(s.outbox, t.outbox) &&
    t.workers == s.workers && t.dead == s.dead && t.processed == s.processed && t.tables == s.tables &&
    t.swallowed == s.swallowed &&
    (t.ready == s.ready ||
     (l.Publish? && At(s, l.r, Ready) &&
      t.ready == s.ready + Copies(Event(RelayAt(s, l.r).batch[0].id, s.outbox[RelayAt(s, l.r).batch[0].id].payload))))
  }

  lemma RelayStepHasEffect(c: Config, s: State, l: Label)
    requires IsRelayLabel(l)
    ensures RelayEffect(s, RelayStep(c, s, l), l)
  {}

  /** What a worker's step does: it leaves the outbox, the relays and the other workers
      alone, takes nothing from the dead letters, the markers or the swallowed events, and
      moves only the copy it holds. */
  ghost predicate WorkerEffect(c: Config, s: State, t: State, l: Label)
    requires !IsRelayLabel(l)
  {
    t.outbox == s.outbox && t.relays == s.relays && s.processed <= t.processed && s.swallowed <= t.swallowed &&
    (forall w :: w != l.w ==> (w in t.workers <==> w in s.workers)) &&
    (forall w :: w != l.w && w in s.workers ==> t.workers[w] == s.workers[w]) &&
    (l.w in t.workers ==>
      if l.w in s.workers then t.workers[l.w].delivery == s.workers[l.w].delivery
      else t.workers[l.w].delivery in s.ready) &&
    (forall d :: d in s.dead ==> d in t.dead) &&
    (forall d :: d in t.dead ==> d in s.dead || (HeldBy(s, l.w, d) && d.retry >= c.maxRetries)) &&
    (forall d :: d in s.ready ==> d in t.ready || (l.w in t.workers && t.workers[l.w] == Handling(d, Started, true))) &&
    (forall d :: d in t.ready ==> d in s.ready || HeldBy(s, l.w, d) || Requeued(c, s, l.w, d))
  }

  predicate HeldBy(s: State, w: nat, d: Delivery) {
    w in s.workers && s.workers[w].delivery == d
  }

  predicate Requeued(c: Config, s: State, w: nat, d: Delivery) {
    w in s.workers && s.workers[w].delivery.retry < c.maxRetries &&
    d == s.workers[w].delivery.(retry := s.workers[w].delivery.retry + 1)
  }

  lemma RunOnceHasEffect(c: Config, s: State, w: nat, work: Work, context: Context)
    requires w in s.workers
    ensures WorkerEffect(c, s, TryRunOnce(s, w, work, context), RunOnce(w, work, context))
  {}

  lemma ConfirmedRepublishHasEffect(c: Config, s: State, w: nat)
    requires w in s.workers
    ensures WorkerEffect(c, s, TryRepublish(c, s, w, Done), Republish(w, Done))
  {}

  lemma RefusedRepublishHasEffect(c: Config, s: State, w: nat)
    requires w in s.workers
    ensures WorkerEffect(c, s, TryRepublish(c, s, w, Refused), Republish(w, Refused))
  {}

  lemma UnconfirmedRetryHasEffect(c: Config, s: State, w: nat)
    requires w in s.workers && s.workers[w].delivery.retry < c.maxRetries
    ensures WorkerEffect(c, s, TryRepublish(c, s, w, Unconfirmed), Republish(w, Unconfirmed))
  {
    var d := s.workers[w].delivery;
    var back := if s.workers[w].live then multiset{d} else multiset{};
    assert TryRepublish(c, s, w, Unconfirmed).ready == s.ready + multiset{d.(retry := d.retry + 1)} + back;
  }

  lemma UnconfirmedBurialHasEffect(c: Config, s: State, w: nat)
    requires w in s.workers && s.workers[w].delivery.retry >= c.maxRetries
    ensures WorkerEffect(c, s, TryRepublish(c, s, w, Unconfirmed), Republish(w, Unconfirmed))
  {
    var d := s.workers[w].delivery;
    assert TryRepublish(c, s, w, Unconfirmed).dead == s.dead + multiset{d};
  }

  lemma ReceiveHasEffect(c: Config, s: State, l: Label)
    requires l.Receive?
    ensures WorkerEffect(c, s, WorkerStep(c, s, l), l)
  {}

  lemma DetachHasEffect(c: Config, s: State, l: Label)
    requires l.Detach?
    ensures WorkerEffect(c, s, WorkerStep(c, s, l), l)
  {}

  lemma AckHasEffect(c: Config, s: State, l: Label)
    requires l.Ack?
    ensures WorkerEffect(c, s, WorkerStep(c, s, l), l)
  {}

  lemma CrashHasEffect(c: Config, s: State, l: Label)
    requires l.CrashWorker?
    ensures WorkerEffect(c, s, WorkerStep(c, s, l), l)
  {}

  lemma WorkerStepHasEffect(c: Config, s: State, l: Label)
    requires !IsRelayLabel(l)
    ensures WorkerEffect(c, s, WorkerStep(c, s, l), l)
  {
    if l.RunOnce? {
      if Doing(s, l.w, Started) { RunOnceHasEffect(c, s, l.w, l.work, l.context); }
    } else if l.Republish? {
      if Doing(s, l.w, Thrown) {
        match l.io
        case Done => ConfirmedRepublishHasEffect(c, s, l.w);
        case Unconfirmed =>
          if s.workers[l.w].delivery.retry < c.maxRetries { UnconfirmedRetryHasEffect(c, s, l.w); }
          else { UnconfirmedBurialHasEffect(c, s, l.w); }
        case Refused => RefusedRepublishHasEffect(c, s, l.w);
      }
    } else if l.Receive? {
      ReceiveHasEffect(c, s, l);
    } else if l.Detach? {
      DetachHasEffect(c, s, l);
    } else if l.Ack? {
      AckHasEffect(c, s, l);
    } else {
      CrashHasEffect(c, s, l);
    }
  }

  lemma StepGrows(c: Config, s: State, l: Label)
    ensures Grows(s.outbox, Step(c, s, l).outbox)
  {
    if IsRelayLabel(l) { RelayStepHasEffect(c, s, l); } else { WorkerStepHasEffect(c, s, l); }
  }

  /** Workers leave the outbox and the relays alone. */
  lemma WorkerStepFrame(c: Config, s: State, l: Label)
    requires !IsRelayLabel(l)
    ensures Step(c, s, l).outbox == s.outbox && Step(c, s, l).relays == s.relays
  {
    WorkerStepHasEffect(c, s, l);
  }

  lemma RelayEffectKeepsMessages(c: Config, s: State, t: State, l: Label)
    requires MessagesOk(c, s) && RelayEffect(s, t, l)
    ensures MessagesOk(c, t)
  {
    GenuineStays(c, s, t);
    if t.ready != s.ready {
      CopiesAreGenuine(c, s.outbox, RelayAt(s, l.r).batch[0].id);
    }
  }

  lemma WorkerEffectKeepsMessages(c: Config, s: State, t: State, l: Label)
    requires MessagesOk(c, s) && !IsRelayLabel(l) && WorkerEffect(c, s, t, l)
    ensures MessagesOk(c, t)
  {
    forall w | w in t.workers ensures Genuine(c, t.outbox, t.workers[w].delivery) {
      if w != l.w { assert w in s.workers; }
    }
  }

  lemma StepKeepsMessages(c: Config, s: State, l: Label)
    requires MessagesOk(c, s)
    ensures MessagesOk(c, Step(c, s, l))
  {
    if IsRelayLabel(l) {
      RelayStepHasEffect(c, s, l);
      RelayEffectKeepsMessages(c, s, RelayStep(c, s, l), l);
    } else {
      WorkerStepHasEffect(c, s, l);
      WorkerEffectKeepsMessages(c, s, WorkerStep(c, s, l), l);
    }
  }

  lemma GenuineStays(c: Config, s: State, t: State)
    requires Grows(s.outbox, t.outbox)
    ensures forall d :: Genuine(c, s.outbox, d) ==> Genuine(c, t.outbox, d)
  {}

  predicate RelayOk(outbox: seq<OutboxRow>, relay: Relay) {
    (!relay.running ==> relay.batch == []) &&
    (forall i :: 0 <= i < |relay.batch| ==> relay.batch[i].id < |outbox|) &&
    (forall i, j :: 0 <= i < j < |relay.batch| ==> relay.batch[i].id != relay.batch[j].id)
  }

  lemma RelayStepKeepsRelays(c: Config, s: State, l: Label)
    requires RelaysOk(s) && IsRelayLabel(l)
    ensures RelaysOk(RelayStep(c, s, l))
  {
    var t := RelayStep(c, s, l);
    RelayStepHasEffect(c, s, l);
    forall r | r in t.relays ensures RelayOk(t.outbox, t.relays[r]) {
      if r in s.relays { assert RelayOk(s.outbox, s.relays[r]); }
    }
  }

  lemma StepKeepsRelays(c: Config, s: State, l: Label)
    requires RelaysOk(s)
    ensures RelaysOk(Step(c, s, l))
  {
    if IsRelayLabel(l) { RelayStepKeepsRelays(c, s, l); } else { WorkerStepHasEffect(c, s, l); }
  }

  lemma OnceSurvivesGrowth(outbox: seq<OutboxRow>, later: seq<OutboxRow>, processed: seq<Processed>, tables: Tables)
    requires AppliedOnce(outbox, processed, tables) && Grows(outbox, later)
    ensures AppliedOnce(later, processed, tables)
  {
    ReplayIgnoresLaterPayloads(Payloads(outbox), Payloads(later), processed);
  }

  lemma CommitKeepsOnce(
      c: Config, outbox: seq<OutboxRow>, processed: seq<Processed>, tables: Tables, d: Delivery, context: Context)
    requires AppliedOnce(outbox, processed, tables) && Genuine(c, outbox, d)
    requires !IsMarked(processed, d.event.eventId, d.queue)
    ensures var log := processed + [Processed(d.event.eventId, d.queue, context)];
      AppliedOnce(outbox, log, Project(d.queue, d.event, context, tables))
  {
    var log := processed + [Processed(d.event.eventId, d.queue, context)];
    assert log[..|log| - 1] == processed;
    assert Event(d.event.eventId, Payloads(outbox)[d.event.eventId]) == d.event;
  }

  /** The only step that commits a projection is `runOnce` for an unmarked event. */
  predicate Commits(s: State, l: Label) {
    l.RunOnce? && Doing(s, l.w, Started) && (l.work.Succeeds? || l.work.CommitUnconfirmed?) &&
    !IsMarked(s.processed, s.workers[l.w].delivery.event.eventId, s.workers[l.w].delivery.queue)
  }

  lemma WorkerStepCommits(c: Config, s: State, l: Label)
    ensures var t := Step(c, s, l);
      if Commits(s, l) then
        var d := s.workers[l.w].delivery;
        t.processed == s.processed + [Processed(d.event.eventId, d.queue, l.context)] &&
        t.tables == Project(d.queue, d.event, l.context, s.tables)
      else t.processed == s.processed && t.tables == s.tables
  {
    if IsRelayLabel(l) { RelayStepHasEffect(c, s, l); }
  }

  lemma StepKeepsOnce(c: Config, s: State, l: Label)
    requires MessagesOk(c, s) && EffectivelyOnce(s)
    ensures EffectivelyOnce(Step(c, s, l))
  {
    WorkerStepCommits(c, s, l);
    StepGrows(c, s, l);
    var outbox := Step(c, s, l).outbox;
    OnceSurvivesGrowth(s.outbox, outbox, s.processed, s.tables);
    if Commits(s, l) {
      assert Genuine(c, s.outbox, s.workers[l.w].delivery);
      CommitKeepsOnce(c, outbox, s.processed, s.tables, s.workers[l.w].delivery, l.context);
    }
  }

  lemma StepKeepsSafe(c: Config, s: State, l: Label)
    requires Safe(c, s)
    ensures Safe(c, Step(c, s, l))
  {
    StepKeepsMessages(c, s, l);
    StepKeepsRelays(c, s, l);
    StepKeepsOnce(c, s, l);
  }

  lemma {:induction false} RunKeepsSafe(c: Config, ls: seq<Label>)
    ensures Safe(c, Run(c, INIT, ls))
  {
    if ls == [] {
    } else {
      RunKeepsSafe(c, ls[..|ls| - 1]);
      StepKeepsSafe(c, Run(c, INIT, ls[..|ls| - 1]), ls[|ls| - 1]);
    }
  }

  // ---------------------------------------------------------------- nothing is lost

  predicate IsCopy(d: Delivery, id: Id, q: Queue) {
    d.event.eventId == id && d.queue == q
  }

  ghost predicate Queued(s: State, id: Id, q: Queue) {
    exists d :: d in s.ready && IsCopy(d, id, q)
  }

  /** A worker holds the copy and will either apply it, requeue it or give it back. */
  ghost predicate Held(s: State, id: Id, q: Queue) {
    exists w :: w in s.workers && IsCopy(s.workers[w].delivery, id, q) &&
      s.workers[w].live && !s.workers[w].progress.Settled?
  }

  ghost predicate Buried(s: State, id: Id, q: Queue) {
    exists d :: d in s.dead && IsCopy(d, id, q)
  }

  /** The event is accounted for at a queue: waiting, in hand, applied, dead-lettered, or
      dropped because its projector raised a unique violation. */
  ghost predicate Traced(s: State, id: Id, q: Queue) {
    Queued(s, id, q) || Held(s, id, q) || IsMarked(s.processed, id, q) || Buried(s, id, q) ||
    (id, q) in s.swallowed
  }

  ghost predicate Covered(s: State, id: Id) {
    id < |s.outbox| && forall q :: Bound(q, RoutingKey(s.outbox[id].payload)) ==> Traced(s, id, q)
  }

  ghost predicate NothingLost(s: State) {
    RelaysOk(s) &&
    (forall id :: 0 <= id < |s.outbox| && s.outbox[id].status.Dispatched? ==> Covered(s, id)) &&
    (forall r :: r in s.relays && At(s, r, Marking) ==> Covered(s, s.relays[r].batch[0].id))
  }

  lemma MarkersStay(log: seq<Processed>, later: seq<Processed>, id: Id, q: Queue)
    requires log <= later && IsMarked(log, id, q)
    ensures IsMarked(later, id, q)
  {
    assert forall i :: 0 <= i < |log| ==> later[i] == log[i];
  }

  lemma RelayEffectKeepsTraced(s: State, t: State, l: Label, id: Id, q: Queue)
    requires Traced(s, id, q) && RelayEffect(s, t, l)
    ensures Traced(t, id, q)
  {
    if Queued(s, id, q) {
      var d :| d in s.ready && IsCopy(d, id, q);
      assert d in t.ready;
    }
  }

  lemma WorkerEffectKeepsQueued(c: Config, s: State, t: State, l: Label, id: Id, q: Queue)
    requires !IsRelayLabel(l) && WorkerEffect(c, s, t, l) && Queued(s, id, q)
    ensures Queued(t, id, q) || Held(t, id, q)
  {
    var d :| d in s.ready && IsCopy(d, id, q);
    if d !in t.ready {
      assert IsCopy(t.workers[l.w].delivery, id, q);
    }
  }

  /** The worker's own step accounts for the copy it holds. */
  lemma HeldStaysTraced(c: Config, s: State, l: Label)
    requires !IsRelayLabel(l) && l.w in s.workers && s.workers[l.w].live && !s.workers[l.w].progress.Settled?
    ensures var d := s.workers[l.w].delivery; Traced(WorkerStep(c, s, l), d.event.eventId, d.queue)
  {
    var t := WorkerStep(c, s, l);
    var d := s.workers[l.w].delivery;
    if l.RunOnce? && Doing(s, l.w, Started) {
      RunOnceTraces(s, l.w, l.work, l.context);
    } else if l.Republish? && Doing(s, l.w, Thrown) {
      RepublishTraces(c, s, l.w, l.io);
    } else if l.Detach? || l.CrashWorker? {
      assert d in t.ready && IsCopy(d, d.event.eventId, d.queue);
    } else {
      assert t == s && IsCopy(s.workers[l.w].delivery, d.event.eventId, d.queue);
    }
  }

  lemma RunOnceTraces(s: State, w: nat, work: Work, context: Context)
    requires w in s.workers && s.workers[w].live
    ensures var d := s.workers[w].delivery; Traced(TryRunOnce(s, w, work, context), d.event.eventId, d.queue)
  {
    var d := s.workers[w].delivery;
    var t := TryRunOnce(s, w, work, context);
    if work.Unavailable? || work.Throws? {
      assert IsCopy(t.workers[w].delivery, d.event.eventId, d.queue);
    } else if t.processed != s.processed {
      assert t.processed[|s.processed|] == Processed(d.event.eventId, d.queue, context);
    }
  }

  lemma RepublishTraces(c: Config, s: State, w: nat, io: Io)
    requires w in s.workers && s.workers[w].live
    ensures var d := s.workers[w].delivery; Traced(TryRepublish(c, s, w, io), d.event.eventId, d.queue)
  {
    var d := s.workers[w].delivery;
    var t := TryRepublish(c, s, w, io);
    if !io.Done? {
      assert d in t.ready;
    } else if d.retry < c.maxRetries {
      assert d.(retry := d.retry + 1) in t.ready;
    } else {
      assert d in t.dead;
    }
  }

  lemma WorkerStepKeepsTraced(c: Config, s: State, l: Label, id: Id, q: Queue)
    requires Traced(s, id, q) && !IsRelayLabel(l)
    ensures Traced(WorkerStep(c, s, l), id, q)
  {
    var t := WorkerStep(c, s, l);
    WorkerStepHasEffect(c, s, l);
    if IsMarked(s.processed, id, q) {
      MarkersStay(s.processed, t.processed, id, q);
    } else if Queued(s, id, q) {
      WorkerEffectKeepsQueued(c, s, t, l, id, q);
    } else if Held(s, id, q) {
      var w :| w in s.workers && IsCopy(s.workers[w].delivery, id, q) &&
        s.workers[w].live && !s.workers[w].progress.Settled?;
      if w == l.w { HeldStaysTraced(c, s, l); } else { assert t.workers[w] == s.workers[w]; }
    } else if Buried(s, id, q) {
      var d :| d in s.dead && IsCopy(d, id, q);
      assert d in t.dead;
    }
  }

  lemma StepKeepsTraced(c: Config, s: State, l: Label, id: Id, q: Queue)
    requires Traced(s, id, q)
    ensures Traced(Step(c, s, l), id, q)
  {
    if IsRelayLabel(l) {
      RelayStepHasEffect(c, s, l);
      RelayEffectKeepsTraced(s, RelayStep(c, s, l), l, id, q);
    } else {
      WorkerStepKeepsTraced(c, s, l, id, q);
    }
  }

  lemma StepKeepsCovered(c: Config, s: State, l: Label, id: Id)
    requires Covered(s, id)
    ensures Covered(Step(c, s, l), id)
  {
    StepGrows(c, s, l);
    forall q | Bound(q, RoutingKey(s.outbox[id].payload)) ensures Traced(Step(c, s, l), id, q) {
      StepKeepsTraced(c, s, l, id, q);
    }
  }

  /** A publish that took effect leaves a copy in every bound queue. */
  lemma PublishCovers(s: State, r: nat, io: Io)
    requires At(s, r, Ready) && !io.Refused?
    ensures Covered(TryPublish(s, r, io), RelayAt(s, r).batch[0].id)
  {
    var id := RelayAt(s, r).batch[0].id;
    var t := TryPublish(s, r, io);
    var e := Event(id, s.outbox[id].payload);
    forall q | Bound(q, RoutingKey(e.payload)) ensures Queued(t, id, q) {
      assert Delivery(q, e, 0) in CopyFor(q, e);
      assert Delivery(q, e, 0) in t.ready && IsCopy(Delivery(q, e, 0), id, q);
    }
  }

  /** A row becomes DISPATCHED only by being marked. */
  lemma OnlyMarkDispatches(c: Config, s: State, l: Label, id: Id)
    requires IsRelayLabel(l) && id < |RelayStep(c, s, l).outbox| && RelayStep(c, s, l).outbox[id].status.Dispatched?
    ensures (id < |s.outbox| && s.outbox[id].status.Dispatched?) ||
      (l.Mark? && At(s, l.r, Marking) && RelayAt(s, l.r).batch[0].id == id)
  {}

  lemma DispatchedStaysCovered(c: Config, s: State, l: Label, id: Id)
    requires NothingLost(s) && id < |Step(c, s, l).outbox| && Step(c, s, l).outbox[id].status.Dispatched?
    ensures Covered(s, id)
  {
    if IsRelayLabel(l) { OnlyMarkDispatches(c, s, l, id); } else { WorkerStepFrame(c, s, l); }
  }

  lemma PublishMarks(s: State, p: nat, io: Io, r: nat)
    requires At(s, p, Ready) && r in TryPublish(s, p, io).relays && At(TryPublish(s, p, io), r, Marking)
    ensures (p == r && io.Done?) ||
      (r in s.relays && At(s, r, Marking) && TryPublish(s, p, io).relays[r].batch == s.relays[r].batch)
  {}

  lemma OthersDoNotMark(c: Config, s: State, l: Label, r: nat)
    requires IsRelayLabel(l) && !l.Publish? && RelaysOk(s)
    requires r in RelayStep(c, s, l).relays && At(RelayStep(c, s, l), r, Marking)
    ensures r in s.relays && At(s, r, Marking) && RelayStep(c, s, l).relays[r].batch == s.relays[r].batch
  {
    if r in s.relays { assert RelayOk(s.outbox, s.relays[r]); }
  }

  /** A relay is at its marking await only after publishing, or because it was there before. */
  lemma OnlyPublishMarks(c: Config, s: State, l: Label, r: nat)
    requires IsRelayLabel(l) && RelaysOk(s)
    requires r in RelayStep(c, s, l).relays && At(RelayStep(c, s, l), r, Marking)
    ensures (l == Publish(r, Done) && At(s, r, Ready)) ||
      (r in s.relays && At(s, r, Marking) && RelayStep(c, s, l).relays[r].batch == s.relays[r].batch)
  {
    if !l.Publish? {
      OthersDoNotMark(c, s, l, r);
    } else if At(s, l.r, Ready) {
      PublishMarks(s, l.r, l.io, r);
    }
  }

  lemma MarkingStaysCovered(c: Config, s: State, l: Label, r: nat)
    requires NothingLost(s) && r in Step(c, s, l).relays && At(Step(c, s, l), r, Marking)
    ensures Covered(Step(c, s, l), Step(c, s, l).relays[r].batch[0].id)
  {
    if !IsRelayLabel(l) {
      WorkerStepFrame(c, s, l);
      StepKeepsCovered(c, s, l, s.relays[r].batch[0].id);
    } else {
      OnlyPublishMarks(c, s, l, r);
      if l == Publish(r, Done) && At(s, r, Ready) {
        PublishCovers(s, r, Done);
      } else {
        StepKeepsCovered(c, s, l, s.relays[r].batch[0].id);
      }
    }
  }

  lemma StepKeepsNothingLost(c: Config, s: State, l: Label)
    requires NothingLost(s)
    ensures NothingLost(Step(c, s, l))
  {
    var t := Step(c, s, l);
    StepKeepsRelays(c, s, l);
    forall id | 0 <= id < |t.outbox| && t.outbox[id].status.Dispatched? ensures Covered(t, id) {
      DispatchedStaysCovered(c, s, l, id);
      StepKeepsCovered(c, s, l, id);
    }
    forall r | r in t.relays && At(t, r, Marking) ensures Covered(t, t.relays[r].batch[0].id) {
      MarkingStaysCovered(c, s, l, r);
    }
  }

  lemma {:induction false} RunKeepsNothingLost(c: Config, ls: seq<Label>)
    ensures NothingLost(Run(c, INIT, ls))
  {
    if ls == [] {
    } else {
      RunKeepsNothingLost(c, ls[..|ls| - 1]);
      StepKeepsNothingLost(c, Run(c, INIT, ls[..|ls| - 1]), ls[|ls| - 1]);
    }
  }
}
