/** One outbox relay: the row machine it drives, and the number of ticks that drains the outbox. */
module OutboxRelay {
  import opened Domain
  import opened Projections
  import opened Pipeline

  // ---------------------------------------------------------------- the row machine

  /** Only relay 0 runs. */
  predicate ByOneRelay(l: Label) {
    match l
    case Tick(r, _) => r == 0
    case Publish(r, _) => r == 0
    case Mark(r, _) => r == 0
    case Record(r, _) => r == 0
    case EndTick(r) => r == 0
    case StopRelay(r) => r == 0
    case CrashRelay(r) => r == 0
    case _ => true
  }

  ghost predicate SingleRelay(ls: seq<Label>) {
    forall i :: 0 <= i < |ls| ==> ByOneRelay(ls[i])
  }

  predicate RowOk(c: Config, row: OutboxRow) {
    (row.status.Pending? ==> row.attempts < c.maxAttempts) &&
    (row.status.Failed? ==> row.attempts == c.maxAttempts) &&
    (row.status.Dispatched? ==> row.attempts < c.maxAttempts && row.landed >= 1)
  }

  /** What the relay read about a row of its batch is still so. */
  predicate JobOk(outbox: seq<OutboxRow>, job: Job) {
    job.id < |outbox| && outbox[job.id].status.Pending? && outbox[job.id].attempts == job.attempts
  }

  ghost predicate BatchOk(outbox: seq<OutboxRow>, batch: seq<Job>) {
    (forall i :: 0 <= i < |batch| ==> JobOk(outbox, batch[i])) &&
    (forall i, j :: 0 <= i < j < |batch| ==> batch[i].id != batch[j].id)
  }

  /** The row whose failure is about to be recorded is pending, or dispatched by an update
      that reported a failure. */
  predicate FailingOk(outbox: seq<OutboxRow>, job: Job) {
    job.id < |outbox| && !outbox[job.id].status.Failed? && outbox[job.id].attempts == job.attempts
  }

  ghost predicate JobsOk(outbox: seq<OutboxRow>, relay: Relay) {
    (forall i :: 0 <= i < |relay.batch| ==>
      if i == 0 && relay.phase.Recording? then FailingOk(outbox, relay.batch[0]) else JobOk(outbox, relay.batch[i])) &&
    (forall i, j :: 0 <= i < j < |relay.batch| ==> relay.batch[i].id != relay.batch[j].id)
  }

  ghost predicate RowMachine(c: Config, s: State) {
    (forall r :: r in s.relays ==> r == 0) &&
    (forall id :: 0 <= id < |s.outbox| ==> RowOk(c, s.outbox[id])) &&
    JobsOk(s.outbox, RelayAt(s, 0)) &&
    (!RelayAt(s, 0).running ==> RelayAt(s, 0).batch == []) &&
    (At(s, 0, Marking) ==> s.outbox[RelayAt(s, 0).batch[0].id].landed >= 1)
  }

  /** The update to DISPATCHED took effect and reported a failure, which is not recorded yet. */
  predicate Reopening(s: State, id: Id) {
    At(s, 0, Recording) && RelayAt(s, 0).batch[0].id == id && s.outbox[id].status.Dispatched?
  }

  /** The row that a step of the relay works on, if it works on one. */
  predicate WorksOn(s: State, l: Label, id: Id) {
    (l.Publish? || l.Mark? || l.Record?) &&
    At(s, l.r, if l.Publish? then Ready else if l.Mark? then Marking else Recording) &&
    RelayAt(s, l.r).batch[0].id == id
  }

  /** A step of the relay changes one row at most, or adds pending rows. */
  lemma RelayStepRows(c: Config, s: State, l: Label)
    requires IsRelayLabel(l)
    ensures var t := RelayStep(c, s, l);
      |s.outbox| <= |t.outbox| &&
      (forall id :: 0 <= id < |s.outbox| && !WorksOn(s, l, id) ==> t.outbox[id] == s.outbox[id]) &&
      (forall id :: |s.outbox| <= id < |t.outbox| ==> t.outbox[id] == NewRow(t.outbox[id].payload))
  {}

  lemma WorkedRowIsOk(c: Config, s: State, l: Label, id: Id)
    requires c.maxAttempts >= 1 && ByOneRelay(l) && IsRelayLabel(l) && WorksOn(s, l, id)
    requires FailingOk(s.outbox, RelayAt(s, 0).batch[0]) && RowOk(c, s.outbox[id])
    requires At(s, 0, Marking) ==> s.outbox[id].landed >= 1
    ensures id < |RelayStep(c, s, l).outbox| && RowOk(c, RelayStep(c, s, l).outbox[id])
  {}

  /** The row worked on is pending, unless its dispatch reported a failure. */
  lemma WorkedRowIsOpen(c: Config, s: State, l: Label, id: Id)
    requires RowMachine(c, s) && ByOneRelay(l) && IsRelayLabel(l) && WorksOn(s, l, id)
    ensures id < |s.outbox| && FailingOk(s.outbox, RelayAt(s, 0).batch[0])
    ensures s.outbox[id].status.Pending? || Reopening(s, id)
  {
    var relay := RelayAt(s, 0);
    assert if relay.phase.Recording? then FailingOk(s.outbox, relay.batch[0]) else JobOk(s.outbox, relay.batch[0]);
  }

  lemma RelayStepKeepsRows(c: Config, s: State, l: Label)
    requires c.maxAttempts >= 1 && RowMachine(c, s) && ByOneRelay(l) && IsRelayLabel(l)
    ensures var t := RelayStep(c, s, l);
      |s.outbox| <= |t.outbox| && (forall id :: 0 <= id < |t.outbox| ==> RowOk(c, t.outbox[id])) &&
      (forall id :: 0 <= id < |s.outbox| && !s.outbox[id].status.Pending? && !Reopening(s, id) ==>
        t.outbox[id] == s.outbox[id])
  {
    var t := RelayStep(c, s, l);
    RelayStepRows(c, s, l);
    forall id | 0 <= id < |s.outbox| && WorksOn(s, l, id)
      ensures RowOk(c, t.outbox[id]) && (s.outbox[id].status.Pending? || Reopening(s, id))
    {
      WorkedRowIsOpen(c, s, l, id);
      WorkedRowIsOk(c, s, l, id);
    }
  }

  /** The jobs that the relay leaves alone still describe their rows. */
  lemma RestStaysOk(c: Config, s: State, l: Label)
    requires RowMachine(c, s) && ByOneRelay(l) && IsRelayLabel(l)
    ensures var t := RelayStep(c, s, l); var b := RelayAt(s, 0).batch;
      forall i :: 0 < i < |b| ==> JobOk(t.outbox, b[i])
  {
    var b := RelayAt(s, 0).batch;
    RelayStepRows(c, s, l);
    forall i | 0 < i < |b| ensures JobOk(RelayStep(c, s, l).outbox, b[i]) {
      assert JobOk(s.outbox, b[i]) && b[i].id != b[0].id;
    }
  }

  /** What is left of the batch after the step has not been touched by it. */
  lemma RelayStepKeepsBatch(c: Config, s: State, l: Label)
    requires RowMachine(c, s) && ByOneRelay(l) && IsRelayLabel(l)
    ensures var t := RelayStep(c, s, l);
      JobsOk(t.outbox, RelayAt(t, 0)) && (!RelayAt(t, 0).running ==> RelayAt(t, 0).batch == [])
  {
    var relay := RelayAt(s, 0);
    RestStaysOk(c, s, l);
    if relay.batch != [] {
      assert if relay.phase.Recording? then FailingOk(s.outbox, relay.batch[0]) else JobOk(s.outbox, relay.batch[0]);
    }
  }

  lemma RelayStepKeepsLanded(c: Config, s: State, l: Label)
    requires RowMachine(c, s) && ByOneRelay(l) && IsRelayLabel(l)
    ensures var t := RelayStep(c, s, l); At(t, 0, Marking) ==> t.outbox[RelayAt(t, 0).batch[0].id].landed >= 1
    ensures forall r :: r in RelayStep(c, s, l).relays ==> r == 0
  {}

  /** A settled row does not start to reopen. */
  lemma NoNewReopening(c: Config, s: State, l: Label, id: Id)
    requires RowMachine(c, s) && ByOneRelay(l) && IsRelayLabel(l)
    requires id < |s.outbox| && !s.outbox[id].status.Pending? && !Reopening(s, id)
    ensures !Reopening(RelayStep(c, s, l), id)
  {
    var relay := RelayAt(s, 0);
    RelayStepRows(c, s, l);
    if relay.batch != [] {
      assert if relay.phase.Recording? then FailingOk(s.outbox, relay.batch[0]) else JobOk(s.outbox, relay.batch[0]);
    }
  }

  lemma StepKeepsRowMachine(c: Config, s: State, l: Label)
    requires c.maxAttempts >= 1 && RowMachine(c, s) && ByOneRelay(l)
    ensures RowMachine(c, Step(c, s, l))
    ensures |s.outbox| <= |Step(c, s, l).outbox|
    ensures forall id :: 0 <= id < |s.outbox| && !s.outbox[id].status.Pending? && !Reopening(s, id) ==>
      Step(c, s, l).outbox[id] == s.outbox[id] && !Reopening(Step(c, s, l), id)
  {
    if IsRelayLabel(l) {
      RelayStepKeepsRows(c, s, l);
      RelayStepKeepsBatch(c, s, l);
      RelayStepKeepsLanded(c, s, l);
      forall id | 0 <= id < |s.outbox| && !s.outbox[id].status.Pending? && !Reopening(s, id)
        ensures !Reopening(RelayStep(c, s, l), id)
      {
        NoNewReopening(c, s, l, id);
      }
    } else {
      WorkerStepFrame(c, s, l);
    }
  }

  /** With one relay, in every run with any faults: a pending row has attempts left, a failed
      row has used exactly `maxAttempts`, a dispatched row has reached the queues, and a
      dispatched or failed row never changes again, unless it was dispatched by an update
      that reported a failure and that failure is about to be recorded. */
  lemma {:induction false} OneRelayRowMachine(c: Config, ls: seq<Label>, more: seq<Label>)
    requires c.maxAttempts >= 1 && SingleRelay(ls) && SingleRelay(more)
    ensures RowMachine(c, Run(c, INIT, ls))
    ensures var s := Run(c, INIT, ls); var t := Run(c, s, more);
      |s.outbox| <= |t.outbox| && RowMachine(c, t) &&
      forall id :: 0 <= id < |s.outbox| && !s.outbox[id].status.Pending? && !Reopening(s, id) ==>
        t.outbox[id] == s.outbox[id] && !Reopening(t, id)
    decreases |ls| + |more|
  {
    hide Step;
    if more != [] {
      var front := more[..|more| - 1];
      OneRelayRowMachine(c, ls, front);
      StepKeepsRowMachine(c, Run(c, Run(c, INIT, ls), front), more[|more| - 1]);
    } else if ls != [] {
      var front := ls[..|ls| - 1];
      OneRelayRowMachine(c, front, []);
      StepKeepsRowMachine(c, Run(c, INIT, front), ls[|ls| - 1]);
    }
  }

  /** The relay has handed the row to the broker and not finished with it. */
  predicate InProgress(s: State, id: Id) {
    (At(s, 0, Marking) || At(s, 0, Recording)) && RelayAt(s, 0).batch[0].id == id
  }

  /** The attempt at the row goes unrecorded: the relay crashes, or fails to record a failure,
      while it is at the row and has not dispatched it. */
  predicate Loses(s: State, l: Label, id: Id) {
    (l.CrashRelay? || (l.Record? && l.io.Refused? && At(s, 0, Recording))) &&
    InProgress(s, id) && !s.outbox[id].status.Dispatched?
  }

  /** How many attempts at the row went unrecorded in the run. */
  function Unrecorded(c: Config, ls: seq<Label>, id: Id): nat {
    if ls == [] then 0
    else
      Unrecorded(c, ls[..|ls| - 1], id) +
      (if Loses(Run(c, INIT, ls[..|ls| - 1]), ls[|ls| - 1], id) then 1 else 0)
  }

  /** Calls to the broker for the row so far: one per recorded attempt, one per unrecorded
      one, and one more for the row being worked on or dispatched. */
  predicate RowCalls(s: State, id: Id, unrecorded: nat)
    requires id < |s.outbox|
  {
    s.outbox[id].calls == s.outbox[id].attempts + unrecorded +
      (if s.outbox[id].status.Dispatched? || InProgress(s, id) then 1 else 0)
  }

  lemma WorkedRowCalls(c: Config, s: State, l: Label, id: Id, unrecorded: nat)
    requires RowMachine(c, s) && ByOneRelay(l) && IsRelayLabel(l) && WorksOn(s, l, id) && RowCalls(s, id, unrecorded)
    ensures var t := RelayStep(c, s, l);
      id < |t.outbox| && RowCalls(t, id, unrecorded + if Loses(s, l, id) then 1 else 0)
  {
    WorkedRowIsOpen(c, s, l, id);
    var b := RelayAt(s, 0).batch;
    assert forall i :: 0 < i < |b| ==> b[i].id != b[0].id;
  }

  lemma OtherRowCalls(c: Config, s: State, l: Label, id: Id)
    requires RowMachine(c, s) && ByOneRelay(l) && IsRelayLabel(l)
    requires id < |s.outbox| && !WorksOn(s, l, id)
    ensures InProgress(RelayStep(c, s, l), id) <==> InProgress(s, id) && !l.CrashRelay?
    ensures Loses(s, l, id) ==> l.CrashRelay?
  {}

  lemma NewRowIsIdle(c: Config, s: State, l: Label, id: Id)
    requires RowMachine(c, s) && IsRelayLabel(l) && |s.outbox| <= id < |RelayStep(c, s, l).outbox|
    ensures !InProgress(RelayStep(c, s, l), id) && !InProgress(s, id)
  {
    var relay := RelayAt(s, 0);
    if relay.batch != [] {
      assert if relay.phase.Recording? then FailingOk(s.outbox, relay.batch[0]) else JobOk(s.outbox, relay.batch[0]);
    }
  }

  lemma StepKeepsCalls(c: Config, s: State, l: Label, id: Id, unrecorded: nat)
    requires RowMachine(c, s) && ByOneRelay(l)
    requires if id < |s.outbox| then RowCalls(s, id, unrecorded) else unrecorded == 0
    ensures var t := Step(c, s, l); var later := unrecorded + if Loses(s, l, id) then 1 else 0;
      if id < |t.outbox| then RowCalls(t, id, later) else later == 0
  {
    if !IsRelayLabel(l) {
      WorkerStepFrame(c, s, l);
    } else {
      RelayStepRows(c, s, l);
      if id < |s.outbox| {
        if WorksOn(s, l, id) { WorkedRowCalls(c, s, l, id, unrecorded); } else { OtherRowCalls(c, s, l, id); }
      } else if id < |RelayStep(c, s, l).outbox| {
        NewRowIsIdle(c, s, l, id);
      } else {
        NoRowNoProgress(c, s, id);
      }
    }
  }

  lemma NoRowNoProgress(c: Config, s: State, id: Id)
    requires RowMachine(c, s) && id >= |s.outbox|
    ensures !InProgress(s, id)
  {}

  /** The exact count, in every run of one relay with any faults: a row has been handed to the
      broker once per recorded attempt, once per attempt that a crash or a failing update left
      unrecorded, and once more if it is dispatched or being worked on. */
  lemma {:induction false} CallsAreCounted(c: Config, ls: seq<Label>, id: Id)
    requires c.maxAttempts >= 1 && SingleRelay(ls)
    ensures var s := Run(c, INIT, ls);
      if id < |s.outbox| then RowCalls(s, id, Unrecorded(c, ls, id)) else Unrecorded(c, ls, id) == 0
  {
    hide Step;
    if ls == [] {
    } else {
      var front := ls[..|ls| - 1];
      CallsAreCounted(c, front, id);
      OneRelayRowMachine(c, front, []);
      StepKeepsCalls(c, Run(c, INIT, front), ls[|ls| - 1], id, Unrecorded(c, front, id));
    }
  }

  /** So no row is handed to the broker more than `maxAttempts` times, plus once for each of
      its own attempts that went unrecorded. */
  lemma PublishedAtMostMaxAttempts(c: Config, ls: seq<Label>, id: Id)
    requires c.maxAttempts >= 1 && SingleRelay(ls)
    ensures var outbox := Run(c, INIT, ls).outbox;
      id < |outbox| ==> outbox[id].calls <= c.maxAttempts + Unrecorded(c, ls, id)
  {
    hide Step, Run;
    CallsAreCounted(c, ls, id);
    OneRelayRowMachine(c, ls, []);
    CallsAreBounded(c, Run(c, INIT, ls), id, Unrecorded(c, ls, id));
  }

  lemma CallsAreBounded(c: Config, s: State, id: Id, unrecorded: nat)
    requires RowMachine(c, s)
    ensures id < |s.outbox| && RowCalls(s, id, unrecorded) ==> s.outbox[id].calls <= c.maxAttempts + unrecorded
  {
    var relay := RelayAt(s, 0);
    if id < |s.outbox| && InProgress(s, id) {
      assert if relay.phase.Recording? then FailingOk(s.outbox, relay.batch[0]) else JobOk(s.outbox, relay.batch[0]);
    }
  }

  // ---------------------------------------------------------------- draining

  /** Pending rows older than position `i`. */
  function Rank(outbox: seq<OutboxRow>, i: nat): nat
    requires i <= |outbox|
  {
    if i == 0 then 0 else Rank(outbox, i - 1) + if outbox[i - 1].status.Pending? then 1 else 0
  }

  function PendingCount(outbox: seq<OutboxRow>): nat {
    Rank(outbox, |outbox|)
  }

  /** The row is among the `batchSize` oldest pending ones. */
  predicate InBatch(c: Config, outbox: seq<OutboxRow>, i: nat) {
    i < |outbox| && outbox[i].status.Pending? && Rank(outbox, i) < c.batchSize
  }

  /** A row after `publishRow` with working updates. */
  function Handled(c: Config, row: OutboxRow, publish: Io): OutboxRow {
    var called := row.(calls := row.calls + 1, landed := row.landed + if publish.Refused? then 0 else 1);
    if publish.Done? then called.(status := Dispatched) else Recorded(c, called, row.attempts + 1)
  }

  /** The outbox after one whole tick with working updates: the oldest pending rows are
      handled, each with its own publish outcome. */
  function Ticked(c: Config, outbox: seq<OutboxRow>, publishes: Id -> Io): seq<OutboxRow> {
    seq(|outbox|, i requires 0 <= i < |outbox| =>
      if InBatch(c, outbox, i) then Handled(c, outbox[i], publishes(i)) else outbox[i])
  }

  function Drain(c: Config, outbox: seq<OutboxRow>, ticks: seq<Id -> Io>): seq<OutboxRow> {
    if ticks == [] then outbox else Ticked(c, Drain(c, outbox, ticks[..|ticks| - 1]), ticks[|ticks| - 1])
  }

  lemma {:induction false} RankMonotone(outbox: seq<OutboxRow>, later: seq<OutboxRow>, i: nat)
    requires |outbox| == |later| && i <= |outbox|
    requires forall k :: 0 <= k < |outbox| && later[k].status.Pending? ==> outbox[k].status.Pending?
    ensures Rank(later, i) <= Rank(outbox, i)
  {
    if i == 0 {
    } else {
      RankMonotone(outbox, later, i - 1);
    }
  }

  /** After m ticks a row of the first batch is settled or has failed at least m times. */
  ghost predicate Worn(c: Config, outbox: seq<OutboxRow>, later: seq<OutboxRow>, m: nat) {
    |outbox| == |later| &&
    (forall k :: 0 <= k < |outbox| && later[k].status.Pending? ==> outbox[k].status.Pending?) &&
    (forall k :: 0 <= k < |outbox| && later[k].status.Pending? && InBatch(c, outbox, k) ==>
      m <= later[k].attempts && (m > 0 ==> later[k].attempts < c.maxAttempts))
  }

  lemma TickWears(c: Config, outbox: seq<OutboxRow>, mid: seq<OutboxRow>, publishes: Id -> Io, m: nat)
    requires Worn(c, outbox, mid, m)
    ensures Worn(c, outbox, Ticked(c, mid, publishes), m + 1)
  {
    var later := Ticked(c, mid, publishes);
    forall k | 0 <= k < |outbox| && later[k].status.Pending?
      ensures outbox[k].status.Pending?
      ensures InBatch(c, outbox, k) ==> m + 1 <= later[k].attempts < c.maxAttempts
    {
      assert later[k] == if InBatch(c, mid, k) then Handled(c, mid[k], publishes(k)) else mid[k];
      RankMonotone(outbox, mid, k);
    }
  }

  lemma {:induction false} DrainWears(c: Config, outbox: seq<OutboxRow>, ticks: seq<Id -> Io>)
    ensures Worn(c, outbox, Drain(c, outbox, ticks), |ticks|)
  {
    if ticks == [] {
    } else {
      var front := ticks[..|ticks| - 1];
      DrainWears(c, outbox, front);
      TickWears(c, outbox, Drain(c, outbox, front), ticks[|ticks| - 1], |front|);
    }
  }

  /** If only rows outside the oldest batch are still pending, the batch has gone. */
  lemma {:induction false} RankDrops(c: Config, outbox: seq<OutboxRow>, later: seq<OutboxRow>, i: nat)
    requires |outbox| == |later| && i <= |outbox|
    requires forall k :: 0 <= k < |outbox| && later[k].status.Pending? ==>
      outbox[k].status.Pending? && !InBatch(c, outbox, k)
    ensures Rank(later, i) <= if Rank(outbox, i) <= c.batchSize then 0 else Rank(outbox, i) - c.batchSize
  {
    if i == 0 {
    } else {
      RankDrops(c, outbox, later, i - 1);
    }
  }

  lemma {:induction false} DrainSplit(c: Config, outbox: seq<OutboxRow>, a: seq<Id -> Io>, b: seq<Id -> Io>)
    ensures Drain(c, outbox, a + b) == Drain(c, Drain(c, outbox, a), b)
  {
    if b == [] {
      assert a + b == a;
    } else {
      DrainSplit(c, outbox, a, b[..|b| - 1]);
      assert (a + b)[..|a + b| - 1] == a + b[..|b| - 1];
    }
  }

  /** ceil(n / b): the number of batches of `b` that `n` rows fill. */
  function Batches(n: nat, b: nat): nat
    requires b > 0
  {
    if n == 0 then 0 else if n <= b then 1 else Batches(n - b, b) + 1
  }

  lemma {:induction false} BatchesIsCeiling(n: nat, b: nat)
    requires b > 0
    ensures Batches(n, b) * b >= n
    ensures n > 0 ==> (Batches(n, b) - 1) * b < n
  {
    if n > b {
      BatchesIsCeiling(n - b, b);
      assert (Batches(n - b, b) + 1) * b == Batches(n - b, b) * b + b;
    }
  }

  /** With working updates and no new events, N pending rows are all DISPATCHED or FAILED
      after ceil(N / batchSize) * maxAttempts ticks, whatever becomes of each publish. */
  lemma {:induction false} DrainsInTime(c: Config, outbox: seq<OutboxRow>, ticks: seq<Id -> Io>)
    requires c.batchSize >= 1 && c.maxAttempts >= 1
    requires |ticks| >= Batches(PendingCount(outbox), c.batchSize) * c.maxAttempts
    ensures |Drain(c, outbox, ticks)| == |outbox|
    ensures forall k :: 0 <= k < |outbox| ==> !Drain(c, outbox, ticks)[k].status.Pending?
    decreases PendingCount(outbox)
  {
    var n := PendingCount(outbox);
    if n == 0 {
      DrainWears(c, outbox, ticks);
      forall k | 0 <= k < |outbox| ensures !outbox[k].status.Pending? {
        if outbox[k].status.Pending? { PendingIsCounted(outbox, k, |outbox|); }
      }
    } else {
      OneRoundFits(n, c.batchSize, c.maxAttempts);
      var first, rest := ticks[..c.maxAttempts], ticks[c.maxAttempts..];
      assert ticks == first + rest;
      DrainSplit(c, outbox, first, rest);
      var later := Drain(c, outbox, first);
      DrainWears(c, outbox, first);
      RankDrops(c, outbox, later, |outbox|);
      FewerRounds(PendingCount(later), n, c.batchSize, c.maxAttempts);
      DrainsInTime(c, later, rest);
    }
  }

  lemma {:induction false} PendingIsCounted(outbox: seq<OutboxRow>, k: nat, i: nat)
    requires k < i <= |outbox| && outbox[k].status.Pending?
    ensures Rank(outbox, i) >= 1
  {
    if k < i - 1 { PendingIsCounted(outbox, k, i - 1); }
  }

  lemma OneRoundFits(n: nat, b: nat, m: nat)
    requires n >= 1 && b >= 1
    ensures Batches(n, b) * m >= m
  {
    assert Batches(n, b) >= 1;
  }

  lemma {:induction false} BatchesMonotone(n: nat, k: nat, b: nat)
    requires b >= 1 && n <= k
    ensures Batches(n, b) <= Batches(k, b)
  {
    if n > b { BatchesMonotone(n - b, k - b, b); }
  }

  lemma FewerRounds(n: nat, before: nat, b: nat, m: nat)
    requires b >= 1 && before >= 1 && n <= if before <= b then 0 else before - b
    ensures Batches(n, b) * m <= Batches(before, b) * m - m
  {
    if before > b { BatchesMonotone(n, before - b, b); }
    OneFewer(Batches(n, b), Batches(before, b), m);
  }

  lemma OneFewer(x: nat, y: nat, m: nat)
    requires x + 1 <= y
    ensures x * m <= y * m - m
  {
    assert (x + 1) * m <= y * m;
  }
}
