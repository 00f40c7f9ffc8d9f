/** When a settled outbox row can change its status again, for any number of relays. */
module Reopening {
  import opened Domain
  import opened Projections
  import opened Pipeline
  import opened OutboxRelay
  import opened OutboxRelayService

  // ---------------------------------------------------------------- jobs for a settled row

  /** The job is past its publish and its update, and recording its failure leaves the row FAILED. */
  predicate Spent(c: Config, outbox: seq<OutboxRow>, relay: Relay, k: nat)
    requires k < |relay.batch|
  {
    k == 0 && relay.phase.Recording? && relay.batch[0].id < |outbox| &&
    outbox[relay.batch[0].id].status.Failed? && relay.batch[0].attempts + 1 >= c.maxAttempts
  }

  predicate HasLiveJob(c: Config, outbox: seq<OutboxRow>, relay: Relay, id: Id) {
    exists k :: 0 <= k < |relay.batch| && relay.batch[k].id == id && !Spent(c, outbox, relay, k)
  }

  /** Some relay's batch still holds a job for the row that is not spent. */
  ghost predicate Pursued(c: Config, s: State, id: Id) {
    exists r :: r in s.relays && HasLiveJob(c, s.outbox, s.relays[r], id)
  }

  /** The row is settled, and no relay pursues it. */
  ghost predicate Closed(c: Config, s: State, id: Id) {
    id < |s.outbox| && !s.outbox[id].status.Pending? && !Pursued(c, s, id)
  }

  // ---------------------------------------------------------------- closed rows stay closed

  lemma LiveJobStays(c: Config, s: State, t: State, r: nat, id: Id)
    requires r in s.relays && r in t.relays && t.relays[r] == s.relays[r]
    requires id < |s.outbox| && id < |t.outbox| && t.outbox[id].status == s.outbox[id].status
    ensures HasLiveJob(c, t.outbox, t.relays[r], id) ==> HasLiveJob(c, s.outbox, s.relays[r], id)
  {
    var relay := s.relays[r];
    if HasLiveJob(c, t.outbox, relay, id) {
      var k :| 0 <= k < |relay.batch| && relay.batch[k].id == id && !Spent(c, t.outbox, relay, k);
      assert !Spent(c, s.outbox, relay, k);
    }
  }

  /** A closed row is not the head of a batch, except for a spent job. */
  lemma HeadIsSpent(c: Config, s: State, r: nat, phase: Phase, id: Id)
    requires Closed(c, s, id) && At(s, r, phase) && RelayAt(s, r).batch[0].id == id
    ensures r in s.relays && Spent(c, s.outbox, s.relays[r], 0)
  {}

  lemma StepKeepsStatus(c: Config, s: State, l: Label, id: Id)
    requires Closed(c, s, id) && IsRelayLabel(l)
    ensures var t := RelayStep(c, s, l); id < |t.outbox| && t.outbox[id].status == s.outbox[id].status
  {
    RelayStepRows(c, s, l);
    if WorksOn(s, l, id) {
      HeadIsSpent(c, s, l.r, if l.Publish? then Ready else if l.Mark? then Marking else Recording, id);
    }
  }

  /** A job in the batch after the step was in the batch before it, unless a tick has read it. */
  lemma JobsComeFrom(c: Config, s: State, l: Label, k: nat)
    requires IsRelayLabel(l) && !l.Append? && l.r in RelayStep(c, s, l).relays
    requires k < |RelayStep(c, s, l).relays[l.r].batch|
    ensures var job := RelayStep(c, s, l).relays[l.r].batch[k]; var was := RelayAt(s, l.r);
      (l.Tick? && job.id < |s.outbox| && s.outbox[job.id].status.Pending?) ||
      (k < |was.batch| && was.batch[k] == job &&
        (k == 0 && was.phase.Recording? ==> RelayStep(c, s, l).relays[l.r].phase.Recording?)) ||
      (k + 1 < |was.batch| && was.batch[k + 1] == job)
  {}

  lemma NoLiveJobBehind(c: Config, outbox: seq<OutboxRow>, relay: Relay, id: Id)
    requires !HasLiveJob(c, outbox, relay, id)
    ensures forall k :: 0 < k < |relay.batch| ==> relay.batch[k].id != id
  {
    assert forall k :: 0 < k < |relay.batch| ==> !Spent(c, outbox, relay, k);
  }

  lemma MovedRelayStaysDone(c: Config, s: State, l: Label, id: Id)
    requires Closed(c, s, id) && IsRelayLabel(l) && !l.Append? && l.r in RelayStep(c, s, l).relays
    ensures !HasLiveJob(c, RelayStep(c, s, l).outbox, RelayStep(c, s, l).relays[l.r], id)
  {
    var t := RelayStep(c, s, l);
    StepKeepsStatus(c, s, l, id);
    forall k | 0 <= k < |t.relays[l.r].batch| && t.relays[l.r].batch[k].id == id
      ensures Spent(c, t.outbox, t.relays[l.r], k)
    {
      JobsComeFrom(c, s, l, k);
      var was := RelayAt(s, l.r);
      assert l.r in s.relays && !HasLiveJob(c, s.outbox, was, id);
      NoLiveJobBehind(c, s.outbox, was, id);
      assert Spent(c, s.outbox, was, k);
    }
  }

  lemma StepKeepsClosed(c: Config, s: State, l: Label, id: Id)
    requires Closed(c, s, id)
    ensures Closed(c, Step(c, s, l), id)
    ensures Step(c, s, l).outbox[id].status == s.outbox[id].status
  {
    var t := Step(c, s, l);
    if IsRelayLabel(l) {
      StepKeepsStatus(c, s, l, id);
      forall r | r in t.relays ensures !HasLiveJob(c, t.outbox, t.relays[r], id) {
        if !l.Append? && r == l.r {
          MovedRelayStaysDone(c, s, l, id);
        } else {
          OtherRelaysStay(c, s, l, r);
          LiveJobStays(c, s, t, r, id);
        }
      }
    } else {
      WorkerStepFrame(c, s, l);
    }
  }

  lemma OtherRelaysStay(c: Config, s: State, l: Label, r: nat)
    requires IsRelayLabel(l) && (l.Append? || r != l.r)
    ensures r in RelayStep(c, s, l).relays <==> r in s.relays
    ensures r in s.relays ==> RelayStep(c, s, l).relays[r] == s.relays[r]
  {}

  lemma {:induction false} RunKeepsClosed(c: Config, s: State, more: seq<Label>, id: Id)
    requires Closed(c, s, id)
    ensures Closed(c, Run(c, s, more), id)
    ensures Run(c, s, more).outbox[id].status == s.outbox[id].status
  {
    hide Step;
    if more == [] {
    } else {
      RunKeepsClosed(c, s, more[..|more| - 1], id);
      StepKeepsClosed(c, Run(c, s, more[..|more| - 1]), more[|more| - 1], id);
    }
  }

  // ---------------------------------------------------------------- pursued rows can change

  ghost predicate Changes(c: Config, s: State, more: seq<Label>, id: Id)
    requires id < |s.outbox|
  {
    id < |Run(c, s, more).outbox| && Run(c, s, more).outbox[id].status != s.outbox[id].status
  }

  /** Relay `r` holds a job for the row at place `k` of its batch. */
  ghost predicate HoldsJob(s: State, r: nat, k: nat, id: Id) {
    r in s.relays && RelayOk(s.outbox, s.relays[r]) && k < |s.relays[r].batch| && s.relays[r].batch[k].id == id
  }

  /** What one await of the relay does to its first row. */
  lemma PublishAwait(c: Config, s: State, r: nat, io: Io, id: Id)
    requires HoldsJob(s, r, 0, id) && s.relays[r].phase.Ready?
    ensures var t := Step(c, s, Publish(r, io));
      HoldsJob(t, r, 0, id) && t.relays[r] == s.relays[r].(phase := if io.Done? then Marking else Recording) &&
      |t.outbox| == |s.outbox| && t.outbox[id].status == s.outbox[id].status &&
      forall i :: 0 <= i < |s.outbox| && i != id ==> t.outbox[i] == s.outbox[i]
  {}

  lemma MarkAwait(c: Config, s: State, r: nat, io: Io, id: Id)
    requires HoldsJob(s, r, 0, id) && s.relays[r].phase.Marking?
    ensures var t := Step(c, s, Mark(r, io));
      |t.outbox| == |s.outbox| &&
      (forall i :: 0 <= i < |s.outbox| && i != id ==> t.outbox[i] == s.outbox[i]) &&
      r in t.relays &&
      (io.Done? ==>
        (t.outbox[id].status.Dispatched? &&
         t.relays[r] == s.relays[r].(phase := Ready, batch := s.relays[r].batch[1..]))) &&
      (io.Refused? ==> t.outbox == s.outbox && t.relays[r] == s.relays[r].(phase := Recording))
  {}

  lemma RecordAwait(c: Config, s: State, r: nat, id: Id)
    requires HoldsJob(s, r, 0, id) && s.relays[r].phase.Recording?
    ensures var t := Step(c, s, Record(r, Done)); var job := s.relays[r].batch[0];
      |t.outbox| == |s.outbox| &&
      (forall i :: 0 <= i < |s.outbox| && i != id ==> t.outbox[i] == s.outbox[i]) &&
      r in t.relays && t.relays[r] == s.relays[r].(phase := Ready, batch := s.relays[r].batch[1..]) &&
      t.outbox[id].status == if job.attempts + 1 >= c.maxAttempts then Failed else Pending
  {}

  /** The relay can always get its first row out of its way. */
  lemma HeadFinishes(c: Config, s: State, r: nat) returns (more: seq<Label>)
    requires r in s.relays && RelayOk(s.outbox, s.relays[r]) && s.relays[r].batch != []
    ensures var t := Run(c, s, more); var id := s.relays[r].batch[0].id;
      |t.outbox| == |s.outbox| && (forall i :: 0 <= i < |s.outbox| && i != id ==> t.outbox[i] == s.outbox[i]) &&
      r in t.relays && t.relays[r] == s.relays[r].(phase := Ready, batch := s.relays[r].batch[1..])
  {
    hide Step;
    var id := s.relays[r].batch[0].id;
    match s.relays[r].phase
    case Ready =>
      more := [Publish(r, Refused), Record(r, Done)];
      PublishAwait(c, s, r, Refused, id);
      RecordAwait(c, Step(c, s, Publish(r, Refused)), r, id);
      RunTwo(c, s, Publish(r, Refused), Record(r, Done));
    case Marking =>
      more := [Mark(r, Done)];
      MarkAwait(c, s, r, Done, id);
      RunOne(c, s, Mark(r, Done));
    case Recording =>
      more := [Record(r, Done)];
      RecordAwait(c, s, r, id);
      RunOne(c, s, Record(r, Done));
  }

  /** A live job at the head of a batch can change its row's status. */
  lemma HeadChanges(c: Config, s: State, r: nat, id: Id) returns (more: seq<Label>)
    requires HoldsJob(s, r, 0, id) && !s.outbox[id].status.Pending? && !Spent(c, s.outbox, s.relays[r], 0)
    ensures Changes(c, s, more, id)
  {
    hide Step;
    var failed := s.outbox[id].status.Failed?;
    match s.relays[r].phase
    case Ready =>
      if failed {
        more := [Publish(r, Done), Mark(r, Done)];
        PublishAwait(c, s, r, Done, id);
        MarkAwait(c, Step(c, s, Publish(r, Done)), r, Done, id);
        RunTwo(c, s, Publish(r, Done), Mark(r, Done));
      } else {
        more := [Publish(r, Refused), Record(r, Done)];
        PublishAwait(c, s, r, Refused, id);
        RecordAwait(c, Step(c, s, Publish(r, Refused)), r, id);
        RunTwo(c, s, Publish(r, Refused), Record(r, Done));
      }
    case Marking =>
      if failed {
        more := [Mark(r, Done)];
        MarkAwait(c, s, r, Done, id);
        RunOne(c, s, Mark(r, Done));
      } else {
        more := [Mark(r, Refused), Record(r, Done)];
        MarkAwait(c, s, r, Refused, id);
        RecordAwait(c, Step(c, s, Mark(r, Refused)), r, id);
        RunTwo(c, s, Mark(r, Refused), Record(r, Done));
      }
    case Recording =>
      more := [Record(r, Done)];
      RecordAwait(c, s, r, id);
      RunOne(c, s, Record(r, Done));
  }

  /** A live job anywhere in a batch can change its row's status. */
  lemma {:induction false} LiveJobChanges(c: Config, s: State, r: nat, k: nat, id: Id) returns (more: seq<Label>)
    requires HoldsJob(s, r, k, id) && !s.outbox[id].status.Pending? && !Spent(c, s.outbox, s.relays[r], k)
    ensures Changes(c, s, more, id)
    decreases k
  {
    hide Step;
    if k == 0 {
      more := HeadChanges(c, s, r, id);
    } else {
      var relay := s.relays[r];
      var first := HeadFinishes(c, s, r);
      var t := Run(c, s, first);
      assert relay.batch[0].id != id;
      assert t.relays[r].batch[k - 1] == relay.batch[k];
      RestStaysInOrder(s.outbox, t.outbox, relay);
      var rest := LiveJobChanges(c, t, r, k - 1, id);
      more := first + rest;
      RunConcat(c, s, first, rest);
    }
  }

  lemma RestStaysInOrder(outbox: seq<OutboxRow>, later: seq<OutboxRow>, relay: Relay)
    requires RelayOk(outbox, relay) && relay.batch != [] && |later| == |outbox|
    ensures RelayOk(later, relay.(phase := Ready, batch := relay.batch[1..]))
  {}

  // ---------------------------------------------------------------- the exact condition

  /** In every reachable state, with any number of relays and any faults: the status of a
      dispatched or failed row changes in some continuation if and only if some relay's
      batch still holds a job for the row that is not spent. */
  lemma SettledRowsChangeIff(c: Config, ls: seq<Label>, id: Id)
    requires id < |Run(c, INIT, ls).outbox| && !Run(c, INIT, ls).outbox[id].status.Pending?
    ensures (exists more :: Changes(c, Run(c, INIT, ls), more, id)) <==> Pursued(c, Run(c, INIT, ls), id)
  {
    hide Step, Run;
    var s := Run(c, INIT, ls);
    if Pursued(c, s, id) {
      RunKeepsSafe(c, ls);
      var r :| r in s.relays && HasLiveJob(c, s.outbox, s.relays[r], id);
      var k :| 0 <= k < |s.relays[r].batch| && s.relays[r].batch[k].id == id && !Spent(c, s.outbox, s.relays[r], k);
      assert RelayOk(s.outbox, s.relays[r]);
      var more := LiveJobChanges(c, s, r, k, id);
    } else {
      forall more ensures !Changes(c, s, more, id) { RunKeepsClosed(c, s, more, id); }
    }
  }

  // ---------------------------------------------------------------- one relay

  /** One relay pursues a settled row exactly when it is about to record the failure that its
      update to DISPATCHED has reported. */
  lemma OneRelayPursuesIff(c: Config, s: State, id: Id)
    requires RowMachine(c, s) && id < |s.outbox| && !s.outbox[id].status.Pending?
    ensures Pursued(c, s, id) <==> Reopening(s, id)
  {
    var relay := RelayAt(s, 0);
    if Reopening(s, id) {
      assert !Spent(c, s.outbox, relay, 0);
      assert HasLiveJob(c, s.outbox, s.relays[0], id);
    } else {
      assert forall k :: 0 < k < |relay.batch| ==> JobOk(s.outbox, relay.batch[k]);
      assert relay.batch != [] && !relay.phase.Recording? ==> JobOk(s.outbox, relay.batch[0]);
      assert relay.batch != [] ==> relay.running;
      assert !HasLiveJob(c, s.outbox, relay, id);
    }
  }

  /** With one relay a settled row's status can change if and only if the update that made it
      DISPATCHED reported a failure, which is about to be recorded. */
  lemma OneRelaySettledRowsChangeIff(c: Config, ls: seq<Label>, id: Id)
    requires c.maxAttempts >= 1 && SingleRelay(ls)
    ensures var s := Run(c, INIT, ls);
      id < |s.outbox| && !s.outbox[id].status.Pending? ==>
        ((exists more :: Changes(c, s, more, id)) <==> Reopening(s, id))
  {
    hide Step, Run;
    var s := Run(c, INIT, ls);
    if id < |s.outbox| && !s.outbox[id].status.Pending? {
      SettledRowsChangeIff(c, ls, id);
      OneRelayRowMachine(c, ls, []);
      OneRelayPursuesIff(c, s, id);
    }
  }

  /** A run of one relay that dispatches a row and opens it again: the update to DISPATCHED
      takes effect and reports a failure. */
  lemma OneRelayReopens(c: Config, p: Payload) returns (ls: seq<Label>, more: seq<Label>)
    requires c.batchSize >= 1 && c.maxAttempts >= 2
    ensures SingleRelay(ls + more)
    ensures |Run(c, INIT, ls).outbox| == 1 && Run(c, INIT, ls).outbox[0].status.Dispatched?
    ensures |Run(c, INIT, ls + more).outbox| == 1 && Run(c, INIT, ls + more).outbox[0].status.Pending?
  {
    hide Step, Run;
    ls := [Append([p]), Tick(0, [0]), Publish(0, Done), Mark(0, Unconfirmed)];
    more := [Record(0, Done)];
    var read := [Append([p]), Tick(0, [0])];
    var s := OneRelayReads(c, p);
    assert ls == read + [Publish(0, Done), Mark(0, Unconfirmed)];
    RunConcat(c, INIT, read, [Publish(0, Done), Mark(0, Unconfirmed)]);
    RunTwo(c, s, Publish(0, Done), Mark(0, Unconfirmed));
    RunConcat(c, INIT, ls, more);
    RunOne(c, Run(c, INIT, ls), Record(0, Done));
    UnconfirmedMarkReopens(c, s);
  }

  lemma OneRelayReads(c: Config, p: Payload) returns (s: State)
    requires c.batchSize >= 1
    ensures s == Run(c, INIT, [Append([p]), Tick(0, [0])])
    ensures Holds(s, 0) && s.outbox[0].status.Pending?
  {
    RunTwo(c, INIT, Append([p]), Tick(0, [0]));
    var t := Step(c, INIT, Append([p]));
    assert t.outbox == [NewRow(p)] && t.relays == map[];
    Reads(c, t, 0);
    s := Step(c, t, Tick(0, [0]));
  }

  lemma UnconfirmedMarkReopens(c: Config, s: State)
    requires Holds(s, 0) && s.outbox[0].status.Pending? && c.maxAttempts >= 2
    ensures var t := Step(c, Step(c, s, Publish(0, Done)), Mark(0, Unconfirmed));
      |t.outbox| == 1 && t.outbox[0].status.Dispatched? &&
      var u := Step(c, t, Record(0, Done)); |u.outbox| == 1 && u.outbox[0].status.Pending?
  {
    PublishedRow(c, s, RowFaults(Done, Unconfirmed, Done));
    FailedMark(c, Step(c, s, Publish(0, Done)), Unconfirmed);
  }

  /** A job alone is not enough: a row can be FAILED for good while another relay's batch
      still holds a job for it. */
  lemma SpentJobsChangeNothing(c: Config, p: Payload) returns (ls: seq<Label>)
    requires c.batchSize >= 1 && c.maxAttempts == 1
    ensures var s := Run(c, INIT, ls);
      |s.outbox| == 1 && s.outbox[0].status.Failed? && 1 in s.relays && HasJob(s.relays[1].batch, 0) &&
      forall more :: !Changes(c, s, more, 0)
  {
    hide Step, Run;
    var read := BothRelaysRead(c, p);
    var rest := [Publish(0, Refused), Publish(1, Refused), Record(0, Done)];
    var s := Run(c, INIT, read);
    ls := read + rest;
    RunConcat(c, INIT, read, rest);
    RunThree(c, s, Publish(0, Refused), Publish(1, Refused), Record(0, Done));
    ZeroFails(c, s);
    var t := Run(c, INIT, ls);
    OnlySpent(c, t);
    forall more ensures !Changes(c, t, more, 0) { RunKeepsClosed(c, t, more, 0); }
  }

  /** Relay 0 has failed the row, and relay 1 is about to record the same. */
  ghost predicate BothFail(s: State) {
    |s.outbox| == 1 && s.outbox[0].status.Failed? && s.relays.Keys == {0, 1} &&
    s.relays[0].batch == [] && s.relays[1] == HOLDING.(phase := Recording)
  }

  lemma ZeroFails(c: Config, s: State)
    requires Holds(s, 0) && Holds(s, 1) && c.maxAttempts == 1 && s.relays.Keys == {0, 1}
    ensures BothFail(Step(c, Step(c, Step(c, s, Publish(0, Refused)), Publish(1, Refused)), Record(0, Done)))
  {}

  lemma OnlySpent(c: Config, t: State)
    requires BothFail(t) && c.maxAttempts == 1
    ensures 1 in t.relays && HasJob(t.relays[1].batch, 0) && Closed(c, t, 0)
  {
    assert t.relays[1].batch[0].id == 0;
    assert !HasLiveJob(c, t.outbox, t.relays[0], 0);
    assert !HasLiveJob(c, t.outbox, t.relays[1], 0);
  }
}
