/** `IdempotencyService`, `ConsumerRunner` and the projectors in their own form, each call
    proved to take exactly the pipeline's worker steps; and the termination and
    conservation of bounded retries. */
module Consumers {
  import opened Domain
  import opened Projections
  import opened Pipeline
  import opened OutboxRelayService

  // ---------------------------------------------------------------- bounded retries

  /** One queue worked off serially, with the fate of each original message. */
  datatype Backlog = Backlog(queue: seq<Delivery>, settled: seq<Delivery>, dead: seq<Delivery>)

  /** Handling the k-th copy: `runOnce` returns and the copy is settled, or it throws and the
      copy is requeued or dead-lettered. */
  datatype Turn = Turn(k: nat, fails: bool)

  function Drop<T>(s: seq<T>, k: nat): seq<T>
    requires k < |s|
  {
    s[..k] + s[k + 1..]
  }

  lemma DropRemovesOne<T>(s: seq<T>, k: nat)
    requires k < |s|
    ensures multiset(s) == multiset(Drop(s, k)) + multiset{s[k]}
  {
    assert s == s[..k] + [s[k]] + s[k + 1..];
  }

  function Pick(queue: seq<Delivery>, k: nat): (i: nat)
    requires queue != []
    ensures i < |queue|
  {
    if k < |queue| then k else 0
  }

  function SettleAt(b: Backlog, k: nat): Backlog
    requires k < |b.queue|
  {
    b.(queue := Drop(b.queue, k), settled := b.settled + [b.queue[k]])
  }

  function RetryAt(b: Backlog, k: nat): Backlog
    requires k < |b.queue|
  {
    b.(queue := Drop(b.queue, k) + [b.queue[k].(retry := b.queue[k].retry + 1)])
  }

  function BuryAt(b: Backlog, k: nat): Backlog
    requires k < |b.queue|
  {
    b.(queue := Drop(b.queue, k), dead := b.dead + [b.queue[k]])
  }

  /** With reliable publishing and no redelivery; an empty queue has nothing to handle. */
  function Handle(c: Config, b: Backlog, t: Turn): Backlog {
    if b.queue == [] then b
    else
      var k := Pick(b.queue, t.k);
      if !t.fails then SettleAt(b, k)
      else if b.queue[k].retry < c.maxRetries then RetryAt(b, k)
      else BuryAt(b, k)
  }

  function HandleAll(c: Config, b: Backlog, turns: seq<Turn>): Backlog {
    if turns == [] then b else Handle(c, HandleAll(c, b, turns[..|turns| - 1]), turns[|turns| - 1])
  }

  ghost predicate WithinLimit(c: Config, queue: seq<Delivery>) {
    forall i :: 0 <= i < |queue| ==> queue[i].retry <= c.maxRetries
  }

  /** The handles that the copies of a queue can still cause, at most. */
  function Weight(c: Config, queue: seq<Delivery>): int {
    if queue == [] then 0
    else Weight(c, queue[..|queue| - 1]) + c.maxRetries + 1 - queue[|queue| - 1].retry
  }

  lemma {:induction false} WeightSplit(c: Config, a: seq<Delivery>, b: seq<Delivery>)
    ensures Weight(c, a + b) == Weight(c, a) + Weight(c, b)
  {
    if b == [] {
      assert a + b == a;
    } else {
      WeightSplit(c, a, b[..|b| - 1]);
      assert (a + b)[..|a + b| - 1] == a + b[..|b| - 1];
    }
  }

  lemma WeightOfOne(c: Config, d: Delivery)
    ensures Weight(c, [d]) == c.maxRetries + 1 - d.retry
  {
    assert [d][..0] == [];
  }

  lemma {:induction false} WeightBounds(c: Config, queue: seq<Delivery>)
    requires WithinLimit(c, queue)
    ensures |queue| <= Weight(c, queue) <= |queue| * (c.maxRetries + 1)
  {
    if queue == [] {
    } else {
      WeightBounds(c, queue[..|queue| - 1]);
      assert |queue| * (c.maxRetries + 1) == (|queue| - 1) * (c.maxRetries + 1) + (c.maxRetries + 1);
    }
  }

  /** The copy as the exchange delivered it: its queue, its event, and no retry yet. */
  function Original(d: Delivery): Delivery {
    d.(retry := 0)
  }

  function Originals(queue: seq<Delivery>): (r: seq<Delivery>)
    ensures |r| == |queue| && forall i :: 0 <= i < |r| ==> r[i] == Original(queue[i])
  {
    seq(|queue|, i requires 0 <= i < |queue| => Original(queue[i]))
  }

  /** Every original copy, wherever it is by now. */
  ghost function Census(b: Backlog): multiset<Delivery> {
    multiset(Originals(b.queue)) + multiset(Originals(b.settled)) + multiset(Originals(b.dead))
  }

  lemma WeightOfRest(c: Config, queue: seq<Delivery>, k: nat)
    requires k < |queue|
    ensures Weight(c, Drop(queue, k)) == Weight(c, queue) - (c.maxRetries + 1 - queue[k].retry)
  {
    var a, d, b := queue[..k], queue[k], queue[k + 1..];
    assert queue == a + [d] + b;
    WeightSplit(c, a + [d], b);
    WeightSplit(c, a, [d]);
    WeightSplit(c, a, b);
    WeightOfOne(c, d);
  }

  lemma RetryWeight(c: Config, b: Backlog, k: nat)
    requires k < |b.queue|
    ensures Weight(c, RetryAt(b, k).queue) == Weight(c, b.queue) - 1
  {
    var again := b.queue[k].(retry := b.queue[k].retry + 1);
    WeightOfRest(c, b.queue, k);
    WeightSplit(c, Drop(b.queue, k), [again]);
    WeightOfOne(c, again);
  }

  lemma HandleStaysWithinLimit(c: Config, b: Backlog, t: Turn)
    requires WithinLimit(c, b.queue)
    ensures WithinLimit(c, Handle(c, b, t).queue)
  {}

  lemma HandleProgresses(c: Config, b: Backlog, t: Turn)
    requires WithinLimit(c, b.queue) && b.queue != []
    ensures Weight(c, Handle(c, b, t).queue) < Weight(c, b.queue)
  {
    var k := Pick(b.queue, t.k);
    WeightOfRest(c, b.queue, k);
    RetryWeight(c, b, k);
  }

  lemma OriginalsOfRest(queue: seq<Delivery>, k: nat)
    requires k < |queue|
    ensures multiset(Originals(queue)) == multiset(Originals(Drop(queue, k))) + multiset{Original(queue[k])}
  {
    assert Originals(Drop(queue, k)) == Drop(Originals(queue), k);
    DropRemovesOne(Originals(queue), k);
  }

  lemma OriginalsSnoc(queue: seq<Delivery>, d: Delivery)
    ensures multiset(Originals(queue + [d])) == multiset(Originals(queue)) + multiset{Original(d)}
  {
    assert Originals(queue + [d]) == Originals(queue) + [Original(d)];
  }

  lemma SettledConserves(b: Backlog, k: nat)
    requires k < |b.queue|
    ensures Census(SettleAt(b, k)) == Census(b)
  {
    OriginalsOfRest(b.queue, k);
    OriginalsSnoc(b.settled, b.queue[k]);
  }

  lemma BurialConserves(b: Backlog, k: nat)
    requires k < |b.queue|
    ensures Census(BuryAt(b, k)) == Census(b)
  {
    OriginalsOfRest(b.queue, k);
    OriginalsSnoc(b.dead, b.queue[k]);
  }

  lemma RetryKeepsOriginals(queue: seq<Delivery>, k: nat, again: Delivery)
    requires k < |queue| && Original(again) == Original(queue[k])
    ensures multiset(Originals(Drop(queue, k) + [again])) == multiset(Originals(queue))
  {
    OriginalsOfRest(queue, k);
    OriginalsSnoc(Drop(queue, k), again);
  }

  lemma RetryConserves(b: Backlog, k: nat)
    requires k < |b.queue|
    ensures Census(RetryAt(b, k)) == Census(b)
  {
    RetryKeepsOriginals(b.queue, k, b.queue[k].(retry := b.queue[k].retry + 1));
  }

  lemma HandleConserves(c: Config, b: Backlog, t: Turn)
    ensures Census(Handle(c, b, t)) == Census(b)
  {
    if b.queue != [] {
      var k := Pick(b.queue, t.k);
      if !t.fails {
        SettledConserves(b, k);
      } else if b.queue[k].retry < c.maxRetries {
        RetryConserves(b, k);
      } else {
        BurialConserves(b, k);
      }
    }
  }

  lemma {:induction false} HandleAllProgresses(c: Config, b: Backlog, turns: seq<Turn>)
    requires WithinLimit(c, b.queue)
    ensures var e := HandleAll(c, b, turns);
      WithinLimit(c, e.queue) && Census(e) == Census(b) &&
      (e.queue == [] || Weight(c, e.queue) + |turns| <= Weight(c, b.queue))
  {
    if turns == [] {
    } else {
      var mid := HandleAll(c, b, turns[..|turns| - 1]);
      HandleAllProgresses(c, b, turns[..|turns| - 1]);
      HandleStaysWithinLimit(c, mid, turns[|turns| - 1]);
      if mid.queue != [] { HandleProgresses(c, mid, turns[|turns| - 1]); }
      HandleConserves(c, mid, turns[|turns| - 1]);
    }
  }

  lemma EnoughTurns(c: Config, queue: seq<Delivery>, turns: seq<Turn>)
    requires WithinLimit(c, queue)
    ensures var e := HandleAll(c, Backlog(queue, [], []), turns);
      WithinLimit(c, e.queue) &&
      (|turns| >= |queue| * (c.maxRetries + 1) ==>
        e.queue == [] && multiset(Originals(e.settled)) + multiset(Originals(e.dead)) == multiset(Originals(queue)))
  {
    var b := Backlog(queue, [], []);
    HandleAllProgresses(c, b, turns);
    WeightBounds(c, queue);
    var e := HandleAll(c, b, turns);
    WeightBounds(c, e.queue);
    assert Originals([]) == [];
    assert Census(b) == multiset(Originals(queue));
    if e.queue == [] { assert Originals(e.queue) == []; }
  }

  /** n fresh messages are all settled or dead-lettered after at most n * (maxRetries + 1)
      handles, in whatever order copies are picked and whatever fails; each original ends
      in exactly one of the two, and no retry header exceeds `maxRetries` on the way. */
  lemma RetriesTerminateAndConserve(c: Config, queue: seq<Delivery>, turns: seq<Turn>)
    requires forall i :: 0 <= i < |queue| ==> queue[i].retry == 0
    ensures WithinLimit(c, HandleAll(c, Backlog(queue, [], []), turns).queue)
    ensures |turns| >= |queue| * (c.maxRetries + 1) ==>
      var e := HandleAll(c, Backlog(queue, [], []), turns);
      e.queue == [] && multiset(Originals(e.settled)) + multiset(Originals(e.dead)) == multiset(Originals(queue))
  {
    EnoughTurns(c, queue, turns);
  }

  // ---------------------------------------------------------------- a turn in the pipeline

  /** `runOnce` throws: the database fails before the marker is written; or the marker was
      new and the projector throws, or the commit reports a failure. */
  predicate Errs(s: State, d: Delivery, work: Work) {
    work.Unavailable? ||
    ((work.Throws? || work.CommitUnconfirmed?) && !IsMarked(s.processed, d.event.eventId, d.queue))
  }

  /** What the transaction of `runOnce` leaves behind, however it ends. */
  function AfterWork(s: State, d: Delivery, work: Work, context: Context): State {
    if IsMarked(s.processed, d.event.eventId, d.queue) then s
    else if work.Succeeds? || work.CommitUnconfirmed? then CommitProjection(s, d, context)
    else if work.UniqueViolation? then s.(swallowed := s.swallowed + {(d.event.eventId, d.queue)})
    else s
  }

  /** A turn is what an undisturbed worker makes of the copy: receive, run, requeue or
      dead-letter if `runOnce` throws, acknowledge. */
  function TurnScript(w: nat, d: Delivery, work: Work, fails: bool, context: Context): seq<Label> {
    if fails then [Receive(w, d), RunOnce(w, work, context), Republish(w, Done), Ack(w)]
    else [Receive(w, d), RunOnce(w, work, context), Ack(w)]
  }

  lemma PutAndTake(workers: map<nat, Handling>, w: nat, h: Handling)
    requires w !in workers
    ensures workers[w := h] - {w} == workers
  {}

  lemma PutAgain(workers: map<nat, Handling>, w: nat, h: Handling, g: Handling)
    ensures workers[w := h][w := g] == workers[w := g]
  {}

  /** The pipeline with one more worker, busy as given, and the copy out of its queue. */
  function Busy(s: State, w: nat, d: Delivery, progress: Progress): State {
    s.(ready := s.ready - multiset{d}, workers := s.workers[w := Handling(d, progress, true)])
  }

  lemma Received(c: Config, s: State, w: nat, d: Delivery)
    requires w !in s.workers && d in s.ready
    ensures Step(c, s, Receive(w, d)) == Busy(s, w, d, Started)
  {}

  lemma WorkIsRun(c: Config, s: State, w: nat, d: Delivery, work: Work, context: Context)
    ensures Step(c, Busy(s, w, d, Started), RunOnce(w, work, context)) ==
      Busy(AfterWork(s, d, work, context), w, d, if Errs(s, d, work) then Thrown else Settled)
  {
    PutAgain(s.workers, w, Handling(d, Started, true), Handling(d, Thrown, true));
    PutAgain(s.workers, w, Handling(d, Started, true), Handling(d, Settled, true));
  }

  /** The copy goes back with its header incremented, or to the dead letters. */
  function Requeue(c: Config, s: State, d: Delivery): State {
    if d.retry < c.maxRetries then s.(ready := s.ready - multiset{d} + multiset{d.(retry := d.retry + 1)})
    else s.(ready := s.ready - multiset{d}, dead := s.dead + multiset{d})
  }

  function Replaced(s: State, w: nat, d: Delivery): State {
    s.(workers := s.workers[w := Handling(d, Settled, true)])
  }

  lemma RetryRepublished(c: Config, s: State, w: nat, d: Delivery)
    requires d.retry < c.maxRetries
    ensures TryRepublish(c, Busy(s, w, d, Thrown), w, Done) == Replaced(Requeue(c, s, d), w, d)
  {
    PutAgain(s.workers, w, Handling(d, Thrown, true), Handling(d, Settled, true));
  }

  lemma BurialRepublished(c: Config, s: State, w: nat, d: Delivery)
    requires d.retry >= c.maxRetries
    ensures TryRepublish(c, Busy(s, w, d, Thrown), w, Done) == Replaced(Requeue(c, s, d), w, d)
  {
    PutAgain(s.workers, w, Handling(d, Thrown, true), Handling(d, Settled, true));
  }

  lemma Republished(c: Config, s: State, w: nat, d: Delivery)
    ensures Step(c, Busy(s, w, d, Thrown), Republish(w, Done)) == Replaced(Requeue(c, s, d), w, d)
  {
    assert Step(c, Busy(s, w, d, Thrown), Republish(w, Done)) == TryRepublish(c, Busy(s, w, d, Thrown), w, Done);
    if d.retry < c.maxRetries { RetryRepublished(c, s, w, d); } else { BurialRepublished(c, s, w, d); }
  }

  lemma Acknowledged(c: Config, s: State, w: nat, workers: map<nat, Handling>, d: Delivery)
    requires w !in workers && s.workers == workers[w := Handling(d, Settled, true)]
    ensures Step(c, s, Ack(w)) == s.(workers := workers)
  {
    PutAndTake(workers, w, Handling(d, Settled, true));
  }

  /** The end of a failed turn: the copy is sent on, and the delivery acknowledged. */
  lemma Rejected(c: Config, s: State, w: nat, d: Delivery)
    requires w !in s.workers
    ensures Step(c, Step(c, Busy(s, w, d, Thrown), Republish(w, Done)), Ack(w)) == Requeue(c, s, d)
  {
    hide Step;
    Republished(c, s, w, d);
    Acknowledged(c, Replaced(Requeue(c, s, d), w, d), w, s.workers, d);
  }

  lemma FailedTurn(c: Config, s: State, w: nat, d: Delivery, work: Work, context: Context)
    requires w !in s.workers && d in s.ready && Errs(s, d, work)
    ensures Run(c, s, TurnScript(w, d, work, true, context)) == Requeue(c, AfterWork(s, d, work, context), d)
  {
    hide Step, Run;
    var three := [Receive(w, d), RunOnce(w, work, context), Republish(w, Done)];
    assert TurnScript(w, d, work, true, context) == three + [Ack(w)];
    RunConcat(c, s, three, [Ack(w)]);
    RunThree(c, s, Receive(w, d), RunOnce(w, work, context), Republish(w, Done));
    RunOne(c, Run(c, s, three), Ack(w));
    Received(c, s, w, d);
    WorkIsRun(c, s, w, d, work, context);
    Rejected(c, AfterWork(s, d, work, context), w, d);
  }

  lemma SettledTurn(c: Config, s: State, w: nat, d: Delivery, work: Work, context: Context)
    requires w !in s.workers && d in s.ready && !Errs(s, d, work)
    ensures Run(c, s, TurnScript(w, d, work, false, context)) ==
      AfterWork(s, d, work, context).(ready := s.ready - multiset{d})
  {
    hide Step, Run;
    RunThree(c, s, Receive(w, d), RunOnce(w, work, context), Ack(w));
    Received(c, s, w, d);
    WorkIsRun(c, s, w, d, work, context);
    var t := AfterWork(s, d, work, context).(ready := s.ready - multiset{d});
    Acknowledged(c, Replaced(t, w, d), w, s.workers, d);
  }

  /** The event is applied at its queue, or was dropped because its projector raised a
      unique violation. */
  ghost predicate Concluded(s: State, d: Delivery) {
    IsMarked(s.processed, d.event.eventId, d.queue) || (d.event.eventId, d.queue) in s.swallowed
  }

  /** The pipeline after a turn agrees with the backlog: the same queue, the dead letter that
      was buried and no other, the settled copy applied, and no marker taken back. */
  ghost predicate Agrees(s: State, u: State, b: Backlog, e: Backlog) {
    u.ready == multiset(e.queue) && u.workers == s.workers && u.outbox == s.outbox &&
    s.processed <= u.processed && s.swallowed <= u.swallowed &&
    ((e.dead == b.dead && u.dead == s.dead) ||
     (exists d :: e.dead == b.dead + [d] && u.dead == s.dead + multiset{d})) &&
    (e.settled == b.settled || (exists d :: e.settled == b.settled + [d] && Concluded(u, d)))
  }

  lemma RestOf(queue: seq<Delivery>, k: nat)
    requires k < |queue|
    ensures multiset(queue) - multiset{queue[k]} == multiset(Drop(queue, k))
  {
    DropRemovesOne(queue, k);
  }

  lemma RestAndAgain(ready: multiset<Delivery>, queue: seq<Delivery>, k: nat, again: Delivery)
    requires k < |queue| && ready == multiset(queue)
    ensures ready - multiset{queue[k]} + multiset{again} == multiset(Drop(queue, k) + [again])
  {
    RestOf(queue, k);
  }

  /** `runOnce` leaves the queues, the workers and the outbox alone. */
  lemma AfterWorkFrame(s: State, d: Delivery, work: Work, context: Context)
    ensures var u := AfterWork(s, d, work, context);
      u.ready == s.ready && u.workers == s.workers && u.outbox == s.outbox && u.dead == s.dead &&
      s.processed <= u.processed && s.swallowed <= u.swallowed &&
      (Errs(s, d, work) || Concluded(u, d))
  {
    var u := AfterWork(s, d, work, context);
    if u.processed != s.processed {
      assert u.processed[|s.processed|] == Processed(d.event.eventId, d.queue, context);
    }
  }

  lemma RetriedTurnAgrees(c: Config, s: State, b: Backlog, k: nat, work: Work, context: Context)
    requires k < |b.queue| && s.ready == multiset(b.queue) && b.queue[k].retry < c.maxRetries
    ensures Agrees(s, Requeue(c, AfterWork(s, b.queue[k], work, context), b.queue[k]), b, RetryAt(b, k))
  {
    var again := b.queue[k].(retry := b.queue[k].retry + 1);
    AfterWorkFrame(s, b.queue[k], work, context);
    RestAndAgain(s.ready, b.queue, k, again);
    var u := AfterWork(s, b.queue[k], work, context);
    assert RetryAt(b, k) == b.(queue := Drop(b.queue, k) + [again]);
    assert Requeue(c, u, b.queue[k]) == u.(ready := s.ready - multiset{b.queue[k]} + multiset{again});
  }

  lemma BuriedTurnAgrees(c: Config, s: State, b: Backlog, k: nat, work: Work, context: Context)
    requires k < |b.queue| && s.ready == multiset(b.queue) && b.queue[k].retry >= c.maxRetries
    ensures Agrees(s, Requeue(c, AfterWork(s, b.queue[k], work, context), b.queue[k]), b, BuryAt(b, k))
  {
    AfterWorkFrame(s, b.queue[k], work, context);
    RestOf(b.queue, k);
    assert BuryAt(b, k).dead == b.dead + [b.queue[k]];
  }

  lemma SettledTurnAgrees(s: State, b: Backlog, k: nat, work: Work, context: Context)
    requires k < |b.queue| && s.ready == multiset(b.queue) && !Errs(s, b.queue[k], work)
    ensures var u := AfterWork(s, b.queue[k], work, context);
      Agrees(s, u.(ready := s.ready - multiset{b.queue[k]}), b, SettleAt(b, k))
  {
    AfterWorkFrame(s, b.queue[k], work, context);
    RestOf(b.queue, k);
    assert SettleAt(b, k).settled == b.settled + [b.queue[k]];
  }

  /** A turn of the backlog is a run of the pipeline's own steps, however the transaction of
      `runOnce` ends. */
  lemma TurnIsHandling(c: Config, s: State, w: nat, b: Backlog, t: Turn, work: Work, context: Context)
    requires w !in s.workers && b.queue != [] && s.ready == multiset(b.queue)
    requires t.fails <==> Errs(s, b.queue[Pick(b.queue, t.k)], work)
    ensures var d := b.queue[Pick(b.queue, t.k)];
      Agrees(s, Run(c, s, TurnScript(w, d, work, t.fails, context)), b, Handle(c, b, t))
  {
    hide Step, Run;
    var k := Pick(b.queue, t.k);
    var d := b.queue[k];
    if !t.fails {
      SettledTurn(c, s, w, d, work, context);
      SettledTurnAgrees(s, b, k, work, context);
    } else {
      FailedTurn(c, s, w, d, work, context);
      if d.retry < c.maxRetries {
        RetriedTurnAgrees(c, s, b, k, work, context);
      } else {
        BuriedTurnAgrees(c, s, b, k, work, context);
      }
    }
  }

  // ---------------------------------------------------------------- working off a queue

  /** What meets the k-th copy: how its transaction ends, and what its projector reads. */
  datatype Attempt = Attempt(k: nat, work: Work, context: Context)

  /** The pipeline steps of a sequence of attempts, and the turns they amount to. */
  datatype Shift = Shift(labels: seq<Label>, turns: seq<Turn>)

  /** One worker works the queue off, one copy after the other. */
  function WorkOff(c: Config, s: State, w: nat, queue: seq<Delivery>, attempts: seq<Attempt>): Shift {
    if attempts == [] then Shift([], [])
    else
      var done, a := WorkOff(c, s, w, queue, attempts[..|attempts| - 1]), attempts[|attempts| - 1];
      var left := HandleAll(c, Backlog(queue, [], []), done.turns);
      if left.queue == [] then Shift(done.labels, done.turns + [Turn(0, false)])
      else
        var d := left.queue[Pick(left.queue, a.k)];
        var fails := Errs(Run(c, s, done.labels), d, a.work);
        Shift(done.labels + TurnScript(w, d, a.work, fails, a.context), done.turns + [Turn(a.k, fails)])
  }

  /** The pipeline has the queue of the backlog, exactly its buried copies as new dead
      letters, and each settled copy concluded. */
  ghost predicate Mirrors(s: State, t: State, b: Backlog) {
    t.ready == multiset(b.queue) && t.workers == s.workers && t.outbox == s.outbox &&
    t.dead == s.dead + multiset(b.dead) && s.processed <= t.processed &&
    forall d :: d in b.settled ==> Concluded(t, d)
  }

  lemma ConcludedStays(t: State, u: State, d: Delivery)
    requires Concluded(t, d) && t.processed <= u.processed && t.swallowed <= u.swallowed
    ensures Concluded(u, d)
  {
    if IsMarked(t.processed, d.event.eventId, d.queue) {
      MarkersStay(t.processed, u.processed, d.event.eventId, d.queue);
    }
  }

  lemma AgreementMirrors(s: State, t: State, u: State, b: Backlog, e: Backlog)
    requires Mirrors(s, t, b) && Agrees(t, u, b, e)
    ensures Mirrors(s, u, e)
  {
    forall d | d in e.settled ensures Concluded(u, d) {
      if d in b.settled { ConcludedStays(t, u, d); }
    }
    BuriedAddsUp(s, t, u, b, e);
  }

  lemma BuriedAddsUp(s: State, t: State, u: State, b: Backlog, e: Backlog)
    requires t.dead == s.dead + multiset(b.dead) && Agrees(t, u, b, e)
    ensures u.dead == s.dead + multiset(e.dead)
  {}

  /** Working a queue off in the pipeline is working off the backlog, over whole sequences
      and for every outcome of each transaction. */
  lemma {:induction false} WorkOffMirrors(c: Config, s: State, w: nat, queue: seq<Delivery>, attempts: seq<Attempt>)
    requires w !in s.workers && s.ready == multiset(queue)
    ensures var shift := WorkOff(c, s, w, queue, attempts);
      |shift.turns| == |attempts| &&
      Mirrors(s, Run(c, s, shift.labels), HandleAll(c, Backlog(queue, [], []), shift.turns))
  {
    hide Step;
    if attempts == [] {
    } else {
      var front, a := attempts[..|attempts| - 1], attempts[|attempts| - 1];
      WorkOffMirrors(c, s, w, queue, front);
      var done, shift := WorkOff(c, s, w, queue, front), WorkOff(c, s, w, queue, attempts);
      var t, left := Run(c, s, done.labels), HandleAll(c, Backlog(queue, [], []), done.turns);
      assert shift.turns[..|shift.turns| - 1] == done.turns;
      if left.queue != [] {
        var turn := shift.turns[|shift.turns| - 1];
        var d := left.queue[Pick(left.queue, a.k)];
        RunConcat(c, s, done.labels, TurnScript(w, d, a.work, turn.fails, a.context));
        TurnIsHandling(c, t, w, left, turn, a.work, a.context);
        AgreementMirrors(s, t, Run(c, s, shift.labels), left, Handle(c, left, turn));
      }
    }
  }

  /** n queued copies are all handled for good after n * (maxRetries + 1) attempts of an
      undisturbed worker, in whatever order they are picked and however each transaction
      ends: the queues are empty, each original is settled or dead-lettered, exactly one of
      the two, the new dead letters are exactly those, and the event of each settled copy is
      applied, or dropped by a unique violation of its projector. */
  lemma WorkOffTerminatesAndConserves(c: Config, s: State, w: nat, queue: seq<Delivery>, attempts: seq<Attempt>)
    requires w !in s.workers && s.ready == multiset(queue) && WithinLimit(c, queue)
    requires |attempts| >= |queue| * (c.maxRetries + 1)
    ensures var shift := WorkOff(c, s, w, queue, attempts);
      var t, e := Run(c, s, shift.labels), HandleAll(c, Backlog(queue, [], []), shift.turns);
      Mirrors(s, t, e) && e.queue == [] && t.ready == multiset{} &&
      multiset(Originals(e.settled)) + multiset(Originals(e.dead)) == multiset(Originals(queue))
  {
    hide Step, Run;
    WorkOffMirrors(c, s, w, queue, attempts);
    EnoughTurns(c, queue, WorkOff(c, s, w, queue, attempts).turns);
  }

  // ---------------------------------------------------------------- the services

  /** How `runOnce` ends: the work ran, the delivery was a duplicate, or an error is thrown. */
  datatype Ran = Fresh | Duplicate | Error

  /** The copies that `retryOrDeadLetter` adds to the queue, and to the dead letters. */
  function Requeues(c: Config, d: Delivery, published: bool): multiset<Delivery> {
    if published && d.retry < c.maxRetries then multiset{d.(retry := d.retry + 1)} else multiset{}
  }

  function Buries(c: Config, d: Delivery, published: bool): multiset<Delivery> {
    if published && d.retry >= c.maxRetries then multiset{d} else multiset{}
  }

  class IdempotencyService {
    const prisma: Database

    constructor (prisma: Database)
      ensures this.prisma == prisma
    {
      this.prisma := prisma;
    }

    /** The projector of the consumer that owns the queue, inside the open transaction. */
    method ProjectInto(q: Queue, e: Event, context: Context)
      modifies prisma`tables
      ensures prisma.tables == Project(q, e, context, old(prisma.tables))
      ensures q == NotificationQueue ==>
        var was, rows := old(prisma.tables.notifications), prisma.tables.notifications;
        prisma.tables == old(prisma.tables).(notifications := rows) && was <= rows &&
        forall k :: |was| <= k < |rows| ==>
          !e.payload.NotificationCreated? && TypeFits(rows[k].kind, e.payload) &&
          rows[k].ticketId == e.payload.ticketId && rows[k].userId in Recipients(e.payload, context.ticket)
      ensures q == AuditQueue ==>
        var was, rows := old(prisma.tables.audit), prisma.tables.audit;
        prisma.tables == old(prisma.tables).(audit := rows) &&
        |rows| == |was| + 1 && was <= rows && Describes(rows[|was|], e)
    {
      var tables := prisma.tables;
      match q
      case AnalyticsQueue =>
        var m := MetricOf(e.payload);
        if m.Some? {
          var key := (m.value.0, context.day);
          var row := if key in tables.metrics then Increment(tables.metrics[key], m.value.1) else OneOf(m.value.1);
          prisma.tables := tables.(metrics := tables.metrics[key := row]);
        }
      case AuditQueue =>
        DescribeFits(e);
        prisma.tables := tables.(audit := tables.audit + [Describe(e)]);
      case NotificationQueue =>
        var users := Recipients(e.payload, context.ticket);
        var rows: seq<Notification> := [];
        for i := 0 to |users|
          invariant rows == Notify(e.payload, context.ticket)[..i]
        {
          var ticketId := if e.payload.NotificationCreated? then 0 else e.payload.ticketId;
          rows := rows + [Notification(users[i], KindOf(e.payload), ticketId)];
        }
        NotifyFits(e.payload, context.ticket);
        prisma.tables := tables.(notifications := tables.notifications + rows);
    }

    /** Marker and projection in one transaction; any unique violation reads as a duplicate. */
    method RunOnce(q: Queue, e: Event, context: Context, work: Work) returns (ran: Ran)
      modifies prisma`processed, prisma`tables
      ensures var marked := old(IsMarked(prisma.processed, e.eventId, q));
        var commits := !marked && (work.Succeeds? || work.CommitUnconfirmed?);
        (prisma.processed == old(prisma.processed) + if commits then [Processed(e.eventId, q, context)] else []) &&
        (prisma.tables == if commits then Project(q, e, context, old(prisma.tables)) else old(prisma.tables)) &&
        (ran.Error? <==> work.Unavailable? || (!marked && (work.Throws? || work.CommitUnconfirmed?))) &&
        (ran.Fresh? <==> commits && work.Succeeds?)
    {
      if work.Unavailable? {
        return Error;
      }
      var processed, tables := prisma.processed, prisma.tables;
      if IsMarked(processed, e.eventId, q) {
        return Duplicate;
      }
      prisma.processed := processed + [Processed(e.eventId, q, context)];
      ProjectInto(q, e, context);
      if work.Throws? || work.UniqueViolation? {
        prisma.processed, prisma.tables := processed, tables;
        return if work.Throws? then Error else Duplicate;
      }
      ran := if work.Succeeds? then Fresh else Error;
    }
  }

  class ConsumerRunner {
    const idempotency: IdempotencyService
    const amqp: Broker
    const config: Config

    constructor (idempotency: IdempotencyService, amqp: Broker, config: Config)
      ensures this.idempotency == idempotency && this.amqp == amqp && this.config == config
    {
      this.idempotency, this.amqp, this.config := idempotency, amqp, config;
    }

    /** The pipeline state with one worker busy as given and the other workers left out. */
    ghost function View(workers: map<nat, Handling>): State
      reads this, amqp, idempotency.prisma
    {
      var db := idempotency.prisma;
      State(db.outbox, map[], amqp.ready, workers, amqp.dead, db.processed, db.tables, {})
    }

    /** Requeue with an incremented header, or dead-letter; a failing publish is thrown. */
    method RetryOrDeadLetter(d: Delivery, io: Io) returns (thrown: bool)
      modifies amqp
      ensures thrown <==> !io.Done?
      ensures amqp.ready == old(amqp.ready) + Requeues(config, d, !io.Refused?)
      ensures amqp.dead == old(amqp.dead) + Buries(config, d, !io.Refused?)
    {
      var attempt := d.retry;
      if attempt < config.maxRetries {
        if !io.Refused? {
          amqp.ready := amqp.ready + multiset{d.(retry := attempt + 1)};
        }
        return !io.Done?;
      }
      if !io.Refused? {
        amqp.dead := amqp.dead + multiset{d};
      }
      thrown := !io.Done?;
    }

    /** One delivery: it takes the pipeline's `RunOnce` step and, after an error, its
        `Republish` step. It throws exactly when the broker gets the copy back. */
    method HandleDelivery(d: Delivery, context: Context, work: Work, io: Io) returns (thrown: bool)
      modifies amqp, idempotency.prisma`processed, idempotency.prisma`tables
      ensures var t := Handled(config, old(View(map[0 := Handling(d, Started, true)])), work, io, context);
        (thrown <==> 0 !in t.workers) &&
        (0 in t.workers ==> t.workers[0] == Handling(d, Settled, true)) &&
        t.processed == idempotency.prisma.processed && t.tables == idempotency.prisma.tables &&
        t.dead == amqp.dead && t.ready == amqp.ready + if thrown then multiset{d} else multiset{}
    {
      ghost var s := View(map[0 := Handling(d, Started, true)]);
      HandledIs(config, s, d, work, io, context);
      thrown := false;
      var ran := idempotency.RunOnce(d.queue, d.event, context, work);
      if ran.Error? {
        thrown := RetryOrDeadLetter(d, io);
      }
    }
  }

  /** The steps of one delivery by worker 0. */
  function Handled(c: Config, s: State, work: Work, io: Io, context: Context): State {
    Step(c, Step(c, s, RunOnce(0, work, context)), Republish(0, io))
  }

  lemma RunOnceIs(c: Config, s: State, d: Delivery, work: Work, context: Context)
    requires s.workers == map[0 := Handling(d, Started, true)]
    ensures var t := Step(c, s, RunOnce(0, work, context));
      var commits := !IsMarked(s.processed, d.event.eventId, d.queue) && (work.Succeeds? || work.CommitUnconfirmed?);
      var error := Errs(s, d, work);
      t.processed == (if commits then s.processed + [Processed(d.event.eventId, d.queue, context)] else s.processed) &&
      t.tables == (if commits then Project(d.queue, d.event, context, s.tables) else s.tables) &&
      t.ready == s.ready && t.dead == s.dead &&
      t.workers == map[0 := Handling(d, if error then Thrown else Settled, true)]
  {}

  lemma HandledIs(c: Config, s: State, d: Delivery, work: Work, io: Io, context: Context)
    requires s.workers == map[0 := Handling(d, Started, true)]
    ensures var t := Handled(c, s, work, io, context);
      var commits := !IsMarked(s.processed, d.event.eventId, d.queue) && (work.Succeeds? || work.CommitUnconfirmed?);
      var error := Errs(s, d, work);
      t.processed == (if commits then s.processed + [Processed(d.event.eventId, d.queue, context)] else s.processed) &&
      t.tables == (if commits then Project(d.queue, d.event, context, s.tables) else s.tables) &&
      t.ready == s.ready + Requeues(c, d, error && !io.Refused?) +
        (if error && !io.Done? then multiset{d} else multiset{}) &&
      t.dead == s.dead + Buries(c, d, error && !io.Refused?) &&
      (0 in t.workers <==> !(error && !io.Done?)) && (0 in t.workers ==> t.workers[0] == Handling(d, Settled, true))
  {
    RunOnceIs(c, s, d, work, context);
    RepublishIs(c, Step(c, s, RunOnce(0, work, context)), d, io);
  }

  lemma RepublishIs(c: Config, s: State, d: Delivery, io: Io)
    requires 0 in s.workers && s.workers[0].delivery == d && s.workers[0].live
    ensures var t := Step(c, s, Republish(0, io));
      var error := s.workers[0].progress.Thrown?;
      t.processed == s.processed && t.tables == s.tables &&
      t.ready == s.ready + Requeues(c, d, error && !io.Refused?) +
        (if error && !io.Done? then multiset{d} else multiset{}) &&
      t.dead == s.dead + Buries(c, d, error && !io.Refused?) &&
      (0 in t.workers <==> !(error && !io.Done?)) &&
      (0 in t.workers ==> t.workers[0] == if error then Handling(d, Settled, true) else s.workers[0])
  {
    if s.workers[0].progress.Thrown? {
      ThrownRepublishIs(c, s, d, io);
    }
  }

  lemma ThrownRepublishIs(c: Config, s: State, d: Delivery, io: Io)
    requires 0 in s.workers && s.workers[0] == Handling(d, Thrown, true)
    ensures var t := TryRepublish(c, s, 0, io);
      t.processed == s.processed && t.tables == s.tables &&
      t.ready == s.ready + Requeues(c, d, !io.Refused?) + (if !io.Done? then multiset{d} else multiset{}) &&
      t.dead == s.dead + Buries(c, d, !io.Refused?) &&
      (0 in t.workers <==> io.Done?) && (0 in t.workers ==> t.workers[0] == Handling(d, Settled, true))
  {}
}
