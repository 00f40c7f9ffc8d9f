/** The Angular `authInterceptor` with `AuthService` and token storage, as event steps: one
    page's requests, the shared refresh, and the waiters on `refreshedToken$`. */
module Interceptor {
  import opened Domain
  import Tokens

  type Raw = Tokens.Raw

  /** What token storage holds: both tokens, or neither. */
  datatype Stored = Stored(access: nat, refresh: Raw)

  datatype Phase =
    | Sent
    | Leading
    | Waiting
    | Replaying
    | Finished

  /** The tokens of one successful refresh: the access token, and (history) the sign-in
      whose refresh token was presented. */
  datatype Grant = Grant(access: nat, session: nat)

  /** A request and its history: how often it was sent, how many refreshes it started, the
      sign-in whose tokens were stored when it met its 401, how many refreshes had succeeded
      when it queued, which one released it, and what it replayed with. */
  datatype Request = Request(
    authFree: bool,
    phase: Phase,
    sends: nat,
    refreshes: nat,
    session: nat,
    queuedAt: Option<nat>,
    releasedBy: Option<nat>,
    replayedWith: Option<Grant>)

  /** History: `signIns` counts the sign-ins, `session` is the one the stored tokens descend
      from, `successes` are the refreshes that succeeded, in order, and `logouts` are the
      refresh tokens sent to the logout endpoint, in order. */
  datatype State = State(
    stored: Option<Stored>,
    isRefreshing: bool,
    shared: Option<Grant>,
    requests: seq<Request>,
    signIns: nat,
    session: nat,
    successes: seq<Grant>,
    logouts: seq<Raw>)

  const INIT := State(None, false, None, [], 0, 0, [], [])

  datatype HttpStatus = Success | Unauthorized | OtherError

  datatype Label =
    | Send(authFree: bool)
    | Answer(i: nat, status: HttpStatus)
    | Refreshed(i: nat, tokens: Stored)
    | RefreshFailed(i: nat)
    | Replayed(i: nat, ok: bool)
    | SignIn(tokens: Stored)
    | SignOut
    | Reload
    | Cancel(i: nat)

  // ---------------------------------------------------------------- steps

  function NewRequest(authFree: bool): Request {
    Request(authFree, Sent, 1, 0, 0, None, None, None)
  }

  predicate InPhase(s: State, i: nat, phase: Phase) {
    i < |s.requests| && s.requests[i].phase == phase
  }

  function Put(s: State, i: nat, r: Request): State
    requires i < |s.requests|
  {
    s.(requests := s.requests[i := r])
  }

  function Finish(r: Request): Request {
    r.(phase := Finished)
  }

  /** A replay of the original request with the new access token. */
  function Replay(r: Request, grant: Grant): Request {
    r.(phase := Replaying, sends := r.sends + 1, replayedWith := Some(grant))
  }

  /** `AuthService.logout`: tell the server, then forget both tokens. */
  function Logout(s: State): State {
    s.(stored := None, logouts := if s.stored.Some? then s.logouts + [s.stored.value.refresh] else s.logouts)
  }

  /** `handle401`: wait for the refresh in flight, or start one. */
  function Handle401(s: State, i: nat): State
    requires i < |s.requests|
  {
    var r := s.requests[i].(session := s.session);
    if s.isRefreshing then
      var queued := r.(queuedAt := Some(|s.successes|));
      if s.shared.Some? then Put(s, i, Replay(queued, s.shared.value))
      else Put(s, i, queued.(phase := Waiting))
    else
      Put(s, i, r.(phase := Leading, refreshes := r.refreshes + 1)).(isRefreshing := true, shared := None)
  }

  /** `refreshedToken$.next(access)`: every waiter takes the value and replays. */
  function Release(requests: seq<Request>, grant: Grant, order: nat): seq<Request> {
    seq(|requests|, k requires 0 <= k < |requests| =>
      if requests[k].phase.Waiting? then Replay(requests[k], grant).(releasedBy := Some(order)) else requests[k])
  }

  function Abandon(requests: seq<Request>): seq<Request> {
    seq(|requests|, k requires 0 <= k < |requests| => Finish(requests[k]))
  }

  function Step(s: State, l: Label): State {
    match l
    case Send(authFree) => s.(requests := s.requests + [NewRequest(authFree)])
    case Answer(i, status) =>
      if !InPhase(s, i, Sent) then s
      else if status.Unauthorized? && !s.requests[i].authFree && s.stored.Some? then Handle401(s, i)
      else Put(s, i, Finish(s.requests[i]))
    case Refreshed(i, tokens) =>
      if !InPhase(s, i, Leading) then s
      else
        var grant := Grant(tokens.access, s.requests[i].session);
        var released := Release(s.requests, grant, |s.successes|);
        State(Some(tokens), false, Some(grant), released[i := Replay(s.requests[i], grant)],
              s.signIns, grant.session, s.successes + [grant], s.logouts)
    case RefreshFailed(i) =>
      if !InPhase(s, i, Leading) then s
      else Logout(Put(s, i, Finish(s.requests[i])).(isRefreshing := false))
    case Replayed(i, ok) =>
      if !InPhase(s, i, Replaying) then s
      else
        var t := Put(s, i, Finish(s.requests[i]));
        if !ok && s.requests[i].refreshes > 0 then Logout(t.(isRefreshing := false)) else t
    case SignIn(tokens) => s.(stored := Some(tokens), signIns := s.signIns + 1, session := s.signIns + 1)
    case SignOut => Logout(s)
    case Reload => s.(isRefreshing := false, shared := None, requests := Abandon(s.requests))
    case Cancel(i) => if i < |s.requests| then Put(s, i, Finish(s.requests[i])) else s
  }

  function Run(s: State, ls: seq<Label>): State {
    if ls == [] then s else Step(Run(s, ls[..|ls| - 1]), ls[|ls| - 1])
  }

  /** The answer makes the request start a refresh. */
  predicate Leads(s: State, i: nat, status: HttpStatus) {
    InPhase(s, i, Sent) && status.Unauthorized? && !s.requests[i].authFree && s.stored.Some? && !s.isRefreshing
  }

  lemma OtherAnswersAreQuiet(s: State, i: nat, status: HttpStatus)
    requires !Leads(s, i, status)
    ensures var t := Step(s, Answer(i, status));
      t.stored == s.stored && t.isRefreshing == s.isRefreshing && t.logouts == s.logouts &&
      forall k: nat :: InPhase(t, k, Leading) <==> InPhase(s, k, Leading)
  {}

  // ---------------------------------------------------------------- laws of every run

  /** A waiter that has been released was released by the first refresh to succeed after it
      queued, and replayed with that refresh's access token. */
  predicate ReleasedRight(successes: seq<Grant>, r: Request) {
    r.queuedAt.Some? && r.replayedWith.Some? ==>
      r.releasedBy == r.queuedAt && r.queuedAt.value < |successes| &&
      r.replayedWith.value == successes[r.queuedAt.value]
  }

  predicate RequestOk(successes: seq<Grant>, r: Request) {
    r.sends == (if r.replayedWith.Some? then 2 else 1) &&
    (r.authFree ==> r.sends == 1 && r.refreshes == 0) &&
    r.refreshes <= 1 && (r.queuedAt.Some? ==> r.refreshes == 0) &&
    (r.refreshes == 1 && r.replayedWith.Some? ==> r.replayedWith.value.session == r.session) &&
    ReleasedRight(successes, r) &&
    match r.phase
    case Sent => r.refreshes == 0 && r.queuedAt.None? && r.replayedWith.None? && r.releasedBy.None?
    case Leading => r.refreshes == 1 && r.replayedWith.None? && !r.authFree
    case Waiting =>
      r.queuedAt == Some(|successes|) && r.replayedWith.None? && r.releasedBy.None? && !r.authFree
    case Replaying => r.replayedWith.Some? && (r.refreshes == 1 || r.queuedAt.Some?)
    case Finished => true
  }

  ghost predicate Inv(s: State) {
    (s.isRefreshing ==> s.shared.None?) &&
    forall i :: 0 <= i < |s.requests| ==> RequestOk(s.successes, s.requests[i])
  }

  lemma AnswerKeepsInv(s: State, i: nat, status: HttpStatus)
    requires Inv(s)
    ensures Inv(Step(s, Answer(i, status)))
  {
    var t := Step(s, Answer(i, status));
    forall k | 0 <= k < |t.requests| ensures RequestOk(t.successes, t.requests[k]) {
      assert RequestOk(s.successes, s.requests[k]);
    }
  }

  lemma RefreshedKeepsInv(s: State, i: nat, tokens: Stored)
    requires Inv(s)
    ensures Inv(Step(s, Refreshed(i, tokens)))
  {
    var t := Step(s, Refreshed(i, tokens));
    forall k | 0 <= k < |t.requests| ensures RequestOk(t.successes, t.requests[k]) {
      assert RequestOk(s.successes, s.requests[k]);
    }
  }

  lemma EndingKeepsInv(s: State, l: Label)
    requires Inv(s) && !l.Answer? && !l.Refreshed?
    ensures Inv(Step(s, l))
  {
    var t := Step(s, l);
    assert t.successes == s.successes && (t.isRefreshing ==> s.isRefreshing);
    forall k | 0 <= k < |t.requests| ensures RequestOk(t.successes, t.requests[k]) {
      if k < |s.requests| {
        assert RequestOk(s.successes, s.requests[k]);
        assert t.requests[k] == s.requests[k] || t.requests[k] == Finish(s.requests[k]);
      }
    }
  }

  lemma StepKeepsInv(s: State, l: Label)
    requires Inv(s)
    ensures Inv(Step(s, l))
  {
    if l.Answer? {
      AnswerKeepsInv(s, l.i, l.status);
    } else if l.Refreshed? {
      RefreshedKeepsInv(s, l.i, l.tokens);
    } else {
      EndingKeepsInv(s, l);
    }
  }

  /** In every run of a page each request is sent at most twice and starts at most one
      refresh, requests to the auth endpoints neither replay nor refresh, `isRefreshing`
      implies that the shared token is null, a waiter has seen no successful refresh since
      it queued, and a released waiter was released once, by the first refresh to succeed
      after it queued and with that refresh's token. */
  lemma {:induction false} InterceptorLaws(ls: seq<Label>)
    ensures Inv(Run(INIT, ls))
    ensures var s := Run(INIT, ls);
      (s.isRefreshing ==> s.shared.None?) &&
      forall i :: 0 <= i < |s.requests| ==>
        var r := s.requests[i];
        r.sends <= 2 && r.refreshes <= 1 && (r.authFree ==> r.sends == 1 && r.refreshes == 0) &&
        (r.phase.Waiting? ==> r.queuedAt == Some(|s.successes|) && r.releasedBy.None?) &&
        (r.queuedAt.Some? && r.replayedWith.Some? ==>
          r.releasedBy == r.queuedAt && r.queuedAt.value < |s.successes| &&
          r.replayedWith.value == s.successes[r.queuedAt.value])
  {
    if ls == [] {
    } else {
      InterceptorLaws(ls[..|ls| - 1]);
      StepKeepsInv(Run(INIT, ls[..|ls| - 1]), ls[|ls| - 1]);
    }
  }

  /** A successful refresh releases every waiter at once. */
  lemma SuccessReleasesAll(s: State, i: nat, tokens: Stored)
    requires Inv(s) && InPhase(s, i, Leading)
    ensures var t := Step(s, Refreshed(i, tokens));
      forall k :: 0 <= k < |t.requests| ==>
        (!t.requests[k].phase.Waiting? &&
         (s.requests[k].phase.Waiting? ==>
           t.requests[k].phase.Replaying? &&
           t.requests[k].replayedWith == Some(Grant(tokens.access, s.requests[i].session))))
  {
    assert RequestOk(s.successes, s.requests[i]);
  }

  // ---------------------------------------------------------------- how long a waiter waits

  /** The step is a successful refresh, a reload of the page, or the end of the waiter's own
      subscription. */
  predicate Frees(s: State, l: Label, k: nat) {
    l.Reload? || (l.Cancel? && l.i == k) || (l.Refreshed? && InPhase(s, l.i, Leading))
  }

  /** The request has met its 401, or has ended. */
  predicate Past(s: State, k: nat) {
    k < |s.requests| && !s.requests[k].phase.Sent? && !s.requests[k].phase.Waiting?
  }

  lemma StepFrees(s: State, l: Label, k: nat)
    ensures InPhase(s, k, Waiting) ==>
      if Frees(s, l, k) then Past(Step(s, l), k) else InPhase(Step(s, l), k, Waiting)
    ensures Past(s, k) ==> Past(Step(s, l), k)
  {}

  lemma {:induction false} WaitsOrIsPast(s: State, more: seq<Label>, k: nat)
    requires InPhase(s, k, Waiting)
    ensures InPhase(Run(s, more), k, Waiting) || Past(Run(s, more), k)
  {
    if more == [] {
    } else {
      WaitsOrIsPast(s, more[..|more| - 1], k);
      StepFrees(Run(s, more[..|more| - 1]), more[|more| - 1], k);
    }
  }

  ghost predicate NeverFreed(s: State, more: seq<Label>, k: nat) {
    forall n :: 0 <= n < |more| ==> !Frees(Run(s, more[..n]), more[n], k)
  }

  /** Over every run: a waiter is still waiting if and only if no refresh has succeeded, the
      page has not been reloaded and the waiter has not been unsubscribed since. A failed
      refresh, a sign-out or a new sign-in leaves it waiting. */
  lemma {:induction false} WaitersOutliveFailures(s: State, more: seq<Label>, k: nat)
    requires InPhase(s, k, Waiting)
    ensures InPhase(Run(s, more), k, Waiting) <==> NeverFreed(s, more, k)
  {
    hide Step;
    if more == [] {
    } else {
      var front, n := more[..|more| - 1], |more| - 1;
      assert forall m :: 0 <= m < n ==> front[..m] == more[..m];
      WaitersOutliveFailures(s, front, k);
      WaitsOrIsPast(s, front, k);
      StepFrees(Run(s, front), more[n], k);
      assert NeverFreed(s, more, k) <==> NeverFreed(s, front, k) && !Frees(Run(s, front), more[n], k);
    }
  }

  lemma Snoc(s: State, ls: seq<Label>, l: Label) returns (t: State)
    ensures t == Run(s, ls + [l]) == Step(Run(s, ls), l)
  {
    hide Step;
    assert (ls + [l])[..|ls|] == ls;
    t := Step(Run(s, ls), l);
  }

  /** Two requests of one page: the first leads a refresh, the second waits for it. */
  lemma OneLeadsOneWaits(tokens: Stored) returns (ls: seq<Label>)
    ensures var s := Run(INIT, ls);
      |s.requests| == 2 && s.requests[0].phase.Leading? && s.requests[1].phase.Waiting? &&
      s.requests[1].session == 1 && s.requests[1].queuedAt.Some? &&
      s.isRefreshing && s.shared.None? && s.stored == Some(tokens) && s.signIns == 1 && s.session == 1
  {
    ls := TwoAreSent(tokens);
    var s := Run(INIT, ls);
    var d := Snoc(INIT, ls, Answer(0, Unauthorized)); ls := ls + [Answer(0, Unauthorized)];
    assert d == Handle401(s, 0) && d.requests[1] == NewRequest(false);
    var e := Snoc(INIT, ls, Answer(1, Unauthorized)); ls := ls + [Answer(1, Unauthorized)];
    assert e == Handle401(d, 1);
  }

  lemma TwoAreSent(tokens: Stored) returns (ls: seq<Label>)
    ensures var s := Run(INIT, ls);
      s.requests == [NewRequest(false), NewRequest(false)] && !s.isRefreshing && s.stored == Some(tokens) &&
      s.signIns == 1 && s.session == 1
  {
    ls := [];
    var a := Snoc(INIT, ls, SignIn(tokens)); ls := ls + [SignIn(tokens)];
    var b := Snoc(INIT, ls, Send(false)); ls := ls + [Send(false)];
    var c := Snoc(INIT, ls, Send(false)); ls := ls + [Send(false)];
  }

  /** A reachable page on which a request waits although no refresh is in flight, nobody is
      signed in and nothing is left to happen to it. */
  lemma FailedRefreshStrandsWaiter(tokens: Stored) returns (ls: seq<Label>)
    ensures var s := Run(INIT, ls);
      InPhase(s, 1, Waiting) && !s.isRefreshing && s.stored.None? &&
      forall i :: 0 <= i < |s.requests| && i != 1 ==> s.requests[i].phase.Finished?
  {
    ls := OneLeadsOneWaits(tokens);
    var t := Snoc(INIT, ls, RefreshFailed(0));
    ls := ls + [RefreshFailed(0)];
  }

  // ---------------------------------------------------------------- the wedged page

  /** The flag says that a refresh is in flight, but no request is left to lower it. */
  ghost predicate Wedged(s: State) {
    s.isRefreshing && s.shared.None? &&
    forall i :: 0 <= i < |s.requests| ==>
      !s.requests[i].phase.Leading? && !(s.requests[i].phase.Replaying? && s.requests[i].refreshes > 0)
  }

  lemma StepKeepsWedged(s: State, l: Label)
    requires Wedged(s)
    ensures Wedged(Step(s, l)) <==> !l.Reload?
  {}

  /** Until the page is reloaded a wedged page stays wedged, even over sign-outs and
      sign-ins: it starts no refresh, and a waiter waits until it is unsubscribed. */
  lemma {:induction false} WedgedUntilReload(s: State, more: seq<Label>, k: nat)
    requires Wedged(s) && (forall n :: 0 <= n < |more| ==> !more[n].Reload?)
    ensures Wedged(Run(s, more))
    ensures InPhase(s, k, Waiting) && Cancel(k) !in more ==> InPhase(Run(s, more), k, Waiting)
  {
    if more == [] {
    } else {
      var front, l := more[..|more| - 1], more[|more| - 1];
      assert more == front + [l];
      WedgedUntilReload(s, front, k);
      StepKeepsWedged(Run(s, front), l);
      if InPhase(s, k, Waiting) && Cancel(k) !in more { StepFrees(Run(s, front), l, k); }
    }
  }

  ghost predicate NoReload(ls: seq<Label>) {
    forall n :: 0 <= n < |ls| ==> !ls[n].Reload?
  }

  /** A request that has led a refresh is still replaying. */
  ghost predicate FormerLeaderReplays(s: State) {
    exists i :: 0 <= i < |s.requests| && s.requests[i].phase.Replaying? && s.requests[i].refreshes > 0
  }

  ghost predicate SomeoneLeads(s: State) {
    exists i :: 0 <= i < |s.requests| && s.requests[i].phase.Leading?
  }

  /** The flag is raised only while a request leads. */
  ghost predicate Led(s: State) {
    s.isRefreshing ==> SomeoneLeads(s)
  }

  /** The only leading request is unsubscribed while the flag is raised. */
  ghost predicate Parts(s: State, l: Label) {
    s.isRefreshing && l.Cancel? && InPhase(s, l.i, Leading) &&
    forall j :: 0 <= j < |s.requests| && s.requests[j].phase.Leading? ==> j == l.i
  }

  /** The step lowers the flag of a page on which nobody leads: a reload, or a failing replay
      of a request that has led a refresh. */
  predicate Lowers(s: State, l: Label) {
    l.Reload? || (l.Replayed? && !l.ok && InPhase(s, l.i, Replaying) && s.requests[l.i].refreshes > 0)
  }

  lemma StepParts(s: State, l: Label)
    requires Led(s)
    ensures !Led(Step(s, l)) <==> Parts(s, l)
  {
    var t := Step(s, l);
    if !s.isRefreshing && t.isRefreshing {
      assert t.requests[l.i].phase.Leading?;
    } else if s.isRefreshing && t.isRefreshing && !Parts(s, l) {
      var i :| 0 <= i < |s.requests| && s.requests[i].phase.Leading? && !(l.Cancel? && l.i == i);
      assert t.requests[i].phase.Leading?;
    }
  }

  lemma StepLowers(s: State, l: Label)
    requires !Led(s)
    ensures Led(Step(s, l)) <==> Lowers(s, l)
  {
    var t := Step(s, l);
    if !Lowers(s, l) { assert t.isRefreshing && !SomeoneLeads(t); }
  }

  /** Step `n` parts the flag from its leader, and no later step lowers the flag. */
  ghost predicate PartedAt(ls: seq<Label>, n: nat)
    requires n < |ls|
  {
    Parts(Run(INIT, ls[..n]), ls[n]) && forall m :: n < m < |ls| ==> !Lowers(Run(INIT, ls[..m]), ls[m])
  }

  lemma PartedSnoc(ls: seq<Label>, n: nat)
    requires n + 1 < |ls|
    ensures PartedAt(ls, n) <==>
      PartedAt(ls[..|ls| - 1], n) && !Lowers(Run(INIT, ls[..|ls| - 1]), ls[|ls| - 1])
  {
    hide Step, Run, Parts, Lowers;
    var front := ls[..|ls| - 1];
    assert forall m :: 0 <= m < |front| ==> front[..m] == ls[..m] && front[m] == ls[m];
  }

  lemma PartedLast(ls: seq<Label>)
    requires ls != []
    ensures PartedAt(ls, |ls| - 1) <==> Parts(Run(INIT, ls[..|ls| - 1]), ls[|ls| - 1])
  {}

  /** Over every run: the flag is raised with nobody leading if and only if some step
      unsubscribed the only leading request, and since then neither a reload nor a failing
      replay of a former leader has lowered the flag. */
  lemma {:induction false} FlagOutlivesLeaderIff(ls: seq<Label>)
    ensures !Led(Run(INIT, ls)) <==> exists n :: 0 <= n < |ls| && PartedAt(ls, n)
  {
    hide Step, Led, Parts, Lowers, PartedAt;
    if ls == [] {
      NobodyRefreshesAtFirst();
    } else {
      var front, l := ls[..|ls| - 1], ls[|ls| - 1];
      FlagOutlivesLeaderIff(front);
      PartedLast(ls);
      forall n: nat | n < |front| ensures PartedAt(ls, n) <==> PartedAt(front, n) && !Lowers(Run(INIT, front), l) {
        PartedSnoc(ls, n);
      }
      PartsOnlyFromLed(Run(INIT, front), l);
      if Led(Run(INIT, front)) { StepParts(Run(INIT, front), l); } else { StepLowers(Run(INIT, front), l); }
      LastOrEarlier(ls);
    }
  }

  lemma NobodyRefreshesAtFirst()
    ensures Led(INIT)
  {}

  lemma PartsOnlyFromLed(s: State, l: Label)
    ensures Parts(s, l) ==> Led(s) && !Lowers(s, l)
  {}

  lemma LastOrEarlier(ls: seq<Label>)
    requires ls != []
    ensures (exists n :: 0 <= n < |ls| && PartedAt(ls, n)) <==>
      (exists n :: 0 <= n < |ls| - 1 && PartedAt(ls, n)) || PartedAt(ls, |ls| - 1)
  {
    hide PartedAt;
  }

  /** Over every run: the page is wedged if and only if the flag is raised in every
      continuation without a reload. */
  lemma WedgedIffRaisedForever(ls: seq<Label>)
    ensures Wedged(Run(INIT, ls)) <==>
      forall more :: NoReload(more) ==> Run(Run(INIT, ls), more).isRefreshing
  {
    InterceptorLaws(ls);
    var s := Run(INIT, ls);
    if Wedged(s) {
      forall more | NoReload(more) ensures Run(s, more).isRefreshing { WedgedUntilReload(s, more, 0); }
    } else {
      var more := FlagCanFall(s);
      assert NoReload(more) && !Run(s, more).isRefreshing;
    }
  }

  /** The request's next error lowers the flag. */
  predicate CanLower(s: State, i: nat) {
    i < |s.requests| &&
    (s.requests[i].phase.Leading? || (s.requests[i].phase.Replaying? && s.requests[i].refreshes > 0))
  }

  lemma ErrorLowers(s: State, i: nat) returns (l: Label)
    requires CanLower(s, i)
    ensures !l.Reload? && !Step(s, l).isRefreshing
  {
    l := if s.requests[i].phase.Leading? then RefreshFailed(i) else Replayed(i, false);
  }

  lemma FlagCanFall(s: State) returns (more: seq<Label>)
    requires Inv(s) && !Wedged(s)
    ensures NoReload(more) && !Run(s, more).isRefreshing
  {
    hide Step;
    more := [];
    if s.isRefreshing {
      var i: nat :| i < |s.requests| &&
        (s.requests[i].phase.Leading? || (s.requests[i].phase.Replaying? && s.requests[i].refreshes > 0));
      var l := ErrorLowers(s, i);
      var t := Snoc(s, more, l);
      more := more + [l];
    }
  }

  /** Over every run: the page is wedged if and only if the flag has outlived its leader and
      no former leader is replaying. */
  lemma WedgedIff(ls: seq<Label>)
    ensures Wedged(Run(INIT, ls)) <==>
      (exists n :: 0 <= n < |ls| && PartedAt(ls, n)) && !FormerLeaderReplays(Run(INIT, ls))
  {
    hide Step, Run, PartedAt;
    InterceptorLaws(ls);
    FlagOutlivesLeaderIff(ls);
  }

  /** Unsubscribing the leading request wedges the page. */
  lemma CancelledLeaderWedges(tokens: Stored) returns (ls: seq<Label>)
    ensures Wedged(Run(INIT, ls)) && InPhase(Run(INIT, ls), 1, Waiting)
  {
    ls := OneLeadsOneWaits(tokens);
    var t := Snoc(INIT, ls, Cancel(0));
    ls := ls + [Cancel(0)];
  }

  // ---------------------------------------------------------------- which answers lead to a refresh

  /** The `n`-th step is a 401 to the first attempt of request `k`, which is not one of the
      requests exempt from authentication, while a refresh token is stored. */
  ghost predicate MeetsExpiry(ls: seq<Label>, n: nat, k: nat) {
    n < |ls| && ls[n] == Answer(k, Unauthorized) && InPhase(Run(INIT, ls[..n]), k, Sent) &&
    !Run(INIT, ls[..n]).requests[k].authFree && Run(INIT, ls[..n]).stored != None
  }

  /** The request has started a refresh or queued behind one. */
  predicate Joined(s: State, k: nat) {
    k < |s.requests| && (s.requests[k].refreshes > 0 || s.requests[k].queuedAt != None)
  }

  lemma StepJoins(s: State, l: Label, k: nat)
    ensures Joined(Step(s, l), k) <==>
      Joined(s, k) ||
      (l == Answer(k, Unauthorized) && InPhase(s, k, Sent) && !s.requests[k].authFree && s.stored != None)
  {}

  /** Over every run: a request starts a refresh or queues behind one if and only if it met
      such a 401; no other answer and no other step has that effect. */
  lemma {:induction false} OnlyGuarded401sJoin(ls: seq<Label>, k: nat)
    ensures Joined(Run(INIT, ls), k) <==> exists n: nat :: MeetsExpiry(ls, n, k)
  {
    hide Step, Joined;
    if ls == [] {
      NobodyJoinsAtFirst(k);
    } else {
      var front, l := ls[..|ls| - 1], ls[|ls| - 1];
      OnlyGuarded401sJoin(front, k);
      StepJoins(Run(INIT, front), l, k);
      forall n: nat | n < |front| ensures MeetsExpiry(ls, n, k) <==> MeetsExpiry(front, n, k) {
        assert front[..n] == ls[..n];
      }
      assert MeetsExpiry(ls, |ls| - 1, k) <==>
        l == Answer(k, Unauthorized) && InPhase(Run(INIT, front), k, Sent) &&
        !Run(INIT, front).requests[k].authFree && Run(INIT, front).stored != None;
    }
  }

  lemma NobodyJoinsAtFirst(k: nat)
    ensures !Joined(INIT, k)
  {}

  // ---------------------------------------------------------------- whose token a replay uses

  /** A waiter that has replayed. */
  predicate Released(s: State, k: nat) {
    k < |s.requests| && s.requests[k].queuedAt.Some? && s.requests[k].replayedWith.Some?
  }

  /** Step `n` is the success of a leader's refresh that released the waiter `k`, which
      replays with the new access token, for the sign-in under which the leader met its 401. */
  ghost predicate ReleasedAt(ls: seq<Label>, n: nat, k: nat)
    requires n < |ls| && Released(Run(INIT, ls), k)
  {
    var s, l, r := Run(INIT, ls[..n]), ls[n], Run(INIT, ls).requests[k];
    InPhase(s, k, Waiting) && l.Refreshed? && InPhase(s, l.i, Leading) &&
    r.session == s.requests[k].session &&
    r.replayedWith == Some(Grant(l.tokens.access, s.requests[l.i].session))
  }

  /** A replay keeps its token and its sign-in from then on. */
  lemma ReleasedStays(s: State, l: Label, k: nat)
    requires Inv(s) && Released(Step(s, l), k)
    ensures if Released(s, k) then
        Step(s, l).requests[k].session == s.requests[k].session &&
        Step(s, l).requests[k].replayedWith == s.requests[k].replayedWith
      else
        InPhase(s, k, Waiting) && l.Refreshed? && InPhase(s, l.i, Leading) &&
        Step(s, l).requests[k].session == s.requests[k].session &&
        Step(s, l).requests[k].replayedWith == Some(Grant(l.tokens.access, s.requests[l.i].session))
  {
    if k < |s.requests| { assert RequestOk(s.successes, s.requests[k]); }
  }

  lemma {:induction false} WaitersAreReleasedByLeaders(ls: seq<Label>, k: nat)
    requires Released(Run(INIT, ls), k)
    ensures exists n :: 0 <= n < |ls| && ReleasedAt(ls, n, k)
  {
    hide Step;
    if ls == [] {
    } else {
      var front, n := ls[..|ls| - 1], |ls| - 1;
      InterceptorLaws(front);
      ReleasedStays(Run(INIT, front), ls[n], k);
      if Released(Run(INIT, front), k) {
        WaitersAreReleasedByLeaders(front, k);
        var m :| 0 <= m < |front| && ReleasedAt(front, m, k);
        assert front[..m] == ls[..m];
        assert ReleasedAt(ls, m, k);
      } else {
        assert ReleasedAt(ls, n, k);
      }
    }
  }

  /** The leader of the refresh at step `n` met its 401 under the waiter's sign-in. */
  ghost predicate LedBySameSignIn(ls: seq<Label>, n: nat, k: nat)
    requires n < |ls| && Released(Run(INIT, ls), k) && ReleasedAt(ls, n, k)
  {
    Run(INIT, ls[..n]).requests[ls[n].i].session == Run(INIT, ls[..n]).requests[k].session
  }

  /** Over every run: a leader replays with a token of its own sign-in; and a waiter does if
      and only if the request that led the releasing refresh had met its 401 under the
      waiter's sign-in. */
  lemma ReplaysUseOwnSessionIff(ls: seq<Label>, k: nat)
    requires k < |Run(INIT, ls).requests| && Run(INIT, ls).requests[k].replayedWith.Some?
    ensures var r := Run(INIT, ls).requests[k];
      r.replayedWith.value.session == r.session <==>
        (r.queuedAt.Some? ==>
          exists n :: 0 <= n < |ls| && ReleasedAt(ls, n, k) && LedBySameSignIn(ls, n, k))
  {
    hide Step, Run;
    InterceptorLaws(ls);
    var r := Run(INIT, ls).requests[k];
    assert RequestOk(Run(INIT, ls).successes, r);
    if r.queuedAt.Some? {
      WaitersAreReleasedByLeaders(ls, k);
    } else {
      RepliesWereLed(ls);
    }
  }

  ghost predicate LedOrQueued(s: State) {
    forall k :: 0 <= k < |s.requests| && s.requests[k].replayedWith.Some? ==>
      s.requests[k].refreshes == 1 || s.requests[k].queuedAt.Some?
  }

  lemma StepKeepsLedOrQueued(s: State, l: Label)
    requires Inv(s) && LedOrQueued(s)
    ensures LedOrQueued(Step(s, l))
  {
    var t := Step(s, l);
    forall k | 0 <= k < |t.requests| && t.requests[k].replayedWith.Some?
      ensures t.requests[k].refreshes == 1 || t.requests[k].queuedAt.Some?
    {
      if k < |s.requests| { assert RequestOk(s.successes, s.requests[k]); }
    }
  }

  lemma {:induction false} RepliesWereLed(ls: seq<Label>)
    ensures LedOrQueued(Run(INIT, ls))
  {
    hide Step;
    if ls == [] {
    } else {
      RepliesWereLed(ls[..|ls| - 1]);
      InterceptorLaws(ls[..|ls| - 1]);
      StepKeepsLedOrQueued(Run(INIT, ls[..|ls| - 1]), ls[|ls| - 1]);
    }
  }

  /** Whatever is in flight or stored descends from sign-in `x`, the one of request `k`, and
      so does what the request replayed with. */
  ghost predicate OfSession(s: State, k: nat, x: nat) {
    k < |s.requests| && !s.requests[k].phase.Sent? && s.requests[k].session == x &&
    (s.requests[k].replayedWith.Some? ==> s.requests[k].replayedWith.value.session == x) &&
    (s.stored.Some? ==> s.session == x) &&
    (s.shared.Some? ==> s.shared.value.session == x) &&
    forall i :: 0 <= i < |s.requests| && s.requests[i].phase.Leading? ==> s.requests[i].session == x
  }

  lemma AnswerKeepsSession(s: State, i: nat, status: HttpStatus, k: nat, x: nat)
    requires OfSession(s, k, x)
    ensures OfSession(Step(s, Answer(i, status)), k, x)
  {}

  lemma RefreshedKeepsSession(s: State, i: nat, tokens: Stored, k: nat, x: nat)
    requires OfSession(s, k, x)
    ensures OfSession(Step(s, Refreshed(i, tokens)), k, x)
  {}

  lemma EndingKeepsSession(s: State, l: Label, k: nat, x: nat)
    requires OfSession(s, k, x) && (l.RefreshFailed? || l.Replayed? || l.Cancel?)
    ensures OfSession(Step(s, l), k, x)
  {
    if l.i < |s.requests| {
      FinishKeepsSession(s, l.i, k, x);
      hide OfSession;
      var t := Put(s, l.i, Finish(s.requests[l.i]));
      LogoutKeepsSession(t, k, x);
    }
  }

  lemma FinishKeepsSession(s: State, i: nat, k: nat, x: nat)
    requires OfSession(s, k, x) && i < |s.requests|
    ensures OfSession(Put(s, i, Finish(s.requests[i])), k, x)
  {}

  lemma LogoutKeepsSession(s: State, k: nat, x: nat)
    requires OfSession(s, k, x)
    ensures OfSession(Logout(s.(isRefreshing := false)), k, x)
  {}

  lemma OthersKeepSession(s: State, l: Label, k: nat, x: nat)
    requires OfSession(s, k, x) && (l.Send? || l.SignOut? || l.Reload?)
    ensures OfSession(Step(s, l), k, x)
  {}

  /** Without a sign-in in between, a request replays with a token of its own sign-in. */
  lemma {:induction false} NoSignInNoMixing(s: State, more: seq<Label>, k: nat, x: nat)
    requires OfSession(s, k, x) && (forall n :: 0 <= n < |more| ==> !more[n].SignIn?)
    ensures OfSession(Run(s, more), k, x)
  {
    hide Step;
    if more == [] {
    } else {
      var t, l := Run(s, more[..|more| - 1]), more[|more| - 1];
      NoSignInNoMixing(s, more[..|more| - 1], k, x);
      if l.Answer? {
        AnswerKeepsSession(t, l.i, l.status, k, x);
      } else if l.Refreshed? {
        RefreshedKeepsSession(t, l.i, l.tokens, k, x);
      } else if l.Send? || l.SignOut? || l.Reload? {
        OthersKeepSession(t, l, k, x);
      } else {
        EndingKeepsSession(t, l, k, x);
      }
    }
  }

  /** A waiter left over from a failed refresh replays with the token of the next sign-in. */
  lemma StrandedWaiterReplaysForAnother(tokens: Stored, others: Stored, renewed: Stored) returns (ls: seq<Label>)
    ensures |Run(INIT, ls).requests| == 3
    ensures var r := Run(INIT, ls).requests[1];
      r.queuedAt.Some? && r.session == 1 && r.replayedWith == Some(Grant(renewed.access, 2))
  {
    ls := StrandedBehindNewLeader(tokens, others);
    var e := Snoc(INIT, ls, Refreshed(2, renewed)); ls := ls + [Refreshed(2, renewed)];
  }

  lemma StrandedBehindNewLeader(tokens: Stored, others: Stored) returns (ls: seq<Label>)
    ensures var s := Run(INIT, ls);
      |s.requests| == 3 && s.requests[1].phase.Waiting? && s.requests[1].queuedAt.Some? &&
      s.requests[1].session == 1 && s.requests[2].phase.Leading? && s.requests[2].session == 2
  {
    ls := OneLeadsOneWaits(tokens);
    var a := Snoc(INIT, ls, RefreshFailed(0)); ls := ls + [RefreshFailed(0)];
    var b := Snoc(INIT, ls, SignIn(others)); ls := ls + [SignIn(others)];
    var c := Snoc(INIT, ls, Send(false)); ls := ls + [Send(false)];
    assert InPhase(c, 2, Sent) && !c.isRefreshing && c.session == 2;
    var d := Snoc(INIT, ls, Answer(2, Unauthorized)); ls := ls + [Answer(2, Unauthorized)];
  }
}
