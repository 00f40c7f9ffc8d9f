/** The interceptor and the part of `AuthService` it drives, with their shared module
    variables as fields; each callback is one step of the interceptor model. */
module AuthInterceptor {
  import opened Domain
  import opened Interceptor

  class Page {
    var stored: Option<Stored>
    var isRefreshing: bool
    var shared: Option<Grant>
    var requests: seq<Request>
    var signIns: nat
    var session: nat
    var successes: seq<Grant>
    var logouts: seq<Raw>

    constructor ()
      ensures View() == INIT
    {
      stored, isRefreshing, shared, requests := None, false, None, [];
      signIns, session, successes, logouts := 0, 0, [], [];
    }

    ghost function View(): State
      reads this
    {
      State(stored, isRefreshing, shared, requests, signIns, session, successes, logouts)
    }

    /** `AuthService.logout`: the token to revoke is the stored one, and it is sent once. */
    method SignOutNow()
      modifies this`stored, this`logouts
      ensures View() == Logout(old(View()))
      ensures stored.None?
      ensures logouts == old(logouts) + (if old(stored).Some? then [old(stored).value.refresh] else [])
    {
      if stored.Some? {
        logouts := logouts + [stored.value.refresh];
      }
      stored := None;
    }

    /** `authInterceptor` passing a request on: it has been sent once and has met no 401. */
    method Intercept(authFree: bool) returns (i: nat)
      modifies this`requests
      ensures View() == Step(old(View()), Send(authFree))
      ensures i == |old(requests)| && InPhase(View(), i, Sent) && requests[..i] == old(requests)
      ensures requests[i].sends == 1 && requests[i].refreshes == 0 && requests[i].authFree == authFree
    {
      i := |requests|;
      requests := requests + [NewRequest(authFree)];
    }

    /** `handle401`. */
    method HandleUnauthorized(i: nat)
      requires i < |requests|
      modifies this`requests, this`isRefreshing, this`shared
      ensures View() == Handle401(old(View()), i)
      ensures |requests| == |old(requests)| && requests[i].session == session
      ensures if old(isRefreshing) then
          isRefreshing && shared == old(shared) && requests[i].queuedAt == Some(|successes|) &&
          requests[i].refreshes == old(requests)[i].refreshes &&
          (shared.None? ==> requests[i].phase == Waiting && requests[i].sends == old(requests)[i].sends) &&
          (shared.Some? ==> requests[i].phase == Replaying && requests[i].sends == old(requests)[i].sends + 1)
        else
          isRefreshing && shared == None && requests[i].phase == Leading &&
          requests[i].refreshes == old(requests)[i].refreshes + 1
      ensures forall k :: 0 <= k < |requests| && k != i ==> requests[k] == old(requests)[k]
    {
      var r := requests[i].(session := session);
      if isRefreshing {
        r := r.(queuedAt := Some(|successes|));
        if shared.Some? {
          requests := requests[i := Replay(r, shared.value)];
        } else {
          requests := requests[i := r.(phase := Waiting)];
        }
        return;
      }
      isRefreshing := true;
      shared := None;
      requests := requests[i := r.(phase := Leading, refreshes := r.refreshes + 1)];
    }

    /** The answer to a request's first attempt. */
    method OnAnswer(i: nat, status: HttpStatus)
      requires InPhase(View(), i, Sent)
      modifies this`requests, this`isRefreshing, this`shared
      ensures View() == Step(old(View()), Answer(i, status))
      ensures |requests| == |old(requests)|
      ensures requests[i].phase != Finished <==>
        status == Unauthorized && !old(requests)[i].authFree && stored != None
      ensures requests[i].phase == Finished ==> isRefreshing == old(isRefreshing) && shared == old(shared)
    {
      if status.Unauthorized? && !requests[i].authFree && stored.Some? {
        HandleUnauthorized(i);
      } else {
        requests := requests[i := Finish(requests[i])];
      }
    }

    /** `refreshTokens` stores the pair; then the waiters and the leader replay. */
    method OnRefreshed(i: nat, tokens: Stored)
      requires InPhase(View(), i, Leading)
      modifies this`requests, this`isRefreshing, this`shared, this`stored, this`session, this`successes
      ensures View() == Step(old(View()), Refreshed(i, tokens))
      ensures stored == Some(tokens) && !isRefreshing && |requests| == |old(requests)|
      ensures forall k :: 0 <= k < |requests| ==>
        var was := old(requests)[k];
        if k == i || was.phase == Waiting then
          requests[k].phase == Replaying && requests[k].sends == was.sends + 1 &&
          requests[k].replayedWith == Some(Grant(tokens.access, old(requests)[i].session))
        else requests[k] == was
    {
      var grant := Grant(tokens.access, requests[i].session);
      stored := Some(tokens);
      session := grant.session;
      isRefreshing := false;
      shared := Some(grant);
      var before := requests;
      var k := 0;
      while k < |requests|
        modifies this`requests
        invariant 0 <= k <= |requests| == |before|
        invariant forall j :: 0 <= j < k ==> requests[j] == Release(before, grant, |successes|)[j]
        invariant forall j :: k <= j < |requests| ==> requests[j] == before[j]
      {
        if requests[k].phase.Waiting? {
          requests := requests[k := Replay(requests[k], grant).(releasedBy := Some(|successes|))];
        }
        k := k + 1;
      }
      assert requests == Release(before, grant, |successes|);
      requests := requests[i := Replay(requests[i], grant)];
      successes := successes + [grant];
    }

    /** The leader's `catchError`: a failed refresh, or a failed replay after it. */
    method OnLeaderError(i: nat)
      requires i < |requests| && requests[i].refreshes > 0
      requires requests[i].phase.Leading? || requests[i].phase.Replaying?
      modifies this`requests, this`isRefreshing, this`stored, this`logouts
      ensures var l := if old(requests)[i].phase.Leading? then RefreshFailed(i) else Replayed(i, false);
        View() == Step(old(View()), l)
      ensures !isRefreshing && stored == None && shared == old(shared)
      ensures logouts == old(logouts) + (if old(stored).Some? then [old(stored).value.refresh] else [])
      ensures requests == old(requests)[i := old(requests)[i].(phase := Finished)]
    {
      isRefreshing := false;
      SignOutNow();
      requests := requests[i := Finish(requests[i])];
    }

    /** The answer to a replay: only a request that had led a refresh signs out on failure. */
    method OnReplayed(i: nat, ok: bool)
      requires InPhase(View(), i, Replaying)
      modifies this`requests, this`isRefreshing, this`stored, this`logouts
      ensures View() == Step(old(View()), Replayed(i, ok))
      ensures requests == old(requests)[i := old(requests)[i].(phase := Finished)]
      ensures if !ok && old(requests)[i].refreshes > 0 then !isRefreshing && stored == None
        else isRefreshing == old(isRefreshing) && stored == old(stored) && logouts == old(logouts)
    {
      if !ok && requests[i].refreshes > 0 {
        OnLeaderError(i);
      } else {
        requests := requests[i := Finish(requests[i])];
      }
    }

    /** The caller unsubscribes: no callback of the request runs any more, so the flag and
        the tokens stay as they are. */
    method OnUnsubscribed(i: nat)
      modifies this`requests
      ensures View() == Step(old(View()), Cancel(i))
      ensures !InPhase(View(), i, Leading) && !InPhase(View(), i, Waiting)
      ensures |requests| == |old(requests)|
      ensures forall k :: 0 <= k < |requests| && k != i ==> requests[k] == old(requests)[k]
    {
      if i < |requests| {
        requests := requests[i := Finish(requests[i])];
      }
    }

    /** `AuthService.applySession`, the token part: requests in progress are not touched. */
    method ApplySession(tokens: Stored)
      modifies this`stored, this`signIns, this`session
      ensures View() == Step(old(View()), SignIn(tokens))
      ensures stored == Some(tokens)
      ensures requests == old(requests) && isRefreshing == old(isRefreshing) && shared == old(shared)
    {
      stored := Some(tokens);
      signIns := signIns + 1;
      session := signIns;
    }
  }
}
