/** The client's single-flight refresh composed with the server's token families: one page
    whose refresh calls, logouts and sign-ins reach `TokenService`, among other clients. */
module Session {
  import opened Domain
  import C = Interceptor
  import S = Tokens

  /** A refresh call in flight: the token it carries, and the server's answer once there is one. */
  datatype RefreshCall = RefreshCall(raw: S.Raw, reply: Option<S.Outcome>)

  /** `calls` are the refresh calls of leading requests; `orphans` are the tokens of calls
      that the page has given up and the server may still serve; `pending` are logouts under
      way; `mine` is history: the families issued to this client. */
  datatype State = State(
    server: S.State,
    client: C.State,
    calls: map<nat, RefreshCall>,
    orphans: multiset<S.Raw>,
    pending: multiset<S.Raw>,
    mine: set<Id>)

  const INIT := State(S.INIT, C.INIT, map[], multiset{}, multiset{}, {})

  datatype Label =
    | Send(authFree: bool)
    | Answer(i: nat, status: C.HttpStatus)
    | Replayed(i: nat, ok: bool)
    | SignIn(userId: Id, access: nat, jwtExpiry: Time, rowExpiry: Time)
    | SignOut
    | Reload
    | ServeRefresh(i: nat, now: Time, jwtExpiry: Time, rowExpiry: Time)
    | DeliverRefresh(i: nat, access: nat)
    | LoseRefresh(i: nat)
    | RefuseRefresh(i: nat)
    | Cancel(i: nat)
    | ServeOrphan(raw: S.Raw, now: Time, jwtExpiry: Time, rowExpiry: Time)
    | ServeLogout(raw: S.Raw, now: Time)
    | LoseLogout(raw: S.Raw)
    | OtherClient(call: S.Call)

  // ---------------------------------------------------------------- steps

  /** Moves the client; logouts it issues go under way, and a request that starts to lead
      sends the refresh token stored at that moment. */
  function Move(s: State, l: C.Label): State {
    var client := C.Step(s.client, l);
    s.(client := client,
       pending := s.pending + multiset(client.logouts[|s.client.logouts|..]))
  }

  function Lead(s: State, t: State, i: nat): State {
    if C.InPhase(t.client, i, C.Leading) && !C.InPhase(s.client, i, C.Leading) && s.client.stored.Some?
    then t.(calls := t.calls[i := RefreshCall(s.client.stored.value.refresh, None)])
    else t
  }

  function Drop(s: State, i: nat): State {
    s.(calls := s.calls - {i})
  }

  /** The page gives the call up; if the server has not answered it yet, it may still do so. */
  function GiveUp(s: State, i: nat): State
    requires i in s.calls
  {
    var call := s.calls[i];
    Drop(s, i).(orphans := if call.reply.None? then s.orphans + multiset{call.raw} else s.orphans)
  }

  /** A call some other client may make: it only presents tokens of families that are not ours. */
  predicate Foreign(s: State, call: S.Call) {
    match call
    case Login(_, _, _) => true
    case Rotate(token, _, _, _) => token.Signed? ==> token.raw.familyId !in s.mine
    case Revoke(token, _) => token.Signed? ==> token.raw.familyId !in s.mine
    case SetActive(_, _) => true
  }

  function Unserved(s: State): set<S.Raw> {
    set i | i in s.calls && s.calls[i].reply.None? :: s.calls[i].raw
  }

  function Step(s: State, l: Label): State {
    match l
    case Send(authFree) => Move(s, C.Send(authFree))
    case Answer(i, status) => Lead(s, Move(s, C.Answer(i, status)), i)
    case Replayed(i, ok) => Move(s, C.Replayed(i, ok))
    case SignIn(userId, access, jwtExpiry, rowExpiry) =>
      if userId in s.server.active && s.server.active[userId] then
        var raw := S.Minted(s.server, userId, s.server.families, jwtExpiry);
        var t := Move(s, C.SignIn(C.Stored(access, raw)));
        t.(server := S.Step(s.server, S.Login(userId, jwtExpiry, rowExpiry)),
           mine := s.mine + {s.server.families})
      else s
    case SignOut => Move(s, C.SignOut)
    case Reload =>
      Move(s, C.Reload).(calls := map[], orphans := s.orphans + multiset(Unserved(s)))
    case ServeRefresh(i, now, jwtExpiry, rowExpiry) =>
      if i in s.calls && s.calls[i].reply.None? then
        var token := S.Signed(s.calls[i].raw);
        s.(server := S.Step(s.server, S.Rotate(token, now, jwtExpiry, rowExpiry)),
           calls := s.calls[i := s.calls[i].(reply := Some(S.OutcomeOf(s.server, token, now, jwtExpiry)))])
      else s
    case DeliverRefresh(i, access) =>
      if i in s.calls && s.calls[i].reply.Some? then
        var outcome := s.calls[i].reply.value;
        var l := if outcome.Rotated? then C.Refreshed(i, C.Stored(access, outcome.raw)) else C.RefreshFailed(i);
        Drop(Move(s, l), i)
      else s
    case LoseRefresh(i) =>
      if i in s.calls then GiveUp(Move(s, C.RefreshFailed(i)), i) else s
    case RefuseRefresh(i) =>
      if i in s.calls && s.calls[i].reply.None? then Drop(Move(s, C.RefreshFailed(i)), i) else s
    case Cancel(i) =>
      var t := Move(s, C.Cancel(i));
      if i in s.calls then GiveUp(t, i) else t
    case ServeOrphan(raw, now, jwtExpiry, rowExpiry) =>
      if raw in s.orphans
      then s.(server := S.Step(s.server, S.Rotate(S.Signed(raw), now, jwtExpiry, rowExpiry)),
              orphans := s.orphans - multiset{raw}) else s
    case ServeLogout(raw, now) =>
      if raw in s.pending
      then s.(server := S.Step(s.server, S.Revoke(S.Signed(raw), now)),
              pending := s.pending - multiset{raw}) else s
    case LoseLogout(raw) => s.(pending := s.pending - multiset{raw})
    case OtherClient(call) => if Foreign(s, call) then s.(server := S.Step(s.server, call)) else s
  }

  function Run(s: State, ls: seq<Label>): State {
    if ls == [] then s else Step(Run(s, ls[..|ls| - 1]), ls[|ls| - 1])
  }

  // ---------------------------------------------------------------- calm runs

  /** The refresh in flight that concerns the stored token. A call whose session has been
      replaced by a later sign-in is not one. */
  predicate Own(s: State, j: nat) {
    j in s.calls && s.client.stored.Some? && s.calls[j].raw.familyId == s.client.stored.value.refresh.familyId
  }

  /** The step parts the page from the call: a sign-out, a reload of the page, a failing replay
      by a request that had led a refresh, the unsubscribing of the call's leader, an error
      for the call while the server may still serve it, or the end of any other call that
      signs the page out. */
  predicate PartsFrom(s: State, l: Label, j: nat) {
    match l
    case SignOut => true
    case Reload => true
    case Replayed(i, ok) => !ok && C.InPhase(s.client, i, C.Replaying) && s.client.requests[i].refreshes > 0
    case Cancel(i) => i == j
    case LoseRefresh(i) => i in s.calls && (i != j || s.calls[i].reply.None?)
    case RefuseRefresh(i) => i in s.calls && s.calls[i].reply.None? && i != j
    case DeliverRefresh(i, _) => i in s.calls && Refusal(s.calls[i]) && i != j
    case _ => false
  }

  /** The server has refused the call. */
  predicate Refusal(call: RefreshCall) {
    call.reply.Some? && !call.reply.value.Rotated?
  }

  /** The step does not part the page from the refresh in flight for its stored token. */
  ghost predicate Calm(s: State, l: Label) {
    forall j :: Own(s, j) ==> !PartsFrom(s, l, j)
  }

  ghost predicate CalmRun(s: State, ls: seq<Label>) {
    forall k :: 0 <= k < |ls| ==> Calm(Run(s, ls[..k]), ls[k])
  }

  /** A token of ours that the server issued and has not revoked. */
  ghost predicate Good(s: State, raw: S.Raw) {
    S.Stored(s.server, raw) && raw.familyId in s.mine && s.server.rows[raw.jti].familyId == raw.familyId &&
    S.Live(s.server, raw.jti)
  }

  /** A token of ours that the server issued and has revoked since. */
  ghost predicate Used(s: State, raw: S.Raw) {
    S.Stored(s.server, raw) && raw.familyId in s.mine && s.server.rows[raw.jti].familyId == raw.familyId &&
    s.server.rows[raw.jti].revokedAt.Some?
  }

  /** No logout under way concerns the token's family. */
  ghost predicate Undisturbed(s: State, raw: S.Raw) {
    forall p :: p in s.pending ==> p.familyId != raw.familyId
  }

  ghost predicate CallOk(s: State, call: RefreshCall) {
    Undisturbed(s, call.raw) && call.raw.familyId in s.mine &&
    match call.reply
    case None => Good(s, call.raw)
    case Some(outcome) =>
      !outcome.ReuseDetected? &&
      (outcome.Rotated? ==>
        Good(s, outcome.raw) && outcome.raw.familyId == call.raw.familyId && Used(s, call.raw))
  }

  /** A call given up: its token is good, and nobody else holds one of its family. */
  ghost predicate OrphanOk(s: State, raw: S.Raw) {
    Good(s, raw) && Undisturbed(s, raw) && s.orphans[raw] == 1 && NoCallOf(s, raw.familyId)
  }

  ghost predicate NoCallOf(s: State, familyId: Id) {
    forall i :: i in s.calls ==> s.calls[i].raw.familyId != familyId
  }

  ghost predicate NoOrphanOf(s: State, familyId: Id) {
    forall o :: o in s.orphans ==> o.familyId != familyId
  }

  /** Refreshes are in flight exactly for the leading requests, never two for one family. */
  ghost predicate FlightsOk(s: State) {
    (forall i :: i in s.calls <==> C.InPhase(s.client, i, C.Leading)) &&
    (forall i :: i in s.calls ==> CallOk(s, s.calls[i])) &&
    (forall i, j :: i in s.calls && j in s.calls && i != j ==> s.calls[i].raw.familyId != s.calls[j].raw.familyId)
  }

  ghost predicate OrphansOk(s: State) {
    (forall o :: o in s.orphans ==> OrphanOk(s, o)) &&
    (forall o, p :: o in s.orphans && p in s.orphans && o != p ==> o.familyId != p.familyId)
  }

  /** The stored token is good, or its refresh is in flight and the page knows it. */
  ghost predicate StoredOk(s: State, raw: S.Raw) {
    raw.familyId in s.mine && Undisturbed(s, raw) && NoOrphanOf(s, raw.familyId) &&
    (NoCallOf(s, raw.familyId) ==> Good(s, raw)) &&
    (forall i :: i in s.calls && s.calls[i].raw.familyId == raw.familyId ==>
      s.calls[i].raw == raw && s.client.isRefreshing)
  }

  ghost predicate ServerOk(s: State) {
    S.Chains(s.server) &&
    (forall f :: f in s.mine ==> f < s.server.families && f !in s.server.reported) &&
    (forall p :: p in s.pending ==> p.familyId in s.mine)
  }

  ghost predicate SessionOk(s: State) {
    ServerOk(s) && FlightsOk(s) && OrphansOk(s) &&
    (s.client.stored.Some? ==> StoredOk(s, s.client.stored.value.refresh))
  }

  // ---------------------------------------------------------------- what calm runs keep

  /** A server step that leaves our families alone leaves our good tokens good. */
  ghost predicate Spares(s: S.State, t: S.State, familyId: Id) {
    |s.rows| <= |t.rows| && forall i :: 0 <= i < |s.rows| && s.rows[i].familyId == familyId ==> t.rows[i] == s.rows[i]
  }

  lemma GoodStays(s: State, t: State, raw: S.Raw)
    requires Spares(s.server, t.server, raw.familyId) && s.mine <= t.mine
    ensures Good(s, raw) ==> Good(t, raw)
    ensures Used(s, raw) ==> Used(t, raw)
  {}

  /** A call of the server only touches the family of the token it presents. */
  lemma CallSpares(s: S.State, call: S.Call, f: Id)
    requires S.Chains(s) && f < s.families
    requires (call.Rotate? || call.Revoke?) && call.token.Signed? ==> call.token.raw.familyId != f
    ensures Spares(s, S.Step(s, call), f)
    ensures f in S.Step(s, call).reported ==> f in s.reported
  {
    if call.Rotate? && call.token.Signed? && call.token.raw.jti < |s.rows| {
      assert S.Linked(s, call.token.raw.jti);
    }
  }

  lemma CallStaysOk(s: State, t: State, call: RefreshCall)
    requires CallOk(s, call) && Spares(s.server, t.server, call.raw.familyId) && s.mine <= t.mine
    requires forall p :: p in t.pending ==> p in s.pending || p.familyId != call.raw.familyId
    ensures CallOk(t, call)
  {
    GoodStays(s, t, call.raw);
    if call.reply.Some? && call.reply.value.Rotated? { GoodStays(s, t, call.reply.value.raw); }
  }

  /** The client's part stays as it is, logouts may be gone, and the server spares every
      family that a call, an orphan or the storage holds, except one being dealt with. */
  lemma ServerStepKeepsRest(s: State, t: State)
    requires SessionOk(s) && ServerOk(t)
    requires t.client == s.client && t.calls == s.calls && t.orphans == s.orphans && t.mine == s.mine
    requires forall p :: p in t.pending ==> p in s.pending
    requires forall i :: i in s.calls ==> Spares(s.server, t.server, s.calls[i].raw.familyId)
    requires forall o :: o in s.orphans ==> Spares(s.server, t.server, o.familyId)
    requires s.client.stored.Some? ==> Spares(s.server, t.server, s.client.stored.value.refresh.familyId)
    ensures SessionOk(t)
  {
    forall i | i in t.calls ensures CallOk(t, t.calls[i]) { CallStaysOk(s, t, s.calls[i]); }
    forall o | o in t.orphans ensures OrphanOk(t, o) {
      assert OrphanOk(s, o);
      GoodStays(s, t, o);
    }
    if s.client.stored.Some? { GoodStays(s, t, s.client.stored.value.refresh); }
  }

  lemma OtherKeepsSession(s: State, call: S.Call)
    requires SessionOk(s)
    ensures SessionOk(Step(s, OtherClient(call)))
  {
    if Foreign(s, call) {
      var t := Step(s, OtherClient(call));
      S.StepKeepsChains(s.server, call);
      forall f | f in s.mine ensures Spares(s.server, t.server, f) && f !in t.server.reported {
        CallSpares(s.server, call, f);
      }
      assert s.server.families <= t.server.families;
      assert forall o :: o in s.orphans ==> OrphanOk(s, o);
      ServerStepKeepsRest(s, t);
    }
  }

  lemma ServeLogoutKeepsSession(s: State, raw: S.Raw, now: Time)
    requires SessionOk(s)
    ensures SessionOk(Step(s, ServeLogout(raw, now)))
  {
    if raw in s.pending {
      var t := Step(s, ServeLogout(raw, now));
      var call := S.Revoke(S.Signed(raw), now);
      S.StepKeepsChains(s.server, call);
      forall f | f in s.mine && f != raw.familyId ensures Spares(s.server, t.server, f) {
        CallSpares(s.server, call, f);
      }
      assert forall o :: o in s.orphans ==> OrphanOk(s, o);
      ServerStepKeepsRest(s, t);
    }
  }

  lemma LoseLogoutKeepsSession(s: State, raw: S.Raw)
    requires SessionOk(s)
    ensures SessionOk(Step(s, LoseLogout(raw)))
  {
    ServerStepKeepsRest(s, Step(s, LoseLogout(raw)));
  }

  /** A good token is not reported, and its family keeps out of everybody else's way. */
  lemma RotateIsClean(s: State, raw: S.Raw, now: Time, jwtExpiry: Time, rowExpiry: Time)
    requires ServerOk(s) && Good(s, raw)
    ensures var outcome := S.OutcomeOf(s.server, S.Signed(raw), now, jwtExpiry);
      var t := s.(server := S.Step(s.server, S.Rotate(S.Signed(raw), now, jwtExpiry, rowExpiry)));
      !outcome.ReuseDetected? && ServerOk(t) &&
      (!outcome.Rotated? ==> t == s) &&
      (outcome.Rotated? ==> Good(t, outcome.raw) && outcome.raw.familyId == raw.familyId && Used(t, raw)) &&
      forall f :: f in s.mine && f != raw.familyId ==> Spares(s.server, t.server, f)
  {
    var call := S.Rotate(S.Signed(raw), now, jwtExpiry, rowExpiry);
    S.StepKeepsChains(s.server, call);
    forall f | f in s.mine && f != raw.familyId ensures Spares(s.server, S.Step(s.server, call), f) {
      CallSpares(s.server, call, f);
    }
  }

  lemma ServeRefreshKeepsSession(s: State, i: nat, now: Time, jwtExpiry: Time, rowExpiry: Time)
    requires SessionOk(s)
    ensures SessionOk(Step(s, ServeRefresh(i, now, jwtExpiry, rowExpiry)))
  {
    if i in s.calls && s.calls[i].reply.None? {
      var t := Step(s, ServeRefresh(i, now, jwtExpiry, rowExpiry));
      assert CallOk(s, s.calls[i]);
      RotateIsClean(s, s.calls[i].raw, now, jwtExpiry, rowExpiry);
      assert ServerOk(t);
      AnsweredKeepsSession(s, t, i);
    }
  }

  /** A call gets its answer; every other family is spared. */
  lemma AnsweredKeepsSession(s: State, t: State, i: nat)
    requires SessionOk(s) && ServerOk(t) && i in s.calls && i in t.calls && t.calls[i].raw == s.calls[i].raw
    requires t == s.(server := t.server, calls := s.calls[i := t.calls[i]])
    requires CallOk(t, t.calls[i])
    requires forall f :: f in s.mine && f != s.calls[i].raw.familyId ==> Spares(s.server, t.server, f)
    ensures SessionOk(t)
  {
    SameRawsSameCalls(s, t);
    AnsweredFlightsOk(s, t, i);
    AnsweredOrphansOk(s, t, i);
    if s.client.stored.Some? { AnsweredStoredOk(s, t, i, s.client.stored.value.refresh); }
  }

  lemma AnsweredFlightsOk(s: State, t: State, i: nat)
    requires FlightsOk(s) && i in s.calls && i in t.calls && t.calls[i].raw == s.calls[i].raw
    requires t == s.(server := t.server, calls := s.calls[i := t.calls[i]]) && CallOk(t, t.calls[i])
    requires forall f :: f in s.mine && f != s.calls[i].raw.familyId ==> Spares(s.server, t.server, f)
    ensures FlightsOk(t)
  {
    forall j | j in t.calls ensures CallOk(t, t.calls[j]) {
      if j != i {
        assert CallOk(s, s.calls[j]);
        CallStaysOk(s, t, s.calls[j]);
      }
    }
  }

  lemma SameRawsSameCalls(s: State, t: State)
    requires t.calls.Keys == s.calls.Keys && forall j :: j in s.calls ==> t.calls[j].raw == s.calls[j].raw
    ensures forall f :: NoCallOf(t, f) <==> NoCallOf(s, f)
  {}

  lemma AnsweredOrphansOk(s: State, t: State, i: nat)
    requires OrphansOk(s) && i in s.calls && t.orphans == s.orphans && t.pending == s.pending && t.mine == s.mine
    requires forall f :: NoCallOf(t, f) <==> NoCallOf(s, f)
    requires forall f :: f in s.mine && f != s.calls[i].raw.familyId ==> Spares(s.server, t.server, f)
    ensures OrphansOk(t)
  {
    forall o | o in t.orphans ensures OrphanOk(t, o) {
      assert OrphanOk(s, o);
      GoodStays(s, t, o);
    }
  }

  lemma AnsweredStoredOk(s: State, t: State, i: nat, raw: S.Raw)
    requires StoredOk(s, raw) && i in s.calls && t.orphans == s.orphans && t.pending == s.pending
    requires t.mine == s.mine && t.client == s.client && t.calls.Keys == s.calls.Keys
    requires forall j :: j in s.calls ==> t.calls[j].raw == s.calls[j].raw
    requires forall f :: NoCallOf(t, f) <==> NoCallOf(s, f)
    requires forall f :: f in s.mine && f != s.calls[i].raw.familyId ==> Spares(s.server, t.server, f)
    ensures StoredOk(t, raw)
  {
    if NoCallOf(s, raw.familyId) { GoodStays(s, t, raw); }
  }

  lemma ServeOrphanKeepsSession(s: State, raw: S.Raw, now: Time, jwtExpiry: Time, rowExpiry: Time)
    requires SessionOk(s)
    ensures SessionOk(Step(s, ServeOrphan(raw, now, jwtExpiry, rowExpiry)))
  {
    if raw in s.orphans {
      var u := s.(orphans := s.orphans - multiset{raw});
      var t := Step(s, ServeOrphan(raw, now, jwtExpiry, rowExpiry));
      assert OrphanOk(s, raw);
      RotateIsClean(s, raw, now, jwtExpiry, rowExpiry);
      OrphanRemoved(s, u, raw);
      FewerOrphansKeepSession(s, u);
      assert t == u.(server := t.server) && ServerOk(t);
      ServedOrphanKeepsRest(u, t, raw);
    }
  }

  lemma OrphanRemoved(s: State, u: State, raw: S.Raw)
    requires OrphansOk(s) && raw in s.orphans && u == s.(orphans := s.orphans - multiset{raw})
    requires s.client.stored.Some? ==> StoredOk(s, s.client.stored.value.refresh)
    ensures forall o :: o in u.orphans ==> o in s.orphans && o.familyId != raw.familyId && u.orphans[o] == s.orphans[o]
    ensures NoCallOf(u, raw.familyId)
    ensures s.client.stored.Some? ==> s.client.stored.value.refresh.familyId != raw.familyId
  {
    assert OrphanOk(s, raw);
  }

  lemma ServedOrphanKeepsRest(u: State, t: State, raw: S.Raw)
    requires SessionOk(u) && ServerOk(t) && t == u.(server := t.server)
    requires forall o :: o in u.orphans ==> o.familyId != raw.familyId
    requires NoCallOf(u, raw.familyId)
    requires u.client.stored.Some? ==> u.client.stored.value.refresh.familyId != raw.familyId
    requires forall f :: f in u.mine && f != raw.familyId ==> Spares(u.server, t.server, f)
    ensures SessionOk(t)
  {
    assert forall o :: o in u.orphans ==> OrphanOk(u, o);
    assert forall i :: i in u.calls ==> CallOk(u, u.calls[i]);
    ServerStepKeepsRest(u, t);
  }

  lemma FewerOrphansKeepSession(s: State, u: State)
    requires SessionOk(s) && u == s.(orphans := u.orphans)
    requires forall o :: o in u.orphans ==> o in s.orphans && u.orphans[o] == s.orphans[o]
    ensures SessionOk(u)
  {
    hide CallOk, OrphanOk;
    FewerFlightsOk(s, u);
    FewerOrphansOk(s, u);
  }

  lemma FewerOrphansOk(s: State, u: State)
    requires OrphansOk(s) && u == s.(orphans := u.orphans)
    requires forall o :: o in u.orphans ==> o in s.orphans && u.orphans[o] == s.orphans[o]
    ensures OrphansOk(u)
  {
    forall o | o in u.orphans ensures OrphanOk(u, o) { assert OrphanOk(s, o); }
  }

  /** A client step that keeps the tokens, the calls and the flag keeps the session. */
  lemma QuietMoveKeepsSession(s: State, t: State)
    requires SessionOk(s)
    requires t.server == s.server && t.mine == s.mine
    requires t.calls == s.calls && t.orphans == s.orphans && t.pending == s.pending
    requires t.client.stored == s.client.stored && t.client.isRefreshing == s.client.isRefreshing
    requires forall i :: C.InPhase(t.client, i, C.Leading) <==> C.InPhase(s.client, i, C.Leading)
    ensures SessionOk(t)
  {
    forall i | i in t.calls ensures CallOk(t, t.calls[i]) { assert CallOk(s, s.calls[i]); }
    forall o | o in t.orphans ensures OrphanOk(t, o) { assert OrphanOk(s, o); }
  }

  lemma SignInKeepsSession(s: State, userId: Id, access: nat, jwtExpiry: Time, rowExpiry: Time)
    requires SessionOk(s)
    ensures SessionOk(Step(s, SignIn(userId, access, jwtExpiry, rowExpiry)))
  {
    hide Step, CallOk, OrphanOk, StoredOk;
    if userId in s.server.active && s.server.active[userId] {
      SignInIs(s, userId, access, jwtExpiry, rowExpiry);
      NewSessionKeepsSession(s, Step(s, SignIn(userId, access, jwtExpiry, rowExpiry)));
    } else {
      NobodySignsIn(s, userId, access, jwtExpiry, rowExpiry);
    }
  }

  lemma NobodySignsIn(s: State, userId: Id, access: nat, jwtExpiry: Time, rowExpiry: Time)
    requires !(userId in s.server.active && s.server.active[userId])
    ensures Step(s, SignIn(userId, access, jwtExpiry, rowExpiry)) == s
  {}

  lemma SignInIs(s: State, userId: Id, access: nat, jwtExpiry: Time, rowExpiry: Time)
    requires ServerOk(s) && userId in s.server.active && s.server.active[userId]
    ensures var t := Step(s, SignIn(userId, access, jwtExpiry, rowExpiry));
      ServerOk(t) && t == s.(server := t.server, client := t.client, mine := t.mine) && s.mine <= t.mine &&
      (forall f :: f in s.mine ==> Spares(s.server, t.server, f)) &&
      (forall i :: C.InPhase(t.client, i, C.Leading) <==> C.InPhase(s.client, i, C.Leading)) &&
      t.client.stored.Some? && Good(t, t.client.stored.value.refresh) &&
      t.client.stored.value.refresh.familyId !in s.mine
  {
    var t := Step(s, SignIn(userId, access, jwtExpiry, rowExpiry));
    var call := S.Login(userId, jwtExpiry, rowExpiry);
    S.StepKeepsChains(s.server, call);
    forall f | f in s.mine ensures f < s.server.families && Spares(s.server, t.server, f) {
      CallSpares(s.server, call, f);
    }
    assert t.client.logouts[|s.client.logouts|..] == [];
    assert t.pending == s.pending;
  }

  /** The page stores a good token of a family that nobody else holds. */
  lemma NewSessionKeepsSession(s: State, t: State)
    requires SessionOk(s) && ServerOk(t) && s.mine <= t.mine
    requires t.calls == s.calls && t.orphans == s.orphans && t.pending == s.pending
    requires forall f :: f in s.mine ==> Spares(s.server, t.server, f)
    requires forall i :: C.InPhase(t.client, i, C.Leading) <==> C.InPhase(s.client, i, C.Leading)
    requires t.client.stored.Some? && Good(t, t.client.stored.value.refresh)
    requires t.client.stored.value.refresh.familyId !in s.mine
    ensures SessionOk(t)
  {
    forall i | i in t.calls ensures CallOk(t, t.calls[i]) {
      assert CallOk(s, s.calls[i]);
      CallStaysOk(s, t, s.calls[i]);
    }
    forall o | o in t.orphans ensures OrphanOk(t, o) {
      assert OrphanOk(s, o);
      GoodStays(s, t, o);
    }
  }

  /** Some calls are gone; no logout came that concerns one of the others. */
  lemma FewerFlightsOk(s: State, t: State)
    requires FlightsOk(s) && t.server == s.server && t.mine == s.mine
    requires forall i :: i in t.calls ==> i in s.calls && t.calls[i] == s.calls[i]
    requires forall i: nat :: C.InPhase(t.client, i, C.Leading) <==> i in t.calls
    requires forall p, i :: p in t.pending && i in t.calls ==> p in s.pending || p.familyId != s.calls[i].raw.familyId
    ensures FlightsOk(t)
  {
    forall i | i in t.calls ensures CallOk(t, t.calls[i]) {
      assert CallOk(s, s.calls[i]);
      CallStaysOk(s, t, s.calls[i]);
    }
  }

  /** The page forgets its tokens; the calls left in flight are none of the stored token's, and
      a call given up on the way was not either. */
  lemma LogoutKeepsSession(s: State, t: State, orphan: Option<nat>)
    requires SessionOk(s)
    requires t.server == s.server && t.mine == s.mine && t.client.stored.None?
    requires forall i :: i in t.calls ==> i in s.calls && t.calls[i] == s.calls[i] && !Own(s, i)
    requires forall i: nat :: C.InPhase(t.client, i, C.Leading) <==> i in t.calls
    requires PendingGrows(s, t)
    requires GivenUp(s, t, orphan) && (orphan.Some? ==> !Own(s, orphan.value))
    ensures SessionOk(t)
  {
    FewerFlightsOk(s, t);
    GivingUpKeepsOrphans(s, t, orphan);
  }

  /** At most the stored token has been sent to be revoked. */
  ghost predicate PendingGrows(s: State, t: State) {
    forall p :: p in t.pending ==> p in s.pending || (s.client.stored.Some? && p == s.client.stored.value.refresh)
  }

  lemma GivingUpKeepsOrphans(s: State, t: State, orphan: Option<nat>)
    requires FlightsOk(s) && OrphansOk(s) && GivenUp(s, t, orphan) && PendingGrows(s, t)
    requires t.server == s.server && t.mine == s.mine
    requires forall i :: i in t.calls ==> i in s.calls && t.calls[i] == s.calls[i]
    requires s.client.stored.Some? ==> NoOrphanOf(s, s.client.stored.value.refresh.familyId)
    requires orphan.Some? ==> !Own(s, orphan.value)
    ensures OrphansOk(t)
  {
    forall o | o in t.orphans ensures OrphanOk(t, o) { OrphanStaysOk(s, t, orphan, o); }
    forall o, p | o in t.orphans && p in t.orphans && o != p ensures o.familyId != p.familyId {
      assert o in s.orphans ==> OrphanOk(s, o);
      assert p in s.orphans ==> OrphanOk(s, p);
    }
  }

  /** The orphans are those of before, and the unserved call `orphan` if there is one. */
  ghost predicate GivenUp(s: State, t: State, orphan: Option<nat>) {
    match orphan
    case None => t.orphans == s.orphans
    case Some(i) =>
      i in s.calls && i !in t.calls && s.calls[i].reply.None? &&
      t.orphans == s.orphans + multiset{s.calls[i].raw}
  }

  lemma OrphanStaysOk(s: State, t: State, orphan: Option<nat>, o: S.Raw)
    requires FlightsOk(s) && OrphansOk(s) && o in t.orphans && GivenUp(s, t, orphan)
    requires t.server == s.server && t.mine == s.mine
    requires forall i :: i in t.calls ==> i in s.calls && t.calls[i] == s.calls[i]
    requires PendingGrows(s, t)
    requires s.client.stored.Some? ==> NoOrphanOf(s, s.client.stored.value.refresh.familyId)
    requires orphan.Some? ==> !Own(s, orphan.value)
    ensures OrphanOk(t, o)
  {
    if o in s.orphans {
      assert OrphanOk(s, o);
    } else {
      assert CallOk(s, s.calls[orphan.value]);
    }
  }

  lemma LogoutIssued(client: C.State, l: C.Label)
    requires C.Step(client, l).stored.None?
    requires l.SignOut? || (l.RefreshFailed? && C.InPhase(client, l.i, C.Leading)) ||
      (l.Replayed? && !l.ok && C.InPhase(client, l.i, C.Replaying) && client.requests[l.i].refreshes > 0)
    ensures C.Step(client, l).logouts[|client.logouts|..] ==
      if client.stored.Some? then [client.stored.value.refresh] else []
  {}

  /** The page gets an error for a call, which ends it. */
  lemma ErrorKeepsSession(s: State, i: nat, t: State, orphan: Option<nat>)
    requires SessionOk(s) && i in s.calls && (forall j :: Own(s, j) ==> j == i)
    requires t == Drop(Move(s, C.RefreshFailed(i)), i).(orphans := t.orphans)
    requires GivenUp(s, t, orphan) && (orphan.Some? ==> orphan.value == i && !Own(s, i))
    ensures SessionOk(t)
  {
    hide CallOk, OrphanOk, Good, Step;
    ErrorIs(s, i, t);
    LogoutKeepsSession(s, t, orphan);
  }

  lemma ErrorIs(s: State, i: nat, t: State)
    requires i in s.calls && (forall j :: j in s.calls <==> C.InPhase(s.client, j, C.Leading))
    requires t == Drop(Move(s, C.RefreshFailed(i)), i).(orphans := t.orphans)
    ensures t.server == s.server && t.mine == s.mine && t.calls == s.calls - {i} && t.client.stored.None?
    ensures PendingGrows(s, t)
    ensures forall j: nat :: C.InPhase(t.client, j, C.Leading) <==> j in t.calls
  {
    LogoutIssued(s.client, C.RefreshFailed(i));
  }

  lemma EndOfCallKeepsSession(s: State, l: Label)
    requires SessionOk(s) && Calm(s, l) && (l.LoseRefresh? || l.RefuseRefresh? || l.DeliverRefresh?)
    requires l.i in s.calls && (l.RefuseRefresh? ==> s.calls[l.i].reply.None?)
    requires l.DeliverRefresh? ==> Refusal(s.calls[l.i])
    ensures SessionOk(Step(s, l))
  {
    hide Step, SessionOk, Own, Calm, GivenUp;
    OwnCallEndsCalmly(s, l);
    var orphan := EndIs(s, l);
    ErrorKeepsSession(s, l.i, Step(s, l), orphan);
  }

  /** A calm error for a call leaves no other call of the stored token, and ends one of the
      stored token only if the server can no longer serve it. */
  lemma OwnCallEndsCalmly(s: State, l: Label)
    requires Calm(s, l) && (l.LoseRefresh? || l.RefuseRefresh? || l.DeliverRefresh?)
    requires l.i in s.calls && (l.RefuseRefresh? ==> s.calls[l.i].reply.None?)
    requires l.DeliverRefresh? ==> Refusal(s.calls[l.i])
    ensures (forall j :: Own(s, j) ==> j == l.i) && (l.LoseRefresh? && s.calls[l.i].reply.None? ==> !Own(s, l.i))
  {
    assert forall j :: Own(s, j) ==> !PartsFrom(s, l, j);
  }

  lemma EndIs(s: State, l: Label) returns (orphan: Option<nat>)
    requires (l.LoseRefresh? || l.RefuseRefresh? || l.DeliverRefresh?) && l.i in s.calls
    requires l.RefuseRefresh? ==> s.calls[l.i].reply.None?
    requires l.DeliverRefresh? ==> Refusal(s.calls[l.i])
    ensures orphan == if l.LoseRefresh? && s.calls[l.i].reply.None? then Some(l.i) else None
    ensures var t := Step(s, l);
      t == Drop(Move(s, C.RefreshFailed(l.i)), l.i).(orphans := t.orphans) && GivenUp(s, t, orphan)
  {
    orphan := if l.LoseRefresh? && s.calls[l.i].reply.None? then Some(l.i) else None;
  }

  lemma GrantedKeepsSession(s: State, i: nat, access: nat)
    requires SessionOk(s) && i in s.calls && s.calls[i].reply.Some? && s.calls[i].reply.value.Rotated?
    ensures SessionOk(Step(s, DeliverRefresh(i, access)))
  {
    GrantedIs(s, i, access);
    var t := Step(s, DeliverRefresh(i, access));
    assert CallOk(s, s.calls[i]);
    FewerFlightsOk(s, t);
    assert GivenUp(s, t, None);
    KeptOrphansOk(s, t);
    assert forall o :: o in t.orphans ==> OrphanOk(s, o);
  }

  /** The page stores the new tokens, lowers the flag and drops the call. */
  lemma GrantedIs(s: State, i: nat, access: nat)
    requires FlightsOk(s) && i in s.calls && s.calls[i].reply.Some? && s.calls[i].reply.value.Rotated?
    ensures var t := Step(s, DeliverRefresh(i, access));
      t == s.(client := t.client, calls := s.calls - {i}) && !t.client.isRefreshing &&
      t.client.stored == Some(C.Stored(access, s.calls[i].reply.value.raw)) &&
      forall j: nat :: C.InPhase(t.client, j, C.Leading) <==> j in t.calls
  {
    var t := Step(s, DeliverRefresh(i, access));
    assert t.client.logouts[|s.client.logouts|..] == [];
    assert t.pending == s.pending;
    forall j: nat ensures C.InPhase(t.client, j, C.Leading) <==> j in t.calls {
      assert C.InPhase(t.client, j, C.Leading) <==> C.InPhase(s.client, j, C.Leading) && j != i;
    }
  }

  lemma KeptOrphansOk(s: State, t: State)
    requires OrphansOk(s) && t.orphans == s.orphans && t.pending == s.pending
    requires t.server == s.server && t.mine == s.mine
    requires forall i :: i in t.calls ==> i in s.calls && t.calls[i] == s.calls[i]
    ensures OrphansOk(t)
  {
    forall o | o in t.orphans ensures OrphanOk(t, o) { assert OrphanOk(s, o); }
  }

  lemma CancelKeepsSession(s: State, i: nat)
    requires SessionOk(s) && !Own(s, i)
    ensures SessionOk(Step(s, Cancel(i)))
  {
    CancelIs(s, i);
    if i in s.calls {
      GivenUpKeepsSession(s, Step(s, Cancel(i)), i);
    } else {
      QuietMoveKeepsSession(s, Step(s, Cancel(i)));
    }
  }

  lemma CancelIs(s: State, i: nat)
    requires FlightsOk(s)
    ensures var t := Step(s, Cancel(i));
      t == s.(client := t.client, calls := s.calls - {i}, orphans := t.orphans) &&
      GivenUp(s, t, if i in s.calls && s.calls[i].reply.None? then Some(i) else None) &&
      t.client.stored == s.client.stored && t.client.isRefreshing == s.client.isRefreshing &&
      (forall j: nat :: C.InPhase(t.client, j, C.Leading) <==> C.InPhase(s.client, j, C.Leading) && j != i) &&
      (i !in s.calls ==> t.calls == s.calls)
  {
    var t := Step(s, Cancel(i));
    assert t.client.logouts[|s.client.logouts|..] == [];
    assert t.pending == s.pending;
    assert i !in s.calls ==> s.calls - {i} == s.calls;
  }

  /** The page gives a call up that is not its stored token's. */
  lemma GivenUpKeepsSession(s: State, t: State, i: nat)
    requires SessionOk(s) && i in s.calls && !Own(s, i)
    requires t.server == s.server && t.mine == s.mine && t.pending == s.pending && t.calls == s.calls - {i}
    requires GivenUp(s, t, if s.calls[i].reply.None? then Some(i) else None)
    requires t.client.stored == s.client.stored && t.client.isRefreshing == s.client.isRefreshing
    requires forall j: nat :: C.InPhase(t.client, j, C.Leading) <==> C.InPhase(s.client, j, C.Leading) && j != i
    ensures SessionOk(t)
  {
    FewerFlightsOk(s, t);
    GivingUpKeepsOrphans(s, t, if s.calls[i].reply.None? then Some(i) else None);
    if s.client.stored.Some? { GivenUpStoredOk(s, t, i, s.client.stored.value.refresh); }
  }

  lemma GivenUpStoredOk(s: State, t: State, i: nat, raw: S.Raw)
    requires StoredOk(s, raw) && i in s.calls && s.calls[i].raw.familyId != raw.familyId
    requires t.server == s.server && t.mine == s.mine && t.pending == s.pending && t.calls == s.calls - {i}
    requires GivenUp(s, t, if s.calls[i].reply.None? then Some(i) else None)
    requires t.client.isRefreshing == s.client.isRefreshing
    ensures StoredOk(t, raw)
  {
    if NoCallOf(t, raw.familyId) {
      forall j | j in s.calls ensures s.calls[j].raw.familyId != raw.familyId {
        if j != i { assert j in t.calls && t.calls[j] == s.calls[j]; }
      }
    }
  }

  /** A request that meets its 401 with the flag down sends the stored token. */
  lemma LeadKeepsSession(s: State, i: nat)
    requires SessionOk(s) && C.Leads(s.client, i, C.Unauthorized)
    ensures SessionOk(Step(s, Answer(i, C.Unauthorized)))
  {
    LeadIs(s, i);
    var t := Step(s, Answer(i, C.Unauthorized));
    var raw := s.client.stored.value.refresh;
    assert NoCallOf(s, raw.familyId);
    NewFlightOk(s, t, i, raw);
    NewFlightOrphansOk(s, t, i, raw);
    assert !NoCallOf(t, raw.familyId) by { assert t.calls[i].raw == raw; }
  }

  lemma LeadIs(s: State, i: nat)
    requires C.Leads(s.client, i, C.Unauthorized) && (forall k :: k in s.calls <==> C.InPhase(s.client, k, C.Leading))
    ensures var t := Step(s, Answer(i, C.Unauthorized)); var raw := s.client.stored.value.refresh;
      i !in s.calls && t == s.(client := t.client, calls := s.calls[i := RefreshCall(raw, None)]) &&
      t.client.stored == s.client.stored && t.client.isRefreshing &&
      forall j: nat :: C.InPhase(t.client, j, C.Leading) <==> j == i || C.InPhase(s.client, j, C.Leading)
  {
    var t := Step(s, Answer(i, C.Unauthorized));
    assert t.client.logouts[|s.client.logouts|..] == [];
    assert t.pending == s.pending;
  }

  lemma NewFlightOk(s: State, t: State, i: nat, raw: S.Raw)
    requires FlightsOk(s) && i !in s.calls && NoCallOf(s, raw.familyId) && Good(s, raw) && Undisturbed(s, raw)
    requires t == s.(client := t.client, calls := s.calls[i := RefreshCall(raw, None)])
    requires forall j: nat :: C.InPhase(t.client, j, C.Leading) <==> j == i || C.InPhase(s.client, j, C.Leading)
    ensures FlightsOk(t)
  {
    forall j | j in t.calls ensures CallOk(t, t.calls[j]) {
      if j != i { assert CallOk(s, s.calls[j]); }
    }
  }

  lemma NewFlightOrphansOk(s: State, t: State, i: nat, raw: S.Raw)
    requires OrphansOk(s) && NoOrphanOf(s, raw.familyId)
    requires t == s.(client := t.client, calls := s.calls[i := RefreshCall(raw, None)])
    ensures OrphansOk(t)
  {
    forall o | o in t.orphans ensures OrphanOk(t, o) { assert OrphanOk(s, o); }
  }

  lemma AnswerKeepsSession(s: State, i: nat, status: C.HttpStatus)
    requires SessionOk(s)
    ensures SessionOk(Step(s, Answer(i, status)))
  {
    if C.Leads(s.client, i, status) {
      LeadKeepsSession(s, i);
    } else {
      C.OtherAnswersAreQuiet(s.client, i, status);
      QuietAnswer(s, i, status);
      QuietMoveKeepsSession(s, Step(s, Answer(i, status)));
    }
  }

  lemma QuietAnswer(s: State, i: nat, status: C.HttpStatus)
    requires !C.Leads(s.client, i, status)
    ensures Step(s, Answer(i, status)) == s.(client := C.Step(s.client, C.Answer(i, status)))
  {
    C.OtherAnswersAreQuiet(s.client, i, status);
    assert C.Step(s.client, C.Answer(i, status)).logouts[|s.client.logouts|..] == [];
  }

  /** What a step does that signs the page out and leaves the calls alone. */
  ghost predicate SignsOut(s: State, t: State) {
    t == s.(client := t.client, pending := t.pending) && t.client.stored.None? && PendingGrows(s, t) &&
    (s.client.stored.Some? ==> s.client.stored.value.refresh in t.pending) &&
    forall j: nat :: C.InPhase(t.client, j, C.Leading) <==> C.InPhase(s.client, j, C.Leading)
  }

  lemma FailedReplayIs(s: State, i: nat)
    requires C.InPhase(s.client, i, C.Replaying) && s.client.requests[i].refreshes > 0
    ensures SignsOut(s, Step(s, Replayed(i, false)))
  {
    LogoutIssued(s.client, C.Replayed(i, false));
  }

  lemma SignOutIs(s: State)
    ensures SignsOut(s, Step(s, SignOut))
  {
    LogoutIssued(s.client, C.SignOut);
  }

  lemma OtherReplayIs(s: State, i: nat, ok: bool)
    requires !(C.InPhase(s.client, i, C.Replaying) && !ok && s.client.requests[i].refreshes > 0)
    ensures var t := Step(s, Replayed(i, ok));
      t == s.(client := t.client) && t.client.stored == s.client.stored &&
      t.client.isRefreshing == s.client.isRefreshing &&
      forall j: nat :: C.InPhase(t.client, j, C.Leading) <==> C.InPhase(s.client, j, C.Leading)
  {
    assert Step(s, Replayed(i, ok)).client.logouts[|s.client.logouts|..] == [];
  }

  lemma SigningOutKeepsSession(s: State, t: State)
    requires SessionOk(s) && SignsOut(s, t) && forall j :: !Own(s, j)
    ensures SessionOk(t)
  {
    assert GivenUp(s, t, None);
    LogoutKeepsSession(s, t, None);
  }

  lemma ReplayedKeepsSession(s: State, i: nat, ok: bool)
    requires SessionOk(s) && Calm(s, Replayed(i, ok))
    ensures SessionOk(Step(s, Replayed(i, ok)))
  {
    hide Step, SessionOk;
    if C.InPhase(s.client, i, C.Replaying) && !ok && s.client.requests[i].refreshes > 0 {
      FailedReplayIs(s, i);
      SigningOutKeepsSession(s, Step(s, Replayed(i, ok)));
    } else {
      OtherReplayIs(s, i, ok);
      QuietMoveKeepsSession(s, Step(s, Replayed(i, ok)));
    }
  }

  lemma SignOutKeepsSession(s: State)
    requires SessionOk(s) && Calm(s, SignOut)
    ensures SessionOk(Step(s, SignOut))
  {
    hide Step, SessionOk;
    SignOutIs(s);
    SigningOutKeepsSession(s, Step(s, SignOut));
  }

  lemma ReloadKeepsSession(s: State)
    requires SessionOk(s) && Calm(s, Reload)
    ensures SessionOk(Step(s, Reload))
  {
    hide Step, CallOk, OrphanOk, Good, StoredOk;
    ReloadIs(s);
    var t := Step(s, Reload);
    FewerFlightsOk(s, t);
    ReloadedOrphansOk(s, t);
    if s.client.stored.Some? {
      assert forall j :: j in s.calls ==> !Own(s, j);
      ReloadedStoredOk(s, t, s.client.stored.value.refresh);
    }
  }

  lemma ReloadIs(s: State)
    ensures var t := Step(s, Reload);
      t == s.(client := t.client, calls := map[], orphans := s.orphans + multiset(Unserved(s))) &&
      t.client.stored == s.client.stored && !t.client.isRefreshing &&
      forall j: nat :: !C.InPhase(t.client, j, C.Leading)
  {
    assert Step(s, Reload).client.logouts[|s.client.logouts|..] == [];
  }

  lemma ReloadedOrphansOk(s: State, t: State)
    requires FlightsOk(s) && OrphansOk(s)
    requires t == s.(client := t.client, calls := map[], orphans := s.orphans + multiset(Unserved(s)))
    ensures OrphansOk(t)
  {
    forall o | o in t.orphans ensures OrphanOk(t, o) { ReloadedOrphan(s, t, o); }
    forall o, p | o in t.orphans && p in t.orphans && o != p ensures o.familyId != p.familyId {
      assert o in s.orphans ==> OrphanOk(s, o);
      assert p in s.orphans ==> OrphanOk(s, p);
    }
  }

  lemma ReloadedStoredOk(s: State, t: State, raw: S.Raw)
    requires StoredOk(s, raw) && NoCallOf(s, raw.familyId)
    requires t == s.(client := t.client, calls := map[], orphans := s.orphans + multiset(Unserved(s)))
    ensures StoredOk(t, raw)
  {}

  lemma ReloadedOrphan(s: State, t: State, o: S.Raw)
    requires FlightsOk(s) && OrphansOk(s) && o in t.orphans
    requires t == s.(client := t.client, calls := map[], orphans := s.orphans + multiset(Unserved(s)))
    ensures OrphanOk(t, o)
  {
    if o in s.orphans {
      assert OrphanOk(s, o);
      assert o !in Unserved(s);
    } else {
      var i :| i in s.calls && s.calls[i].reply.None? && s.calls[i].raw == o;
      assert CallOk(s, s.calls[i]);
    }
  }

  lemma CalmStepKeepsSession(s: State, l: Label)
    requires SessionOk(s) && Calm(s, l)
    ensures SessionOk(Step(s, l))
  {
    match l
    case Send(authFree) =>
      assert Step(s, l).client.logouts[|s.client.logouts|..] == [];
      QuietMoveKeepsSession(s, Step(s, l));
    case Answer(i, status) => AnswerKeepsSession(s, i, status);
    case Replayed(i, ok) => ReplayedKeepsSession(s, i, ok);
    case SignIn(u, a, j, r) => SignInKeepsSession(s, u, a, j, r);
    case SignOut => SignOutKeepsSession(s);
    case Reload => ReloadKeepsSession(s);
    case ServeRefresh(i, now, j, r) => ServeRefreshKeepsSession(s, i, now, j, r);
    case DeliverRefresh(i, access) =>
      if i in s.calls && s.calls[i].reply.Some? {
        if Refusal(s.calls[i]) { EndOfCallKeepsSession(s, l); } else { GrantedKeepsSession(s, i, access); }
      }
    case LoseRefresh(i) => if i in s.calls { EndOfCallKeepsSession(s, l); }
    case RefuseRefresh(i) => if i in s.calls && s.calls[i].reply.None? { EndOfCallKeepsSession(s, l); }
    case Cancel(i) =>
      assert Own(s, i) ==> !PartsFrom(s, l, i);
      CancelKeepsSession(s, i);
    case ServeOrphan(raw, now, j, r) => ServeOrphanKeepsSession(s, raw, now, j, r);
    case ServeLogout(raw, now) => ServeLogoutKeepsSession(s, raw, now);
    case LoseLogout(raw) => LoseLogoutKeepsSession(s, raw);
    case OtherClient(call) => OtherKeepsSession(s, call);
  }

  lemma {:induction false} CalmRunsKeepSession(s: State, ls: seq<Label>)
    requires SessionOk(s) && CalmRun(s, ls)
    ensures SessionOk(Run(s, ls))
  {
    hide Step, SessionOk;
    if ls == [] {
    } else {
      var front := ls[..|ls| - 1];
      assert forall k :: 0 <= k < |front| ==> front[..k] == ls[..k];
      CalmRunsKeepSession(s, front);
      assert Calm(Run(s, front), ls[|ls| - 1]);
      CalmStepKeepsSession(Run(s, front), ls[|ls| - 1]);
    }
  }

  /** Client and server compose. In every calm run, among any number of other clients and
      with logouts and refresh answers delayed, lost or reordered, the server never reports
      reuse of a token of ours, no two refreshes in flight concern one family, and whenever
      none concerns the stored token, it is live and is the only live token of its family. */
  lemma CalmSessionsAreNeverReported(ls: seq<Label>)
    requires CalmRun(INIT, ls)
    ensures var s := Run(INIT, ls);
      (forall f :: f in s.mine ==> f !in s.server.reported) &&
      (forall i, j :: i in s.calls && j in s.calls && i != j ==>
        s.calls[i].raw.familyId != s.calls[j].raw.familyId) &&
      (s.client.stored.Some? && (forall j :: !Own(s, j)) ==>
        var raw := s.client.stored.value.refresh;
        S.Stored(s.server, raw) && S.Live(s.server, raw.jti) &&
        forall k :: 0 <= k < |s.server.rows| && k != raw.jti && s.server.rows[k].familyId == raw.familyId ==>
          !S.Live(s.server, k))
  {
    hide Step;
    CalmRunsKeepSession(INIT, ls);
    var s := Run(INIT, ls);
    if s.client.stored.Some? && (forall j :: !Own(s, j)) {
      var raw := s.client.stored.value.refresh;
      assert NoCallOf(s, raw.familyId) by { assert forall j :: j in s.calls ==> !Own(s, j); }
      OnlyLive(s, raw);
    }
  }

  lemma OnlyLive(s: State, raw: S.Raw)
    requires S.Chains(s.server) && Good(s, raw)
    ensures forall k :: 0 <= k < |s.server.rows| && k != raw.jti && s.server.rows[k].familyId == raw.familyId ==>
      !S.Live(s.server, k)
  {}

  // ---------------------------------------------------------------- calm is exactly what is needed

  /** Some calm continuation ends with the server reporting reuse of a family of ours. */
  ghost predicate CanBeReported(s: State) {
    exists more :: CalmRun(s, more) && Reported(Run(s, more))
  }

  ghost predicate Reported(s: State) {
    exists f :: f in s.mine && f in s.server.reported
  }

  /** The call is of use: the server would grant it, or has granted it with a token that
      still verifies. */
  predicate Worth(s: State, i: nat, now: Time, jwtExpiry: Time) {
    i in s.calls && now < s.calls[i].raw.exp &&
    match s.calls[i].reply
    case None => S.OutcomeOf(s.server, S.Signed(s.calls[i].raw), now, jwtExpiry).Rotated?
    case Some(outcome) => outcome.Rotated? && now < outcome.raw.exp
  }

  lemma {:induction false} RunCons(s: State, a: Label, more: seq<Label>)
    ensures Run(s, [a] + more) == Run(Step(s, a), more)
  {
    hide Step;
    if more == [] {
      assert [a] + more == [a] && [a][..0] == [];
    } else {
      RunCons(s, a, more[..|more| - 1]);
      assert ([a] + more)[..|more|] == [a] + more[..|more| - 1];
    }
  }

  lemma CalmCons(s: State, a: Label, more: seq<Label>)
    requires Calm(s, a) && CalmRun(Step(s, a), more)
    ensures CalmRun(s, [a] + more)
  {
    hide Step, Calm;
    var all := [a] + more;
    forall k | 0 <= k < |all| ensures Calm(Run(s, all[..k]), all[k]) {
      if k == 0 {
        assert all[..0] == [];
      } else {
        assert all[..k] == [a] + more[..k - 1];
        RunCons(s, a, more[..k - 1]);
        assert Calm(Run(Step(s, a), more[..k - 1]), more[k - 1]);
      }
    }
  }

  /** A report that can follow a calm step can follow from before it. */
  lemma ReportedLater(s: State, a: Label)
    requires Calm(s, a) && CanBeReported(Step(s, a))
    ensures CanBeReported(s)
  {
    hide Step, Calm;
    var more :| CalmRun(Step(s, a), more) && Reported(Run(Step(s, a), more));
    RunCons(s, a, more);
    CalmCons(s, a, more);
  }

  lemma ReportedNow(s: State)
    requires Reported(s)
    ensures CanBeReported(s)
  {
    assert CalmRun(s, []) && Run(s, []) == s;
  }

  /** The page holds a revoked token that still verifies. */
  predicate Stuck(t: State, raw: S.Raw, now: Time) {
    t.client.stored.Some? && t.client.stored.value.refresh == raw && raw.familyId in t.mine && now < raw.exp &&
    S.Stored(t.server, raw) && t.server.rows[raw.jti].familyId == raw.familyId &&
    t.server.rows[raw.jti].revokedAt.Some?
  }

  lemma NextRefreshIsReported(t: State, raw: S.Raw, now: Time)
    requires Stuck(t, raw, now) && !t.client.isRefreshing
    ensures CanBeReported(t)
  {
    var n := |t.client.requests|;
    var u := Step(t, Send(false));
    assert C.InPhase(u.client, n, C.Sent) && u.calls == t.calls;
    var v := Step(u, Answer(n, C.Unauthorized));
    assert C.InPhase(v.client, n, C.Leading) && v.calls == t.calls[n := RefreshCall(raw, None)];
    var w := Step(v, ServeRefresh(n, now, 0, 0));
    assert raw.familyId in w.mine && raw.familyId in w.server.reported;
    ReportedNow(w);
    ReportedLater(v, ServeRefresh(n, now, 0, 0));
    ReportedLater(u, Answer(n, C.Unauthorized));
    ReportedLater(t, Send(false));
  }

  /** A page that holds a revoked token with no call for it is reported once it has been
      reloaded and refreshes again. */
  lemma StuckIsReported(t: State, raw: S.Raw, now: Time)
    requires Stuck(t, raw, now) && forall j :: !Own(t, j)
    ensures CanBeReported(t)
  {
    var u := Step(t, Reload);
    assert Stuck(u, raw, now) && !u.client.isRefreshing;
    NextRefreshIsReported(u, raw, now);
    ReportedLater(t, Reload);
  }

  /** The server serves the logout and then the refresh of the same token. */
  lemma LogoutThenRefresh(t: State, raw: S.Raw, now: Time, l: Label)
    requires S.Stored(t.server, raw) && t.server.rows[raw.jti].familyId == raw.familyId && raw.familyId in t.mine
    requires raw in t.pending && now < raw.exp
    requires (l == ServeOrphan(raw, now, 0, 0) && raw in t.orphans) ||
      (l.ServeRefresh? && l.i in t.calls && t.calls[l.i] == RefreshCall(raw, None) && l.now == now)
    ensures CanBeReported(t)
  {
    var u := Step(t, ServeLogout(raw, now));
    assert u.server.rows[raw.jti].raw == raw && u.server.rows[raw.jti].revokedAt.Some?;
    var v := Step(u, l);
    assert raw.familyId in v.server.reported && raw.familyId in v.mine;
    ReportedNow(v);
    ReportedLater(u, l);
    ReportedLater(t, ServeLogout(raw, now));
  }

  /** The refresh was granted before the logout: the page stores a revoked token after all. */
  lemma LogoutThenAnswer(s: State, t: State, i: nat, now: Time)
    requires SessionOk(s) && i in s.calls && s.calls[i].reply.Some? && s.calls[i].reply.value.Rotated?
    requires now < s.calls[i].raw.exp && now < s.calls[i].reply.value.raw.exp
    requires t.server == s.server && t.mine == s.mine && s.calls[i].raw in t.pending
    requires i in t.calls && t.calls[i] == s.calls[i] && C.InPhase(t.client, i, C.Leading)
    ensures CanBeReported(t)
  {
    var raw, renewed := s.calls[i].raw, s.calls[i].reply.value.raw;
    assert CallOk(s, s.calls[i]);
    var u := Step(t, ServeLogout(raw, now));
    assert u.calls == t.calls && u.client == t.client;
    assert u.server.rows[renewed.jti].raw == renewed && u.server.rows[renewed.jti].revokedAt.Some?;
    var v := Step(u, DeliverRefresh(i, 0));
    assert v.client.stored == Some(C.Stored(0, renewed)) && !v.client.isRefreshing;
    assert Stuck(v, renewed, now);
    NextRefreshIsReported(v, renewed, now);
    ReportedLater(u, DeliverRefresh(i, 0));
    ReportedLater(t, ServeLogout(raw, now));
  }

  /** A logout overtakes the refresh. */
  lemma SignOutOvertakes(s: State, t: State, i: nat, now: Time, jwtExpiry: Time)
    requires SessionOk(s) && Worth(s, i, now, jwtExpiry)
    requires t.server == s.server && t.mine == s.mine && s.calls[i].raw in t.pending
    requires i in t.calls && t.calls[i] == s.calls[i] && C.InPhase(t.client, i, C.Leading)
    ensures CanBeReported(t)
  {
    assert CallOk(s, s.calls[i]);
    if s.calls[i].reply.None? {
      LogoutThenRefresh(t, s.calls[i].raw, now, ServeRefresh(i, now, 0, 0));
    } else {
      LogoutThenAnswer(s, t, i, now);
    }
  }

  /** The page shows an error while the server may still serve the call: it signs out, and
      the server sees the token after the logout. */
  lemma EarlyErrorIsReported(s: State, i: nat, now: Time, jwtExpiry: Time)
    requires SessionOk(s) && Own(s, i) && Worth(s, i, now, jwtExpiry) && s.calls[i].reply.None?
    ensures CanBeReported(Step(s, LoseRefresh(i)))
  {
    var raw := s.calls[i].raw;
    var t := Step(s, LoseRefresh(i));
    assert CallOk(s, s.calls[i]);
    LogoutIssued(s.client, C.RefreshFailed(i));
    LogoutThenRefresh(t, raw, now, ServeOrphan(raw, now, 0, 0));
  }

  /** The call goes on without its page, which keeps the token that it presents. */
  lemma OrphanIsServed(s: State, t: State, i: nat, now: Time, jwtExpiry: Time)
    requires SessionOk(s) && Own(s, i) && Worth(s, i, now, jwtExpiry)
    requires t.server == s.server && t.mine == s.mine && t.client.stored == s.client.stored
    requires forall j :: !Own(t, j)
    requires s.calls[i].reply.None? ==> s.calls[i].raw in t.orphans
    ensures CanBeReported(t)
  {
    var raw := s.calls[i].raw;
    assert CallOk(s, s.calls[i]);
    if s.calls[i].reply.None? {
      var l := ServeOrphan(raw, now, jwtExpiry, 0);
      assert Stuck(Step(t, l), raw, now);
      assert forall j :: Own(Step(t, l), j) ==> Own(t, j);
      StuckIsReported(Step(t, l), raw, now);
      ReportedLater(t, l);
    } else {
      StuckIsReported(t, raw, now);
    }
  }

  /** After a reload the page refreshes again with a token the server has rotated or will. */
  lemma ReloadRepeats(s: State, i: nat, now: Time, jwtExpiry: Time)
    requires SessionOk(s) && Own(s, i) && Worth(s, i, now, jwtExpiry)
    ensures CanBeReported(Step(s, Reload))
  {
    ReloadIs(s);
    if s.calls[i].reply.None? { assert s.calls[i].raw in Unserved(s); }
    OrphanIsServed(s, Step(s, Reload), i, now, jwtExpiry);
  }

  /** An unsubscribed leader never stores the new tokens. */
  lemma CancelParts(s: State, i: nat, now: Time, jwtExpiry: Time)
    requires SessionOk(s) && Own(s, i) && Worth(s, i, now, jwtExpiry)
    ensures CanBeReported(Step(s, Cancel(i)))
  {
    CancelIs(s, i);
    OrphanIsServed(s, Step(s, Cancel(i)), i, now, jwtExpiry);
  }

  lemma CalmStepsAreSafe(s: State, l: Label)
    requires SessionOk(s) && Calm(s, l)
    ensures !CanBeReported(Step(s, l))
  {
    hide Step;
    CalmStepKeepsSession(s, l);
    forall more | CalmRun(Step(s, l), more) ensures !Reported(Run(Step(s, l), more)) {
      CalmRunsKeepSession(Step(s, l), more);
    }
  }

  /** The step signs the page out while the call for the stored token goes on. */
  lemma SignOutIsReported(s: State, l: Label, i: nat, now: Time, jwtExpiry: Time)
    requires SessionOk(s) && Own(s, i) && Worth(s, i, now, jwtExpiry) && PartsFrom(s, l, i)
    requires l.SignOut? || l.Replayed? || ((l.LoseRefresh? || l.RefuseRefresh? || l.DeliverRefresh?) && l.i != i)
    ensures CanBeReported(Step(s, l))
  {
    hide Step, CallOk, OrphanOk, Good;
    if l.SignOut? {
      SignOutIs(s);
    } else if l.Replayed? {
      FailedReplayIs(s, l.i);
    } else {
      OtherErrorIs(s, l);
    }
    SignOutOvertakes(s, Step(s, l), i, now, jwtExpiry);
  }

  /** The end of one call signs the page out and leaves the other calls in flight. */
  lemma OtherErrorIs(s: State, l: Label)
    requires (l.LoseRefresh? || l.RefuseRefresh? || l.DeliverRefresh?) && l.i in s.calls
    requires C.InPhase(s.client, l.i, C.Leading)
    requires (l.RefuseRefresh? ==> s.calls[l.i].reply.None?) && (l.DeliverRefresh? ==> Refusal(s.calls[l.i]))
    ensures var t := Step(s, l);
      t.server == s.server && t.mine == s.mine && t.calls == s.calls - {l.i} &&
      (s.client.stored.Some? ==> s.client.stored.value.refresh in t.pending) &&
      forall j: nat :: j != l.i && C.InPhase(s.client, j, C.Leading) ==> C.InPhase(t.client, j, C.Leading)
  {
    LogoutIssued(s.client, C.RefreshFailed(l.i));
  }

  /** In every such state, for every step: a later reuse report becomes possible if and only
      if the step parts the page from the refresh in flight for its stored token. When there
      is no such refresh, as after a sign-in has replaced its session, no step does. */
  lemma CalmIsExactlyWhatIsNeeded(s: State, l: Label, now: Time, jwtExpiry: Time)
    requires SessionOk(s) && (forall j :: Own(s, j) ==> Worth(s, j, now, jwtExpiry))
    ensures CanBeReported(Step(s, l)) <==> !Calm(s, l)
  {
    if Calm(s, l) {
      CalmStepsAreSafe(s, l);
    } else {
      var i :| Own(s, i) && PartsFrom(s, l, i);
      if l.Reload? {
        ReloadRepeats(s, i, now, jwtExpiry);
      } else if l.Cancel? {
        CancelParts(s, i, now, jwtExpiry);
      } else if l.LoseRefresh? && l.i == i {
        EarlyErrorIsReported(s, i, now, jwtExpiry);
      } else {
        SignOutIsReported(s, l, i, now, jwtExpiry);
      }
    }
  }
}
