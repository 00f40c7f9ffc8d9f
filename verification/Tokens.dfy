/** `TokenService`: refresh tokens in families, rotation, reuse detection and revocation.
    Each call is atomic; a raw token is the record its signature protects. */
module Tokens {
  import opened Domain
  import opened Decimal

  /** A signed refresh token: its row id, its user, its family, and when the JWT expires. */
  datatype Raw = Raw(jti: Id, sub: Id, familyId: Id, exp: Time)

  /** What a client presents: something that does not verify, or a token signed here. */
  datatype Presented = Forged | Signed(raw: Raw)

  /** A row of `refresh_tokens`; its id is its position and its hash stands for the raw
      token. `parent` is history: the token whose rotation made this one. */
  datatype Row = Row(raw: Raw, userId: Id, familyId: Id, expiresAt: Time, revokedAt: Option<Time>, parent: Option<Id>)

  /** `active` is the users' flag; `reported` is history: families with detected reuse. */
  datatype State = State(rows: seq<Row>, active: map<Id, bool>, families: nat, reported: set<Id>)

  const INIT := State([], map[], 0, {})

  datatype Outcome = Rotated(raw: Raw) | InvalidToken | ReuseDetected | Expired | Inactive

  /** The lifetimes configured for the JWT and for the row are parsed separately. */
  datatype Call =
    | Login(userId: Id, jwtExpiry: Time, rowExpiry: Time)
    | Rotate(token: Presented, now: Time, jwtExpiry: Time, rowExpiry: Time)
    | Revoke(token: Presented, now: Time)
    | SetActive(userId: Id, isActive: bool)

  // ---------------------------------------------------------------- calls

  function Minted(s: State, userId: Id, familyId: Id, jwtExpiry: Time): Raw {
    Raw(|s.rows|, userId, familyId, jwtExpiry)
  }

  function Issue(s: State, userId: Id, familyId: Id, jwtExpiry: Time, rowExpiry: Time, parent: Option<Id>): State {
    var raw := Minted(s, userId, familyId, jwtExpiry);
    s.(rows := s.rows + [Row(raw, userId, familyId, rowExpiry, None, parent)])
  }

  /** `updateMany` on the unrevoked rows of a family. */
  function RevokeFamily(rows: seq<Row>, familyId: Id, now: Time): seq<Row> {
    seq(|rows|, i requires 0 <= i < |rows| =>
      if rows[i].familyId == familyId && rows[i].revokedAt.None? then rows[i].(revokedAt := Some(now)) else rows[i])
  }

  /** The signature and expiry check of the JWT. */
  predicate Verifies(token: Presented, now: Time) {
    token.Signed? && now < token.raw.exp
  }

  predicate Stored(s: State, raw: Raw) {
    raw.jti < |s.rows| && s.rows[raw.jti].raw == raw
  }

  function OutcomeOf(s: State, token: Presented, now: Time, jwtExpiry: Time): Outcome {
    if !Verifies(token, now) || !Stored(s, token.raw) then InvalidToken
    else
      var row := s.rows[token.raw.jti];
      if row.revokedAt.Some? then ReuseDetected
      else if row.expiresAt < now then Expired
      else if !(row.userId in s.active && s.active[row.userId]) then Inactive
      else Rotated(Minted(s, row.userId, row.familyId, jwtExpiry))
  }

  function AfterRotate(s: State, token: Presented, now: Time, jwtExpiry: Time, rowExpiry: Time): State {
    var outcome := OutcomeOf(s, token, now, jwtExpiry);
    if outcome.ReuseDetected? then
      var familyId := s.rows[token.raw.jti].familyId;
      s.(rows := RevokeFamily(s.rows, familyId, now), reported := s.reported + {familyId})
    else if outcome.Rotated? then
      var id := token.raw.jti;
      var row := s.rows[id];
      var revoked := s.(rows := s.rows[id := row.(revokedAt := Some(now))]);
      Issue(revoked, row.userId, row.familyId, jwtExpiry, rowExpiry, Some(id))
    else s
  }

  function Step(s: State, c: Call): State {
    match c
    case Login(userId, jwtExpiry, rowExpiry) =>
      if userId in s.active && s.active[userId]
      then Issue(s, userId, s.families, jwtExpiry, rowExpiry, None).(families := s.families + 1) else s
    case Rotate(token, now, jwtExpiry, rowExpiry) => AfterRotate(s, token, now, jwtExpiry, rowExpiry)
    case Revoke(token, now) =>
      if Verifies(token, now) then s.(rows := RevokeFamily(s.rows, token.raw.familyId, now)) else s
    case SetActive(userId, isActive) => s.(active := s.active[userId := isActive])
  }

  function Run(s: State, calls: seq<Call>): State {
    if calls == [] then s else Step(Run(s, calls[..|calls| - 1]), calls[|calls| - 1])
  }

  // ---------------------------------------------------------------- families are chains

  predicate Live(s: State, id: Id) {
    id < |s.rows| && s.rows[id].revokedAt.None?
  }

  /** Row `id` was made by rotating its parent, the row before it in the family, which is
      revoked; a row without parent is the first of its family. */
  ghost predicate Linked(s: State, id: Id)
    requires id < |s.rows|
  {
    var row := s.rows[id];
    row.raw.jti == id && row.raw.familyId == row.familyId && row.raw.sub == row.userId && row.familyId < s.families &&
    match row.parent
    case None => forall k :: 0 <= k < id ==> s.rows[k].familyId != row.familyId
    case Some(p) =>
      p < id && s.rows[p].familyId == row.familyId && s.rows[p].userId == row.userId && s.rows[p].revokedAt.Some? &&
      forall k :: p < k < id ==> s.rows[k].familyId != row.familyId
  }

  /** At most one row of a family is unrevoked, and it is the family's last. */
  ghost predicate OnlyLastLive(s: State) {
    forall i, j :: 0 <= i < j < |s.rows| && s.rows[i].familyId == s.rows[j].familyId ==> s.rows[i].revokedAt.Some?
  }

  ghost predicate Chains(s: State) {
    (forall id :: 0 <= id < |s.rows| ==> Linked(s, id)) && OnlyLastLive(s) &&
    forall f :: f in s.reported ==> f < s.families
  }

  lemma RevokeKeepsChains(s: State, familyId: Id, now: Time)
    requires Chains(s)
    ensures Chains(s.(rows := RevokeFamily(s.rows, familyId, now)))
  {
    var t := s.(rows := RevokeFamily(s.rows, familyId, now));
    forall id | 0 <= id < |t.rows| ensures Linked(t, id) { assert Linked(s, id); }
  }

  lemma LoginKeepsChains(s: State, userId: Id, jwtExpiry: Time, rowExpiry: Time)
    requires Chains(s)
    ensures Chains(Step(s, Login(userId, jwtExpiry, rowExpiry)))
  {
    var t := Step(s, Login(userId, jwtExpiry, rowExpiry));
    forall id | 0 <= id < |t.rows| ensures Linked(t, id) {
      if id < |s.rows| { assert Linked(s, id); } else {
        forall k | 0 <= k < id ensures t.rows[k].familyId != t.rows[id].familyId { assert Linked(s, k); }
      }
    }
    forall i | 0 <= i < |s.rows| ensures s.rows[i].familyId < s.families { assert Linked(s, i); }
  }

  lemma RotateKeepsChains(s: State, token: Presented, now: Time, jwtExpiry: Time, rowExpiry: Time)
    requires Chains(s)
    ensures Chains(AfterRotate(s, token, now, jwtExpiry, rowExpiry))
  {
    var t := AfterRotate(s, token, now, jwtExpiry, rowExpiry);
    var outcome := OutcomeOf(s, token, now, jwtExpiry);
    if outcome.ReuseDetected? {
      assert Linked(s, token.raw.jti);
      RevokeKeepsChains(s, s.rows[token.raw.jti].familyId, now);
      assert forall id :: 0 <= id < |t.rows| ==> Linked(s.(rows := t.rows), id) ==> Linked(t, id);
    } else if outcome.Rotated? {
      var p := token.raw.jti;
      forall id | 0 <= id < |t.rows| ensures Linked(t, id) {
        if id < |s.rows| { assert Linked(s, id); } else { assert Linked(s, p); }
      }
    }
  }

  lemma StepKeepsChains(s: State, c: Call)
    requires Chains(s)
    ensures Chains(Step(s, c))
  {
    match c
    case Login(u, j, r) => LoginKeepsChains(s, u, j, r);
    case Rotate(token, now, j, r) => RotateKeepsChains(s, token, now, j, r);
    case Revoke(token, now) => if Verifies(token, now) { RevokeKeepsChains(s, token.raw.familyId, now); }
    case SetActive(u, a) =>
      forall id | 0 <= id < |s.rows| ensures Linked(Step(s, c), id) { assert Linked(s, id); }
  }

  /** In every run every family is a chain: each token after the first was made by rotating
      the one before it, all belong to one user, all but the last are revoked, and so at
      most one token of a family is live. */
  lemma {:induction false} FamiliesAreChains(calls: seq<Call>)
    ensures Chains(Run(INIT, calls))
  {
    if calls == [] {
    } else {
      FamiliesAreChains(calls[..|calls| - 1]);
      StepKeepsChains(Run(INIT, calls[..|calls| - 1]), calls[|calls| - 1]);
    }
  }

  /** One user owns a family. */
  lemma {:induction false} OneOwner(s: State, i: Id, j: Id)
    requires Chains(s) && i <= j < |s.rows| && s.rows[i].familyId == s.rows[j].familyId
    ensures s.rows[i].userId == s.rows[j].userId
    decreases j
  {
    assert Linked(s, j);
    if i < j {
      assert s.rows[j].parent.Some?;
      OneOwner(s, i, s.rows[j].parent.value);
    }
  }

  // ---------------------------------------------------------------- one call

  /** The presented token verifies and is the one that the table stores under its id. */
  predicate Known(s: State, token: Presented, now: Time) {
    token.Signed? && now < token.raw.exp && token.raw.jti < |s.rows| && s.rows[token.raw.jti].raw == token.raw
  }

  predicate IsActive(s: State, userId: Id) {
    userId in s.active && s.active[userId]
  }

  /** A rotation adds a live row if and only if the token is known, its row is unrevoked and
      not past its expiry, and its user is active; otherwise it adds none. */
  lemma RotationSucceedsIff(s: State, token: Presented, now: Time, jwtExpiry: Time, rowExpiry: Time)
    ensures var t := Step(s, Rotate(token, now, jwtExpiry, rowExpiry));
      (|t.rows| == |s.rows| + 1 && Live(t, |s.rows|) <==>
        Known(s, token, now) &&
        var row := s.rows[token.raw.jti];
        row.revokedAt == None && now <= row.expiresAt && row.userId in s.active && s.active[row.userId]) &&
      (|t.rows| != |s.rows| + 1 ==> |t.rows| == |s.rows|)
  {}

  /** A successful rotation needs the presented token live; it revokes that token, adds
      exactly one row, its live successor, and leaves every other row alone. */
  lemma RotationReplacesOneToken(s: State, token: Presented, now: Time, jwtExpiry: Time, rowExpiry: Time)
    requires Chains(s) && OutcomeOf(s, token, now, jwtExpiry).Rotated?
    ensures var t := AfterRotate(s, token, now, jwtExpiry, rowExpiry); var p := token.raw.jti; var n := |s.rows|;
      Live(s, p) && !Live(t, p) && |t.rows| == n + 1 && Live(t, n) &&
      t.rows[n].raw == OutcomeOf(s, token, now, jwtExpiry).raw && t.rows[n].parent == Some(p) &&
      t.rows[n].familyId == s.rows[p].familyId && t.rows[n].userId == s.rows[p].userId &&
      (forall i :: 0 <= i < n && i != p ==> t.rows[i] == s.rows[i]) &&
      (forall i :: 0 <= i < n && t.rows[i].familyId == t.rows[n].familyId ==> !Live(t, i))
  {}

  /** A rotation that fails for an invalid or expired token or an inactive user changes no
      row; one that detects reuse only revokes rows of that family, and all of them. */
  lemma FailedRotationChangesNothingElse(s: State, token: Presented, now: Time, jwtExpiry: Time, rowExpiry: Time)
    requires !OutcomeOf(s, token, now, jwtExpiry).Rotated?
    ensures var t := AfterRotate(s, token, now, jwtExpiry, rowExpiry);
      var outcome := OutcomeOf(s, token, now, jwtExpiry);
      (!outcome.ReuseDetected? ==> t == s) &&
      (outcome.ReuseDetected? ==>
        var f := s.rows[token.raw.jti].familyId;
        Dead(t, f) && SameElsewhere(s, t, f))
  {}

  /** Every token of the family is revoked. */
  ghost predicate Dead(s: State, familyId: Id) {
    forall i :: 0 <= i < |s.rows| && s.rows[i].familyId == familyId ==> s.rows[i].revokedAt.Some?
  }

  ghost predicate SameElsewhere(s: State, t: State, familyId: Id) {
    |t.rows| == |s.rows| && forall i :: 0 <= i < |s.rows| && s.rows[i].familyId != familyId ==> t.rows[i] == s.rows[i]
  }

  /** Logging out with a token that still verifies revokes its whole family and no other row. */
  lemma LogoutRevokesTheFamily(s: State, token: Presented, now: Time)
    requires Verifies(token, now)
    ensures Dead(Step(s, Revoke(token, now)), token.raw.familyId)
    ensures SameElsewhere(s, Step(s, Revoke(token, now)), token.raw.familyId)
  {}

  // ---------------------------------------------------------------- a dead family stays dead

  lemma StepKeepsDead(s: State, c: Call, familyId: Id)
    requires Chains(s) && Dead(s, familyId) && familyId < s.families
    ensures Dead(Step(s, c), familyId) && familyId < Step(s, c).families
    ensures c.Rotate? && c.token.Signed? && c.token.raw.familyId == familyId ==>
      !OutcomeOf(s, c.token, c.now, c.jwtExpiry).Rotated?
  {
    if c.Rotate? && c.token.Signed? && c.token.raw.jti < |s.rows| { assert Linked(s, c.token.raw.jti); }
  }

  /** Once every token of a family is revoked, by reuse detection or by logout, no later
      sequence of calls makes one of them live again, and no rotation with a token of that
      family ever succeeds. */
  lemma {:induction false} DeadFamiliesStayDead(
      s: State, calls: seq<Call>, familyId: Id, token: Presented, now: Time, jwtExpiry: Time)
    requires Chains(s) && Dead(s, familyId) && familyId < s.families
    requires token.Signed? && token.raw.familyId == familyId
    ensures Chains(Run(s, calls)) && Dead(Run(s, calls), familyId) && familyId < Run(s, calls).families
    ensures !OutcomeOf(Run(s, calls), token, now, jwtExpiry).Rotated?
  {
    if calls == [] {
    } else {
      var front := calls[..|calls| - 1];
      DeadFamiliesStayDead(s, front, familyId, token, now, jwtExpiry);
      StepKeepsDead(Run(s, front), calls[|calls| - 1], familyId);
      StepKeepsChains(Run(s, front), calls[|calls| - 1]);
    }
    StepKeepsDead(Run(s, calls), Rotate(token, now, jwtExpiry, 0), familyId);
  }

  // ---------------------------------------------------------------- inactive users

  /** A login adds a row if and only if the user is active: a live one, of that user, in a
      family without any other row. */
  lemma LoginSucceedsIff(s: State, userId: Id, jwtExpiry: Time, rowExpiry: Time)
    requires Chains(s)
    ensures var t := Step(s, Login(userId, jwtExpiry, rowExpiry));
      if userId in s.active && s.active[userId] then
        |t.rows| == |s.rows| + 1 && t.rows[..|s.rows|] == s.rows &&
        var row := t.rows[|s.rows|];
        row.userId == userId && row.revokedAt == None && row.expiresAt == rowExpiry && row.raw.exp == jwtExpiry &&
        forall i :: 0 <= i < |s.rows| ==> s.rows[i].familyId != row.familyId
      else t.rows == s.rows
  {
    forall i | 0 <= i < |s.rows| ensures s.rows[i].familyId < s.families { assert Linked(s, i); }
  }

  ghost predicate StaysInactive(calls: seq<Call>, userId: Id) {
    forall i :: 0 <= i < |calls| && calls[i].SetActive? ==> calls[i].userId != userId
  }

  lemma InactiveUserGetsNoRow(s: State, c: Call, userId: Id)
    requires !IsActive(s, userId) && (c.SetActive? ==> c.userId != userId)
    ensures !IsActive(Step(s, c), userId) && |s.rows| <= |Step(s, c).rows|
    ensures forall i :: |s.rows| <= i < |Step(s, c).rows| ==> Step(s, c).rows[i].userId != userId
    ensures forall i :: 0 <= i < |s.rows| ==> Step(s, c).rows[i].userId == s.rows[i].userId
  {}

  /** Once a user is deactivated, no sequence of calls of any client gives the user another
      token, by login or by rotation, until the user is activated again. */
  lemma {:induction false} DeactivatedUsersGetNoTokens(s: State, userId: Id, calls: seq<Call>)
    requires StaysInactive(calls, userId)
    ensures var t := Run(Step(s, SetActive(userId, false)), calls);
      !IsActive(t, userId) && |s.rows| <= |t.rows| &&
      (forall i :: |s.rows| <= i < |t.rows| ==> t.rows[i].userId != userId)
  {
    if calls == [] {
    } else {
      var front := calls[..|calls| - 1];
      DeactivatedUsersGetNoTokens(s, userId, front);
      InactiveUserGetsNoRow(Run(Step(s, SetActive(userId, false)), front), calls[|calls| - 1], userId);
    }
  }

  // ---------------------------------------------------------------- lifetimes

  function UnitMs(c: char): int {
    if c == 's' then 1000 else if c == 'm' then 60 * 1000 else if c == 'h' then 60 * 60 * 1000 else 24 * 60 * 60 * 1000
  }

  /** "<n>d", "<n>h", "<n>m" or "<n>s"; anything else counts as seven days. */
  function ExpiryToDate(expiresIn: string, now: Time): Time {
    var n := |expiresIn| - 1;
    if n >= 1 && expiresIn[n] in "dhms" && IsNumeral(expiresIn[..n])
    then now + Parse(expiresIn[..n]) * UnitMs(expiresIn[n])
    else now + 7 * 24 * 60 * 60 * 1000
  }

  /** The text is a number, possibly with leading zeros, and a unit. */
  ghost predicate IsLifetime(text: string, n: nat, unit: char) {
    unit in "dhms" && exists k: nat :: text == Zeros(k) + Print(n) + [unit]
  }

  /** A lifetime written as a number and a unit means that many seconds, minutes, hours or
      days, in milliseconds, for every number; every other text means seven days. */
  lemma LifetimesMeanWhatTheySay(text: string, now: Time)
    ensures forall n: nat :: IsLifetime(text, n, 's') ==> ExpiryToDate(text, now) == now + n * 1000
    ensures forall n: nat :: IsLifetime(text, n, 'm') ==> ExpiryToDate(text, now) == now + n * 60000
    ensures forall n: nat :: IsLifetime(text, n, 'h') ==> ExpiryToDate(text, now) == now + n * 3600000
    ensures forall n: nat :: IsLifetime(text, n, 'd') ==> ExpiryToDate(text, now) == now + n * 86400000
    ensures (forall n: nat, unit :: !IsLifetime(text, n, unit)) ==> ExpiryToDate(text, now) == now + 604800000
  {
    hide ExpiryToDate, IsLifetime;
    forall n: nat, unit | IsLifetime(text, n, unit) ensures ExpiryToDate(text, now) == now + n * UnitMs(unit) {
      LifetimeIs(text, n, unit, now);
    }
    OtherTextsAreSevenDays(text, now);
  }

  lemma OtherTextsAreSevenDays(text: string, now: Time)
    ensures (forall n: nat, unit :: !IsLifetime(text, n, unit)) ==> ExpiryToDate(text, now) == now + 604800000
  {
    var last := |text| - 1;
    if last >= 1 && text[last] in "dhms" && IsNumeral(text[..last]) {
      var k, n := EveryNumeralIsPadded(text[..last]);
      assert text == Zeros(k) + Print(n) + [text[last]];
      assert IsLifetime(text, n, text[last]);
    }
  }

  lemma LifetimeIs(text: string, n: nat, unit: char, now: Time)
    requires IsLifetime(text, n, unit)
    ensures ExpiryToDate(text, now) == now + n * UnitMs(unit)
  {
    var k: nat :| text == Zeros(k) + Print(n) + [unit];
    ParsePrint(n);
    ParseZeros(k, Print(n));
    assert text[..|text| - 1] == Zeros(k) + Print(n);
  }
}
