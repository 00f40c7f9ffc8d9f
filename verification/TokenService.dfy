/** `TokenService` as a class over the refresh-token table; each call is the atomic call of
    the token model. */
module TokenService {
  import opened Domain
  import opened Tokens

  class Service {
    var rows: seq<Row>
    var active: map<Id, bool>
    var families: nat
    var reported: set<Id>

    constructor (active: map<Id, bool>)
      ensures View() == State([], active, 0, {})
    {
      rows, this.active, families, reported := [], active, 0, {};
    }

    ghost function View(): State
      reads this
    {
      State(rows, active, families, reported)
    }

    /** Signs a token and stores its row, in a new family unless one is given. */
    method IssueTokens(userId: Id, family: Option<Id>, jwtExpiry: Time, rowExpiry: Time, parent: Option<Id>)
      returns (raw: Raw)
      modifies this`rows, this`families
      ensures family.Some? ==> View() == Issue(old(View()), userId, family.value, jwtExpiry, rowExpiry, parent)
      ensures family.None? ==>
        View() ==
          Issue(old(View()), userId, old(families), jwtExpiry, rowExpiry, parent).(families := old(families) + 1)
      ensures var familyId := if family.Some? then family.value else old(families);
        raw == Raw(|old(rows)|, userId, familyId, jwtExpiry) &&
        rows == old(rows) + [Row(raw, userId, familyId, rowExpiry, None, parent)]
    {
      var familyId := families;
      if family.Some? {
        familyId := family.value;
      } else {
        families := families + 1;
      }
      raw := Raw(|rows|, userId, familyId, jwtExpiry);
      rows := rows + [Row(raw, userId, familyId, rowExpiry, None, parent)];
    }

    method RevokeAll(familyId: Id, now: Time)
      modifies this`rows
      ensures rows == RevokeFamily(old(rows), familyId, now)
      ensures |rows| == |old(rows)| && forall i :: 0 <= i < |rows| ==>
        var row := old(rows)[i];
        rows[i] == if row.familyId == familyId && row.revokedAt == None then row.(revokedAt := Some(now)) else row
    {
      var i := 0;
      var before := rows;
      while i < |rows|
        invariant 0 <= i <= |rows| == |before|
        invariant forall k :: 0 <= k < i ==> rows[k] == RevokeFamily(before, familyId, now)[k]
        invariant forall k :: i <= k < |rows| ==> rows[k] == before[k]
      {
        if rows[i].familyId == familyId && rows[i].revokedAt.None? {
          rows := rows[i := rows[i].(revokedAt := Some(now))];
        }
        i := i + 1;
      }
    }

    /** Verify, look up, detect reuse, check expiry and user, then revoke and reissue. */
    method Rotate(token: Presented, now: Time, jwtExpiry: Time, rowExpiry: Time) returns (outcome: Outcome)
      modifies this`rows, this`families, this`reported
      ensures outcome == OutcomeOf(old(View()), token, now, jwtExpiry)
      ensures View() == Step(old(View()), Tokens.Rotate(token, now, jwtExpiry, rowExpiry))
      ensures outcome.InvalidToken? <==> !old(Known(View(), token, now))
      ensures old(Known(View(), token, now)) ==>
        var row := old(rows)[token.raw.jti];
        (outcome.ReuseDetected? <==> row.revokedAt != None) &&
        (outcome.Expired? <==> row.revokedAt == None && row.expiresAt < now) &&
        (outcome.Inactive? <==>
          row.revokedAt == None && now <= row.expiresAt && !(row.userId in active && active[row.userId])) &&
        (outcome.Rotated? ==>
          outcome.raw == Raw(|old(rows)|, row.userId, row.familyId, jwtExpiry) &&
          rows == old(rows)[token.raw.jti := row.(revokedAt := Some(now))] +
            [Row(outcome.raw, row.userId, row.familyId, rowExpiry, None, Some(token.raw.jti))])
      ensures !outcome.Rotated? && !outcome.ReuseDetected? ==> rows == old(rows)
    {
      if token.Forged? || token.raw.exp <= now {
        return InvalidToken;
      }
      var raw := token.raw;
      if raw.jti >= |rows| || rows[raw.jti].raw != raw {
        return InvalidToken;
      }
      var stored := rows[raw.jti];
      if stored.revokedAt.Some? {
        RevokeAll(stored.familyId, now);
        reported := reported + {stored.familyId};
        return ReuseDetected;
      }
      if stored.expiresAt < now {
        return Expired;
      }
      if stored.userId !in active || !active[stored.userId] {
        return Inactive;
      }
      rows := rows[raw.jti := stored.(revokedAt := Some(now))];
      var issued := IssueTokens(stored.userId, Some(stored.familyId), jwtExpiry, rowExpiry, Some(raw.jti));
      outcome := Rotated(issued);
    }

    method Revoke(token: Presented, now: Time)
      modifies this`rows
      ensures View() == Step(old(View()), Tokens.Revoke(token, now))
      ensures var verifies := token.Signed? && now < token.raw.exp;
        |rows| == |old(rows)| && forall i :: 0 <= i < |rows| ==>
          var row := old(rows)[i];
          rows[i] == if verifies && row.familyId == token.raw.familyId && row.revokedAt == None
                     then row.(revokedAt := Some(now)) else row
    {
      if token.Forged? || token.raw.exp <= now {
        return;
      }
      RevokeAll(token.raw.familyId, now);
    }
  }
}
