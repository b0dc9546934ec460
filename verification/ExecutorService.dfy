/**
 The executor service statement by statement. A transaction works on the tables in place; when a statement
 fails, the one numbered `failing` in the order of execution, it is rolled back.
 */
module ExecutorService {
  import opened Wrappers
  import opened ExecutorClaims

  /** At most one claim is the one a request repeats. */
  lemma RepeatsUnique(claims: map<string, Claim>, request: ClaimRequest, b: string, c: string)
    requires ClaimsDistinct(claims) && Repeats(claims, request, b) && Repeats(claims, request, c)
    ensures b == c
  {
  }

  class ConnectExecutorService {
    var executors: map<string, Executor>
    var claims: map<string, Claim>
    var credentials: map<string, Credential>

    constructor ()
      ensures Stored() == EMPTY_TABLES && Inv(Stored())
    {
      executors, claims, credentials := map[], map[], map[];
    }

    function Stored(): Tables
      reads this
    {
      Tables(executors, claims, credentials)
    }

    method Rollback(saved: Tables)
      modifies this
      ensures Stored() == saved
    {
      executors, claims, credentials := saved.executors, saved.claims, saved.credentials;
    }

    /** The claim with the request's idempotency key, or else with its id. */
    method FindRepeated(request: ClaimRequest) returns (existing: Option<string>)
      requires ClaimsDistinct(claims) && forall c :: c in claims ==> claims[c].request.claimId == c
      ensures existing.Some? <==> Known(claims, request)
      ensures existing.Some? ==> Repeats(claims, request, existing.value)
    {
      if c :| c in claims && claims[c].request.idempotencyKey == request.idempotencyKey {
        assert Repeats(claims, request, c);
        return Some(c);
      }
      if request.claimId in claims {
        assert Repeats(claims, request, request.claimId);
        return Some(request.claimId);
      }
      return None;
    }

    method CreateClaim(request: ClaimRequest, token: string, expiresAt: int, failing: nat) returns (outcome: CreateOutcome)
      requires Inv(Stored())
      modifies this
      ensures (Stored(), outcome) == ExecutorClaims.CreateClaim(old(Stored()), request, token, expiresAt)
        || (failing != 0 && outcome == CreateFailed && Stored() == old(Stored()))
    {
      var saved := Stored();
      ClaimIds(saved);
      hide ExecutorsSound, Granted, CredentialsSound, ClaimsDistinct, ClaimSound, Insert, Insertable;
      if failing == 1 {
        return CreateFailed;
      }
      var existing := FindRepeated(request);
      if existing.Some? {
        SpecRepeats(saved, request, token, expiresAt, existing.value);
        var claim := claims[existing.value];
        return if claim.request == request && claim.token == token && claim.status == Open then Retry else CreateConflict;
      }
      outcome := InsertClaim(request, token, expiresAt, failing);
    }

    /** Refresh or register the executor, and insert the claim in place of an open one. */
    method InsertClaim(request: ClaimRequest, token: string, expiresAt: int, failing: nat) returns (outcome: CreateOutcome)
      requires Inv(Stored()) && failing != 1
      modifies this
      ensures Stored() == if outcome == Created then Insert(old(Stored()), request, token, expiresAt) else old(Stored())
      ensures outcome == Created <==> Insertable(old(Stored()), request) && failing == 0
      ensures failing == 0 && !Insertable(old(Stored()), request) ==> outcome == CreateConflict
      ensures outcome in {Created, CreateConflict, CreateFailed}
      ensures outcome == CreateConflict ==> !Insertable(old(Stored()), request)
    {
      var saved := Stored();
      Registered(saved, request.executorId);
      hide Inv;
      if request.executorId in executors && executors[request.executorId].state != Pending {
        return CreateConflict;
      }
      if failing == 2 {
        return CreateFailed;
      }
      if DeviceTaken(executors, request.executorId, request.deviceId) {
        return CreateConflict;
      }
      if request.executorId in executors {
        executors := executors[request.executorId := executors[request.executorId].(deviceId := request.deviceId)];
        if failing == 3 {
          Rollback(saved);
          return CreateFailed;
        }
        claims := WithoutOpen(claims, request.executorId);
      } else {
        executors := executors[request.executorId := Executor(request.deviceId, None, Pending, 0)];
      }
      StillClaimed(saved.claims, request.executorId);
      hide ClaimedOtherwise, WithoutOpen, DeviceTaken;
      if exists c :: c in claims && claims[c].request.executorId == request.executorId {
        Rollback(saved);
        return CreateConflict;
      }
      claims := claims[request.claimId := Claim(request, token, expiresAt, Open, None, None)];
      if failing != 0 {
        Rollback(saved);
        return CreateFailed;
      }
      return Created;
    }

    /** `decide`: a terminal claim answers for itself; an open one is denied, or accepted with its executor. */
    method Decide(claimId: string, decision: Decision, userId: string, key: string, now: int, failing: nat) returns (outcome: DecideOutcome)
      modifies this
      ensures (Stored(), outcome) == ExecutorClaims.Decide(old(Stored()), claimId, decision, userId, key, now)
        || (failing != 0 && outcome == DecideFailed && Stored() == old(Stored()))
      ensures outcome == Expired ==> IsOpen(old(claims), claimId) && old(claims)[claimId].expiresAt <= now
      ensures failing == 0 && IsOpen(old(claims), claimId) ==>
        var claim := old(claims)[claimId];
        outcome ==
          if claim.expiresAt <= now then Expired
          else if decision == Deny then DecidedDenied
          else if Ownable(old(Stored()), claim) then DecidedAccepted
          else DecideFailed
    {
      var saved := Stored();
      if failing == 1 {
        return DecideFailed;
      }
      if claimId !in claims {
        return ClaimNotFound;
      }
      var claim := claims[claimId];
      if claim.status != Open {
        return Terminal(claim, decision, userId, key);
      }
      if claim.expiresAt <= now {
        return Expired;
      }
      if failing == 2 {
        return DecideFailed;
      }
      claims := claims[claimId := Decided(claim, decision, userId, key)];
      if decision == Deny {
        if failing > 2 {
          Rollback(saved);
          return DecideFailed;
        }
        return DecidedDenied;
      }
      var accepted := AcceptClaim(claim, userId, failing);
      if !accepted {
        Rollback(saved);
        return DecideFailed;
      }
      return DecidedAccepted;
    }

    /** The statements after the claim is accepted; false rolls back. */
    method AcceptClaim(claim: Claim, userId: string, failing: nat) returns (done: bool)
      modifies this`executors, this`credentials
      ensures failing <= 2 ==> (done <==> Ownable(old(Stored()), claim))
      ensures done ==> Ownable(old(Stored()), claim) && Stored() == Own(old(Stored()), claim, userId)
    {
      var e := claim.request.executorId;
      if failing == 3 {
        return false;
      }
      if e !in executors || executors[e].state != Pending || executors[e].owner.Some? || executors[e].generation != 0 {
        return false;
      }
      executors := executors[e := executors[e].(owner := Some(userId), state := Active, generation := 1)];
      if failing == 4 || claim.token in credentials {
        return false;
      }
      credentials := credentials[claim.token := Credential(e, 1, true)];
      return failing <= 4;
    }

    method Revoke(userId: string, executorId: string, failing: nat) returns (outcome: RevokeOutcome)
      modifies this
      ensures (Stored(), outcome) == ExecutorClaims.Revoke(old(Stored()), userId, executorId)
        || (failing != 0 && outcome == RevokeFailed && Stored() == old(Stored()))
    {
      var saved := Stored();
      if failing == 1 {
        return RevokeFailed;
      }
      if executorId !in executors || executors[executorId].owner != Some(userId) {
        return NotFound;
      }
      var before := executors[executorId];
      if before.state == Revoked {
        return RevokedNow;
      }
      if failing == 2 || before.state != Active {
        return RevokeFailed;
      }
      executors := executors[executorId := before.(state := Revoked, generation := before.generation + 1)];
      if failing == 3 {
        Rollback(saved);
        return RevokeFailed;
      }
      credentials := map h | h in credentials ::
        if credentials[h].executorId == executorId then credentials[h].(active := false) else credentials[h];
      if failing > 3 {
        Rollback(saved);
        return RevokeFailed;
      }
      return RevokedNow;
    }

    method Authenticate(token: string, executorId: string, deviceId: string, generation: nat) returns (owner: Option<string>)
      ensures owner.Some? <==> Authenticates(Stored(), token, executorId, deviceId, generation)
      ensures owner.Some? ==> owner == executors[executorId].owner
    {
      if token !in credentials || !credentials[token].active || credentials[token].executorId != executorId
         || credentials[token].generation != generation
      {
        return None;
      }
      if executorId !in executors || executors[executorId].state != Active || executors[executorId].deviceId != deviceId
         || executors[executorId].generation != generation || executors[executorId].owner.None?
      {
        return None;
      }
      return executors[executorId].owner;
    }
  }

  lemma ClaimIds(t: Tables)
    requires Inv(t)
    ensures forall c :: c in t.claims ==> t.claims[c].request.claimId == c
  {
    forall c | c in t.claims ensures t.claims[c].request.claimId == c {
      assert ClaimSound(t.executors, c, t.claims[c]);
    }
  }

  /** An executor that is pending has nothing but its names; one that is unknown has no claim. */
  lemma Registered(t: Tables, executorId: string)
    requires Inv(t)
    ensures executorId in t.executors && t.executors[executorId].state == Pending ==>
      t.executors[executorId].owner.None? && t.executors[executorId].generation == 0
    ensures executorId !in t.executors ==>
      WithoutOpen(t.claims, executorId) == t.claims && forall c :: c in t.claims ==> t.claims[c].request.executorId != executorId
  {
    if executorId in t.executors {
      assert ExecutorSound(t.executors[executorId]);
    } else {
      forall c | c in t.claims ensures t.claims[c].request.executorId != executorId {
        assert ClaimSound(t.executors, c, t.claims[c]);
      }
    }
  }

  /** Once open claims are deleted, a claim of the executor is one that is decided. */
  lemma StillClaimed(claims: map<string, Claim>, executorId: string)
    ensures var left := WithoutOpen(claims, executorId);
      (exists c :: c in left && left[c].request.executorId == executorId) <==> ClaimedOtherwise(claims, executorId)
  {
    var left := WithoutOpen(claims, executorId);
    if ClaimedOtherwise(claims, executorId) {
      var c :| c in claims && claims[c].request.executorId == executorId && claims[c].status != Open;
      assert c in left && left[c].request.executorId == executorId;
    }
  }

  lemma SpecRepeats(t: Tables, request: ClaimRequest, token: string, expiresAt: int, existing: string)
    requires Inv(t) && Repeats(t.claims, request, existing)
    ensures ExecutorClaims.CreateClaim(t, request, token, expiresAt) ==
      (t, if t.claims[existing].request == request && t.claims[existing].token == token && t.claims[existing].status == Open
          then Retry else CreateConflict)
  {
    assert Known(t.claims, request);
    var found :| Repeats(t.claims, request, found)
      && ExecutorClaims.CreateClaim(t, request, token, expiresAt) ==
        (t, if t.claims[found].request == request && t.claims[found].token == token && t.claims[found].status == Open
            then Retry else CreateConflict);
    RepeatsUnique(t.claims, request, found, existing);
  }
}
