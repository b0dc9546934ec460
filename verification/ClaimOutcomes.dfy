/** What each transaction of the executor service answers and stores, from the tables alone. */
module ClaimOutcomes {
  import opened Wrappers
  import opened ExecutorClaims
  import opened ClaimDecisions

  /** A request of which no claim is known, by its id or its key. */
  predicate Unknown(claims: map<string, Claim>, request: ClaimRequest) {
    forall c :: c in claims ==> c != request.claimId && claims[c].request.idempotencyKey != request.idempotencyKey
  }

  /** Its executor is unknown, or pending and not denied before, and no other executor has its device. */
  predicate Claimable(t: Tables, request: ClaimRequest) {
    && (request.executorId in t.executors ==> t.executors[request.executorId].state == Pending)
    && (forall c :: c in t.claims && t.claims[c].request.executorId == request.executorId ==> t.claims[c].status == Open)
    && (forall e :: e in t.executors && t.executors[e].deviceId == request.deviceId ==> e == request.executorId)
  }

  /** The very claim is stored and open, with this token. */
  predicate Pends(claims: map<string, Claim>, request: ClaimRequest, token: string) {
    IsOpen(claims, request.claimId) && claims[request.claimId].request == request && claims[request.claimId].token == token
  }

  lemma CreatesExactly(t: Tables, request: ClaimRequest, token: string, expiresAt: int)
    requires ExecutorClaims.Inv(t)
    ensures var (t', outcome) := CreateClaim(t, request, token, expiresAt);
      && (outcome == Created <==> Unknown(t.claims, request) && Claimable(t, request))
      && (outcome == Retry <==> Pends(t.claims, request, token))
      && outcome in {Created, Retry, CreateConflict}
      && (outcome != Created ==> t' == t)
  {
    ClaimOfItself(t);
    hide ClaimsSound, ExecutorsSound, Granted, CredentialsSound, Insert;
    if Known(t.claims, request) {
      var c :| Repeats(t.claims, request, c);
      assert !Unknown(t.claims, request);
      KnownAnswer(t, request, token, expiresAt);
    } else {
      NotKnown(t.claims, request);
    }
  }

  lemma ClaimOfItself(t: Tables)
    requires ExecutorClaims.Inv(t)
    ensures ClaimsDistinct(t.claims) && forall c :: c in t.claims ==> t.claims[c].request.claimId == c
  {
    forall c | c in t.claims ensures t.claims[c].request.claimId == c {
      assert ClaimSound(t.executors, c, t.claims[c]);
    }
  }

  lemma KnownAnswer(t: Tables, request: ClaimRequest, token: string, expiresAt: int)
    requires ClaimsDistinct(t.claims) && (forall c :: c in t.claims ==> t.claims[c].request.claimId == c) && Known(t.claims, request)
    ensures CreateClaim(t, request, token, expiresAt) == (t, if Pends(t.claims, request, token) then Retry else CreateConflict)
  {
    var found :| Repeats(t.claims, request, found)
      && CreateClaim(t, request, token, expiresAt) ==
        (t, if t.claims[found].request == request && t.claims[found].token == token && t.claims[found].status == Open
            then Retry else CreateConflict);
  }

  /** A new claim replaces only the open claim of its executor; the claim and the executor are as the request
      has them, and all other rows stay. */
  lemma CreatedRows(t: Tables, request: ClaimRequest, token: string, expiresAt: int)
    requires ExecutorClaims.Inv(t) && Unknown(t.claims, request) && Claimable(t, request)
    ensures var t' := CreateClaim(t, request, token, expiresAt).0;
      && t'.executors == t.executors[request.executorId := Executor(request.deviceId, None, Pending, 0)]
      && t'.credentials == t.credentials
      && (forall c :: c in t'.claims <==>
            c == request.claimId || (c in t.claims && t.claims[c].request.executorId != request.executorId))
      && (forall c :: c in t'.claims ==>
            t'.claims[c] == if c == request.claimId then Claim(request, token, expiresAt, Open, None, None) else t.claims[c])
  {
    CreatesExactly(t, request, token, expiresAt);
    hide ClaimsSound, ExecutorsSound, Granted, CredentialsSound, Claimable, Unknown;
    assert Unknown(t.claims, request) ==> CreateClaim(t, request, token, expiresAt) == (Insert(t, request, token, expiresAt), Created);
    assert forall c :: c in t.claims && t.claims[c].request.executorId == request.executorId ==> t.claims[c].status == Open by {
      assert Claimable(t, request);
    }
  }

  /** A decision: what it answers, exactly when, and what it stores. */
  lemma DecidesExactly(t: Tables, claimId: string, decision: Decision, userId: string, key: string, now: int)
    requires ExecutorClaims.Inv(t)
    ensures var (t', outcome) := Decide(t, claimId, decision, userId, key, now);
      && (outcome == ClaimNotFound <==> claimId !in t.claims)
      && (outcome == Expired <==> IsOpen(t.claims, claimId) && t.claims[claimId].expiresAt <= now)
      && (outcome == DecideFailed <==>
            IsOpen(t.claims, claimId) && now < t.claims[claimId].expiresAt && decision == Accept && t.claims[claimId].token in t.credentials)
      && (outcome == Replayed <==>
            claimId in t.claims && t.claims[claimId].status != Open
            && !DecidedBy(t, Call(claimId, decision, userId, key)))
      && (outcome in {DecidedAccepted, DecidedDenied} ==> outcome == OutcomeOf(decision) && DecidedBy(t', Call(claimId, decision, userId, key)))
      && (IsOpen(t.claims, claimId) && now < t.claims[claimId].expiresAt && outcome != DecideFailed <==> t' != t)
  {
    if IsOpen(t.claims, claimId) {
      OpenIsPending(t, claimId);
    }
    hide ClaimsSound, ExecutorsSound, Granted, CredentialsSound;
  }

  /** A decision changes its claim only; an acceptance also gives the claim's executor its owner and turns the
      claim's token into an active credential of it. */
  lemma DecidedRows(t: Tables, claimId: string, decision: Decision, userId: string, key: string, now: int)
    requires ExecutorClaims.Inv(t) && Decide(t, claimId, decision, userId, key, now).0 != t
    ensures var (t', e) := (Decide(t, claimId, decision, userId, key, now).0, t.claims[claimId].request.executorId);
      && t'.claims == t.claims[claimId := t.claims[claimId].(
           status := match decision { case Accept => Accepted case Deny => Denied }, decidedBy := Some(userId), decisionKey := Some(key))]
      && (decision == Deny ==> t'.executors == t.executors && t'.credentials == t.credentials)
      && (decision == Accept ==>
            && t'.executors == t.executors[e := Executor(t.executors[e].deviceId, Some(userId), Active, 1)]
            && t'.credentials == t.credentials[t.claims[claimId].token := Credential(e, 1, true)])
  {
    OpenIsPending(t, claimId);
    hide ClaimsSound, ExecutorsSound, Granted, CredentialsSound;
  }

  /** Only the owner's revocation is carried out, and it never fails: the executor's generation is 2, none of
      its credentials is active, and nothing else has changed. */
  lemma RevokesExactly(t: Tables, userId: string, e: string)
    requires ExecutorClaims.Inv(t)
    ensures var (t', outcome) := Revoke(t, userId, e);
      && outcome == (if e in t.executors && t.executors[e].owner == Some(userId) then RevokedNow else NotFound)
      && t'.claims == t.claims && t'.executors.Keys == t.executors.Keys && t'.credentials.Keys == t.credentials.Keys
      && (forall d :: d in t.executors ==>
            t'.executors[d] == if d == e && outcome == RevokedNow then t.executors[d].(state := Revoked, generation := 2) else t.executors[d])
      && (forall h :: h in t.credentials ==>
            t'.credentials[h] == if outcome == RevokedNow && t.credentials[h].executorId == e then t.credentials[h].(active := false)
                                 else t.credentials[h])
  {
    if e in t.executors {
      assert ExecutorSound(t.executors[e]);
    }
    hide ClaimsSound, Granted, ExecutorsSound;
  }

  /** From claim to revocation: a new claim repeats as itself until it is decided, its acceptance in time lets
      its executor in under its token, device and generation 1 only, and only its owner ends that. */
  lemma ClaimsLife(t: Tables, request: ClaimRequest, token: string, expiresAt: int, userId: string, key: string, now: int,
                   other: string, device: string, generation: nat)
    requires ExecutorClaims.Inv(t) && Unknown(t.claims, request) && Claimable(t, request) && token !in t.credentials
    ensures var claimed := CreateClaim(t, request, token, expiresAt).0;
      var (accepted, outcome) := Decide(claimed, request.claimId, Accept, userId, key, now);
      && CreateClaim(claimed, request, token, expiresAt) == (claimed, Retry)
      && outcome == (if now < expiresAt then DecidedAccepted else Expired)
      && (Authenticates(accepted, token, request.executorId, device, generation) <==>
            now < expiresAt && device == request.deviceId && generation == 1)
      && (Authenticates(Revoke(accepted, other, request.executorId).0, token, request.executorId, device, generation) <==>
            now < expiresAt && device == request.deviceId && generation == 1 && other != userId)
  {
    var claimed := CreateClaim(t, request, token, expiresAt).0;
    CreateKeeps(t, request, token, expiresAt);
    CreatedRows(t, request, token, expiresAt);
    CreatesExactly(claimed, request, token, expiresAt);
    DecidesExactly(claimed, request.claimId, Accept, userId, key, now);
    var accepted := Decide(claimed, request.claimId, Accept, userId, key, now).0;
    DecideKeeps(claimed, request.claimId, Accept, userId, key, now);
    if accepted != claimed {
      DecidedRows(claimed, request.claimId, Accept, userId, key, now);
    }
    RevokesExactly(accepted, other, request.executorId);
    hide ExecutorClaims.Inv, CreateClaim, Decide, Revoke, Unknown, Claimable;
  }

  /** In every run a call that ends decides its claim exactly if the claim is open and in time, no statement
      fails, and, for an acceptance, its token is not in use. */
  lemma WonExactly(now: int, es: seq<Event>, task: nat, fails: bool)
    requires Follows(Start(now), es) && Enabled(After(Start(now), es), Ends(task, fails))
    ensures var w := After(Start(now), es);
      var (call, entry) := (w.running[task].call, Apply(w, Ends(task, fails)).history[|w.history|]);
      && entry.call == call && entry.at == w.now
      && (entry.won <==>
            !fails && IsOpen(w.t.claims, call.claimId) && w.now < w.t.claims[call.claimId].expiresAt
            && (call.decision == Accept ==> w.t.claims[call.claimId].token !in w.t.credentials))
      && (entry.outcome == Expired <==> !fails && IsOpen(w.t.claims, call.claimId) && w.t.claims[call.claimId].expiresAt <= w.now)
  {
    RunKeeps(Start(now), es);
    var w := After(Start(now), es);
    var call := w.running[task].call;
    DecidesExactly(w.t, call.claimId, call.decision, call.userId, call.key, w.now);
    hide Follows, After, Start, Queued, InOrder, OneWinner, ExecutorClaims.Inv;
    CallOutcome(w.t, call, w.now, fails);
  }
}
