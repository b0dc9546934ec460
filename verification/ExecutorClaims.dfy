/**
 Executors, their claims and their credentials as tables, and what each transaction does to them. A
 transaction commits as a whole or leaves the tables as they were. A token stands for its hash, and the
 envelope of a claim request for the hash of it.
 */
module ExecutorClaims {
  import opened Wrappers

  datatype ExecutorState = Pending | Active | Revoked
  datatype Executor = Executor(deviceId: string, owner: Option<string>, state: ExecutorState, generation: nat)
  datatype ClaimStatus = Open | Accepted | Denied
  datatype ClaimRequest = ClaimRequest(claimId: string, executorId: string, deviceId: string, idempotencyKey: string, details: string)
  datatype Claim = Claim(
    request: ClaimRequest, token: string, expiresAt: int, status: ClaimStatus,
    decidedBy: Option<string>, decisionKey: Option<string>)
  datatype Credential = Credential(executorId: string, generation: nat, active: bool)

  /** Claims by id and credentials by token, both unique columns. */
  datatype Tables = Tables(executors: map<string, Executor>, claims: map<string, Claim>, credentials: map<string, Credential>)

  datatype CreateOutcome = Created | Retry | CreateConflict | CreateFailed
  datatype Decision = Accept | Deny
  datatype DecideOutcome = DecidedAccepted | DecidedDenied | Replayed | Expired | ClaimNotFound | DecideFailed
  datatype RevokeOutcome = RevokedNow | NotFound | RevokeFailed

  const EMPTY_TABLES := Tables(map[], map[], map[])

  /** The constraint on `device_id`. */
  predicate DeviceTaken(executors: map<string, Executor>, executorId: string, deviceId: string) {
    exists e :: e in executors && e != executorId && executors[e].deviceId == deviceId
  }

  /** The constraint on `executor_id` of claims. */
  predicate ClaimedOtherwise(claims: map<string, Claim>, executorId: string) {
    exists c :: c in claims && claims[c].request.executorId == executorId && claims[c].status != Open
  }

  /** The claim a request repeats: by its idempotency key, or else by its id. */
  ghost predicate Repeats(claims: map<string, Claim>, request: ClaimRequest, claimId: string) {
    && claimId in claims
    && (claims[claimId].request.idempotencyKey == request.idempotencyKey
        || (claimId == request.claimId && forall c :: c in claims ==> claims[c].request.idempotencyKey != request.idempotencyKey))
  }

  ghost predicate Known(claims: map<string, Claim>, request: ClaimRequest) {
    exists claimId :: Repeats(claims, request, claimId)
  }

  function WithoutOpen(claims: map<string, Claim>, executorId: string): map<string, Claim> {
    map c | c in claims && !(claims[c].request.executorId == executorId && claims[c].status == Open) :: claims[c]
  }

  /** A new claim: a pending executor is refreshed and its open claim replaced, an unknown one is registered. */
  function Insert(t: Tables, request: ClaimRequest, token: string, expiresAt: int): Tables {
    t.(executors := t.executors[request.executorId := Executor(request.deviceId, None, Pending, 0)],
       claims := WithoutOpen(t.claims, request.executorId)[request.claimId := Claim(request, token, expiresAt, Open, None, None)])
  }

  predicate Insertable(t: Tables, request: ClaimRequest) {
    && (request.executorId in t.executors ==> t.executors[request.executorId].state == Pending)
    && !DeviceTaken(t.executors, request.executorId, request.deviceId)
    && !ClaimedOtherwise(t.claims, request.executorId)
  }

  ghost function CreateClaim(t: Tables, request: ClaimRequest, token: string, expiresAt: int): (Tables, CreateOutcome) {
    if Known(t.claims, request) then
      var existing :| Repeats(t.claims, request, existing);
      (t, if t.claims[existing].request == request && t.claims[existing].token == token && t.claims[existing].status == Open
          then Retry else CreateConflict)
    else if !Insertable(t, request) then (t, CreateConflict)
    else (Insert(t, request, token, expiresAt), Created)
  }

  function Decided(claim: Claim, decision: Decision, userId: string, key: string): Claim {
    claim.(status := if decision == Accept then Accepted else Denied, decidedBy := Some(userId), decisionKey := Some(key))
  }

  /** The executor gets its owner and generation 1, and the claim's token becomes its credential. */
  function Own(t: Tables, claim: Claim, userId: string): Tables
    requires claim.request.executorId in t.executors
  {
    var e := claim.request.executorId;
    t.(executors := t.executors[e := t.executors[e].(owner := Some(userId), state := Active, generation := 1)],
       credentials := t.credentials[claim.token := Credential(e, 1, true)])
  }

  /** What an acceptance needs besides an open claim: an unowned executor, and a token that is not in use. */
  predicate Ownable(t: Tables, claim: Claim) {
    && claim.request.executorId in t.executors
    && t.executors[claim.request.executorId].state == Pending && t.executors[claim.request.executorId].owner.None?
    && t.executors[claim.request.executorId].generation == 0
    && claim.token !in t.credentials
  }

  predicate IsOpen(claims: map<string, Claim>, claimId: string) {
    claimId in claims && claims[claimId].status == Open
  }

  /** The outcome for a claim that is already decided: its own decision again, or a replay. */
  function Terminal(claim: Claim, decision: Decision, userId: string, key: string): DecideOutcome {
    if claim.decidedBy == Some(userId) && claim.decisionKey == Some(key)
       && claim.status == (if decision == Accept then Accepted else Denied)
    then (if decision == Accept then DecidedAccepted else DecidedDenied)
    else Replayed
  }

  function Decide(t: Tables, claimId: string, decision: Decision, userId: string, key: string, now: int): (Tables, DecideOutcome) {
    if claimId !in t.claims then (t, ClaimNotFound)
    else
      var claim := t.claims[claimId];
      if claim.status != Open then (t, Terminal(claim, decision, userId, key))
      else if claim.expiresAt <= now then (t, Expired)
      else
        var decided := t.(claims := t.claims[claimId := Decided(claim, decision, userId, key)]);
        if decision == Deny then (decided, DecidedDenied)
        else if !Ownable(t, claim) then (t, DecideFailed)
        else (Own(decided, claim, userId), DecidedAccepted)
  }

  function Revoke(t: Tables, userId: string, executorId: string): (Tables, RevokeOutcome) {
    if executorId !in t.executors || t.executors[executorId].owner != Some(userId) then (t, NotFound)
    else if t.executors[executorId].state == Revoked then (t, RevokedNow)
    else if t.executors[executorId].state != Active then (t, RevokeFailed)
    else
      var executor := t.executors[executorId];
      (t.(executors := t.executors[executorId := executor.(state := Revoked, generation := executor.generation + 1)],
          credentials := map h | h in t.credentials ::
            if t.credentials[h].executorId == executorId then t.credentials[h].(active := false) else t.credentials[h]),
       RevokedNow)
  }

  /** Channel authentication: the credential and the executor row must agree with the request and each other. */
  predicate Authenticates(t: Tables, token: string, executorId: string, deviceId: string, generation: nat) {
    && token in t.credentials && t.credentials[token].active
    && t.credentials[token].executorId == executorId && t.credentials[token].generation == generation
    && executorId in t.executors && t.executors[executorId].state == Active && t.executors[executorId].deviceId == deviceId
    && t.executors[executorId].generation == generation && t.executors[executorId].owner.Some?
  }

  // ------------------------------------------------------------ what every committed state satisfies

  /** A claim belongs to an executor that exists, is accepted exactly if that is not pending, and is decided
      exactly if somebody decided it. */
  ghost predicate ClaimSound(executors: map<string, Executor>, claimId: string, claim: Claim) {
    && claim.request.claimId == claimId && claim.request.executorId in executors
    && (claim.status == Accepted <==> executors[claim.request.executorId].state != Pending)
    && (claim.status == Open <==> claim.decidedBy.None?)
  }

  ghost predicate ClaimsSound(executors: map<string, Executor>, claims: map<string, Claim>) {
    (forall c :: c in claims ==> ClaimSound(executors, c, claims[c])) && ClaimsDistinct(claims)
  }

  ghost predicate ClaimsDistinct(claims: map<string, Claim>) {
    forall b, c :: b in claims && c in claims && b != c ==>
      && claims[b].request.executorId != claims[c].request.executorId
      && claims[b].request.idempotencyKey != claims[c].request.idempotencyKey
  }

  /** A pending executor has no owner and generation 0, an active one generation 1, a revoked one 2. */
  predicate ExecutorSound(executor: Executor) {
    match executor.state
    case Pending => executor.owner.None? && executor.generation == 0
    case Active => executor.owner.Some? && executor.generation == 1
    case Revoked => executor.owner.Some? && executor.generation == 2
  }

  ghost predicate ExecutorsSound(executors: map<string, Executor>) {
    && (forall e :: e in executors ==> ExecutorSound(executors[e]))
    && (forall d, e :: d in executors && e in executors && d != e ==> executors[d].deviceId != executors[e].deviceId)
  }

  /** The claim that gave an executor its owner and its credential. */
  predicate Grants(claim: Claim, e: string, executor: Executor, credentials: map<string, Credential>) {
    && claim.request.executorId == e && claim.status == Accepted && claim.decidedBy == executor.owner
    && claim.token in credentials && credentials[claim.token].executorId == e
  }

  ghost predicate Granted(executors: map<string, Executor>, claims: map<string, Claim>, credentials: map<string, Credential>) {
    forall e :: e in executors && executors[e].state != Pending ==>
      exists c :: c in claims && Grants(claims[c], e, executors[e], credentials)
  }

  /** Credentials are of generation 1, one to an executor, and active exactly while it is. */
  ghost predicate CredentialsSound(executors: map<string, Executor>, credentials: map<string, Credential>) {
    && (forall h :: h in credentials ==>
          && credentials[h].executorId in executors && credentials[h].generation == 1
          && executors[credentials[h].executorId].state != Pending
          && (credentials[h].active <==> executors[credentials[h].executorId].state == Active))
    && (forall g, h :: g in credentials && h in credentials && g != h ==> credentials[g].executorId != credentials[h].executorId)
  }

  ghost predicate Inv(t: Tables) {
    && ClaimsSound(t.executors, t.claims) && ExecutorsSound(t.executors)
    && Granted(t.executors, t.claims, t.credentials) && CredentialsSound(t.executors, t.credentials)
  }

  lemma NotKnown(claims: map<string, Claim>, request: ClaimRequest)
    requires !Known(claims, request)
    ensures request.claimId !in claims && forall c :: c in claims ==> claims[c].request.idempotencyKey != request.idempotencyKey
  {
    forall c | c in claims ensures claims[c].request.idempotencyKey != request.idempotencyKey {
      assert !Repeats(claims, request, c);
    }
    assert !Repeats(claims, request, request.claimId);
  }

  lemma InsertClaims(t: Tables, request: ClaimRequest, token: string, expiresAt: int)
    requires ClaimsSound(t.executors, t.claims) && Insertable(t, request) && !Known(t.claims, request)
    ensures ClaimsSound(Insert(t, request, token, expiresAt).executors, Insert(t, request, token, expiresAt).claims)
  {
    hide Known, Repeats, Insertable, ClaimSound, ClaimsDistinct;
    OthersLeft(t, request);
    var t' := Insert(t, request, token, expiresAt);
    forall c | c in t'.claims ensures ClaimSound(t'.executors, c, t'.claims[c]) {
      if c == request.claimId {
        NewSound(t, request, token, expiresAt);
      } else {
        OtherSound(t, request, c);
      }
    }
    InsertDistinct(t, request, token, expiresAt);
  }

  lemma NewSound(t: Tables, request: ClaimRequest, token: string, expiresAt: int)
    ensures var t' := Insert(t, request, token, expiresAt); ClaimSound(t'.executors, request.claimId, t'.claims[request.claimId])
  {
  }

  lemma OtherSound(t: Tables, request: ClaimRequest, c: string)
    requires c in t.claims && ClaimSound(t.executors, c, t.claims[c]) && t.claims[c].request.executorId != request.executorId
    ensures ClaimSound(t.executors[request.executorId := Executor(request.deviceId, None, Pending, 0)], c, t.claims[c])
  {
  }

  lemma InsertDistinct(t: Tables, request: ClaimRequest, token: string, expiresAt: int)
    requires ClaimsDistinct(t.claims) && Insertable(t, request) && !Known(t.claims, request)
    ensures ClaimsDistinct(Insert(t, request, token, expiresAt).claims)
  {
    NotKnown(t.claims, request);
    OthersLeft(t, request);
    hide Known, Repeats, Insertable, WithoutOpen;
  }

  /** Only claims of other executors are left beside the new one. */
  lemma OthersLeft(t: Tables, request: ClaimRequest)
    requires Insertable(t, request)
    ensures forall c :: c in WithoutOpen(t.claims, request.executorId) ==>
      c in t.claims && WithoutOpen(t.claims, request.executorId)[c] == t.claims[c] && t.claims[c].request.executorId != request.executorId
  {
  }

  lemma InsertGranted(t: Tables, request: ClaimRequest, token: string, expiresAt: int)
    requires Granted(t.executors, t.claims, t.credentials) && Insertable(t, request) && !Known(t.claims, request)
    ensures var t' := Insert(t, request, token, expiresAt); Granted(t'.executors, t'.claims, t'.credentials)
  {
    var t' := Insert(t, request, token, expiresAt);
    NotKnown(t.claims, request);
    forall e | e in t'.executors && t'.executors[e].state != Pending
      ensures exists c :: c in t'.claims && Grants(t'.claims[c], e, t'.executors[e], t'.credentials)
    {
      var c :| c in t.claims && Grants(t.claims[c], e, t.executors[e], t.credentials);
      assert c in t'.claims && t'.claims[c] == t.claims[c];
    }
  }

  lemma InsertExecutors(t: Tables, request: ClaimRequest, token: string, expiresAt: int)
    requires ExecutorsSound(t.executors) && CredentialsSound(t.executors, t.credentials) && Insertable(t, request)
    ensures var t' := Insert(t, request, token, expiresAt); ExecutorsSound(t'.executors) && CredentialsSound(t'.executors, t.credentials)
  {
  }

  lemma CreateKeeps(t: Tables, request: ClaimRequest, token: string, expiresAt: int)
    requires Inv(t)
    ensures Inv(CreateClaim(t, request, token, expiresAt).0)
  {
    hide ClaimsSound, ExecutorsSound, Granted, CredentialsSound, Known, Insertable;
    if !Known(t.claims, request) && Insertable(t, request) {
      InsertClaims(t, request, token, expiresAt);
      InsertGranted(t, request, token, expiresAt);
      InsertExecutors(t, request, token, expiresAt);
    }
  }

  /** An open claim's executor is pending, so accepting it can fail only for a token that is in use. */
  lemma OpenIsPending(t: Tables, claimId: string)
    requires Inv(t) && claimId in t.claims && t.claims[claimId].status == Open
    ensures Ownable(t, t.claims[claimId]) <==> t.claims[claimId].token !in t.credentials
    ensures forall h :: h in t.credentials ==> t.credentials[h].executorId != t.claims[claimId].request.executorId
  {
    assert ClaimSound(t.executors, claimId, t.claims[claimId]);
    assert ExecutorSound(t.executors[t.claims[claimId].request.executorId]);
  }

  lemma DecidedClaims(t: Tables, claimId: string, decision: Decision, userId: string, key: string)
    requires ClaimsSound(t.executors, t.claims) && claimId in t.claims && t.claims[claimId].status == Open
    ensures var decided := t.(claims := t.claims[claimId := Decided(t.claims[claimId], decision, userId, key)]);
      && (decision == Deny ==> ClaimsSound(decided.executors, decided.claims))
      && (decision == Accept && Ownable(t, t.claims[claimId]) ==>
            ClaimsSound(Own(decided, t.claims[claimId], userId).executors, decided.claims))
  {
    assert ClaimSound(t.executors, claimId, t.claims[claimId]);
  }

  lemma DecidedGranted(t: Tables, claimId: string, decision: Decision, userId: string, key: string)
    requires Granted(t.executors, t.claims, t.credentials) && claimId in t.claims && t.claims[claimId].status == Open
    ensures var decided := t.(claims := t.claims[claimId := Decided(t.claims[claimId], decision, userId, key)]);
      && Granted(decided.executors, decided.claims, decided.credentials)
      && (decision == Accept && Ownable(t, t.claims[claimId]) ==>
            var t' := Own(decided, t.claims[claimId], userId); Granted(t'.executors, t'.claims, t'.credentials))
  {
    var claims := t.claims[claimId := Decided(t.claims[claimId], decision, userId, key)];
    forall e | e in t.executors && t.executors[e].state != Pending
      ensures exists c :: c in claims && c != claimId && claims[c] == t.claims[c] && Grants(claims[c], e, t.executors[e], t.credentials)
    {
      var c :| c in t.claims && Grants(t.claims[c], e, t.executors[e], t.credentials);
      assert c in claims && claims[c] == t.claims[c];
    }
    if decision == Accept && Ownable(t, t.claims[claimId]) {
      var t' := Own(t.(claims := claims), t.claims[claimId], userId);
      forall e | e in t'.executors && t'.executors[e].state != Pending
        ensures exists c :: c in claims && Grants(claims[c], e, t'.executors[e], t'.credentials)
      {
        if e == t.claims[claimId].request.executorId {
          assert Grants(claims[claimId], e, t'.executors[e], t'.credentials);
        } else {
          var c :| c in claims && c != claimId && claims[c] == t.claims[c] && Grants(claims[c], e, t.executors[e], t.credentials);
          assert Grants(claims[c], e, t'.executors[e], t'.credentials);
        }
      }
    }
  }

  lemma OwnExecutors(t: Tables, claim: Claim, userId: string)
    requires ExecutorsSound(t.executors) && CredentialsSound(t.executors, t.credentials) && Ownable(t, claim)
    ensures var t' := Own(t, claim, userId); ExecutorsSound(t'.executors) && CredentialsSound(t'.executors, t'.credentials)
  {
  }

  lemma DecideKeeps(t: Tables, claimId: string, decision: Decision, userId: string, key: string, now: int)
    requires Inv(t)
    ensures Inv(Decide(t, claimId, decision, userId, key, now).0)
  {
    hide ClaimsSound, ExecutorsSound, Granted, CredentialsSound, Decided;
    if claimId in t.claims && t.claims[claimId].status == Open && t.claims[claimId].expiresAt > now {
      DecidedClaims(t, claimId, decision, userId, key);
      DecidedGranted(t, claimId, decision, userId, key);
      if decision == Accept && Ownable(t, t.claims[claimId]) {
        OwnExecutors(t, t.claims[claimId], userId);
      }
    }
  }

  lemma RevokeGranted(t: Tables, executorId: string, t': Tables)
    requires Granted(t.executors, t.claims, t.credentials) && executorId in t.executors && t.executors[executorId].state == Active
    requires t'.claims == t.claims && t'.executors == t.executors[executorId := t.executors[executorId].(state := Revoked, generation := 2)]
    requires t'.credentials.Keys == t.credentials.Keys
    requires forall h :: h in t.credentials ==> t'.credentials[h].executorId == t.credentials[h].executorId
    ensures Granted(t'.executors, t'.claims, t'.credentials)
  {
    forall e | e in t'.executors && t'.executors[e].state != Pending
      ensures exists c :: c in t'.claims && Grants(t'.claims[c], e, t'.executors[e], t'.credentials)
    {
      var c :| c in t.claims && Grants(t.claims[c], e, t.executors[e], t.credentials);
      assert Grants(t'.claims[c], e, t'.executors[e], t'.credentials);
    }
  }

  lemma RevokeClaims(executors: map<string, Executor>, claims: map<string, Claim>, executorId: string)
    requires ClaimsSound(executors, claims) && executorId in executors && executors[executorId].state == Active
    ensures ClaimsSound(executors[executorId := executors[executorId].(state := Revoked, generation := 2)], claims)
  {
    var revoked := executors[executorId := executors[executorId].(state := Revoked, generation := 2)];
    forall c | c in claims ensures ClaimSound(revoked, c, claims[c]) {
      assert ClaimSound(executors, c, claims[c]);
    }
    hide ClaimSound;
  }

  lemma RevokeRows(t: Tables, executorId: string, credentials: map<string, Credential>)
    requires ExecutorsSound(t.executors) && CredentialsSound(t.executors, t.credentials)
    requires executorId in t.executors && t.executors[executorId].state == Active
    requires credentials == map h | h in t.credentials ::
      if t.credentials[h].executorId == executorId then t.credentials[h].(active := false) else t.credentials[h]
    ensures var executors := t.executors[executorId := t.executors[executorId].(state := Revoked, generation := 2)];
      ExecutorsSound(executors) && CredentialsSound(executors, credentials)
  {
    assert ExecutorSound(t.executors[executorId]);
  }

  lemma RevokeKeeps(t: Tables, userId: string, executorId: string)
    requires Inv(t)
    ensures Inv(Revoke(t, userId, executorId).0)
  {
    var t' := Revoke(t, userId, executorId).0;
    if executorId in t.executors && t.executors[executorId].state == Active && t.executors[executorId].owner == Some(userId) {
      assert ExecutorSound(t.executors[executorId]);
      hide ClaimsSound, ExecutorsSound, CredentialsSound, Granted;
      RevokeClaims(t.executors, t.claims, executorId);
      RevokeRows(t, executorId, t'.credentials);
      RevokeGranted(t, executorId, t');
    }
  }

  // ------------------------------------------------------------ what they mean

  /** In a committed state an active executor has one owner, generation 1 and exactly one active credential,
      that of the claim its owner accepted; a revoked one has generation 2 and no active credential; a pending
      one none at all. */
  lemma StateOfExecutor(t: Tables, e: string)
    requires Inv(t) && e in t.executors
    ensures t.executors[e].state == Pending ==>
      t.executors[e].owner.None? && forall h :: h in t.credentials ==> t.credentials[h].executorId != e
    ensures t.executors[e].state == Active ==>
      && t.executors[e].generation == 1 && t.executors[e].owner.Some?
      && exists c ::
           && c in t.claims && Grants(t.claims[c], e, t.executors[e], t.credentials)
           && forall h :: h in t.credentials && t.credentials[h].executorId == e && t.credentials[h].active <==> h == t.claims[c].token
    ensures t.executors[e].state == Revoked ==>
      t.executors[e].generation == 2 && forall h :: h in t.credentials && t.credentials[h].executorId == e ==> !t.credentials[h].active
  {
    assert ExecutorSound(t.executors[e]);
    if t.executors[e].state == Active {
      var c :| c in t.claims && Grants(t.claims[c], e, t.executors[e], t.credentials);
      assert forall h :: h in t.credentials && t.credentials[h].executorId == e && t.credentials[h].active <==> h == t.claims[c].token;
    }
  }

  /** A channel authenticates exactly with the bootstrap token of the claim that was accepted for an executor
      that is active, under its device and generation 1. */
  lemma AuthenticationExact(t: Tables, token: string, e: string, deviceId: string, generation: nat)
    requires Inv(t)
    ensures Authenticates(t, token, e, deviceId, generation) <==>
      && e in t.executors && t.executors[e].state == Active && t.executors[e].deviceId == deviceId && generation == 1
      && exists c :: c in t.claims && t.claims[c].request.executorId == e && t.claims[c].status == Accepted && t.claims[c].token == token
  {
    if e in t.executors && t.executors[e].state == Active {
      StateOfExecutor(t, e);
      assert ExecutorSound(t.executors[e]);
      var g :| g in t.claims && Grants(t.claims[g], e, t.executors[e], t.credentials);
      assert ClaimsSound(t.executors, t.claims);
    }
  }
}
