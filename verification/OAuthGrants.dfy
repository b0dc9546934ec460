/** Whom the token responses of a run are for, what a revocation leaves, and that the right request is granted. */
module OAuthGrants {
  import opened Wrappers
  import opened OAuthTables
  import opened OAuthRuns
  import opened OAuthAudience
  import opened OAuthFlow

  // ------------------------------------------------------------ what each statement decides

  /** An exchange holds its code exactly if the request is whole and fits the row of a code that is unconsumed
      and in time; it may mint exactly if the connection is active and of its client. */
  lemma ExchangeAdmits(w: World, task: nat, exchange: ExchangeInput)
    requires Enabled(w, Exchange(task, exchange))
    ensures var w' := Apply(w, Exchange(task, exchange));
      && (task in w'.tasks <==>
            Complete(exchange) && Redeemable(w.t, exchange.code)
            && w.t.codes[exchange.code].clientId == exchange.clientId && FitsCode(w.t.codes[exchange.code], exchange))
      && (task in w'.tasks ==> w'.tasks == w.tasks[task := Checking(exchange, w.t.codes[exchange.code].connectionId)])
      && (task !in w'.tasks ==> w'.tasks == w.tasks)
      && w'.t == (if Complete(exchange) && Redeemable(w.t, exchange.code)
                  then w.t.(codes := w.t.codes[exchange.code := w.t.codes[exchange.code].(consumed := true)]) else w.t)
  {
  }

  lemma CheckAdmits(w: World, task: nat)
    requires Enabled(w, CheckConnection(task))
    ensures var (w', c) := (Apply(w, CheckConnection(task)), w.tasks[task]);
      && (task in w'.tasks <==> ActiveConnection(w.t, c.connectionId) && w.t.connections[c.connectionId].clientId == c.exchange.clientId)
      && (task in w'.tasks ==> w' == w.(tasks := w.tasks[task := MintingAccess(c.exchange, c.connectionId)]))
      && (task !in w'.tasks ==> w' == w.(tasks := w.tasks - {task}))
  {
  }

  /** A refresh goes on to its rotation exactly if it brings a usable token of its resource, of an active
      connection of its own client. */
  lemma RefreshAdmits(w: World, task: nat, refresh: RefreshInput)
    requires Enabled(w, StartRefresh(task, refresh))
    ensures var w' := Apply(w, StartRefresh(task, refresh));
      && (task in w'.tasks <==>
            Refreshable(w.t, refresh) && w.t.connections[w.t.tokens[refresh.token].connectionId].clientId == refresh.clientId)
      && w' == if task in w'.tasks then w.(tasks := w.tasks[task := Rotating(refresh)]) else w
  {
  }

  /** Revoking takes the rows of the connections named, and no others, out of use. */
  lemma RevokesExactly(w: World, ids: set<string>)
    ensures var (w', t, t') := (Apply(w, RevokesTokens(ids)), w.t, Apply(w, RevokesTokens(ids)).t);
      && w' == w.(t := t.(tokens := t'.tokens)) && t'.tokens.Keys == t.tokens.Keys
      && forall h :: h in t.tokens ==>
           t'.tokens[h] == t.tokens[h].(active := t.tokens[h].active && t.tokens[h].connectionId !in ids)
    ensures var (w', t, t') := (Apply(w, RevokesConnections(ids)), w.t, Apply(w, RevokesConnections(ids)).t);
      && w' == w.(t := t.(connections := t'.connections)) && t'.connections.Keys == t.connections.Keys
      && forall c :: c in t.connections ==>
           t'.connections[c] == t.connections[c].(active := t.connections[c].active && c !in ids)
  {
  }

  // ------------------------------------------------------------ every response is for its own client

  predicate BelongsTo(t: Tables, connectionId: string, clientId: string) {
    connectionId in t.connections && t.connections[connectionId].clientId == clientId
  }

  predicate TokenOf(t: Tables, token: TokenText, clientId: string) {
    token in t.tokens && BelongsTo(t, t.tokens[token].connectionId, clientId)
  }

  /** Whoever is past the check of the connection, or was answered, is its client. */
  predicate TaskServes(t: Tables, task: Task) {
    match task
    case MintingAccess(exchange, connectionId) => BelongsTo(t, connectionId, exchange.clientId)
    case MintingRefresh(exchange, connectionId) => BelongsTo(t, connectionId, exchange.clientId)
    case Rotating(refresh) => TokenOf(t, refresh.token, refresh.clientId)
    case Rotated(refresh, connectionId) => TokenOf(t, refresh.token, refresh.clientId) && BelongsTo(t, connectionId, refresh.clientId)
    case _ => true
  }

  predicate SuccessServes(t: Tables, success: Success) {
    match success
    case CodeSuccess(exchange) => exchange.code in t.codes && BelongsTo(t, t.codes[exchange.code].connectionId, exchange.clientId)
    case RefreshSuccess(refresh) => TokenOf(t, refresh.token, refresh.clientId)
  }

  ghost predicate AllServed(w: World) {
    && (forall k :: k in w.tasks ==> TaskServes(w.t, w.tasks[k]))
    && (forall i :: 0 <= i < |w.successes| ==> SuccessServes(w.t, w.successes[i]))
  }

  /** No step forgets a connection, gives it to another client or makes it active again. */
  ghost predicate ConnectionsLast(t: Tables, t': Tables) {
    forall c :: c in t.connections ==>
      && c in t'.connections && t'.connections[c].clientId == t.connections[c].clientId
      && (t'.connections[c].active ==> t.connections[c].active)
  }

  lemma StepConnectionsLast(w: World, e: Event)
    requires Enabled(w, e)
    ensures ConnectionsLast(w.t, Apply(w, e).t)
    ensures forall c :: c in w.t.codes ==> c in Apply(w, e).t.codes && Apply(w, e).t.codes[c].connectionId == w.t.codes[c].connectionId
  {
    hide CodeFailure, TokenFailure, ConnectionFailure;
  }

  lemma StepServesTask(w: World, e: Event, k: nat)
    requires Enabled(w, e) && AllServed(w) && k in Apply(w, e).tasks && (k !in w.tasks || Apply(w, e).tasks[k] != w.tasks[k])
    ensures TaskServes(w.t, Apply(w, e).tasks[k])
  {
    hide CodeFailure, ConsumeCode;
  }

  lemma StepAnswers(w: World, e: Event)
    requires Inv(w) && Enabled(w, e) && AllServed(w)
    ensures var s, s' := w.successes, Apply(w, e).successes;
      && |s| <= |s'| && s == s'[..|s|] && forall i :: |s| <= i < |s'| ==> SuccessServes(w.t, s'[i])
  {
    hide OneRight, Owned, CodesSucceedOnce, RefreshesSucceedOnce, Chained, CodeFailure, TokenFailure, ConnectionFailure, ConsumeCode;
  }

  lemma ServesLast(w: World, w': World)
    requires ConnectionsLast(w.t, w'.t) && TokensLast(w.t.tokens, w'.t.tokens)
    requires forall c :: c in w.t.codes ==> c in w'.t.codes && w'.t.codes[c].connectionId == w.t.codes[c].connectionId
    ensures forall task :: TaskServes(w.t, task) ==> TaskServes(w'.t, task)
    ensures forall success :: SuccessServes(w.t, success) ==> SuccessServes(w'.t, success)
  {
  }

  lemma StepServes(w: World, e: Event)
    requires Inv(w) && Enabled(w, e) && AllServed(w)
    ensures AllServed(Apply(w, e))
  {
    hide Inv, Apply, Enabled, TaskServes, SuccessServes;
    var w' := Apply(w, e);
    StepConnectionsLast(w, e);
    StepTokensLast(w, e);
    ServesLast(w, w');
    StepAnswers(w, e);
    forall k | k in w'.tasks ensures TaskServes(w'.t, w'.tasks[k]) {
      if k !in w.tasks || w'.tasks[k] != w.tasks[k] {
        StepServesTask(w, e, k);
      }
    }
  }

  lemma {:induction false} RunServes(w: World, es: seq<Event>)
    requires Inv(w) && Follows(w, es) && AllServed(w)
    ensures AllServed(After(w, es))
    decreases |es|
  {
    hide Inv, Apply, Enabled, AllServed;
    if es != [] {
      StepKeeps(w, es[0]);
      StepServes(w, es[0]);
      RunServes(Apply(w, es[0]), es[1..]);
    }
  }

  /** In every run each token response went to the client of the connection to which its code, or its refresh
      token, belongs. */
  lemma AnsweredToItsClient(now: int, es: seq<Event>, i: nat)
    requires Follows(Start(now), es) && i < |After(Start(now), es).successes|
    ensures var w := After(Start(now), es);
      match w.successes[i]
      case CodeSuccess(exchange) =>
        && exchange.code in w.t.codes && w.t.codes[exchange.code].connectionId in w.t.connections
        && w.t.connections[w.t.codes[exchange.code].connectionId].clientId == exchange.clientId
      case RefreshSuccess(refresh) =>
        && refresh.token in w.t.tokens && w.t.tokens[refresh.token].connectionId in w.t.connections
        && w.t.connections[w.t.tokens[refresh.token].connectionId].clientId == refresh.clientId
  {
    hide Inv, Follows, After;
    RunServes(Start(now), es);
    hide Start;
  }

  // ------------------------------------------------------------ a revoked connection

  /** Requests that have passed the check of this connection, and may still go on. */
  predicate Passed(t: Tables, task: Task, connectionId: string) {
    match task
    case MintingAccess(_, c) => c == connectionId
    case Rotating(refresh) => refresh.token in t.tokens && t.tokens[refresh.token].connectionId == connectionId
    case _ => false
  }

  lemma StepPasses(w: World, e: Event, c: string, k: nat)
    requires Enabled(w, e) && c in w.t.connections && !w.t.connections[c].active && AllServed(w)
    requires k in Apply(w, e).tasks && Passed(Apply(w, e).t, Apply(w, e).tasks[k], c)
    ensures k in w.tasks && w.tasks[k] == Apply(w, e).tasks[k] && Passed(w.t, w.tasks[k], c)
  {
    hide CodeFailure, ConsumeCode;
    StepTokensLast(w, e);
  }

  /** Once a connection is revoked it stays so, and no request passes its check any more: only those that had
      passed it before go on. */
  lemma {:induction false} RevokedPassesNobody(w: World, es: seq<Event>, c: string)
    requires Inv(w) && AllServed(w) && Follows(w, es) && c in w.t.connections && !w.t.connections[c].active
    ensures var w' := After(w, es);
      && c in w'.t.connections && !w'.t.connections[c].active
      && forall k :: k in w'.tasks && Passed(w'.t, w'.tasks[k], c) ==> k in w.tasks && w.tasks[k] == w'.tasks[k] && Passed(w.t, w.tasks[k], c)
    decreases |es|
  {
    hide Inv, AllServed, Apply, Enabled, Passed;
    if es != [] {
      var next := Apply(w, es[0]);
      StepKeeps(w, es[0]);
      StepServes(w, es[0]);
      StepConnectionsLast(w, es[0]);
      RevokedPassesNobody(next, es[1..], c);
      forall k | k in next.tasks && Passed(next.t, next.tasks[k], c)
        ensures k in w.tasks && w.tasks[k] == next.tasks[k] && Passed(w.t, w.tasks[k], c)
      {
        StepPasses(w, es[0], c, k);
      }
    }
  }

  // ------------------------------------------------------------ the right request is granted

  /** An exchange by the right client that nothing disturbs mints both tokens, once, and the refresh token that
      it yields is usable for thirty days. */
  lemma ExchangeGrants(w: World, task: nat, exchange: ExchangeInput, access: TokenText, refresh: TokenText)
    requires task !in w.tasks && Exchangeable(w.t, exchange) && access != refresh
    requires Mintable(w, access, exchange.resource) && Mintable(w, refresh, exchange.resource)
    ensures var es := [Exchange(task, exchange), CheckConnection(task), MintAccess(task, access), MintRefresh(task, refresh, true)];
      Follows(w, es)
      && var (w', c) := (After(w, es), w.t.codes[exchange.code].connectionId);
      && w'.tasks == w.tasks && w'.successes == w.successes + [CodeSuccess(exchange)]
      && w'.t.tokens == w.t.tokens[access := TokenRow(c, Access, true, w.t.now + 3_600_000, None, w.t.rows)]
                                  [refresh := TokenRow(c, Refresh, true, w.t.now + 2_592_000_000, None, w.t.rows + 1)]
      && w'.t.connections == w.t.connections
      && w'.t.codes == w.t.codes[exchange.code := w.t.codes[exchange.code].(consumed := true)]
  {
    ExchangeAdmits(w, task, exchange);
    var w1 := Apply(w, Exchange(task, exchange));
    CheckAdmits(w1, task);
    var w2 := Apply(w1, CheckConnection(task));
    var w3 := Apply(w2, MintAccess(task, access));
    var w4 := Apply(w3, MintRefresh(task, refresh, true));
    assert w4.tasks == w.tasks;
    FourSteps(w, Exchange(task, exchange), CheckConnection(task), MintAccess(task, access), MintRefresh(task, refresh, true));
  }

  lemma FourSteps(w: World, a: Event, b: Event, c: Event, d: Event)
    requires Enabled(w, a) && Enabled(Apply(w, a), b) && Enabled(Apply(Apply(w, a), b), c) && Enabled(Apply(Apply(Apply(w, a), b), c), d)
    ensures Follows(w, [a, b, c, d]) && After(w, [a, b, c, d]) == Apply(Apply(Apply(Apply(w, a), b), c), d)
  {
    hide Apply, Enabled;
    var w1 := Apply(w, a);
    var w2 := Apply(w1, b);
    var w3 := Apply(w2, c);
    assert [a, b, c, d][1..] == [b, c, d] && [b, c, d][1..] == [c, d] && [c, d][1..] == [d] && [d][1..] == [];
    assert Follows(Apply(w3, d), []) && Follows(w3, [d]) && Follows(w2, [c, d]) && Follows(w1, [b, c, d]);
    assert After(w3, [d]) == Apply(w3, d) && After(w2, [c, d]) == After(w3, [d]) && After(w1, [b, c, d]) == After(w2, [c, d]);
  }

  /** A refresh by the right client spends its token and yields a usable successor in its place. */
  lemma RefreshGrants(w: World, task: nat, input: RefreshInput, refresh: TokenText, access: TokenText)
    requires task !in w.tasks && Refreshable(w.t, input) && access != refresh
    requires w.t.connections[w.t.tokens[input.token].connectionId].clientId == input.clientId
    requires Mintable(w, access, input.resource) && Mintable(w, refresh, input.resource)
    ensures var es := [StartRefresh(task, input), Rotate(task, refresh), MintAfterRotation(task, access, true)];
      Follows(w, es)
      && var (w', c) := (After(w, es), w.t.tokens[input.token].connectionId);
      && w'.tasks == w.tasks && w'.successes == w.successes + [RefreshSuccess(input)]
      && w'.t.tokens == w.t.tokens[input.token := w.t.tokens[input.token].(active := false)]
                                  [refresh := TokenRow(c, Refresh, true, w.t.now + 2_592_000_000, Some(input.token), w.t.rows)]
                                  [access := TokenRow(c, Access, true, w.t.now + 3_600_000, None, w.t.rows + 1)]
      && w'.t.connections == w.t.connections && w'.t.codes == w.t.codes
  {
    RefreshAdmits(w, task, input);
    var w1 := Apply(w, StartRefresh(task, input));
    var w2 := Apply(w1, Rotate(task, refresh));
    var w3 := Apply(w2, MintAfterRotation(task, access, true));
    assert w3.tasks == w.tasks;
    ThreeSteps(w, StartRefresh(task, input), Rotate(task, refresh), MintAfterRotation(task, access, true));
  }

  lemma ThreeSteps(w: World, a: Event, b: Event, c: Event)
    requires Enabled(w, a) && Enabled(Apply(w, a), b) && Enabled(Apply(Apply(w, a), b), c)
    ensures Follows(w, [a, b, c]) && After(w, [a, b, c]) == Apply(Apply(Apply(w, a), b), c)
  {
    hide Apply, Enabled;
    var w1 := Apply(w, a);
    var w2 := Apply(w1, b);
    assert [a, b, c][1..] == [b, c] && [b, c][1..] == [c] && [c][1..] == [];
    assert Follows(Apply(w2, c), []) && Follows(w2, [c]) && Follows(w1, [b, c]);
    assert After(w2, [c]) == Apply(w2, c) && After(w1, [b, c]) == After(w2, [c]);
  }

  /** What an approval issues can be exchanged for sixty seconds, by the client it is for and nobody else. */
  lemma ApprovalCanBeRedeemed(w: World, task: nat, connectionId: string, code: string, row: CodeRow, exchange: ExchangeInput, ms: nat)
    requires task !in w.tasks && connectionId !in w.t.connections && code !in w.t.codes
    requires row.connectionId == connectionId && !row.consumed && row.expiresAt == w.t.now + CODE_MS
    requires Complete(exchange) && exchange.code == code && FitsCode(row, exchange)
    ensures var es := [Approve(task, connectionId, row.clientId), IssueCode(task, code, row), Tick(ms)];
      Follows(w, es) && (Exchangeable(After(w, es).t, exchange) <==> ms < 60_000 && exchange.clientId == row.clientId)
  {
    var w1 := Apply(w, Approve(task, connectionId, row.clientId));
    var w2 := Apply(w1, IssueCode(task, code, row));
    ThreeSteps(w, Approve(task, connectionId, row.clientId), IssueCode(task, code, row), Tick(ms));
  }

  /** A token minted for an active connection is a bearer token of its own resource and no other, for an hour,
      until the token or its connection is revoked; a refresh token is none. */
  lemma BearerExactly(t: Tables, token: TokenText, resource: string, asked: string, connectionId: string, kind: Kind, ms: nat)
    requires MatchesResource(token, resource) && token !in t.tokens && ActiveConnection(t, connectionId)
    ensures var minted := CreateToken(t, token, connectionId, kind, ACCESS_TOKEN_MS, None).(now := t.now + ms);
      && (Authenticates(minted, token, asked) <==> kind == Access && ms < 3_600_000 && asked == resource)
      && !Authenticates(RevokeTokens(minted, {connectionId}), token, asked)
      && !Authenticates(RevokeConnections(minted, {connectionId}), token, asked)
  {
  }
}
