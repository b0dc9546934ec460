/** Approvals, exchanges and refreshes that interleave statement by statement, fail and crash anywhere. */
module OAuthRuns {
  import opened Wrappers
  import opened OAuthTables

  /** Where a request stands between two statements. */
  datatype Task =
    | Approving(connectionId: string, clientId: string)
    | Checking(exchange: ExchangeInput, connectionId: string)
    | MintingAccess(exchange: ExchangeInput, connectionId: string)
    | MintingRefresh(exchange: ExchangeInput, connectionId: string)
    | Rotating(refresh: RefreshInput)
    | Rotated(refresh: RefreshInput, connectionId: string)

  /** A token response: the credential it was given for and who asked. */
  datatype Success = CodeSuccess(exchange: ExchangeInput) | RefreshSuccess(refresh: RefreshInput)

  datatype World = World(t: Tables, tasks: map<nat, Task>, successes: seq<Success>)

  datatype Event =
    | Approve(task: nat, connectionId: string, clientId: string)
    | IssueCode(task: nat, code: string, row: CodeRow)
    | Exchange(task: nat, exchange: ExchangeInput)
    | CheckConnection(task: nat)
    | MintAccess(task: nat, token: TokenText)
    | MintRefresh(task: nat, token: TokenText, replied: bool)
    | StartRefresh(task: nat, refresh: RefreshInput)
    | Rotate(task: nat, token: TokenText)
    | MintAfterRotation(task: nat, token: TokenText, replied: bool)
    | RevokesTokens(connectionIds: set<string>)
    | RevokesConnections(connectionIds: set<string>)
    | Fails(task: nat)
    | Tick(ms: nat)

  /** A token that is minted for a resource. */
  predicate Mintable(w: World, token: TokenText, resource: string) {
    MatchesResource(token, resource) && token !in w.t.tokens
  }

  /** New identifiers are fresh; a statement runs only in the request that has reached it. */
  predicate Enabled(w: World, e: Event) {
    match e
    case Approve(task, connectionId, _) => task !in w.tasks && connectionId !in w.t.connections
    case IssueCode(task, code, row) =>
      && task in w.tasks && w.tasks[task].Approving? && code !in w.t.codes
      && row.connectionId == w.tasks[task].connectionId && row.clientId == w.tasks[task].clientId && !row.consumed
      && row.expiresAt == w.t.now + CODE_MS
    case Exchange(task, _) => task !in w.tasks
    case CheckConnection(task) => task in w.tasks && w.tasks[task].Checking?
    case MintAccess(task, token) => task in w.tasks && w.tasks[task].MintingAccess? && Mintable(w, token, w.tasks[task].exchange.resource)
    case MintRefresh(task, token, _) => task in w.tasks && w.tasks[task].MintingRefresh? && Mintable(w, token, w.tasks[task].exchange.resource)
    case StartRefresh(task, _) => task !in w.tasks
    case Rotate(task, token) => task in w.tasks && w.tasks[task].Rotating? && Mintable(w, token, w.tasks[task].refresh.resource)
    case MintAfterRotation(task, token, _) => task in w.tasks && w.tasks[task].Rotated? && Mintable(w, token, w.tasks[task].refresh.resource)
    case Fails(task) => task in w.tasks
    case _ => true
  }

  function Apply(w: World, e: Event): World
    requires Enabled(w, e)
  {
    match e
    case Approve(task, connectionId, clientId) =>
      w.(t := CreateConnection(w.t, connectionId, clientId), tasks := w.tasks[task := Approving(connectionId, clientId)])
    case IssueCode(task, code, row) => w.(t := CreateCode(w.t, code, row), tasks := w.tasks - {task})
    case Exchange(task, exchange) =>
      var (t, row) := ConsumeCode(w.t, exchange.code);
      if !Complete(exchange) then w
      else if row.None? || CodeFailure(row.value, exchange).Some? then w.(t := t)
      else w.(t := t, tasks := w.tasks[task := Checking(exchange, row.value.connectionId)])
    case CheckConnection(task) =>
      var c := w.tasks[task];
      if ConnectionFailure(w.t, c.connectionId, c.exchange.clientId).Some? then w.(tasks := w.tasks - {task})
      else w.(tasks := w.tasks[task := MintingAccess(c.exchange, c.connectionId)])
    case MintAccess(task, token) =>
      var c := w.tasks[task];
      w.(t := CreateToken(w.t, token, c.connectionId, Access, ACCESS_TOKEN_MS, None),
         tasks := w.tasks[task := MintingRefresh(c.exchange, c.connectionId)])
    case MintRefresh(task, token, replied) =>
      var c := w.tasks[task];
      World(CreateToken(w.t, token, c.connectionId, Refresh, REFRESH_TOKEN_MS, None), w.tasks - {task},
            w.successes + if replied then [CodeSuccess(c.exchange)] else [])
    case StartRefresh(task, refresh) =>
      if TokenFailure(w.t, refresh).Some? then w else w.(tasks := w.tasks[task := Rotating(refresh)])
    case Rotate(task, token) =>
      var r := w.tasks[task].refresh;
      var (t, rotated) := RotateRefreshToken(w.t, r.token, token);
      if !rotated then w.(tasks := w.tasks - {task})
      else w.(t := t, tasks := w.tasks[task := Rotated(r, w.t.tokens[r.token].connectionId)])
    case MintAfterRotation(task, token, replied) =>
      var r := w.tasks[task];
      World(CreateToken(w.t, token, r.connectionId, Access, ACCESS_TOKEN_MS, None), w.tasks - {task},
            w.successes + if replied then [RefreshSuccess(r.refresh)] else [])
    case RevokesTokens(connectionIds) => w.(t := RevokeTokens(w.t, connectionIds))
    case RevokesConnections(connectionIds) => w.(t := RevokeConnections(w.t, connectionIds))
    case Fails(task) => w.(tasks := w.tasks - {task})
    case Tick(ms) => w.(t := w.t.(now := w.t.now + ms))
  }

  // ------------------------------------------------------------ one right per connection

  /** What may still become, or is, the live refresh token of a connection. */
  datatype Right = Request(task: nat) | Code(code: string) | Live(token: TokenText)

  predicate Exchanges(task: Task) {
    task.Checking? || task.MintingAccess? || task.MintingRefresh?
  }

  predicate HasRight(tasks: map<nat, Task>, codes: map<string, CodeRow>, tokens: map<TokenText, TokenRow>, connectionId: string, right: Right) {
    match right
    case Request(task) =>
      task in tasks && (tasks[task].Approving? || Exchanges(tasks[task])) && tasks[task].connectionId == connectionId
    case Code(code) => code in codes && !codes[code].consumed && codes[code].connectionId == connectionId
    case Live(token) =>
      token in tokens && tokens[token].kind == Refresh && tokens[token].active && tokens[token].connectionId == connectionId
  }

  /** No connection has two rights, and until it has a refresh token none has ever been. */
  ghost predicate OneRight(tasks: map<nat, Task>, codes: map<string, CodeRow>, tokens: map<TokenText, TokenRow>) {
    && (forall c, x, y :: HasRight(tasks, codes, tokens, c, x) && HasRight(tasks, codes, tokens, c, y) ==> x == y)
    && (forall c, x, h :: HasRight(tasks, codes, tokens, c, x) && !x.Live? && h in tokens && tokens[h].kind == Refresh ==>
          tokens[h].connectionId != c)
  }

  /** Rights and tokens exist only for connections that exist. */
  ghost predicate Owned(tasks: map<nat, Task>, codes: map<string, CodeRow>, tokens: map<TokenText, TokenRow>, connections: map<string, ConnectionRow>) {
    && (forall c, x :: HasRight(tasks, codes, tokens, c, x) ==> c in connections)
    && (forall h :: h in tokens ==> tokens[h].connectionId in connections)
    && (forall k :: k in tasks && tasks[k].Rotated? ==> tasks[k].connectionId in connections)
  }

  /** The exchange fits the row of a consumed code, and the code belongs to the connection. */
  predicate Redeems(codes: map<string, CodeRow>, exchange: ExchangeInput, connectionId: string) {
    && exchange.code in codes && codes[exchange.code].consumed && codes[exchange.code].connectionId == connectionId
    && CodeFailure(codes[exchange.code], exchange).None?
  }

  ghost predicate Matched(tasks: map<nat, Task>, codes: map<string, CodeRow>) {
    forall k :: k in tasks && Exchanges(tasks[k]) ==> Redeems(codes, tasks[k].exchange, tasks[k].connectionId)
  }

  /** A code that has succeeded was redeemed correctly, and its connection has had a refresh token since. */
  ghost predicate CodesSucceedOnce(successes: seq<Success>, codes: map<string, CodeRow>, tokens: map<TokenText, TokenRow>) {
    && (forall i :: 0 <= i < |successes| && successes[i].CodeSuccess? ==>
          && successes[i].exchange.code in codes
          && Redeems(codes, successes[i].exchange, codes[successes[i].exchange.code].connectionId)
          && exists h :: h in tokens && tokens[h].kind == Refresh && tokens[h].connectionId == codes[successes[i].exchange.code].connectionId)
    && (forall i, j :: 0 <= i < j < |successes| && successes[i].CodeSuccess? && successes[j].CodeSuccess? ==>
          successes[i].exchange.code != successes[j].exchange.code)
  }

  /** A refresh token that some request has rotated. */
  predicate Spent(tokens: map<TokenText, TokenRow>, token: TokenText) {
    token in tokens && tokens[token].kind == Refresh && !tokens[token].active
  }

  ghost predicate RefreshesSucceedOnce(successes: seq<Success>, tasks: map<nat, Task>, tokens: map<TokenText, TokenRow>) {
    && (forall i :: 0 <= i < |successes| && successes[i].RefreshSuccess? ==> Spent(tokens, successes[i].refresh.token))
    && (forall k :: k in tasks && tasks[k].Rotated? ==> Spent(tokens, tasks[k].refresh.token))
    && (forall i, j :: 0 <= i < j < |successes| && successes[i].RefreshSuccess? && successes[j].RefreshSuccess? ==>
          successes[i].refresh.token != successes[j].refresh.token)
    && (forall i, k :: 0 <= i < |successes| && successes[i].RefreshSuccess? && k in tasks && tasks[k].Rotated? ==>
          successes[i].refresh.token != tasks[k].refresh.token)
    && (forall k, l :: k in tasks && l in tasks && k != l && tasks[k].Rotated? && tasks[l].Rotated? ==>
          tasks[k].refresh.token != tasks[l].refresh.token)
  }

  predicate Twins(a: TokenRow, b: TokenRow) {
    a.kind == Refresh && b.kind == Refresh && a.rotatedFrom == b.rotatedFrom
  }

  /** `rotated_from` leads from each refresh token to an older, spent one of its connection; no two lead to the
      same, and no two of a connection lead to none. */
  ghost predicate Chained(tokens: map<TokenText, TokenRow>, rows: nat) {
    && (forall h :: h in tokens ==> tokens[h].born < rows)
    && (forall h :: h in tokens && tokens[h].rotatedFrom.Some? ==>
          && Spent(tokens, tokens[h].rotatedFrom.value)
          && tokens[tokens[h].rotatedFrom.value].connectionId == tokens[h].connectionId
          && tokens[tokens[h].rotatedFrom.value].born < tokens[h].born)
    && (forall g, h :: g in tokens && h in tokens && g != h && Twins(tokens[g], tokens[h]) ==> tokens[g].connectionId != tokens[h].connectionId)
  }

  ghost predicate Inv(w: World) {
    && OneRight(w.tasks, w.t.codes, w.t.tokens)
    && Owned(w.tasks, w.t.codes, w.t.tokens, w.t.connections)
    && Matched(w.tasks, w.t.codes)
    && CodesSucceedOnce(w.successes, w.t.codes, w.t.tokens)
    && RefreshesSucceedOnce(w.successes, w.tasks, w.t.tokens)
    && Chained(w.t.tokens, w.t.rows)
  }

  // ------------------------------------------------------------ rights move, and are never copied

  /** Tokens of refresh kind stay with their connections; only `added` may be new. */
  ghost predicate SameRefresh(tokens: map<TokenText, TokenRow>, tokens': map<TokenText, TokenRow>, added: set<TokenText>) {
    forall h :: h in tokens' && tokens'[h].kind == Refresh ==>
      h in added || (h in tokens && tokens[h].kind == Refresh && tokens[h].connectionId == tokens'[h].connectionId)
  }

  lemma RightsShrink(w: World, w': World)
    requires OneRight(w.tasks, w.t.codes, w.t.tokens) && SameRefresh(w.t.tokens, w'.t.tokens, {})
    requires forall c, x :: HasRight(w'.tasks, w'.t.codes, w'.t.tokens, c, x) ==> HasRight(w.tasks, w.t.codes, w.t.tokens, c, x)
    ensures OneRight(w'.tasks, w'.t.codes, w'.t.tokens)
  {
    hide HasRight;
  }

  /** A right becomes another: `from` is gone, `to` has come in its place. */
  lemma RightMoves(w: World, w': World, connectionId: string, from: Right, to: Right)
    requires OneRight(w.tasks, w.t.codes, w.t.tokens)
    requires HasRight(w.tasks, w.t.codes, w.t.tokens, connectionId, from) && (from.Live? ==> to.Live?)
    requires from == to || !HasRight(w'.tasks, w'.t.codes, w'.t.tokens, connectionId, from)
    requires forall c, x :: HasRight(w'.tasks, w'.t.codes, w'.t.tokens, c, x) ==>
      HasRight(w.tasks, w.t.codes, w.t.tokens, c, x) || (x == to && c == connectionId)
    requires SameRefresh(w.t.tokens, w'.t.tokens, if to.Live? then {to.token} else {})
    requires to.Live? && to.token in w'.t.tokens ==> w'.t.tokens[to.token].connectionId == connectionId
    ensures OneRight(w'.tasks, w'.t.codes, w'.t.tokens)
  {
    hide HasRight;
  }

  lemma RightBegins(w: World, w': World, connectionId: string, right: Right)
    requires OneRight(w.tasks, w.t.codes, w.t.tokens) && Owned(w.tasks, w.t.codes, w.t.tokens, w.t.connections)
    requires connectionId !in w.t.connections && w'.t.tokens == w.t.tokens
    requires forall c, x :: HasRight(w'.tasks, w'.t.codes, w'.t.tokens, c, x) ==>
      HasRight(w.tasks, w.t.codes, w.t.tokens, c, x) || (x == right && c == connectionId)
    ensures OneRight(w'.tasks, w'.t.codes, w'.t.tokens)
  {
    hide HasRight;
  }

  lemma StepOneRight(w: World, e: Event)
    requires Inv(w) && Enabled(w, e)
    ensures OneRight(Apply(w, e).tasks, Apply(w, e).t.codes, Apply(w, e).t.tokens)
  {
    hide Matched, CodesSucceedOnce, RefreshesSucceedOnce, Chained, OneRight, Owned, CodeFailure, TokenFailure, ConnectionFailure, Mintable, Complete;
    var w' := Apply(w, e);
    match e
    case Approve(task, connectionId, clientId) => RightBegins(w, w', connectionId, Request(task));
    case IssueCode(task, code, row) => RightMoves(w, w', row.connectionId, Request(task), Code(code));
    case Exchange(task, exchange) =>
      if task in w'.tasks {
        RightMoves(w, w', w'.tasks[task].connectionId, Code(exchange.code), Request(task));
      } else {
        RightsShrink(w, w');
      }
    case MintRefresh(task, token, _) => RightMoves(w, w', w.tasks[task].connectionId, Request(task), Live(token));
    case Rotate(task, token) =>
      if w'.t == w.t {
        RightsShrink(w, w');
      } else {
        var previous := w.tasks[task].refresh.token;
        RightMoves(w, w', w.t.tokens[previous].connectionId, Live(previous), Live(token));
      }
    case _ => RightsShrink(w, w');
  }

  lemma StepOwned(w: World, e: Event)
    requires Inv(w) && Enabled(w, e)
    ensures var w' := Apply(w, e); Owned(w'.tasks, w'.t.codes, w'.t.tokens, w'.t.connections)
  {
    hide Matched, CodesSucceedOnce, RefreshesSucceedOnce, Chained, OneRight, CodeFailure, TokenFailure, ConnectionFailure;
    RightOwned(w, e);
    hide HasRight;
    var w' := Apply(w, e);
    forall c, x | HasRight(w'.tasks, w'.t.codes, w'.t.tokens, c, x) ensures c in w'.t.connections {
    }
  }

  /** Rights after a step belong to connections that exist. */
  lemma RightOwned(w: World, e: Event)
    requires Owned(w.tasks, w.t.codes, w.t.tokens, w.t.connections) && Enabled(w, e)
    ensures var w' := Apply(w, e);
      && (forall c, x :: HasRight(w'.tasks, w'.t.codes, w'.t.tokens, c, x) ==> c in w'.t.connections)
      && (e.MintAccess? || e.MintRefresh? ==> w.tasks[e.task].connectionId in w.t.connections)
  {
    hide CodeFailure, TokenFailure, ConnectionFailure;
    var tasks, codes, tokens := w.tasks, w.t.codes, w.t.tokens;
    if e.Exchange? && e.exchange.code in codes {
      var c := codes[e.exchange.code].connectionId;
      assert !codes[e.exchange.code].consumed ==> HasRight(tasks, codes, tokens, c, Code(e.exchange.code));
    } else if e.IssueCode? || e.CheckConnection? || e.MintAccess? || e.MintRefresh? {
      assert HasRight(tasks, codes, tokens, tasks[e.task].connectionId, Request(e.task));
    }
    var w' := Apply(w, e);
    forall c, x | HasRight(w'.tasks, w'.t.codes, w'.t.tokens, c, x) ensures c in w'.t.connections {
      assert HasRight(tasks, codes, tokens, c, x) ==> c in w.t.connections;
    }
  }

  lemma StepMatched(w: World, e: Event)
    requires Inv(w) && Enabled(w, e)
    ensures Matched(Apply(w, e).tasks, Apply(w, e).t.codes)
  {
    hide Owned, CodesSucceedOnce, RefreshesSucceedOnce, Chained, OneRight, TokenFailure, ConnectionFailure;
  }

  // ------------------------------------------------------------ the chain of rotations

  /** Rows are the same except that some are no longer active. */
  ghost predicate OnlyRevoked(tokens: map<TokenText, TokenRow>, tokens': map<TokenText, TokenRow>) {
    && tokens'.Keys == tokens.Keys
    && forall h :: h in tokens ==> tokens'[h] == tokens[h] || tokens'[h] == tokens[h].(active := false)
  }

  lemma RevokedChained(tokens: map<TokenText, TokenRow>, tokens': map<TokenText, TokenRow>, rows: nat)
    requires Chained(tokens, rows) && OnlyRevoked(tokens, tokens')
    ensures Chained(tokens', rows)
  {
  }

  /** A new row extends the chain if no other refresh token has its predecessor, or, without one, its connection. */
  lemma InsertedChained(tokens: map<TokenText, TokenRow>, rows: nat, token: TokenText, row: TokenRow)
    requires Chained(tokens, rows) && token !in tokens && row.born == rows
    requires row.rotatedFrom.Some? ==>
      Spent(tokens, row.rotatedFrom.value) && tokens[row.rotatedFrom.value].connectionId == row.connectionId
    requires forall h :: h in tokens && Twins(tokens[h], row) ==> tokens[h].connectionId != row.connectionId
    ensures Chained(tokens[token := row], rows + 1)
  {
  }

  lemma MintChained(w: World, task: nat, token: TokenText)
    requires Inv(w) && Enabled(w, MintRefresh(task, token, true))
    ensures var t := CreateToken(w.t, token, w.tasks[task].connectionId, Refresh, REFRESH_TOKEN_MS, None); Chained(t.tokens, t.rows)
  {
    hide Owned, CodesSucceedOnce, RefreshesSucceedOnce, Matched, Chained;
    var c := w.tasks[task].connectionId;
    assert HasRight(w.tasks, w.t.codes, w.t.tokens, c, Request(task));
    InsertedChained(w.t.tokens, w.t.rows, token, TokenRow(c, Refresh, true, w.t.now + REFRESH_TOKEN_MS, None, w.t.rows));
  }

  lemma AccessChained(t: Tables, token: TokenText, connectionId: string)
    requires Chained(t.tokens, t.rows) && token !in t.tokens
    ensures var t' := CreateToken(t, token, connectionId, Access, ACCESS_TOKEN_MS, None); Chained(t'.tokens, t'.rows)
  {
    hide Chained;
    InsertedChained(t.tokens, t.rows, token, TokenRow(connectionId, Access, true, t.now + ACCESS_TOKEN_MS, None, t.rows));
  }

  /** An active token has not been rotated. */
  lemma NoSuccessor(tokens: map<TokenText, TokenRow>, rows: nat, token: TokenText)
    requires Chained(tokens, rows) && token in tokens && tokens[token].active
    ensures forall h :: h in tokens ==> tokens[h].rotatedFrom != Some(token)
  {
  }

  lemma RotateChained(t: Tables, previous: TokenText, token: TokenText)
    requires Chained(t.tokens, t.rows) && token !in t.tokens
    ensures var t' := RotateRefreshToken(t, previous, token).0; Chained(t'.tokens, t'.rows)
  {
    hide Chained;
    if Usable(t, previous) {
      var revoked := t.tokens[previous := t.tokens[previous].(active := false)];
      var c := t.tokens[previous].connectionId;
      RevokedChained(t.tokens, revoked, t.rows);
      NoSuccessor(t.tokens, t.rows, previous);
      InsertedChained(revoked, t.rows, token, TokenRow(c, Refresh, true, t.now + REFRESH_TOKEN_MS, Some(previous), t.rows));
    }
  }

  lemma StepChained(w: World, e: Event)
    requires Inv(w) && Enabled(w, e)
    ensures Chained(Apply(w, e).t.tokens, Apply(w, e).t.rows)
  {
    hide Owned, CodesSucceedOnce, RefreshesSucceedOnce, Matched, OneRight, Chained, CodeFailure, TokenFailure, ConnectionFailure;
    match e
    case MintAccess(task, token) => AccessChained(w.t, token, w.tasks[task].connectionId);
    case MintRefresh(task, token, _) => MintChained(w, task, token);
    case Rotate(task, token) => RotateChained(w.t, w.tasks[task].refresh.token, token);
    case MintAfterRotation(task, token, _) => AccessChained(w.t, token, w.tasks[task].connectionId);
    case RevokesTokens(connectionIds) => RevokedChained(w.t.tokens, RevokeTokens(w.t, connectionIds).tokens, w.t.rows);
    case _ =>
  }

  /** No step changes a token's kind, connection or predecessor, forgets it, or makes it active again. */
  ghost predicate TokensLast(tokens: map<TokenText, TokenRow>, tokens': map<TokenText, TokenRow>) {
    forall h :: h in tokens ==>
      && h in tokens' && tokens'[h].kind == tokens[h].kind && tokens'[h].connectionId == tokens[h].connectionId
      && tokens'[h].rotatedFrom == tokens[h].rotatedFrom && (tokens'[h].active ==> tokens[h].active)
  }

  lemma StepTokensLast(w: World, e: Event)
    requires Enabled(w, e)
    ensures TokensLast(w.t.tokens, Apply(w, e).t.tokens)
  {
    hide CodeFailure, TokenFailure, ConnectionFailure;
  }

  /** A rotation spends a token that nothing had spent. */
  lemma RotatedOnce(w: World, e: Event)
    requires Inv(w) && Enabled(w, e) && (e.Rotate? || e.MintAfterRotation?)
    ensures RefreshesSucceedOnce(Apply(w, e).successes, Apply(w, e).tasks, Apply(w, e).t.tokens)
  {
    hide Owned, CodesSucceedOnce, Chained, Matched, OneRight, CodeFailure, TokenFailure, ConnectionFailure;
  }

  lemma NothingRotated(w: World, e: Event)
    requires Enabled(w, e) && !e.Rotate? && !e.MintAfterRotation?
    ensures forall k :: k in Apply(w, e).tasks && Apply(w, e).tasks[k].Rotated? ==> k in w.tasks && w.tasks[k] == Apply(w, e).tasks[k]
    ensures var s, s' := w.successes, Apply(w, e).successes;
      forall i :: 0 <= i < |s'| && s'[i].RefreshSuccess? ==> i < |s| && s[i] == s'[i]
  {
    hide CodeFailure, TokenFailure, ConnectionFailure, ConsumeCode;
  }

  lemma StepRefreshes(w: World, e: Event)
    requires Inv(w) && Enabled(w, e)
    ensures RefreshesSucceedOnce(Apply(w, e).successes, Apply(w, e).tasks, Apply(w, e).t.tokens)
  {
    hide Owned, CodesSucceedOnce, Chained, Matched, OneRight, Apply, Enabled;
    if e.Rotate? || e.MintAfterRotation? {
      RotatedOnce(w, e);
    } else {
      StepTokensLast(w, e);
      NothingRotated(w, e);
    }
  }

  /** A redeemed code stays redeemed. */
  lemma StepRedeems(w: World, e: Event, exchange: ExchangeInput, connectionId: string)
    requires Enabled(w, e) && Redeems(w.t.codes, exchange, connectionId)
    ensures Redeems(Apply(w, e).t.codes, exchange, connectionId)
    ensures exchange.code in Apply(w, e).t.codes && Apply(w, e).t.codes[exchange.code] == w.t.codes[exchange.code]
  {
    hide CodeFailure, TokenFailure, ConnectionFailure;
  }

  lemma NoCodeSucceeds(w: World, e: Event)
    requires Enabled(w, e) && !e.MintRefresh?
    ensures var s, s' := w.successes, Apply(w, e).successes;
      forall i :: 0 <= i < |s'| && s'[i].CodeSuccess? ==> i < |s| && s[i] == s'[i]
  {
    hide CodeFailure, TokenFailure, ConnectionFailure, ConsumeCode;
  }

  lemma StepCodes(w: World, e: Event)
    requires Inv(w) && Enabled(w, e)
    ensures CodesSucceedOnce(Apply(w, e).successes, Apply(w, e).t.codes, Apply(w, e).t.tokens)
  {
    hide Owned, RefreshesSucceedOnce, Chained, Matched, OneRight, Apply, Enabled, Redeems;
    var w' := Apply(w, e);
    StepTokensLast(w, e);
    if e.MintRefresh? {
      MintedOnce(w, e.task, e.token, e.replied);
    } else {
      NoCodeSucceeds(w, e);
      forall i | 0 <= i < |w'.successes| && w'.successes[i].CodeSuccess?
        ensures w'.successes[i].exchange.code in w'.t.codes
          && Redeems(w'.t.codes, w'.successes[i].exchange, w'.t.codes[w'.successes[i].exchange.code].connectionId)
          && exists h :: h in w'.t.tokens && w'.t.tokens[h].kind == Refresh
               && w'.t.tokens[h].connectionId == w'.t.codes[w'.successes[i].exchange.code].connectionId
      {
        var exchange := w.successes[i].exchange;
        var c := w.t.codes[exchange.code].connectionId;
        StepRedeems(w, e, exchange, c);
        var h :| h in w.t.tokens && w.t.tokens[h].kind == Refresh && w.t.tokens[h].connectionId == c;
        assert h in w'.t.tokens && w'.t.tokens[h].kind == Refresh;
      }
    }
  }

  /** The connection of a success has had a refresh token, that of a request that mints its first has not. */
  lemma MintedOnce(w: World, task: nat, token: TokenText, replied: bool)
    requires Inv(w) && Enabled(w, MintRefresh(task, token, replied))
    ensures var w' := Apply(w, MintRefresh(task, token, replied)); CodesSucceedOnce(w'.successes, w'.t.codes, w'.t.tokens)
  {
    var w' := Apply(w, MintRefresh(task, token, replied));
    var c := w.tasks[task].connectionId;
    assert HasRight(w.tasks, w.t.codes, w.t.tokens, c, Request(task));
    assert w'.t.tokens[token].kind == Refresh && w'.t.tokens[token].connectionId == c;
    hide Owned, RefreshesSucceedOnce, Chained, HasRight, CodeFailure;
    forall i | 0 <= i < |w.successes| && w.successes[i].CodeSuccess?
      ensures w.successes[i].exchange.code != w.tasks[task].exchange.code
      ensures exists h :: h in w'.t.tokens && w'.t.tokens[h].kind == Refresh
                && w'.t.tokens[h].connectionId == w.t.codes[w.successes[i].exchange.code].connectionId
    {
      var h :| h in w.t.tokens && w.t.tokens[h].kind == Refresh
               && w.t.tokens[h].connectionId == w.t.codes[w.successes[i].exchange.code].connectionId;
      assert h in w'.t.tokens && w'.t.tokens[h] == w.t.tokens[h];
    }
  }

  lemma StepKeeps(w: World, e: Event)
    requires Inv(w) && Enabled(w, e)
    ensures Inv(Apply(w, e))
  {
    StepOneRight(w, e);
    StepOwned(w, e);
    StepMatched(w, e);
    StepCodes(w, e);
    StepRefreshes(w, e);
    StepChained(w, e);
    hide OneRight, Owned, Matched, CodesSucceedOnce, RefreshesSucceedOnce, Chained, Apply, Enabled;
  }

  // ------------------------------------------------------------ whole runs

  ghost function Start(now: int): (w: World)
    ensures Inv(w)
  {
    World(Tables(map[], map[], map[], 0, now), map[], [])
  }

  ghost predicate Follows(w: World, es: seq<Event>)
    decreases |es|
  {
    es == [] || (Enabled(w, es[0]) && Follows(Apply(w, es[0]), es[1..]))
  }

  ghost function After(w: World, es: seq<Event>): World
    requires Follows(w, es)
    decreases |es|
  {
    if es == [] then w else After(Apply(w, es[0]), es[1..])
  }

  lemma {:induction false} RunKeeps(w: World, es: seq<Event>)
    requires Inv(w) && Follows(w, es)
    ensures Inv(After(w, es))
    decreases |es|
  {
    hide Inv, Apply, Enabled;
    if es != [] {
      StepKeeps(w, es[0]);
      RunKeeps(Apply(w, es[0]), es[1..]);
    }
  }

  function Unconsumed(codes: map<string, CodeRow>, connectionId: string): set<string> {
    set c | c in codes && !codes[c].consumed && codes[c].connectionId == connectionId
  }

  function ActiveRefresh(tokens: map<TokenText, TokenRow>, connectionId: string): set<TokenText> {
    set h | h in tokens && tokens[h].kind == Refresh && tokens[h].active && tokens[h].connectionId == connectionId
  }

  function InFlight(tasks: map<nat, Task>, connectionId: string): set<nat> {
    set k | k in tasks && (tasks[k].Approving? || Exchanges(tasks[k])) && tasks[k].connectionId == connectionId
  }

  lemma AtMostOne<T>(s: set<T>)
    requires forall x, y :: x in s && y in s ==> x == y
    ensures |s| <= 1
  {
    if s != {} {
      var x :| x in s;
      assert s == {x};
    }
  }

  /** Conservation: per connection, unconsumed codes, requests that hold a consumed code or are about to issue
      one, and active refresh tokens are never more than one together. */
  lemma Conservation(now: int, es: seq<Event>, c: string)
    requires Follows(Start(now), es)
    ensures var w := After(Start(now), es);
      |Unconsumed(w.t.codes, c)| + |InFlight(w.tasks, c)| + |ActiveRefresh(w.t.tokens, c)| <= 1
  {
    RunKeeps(Start(now), es);
    var w := After(Start(now), es);
    hide Follows, After, Start, Owned, Matched, CodesSucceedOnce, RefreshesSucceedOnce, Chained;
    var codes, requests, live := Unconsumed(w.t.codes, c), InFlight(w.tasks, c), ActiveRefresh(w.t.tokens, c);
    forall x | x in codes ensures HasRight(w.tasks, w.t.codes, w.t.tokens, c, Code(x)) {
    }
    forall x | x in requests ensures HasRight(w.tasks, w.t.codes, w.t.tokens, c, Request(x)) {
    }
    forall x | x in live ensures HasRight(w.tasks, w.t.codes, w.t.tokens, c, Live(x)) {
    }
    hide HasRight, Unconsumed, InFlight, ActiveRefresh;
    forall x, y | x in codes && y in codes ensures x == y {
      assert Code(x) == Code(y);
    }
    forall x, y | x in requests && y in requests ensures x == y {
      assert Request(x) == Request(y);
    }
    forall x, y | x in live && y in live ensures x == y {
      assert Live(x) == Live(y);
    }
    AtMostOne(codes);
    AtMostOne(requests);
    AtMostOne(live);
    if x :| x in codes {
      assert forall y :: y in requests ==> Code(x) == Request(y);
      assert forall y :: y in live ==> Code(x) == Live(y);
    } else if x :| x in requests {
      assert forall y :: y in live ==> Request(x) == Live(y);
    }
  }

  /** A code, and a refresh token, is good for at most one success; a success by code was for the client,
      redirect address, resource and verifier of the code's own row. */
  lemma AtMostOneSuccess(now: int, es: seq<Event>, i: nat, j: nat)
    requires Follows(Start(now), es) && i < j < |After(Start(now), es).successes|
    ensures match (After(Start(now), es).successes[i], After(Start(now), es).successes[j])
      case (CodeSuccess(a), CodeSuccess(b)) => a.code != b.code
      case (RefreshSuccess(a), RefreshSuccess(b)) => a.token != b.token
      case _ => true
    ensures var w := After(Start(now), es);
      w.successes[i].CodeSuccess? ==>
        && w.successes[i].exchange.code in w.t.codes
        && var row := w.t.codes[w.successes[i].exchange.code];
        && row.clientId == w.successes[i].exchange.clientId && row.redirectUri == w.successes[i].exchange.redirectUri
        && row.resource == w.successes[i].exchange.resource && row.challenge == Digest(w.successes[i].exchange.verifier)
  {
    RunKeeps(Start(now), es);
    hide Follows, After, Start, Owned, Matched, Chained, OneRight;
  }

  /** How often a token was rotated from another. */
  ghost function Depth(tokens: map<TokenText, TokenRow>, rows: nat, h: TokenText): nat
    requires Chained(tokens, rows) && h in tokens
    decreases tokens[h].born
  {
    if tokens[h].rotatedFrom.None? then 0 else 1 + Depth(tokens, rows, tokens[h].rotatedFrom.value)
  }

  ghost predicate Descends(tokens: map<TokenText, TokenRow>, rows: nat, h: TokenText, ancestor: TokenText)
    requires Chained(tokens, rows) && h in tokens
    decreases tokens[h].born
  {
    h == ancestor || (tokens[h].rotatedFrom.Some? && Descends(tokens, rows, tokens[h].rotatedFrom.value, ancestor))
  }

  lemma {:induction false} SameDepth(tokens: map<TokenText, TokenRow>, rows: nat, g: TokenText, h: TokenText)
    requires Chained(tokens, rows) && g in tokens && h in tokens && tokens[g].kind == Refresh && tokens[h].kind == Refresh
    requires tokens[g].connectionId == tokens[h].connectionId && Depth(tokens, rows, g) == Depth(tokens, rows, h)
    ensures g == h
    decreases tokens[g].born
  {
    if tokens[g].rotatedFrom.Some? {
      SameDepth(tokens, rows, tokens[g].rotatedFrom.value, tokens[h].rotatedFrom.value);
    }
    assert Twins(tokens[g], tokens[h]);
  }

  lemma {:induction false} DeeperDescends(tokens: map<TokenText, TokenRow>, rows: nat, g: TokenText, h: TokenText)
    requires Chained(tokens, rows) && g in tokens && h in tokens && tokens[g].kind == Refresh && tokens[h].kind == Refresh
    requires tokens[g].connectionId == tokens[h].connectionId && Depth(tokens, rows, g) <= Depth(tokens, rows, h)
    ensures Descends(tokens, rows, h, g)
    decreases tokens[h].born
  {
    if Depth(tokens, rows, g) == Depth(tokens, rows, h) {
      SameDepth(tokens, rows, g, h);
    } else {
      DeeperDescends(tokens, rows, g, tokens[h].rotatedFrom.value);
    }
  }

  /** The refresh tokens of a connection form one line of rotations: of any two, one descends from the other,
      and whatever has a descendant is spent. */
  lemma OneLine(now: int, es: seq<Event>, g: TokenText, h: TokenText)
    requires Follows(Start(now), es)
    requires var tokens := After(Start(now), es).t.tokens;
      g in tokens && h in tokens && tokens[g].kind == Refresh && tokens[h].kind == Refresh && tokens[g].connectionId == tokens[h].connectionId
    ensures var t := After(Start(now), es).t;
      && Chained(t.tokens, t.rows)
      && (Descends(t.tokens, t.rows, g, h) || Descends(t.tokens, t.rows, h, g))
      && (t.tokens[h].rotatedFrom == Some(g) ==> Spent(t.tokens, g))
  {
    RunKeeps(Start(now), es);
    var t := After(Start(now), es).t;
    hide Follows, After, Start, OneRight, Owned, Matched, CodesSucceedOnce, RefreshesSucceedOnce;
    assert t.tokens[h].rotatedFrom == Some(g) ==> Spent(t.tokens, g);
    hide Chained;
    if Depth(t.tokens, t.rows, g) <= Depth(t.tokens, t.rows, h) {
      DeeperDescends(t.tokens, t.rows, g, h);
    } else {
      DeeperDescends(t.tokens, t.rows, h, g);
    }
  }

  // ------------------------------------------------------------ what is burned stays burned

  datatype Credential = ByCode(code: string) | ByToken(token: TokenText)

  /** Nobody holds the credential and it can be redeemed no more: a consumed code, whether the checks that came
      after its consumption passed or not, or a refresh token that was rotated or revoked. */
  ghost predicate Dead(w: World, x: Credential) {
    match x
    case ByCode(code) =>
      && code in w.t.codes && w.t.codes[code].consumed
      && forall k :: k in w.tasks && Exchanges(w.tasks[k]) ==> w.tasks[k].exchange.code != code
    case ByToken(token) =>
      && Spent(w.t.tokens, token)
      && forall k :: k in w.tasks && w.tasks[k].Rotated? ==> w.tasks[k].refresh.token != token
  }

  predicate Uses(success: Success, x: Credential) {
    match success
    case CodeSuccess(exchange) => x == ByCode(exchange.code)
    case RefreshSuccess(refresh) => x == ByToken(refresh.token)
  }

  /** A failed check burns the code all the same: it is consumed before anything is compared, unless a field is
      missing. */
  lemma FailedExchangeBurns(w: World, task: nat, exchange: ExchangeInput)
    requires Inv(w) && Enabled(w, Exchange(task, exchange))
    requires exchange.code in w.t.codes && !w.t.codes[exchange.code].consumed && w.t.codes[exchange.code].expiresAt > w.t.now
    ensures var w' := Apply(w, Exchange(task, exchange));
      && (w'.t.codes[exchange.code].consumed <==> Complete(exchange))
      && (Complete(exchange) && CodeFailure(w.t.codes[exchange.code], exchange).Some? <==> Dead(w', ByCode(exchange.code)))
  {
    hide Owned, CodesSucceedOnce, RefreshesSucceedOnce, Chained, OneRight, CodeFailure;
    var w' := Apply(w, Exchange(task, exchange));
    assert forall k :: k in w.tasks && Exchanges(w.tasks[k]) ==> w.tasks[k].exchange.code != exchange.code;
    if Complete(exchange) && CodeFailure(w.t.codes[exchange.code], exchange).None? {
      assert w'.tasks[task].exchange.code == exchange.code;
    }
  }

  lemma StepDead(w: World, e: Event, x: Credential)
    requires Inv(w) && Enabled(w, e) && Dead(w, x)
    ensures Dead(Apply(w, e), x) && w.successes <= Apply(w, e).successes
    ensures forall i :: |w.successes| <= i < |Apply(w, e).successes| ==> !Uses(Apply(w, e).successes[i], x)
  {
    hide Inv, CodeFailure, TokenFailure, ConnectionFailure;
    if x.ByToken? {
      StepTokensLast(w, e);
    }
  }

  /** No later request succeeds with a credential that is burned. */
  lemma {:induction false} DeadForever(w: World, es: seq<Event>, x: Credential)
    requires Inv(w) && Follows(w, es) && Dead(w, x)
    ensures w.successes <= After(w, es).successes
    ensures forall i :: |w.successes| <= i < |After(w, es).successes| ==> !Uses(After(w, es).successes[i], x)
    decreases |es|
  {
    hide Inv, Dead, Apply, Enabled, Uses;
    if es != [] {
      StepKeeps(w, es[0]);
      StepDead(w, es[0], x);
      DeadForever(Apply(w, es[0]), es[1..], x);
    }
  }
}
