/**
 The rows behind the OAuth flow and what each statement does to them. A statement is atomic. Codes and
 tokens stand for their hashes, a PKCE digest for the verifier and a resource tag for the resource it was
 made from.
 */
module OAuthTables {
  import opened Wrappers

  const ACCESS_TOKEN_MS: int := 3_600_000
  const REFRESH_TOKEN_MS: int := 2_592_000_000
  const CODE_MS: int := 60_000

  datatype Challenge = Digest(verifier: string) | NoDigest(text: string)
  datatype CodeRow = CodeRow(
    connectionId: string, clientId: string, redirectUri: string, challenge: Challenge, resource: string,
    expiresAt: int, consumed: bool)
  /** The text of a token: what was drawn at random and the tag of its resource, or a text of no such shape. */
  datatype TokenText = Bound(random: string, tag: string) | Malformed(text: string)
  datatype Kind = Access | Refresh
  /** `born` is the position of the row in the order of insertion. */
  datatype TokenRow = TokenRow(connectionId: string, kind: Kind, active: bool, expiresAt: int, rotatedFrom: Option<TokenText>, born: nat)
  datatype ConnectionRow = ConnectionRow(clientId: string, active: bool)
  datatype Tables = Tables(
    connections: map<string, ConnectionRow>, codes: map<string, CodeRow>, tokens: map<TokenText, TokenRow>, rows: nat, now: int)

  datatype ExchangeInput = ExchangeInput(code: string, verifier: string, clientId: string, redirectUri: string, resource: string)
  datatype RefreshInput = RefreshInput(token: TokenText, clientId: string, resource: string)
  datatype Failure = InvalidRequest | InvalidGrant | InvalidClient | Unavailable

  function CreateConnection(t: Tables, connectionId: string, clientId: string): Tables {
    t.(connections := t.connections[connectionId := ConnectionRow(clientId, true)])
  }

  function CreateCode(t: Tables, code: string, row: CodeRow): Tables {
    t.(codes := t.codes[code := row])
  }

  /** Consume a code that is unconsumed and not expired, and return its row. */
  function ConsumeCode(t: Tables, code: string): (Tables, Option<CodeRow>) {
    if code !in t.codes || t.codes[code].consumed || t.codes[code].expiresAt <= t.now then (t, None)
    else (t.(codes := t.codes[code := t.codes[code].(consumed := true)]), Some(t.codes[code]))
  }

  /** No field of the request is missing. */
  predicate Complete(input: ExchangeInput) {
    input.code != "" && input.verifier != "" && input.clientId != "" && input.redirectUri != "" && input.resource != ""
  }

  /** The checks of an exchange against the row of the consumed code. */
  function CodeFailure(row: CodeRow, input: ExchangeInput): Option<Failure> {
    if row.clientId != input.clientId then Some(InvalidClient)
    else if row.redirectUri != input.redirectUri || row.resource != input.resource || Digest(input.verifier) != row.challenge
    then Some(InvalidGrant)
    else None
  }

  function ConnectionFailure(t: Tables, connectionId: string, clientId: string): Option<Failure> {
    if connectionId !in t.connections || !t.connections[connectionId].active then Some(InvalidGrant)
    else if t.connections[connectionId].clientId != clientId then Some(InvalidClient)
    else None
  }

  function CreateToken(t: Tables, token: TokenText, connectionId: string, kind: Kind, lifetimeMs: int, rotatedFrom: Option<TokenText>): Tables {
    t.(tokens := t.tokens[token := TokenRow(connectionId, kind, true, t.now + lifetimeMs, rotatedFrom, t.rows)], rows := t.rows + 1)
  }

  predicate Usable(t: Tables, token: TokenText) {
    token in t.tokens && t.tokens[token].kind == Refresh && t.tokens[token].active && t.tokens[token].expiresAt > t.now
  }

  /** The token carries the tag of the resource. */
  predicate MatchesResource(token: TokenText, resource: string) {
    token.Bound? && resource != "" && token.tag == resource
  }

  /** The checks of a refresh: a whole request with a token of its resource, which the lookup finds active,
      of an active connection. */
  function TokenFailure(t: Tables, input: RefreshInput): Option<Failure> {
    if input.token.Malformed? || input.clientId == "" || input.resource == "" then Some(InvalidRequest)
    else if !MatchesResource(input.token, input.resource) then Some(InvalidGrant)
    else if !Usable(t, input.token) || t.tokens[input.token].connectionId !in t.connections
       || !t.connections[t.tokens[input.token].connectionId].active then Some(InvalidGrant)
    else if t.connections[t.tokens[input.token].connectionId].clientId != input.clientId then Some(InvalidClient)
    else None
  }

  /** Revoke a usable refresh token and insert its successor in one statement; nothing if it is not usable. */
  function RotateRefreshToken(t: Tables, previous: TokenText, token: TokenText): (Tables, bool) {
    if !Usable(t, previous) then (t, false)
    else
      var revoked := t.(tokens := t.tokens[previous := t.tokens[previous].(active := false)]);
      (CreateToken(revoked, token, t.tokens[previous].connectionId, Refresh, REFRESH_TOKEN_MS, Some(previous)), true)
  }

  function RevokeTokens(t: Tables, connectionIds: set<string>): Tables {
    t.(tokens := map h | h in t.tokens ::
         if t.tokens[h].connectionId in connectionIds then t.tokens[h].(active := false) else t.tokens[h])
  }

  function RevokeConnections(t: Tables, connectionIds: set<string>): Tables {
    t.(connections := map c | c in t.connections ::
         if c in connectionIds then t.connections[c].(active := false) else t.connections[c])
  }
}
