/** The flow service as it runs alone: its statements in sequence, any of which may fail. */
module OAuthFlow {
  import opened Wrappers
  import opened OAuthTables

  datatype Outcome = Granted(accessToken: TokenText, refreshToken: TokenText) | Refused(failure: Failure)

  /** The code can be consumed now. */
  predicate Redeemable(t: Tables, code: string) {
    code in t.codes && !t.codes[code].consumed && t.codes[code].expiresAt > t.now
  }

  /** The redeemed code was issued for this redirect address, resource and verifier. */
  predicate FitsCode(row: CodeRow, input: ExchangeInput) {
    row.redirectUri == input.redirectUri && row.resource == input.resource && row.challenge == Digest(input.verifier)
  }

  predicate ActiveConnection(t: Tables, connectionId: string) {
    connectionId in t.connections && t.connections[connectionId].active
  }

  /** Every check of an exchange passes. */
  predicate Exchangeable(t: Tables, input: ExchangeInput) {
    && Complete(input) && Redeemable(t, input.code)
    && var row := t.codes[input.code];
    && row.clientId == input.clientId && FitsCode(row, input)
    && ActiveConnection(t, row.connectionId) && t.connections[row.connectionId].clientId == input.clientId
  }

  /** A whole request with an active refresh token of its resource, of an active connection; whose, is left open. */
  predicate Refreshable(t: Tables, input: RefreshInput) {
    && input.token.Bound? && input.clientId != "" && input.resource != "" && input.token.tag == input.resource
    && input.token in t.tokens
    && var row := t.tokens[input.token];
    && row.kind == Refresh && row.active && row.expiresAt > t.now && ActiveConnection(t, row.connectionId)
  }

  class OAuthFlowService {
    var tables: Tables

    constructor (tables: Tables)
      ensures this.tables == tables
    {
      this.tables := tables;
    }

    method CreateToken(token: TokenText, connectionId: string, kind: Kind, lifetimeMs: int, fails: bool) returns (created: bool)
      modifies this
      ensures created == !fails
      ensures tables == if fails then old(tables) else OAuthTables.CreateToken(old(tables), token, connectionId, kind, lifetimeMs, None)
    {
      if !fails {
        tables := OAuthTables.CreateToken(tables, token, connectionId, kind, lifetimeMs, None);
      }
      return !fails;
    }

    /** An access and a refresh token of the resource, or, when the second write fails, an access token nobody is
        told of. */
    method MintTokenPair(connectionId: string, resource: string, access: string, refresh: string, accessFails: bool, refreshFails: bool)
      returns (r: Outcome)
      requires access != refresh && Bound(access, resource) !in tables.tokens && Bound(refresh, resource) !in tables.tokens
      modifies this
      ensures r == if accessFails || refreshFails then Refused(Unavailable) else Granted(Bound(access, resource), Bound(refresh, resource))
      ensures tables.codes == old(tables).codes && tables.connections == old(tables).connections && tables.now == old(tables).now
      ensures tables.tokens.Keys == old(tables).tokens.Keys + (if accessFails then {} else {Bound(access, resource)})
        + (if accessFails || refreshFails then {} else {Bound(refresh, resource)})
      ensures forall h :: h in old(tables).tokens ==> tables.tokens[h] == old(tables).tokens[h]
      ensures r.Granted? ==>
        && tables.tokens[r.accessToken] == TokenRow(connectionId, Access, true, tables.now + 3_600_000, None, old(tables).rows)
        && tables.tokens[r.refreshToken] == TokenRow(connectionId, Refresh, true, tables.now + 2_592_000_000, None, old(tables).rows + 1)
    {
      var created := CreateToken(Bound(access, resource), connectionId, Access, ACCESS_TOKEN_MS, accessFails);
      if !created {
        return Refused(Unavailable);
      }
      created := CreateToken(Bound(refresh, resource), connectionId, Refresh, REFRESH_TOKEN_MS, refreshFails);
      if !created {
        return Refused(Unavailable);
      }
      return Granted(Bound(access, resource), Bound(refresh, resource));
    }

    /** The code of a whole request is burned by the first statement, whatever the checks that follow say. */
    method ExchangeCode(input: ExchangeInput, access: string, refresh: string, consumeFails: bool, accessFails: bool, refreshFails: bool)
      returns (r: Outcome)
      requires access != refresh && Bound(access, input.resource) !in tables.tokens && Bound(refresh, input.resource) !in tables.tokens
      modifies this
      ensures r.Granted? <==> Exchangeable(old(tables), input) && !consumeFails && !accessFails && !refreshFails
      ensures r.Granted? ==> r == Granted(Bound(access, input.resource), Bound(refresh, input.resource))
      ensures r == Refused(InvalidRequest) <==> !Complete(input)
      ensures r == Refused(InvalidClient) <==>
        && Complete(input) && !consumeFails && Redeemable(old(tables), input.code)
        && var row := old(tables).codes[input.code];
           || row.clientId != input.clientId
           || (FitsCode(row, input) && ActiveConnection(old(tables), row.connectionId)
               && old(tables).connections[row.connectionId].clientId != input.clientId)
      ensures r == Refused(InvalidGrant) <==>
        && Complete(input) && !consumeFails
        && (!Redeemable(old(tables), input.code)
            || var row := old(tables).codes[input.code];
               row.clientId == input.clientId && (!FitsCode(row, input) || !ActiveConnection(old(tables), row.connectionId)))
      ensures tables.codes ==
        if !Complete(input) || consumeFails || !Redeemable(old(tables), input.code) then old(tables).codes
        else old(tables).codes[input.code := old(tables).codes[input.code].(consumed := true)]
      ensures tables.connections == old(tables).connections
      ensures forall h :: h in old(tables).tokens ==> h in tables.tokens && tables.tokens[h] == old(tables).tokens[h]
      ensures !Exchangeable(old(tables), input) || consumeFails ==> tables.tokens == old(tables).tokens
      ensures Exchangeable(old(tables), input) && !consumeFails ==>
        var (t, a, b) := (old(tables), Bound(access, input.resource), Bound(refresh, input.resource));
        var c := t.codes[input.code].connectionId;
        && tables.tokens.Keys == t.tokens.Keys + (if accessFails then {} else {a}) + (if accessFails || refreshFails then {} else {b})
        && (!accessFails && !refreshFails ==>
              && tables.tokens[a] == TokenRow(c, Access, true, t.now + 3_600_000, None, t.rows)
              && tables.tokens[b] == TokenRow(c, Refresh, true, t.now + 2_592_000_000, None, t.rows + 1))
    {
      if input.code == "" || input.verifier == "" || input.clientId == "" || input.redirectUri == "" || input.resource == "" {
        return Refused(InvalidRequest);
      }
      if consumeFails {
        return Refused(Unavailable);
      }
      var (consumed, code) := ConsumeCode(tables, input.code);
      tables := consumed;
      if code.None? {
        return Refused(InvalidGrant);
      }
      var mismatch := CodeFailure(code.value, input);
      if mismatch.Some? {
        return Refused(mismatch.value);
      }
      var inactive := ConnectionFailure(tables, code.value.connectionId, input.clientId);
      if inactive.Some? {
        return Refused(inactive.value);
      }
      r := MintTokenPair(code.value.connectionId, input.resource, access, refresh, accessFails, refreshFails);
    }

    /** The old token is spent with the insertion of its successor, in one statement. */
    method RefreshTokens(input: RefreshInput, access: string, refresh: string, rotateFails: bool, accessFails: bool) returns (r: Outcome)
      requires access != refresh && Bound(access, input.resource) !in tables.tokens && Bound(refresh, input.resource) !in tables.tokens
      modifies this
      ensures r.Granted? <==>
        && Refreshable(old(tables), input) && !rotateFails && !accessFails
        && old(tables).connections[old(tables).tokens[input.token].connectionId].clientId == input.clientId
      ensures r == Refused(InvalidClient) <==>
        && Refreshable(old(tables), input)
        && old(tables).connections[old(tables).tokens[input.token].connectionId].clientId != input.clientId
      ensures r.Granted? ==> r == Granted(Bound(access, input.resource), Bound(refresh, input.resource)) && MatchesResource(input.token, input.resource)
      ensures r == Refused(InvalidRequest) <==> input.token.Malformed? || input.clientId == "" || input.resource == ""
      ensures r == Refused(InvalidGrant) <==>
        && input.token.Bound? && input.clientId != "" && input.resource != "" && !Refreshable(old(tables), input)
      ensures r in {Refused(InvalidRequest), Refused(InvalidGrant), Refused(InvalidClient)} || rotateFails ==> tables == old(tables)
      ensures (r.Granted? || r == Refused(Unavailable)) && !rotateFails ==>
        var (t, a, b) := (old(tables), Bound(access, input.resource), Bound(refresh, input.resource));
        && input.token in t.tokens && tables.connections == t.connections && tables.codes == t.codes
        && tables.tokens.Keys == t.tokens.Keys + {b} + (if accessFails then {} else {a})
        && tables.tokens[input.token] == t.tokens[input.token].(active := false)
        && tables.tokens[b] == TokenRow(t.tokens[input.token].connectionId, Refresh, true, t.now + 2_592_000_000, Some(input.token), t.rows)
        && (!accessFails ==>
              tables.tokens[a] == TokenRow(t.tokens[input.token].connectionId, Access, true, t.now + 3_600_000, None, t.rows + 1))
        && forall h :: h in t.tokens && h != input.token ==> tables.tokens[h] == t.tokens[h]
    {
      if input.token.Malformed? || input.clientId == "" || input.resource == "" {
        return Refused(InvalidRequest);
      }
      if !MatchesResource(input.token, input.resource) {
        return Refused(InvalidGrant);
      }
      var failure := TokenFailure(tables, input);
      if failure.Some? {
        return Refused(failure.value);
      }
      if rotateFails {
        return Refused(Unavailable);
      }
      var connectionId := tables.tokens[input.token].connectionId;
      var (rotated, done) := RotateRefreshToken(tables, input.token, Bound(refresh, input.resource));
      tables := rotated;
      if !done {
        return Refused(InvalidGrant);
      }
      var created := CreateToken(Bound(access, input.resource), connectionId, Access, ACCESS_TOKEN_MS, accessFails);
      if !created {
        return Refused(Unavailable);
      }
      return Granted(Bound(access, input.resource), Bound(refresh, input.resource));
    }
  }
}
