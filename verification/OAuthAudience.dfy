/**
 Tokens are bound to a resource: whatever is minted or rotated for a connection carries the tag of the
 resource that the connection's one code was issued for.
 */
module OAuthAudience {
  import opened Wrappers
  import opened OAuthTables
  import opened OAuthRuns

  /** A bearer token is accepted for a resource: an active access token of an active connection with its tag. */
  predicate Authenticates(t: Tables, token: TokenText, resource: string) {
    && MatchesResource(token, resource)
    && token in t.tokens && t.tokens[token].kind == Access && t.tokens[token].active && t.tokens[token].expiresAt > t.now
    && t.tokens[token].connectionId in t.connections && t.connections[t.tokens[token].connectionId].active
  }

  predicate CodeOf(codes: map<string, CodeRow>, code: string, connectionId: string) {
    code in codes && codes[code].connectionId == connectionId
  }

  /** A connection has one code at most, and none before its approval has issued it. */
  ghost predicate OneCode(tasks: map<nat, Task>, codes: map<string, CodeRow>, connections: map<string, ConnectionRow>) {
    && (forall c :: c in codes ==> codes[c].connectionId in connections)
    && (forall c, d :: c in codes && d in codes && codes[c].connectionId == codes[d].connectionId ==> c == d)
    && (forall k, c :: k in tasks && tasks[k].Approving? && c in codes ==> codes[c].connectionId != tasks[k].connectionId)
  }

  /** A token of the connection carries the tag of the resource of the connection's code. */
  ghost predicate Tagged(codes: map<string, CodeRow>, token: TokenText, connectionId: string) {
    exists c :: CodeOf(codes, c, connectionId) && MatchesResource(token, codes[c].resource)
  }

  ghost predicate AllTagged(codes: map<string, CodeRow>, tokens: map<TokenText, TokenRow>) {
    forall h :: h in tokens ==> Tagged(codes, h, tokens[h].connectionId)
  }

  /** Refreshes under way, and those that succeeded, are for the resource of the token they rotate. */
  ghost predicate RefreshesMatch(tasks: map<nat, Task>, tokens: map<TokenText, TokenRow>, successes: seq<Success>) {
    && (forall k :: k in tasks && (tasks[k].Rotating? || tasks[k].Rotated?) ==>
          MatchesResource(tasks[k].refresh.token, tasks[k].refresh.resource))
    && (forall k :: k in tasks && tasks[k].Rotated? ==>
          tasks[k].refresh.token in tokens && tokens[tasks[k].refresh.token].connectionId == tasks[k].connectionId)
    && (forall i :: 0 <= i < |successes| && successes[i].RefreshSuccess? ==>
          MatchesResource(successes[i].refresh.token, successes[i].refresh.resource))
  }

  ghost predicate Audience(w: World) {
    && OneCode(w.tasks, w.t.codes, w.t.connections)
    && AllTagged(w.t.codes, w.t.tokens)
    && RefreshesMatch(w.tasks, w.t.tokens, w.successes)
  }

  /** Approvals begin with a connection of their own, and end when they issue their code. */
  lemma StepApprovals(w: World, e: Event)
    requires Enabled(w, e)
    ensures var w' := Apply(w, e);
      && (forall k :: k in w'.tasks && w'.tasks[k].Approving? ==>
            if e.Approve? && k == e.task then w'.tasks[k].connectionId == e.connectionId && e.connectionId !in w.t.connections
            else k in w.tasks && w.tasks[k] == w'.tasks[k] && !(e.IssueCode? && k == e.task))
      && w.t.connections.Keys <= w'.t.connections.Keys
  {
    hide CodeFailure, TokenFailure, ConnectionFailure;
  }

  lemma StepOneCode(w: World, e: Event)
    requires Inv(w) && Enabled(w, e) && OneCode(w.tasks, w.t.codes, w.t.connections)
    ensures var w' := Apply(w, e); OneCode(w'.tasks, w'.t.codes, w'.t.connections)
  {
    hide Inv;
    StepApprovals(w, e);
    StepCodesLast(w, e);
    if e.IssueCode? {
      ApprovesOwned(w, e.task);
      OnlyApproval(w, e.task);
    }
    assert e.IssueCode? ==> w.tasks[e.task].Approving? && e.row.connectionId == w.tasks[e.task].connectionId;
    hide Apply, Enabled;
  }

  lemma ApprovesOwned(w: World, task: nat)
    requires Inv(w) && task in w.tasks && w.tasks[task].Approving?
    ensures w.tasks[task].connectionId in w.t.connections
  {
    hide OneRight, Matched, CodesSucceedOnce, RefreshesSucceedOnce, Chained;
    assert HasRight(w.tasks, w.t.codes, w.t.tokens, w.tasks[task].connectionId, Request(task));
  }

  lemma OnlyApproval(w: World, task: nat)
    requires Inv(w) && task in w.tasks && w.tasks[task].Approving?
    ensures forall k :: k in w.tasks && w.tasks[k].Approving? && w.tasks[k].connectionId == w.tasks[task].connectionId ==> k == task
  {
    hide Owned, Matched, CodesSucceedOnce, RefreshesSucceedOnce, Chained;
    var c := w.tasks[task].connectionId;
    forall k | k in w.tasks && w.tasks[k].Approving? && w.tasks[k].connectionId == c ensures k == task {
      assert HasRight(w.tasks, w.t.codes, w.t.tokens, c, Request(k)) && HasRight(w.tasks, w.t.codes, w.t.tokens, c, Request(task));
      assert Request(k) == Request(task);
    }
  }

  /** No step changes the resource or the connection of a code. */
  lemma StepCodesLast(w: World, e: Event)
    requires Enabled(w, e)
    ensures var codes, codes' := w.t.codes, Apply(w, e).t.codes;
      && (forall c :: c in codes ==> c in codes' && codes'[c].resource == codes[c].resource && codes'[c].connectionId == codes[c].connectionId)
      && (forall c :: c in codes' && c !in codes ==> e.IssueCode? && codes'[c] == e.row)
      && (e.IssueCode? ==> e.code !in codes && codes'.Keys == codes.Keys + {e.code})
  {
    hide CodeFailure, TokenFailure, ConnectionFailure;
  }

  lemma TaggedLast(codes: map<string, CodeRow>, codes': map<string, CodeRow>, token: TokenText, connectionId: string)
    requires Tagged(codes, token, connectionId)
    requires forall c :: c in codes ==> c in codes' && codes'[c].resource == codes[c].resource && codes'[c].connectionId == codes[c].connectionId
    ensures Tagged(codes', token, connectionId)
  {
    var c :| CodeOf(codes, c, connectionId) && MatchesResource(token, codes[c].resource);
    assert CodeOf(codes', c, connectionId);
  }

  /** A token that is rotated or minted has the tag that its connection's code asks for. */
  lemma MintedTagged(w: World, task: nat, token: TokenText)
    requires Matched(w.tasks, w.t.codes) && task in w.tasks && Exchanges(w.tasks[task])
    requires Mintable(w, token, w.tasks[task].exchange.resource)
    ensures Tagged(w.t.codes, token, w.tasks[task].connectionId)
  {
    assert CodeOf(w.t.codes, w.tasks[task].exchange.code, w.tasks[task].connectionId);
  }

  lemma SuccessorTagged(codes: map<string, CodeRow>, previous: TokenText, token: TokenText, resource: string, connectionId: string)
    requires Tagged(codes, previous, connectionId) && MatchesResource(previous, resource) && MatchesResource(token, resource)
    ensures Tagged(codes, token, connectionId)
  {
    var c :| CodeOf(codes, c, connectionId) && MatchesResource(previous, codes[c].resource);
    assert CodeOf(codes, c, connectionId) && MatchesResource(token, codes[c].resource);
  }

  /** The rows that a step adds, and for which connection. */
  lemma StepAdds(w: World, e: Event, h: TokenText)
    requires Enabled(w, e) && h in Apply(w, e).t.tokens && h !in w.t.tokens
    ensures var c := Apply(w, e).t.tokens[h].connectionId;
      match e
      case MintAccess(task, token) => h == token && c == w.tasks[task].connectionId
      case MintRefresh(task, token, _) => h == token && c == w.tasks[task].connectionId
      case Rotate(task, token) =>
        h == token && w.tasks[task].refresh.token in w.t.tokens && c == w.t.tokens[w.tasks[task].refresh.token].connectionId
      case MintAfterRotation(task, token, _) => h == token && c == w.tasks[task].connectionId
      case _ => false
  {
    hide CodeFailure, TokenFailure, ConnectionFailure, Mintable;
  }

  lemma AddedTagged(w: World, e: Event, h: TokenText)
    requires Inv(w) && Enabled(w, e) && Audience(w) && h in Apply(w, e).t.tokens && h !in w.t.tokens
    ensures Tagged(w.t.codes, h, Apply(w, e).t.tokens[h].connectionId)
  {
    StepAdds(w, e, h);
    hide Apply, OneRight, Owned, CodesSucceedOnce, RefreshesSucceedOnce, Chained, Tagged, OneCode;
    if e.MintAccess? || e.MintRefresh? {
      hide AllTagged, RefreshesMatch;
      MintedTagged(w, e.task, e.token);
    } else {
      hide Matched;
      var refresh := w.tasks[e.task].refresh;
      SuccessorTagged(w.t.codes, refresh.token, h, refresh.resource, w.t.tokens[refresh.token].connectionId);
    }
  }

  lemma StepTagged(w: World, e: Event)
    requires Inv(w) && Enabled(w, e) && Audience(w)
    ensures AllTagged(Apply(w, e).t.codes, Apply(w, e).t.tokens)
  {
    hide Inv, Apply, Enabled, OneCode, RefreshesMatch, Tagged;
    StepCodesLast(w, e);
    StepTokensLast(w, e);
    var w' := Apply(w, e);
    forall h | h in w'.t.tokens ensures Tagged(w'.t.codes, h, w'.t.tokens[h].connectionId) {
      if h !in w.t.tokens {
        AddedTagged(w, e, h);
      }
      TaggedLast(w.t.codes, w'.t.codes, h, w'.t.tokens[h].connectionId);
    }
  }

  lemma StepRefreshesMatch(w: World, e: Event)
    requires Enabled(w, e) && RefreshesMatch(w.tasks, w.t.tokens, w.successes)
    ensures var w' := Apply(w, e); RefreshesMatch(w'.tasks, w'.t.tokens, w'.successes)
  {
    hide CodeFailure, ConnectionFailure, MatchesResource;
  }

  lemma StepAudience(w: World, e: Event)
    requires Inv(w) && Enabled(w, e) && Audience(w)
    ensures Audience(Apply(w, e))
  {
    StepOneCode(w, e);
    StepTagged(w, e);
    StepRefreshesMatch(w, e);
    hide Inv, Apply, Enabled, OneCode, AllTagged, RefreshesMatch;
  }

  lemma {:induction false} RunAudience(w: World, es: seq<Event>)
    requires Inv(w) && Follows(w, es) && Audience(w)
    ensures Audience(After(w, es))
    decreases |es|
  {
    hide Inv, Apply, Enabled, Audience;
    if es != [] {
      StepKeeps(w, es[0]);
      StepAudience(w, es[0]);
      RunAudience(Apply(w, es[0]), es[1..]);
    }
  }

  /** The resource of a connection is that of its one code, and no token of the connection, however often it
      was rotated, is ever good for another: neither as a bearer nor to refresh. */
  lemma TokensKeepTheirResource(now: int, es: seq<Event>, h: TokenText, c: string)
    requires Follows(Start(now), es)
    requires var t := After(Start(now), es).t;
      h in t.tokens && c in t.codes && t.codes[c].connectionId == t.tokens[h].connectionId
    ensures var w := After(Start(now), es);
      && (forall d :: d in w.t.codes && w.t.codes[d].connectionId == w.t.codes[c].connectionId ==> d == c)
      && (forall resource :: MatchesResource(h, resource) <==> resource == w.t.codes[c].resource)
      && (forall resource :: Authenticates(w.t, h, resource) ==> resource == w.t.codes[c].resource)
      && (forall i :: 0 <= i < |w.successes| && w.successes[i].RefreshSuccess? && w.successes[i].refresh.token == h ==>
            w.successes[i].refresh.resource == w.t.codes[c].resource)
  {
    hide Inv, Follows, After;
    RunAudience(Start(now), es);
    hide Start;
  }

  /** Every token has such a code: no token exists for a resource that was not approved. */
  lemma TokensComeFromCodes(now: int, es: seq<Event>, h: TokenText)
    requires Follows(Start(now), es) && h in After(Start(now), es).t.tokens
    ensures var t := After(Start(now), es).t;
      exists c :: c in t.codes && t.codes[c].connectionId == t.tokens[h].connectionId && MatchesResource(h, t.codes[c].resource)
  {
    hide Inv, Follows, After;
    RunAudience(Start(now), es);
    hide Start;
  }
}
