/**
 The coordinator class: its maps, timers, stored presence and sockets, changed step by step as its
 handlers do, each handler proved to do what its specification function says.
 */
module ExecutorCoordinators {
  import opened Wrappers
  import opened JsMaps
  import opened CoordinatorRoutes
  import opened CoordinatorRuns
  import opened SessionFrames

  lemma RemainingTimers(timers: map<nat, int>, done: map<nat, Settlement>, id: nat, settlement: Settlement)
    ensures timers - done.Keys - map[id := settlement].Keys == timers - done[id := settlement].Keys
  {
    assert done[id := settlement].Keys == done.Keys + {id} && map[id := settlement].Keys == {id};
  }

  lemma RemainingRoutes(s: Coordinator, done: map<nat, Settlement>, id: nat, settlement: Settlement)
    ensures Answer(Answer(s, done), map[id := settlement]).routes == Answer(s, done[id := settlement]).routes
  {
  }

  lemma RemainingSettled(s: Coordinator, done: map<nat, Settlement>, id: nat, settlement: Settlement)
    requires id !in done
    ensures Answer(Answer(s, done), map[id := settlement]).settled == Answer(s, done[id := settlement]).settled
  {
  }

  /** Answering one more route is answering it with the others. */
  lemma AnswerMore(s: Coordinator, done: map<nat, Settlement>, id: nat, settlement: Settlement)
    requires id !in done
    ensures Answer(Answer(s, done), map[id := settlement]) == Answer(s, done[id := settlement])
  {
    RemainingTimers(s.acceptTimers, done, id, settlement);
    RemainingTimers(s.resultTimers, done, id, settlement);
    RemainingRoutes(s, done, id, settlement);
    RemainingSettled(s, done, id, settlement);
    AnswerTimersOf(s, done);
    AnswerTimersOf(s, done[id := settlement]);
    AnswerTimersOf(Answer(s, done), map[id := settlement]);
    hide Answer;
  }

  lemma AnswerTimersOf(s: Coordinator, answers: map<nat, Settlement>)
    ensures var s' := Answer(s, answers);
      s' == s.(routes := s'.routes, settled := s'.settled,
               acceptTimers := s.acceptTimers - answers.Keys, resultTimers := s.resultTimers - answers.Keys)
  {
  }

  lemma AnswerNone(s: Coordinator)
    ensures Answer(s, map[]) == s
  {
    assert s.acceptTimers - {} == s.acceptTimers && s.resultTimers - {} == s.resultTimers;
  }

  ghost predicate Leads(routes: map<string, nat>, objects: map<nat, InflightRoute>) {
    forall op :: op in routes ==> routes[op] in objects && objects[routes[op]].operationId == op
  }

  /** Only the route's own operation id leads to it. */
  lemma AnswerOne(s: Coordinator, operationId: string, settlement: Settlement)
    requires Leads(s.routes, s.objects) && operationId in s.routes && s.routes[operationId] in s.settled
    ensures var id := s.routes[operationId];
      Answer(s, map[id := settlement]) == s.(
        routes := s.routes - {operationId}, acceptTimers := s.acceptTimers - {id}, resultTimers := s.resultTimers - {id},
        settled := s.settled[id := s.settled[id] + [settlement]])
  {
    assert map[s.routes[operationId] := settlement].Keys == {s.routes[operationId]};
  }

  /** The answers to a channel's routes whose operation ids are not to be visited any more. */
  function Swept(s: Coordinator, fence: string, todo: set<string>): map<nat, Settlement> {
    map id | id in Losses(s, fence) && s.objects[id].operationId !in todo :: Losses(s, fence)[id]
  }

  lemma SweepStarts(s: Coordinator, fence: string)
    ensures Answer(s, Swept(s, fence, s.routes.Keys)) == s && Swept(s, fence, {}) == Losses(s, fence)
  {
    AnswerNone(s);
    LossesFit(s, fence);
    assert Swept(s, fence, s.routes.Keys) == map[];
  }

  lemma SweepFinds(s: Coordinator, fence: string, todo: set<string>, operationId: string)
    requires Indexed(s.routes, s.objects, s.nextRoute) && operationId in todo && operationId in s.routes
    ensures var id := s.routes[operationId];
      && id in s.objects && id !in Swept(s, fence, todo)
      && operationId in Answer(s, Swept(s, fence, todo)).routes && Answer(s, Swept(s, fence, todo)).routes[operationId] == id
      && (id in Losses(s, fence) <==> s.objects[id].fence == fence)
      && (s.objects[id].fence == fence ==>
            Losses(s, fence)[id] == Rejected(if s.objects[id].accepted then ResultRouteLost else ExecutorOffline, s.now))
  {
  }

  lemma SweepOne(s: Coordinator, fence: string, todo: set<string>, operationId: string)
    requires Indexed(s.routes, s.objects, s.nextRoute) && operationId in todo && operationId in s.routes
    ensures var id, swept := s.routes[operationId], Swept(s, fence, todo);
      Swept(s, fence, todo - {operationId}) == if id in Losses(s, fence) then swept[id := Losses(s, fence)[id]] else swept
  {
    forall id | id in Losses(s, fence) && s.objects[id].operationId == operationId ensures id == s.routes[operationId] {
      LossesFit(s, fence);
    }
    hide Losses;
  }

  /** Visiting one more operation id loses its route if it is the channel's. */
  lemma SweepStep(s: Coordinator, fence: string, todo: set<string>, operationId: string)
    requires Inv(s) && operationId in todo && operationId in s.routes
    ensures var now, next := Answer(s, Swept(s, fence, todo)), Answer(s, Swept(s, fence, todo - {operationId}));
      && Indexed(now.routes, now.objects, now.nextRoute) && operationId in now.routes
      && var id := now.routes[operationId];
      && id in now.objects && id in now.settled
      && next == if now.objects[id].fence != fence then now
                 else Answer(now, map[id := Rejected(if now.objects[id].accepted then ResultRouteLost else ExecutorOffline, now.now)])
  {
    InvIndexed(s);
    hide Inv, Swept, Answer, Losses, Indexed, Answered;
    SweptKeeps(s, fence, todo);
    SweepOne(s, fence, todo, operationId);
    SweepFinds(s, fence, todo, operationId);
    AnswerLeaves(s, Swept(s, fence, todo));
    var id := s.routes[operationId];
    if s.objects[id].fence == fence {
      AnswerMore(s, Swept(s, fence, todo), id, Losses(s, fence)[id]);
    }
  }

  lemma SweptKeeps(s: Coordinator, fence: string, todo: set<string>)
    requires Inv(s)
    ensures Indexed(Answer(s, Swept(s, fence, todo)).routes, s.objects, s.nextRoute)
    ensures forall id :: id in s.objects ==> id in Answer(s, Swept(s, fence, todo)).settled
  {
    LossesFit(s, fence);
    AnswerEnds(s, Swept(s, fence, todo));
    AnswerSettled(s, Swept(s, fence, todo));
    hide Live, Losses, Answer, Truthful, AwaitsAccept, AwaitsResult, Channelled, Dated;
  }

  class ExecutorCoordinator {
    var routes: map<string, nat>
    var objects: map<nat, InflightRoute>
    var acceptTimers: map<nat, int>
    var resultTimers: map<nat, int>
    var presence: Option<PresenceRecord>
    var sockets: seq<string>
    var nextRoute: nat
    var clock: int
    var sessionFrames: map<string, JsMap<Pending>>
    var ephemeral: map<string, string>
    ghost var settled: map<nat, seq<Settlement>>
    ghost var registeredAt: map<nat, int>

    constructor ()
      ensures State() == EMPTY_COORDINATOR && Held() == Sessions(map[], map[]) && Inv(State())
    {
      routes, objects, acceptTimers, resultTimers := map[], map[], map[], map[];
      presence, sockets, nextRoute, clock, sessionFrames, ephemeral := None, [], 0, 0, map[], map[];
      settled, registeredAt := map[], map[];
    }

    ghost function State(): Coordinator
      reads this
    {
      Coordinator(routes, objects, acceptTimers, resultTimers, presence, sockets, settled, registeredAt, nextRoute, clock)
    }

    function Held(): Sessions
      reads this
    {
      Sessions(sessionFrames, ephemeral)
    }

    /** Forget a live route, clear both its timers and answer its requester. */
    method RemoveRoute(operationId: string, settlement: Settlement)
      requires Indexed(routes, objects, nextRoute) && operationId in routes && routes[operationId] in settled
      modifies this`routes, this`acceptTimers, this`resultTimers, this`settled
      ensures State() == Answer(old(State()), map[old(routes)[operationId] := settlement])
    {
      AnswerOne(State(), operationId, settlement);
      hide Answer, Indexed;
      var id := routes[operationId];
      routes := routes - {operationId};
      acceptTimers := acceptTimers - {id};
      resultTimers := resultTimers - {id};
      settled := settled[id := settled[id] + [settlement]];
    }

    /** A new channel takes over: the sockets of the old ones are asked to close, sessions end at once. The old
        sockets stay open, and may send, until their close is handled. */
    method AcceptChannel(fence: string) returns (asked: seq<string>)
      modifies this`sockets, this`sessionFrames, this`ephemeral
      ensures State() == CoordinatorRoutes.AcceptChannel(old(State()), fence) && Held() == Sessions(map[], map[])
      ensures asked == old(sockets)
    {
      asked := [];
      var i := 0;
      while i < |sockets|
        invariant 0 <= i <= |sockets| && asked == sockets[..i]
      {
        asked := asked + [sockets[i]];
        i := i + 1;
      }
      sessionFrames, ephemeral := map[], map[];
      sockets := sockets + [fence];
    }

    method OnHello(fence: string)
      modifies this`presence
      ensures State() == CoordinatorRoutes.OnHello(old(State()), fence)
    {
      presence := Some(PresenceRecord(fence, clock));
    }

    method OnEvent(fence: string, eventType: EventType)
      modifies this`presence
      ensures State() == CoordinatorRoutes.OnEvent(old(State()), fence, eventType)
    {
      if presence.None? || presence.value.fence != fence {
        return;
      }
      if eventType == CapabilitiesChanged {
        presence := Some(presence.value.(lastSeenAt := clock));
        return;
      }
      if eventType == WorkspacesChanged {
        presence := Some(presence.value.(lastSeenAt := clock));
      }
    }

    method OnAccepted(fence: string, operationId: string)
      requires Indexed(routes, objects, nextRoute)
      modifies this`objects, this`acceptTimers
      ensures State() == CoordinatorRoutes.OnAccepted(old(State()), fence, operationId)
    {
      if operationId !in routes || objects[routes[operationId]].fence != fence {
        return;
      }
      var id := routes[operationId];
      objects := objects[id := objects[id].(accepted := true)];
      acceptTimers := acceptTimers - {id};
    }

    method OnResult(fence: string, operationId: string)
      requires Inv(State())
      modifies this`routes, this`acceptTimers, this`resultTimers, this`settled
      ensures State() == CoordinatorRoutes.OnResult(old(State()), fence, operationId)
    {
      hide Answer, AwaitsAccept, AwaitsResult, Truthful, Channelled, Dated;
      if operationId !in routes || objects[routes[operationId]].fence != fence {
        return;
      }
      RemoveRoute(operationId, Resolved(fence, clock));
    }

    method LoseRoute(operationId: string)
      requires Indexed(routes, objects, nextRoute) && operationId in routes && routes[operationId] in settled
      modifies this`routes, this`acceptTimers, this`resultTimers, this`settled
      ensures var s := old(State());
        var id := s.routes[operationId];
        State() == Answer(s, map[id := Rejected(if s.objects[id].accepted then ResultRouteLost else ExecutorOffline, s.now)])
    {
      hide Answer;
      RemoveRoute(operationId, Rejected(if objects[routes[operationId]].accepted then ResultRouteLost else ExecutorOffline, clock));
    }

    /** Answer every route of a channel that is gone. */
    method LoseRoutes(fence: string)
      requires Inv(State())
      modifies this`routes, this`acceptTimers, this`resultTimers, this`settled
      ensures State() == Answer(old(State()), Losses(old(State()), fence))
    {
      ghost var s := State();
      hide Swept, Answer, Inv, Losses, Indexed, Answered;
      SweepStarts(s, fence);
      InvIndexed(s);
      var todo := routes.Keys;
      while todo != {}
        invariant State() == Answer(s, Swept(s, fence, todo)) && todo <= s.routes.Keys
        decreases |todo|
      {
        var operationId :| operationId in todo;
        SweepStep(s, fence, todo, operationId);
        if objects[routes[operationId]].fence == fence {
          LoseRoute(operationId);
        }
        todo := todo - {operationId};
      }
    }

    /** Presence goes only if it is this channel's own, and the sessions with it. */
    method WebSocketClose(fence: string)
      requires Inv(State())
      modifies this
      ensures State() == CoordinatorRoutes.WebSocketClose(old(State()), fence)
      ensures Held() == if old(presence).Some? && old(presence).value.fence == fence then Sessions(map[], map[]) else old(Held())
    {
      hide Inv, Losses, Without;
      LoseRoutes(fence);
      sockets := Without(sockets, fence);
      if presence.Some? && presence.value.fence == fence {
        presence, sessionFrames, ephemeral := None, map[], map[];
      }
    }

    /** `sends` tells whether the newest executor socket takes the frame. */
    method Dispatch(operationId: string, commandId: string, remaining: Option<int>, limits: Limits,
                    answeredAt: Option<int>, sends: bool) returns (refusal: Option<Refusal>)
      requires Inv(State())
      modifies this`routes, this`objects, this`acceptTimers, this`resultTimers, this`nextRoute, this`settled, this`registeredAt
      ensures (State(), refusal) == CoordinatorRoutes.Dispatch(old(State()), operationId, commandId, remaining, limits, answeredAt, sends)
    {
      hide Inv, FailSend, Register;
      if sockets == [] || presence.None? {
        return Some(Offline);
      }
      var lastSeenAt := presence.value.lastSeenAt;
      if answeredAt.Some? && answeredAt.value > lastSeenAt {
        lastSeenAt := answeredAt.value;
      }
      if clock - lastSeenAt > limits.offlineAfterMs || clock - lastSeenAt > limits.staleAfterMs {
        return Some(Offline);
      }
      if |routes| >= MAX_INFLIGHT_ROUTES {
        return Some(Backpressure);
      }
      if operationId == "" || commandId == "" || operationId in routes {
        return Some(InvalidFrame);
      }
      RegisterAndSend(operationId, commandId, remaining, sends);
      return None;
    }

    /** Index a new route and arm both its timers. */
    method RegisterRoute(operationId: string, commandId: string, remaining: Option<int>)
      requires presence.Some?
      modifies this`routes, this`objects, this`acceptTimers, this`resultTimers, this`nextRoute, this`settled, this`registeredAt
      ensures State() == Register(old(State()), operationId, commandId, remaining)
    {
      hide RouteDeadlineMs;
      ghost var s := State();
      var id := nextRoute;
      routes, nextRoute := routes[operationId := id], id + 1;
      objects := objects[id := InflightRoute(operationId, commandId, presence.value.fence, false)];
      acceptTimers, resultTimers := acceptTimers[id := clock + ACCEPT_TIMEOUT_MS], resultTimers[id := clock + RouteDeadlineMs(remaining)];
      settled, registeredAt := settled[id := []], registeredAt[id := clock];
      assert State() == s.(routes := routes, objects := objects, acceptTimers := acceptTimers, resultTimers := resultTimers,
                           settled := settled, registeredAt := registeredAt, nextRoute := nextRoute);
    }

    /** The frame was not taken: forget the route, but not its result timer. */
    method AbandonRoute(operationId: string)
      requires Leads(routes, objects) && operationId in routes && routes[operationId] in settled
      modifies this`routes, this`acceptTimers, this`settled
      ensures State() == FailSend(old(State()), old(routes)[operationId])
    {
      AnswerOne(State(), operationId, Rejected(ExecutorOffline, clock));
      hide Answer, Leads;
      var id := routes[operationId];
      routes := routes - {operationId};
      acceptTimers := acceptTimers - {id};
      settled := settled[id := settled[id] + [Rejected(ExecutorOffline, clock)]];
    }

    method RegisterAndSend(operationId: string, commandId: string, remaining: Option<int>, sends: bool)
      requires Inv(State()) && presence.Some? && operationId !in routes
      modifies this`routes, this`objects, this`acceptTimers, this`resultTimers, this`nextRoute, this`settled, this`registeredAt
      ensures var registered := Register(old(State()), operationId, commandId, remaining);
        State() == if sends then registered else FailSend(registered, old(nextRoute))
    {
      RegisterLeads(State(), operationId, commandId, remaining);
      hide Inv, FailSend, Leads, Register;
      RegisterRoute(operationId, commandId, remaining);
      if !sends {
        AbandonRoute(operationId);
      }
    }

    method FireAccept(id: nat)
      requires Inv(State()) && id in acceptTimers
      modifies this`routes, this`acceptTimers, this`resultTimers, this`settled
      ensures State() == CoordinatorRoutes.FireAccept(old(State()), id)
    {
      var operationId := objects[id].operationId;
      acceptTimers := acceptTimers - {id};
      if operationId in routes && routes[operationId] == id {
        RemoveRoute(operationId, Rejected(AcceptTimeout, clock));
      }
    }

    method FireResult(id: nat)
      requires Inv(State()) && id in resultTimers
      modifies this`routes, this`acceptTimers, this`resultTimers, this`settled
      ensures State() == CoordinatorRoutes.FireResult(old(State()), id)
    {
      hide Answer, AwaitsAccept, Truthful, Channelled, Dated;
      var operationId := objects[id].operationId;
      resultTimers := resultTimers - {id};
      if operationId in routes && routes[operationId] == id {
        RemoveRoute(operationId, Rejected(DeadlineExceeded, clock));
      }
    }

    method PendingBytes(groups: JsMap<Pending>) returns (sum: nat)
      ensures sum == TotalBytes(groups)
    {
      sum := 0;
      var i := 0;
      while i < |groups.keys|
        invariant 0 <= i <= |groups.keys| && sum + SumBytes(groups.keys[i..], groups.values) == TotalBytes(groups)
      {
        sum := sum + if groups.keys[i] in groups.values then groups.values[groups.keys[i]].bytes else 0;
        i := i + 1;
      }
    }

    method FailSessionBudget(sessionId: string)
      modifies this`sessionFrames, this`ephemeral
      ensures Held() == FailSession(old(Held()), sessionId)
    {
      sessionFrames := sessionFrames - {sessionId};
      ephemeral := ephemeral - {sessionId};
    }

    /** The part of an invoke after its request was read: it waits for the executor's chunks. */
    method OpenInvoke(sessionId: string, id: string)
      modifies this`ephemeral
      ensures Held() == SessionFrames.OpenInvoke(old(Held()), sessionId, id)
    {
      ephemeral := ephemeral[sessionId := id];
    }

    /** The executor closes a session: its groups go, and an invoke that waits is answered. */
    method OnSessionClose(sessionId: string) returns (answered: bool)
      modifies this`sessionFrames, this`ephemeral
      ensures Held() == if sessionId == "" then old(Held()) else FailSession(old(Held()), sessionId)
      ensures answered <==> sessionId != "" && sessionId in old(ephemeral)
    {
      if sessionId == "" {
        return false;
      }
      sessionFrames := sessionFrames - {sessionId};
      answered := sessionId in ephemeral;
      if answered {
        ephemeral := ephemeral - {sessionId};
      }
    }

    /** The timer of an invoke fires. */
    method ExpireInvoke(sessionId: string)
      modifies this`sessionFrames, this`ephemeral
      ensures Held() == FailSession(old(Held()), sessionId)
    {
      ephemeral := ephemeral - {sessionId};
      sessionFrames := sessionFrames - {sessionId};
    }

    /** A viewer's socket closes. */
    method CloseViewer(sessionId: string)
      modifies this`sessionFrames
      ensures Held() == SessionFrames.CloseViewer(old(Held()), sessionId)
    {
      sessionFrames := sessionFrames - {sessionId};
    }

    /** The end of a group: its message may answer the invoke. */
    method CompleteGroup(sessionId: string, groups: JsMap<Pending>, chunk: Chunk, grown: Pending, answers: (string, string) -> bool)
      returns (verdict: Verdict)
      requires sessionId in ephemeral
      modifies this`sessionFrames, this`ephemeral
      ensures var left := Store(old(Held()), sessionId, Delete(groups, chunk.frameId));
        var answered := answers(old(ephemeral)[sessionId], Join(grown.payload));
        && Held() == (if answered then left.(ephemeral := left.ephemeral - {sessionId}) else left)
        && verdict == Completed(Join(grown.payload), answered)
    {
      hide Delete, Join;
      var rest := Delete(groups, chunk.frameId);
      if |rest.keys| == 0 {
        sessionFrames := sessionFrames - {sessionId};
      } else {
        sessionFrames := sessionFrames[sessionId := rest];
      }
      var message := Join(grown.payload);
      if !answers(ephemeral[sessionId], message) {
        return Completed(message, false);
      }
      ephemeral := ephemeral - {sessionId};
      return Completed(message, true);
    }

    method ExtendGroup(budget: Budget, sessionId: string, groups: JsMap<Pending>, group: Pending, chunk: Chunk,
                       answers: (string, string) -> bool) returns (verdict: Verdict)
      requires sessionId in ephemeral && Ordered(groups)
      modifies this`sessionFrames, this`ephemeral
      ensures (Held(), verdict) == Extend(old(Held()), budget, sessionId, groups, group, chunk, answers)
    {
      hide Delete, Join, TotalBytes, FailSession, Ordered, Set;
      var grown := Pending(group.chunkCount, group.nextIndex + 1, group.payload + [chunk.payload], group.bytes + |chunk.payload|);
      var updated := Set(groups, chunk.frameId, grown);
      var total := PendingBytes(updated);
      if total > budget.pendingBytes {
        FailSessionBudget(sessionId);
        return Dropped;
      }
      if grown.nextIndex != grown.chunkCount {
        SetNotEmpty(groups, chunk.frameId, grown);
        sessionFrames := sessionFrames[sessionId := updated];
        return Stored;
      }
      verdict := CompleteGroup(sessionId, updated, chunk, grown, answers);
    }

    method OnSessionFrame(budget: Budget, sessionId: string, chunk: Chunk, answers: (string, string) -> bool) returns (verdict: Verdict)
      requires Sound(Held(), budget)
      modifies this`sessionFrames, this`ephemeral
      ensures (Held(), verdict) == SessionFrames.OnSessionFrame(old(Held()), budget, sessionId, chunk, answers)
    {
      GroupsOrdered(Held(), budget, sessionId);
      hide FailSession, Extend, Sound, Ordered, WellFormed;
      if sessionId == "" || !WellFormed(chunk, budget) || sessionId !in ephemeral {
        return Passed;
      }
      var groups := if sessionId in sessionFrames then sessionFrames[sessionId] else JsMap([], map[]);
      var group := Pending(chunk.count, 0, [], 0);
      if chunk.frameId in groups.values {
        group := groups.values[chunk.frameId];
      } else if chunk.index != 0 || |groups.keys| >= SESSION_PENDING_FRAMES {
        FailSessionBudget(sessionId);
        return Dropped;
      }
      if group.chunkCount != chunk.count || group.nextIndex != chunk.index {
        FailSessionBudget(sessionId);
        return Dropped;
      }
      verdict := ExtendGroup(budget, sessionId, groups, group, chunk, answers);
    }
  }

  lemma GroupsOrdered(s: Sessions, budget: Budget, sessionId: string)
    requires Sound(s, budget)
    ensures Ordered(Groups(s, sessionId))
  {
  }

  lemma SetNotEmpty(groups: JsMap<Pending>, frameId: string, group: Pending)
    requires Ordered(groups)
    ensures Set(groups, frameId, group).keys != []
  {
  }

  lemma InvIndexed(s: Coordinator)
    requires Inv(s)
    ensures Indexed(s.routes, s.objects, s.nextRoute) && Answered(s.routes, s.objects, s.settled)
  {
  }

  /** Registering keeps every operation id on its own route. */
  lemma RegisterLeads(s: Coordinator, operationId: string, commandId: string, remaining: Option<int>)
    requires Inv(s) && s.presence.Some? && operationId !in s.routes
    ensures var s' := Register(s, operationId, commandId, remaining);
      && Leads(s'.routes, s'.objects) && operationId in s'.routes && s'.routes[operationId] == s.nextRoute
      && s.nextRoute in s'.settled
  {
    hide Answered, AwaitsAccept, AwaitsResult, Truthful, Channelled, Dated;
  }
}
