/** Whole runs of a coordinator, over any interleaving of the events of its old and new channels. */
module CoordinatorRuns {
  import opened Wrappers
  import opened FiniteSets
  import opened JsMaps
  import opened CoordinatorRoutes

  datatype Event =
    | Connects(fence: string)
    | Greets(fence: string)
    | Reports(fence: string, eventType: EventType)
    | Accepts(fence: string, operationId: string)
    | Answers(fence: string, operationId: string)
    | Disconnects(fence: string)
    | Dispatches(operationId: string, commandId: string, remaining: Option<int>, limits: Limits, answeredAt: Option<int>, sends: bool)
    | AcceptTimerFires(id: nat)
    | ResultTimerFires(id: nat)
    | Tick(ms: nat)

  /** Frames come from sockets that have not closed yet, replaced ones included. */
  predicate Enabled(s: Coordinator, e: Event) {
    match e
    case Connects(fence) => fence !in s.sockets
    case Greets(fence) => fence in s.sockets
    case Reports(fence, _) => fence in s.sockets
    case Accepts(fence, _) => fence in s.sockets
    case Answers(fence, _) => fence in s.sockets
    case Disconnects(fence) => fence in s.sockets
    case AcceptTimerFires(id) => id in s.acceptTimers && s.acceptTimers[id] <= s.now
    case ResultTimerFires(id) => id in s.resultTimers && s.resultTimers[id] <= s.now
    case _ => true
  }

  function Apply(s: Coordinator, e: Event): Coordinator
    requires Enabled(s, e)
  {
    match e
    case Connects(fence) => AcceptChannel(s, fence)
    case Greets(fence) => OnHello(s, fence)
    case Reports(fence, eventType) => OnEvent(s, fence, eventType)
    case Accepts(fence, operationId) => OnAccepted(s, fence, operationId)
    case Answers(fence, operationId) => OnResult(s, fence, operationId)
    case Disconnects(fence) => WebSocketClose(s, fence)
    case Dispatches(operationId, commandId, remaining, limits, answeredAt, sends) =>
      Dispatch(s, operationId, commandId, remaining, limits, answeredAt, sends).0
    case AcceptTimerFires(id) => FireAccept(s, id)
    case ResultTimerFires(id) => FireResult(s, id)
    case Tick(ms) => s.(now := s.now + ms)
  }

  // ------------------------------------------------------------ what every step keeps

  /** Every operation id leads to its own route object. */
  ghost predicate Indexed(routes: map<string, nat>, objects: map<nat, InflightRoute>, nextRoute: nat) {
    && (forall op :: op in routes ==> routes[op] in objects && objects[routes[op]].operationId == op)
    && (forall id: nat :: id in objects <==> id < nextRoute)
    && |routes| <= MAX_INFLIGHT_ROUTES
  }

  /** A requester is answered at most once, and waits exactly as long as its route is live. */
  ghost predicate Answered(routes: map<string, nat>, objects: map<nat, InflightRoute>, settled: map<nat, seq<Settlement>>) {
    forall id :: id in objects ==> id in settled && |settled[id]| <= 1 && (settled[id] == [] <==> Live(routes, objects, id))
  }

  /** Accept timers are armed exactly for the live routes that are not accepted. */
  ghost predicate AwaitsAccept(routes: map<string, nat>, objects: map<nat, InflightRoute>, acceptTimers: map<nat, int>, registeredAt: map<nat, int>) {
    forall id: nat ::
      && (id in acceptTimers <==> Live(routes, objects, id) && !objects[id].accepted)
      && (id in acceptTimers ==> id in registeredAt && acceptTimers[id] == registeredAt[id] + ACCEPT_TIMEOUT_MS)
  }

  /** Result timers are armed for every live route, and otherwise only for routes whose frame was not sent. */
  ghost predicate AwaitsResult(routes: map<string, nat>, objects: map<nat, InflightRoute>, settled: map<nat, seq<Settlement>>,
                               resultTimers: map<nat, int>, registeredAt: map<nat, int>) {
    && (forall id :: Live(routes, objects, id) ==> id in resultTimers)
    && (forall id :: id in resultTimers ==>
          && id in objects && id in settled && id in registeredAt
          && 3_000 <= resultTimers[id] - registeredAt[id] <= 57_000
          && (settled[id] != [] ==> settled[id] == [Rejected(ExecutorOffline, registeredAt[id])] && !objects[id].accepted))
  }

  /** What each answer says about the route's own channel and its acceptance. */
  ghost predicate Truthful(objects: map<nat, InflightRoute>, settled: map<nat, seq<Settlement>>, registeredAt: map<nat, int>) {
    forall id :: id in objects && id in settled && settled[id] != [] ==>
      && (settled[id][0].Resolved? ==> settled[id][0].byFence == objects[id].fence)
      && (settled[id][0].Rejected? && settled[id][0].code == ResultRouteLost ==> objects[id].accepted)
      && (settled[id][0].Rejected? && settled[id][0].code in {AcceptTimeout, ExecutorOffline} ==> !objects[id].accepted)
      && id in registeredAt && registeredAt[id] <= settled[id][0].at
      && (settled[id][0].Rejected? && settled[id][0].code == AcceptTimeout ==> registeredAt[id] + ACCEPT_TIMEOUT_MS <= settled[id][0].at)
  }

  /** No route, and no presence, outlives its channel. */
  ghost predicate Channelled(routes: map<string, nat>, objects: map<nat, InflightRoute>, presence: Option<PresenceRecord>, sockets: seq<string>) {
    && (forall i, j :: 0 <= i < j < |sockets| ==> sockets[i] != sockets[j])
    && (presence.Some? ==> presence.value.fence in sockets)
    && (forall id :: Live(routes, objects, id) ==> objects[id].fence in sockets)
  }

  ghost predicate Dated(objects: map<nat, InflightRoute>, registeredAt: map<nat, int>, now: int) {
    forall id :: id in objects ==> id in registeredAt && registeredAt[id] <= now
  }

  ghost predicate Inv(s: Coordinator) {
    && Indexed(s.routes, s.objects, s.nextRoute)
    && Answered(s.routes, s.objects, s.settled)
    && AwaitsAccept(s.routes, s.objects, s.acceptTimers, s.registeredAt)
    && AwaitsResult(s.routes, s.objects, s.settled, s.resultTimers, s.registeredAt)
    && Truthful(s.objects, s.settled, s.registeredAt)
    && Channelled(s.routes, s.objects, s.presence, s.sockets)
    && Dated(s.objects, s.registeredAt, s.now)
  }

  // ------------------------------------------------------------ answering routes

  predicate AcceptDue(s: Coordinator, id: nat) {
    id in s.registeredAt && s.registeredAt[id] + ACCEPT_TIMEOUT_MS <= s.now
  }

  /** Each answered route is live, and its answer is true of it. */
  ghost predicate Fits(s: Coordinator, answers: map<nat, Settlement>) {
    forall id :: id in answers ==>
      && IsLive(s, id) && answers[id].at == s.now
      && (answers[id].Resolved? ==> answers[id].byFence == s.objects[id].fence)
      && (answers[id].Rejected? && answers[id].code == ResultRouteLost ==> s.objects[id].accepted)
      && (answers[id].Rejected? && answers[id].code in {AcceptTimeout, ExecutorOffline} ==> !s.objects[id].accepted)
      && (answers[id].Rejected? && answers[id].code == AcceptTimeout ==> AcceptDue(s, id))
  }

  /** Exactly the answered routes stop being live. */
  lemma AnswerLive(s: Coordinator, answers: map<nat, Settlement>)
    ensures var routes := Answer(s, answers).routes;
      forall id: nat :: Live(routes, s.objects, id) <==> Live(s.routes, s.objects, id) && id !in answers
  {
  }

  lemma AnswerEnds(s: Coordinator, answers: map<nat, Settlement>)
    requires Indexed(s.routes, s.objects, s.nextRoute)
    ensures var routes := Answer(s, answers).routes;
      && Indexed(routes, s.objects, s.nextRoute)
      && forall id: nat :: Live(routes, s.objects, id) <==> Live(s.routes, s.objects, id) && id !in answers
  {
    AnswerLive(s, answers);
    FewerKeys(s.routes, Answer(s, answers).routes);
    hide Live;
  }

  lemma AnswerSettled(s: Coordinator, answers: map<nat, Settlement>)
    requires Answered(s.routes, s.objects, s.settled) && forall id :: id in answers ==> IsLive(s, id)
    ensures var settled := Answer(s, answers).settled;
      forall id :: id in s.objects ==>
        id in settled && settled[id] == if id in answers then [answers[id]] else s.settled[id]
  {
    forall id | id in answers ensures s.settled[id] + [answers[id]] == [answers[id]] {
      assert IsLive(s, id);
    }
  }

  lemma AnswerSettles(s: Coordinator, answers: map<nat, Settlement>)
    requires Indexed(s.routes, s.objects, s.nextRoute) && Answered(s.routes, s.objects, s.settled)
    requires forall id :: id in answers ==> IsLive(s, id)
    ensures Answered(Answer(s, answers).routes, s.objects, Answer(s, answers).settled)
  {
    AnswerEnds(s, answers);
    AnswerSettled(s, answers);
    hide Indexed, Live, Answer;
  }

  lemma AnswerAccepts(s: Coordinator, answers: map<nat, Settlement>)
    requires Indexed(s.routes, s.objects, s.nextRoute)
    requires AwaitsAccept(s.routes, s.objects, s.acceptTimers, s.registeredAt)
    ensures AwaitsAccept(Answer(s, answers).routes, s.objects, s.acceptTimers - answers.Keys, s.registeredAt)
  {
    AnswerEnds(s, answers);
    hide Indexed, Live, Answer;
  }

  lemma AnswerResults(s: Coordinator, answers: map<nat, Settlement>)
    requires Indexed(s.routes, s.objects, s.nextRoute) && Answered(s.routes, s.objects, s.settled)
    requires AwaitsResult(s.routes, s.objects, s.settled, s.resultTimers, s.registeredAt)
    requires forall id :: id in answers ==> IsLive(s, id)
    ensures AwaitsResult(Answer(s, answers).routes, s.objects, Answer(s, answers).settled, s.resultTimers - answers.Keys, s.registeredAt)
  {
    AnswerEnds(s, answers);
    AnswerSettled(s, answers);
    hide Indexed, Answered, Live, Answer;
  }

  lemma AnswerTruthful(s: Coordinator, answers: map<nat, Settlement>)
    requires Answered(s.routes, s.objects, s.settled) && Truthful(s.objects, s.settled, s.registeredAt)
    requires Dated(s.objects, s.registeredAt, s.now) && Fits(s, answers)
    ensures Truthful(s.objects, Answer(s, answers).settled, s.registeredAt)
  {
    AnswerSettled(s, answers);
    hide Answered, Answer, IsLive;
  }

  lemma AnswerChannelled(s: Coordinator, answers: map<nat, Settlement>)
    requires Indexed(s.routes, s.objects, s.nextRoute) && Channelled(s.routes, s.objects, s.presence, s.sockets)
    ensures Channelled(Answer(s, answers).routes, s.objects, s.presence, s.sockets)
  {
    AnswerEnds(s, answers);
    hide Indexed, Live, Answer;
  }

  lemma AnswerKeeps(s: Coordinator, answers: map<nat, Settlement>)
    requires Inv(s) && Fits(s, answers)
    ensures Inv(Answer(s, answers))
  {
    hide Indexed, Answered, AwaitsAccept, AwaitsResult, Truthful, Channelled, Dated, IsLive;
    AnswerEnds(s, answers);
    AnswerSettles(s, answers);
    AnswerAccepts(s, answers);
    AnswerResults(s, answers);
    AnswerTruthful(s, answers);
    AnswerChannelled(s, answers);
  }

  // ------------------------------------------------------------ the handlers

  lemma ChannelKeeps(s: Coordinator, e: Event)
    requires Inv(s) && Enabled(s, e) && (e.Connects? || e.Greets? || e.Reports? || e.Tick?)
    ensures Inv(Apply(s, e))
  {
    hide Indexed, Answered, AwaitsAccept, AwaitsResult, Truthful, Live;
  }

  /** Being accepted does not change which routes are live. */
  lemma AcceptedLive(s: Coordinator, id: nat)
    requires id in s.objects
    ensures var objects := s.objects[id := s.objects[id].(accepted := true)];
      forall other: nat :: Live(s.routes, objects, other) <==> Live(s.routes, s.objects, other)
  {
  }

  lemma AcceptedKeepsRest(s: Coordinator, id: nat)
    requires Inv(s) && IsLive(s, id)
    ensures var objects := s.objects[id := s.objects[id].(accepted := true)];
      && Indexed(s.routes, objects, s.nextRoute) && Answered(s.routes, objects, s.settled)
      && Channelled(s.routes, objects, s.presence, s.sockets) && Dated(objects, s.registeredAt, s.now)
  {
    hide AwaitsAccept, AwaitsResult, Truthful;
    AcceptedLive(s, id);
    hide Live;
  }

  lemma AcceptedKeepsTruth(s: Coordinator, id: nat)
    requires Answered(s.routes, s.objects, s.settled) && Truthful(s.objects, s.settled, s.registeredAt) && IsLive(s, id)
    ensures Truthful(s.objects[id := s.objects[id].(accepted := true)], s.settled, s.registeredAt)
  {
    assert s.settled[id] == [];
    hide Live, Answered;
  }

  lemma AcceptedKeepsTimers(s: Coordinator, id: nat)
    requires Inv(s) && IsLive(s, id)
    ensures var objects := s.objects[id := s.objects[id].(accepted := true)];
      && AwaitsAccept(s.routes, objects, s.acceptTimers - {id}, s.registeredAt)
      && AwaitsResult(s.routes, objects, s.settled, s.resultTimers, s.registeredAt)
  {
    AcceptedLive(s, id);
    assert s.settled[id] == [];
    hide Live, Indexed, Answered, Truthful, Channelled, Dated;
  }

  lemma OnAcceptedKeeps(s: Coordinator, fence: string, operationId: string)
    requires Inv(s)
    ensures Inv(OnAccepted(s, fence, operationId))
  {
    if operationId in s.routes {
      var id := s.routes[operationId];
      assert IsLive(s, id);
      hide Indexed, Answered, AwaitsAccept, AwaitsResult, Truthful, Channelled, Dated, IsLive, Live;
      AcceptedKeepsRest(s, id);
      AcceptedKeepsTruth(s, id);
      AcceptedKeepsTimers(s, id);
    }
  }

  lemma OnResultKeeps(s: Coordinator, fence: string, operationId: string)
    requires Inv(s)
    ensures Inv(OnResult(s, fence, operationId))
  {
    InvRoutes(s);
    hide Inv, Answer, Fits, Indexed;
    if operationId in s.routes && s.objects[s.routes[operationId]].fence == fence {
      ResultFits(s, operationId, fence);
      AnswerKeeps(s, map[s.routes[operationId] := Resolved(fence, s.now)]);
    }
  }

  lemma InvRoutes(s: Coordinator)
    requires Inv(s)
    ensures Indexed(s.routes, s.objects, s.nextRoute) && forall op :: op in s.routes ==> s.routes[op] in s.objects
  {
  }

  lemma ResultFits(s: Coordinator, operationId: string, fence: string)
    requires Indexed(s.routes, s.objects, s.nextRoute) && operationId in s.routes && s.objects[s.routes[operationId]].fence == fence
    ensures Fits(s, map[s.routes[operationId] := Resolved(fence, s.now)])
  {
  }

  lemma LossesFit(s: Coordinator, fence: string)
    ensures Fits(s, Losses(s, fence))
    ensures forall id :: IsLive(s, id) && id !in Losses(s, fence) ==> s.objects[id].fence != fence
  {
  }

  lemma CloseChannelled(s: Coordinator, fence: string, presence: Option<PresenceRecord>)
    requires Indexed(s.routes, s.objects, s.nextRoute) && Channelled(s.routes, s.objects, s.presence, s.sockets)
    requires presence == (if s.presence.Some? && s.presence.value.fence == fence then None else s.presence)
    ensures Channelled(Answer(s, Losses(s, fence)).routes, s.objects, presence, Without(s.sockets, fence))
  {
    WithoutOrdered(s.sockets, fence);
    LossesFit(s, fence);
    AnswerEnds(s, Losses(s, fence));
    hide Indexed, Live, Answer, Losses, Without;
  }

  lemma CloseKeeps(s: Coordinator, fence: string)
    requires Inv(s)
    ensures Inv(WebSocketClose(s, fence))
  {
    hide Indexed, Answered, AwaitsAccept, AwaitsResult, Truthful, Dated, Channelled, Losses, Without;
    LossesFit(s, fence);
    AnswerKeeps(s, Losses(s, fence));
    CloseChannelled(s, fence, WebSocketClose(s, fence).presence);
  }

  /** An accept timer that fires finds its own route waiting; it is answered as if both timers were cleared. */
  lemma FireAcceptAnswers(s: Coordinator, id: nat)
    requires Inv(s) && id in s.acceptTimers
    ensures IsLive(s, id) && !s.objects[id].accepted && (s.acceptTimers[id] <= s.now ==> AcceptDue(s, id))
    ensures FireAccept(s, id) == Answer(s, map[id := Rejected(AcceptTimeout, s.now)])
  {
    assert s.acceptTimers - {id} - {id} == s.acceptTimers - {id};
    assert map[id := Rejected(AcceptTimeout, s.now)].Keys == {id};
  }

  lemma FireResultAnswers(s: Coordinator, id: nat)
    requires id in s.resultTimers
    ensures FireResult(s, id) ==
      if IsLive(s, id) then Answer(s, map[id := Rejected(DeadlineExceeded, s.now)]) else s.(resultTimers := s.resultTimers - {id})
  {
    assert s.resultTimers - {id} - {id} == s.resultTimers - {id};
    assert map[id := Rejected(DeadlineExceeded, s.now)].Keys == {id};
  }

  lemma FireAcceptKeeps(s: Coordinator, id: nat)
    requires Inv(s) && id in s.acceptTimers && s.acceptTimers[id] <= s.now
    ensures Inv(FireAccept(s, id))
  {
    hide Inv, FireAccept, Answer, IsLive, AcceptDue;
    FireAcceptAnswers(s, id);
    AnswerKeeps(s, map[id := Rejected(AcceptTimeout, s.now)]);
  }

  lemma LeakedTimerGoes(s: Coordinator, id: nat)
    requires AwaitsResult(s.routes, s.objects, s.settled, s.resultTimers, s.registeredAt) && !IsLive(s, id)
    ensures AwaitsResult(s.routes, s.objects, s.settled, s.resultTimers - {id}, s.registeredAt)
  {
    hide Live;
  }

  lemma FireResultKeeps(s: Coordinator, id: nat)
    requires Inv(s) && id in s.resultTimers
    ensures Inv(FireResult(s, id))
  {
    hide FireResult, Answer, Indexed, Answered, AwaitsAccept, AwaitsResult, Truthful, Channelled, Dated, IsLive, AcceptDue;
    FireResultAnswers(s, id);
    if IsLive(s, id) {
      AnswerKeeps(s, map[id := Rejected(DeadlineExceeded, s.now)]);
    } else {
      LeakedTimerGoes(s, id);
    }
  }

  // ------------------------------------------------------------ dispatch

  lemma RegisterLive(s: Coordinator, operationId: string, commandId: string, remaining: Option<int>)
    requires Indexed(s.routes, s.objects, s.nextRoute) && s.presence.Some? && operationId !in s.routes
    ensures var s' := Register(s, operationId, commandId, remaining);
      forall id: nat :: Live(s'.routes, s'.objects, id) <==> id == s.nextRoute || Live(s.routes, s.objects, id)
  {
  }

  lemma RegisterIndexed(s: Coordinator, operationId: string, commandId: string, remaining: Option<int>)
    requires Indexed(s.routes, s.objects, s.nextRoute) && s.presence.Some?
    requires operationId !in s.routes && |s.routes| < MAX_INFLIGHT_ROUTES
    ensures var s' := Register(s, operationId, commandId, remaining); Indexed(s'.routes, s'.objects, s'.nextRoute)
  {
  }

  lemma RegisterAnswered(s: Coordinator, operationId: string, commandId: string, remaining: Option<int>)
    requires Indexed(s.routes, s.objects, s.nextRoute) && s.presence.Some? && operationId !in s.routes
    requires Answered(s.routes, s.objects, s.settled)
    ensures var s' := Register(s, operationId, commandId, remaining); Answered(s'.routes, s'.objects, s'.settled)
  {
    RegisterLive(s, operationId, commandId, remaining);
    hide Live, RouteDeadlineMs;
  }

  lemma RegisterChannelled(s: Coordinator, operationId: string, commandId: string, remaining: Option<int>)
    requires Indexed(s.routes, s.objects, s.nextRoute) && s.presence.Some? && operationId !in s.routes
    requires Channelled(s.routes, s.objects, s.presence, s.sockets)
    ensures var s' := Register(s, operationId, commandId, remaining); Channelled(s'.routes, s'.objects, s.presence, s.sockets)
  {
    RegisterLive(s, operationId, commandId, remaining);
    assert forall id: nat :: Live(s.routes, s.objects, id) ==> id != s.nextRoute;
    hide Live, RouteDeadlineMs, Indexed;
  }

  lemma RegisterAccepts(s: Coordinator, operationId: string, commandId: string, remaining: Option<int>)
    requires Indexed(s.routes, s.objects, s.nextRoute) && s.presence.Some? && operationId !in s.routes
    requires AwaitsAccept(s.routes, s.objects, s.acceptTimers, s.registeredAt)
    ensures var s' := Register(s, operationId, commandId, remaining);
      AwaitsAccept(s'.routes, s'.objects, s'.acceptTimers, s'.registeredAt)
  {
    hide Live, RouteDeadlineMs, Indexed;
    RegisterLive(s, operationId, commandId, remaining);
    NextIsNew(s);
  }

  lemma NextIsNew(s: Coordinator)
    requires Indexed(s.routes, s.objects, s.nextRoute)
    ensures forall id: nat :: Live(s.routes, s.objects, id) ==> id != s.nextRoute
  {
  }

  lemma RegisterResults(s: Coordinator, operationId: string, commandId: string, remaining: Option<int>)
    requires Indexed(s.routes, s.objects, s.nextRoute) && s.presence.Some? && operationId !in s.routes
    requires AwaitsResult(s.routes, s.objects, s.settled, s.resultTimers, s.registeredAt)
    ensures var s' := Register(s, operationId, commandId, remaining);
      AwaitsResult(s'.routes, s'.objects, s'.settled, s'.resultTimers, s'.registeredAt)
  {
    RegisterLive(s, operationId, commandId, remaining);
    hide Live, RouteDeadlineMs;
  }

  lemma RegisterTruthful(s: Coordinator, operationId: string, commandId: string, remaining: Option<int>)
    requires Truthful(s.objects, s.settled, s.registeredAt) && Dated(s.objects, s.registeredAt, s.now)
    requires Indexed(s.routes, s.objects, s.nextRoute) && s.presence.Some?
    ensures var s' := Register(s, operationId, commandId, remaining);
      Truthful(s'.objects, s'.settled, s'.registeredAt) && Dated(s'.objects, s'.registeredAt, s.now)
  {
    hide RouteDeadlineMs;
  }

  lemma RegisterKeeps(s: Coordinator, operationId: string, commandId: string, remaining: Option<int>)
    requires Inv(s) && s.presence.Some? && operationId !in s.routes && |s.routes| < MAX_INFLIGHT_ROUTES
    ensures Inv(Register(s, operationId, commandId, remaining))
  {
    hide Indexed, Answered, AwaitsAccept, AwaitsResult, Truthful, Dated, Channelled;
    RegisterIndexed(s, operationId, commandId, remaining);
    RegisterAnswered(s, operationId, commandId, remaining);
    RegisterChannelled(s, operationId, commandId, remaining);
    RegisterAccepts(s, operationId, commandId, remaining);
    RegisterResults(s, operationId, commandId, remaining);
    RegisterTruthful(s, operationId, commandId, remaining);
  }

  lemma LeakAwaits(routes: map<string, nat>, objects: map<nat, InflightRoute>, settled: map<nat, seq<Settlement>>,
                   resultTimers: map<nat, int>, registeredAt: map<nat, int>, id: nat)
    requires AwaitsResult(routes, objects, settled, resultTimers - {id}, registeredAt)
    requires id in resultTimers && id in objects && id in settled && id in registeredAt
    requires 3_000 <= resultTimers[id] - registeredAt[id] <= 57_000
    requires settled[id] == [Rejected(ExecutorOffline, registeredAt[id])] && !objects[id].accepted
    ensures AwaitsResult(routes, objects, settled, resultTimers, registeredAt)
  {
    hide Live;
  }

  /** The timer that leaks belongs to a route that has just been answered offline. */
  lemma FailSendAwaits(s: Coordinator, id: nat)
    requires Inv(s) && IsLive(s, id) && !s.objects[id].accepted && s.registeredAt[id] == s.now
    ensures var s' := FailSend(s, id); AwaitsResult(s'.routes, s'.objects, s'.settled, s'.resultTimers, s'.registeredAt)
  {
    hide Indexed, Answered, AwaitsAccept, AwaitsResult, Truthful, Dated, Channelled, Live, Fits;
    var answers := map[id := Rejected(ExecutorOffline, s.now)];
    AnswerSettled(s, answers);
    AnswerResults(s, answers);
    LiveTimed(s, id);
    assert answers.Keys == {id};
    var s' := Answer(s, answers);
    LeakAwaits(s'.routes, s.objects, s'.settled, s.resultTimers, s.registeredAt, id);
  }

  lemma FailSendKeeps(s: Coordinator, id: nat)
    requires Inv(s) && IsLive(s, id) && !s.objects[id].accepted && s.registeredAt[id] == s.now
    ensures Inv(FailSend(s, id))
  {
    hide Indexed, Answered, AwaitsAccept, AwaitsResult, Truthful, Dated, Channelled, IsLive, Answer;
    FailSendAwaits(s, id);
    AnswerKeeps(s, map[id := Rejected(ExecutorOffline, s.now)]);
    AnswerLeaves(s, map[id := Rejected(ExecutorOffline, s.now)]);
  }

  lemma AnswerLeaves(s: Coordinator, answers: map<nat, Settlement>)
    ensures var s' := Answer(s, answers);
      s' == s.(routes := s'.routes, acceptTimers := s'.acceptTimers, resultTimers := s'.resultTimers, settled := s'.settled)
  {
  }

  lemma LiveTimed(s: Coordinator, id: nat)
    requires Inv(s) && IsLive(s, id)
    ensures id in s.objects && id in s.resultTimers && id in s.registeredAt && 3_000 <= s.resultTimers[id] - s.registeredAt[id] <= 57_000
  {
  }

  lemma RegisteredLive(s: Coordinator, operationId: string, commandId: string, remaining: Option<int>)
    requires s.presence.Some?
    ensures var s' := Register(s, operationId, commandId, remaining);
      IsLive(s', s.nextRoute) && !s'.objects[s.nextRoute].accepted
      && s.nextRoute in s'.registeredAt && s'.registeredAt[s.nextRoute] == s'.now
  {
  }

  lemma DispatchKeeps(s: Coordinator, operationId: string, commandId: string, remaining: Option<int>,
                      limits: Limits, answeredAt: Option<int>, sends: bool)
    requires Inv(s)
    ensures Inv(Dispatch(s, operationId, commandId, remaining, limits, answeredAt, sends).0)
  {
    hide Inv, FailSend, Register, IsLive, Refuses;
    if Refuses(s, operationId, commandId, limits, answeredAt).None? {
      NotRefused(s, operationId, commandId, limits, answeredAt);
      RegisterKeeps(s, operationId, commandId, remaining);
      RegisteredLive(s, operationId, commandId, remaining);
      if !sends {
        FailSendKeeps(Register(s, operationId, commandId, remaining), s.nextRoute);
      }
    }
  }

  lemma NotRefused(s: Coordinator, operationId: string, commandId: string, limits: Limits, answeredAt: Option<int>)
    requires Refuses(s, operationId, commandId, limits, answeredAt).None?
    ensures s.presence.Some? && operationId !in s.routes && |s.routes| < MAX_INFLIGHT_ROUTES
  {
  }

  lemma StepKeeps(s: Coordinator, e: Event)
    requires Inv(s) && Enabled(s, e)
    ensures Inv(Apply(s, e))
  {
    hide Inv, OnAccepted, OnResult, WebSocketClose, Dispatch, FireAccept, FireResult;
    match e
    case Accepts(fence, operationId) => OnAcceptedKeeps(s, fence, operationId);
    case Answers(fence, operationId) => OnResultKeeps(s, fence, operationId);
    case Disconnects(fence) => CloseKeeps(s, fence);
    case Dispatches(operationId, commandId, remaining, limits, answeredAt, sends) =>
      DispatchKeeps(s, operationId, commandId, remaining, limits, answeredAt, sends);
    case AcceptTimerFires(id) => FireAcceptKeeps(s, id);
    case ResultTimerFires(id) => FireResultKeeps(s, id);
    case _ => ChannelKeeps(s, e);
  }
}
