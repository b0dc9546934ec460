/**
 The in-flight routes of one executor's coordinator, and what each of its event handlers does to them.
 A handler is one atomic step: the runtime delivers no other event while it waits for its storage.

 A route object is known by the number it was created with; a timer by the route it was set for.
 */
module CoordinatorRoutes {
  import opened Wrappers
  import opened JsMaps

  const MAX_INFLIGHT_ROUTES: nat := 32
  const ACCEPT_TIMEOUT_MS: int := 5_000
  const DEFAULT_ROUTE_DEADLINE_MS: int := 50_000
  const MAX_ROUTE_DEADLINE_MS: int := 55_000
  const ROUTE_DEADLINE_GRACE_MS: int := 2_000

  datatype Code = ExecutorOffline | ResultRouteLost | AcceptTimeout | DeadlineExceeded
  /** How a waiting requester was answered, and when: by a result frame of a channel, or with an error. */
  datatype Settlement = Resolved(byFence: string, at: int) | Rejected(code: Code, at: int)
  datatype Refusal = Offline | Backpressure | InvalidFrame

  datatype InflightRoute = InflightRoute(operationId: string, commandId: string, fence: string, accepted: bool)
  datatype EventType = CapabilitiesChanged | WorkspacesChanged | OtherEvent
  datatype PresenceRecord = PresenceRecord(fence: string, lastSeenAt: int)
  /** The liveness limits of the channel protocol. */
  datatype Limits = Limits(staleAfterMs: int, offlineAfterMs: int)

  /**
   The fields of the coordinator, the stored presence, the open executor sockets in the order they were
   accepted, and the runtime's armed timers with their due times. `objects`, `settled` and `registeredAt`
   also remember the routes that are gone.
   */
  datatype Coordinator = Coordinator(
    routes: map<string, nat>, objects: map<nat, InflightRoute>, acceptTimers: map<nat, int>, resultTimers: map<nat, int>,
    presence: Option<PresenceRecord>, sockets: seq<string>,
    settled: map<nat, seq<Settlement>>, registeredAt: map<nat, int>, nextRoute: nat, now: int)

  const EMPTY_COORDINATOR := Coordinator(map[], map[], map[], map[], None, [], map[], map[], 0, 0)

  /** How long a route may live, given the time to its deadline if it has one. */
  function RouteDeadlineMs(remaining: Option<int>): (ms: int)
    ensures 3_000 <= ms <= 57_000
  {
    var wanted := if remaining.Some? then remaining.value else DEFAULT_ROUTE_DEADLINE_MS;
    (if wanted < 1_000 then 1_000 else if wanted > MAX_ROUTE_DEADLINE_MS then MAX_ROUTE_DEADLINE_MS else wanted)
    + ROUTE_DEADLINE_GRACE_MS
  }

  /** The route object is the one its operation id leads to. */
  predicate Live(routes: map<string, nat>, objects: map<nat, InflightRoute>, id: nat) {
    id in objects && objects[id].operationId in routes && routes[objects[id].operationId] == id
  }

  predicate IsLive(s: Coordinator, id: nat) {
    Live(s.routes, s.objects, id)
  }

  /** Forget routes, clear both their timers and answer their requesters. */
  function Answer(s: Coordinator, answers: map<nat, Settlement>): Coordinator {
    s.(routes := map op | op in s.routes && s.routes[op] !in answers :: s.routes[op],
       acceptTimers := s.acceptTimers - answers.Keys, resultTimers := s.resultTimers - answers.Keys,
       settled := map id | id in s.settled :: if id in answers then s.settled[id] + [answers[id]] else s.settled[id])
  }

  // ------------------------------------------------------------ channels

  function AcceptChannel(s: Coordinator, fence: string): Coordinator {
    s.(sockets := s.sockets + [fence])
  }

  function OnHello(s: Coordinator, fence: string): Coordinator {
    s.(presence := Some(PresenceRecord(fence, s.now)))
  }

  /** Of a channel's own events only those about its tools say that it was seen. */
  function OnEvent(s: Coordinator, fence: string, eventType: EventType): Coordinator {
    if s.presence.Some? && s.presence.value.fence == fence && !eventType.OtherEvent? then
      s.(presence := Some(s.presence.value.(lastSeenAt := s.now)))
    else s
  }

  function OnAccepted(s: Coordinator, fence: string, operationId: string): Coordinator {
    if operationId !in s.routes || s.routes[operationId] !in s.objects || s.objects[s.routes[operationId]].fence != fence then s
    else
      var id := s.routes[operationId];
      s.(objects := s.objects[id := s.objects[id].(accepted := true)], acceptTimers := s.acceptTimers - {id})
  }

  function OnResult(s: Coordinator, fence: string, operationId: string): Coordinator {
    if operationId !in s.routes || s.routes[operationId] !in s.objects || s.objects[s.routes[operationId]].fence != fence then s
    else Answer(s, map[s.routes[operationId] := Resolved(fence, s.now)])
  }

  /** A route whose channel is gone has lost its result if it was accepted, and was not taken otherwise. */
  function Losses(s: Coordinator, fence: string): map<nat, Settlement> {
    map id | id in s.objects && s.objects[id].fence == fence && IsLive(s, id) ::
      Rejected(if s.objects[id].accepted then ResultRouteLost else ExecutorOffline, s.now)
  }

  /** A channel's socket closes: presence goes only if it is that channel's own, its routes are answered. */
  function WebSocketClose(s: Coordinator, fence: string): Coordinator {
    var cleared := if s.presence.Some? && s.presence.value.fence == fence then s.(presence := None) else s;
    Answer(cleared.(sockets := Without(s.sockets, fence)), Losses(s, fence))
  }

  // ------------------------------------------------------------ dispatch

  /** Presence is online when it is recent, the runtime's own ping answers counted. */
  predicate Online(s: Coordinator, limits: Limits, answeredAt: Option<int>) {
    && s.presence.Some?
    && var lastSeenAt := if answeredAt.Some? && answeredAt.value > s.presence.value.lastSeenAt
                         then answeredAt.value else s.presence.value.lastSeenAt;
       s.now - lastSeenAt <= limits.staleAfterMs && s.now - lastSeenAt <= limits.offlineAfterMs
  }

  function Register(s: Coordinator, operationId: string, commandId: string, remaining: Option<int>): Coordinator
    requires s.presence.Some?
  {
    var id := s.nextRoute;
    s.(routes := s.routes[operationId := id],
       objects := s.objects[id := InflightRoute(operationId, commandId, s.presence.value.fence, false)],
       acceptTimers := s.acceptTimers[id := s.now + ACCEPT_TIMEOUT_MS],
       resultTimers := s.resultTimers[id := s.now + RouteDeadlineMs(remaining)],
       settled := s.settled[id := []], registeredAt := s.registeredAt[id := s.now], nextRoute := id + 1)
  }

  /** When the frame cannot be written the route goes at once, but its result timer stays armed. */
  function FailSend(s: Coordinator, id: nat): Coordinator {
    Answer(s, map[id := Rejected(ExecutorOffline, s.now)]).(resultTimers := s.resultTimers)
  }

  function Refuses(s: Coordinator, operationId: string, commandId: string, limits: Limits, answeredAt: Option<int>): Option<Refusal> {
    if s.sockets == [] || !Online(s, limits, answeredAt) then Some(Offline)
    else if |s.routes| >= MAX_INFLIGHT_ROUTES then Some(Backpressure)
    else if operationId == "" || commandId == "" || operationId in s.routes then Some(InvalidFrame)
    else None
  }

  /** `sends` tells whether the newest executor socket takes the frame. */
  function Dispatch(s: Coordinator, operationId: string, commandId: string, remaining: Option<int>,
                    limits: Limits, answeredAt: Option<int>, sends: bool): (Coordinator, Option<Refusal>)
  {
    var refusal := Refuses(s, operationId, commandId, limits, answeredAt);
    if refusal.Some? then (s, refusal)
    else
      var registered := Register(s, operationId, commandId, remaining);
      (if sends then registered else FailSend(registered, s.nextRoute), None)
  }

  function FireAccept(s: Coordinator, id: nat): Coordinator
    requires id in s.acceptTimers
  {
    var fired := s.(acceptTimers := s.acceptTimers - {id});
    if IsLive(fired, id) then Answer(fired, map[id := Rejected(AcceptTimeout, s.now)]) else fired
  }

  function FireResult(s: Coordinator, id: nat): Coordinator
    requires id in s.resultTimers
  {
    var fired := s.(resultTimers := s.resultTimers - {id});
    if IsLive(fired, id) then Answer(fired, map[id := Rejected(DeadlineExceeded, s.now)]) else fired
  }
}
