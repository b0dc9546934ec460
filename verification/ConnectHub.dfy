/**
 The state that the client relay and the executor registry keep between them, as one value,
 and what each of their operations does to it. Every operation is one uninterrupted stretch
 of code, re-entrant callbacks included.

 JavaScript object identity is an identifier: a route carries the number it was created
 with, a link the fence drawn for it. Sinks are numbers in a table of what has ended, what
 refuses writes, and which close callback is registered.
 */
module ConnectHub {
  import opened Wrappers
  import opened JsMaps

  const ACCEPT_TIMEOUT_MS: int := 5_000
  const MAX_CONNECTIONS: nat := 256
  const MAX_ROUTES: nat := 1_024
  const MAX_PENDING_ACCEPTS: nat := 256
  const MAX_DEVICE_IN_FLIGHT: nat := 32
  const RATE_WINDOW_MS: int := 60_000
  const MAX_COMMANDS_PER_WINDOW: nat := 120
  const STALE_AFTER_MS: int := 45_000
  const PENDING_HELLO_TTL_MS: int := 30_000
  const STALE_TOMBSTONE_TTL_MS: int := 45_000
  const MAX_PENDING_HELLOS: nat := 1_024
  const MAX_STALE_TOMBSTONES: nat := 1_024

  /** Which credential vouches for a client link; an actor is known by its authority. */
  datatype Authority =
    | DesktopAuthority(deviceId: string, generation: nat)
    | ExecutorAuthority(deviceId: string, generation: nat, executorId: string)

  datatype DesktopLink = DesktopLink(fence: string, deviceId: string, authority: Authority, sink: nat)
  datatype Route = Route(
    id: nat, commandId: string, correlationId: string, idempotencyKey: string,
    executorId: string, deviceId: string, desktopFence: string, authority: Authority)
  datatype Rate = Rate(windowStartedMs: int, count: nat)
  datatype ExecutorLink = ExecutorLink(
    fence: string, executorId: string, deviceId: string, generation: nat, sink: nat, lastActivityMs: int)
  datatype PendingHello = PendingHello(generation: nat, correlationId: string, expiresAtMs: int)
  datatype Timer = Timer(route: Route, dueMs: int)
  datatype Callback = Callback(deviceId: string, fence: string)
  datatype Presence = Online | Offline | Stale
  datatype Outcome = Accepted | ExecutorOffline | Backpressure | AcceptTimeout | Unauthorized | Overloaded
    | DeploymentMismatch | InvalidEnvelope | Unavailable

  datatype Frame = Frame(commandId: string, correlationId: string, idempotencyKey: string, executorId: string, deviceId: string)
  datatype ExecutorRow = ExecutorRow(deviceId: string, generation: nat)
  /** What the lookups of a command's owner and target executor found: a row is usable when it is
      active and of the actor's owner. */
  datatype Lookup = LookupFailed | NotUsable | Usable(row: ExecutorRow)

  /**
   The fields of both classes and of the sinks; `resolved`, `dispatchedOn`, `nextRoute` and `fences`
   are history: the resolve calls of every command promise, the registry fence each route was
   registered against, and the identities drawn so far.
   */
  datatype Hub = Hub(
    desktops: JsMap<DesktopLink>, byCommand: map<string, Route>, byCorrelation: map<string, Route>,
    pending: map<string, Route>, rates: map<string, Rate>,
    connections: map<string, ExecutorLink>, stale: JsMap<int>, hellos: JsMap<PendingHello>,
    ended: set<nat>, refusing: set<nat>, onClose: map<nat, Callback>, timers: map<nat, Timer>,
    resolved: map<nat, seq<Outcome>>, dispatchedOn: map<nat, string>, nextRoute: nat, fences: set<string>,
    now: int)

  const EMPTY_HUB := Hub(
    JsMap([], map[]), map[], map[], map[], map[], map[], JsMap([], map[]), JsMap([], map[]),
    {}, {}, map[], map[], map[], map[], 0, {}, 0)

  // ------------------------------------------------------------ sinks and routes

  /** A write succeeds unless the sink has ended or refuses it. */
  predicate Writes(h: Hub, sink: nat) {
    sink !in h.ended && sink !in h.refusing
  }

  /** The route's promise is still waiting for acceptance. */
  predicate Waits(h: Hub, route: Route) {
    route.commandId in h.pending && h.pending[route.commandId] == route
  }

  function Released(pending: map<string, Route>, gone: set<Route>): set<nat> {
    set c | c in pending && pending[c] in gone :: pending[c].id
  }

  function Kept(routes: map<string, Route>, gone: set<Route>): map<string, Route> {
    map c | c in routes && routes[c] !in gone :: routes[c]
  }

  function Resolve(resolved: map<nat, seq<Outcome>>, ids: set<nat>, outcome: Outcome): map<nat, seq<Outcome>> {
    map i | i in resolved :: if i in ids then resolved[i] + [outcome] else resolved[i]
  }

  /** Forget routes: both indexes, the pending entries and their timers; resolve the promises that
      were still waiting when a result is given. */
  function RemoveRoutes(h: Hub, gone: set<Route>, result: Option<Outcome>): Hub {
    h.(byCommand := Kept(h.byCommand, gone), byCorrelation := Kept(h.byCorrelation, gone),
       pending := Kept(h.pending, gone), timers := h.timers - Released(h.pending, gone),
       resolved := if result.Some? then Resolve(h.resolved, Released(h.pending, gone), result.value) else h.resolved)
  }

  function DeviceRoutes(byCommand: map<string, Route>, deviceId: string, fence: Option<string>): set<Route> {
    set c | c in byCommand && byCommand[c].deviceId == deviceId
            && (fence.None? || byCommand[c].desktopFence == fence.value) :: byCommand[c]
  }

  function ExecutorRoutes(byCommand: map<string, Route>, executorId: string): set<Route> {
    set c | c in byCommand && byCommand[c].executorId == executorId :: byCommand[c]
  }

  function RemoveDesktopRoutes(h: Hub, deviceId: string, fence: Option<string>): Hub {
    RemoveRoutes(h, DeviceRoutes(h.byCommand, deviceId, fence), Some(Unauthorized))
  }

  function FenceExecutor(h: Hub, executorId: string): Hub {
    RemoveRoutes(h, ExecutorRoutes(h.byCommand, executorId), Some(ExecutorOffline))
  }

  // ------------------------------------------------------------ client links

  function CloseLink(h: Hub, deviceId: string, fence: string): Hub {
    if deviceId !in h.desktops.values || h.desktops.values[deviceId].fence != fence then h
    else RemoveDesktopRoutes(
      h.(desktops := Delete(h.desktops, deviceId), rates := h.rates - {deviceId}), deviceId, Some(fence))
  }

  /** `end` of a sink runs its close callback before it returns. */
  function EndSink(h: Hub, sink: nat): Hub {
    if sink in h.ended then h
    else
      var marked := h.(ended := h.ended + {sink}, onClose := h.onClose - {sink});
      if sink in h.onClose then CloseLink(marked, h.onClose[sink].deviceId, h.onClose[sink].fence) else marked
  }

  function DropDesktop(h: Hub, deviceId: string): Hub {
    h.(desktops := Delete(h.desktops, deviceId))
  }

  predicate Conflicts(held: Authority, presented: Authority) {
    held.DesktopAuthority? != presented.DesktopAuthority?
    || (held.ExecutorAuthority? && held.executorId != presented.executorId)
  }

  /** The takeover of a link by the same authority. */
  function Replace(h: Hub, previous: DesktopLink): Hub {
    DropDesktop(RemoveDesktopRoutes(EndSink(h, previous.sink), previous.deviceId, Some(previous.fence)), previous.deviceId)
  }

  ghost predicate KeyedByDevice(desktops: JsMap<DesktopLink>) {
    Ordered(desktops) && forall d :: d in desktops.values ==> desktops.values[d].deviceId == d
  }

  lemma CloseShrinks(h: Hub, deviceId: string, fence: string)
    requires KeyedByDevice(h.desktops)
    ensures KeyedByDevice(CloseLink(h, deviceId, fence).desktops)
    ensures |CloseLink(h, deviceId, fence).desktops.keys| <= |h.desktops.keys|
    ensures deviceId in h.desktops.values && h.desktops.values[deviceId].fence == fence ==>
      CloseLink(h, deviceId, fence).desktops == Delete(h.desktops, deviceId)
      && |CloseLink(h, deviceId, fence).desktops.keys| < |h.desktops.keys|
  {
    hide Kept, Released, DeviceRoutes, Resolve, Ordered, Without;
    DeleteOrdered(h.desktops, deviceId);
  }

  lemma EndShrinks(h: Hub, sink: nat)
    requires KeyedByDevice(h.desktops)
    ensures KeyedByDevice(EndSink(h, sink).desktops) && |EndSink(h, sink).desktops.keys| <= |h.desktops.keys|
  {
    if sink !in h.ended && sink in h.onClose {
      CloseShrinks(h.(ended := h.ended + {sink}, onClose := h.onClose - {sink}), h.onClose[sink].deviceId, h.onClose[sink].fence);
    }
  }

  function EvictOldest(h: Hub): (h': Hub)
    requires KeyedByDevice(h.desktops) && h.desktops.keys != []
    ensures KeyedByDevice(h'.desktops) && |h'.desktops.keys| < |h.desktops.keys|
  {
    var oldest := h.desktops.values[h.desktops.keys[0]];
    CloseShrinks(h, oldest.deviceId, oldest.fence);
    EndShrinks(CloseLink(h, oldest.deviceId, oldest.fence), oldest.sink);
    EndSink(CloseLink(h, oldest.deviceId, oldest.fence), oldest.sink)
  }

  function Evict(h: Hub): (h': Hub)
    requires KeyedByDevice(h.desktops)
    ensures KeyedByDevice(h'.desktops) && |h'.desktops.keys| < MAX_CONNECTIONS
    decreases |h.desktops.keys|
  {
    if |h.desktops.keys| < MAX_CONNECTIONS then h else Evict(EvictOldest(h))
  }

  /** Another authority is refused; the same authority takes over; the oldest links make room. */
  function OpenLink(h: Hub, actor: Authority, sink: nat, fence: string): Hub
    requires KeyedByDevice(h.desktops)
  {
    if actor.deviceId in h.desktops.values && Conflicts(h.desktops.values[actor.deviceId].authority, actor) then
      EndSink(h, sink).(fences := h.fences + {fence})
    else
      var replaced := if actor.deviceId in h.desktops.values then Replace(h, h.desktops.values[actor.deviceId]) else h;
      ReplaceShrinks(h, actor.deviceId);
      var room := Evict(replaced);
      room.(fences := h.fences + {fence},
            desktops := Set(room.desktops, actor.deviceId, DesktopLink(fence, actor.deviceId, actor, sink)))
  }

  lemma ReplaceShrinks(h: Hub, deviceId: string)
    requires KeyedByDevice(h.desktops)
    ensures deviceId in h.desktops.values ==> KeyedByDevice(Replace(h, h.desktops.values[deviceId]).desktops)
  {
    if deviceId in h.desktops.values {
      var previous := h.desktops.values[deviceId];
      EndShrinks(h, previous.sink);
      DeleteOrdered(EndSink(h, previous.sink).desktops, deviceId);
    }
  }

  /** Registering a close callback runs it at once when the sink has already ended. */
  function Watch(h: Hub, sink: nat, deviceId: string, fence: string): Hub {
    if sink in h.ended then CloseLink(h, deviceId, fence)
    else h.(onClose := h.onClose[sink := Callback(deviceId, fence)])
  }

  // ------------------------------------------------------------ executor registry

  function HelloExpired(now: int): PendingHello -> bool {
    (p: PendingHello) => p.expiresAtMs <= now
  }

  function TombstoneExpired(now: int): int -> bool {
    expiresAtMs => expiresAtMs <= now
  }

  function PruneHellos(h: Hub): Hub {
    h.(hellos := Prune(h.hellos, h.hellos.keys, HelloExpired(h.now)))
  }

  function PruneStale(h: Hub): Hub {
    h.(stale := Prune(h.stale, h.stale.keys, TombstoneExpired(h.now)))
  }

  function MarkStale(h: Hub, executorId: string): Hub {
    h.(stale := Trim(Set(Delete(h.stale, executorId), executorId, h.now + STALE_TOMBSTONE_TTL_MS), MAX_STALE_TOMBSTONES))
  }

  function Hello(h: Hub, executorId: string, generation: nat, correlationId: string): Hub {
    var pruned := PruneHellos(h);
    pruned.(hellos := Trim(
      Set(Delete(pruned.hellos, executorId), executorId, PendingHello(generation, correlationId, h.now + PENDING_HELLO_TTL_MS)),
      MAX_PENDING_HELLOS))
  }

  /** Take an executor's connection away and tell the relay at once. */
  function Disconnect(h: Hub, executorId: string): Hub {
    FenceExecutor(h.(connections := h.connections - {executorId}), executorId)
  }

  function TouchExecutor(h: Hub, executorId: string, generation: nat): Hub {
    if executorId in h.connections && h.connections[executorId].generation == generation then
      h.(connections := h.connections[executorId := h.connections[executorId].(lastActivityMs := h.now)],
         stale := Delete(h.stale, executorId))
    else h
  }

  function CloseExecutor(h: Hub, executorId: string, fence: Option<string>): Hub {
    if executorId in h.connections && (fence.None? || h.connections[executorId].fence == fence.value) then
      Disconnect(h.(stale := Delete(h.stale, executorId), hellos := Delete(h.hellos, executorId)), executorId)
    else h
  }

  function RevokeConnection(h: Hub, executorId: string): Hub {
    var cleared := h.(stale := Delete(h.stale, executorId), hellos := Delete(h.hellos, executorId));
    if executorId !in h.connections then cleared
    else Disconnect(cleared.(ended := h.ended + {h.connections[executorId].sink}), executorId)
  }

  /** Whether an executor counts as stale when asked. */
  predicate Quiet(h: Hub, executorId: string) {
    executorId in h.connections && h.now - h.connections[executorId].lastActivityMs > STALE_AFTER_MS
  }

  function Look(h: Hub, executorId: string): (Hub, Presence) {
    var pruned := PruneStale(PruneHellos(h));
    if executorId !in h.connections then (pruned, if executorId in pruned.stale.values then Stale else Offline)
    else if Quiet(h, executorId) then
      (FenceExecutor(
         MarkStale(pruned.(ended := h.ended + {h.connections[executorId].sink}, connections := h.connections - {executorId}), executorId),
         executorId),
       Stale)
    else (pruned, Online)
  }

  /** Write a frame to an executor; `None` is success. */
  function Dispatch(h: Hub, executorId: string): (Hub, Option<Outcome>) {
    if executorId !in h.connections then (h, Some(ExecutorOffline))
    else
      var (looked, presence) := Look(h, executorId);
      if presence != Online then (looked, Some(ExecutorOffline))
      else if !Writes(looked, h.connections[executorId].sink) then
        (Disconnect(looked.(ended := looked.ended + {h.connections[executorId].sink}), executorId), Some(Backpressure))
      else (looked, None)
  }

  function Matches(h: Hub, executorId: string, row: ExecutorRow): (Hub, bool) {
    if executorId in h.connections && h.connections[executorId].deviceId == row.deviceId
       && h.connections[executorId].generation == row.generation
    then (Look(h, executorId).0, Look(h, executorId).1 == Online)
    else (h, false)
  }

  /** The takeover of an executor's connection. */
  function ReplaceConnection(h: Hub, executorId: string): Hub {
    if executorId !in h.connections then h
    else Disconnect(h.(ended := h.ended + {h.connections[executorId].sink}), executorId)
  }

  /** A connection whose hello acknowledgement cannot be written is dropped without notice. */
  function OpenExecutor(h: Hub, executorId: string, deviceId: string, generation: nat, sink: nat, fence: string): Hub {
    var replaced := ReplaceConnection(PruneStale(PruneHellos(h)), executorId);
    var live := replaced.(
      stale := Delete(replaced.stale, executorId), fences := h.fences + {fence},
      connections := replaced.connections[executorId := ExecutorLink(fence, executorId, deviceId, generation, sink, h.now)]);
    if executorId in live.hellos.values && live.hellos.values[executorId].generation == generation
       && live.hellos.values[executorId].expiresAtMs > h.now
    then
      var greeted := live.(hellos := Delete(live.hellos, executorId));
      if Writes(greeted, sink) then greeted
      else greeted.(ended := greeted.ended + {sink}, connections := greeted.connections - {executorId})
    else live
  }

  // ------------------------------------------------------------ commands

  function TakeRate(rate: Option<Rate>, now: int): (Rate, bool) {
    if rate.None? || now - rate.value.windowStartedMs >= RATE_WINDOW_MS then (Rate(now, 1), true)
    else if rate.value.count >= MAX_COMMANDS_PER_WINDOW then (rate.value, false)
    else (rate.value.(count := rate.value.count + 1), true)
  }

  function RateOf(h: Hub, deviceId: string): Option<Rate> {
    if deviceId in h.rates then Some(h.rates[deviceId]) else None
  }

  /** The part of `command` before its second await: `envelope` is the verdict of the deployment and
      nested-target checks. `None` lets the command go on with the link that was found. */
  function Begin(h: Hub, actor: Authority, frame: Frame, envelope: Option<Outcome>): (Hub, Option<Outcome>) {
    if envelope.Some? then (h, envelope)
    else if actor.deviceId !in h.desktops.values || h.desktops.values[actor.deviceId].authority != actor
            || frame.deviceId != actor.deviceId then (h, Some(Unauthorized))
    else
      var (rate, admitted) := TakeRate(RateOf(h, actor.deviceId), h.now);
      (h.(rates := h.rates[actor.deviceId := rate]), if admitted then None else Some(Overloaded))
  }

  function InFlight(byCommand: map<string, Route>, deviceId: string): nat {
    |DeviceRoutes(byCommand, deviceId, None)|
  }

  predicate HasRoom(h: Hub, deviceId: string, frame: Frame) {
    && |h.pending| < MAX_PENDING_ACCEPTS && |h.byCommand| < MAX_ROUTES
    && InFlight(h.byCommand, deviceId) < MAX_DEVICE_IN_FLIGHT
    && frame.commandId !in h.byCommand && frame.correlationId !in h.byCorrelation
  }

  function NewRoute(h: Hub, link: DesktopLink, frame: Frame): Route {
    Route(h.nextRoute, frame.commandId, frame.correlationId, frame.idempotencyKey, frame.executorId,
          link.deviceId, link.fence, link.authority)
  }

  /** Insert a route into both indexes and the pending map, and arm its accept timer. */
  function Insert(h: Hub, route: Route, registryFence: string): Hub {
    h.(byCommand := h.byCommand[route.commandId := route], byCorrelation := h.byCorrelation[route.correlationId := route],
       pending := h.pending[route.commandId := route],
       timers := h.timers[route.id := Timer(route, h.now + ACCEPT_TIMEOUT_MS)],
       resolved := h.resolved[route.id := []], dispatchedOn := h.dispatchedOn[route.id := registryFence],
       nextRoute := h.nextRoute + 1)
  }

  /** A failed dispatch answers only a promise that the disconnect has not already answered. */
  function FailDispatch(h: Hub, route: Route, reason: Outcome): Hub {
    if Waits(h, route) then RemoveRoutes(h, {route}, Some(reason)) else h
  }

  /** The part of `command` after its second await, with the link it captured before; `lag` is the time
      that passes before the frame is written. `None` means the promise of the new route is returned. */
  function Finish(h: Hub, link: DesktopLink, frame: Frame, lookup: Lookup, lag: nat): (Hub, Option<Outcome>) {
    if lookup.LookupFailed? then (h, Some(ExecutorOffline))
    else if link.deviceId !in h.desktops.values || h.desktops.values[link.deviceId] != link then (h, Some(Unauthorized))
    else if lookup.NotUsable? then (h, Some(ExecutorOffline))
    else
      var (matched, online) := Matches(h, frame.executorId, lookup.row);
      if !online then (matched, Some(ExecutorOffline)) else Admit(matched, link, frame, lag)
  }

  function Registered(h: Hub, link: DesktopLink, frame: Frame, lag: nat): Hub
    requires frame.executorId in h.connections
  {
    Insert(h, NewRoute(h, link, frame), h.connections[frame.executorId].fence).(now := h.now + lag)
  }

  /** Register a route for a matched executor if there is room, and write its frame. */
  function Admit(h: Hub, link: DesktopLink, frame: Frame, lag: nat): (Hub, Option<Outcome>)
    requires frame.executorId in h.connections
  {
    if !HasRoom(h, link.deviceId, frame) then (h, Some(Overloaded))
    else (Written(Registered(h, link, frame, lag), NewRoute(h, link, frame)), None)
  }

  function Written(h: Hub, route: Route): Hub {
    var (dispatched, failure) := Dispatch(h, route.executorId);
    if failure.Some? then FailDispatch(dispatched, route, failure.value) else dispatched
  }

  function Fire(h: Hub, id: nat): Hub
    requires id in h.timers
  {
    var route := h.timers[id].route;
    var fired := h.(timers := h.timers - {id});
    if Waits(fired, route) then RemoveRoutes(fired, {route}, Some(AcceptTimeout)) else fired
  }

  function Accept(h: Hub, executorId: string, frame: Frame): (Hub, bool) {
    if frame.commandId !in h.pending || h.pending[frame.commandId].executorId != executorId
       || h.pending[frame.commandId].correlationId != frame.correlationId
       || h.pending[frame.commandId].idempotencyKey != frame.idempotencyKey then (h, false)
    else
      var route := h.pending[frame.commandId];
      (h.(pending := h.pending - {frame.commandId}, timers := h.timers - {route.id},
          resolved := Resolve(h.resolved, {route.id}, Accepted)),
       true)
  }

  function Target(h: Hub, commandId: Option<string>, correlationId: string): Option<Route> {
    if commandId.Some? then
      if commandId.value in h.byCommand then Some(h.byCommand[commandId.value]) else None
    else if correlationId in h.byCorrelation then Some(h.byCorrelation[correlationId]) else None
  }

  /** The link of the route is gone or was replaced. */
  predicate Detached(h: Hub, route: Route) {
    route.deviceId !in h.desktops.values || h.desktops.values[route.deviceId].fence != route.desktopFence
  }

  function Output(h: Hub, executorId: string, commandId: Option<string>, correlationId: string, terminal: bool): (Hub, bool) {
    var target := Target(h, commandId, correlationId);
    if target.None? || target.value.executorId != executorId then (h, false)
    else
      var route := target.value;
      if Detached(h, route) then (RemoveRoutes(h, {route}, None), false)
      else if !Writes(h, h.desktops.values[route.deviceId].sink) then
        (RemoveDesktopRoutes(DropDesktop(EndSink(h, h.desktops.values[route.deviceId].sink), route.deviceId),
                             route.deviceId, Some(route.desktopFence)),
         false)
      else (if terminal then RemoveRoutes(h, {route}, None) else h, true)
  }

  // ------------------------------------------------------------ revocation

  function RevokeDesktop(h: Hub, deviceId: string): Hub {
    var cleared :=
      if deviceId in h.desktops.values then
        var link := h.desktops.values[deviceId];
        RemoveDesktopRoutes(DropDesktop(EndSink(h, link.sink), deviceId), deviceId, Some(link.fence))
      else RemoveDesktopRoutes(h, deviceId, None);
    cleared.(rates := cleared.rates - {deviceId})
  }

  predicate VouchedBy(link: DesktopLink, executorId: string) {
    link.authority.ExecutorAuthority? && link.authority.executorId == executorId
  }

  function RevokeLink(h: Hub, link: DesktopLink): Hub {
    var dropped := DropDesktop(EndSink(h, link.sink), link.deviceId);
    RemoveDesktopRoutes(dropped.(rates := dropped.rates - {link.deviceId}), link.deviceId, Some(link.fence))
  }

  function RevokeLinks(h: Hub, links: seq<DesktopLink>, executorId: string): Hub
    decreases |links|
  {
    if links == [] then h
    else RevokeLinks(if VouchedBy(links[0], executorId) then RevokeLink(h, links[0]) else h, links[1..], executorId)
  }

  function Links(desktops: JsMap<DesktopLink>): seq<DesktopLink>
    requires forall k :: k in desktops.keys ==> k in desktops.values
  {
    seq(|desktops.keys|, i requires 0 <= i < |desktops.keys| => desktops.values[desktops.keys[i]])
  }

  function RevokeExecutor(h: Hub, executorId: string): Hub
    requires forall k :: k in h.desktops.keys ==> k in h.desktops.values
  {
    FenceExecutor(RevokeLinks(h, Links(h.desktops), executorId), executorId)
  }
}
