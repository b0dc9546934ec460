/**
 The two classes, with the fields and the control flow of the program. Every method is proved to do to
 the state they share exactly what its specification function says, callbacks between the classes
 included; the invariants and the runs are proved about those functions.
 */
module ConnectServices {
  import opened Wrappers
  import opened JsMaps
  import opened ConnectHub
  import opened ConnectInvariants
  import opened ConnectKeeps
  import opened ConnectRemoval

  /** The event streams of all clients: which have ended, which refuse writes, and which close callback
      each has. */
  class Sinks {
    var ended: set<nat>
    var refusing: set<nat>
    var onClose: map<nat, Callback>

    constructor ()
      ensures ended == {} && refusing == {} && onClose == map[]
    {
      ended, refusing, onClose := {}, {}, map[];
    }
  }

  class ConnectExecutorConnectionRegistry {
    var connections: map<string, ExecutorLink>
    var staleExecutors: JsMap<int>
    var pendingHello: JsMap<PendingHello>
    var listener: ConnectClientRelayService?
    var clock: int
    const sinks: Sinks

    constructor (sinks: Sinks)
      ensures this.sinks == sinks && listener == null && connections == map[]
      ensures staleExecutors == JsMap([], map[]) && pendingHello == JsMap([], map[]) && clock == 0
    {
      this.sinks := sinks;
      connections, staleExecutors, pendingHello, listener, clock := map[], JsMap([], map[]), JsMap([], map[]), null, 0;
    }

    method PrunePending()
      modifies this`pendingHello
      ensures pendingHello == Prune(old(pendingHello), old(pendingHello).keys, HelloExpired(clock))
    {
      var keys, i := pendingHello.keys, 0;
      ghost var dead := HelloExpired(clock);
      while i < |keys|
        invariant 0 <= i <= |keys|
        invariant Prune(pendingHello, keys[i..], dead) == Prune(old(pendingHello), keys, dead)
      {
        if keys[i] in pendingHello.values && pendingHello.values[keys[i]].expiresAtMs <= clock {
          pendingHello := Delete(pendingHello, keys[i]);
        }
        i := i + 1;
      }
    }

    method PruneStale()
      modifies this`staleExecutors
      ensures staleExecutors == Prune(old(staleExecutors), old(staleExecutors).keys, TombstoneExpired(clock))
    {
      var keys, i := staleExecutors.keys, 0;
      ghost var dead := TombstoneExpired(clock);
      while i < |keys|
        invariant 0 <= i <= |keys|
        invariant Prune(staleExecutors, keys[i..], dead) == Prune(old(staleExecutors), keys, dead)
      {
        if keys[i] in staleExecutors.values && staleExecutors.values[keys[i]] <= clock {
          staleExecutors := Delete(staleExecutors, keys[i]);
        }
        i := i + 1;
      }
    }

    /** Both prunings, as every question about presence starts with them. */
    method PruneBoth()
      requires Heard()
      modifies this`pendingHello, this`staleExecutors
      ensures listener.State() == ConnectHub.PruneStale(PruneHellos(old(listener.State())))
    {
      PrunePending();
      PruneStale();
    }

    method MarkStale(executorId: string)
      modifies this`staleExecutors
      ensures staleExecutors
        == Trim(Set(Delete(old(staleExecutors), executorId), executorId, clock + STALE_TOMBSTONE_TTL_MS), MAX_STALE_TOMBSTONES)
    {
      staleExecutors := Delete(staleExecutors, executorId);
      staleExecutors := Set(staleExecutors, executorId, clock + STALE_TOMBSTONE_TTL_MS);
      ghost var marked := staleExecutors;
      while |staleExecutors.keys| > MAX_STALE_TOMBSTONES
        invariant Trim(staleExecutors, MAX_STALE_TOMBSTONES) == Trim(marked, MAX_STALE_TOMBSTONES)
        decreases |staleExecutors.keys|
      {
        staleExecutors := Delete(staleExecutors, staleExecutors.keys[0]);
      }
    }

    /** The relay listens to this registry and both write to the same streams. */
    ghost predicate Heard()
      reads this, listener
    {
      listener != null && listener.executors == this && listener.sinks == sinks
    }

    ghost predicate Valid()
      reads this, listener, sinks
    {
      Heard() && Inv(listener.State())
    }

    method Hello(executorId: string, generation: nat, correlationId: string)
      requires Heard()
      modifies this`pendingHello
      ensures listener.State() == ConnectHub.Hello(old(listener.State()), executorId, generation, correlationId)
    {
      hide Prune, Delete, Set;
      PrunePending();
      pendingHello := Delete(pendingHello, executorId);
      pendingHello := Set(pendingHello, executorId, PendingHello(generation, correlationId, clock + PENDING_HELLO_TTL_MS));
      ghost var greeted := pendingHello;
      while |pendingHello.keys| > MAX_PENDING_HELLOS
        invariant Trim(pendingHello, MAX_PENDING_HELLOS) == Trim(greeted, MAX_PENDING_HELLOS)
        decreases |pendingHello.keys|
      {
        DeleteShortens(pendingHello, pendingHello.keys[0]);
        pendingHello := Delete(pendingHello, pendingHello.keys[0]);
      }
    }

    /** Drop a connection and notify the relay, which forgets the executor's routes before this returns. */
    method Drop(executorId: string)
      requires Heard() && RoutesInv(listener.State())
      modifies this`connections, listener
      ensures listener.State() == Disconnect(old(listener.State()), executorId)
    {
      connections := connections - {executorId};
      listener.FenceExecutor(executorId);
    }

    /** End an executor's stream, which has no close callback, and drop its connection. */
    method EndAndDrop(executorId: string)
      requires Heard() && RoutesInv(listener.State()) && executorId in connections
      modifies this`connections, listener, sinks`ended
      ensures var h := old(listener.State());
        listener.State() == Disconnect(h.(ended := h.ended + {h.connections[executorId].sink}), executorId)
    {
      hide Disconnect;
      sinks.ended := sinks.ended + {connections[executorId].sink};
      Drop(executorId);
    }

    method Open(executorId: string, deviceId: string, generation: nat, sink: nat, fence: string)
      requires Valid()
      modifies this`connections, this`staleExecutors, this`pendingHello, listener, sinks`ended
      ensures listener.State() == OpenExecutor(old(listener.State()), executorId, deviceId, generation, sink, fence)
    {
      hide Indexed, Numbered, Answered, Capped, Disconnect, Delete, Prune;
      ghost var drawn := listener.fences;
      PruneBoth();
      if executorId in connections {
        EndAndDrop(executorId);
      }
      staleExecutors := Delete(staleExecutors, executorId);
      listener.fences := drawn + {fence};
      connections := connections[executorId := ExecutorLink(fence, executorId, deviceId, generation, sink, clock)];
      if executorId in pendingHello.values && pendingHello.values[executorId].generation == generation
         && pendingHello.values[executorId].expiresAtMs > clock
      {
        pendingHello := Delete(pendingHello, executorId);
        if sink in sinks.ended || sink in sinks.refusing {
          sinks.ended := sinks.ended + {sink};
          connections := connections - {executorId};
        }
      }
    }

    method Touch(executorId: string, generation: nat) returns (heard: bool)
      requires Heard()
      modifies this`connections, this`staleExecutors
      ensures heard <==> executorId in old(connections) && old(connections)[executorId].generation == generation
      ensures listener.State() == TouchExecutor(old(listener.State()), executorId, generation)
    {
      hide Delete;
      if executorId !in connections || connections[executorId].generation != generation {
        return false;
      }
      connections := connections[executorId := connections[executorId].(lastActivityMs := clock)];
      staleExecutors := Delete(staleExecutors, executorId);
      return true;
    }

    method Close(executorId: string, fence: Option<string>)
      requires Valid()
      modifies this`connections, this`staleExecutors, this`pendingHello, listener
      ensures listener.State() == CloseExecutor(old(listener.State()), executorId, fence)
    {
      hide Indexed, Numbered, Answered, Capped, Disconnect, Delete;
      if executorId in connections && (fence.None? || connections[executorId].fence == fence.value) {
        staleExecutors := Delete(staleExecutors, executorId);
        pendingHello := Delete(pendingHello, executorId);
        Drop(executorId);
      }
    }

    method Revoke(executorId: string)
      requires Valid()
      modifies this`connections, this`staleExecutors, this`pendingHello, listener, sinks`ended
      ensures listener.State() == RevokeConnection(old(listener.State()), executorId)
    {
      hide Indexed, Numbered, Answered, Capped, Disconnect, Delete;
      pendingHello := Delete(pendingHello, executorId);
      staleExecutors := Delete(staleExecutors, executorId);
      if executorId in connections {
        EndAndDrop(executorId);
      }
    }

    /** Asking for presence is what notices a silent connection. */
    method Presence(executorId: string) returns (presence: ConnectHub.Presence)
      requires Heard() && RoutesInv(listener.State())
      modifies this`connections, this`staleExecutors, this`pendingHello, listener, sinks`ended
      ensures (listener.State(), presence) == Look(old(listener.State()), executorId)
    {
      hide Indexed, Numbered, Answered, Capped, FenceExecutor, Delete, Prune, Set, Trim;
      PruneBoth();
      if executorId !in connections {
        return if executorId in staleExecutors.values then Stale else Offline;
      }
      if clock - connections[executorId].lastActivityMs > STALE_AFTER_MS {
        sinks.ended := sinks.ended + {connections[executorId].sink};
        connections := connections - {executorId};
        MarkStale(executorId);
        listener.FenceExecutor(executorId);
        return Stale;
      }
      return Online;
    }

    method Dispatch(executorId: string) returns (failure: Option<Outcome>)
      requires Valid()
      modifies this`connections, this`staleExecutors, this`pendingHello, listener, sinks`ended
      ensures (listener.State(), failure) == ConnectHub.Dispatch(old(listener.State()), executorId)
    {
      LookKeeps(listener.State(), executorId);
      hide Indexed, Numbered, Answered, Capped, Disconnect, Look, Linked, Connected, Remembered, Owed;
      if executorId !in connections {
        return Some(ExecutorOffline);
      }
      var sink := connections[executorId].sink;
      var presence := Presence(executorId);
      if presence != Online {
        return Some(ExecutorOffline);
      }
      if sink in sinks.ended || sink in sinks.refusing {
        EndAndDrop(executorId);
        return Some(Backpressure);
      }
      return None;
    }

    method Matches(executorId: string, row: ExecutorRow) returns (online: bool)
      requires Heard() && RoutesInv(listener.State())
      modifies this`connections, this`staleExecutors, this`pendingHello, listener, sinks`ended
      ensures (listener.State(), online) == ConnectHub.Matches(old(listener.State()), executorId, row)
    {
      hide Look, RoutesInv;
      if executorId !in connections || connections[executorId].deviceId != row.deviceId
         || connections[executorId].generation != row.generation
      {
        return false;
      }
      var presence := Presence(executorId);
      return presence == Online;
    }
  }

  class ConnectClientRelayService {
    var desktops: JsMap<DesktopLink>
    var byCommand: map<string, Route>
    var byCorrelation: map<string, Route>
    var pending: map<string, Route>
    var rates: map<string, Rate>
    var timers: map<nat, Timer>
    var nextRoute: nat
    ghost var resolved: map<nat, seq<Outcome>>
    ghost var dispatchedOn: map<nat, string>
    ghost var fences: set<string>
    const executors: ConnectExecutorConnectionRegistry
    const sinks: Sinks

    constructor (executors: ConnectExecutorConnectionRegistry)
      requires executors.connections == map[] && executors.staleExecutors == JsMap([], map[])
      requires executors.pendingHello == JsMap([], map[])
      requires executors.sinks.ended == {} && executors.sinks.refusing == {} && executors.sinks.onClose == map[]
      modifies executors`listener
      ensures this.executors == executors && Valid() && executors.listener == this
      ensures State() == EMPTY_HUB.(now := executors.clock)
    {
      this.executors, sinks := executors, executors.sinks;
      desktops, byCommand, byCorrelation, pending := JsMap([], map[]), map[], map[], map[];
      rates, timers, nextRoute, resolved, dispatchedOn, fences := map[], map[], 0, map[], map[], {};
      new;
      hide Inv;
      executors.listener := this;
      EmptyInv(executors.clock);
    }

    /** The state of the relay, the registry and the streams as one value. */
    ghost function State(): Hub
      reads this, executors, sinks
    {
      Hub(desktops, byCommand, byCorrelation, pending, rates,
          executors.connections, executors.staleExecutors, executors.pendingHello,
          sinks.ended, sinks.refusing, sinks.onClose, timers, resolved, dispatchedOn, nextRoute, fences, executors.clock)
    }

    ghost predicate Attached()
      reads this, executors
    {
      executors.listener == this && executors.sinks == sinks
    }

    ghost predicate Valid()
      reads this, executors, sinks
    {
      Attached() && Inv(State())
    }

    method RemoveRoute(route: Route, result: Option<Outcome>)
      modifies this
      ensures State() == Unrouted(old(State()), route, result)
    {
      hide Dropped, Answer;
      byCommand := Dropped(byCommand, route.commandId, route);
      byCorrelation := Dropped(byCorrelation, route.correlationId, route);
      if route.commandId in pending && pending[route.commandId] == route {
        timers, resolved := timers - {route.id}, Answer(resolved, route.id, result);
      }
      pending := Dropped(pending, route.commandId, route);
    }

    method FenceExecutor(executorId: string)
      requires RoutesInv(State())
      modifies this
      ensures State() == ConnectHub.FenceExecutor(old(State()), executorId)
    {
      ghost var h, gone := State(), {};
      NoneGone(h, Some(ExecutorOffline));
      hide RoutesInv, RemoveRoutes, ExecutorRoutes, Unrouted;
      var todo := byCommand.Values;
      ExecutorRoutesListed(h.byCommand, executorId);
      while todo != {}
        invariant RoutesInv(State()) && State() == RemoveRoutes(h, gone, Some(ExecutorOffline))
        invariant Progress(gone, ExecutorRoutes(h.byCommand, executorId), todo, h.byCommand.Values)
        decreases |todo|
      {
        var route :| route in todo;
        todo := todo - {route};
        if route.executorId == executorId {
          RemoveMore(h, gone, {route}, Some(ExecutorOffline));
          RemoveKeepsRoutes(State(), {route}, Some(ExecutorOffline));
          RemoveOne(State(), route, Some(ExecutorOffline));
          RemoveRoute(route, Some(ExecutorOffline));
          gone := gone + {route};
        }
      }
      assert gone == ExecutorRoutes(h.byCommand, executorId);
    }

    method RemoveDesktopRoutes(deviceId: string, fence: Option<string>)
      requires RoutesInv(State())
      modifies this
      ensures State() == ConnectHub.RemoveDesktopRoutes(old(State()), deviceId, fence)
    {
      ghost var h, gone := State(), {};
      NoneGone(h, Some(Unauthorized));
      hide RoutesInv, RemoveRoutes, DeviceRoutes, Unrouted;
      var todo := byCommand.Values;
      DeviceRoutesListed(h.byCommand, deviceId, fence);
      while todo != {}
        invariant RoutesInv(State()) && State() == RemoveRoutes(h, gone, Some(Unauthorized))
        invariant Progress(gone, DeviceRoutes(h.byCommand, deviceId, fence), todo, h.byCommand.Values)
        decreases |todo|
      {
        var route :| route in todo;
        todo := todo - {route};
        if route.deviceId == deviceId && (fence.None? || route.desktopFence == fence.value) {
          RemoveMore(h, gone, {route}, Some(Unauthorized));
          RemoveKeepsRoutes(State(), {route}, Some(Unauthorized));
          RemoveOne(State(), route, Some(Unauthorized));
          RemoveRoute(route, Some(Unauthorized));
          gone := gone + {route};
        }
      }
      assert gone == DeviceRoutes(h.byCommand, deviceId, fence);
    }

    method Close(deviceId: string, fence: string)
      requires RoutesInv(State())
      modifies this
      ensures State() == CloseLink(old(State()), deviceId, fence)
    {
      hide Indexed, Numbered, Answered, Capped, ConnectHub.RemoveDesktopRoutes, Delete;
      if deviceId in desktops.values && desktops.values[deviceId].fence == fence {
        desktops := Delete(desktops, deviceId);
        rates := rates - {deviceId};
        RemoveDesktopRoutes(deviceId, Some(fence));
      }
    }

    /** `end` of a client's stream: its close callback runs before this returns. */
    method EndStream(sink: nat)
      requires RoutesInv(State())
      modifies this, sinks`ended, sinks`onClose
      ensures State() == EndSink(old(State()), sink)
    {
      hide Indexed, Numbered, Answered, Capped, CloseLink;
      if sink !in sinks.ended {
        sinks.ended := sinks.ended + {sink};
        if sink in sinks.onClose {
          var callback := sinks.onClose[sink];
          sinks.onClose := sinks.onClose - {sink};
          Close(callback.deviceId, callback.fence);
        }
      }
    }

    /** `onClose` of a client's stream. */
    method OnStreamClose(sink: nat, deviceId: string, fence: string)
      requires RoutesInv(State())
      modifies this, sinks`onClose
      ensures State() == Watch(old(State()), sink, deviceId, fence)
    {
      hide Indexed, Numbered, Answered, Capped, CloseLink;
      if sink in sinks.ended {
        Close(deviceId, fence);
      } else {
        sinks.onClose := sinks.onClose[sink := Callback(deviceId, fence)];
      }
    }

    /** The takeover of a device's link. */
    method ReplaceLink(previous: DesktopLink)
      requires RoutesInv(State())
      modifies this, sinks`ended, sinks`onClose
      ensures State() == Replace(old(State()), previous)
    {
      EndKeepsRoutes(State(), previous.sink);
      hide RoutesInv, EndSink, ConnectHub.RemoveDesktopRoutes, Delete;
      EndStream(previous.sink);
      RemoveDesktopRoutes(previous.deviceId, Some(previous.fence));
      desktops := Delete(desktops, previous.deviceId);
    }

    /** Close the oldest links until there is room for one more. */
    method EvictLinks()
      requires Inv(State()) && KeyedByDevice(desktops)
      modifies this, sinks`ended, sinks`onClose
      ensures State() == Evict(old(State()))
    {
      ghost var h := State();
      hide Inv, CloseLink, EndSink, Owed, KeyedByDevice;
      while |desktops.keys| >= MAX_CONNECTIONS
        invariant Inv(State()) && KeyedByDevice(desktops) && Evict(State()) == Evict(h)
        decreases |desktops.keys|
      {
        KeyedOldest(desktops);
        var oldest := desktops.values[desktops.keys[0]];
        CloseKeeps(State(), oldest.deviceId, oldest.fence);
        EndKeeps(CloseLink(State(), oldest.deviceId, oldest.fence), oldest.sink);
        InvRoutes(CloseLink(State(), oldest.deviceId, oldest.fence));
        InvRoutes(State());
        Close(oldest.deviceId, oldest.fence);
        EndStream(oldest.sink);
      }
    }

    method Open(actor: Authority, sink: nat, fence: string)
      requires Inv(State()) && KeyedByDevice(desktops)
      modifies this, sinks`ended, sinks`onClose
      ensures State() == OpenLink(old(State()), actor, sink, fence)
    {
      ghost var h := State();
      InvRoutes(h);
      hide Inv, EndSink, Evict, Replace, Owed, KeyedByDevice, RoutesInv, Set;
      if actor.deviceId in desktops.values {
        var previous := desktops.values[actor.deviceId];
        if Conflicts(previous.authority, actor) {
          EndStream(sink);
          fences := h.fences + {fence};
          return;
        }
        ReplaceShrinks(h, actor.deviceId);
        ReplaceKeeps(h, actor.deviceId);
        ReplaceLink(previous);
      }
      EvictLinks();
      fences := h.fences + {fence};
      desktops := Set(desktops, actor.deviceId, DesktopLink(fence, actor.deviceId, actor, sink));
    }

    /** End a device's stream and take its link out of the table. */
    method EndLink(deviceId: string, sink: nat)
      requires RoutesInv(State())
      modifies this, sinks`ended, sinks`onClose
      ensures State() == DropDesktop(EndSink(old(State()), sink), deviceId) && RoutesInv(State())
    {
      hide RoutesInv, EndSink, Delete;
      ghost var h := State();
      EndKeepsRoutes(h, sink);
      EndStream(sink);
      desktops := Delete(desktops, deviceId);
      RoutesOnly(EndSink(h, sink), State());
    }

    method RevokeDesktop(deviceId: string)
      requires RoutesInv(State())
      modifies this, sinks`ended, sinks`onClose
      ensures State() == ConnectHub.RevokeDesktop(old(State()), deviceId)
    {
      hide RoutesInv, EndSink, DropDesktop, ConnectHub.RemoveDesktopRoutes, Delete;
      if deviceId in desktops.values {
        var link := desktops.values[deviceId];
        EndLink(deviceId, link.sink);
        RemoveDesktopRoutes(deviceId, Some(link.fence));
      } else {
        RemoveDesktopRoutes(deviceId, None);
      }
      rates := rates - {deviceId};
    }

    /** One round of the loop of `RevokeExecutor`. */
    method DropVouched(link: DesktopLink)
      requires RoutesInv(State())
      modifies this, sinks`ended, sinks`onClose
      ensures State() == RevokeLink(old(State()), link)
    {
      hide Indexed, Numbered, Answered, Capped, EndSink, DropDesktop, ConnectHub.RemoveDesktopRoutes, Delete;
      EndLink(link.deviceId, link.sink);
      rates := rates - {link.deviceId};
      RemoveDesktopRoutes(link.deviceId, Some(link.fence));
    }

    method RevokeExecutor(executorId: string)
      requires Inv(State()) && KeyedByDevice(desktops)
      modifies this, sinks`ended, sinks`onClose
      ensures State() == ConnectHub.RevokeExecutor(old(State()), executorId)
    {
      ghost var h := State();
      var links, i := Links(desktops), 0;
      LinksRegistered(h);
      hide Inv, RevokeLink, Owed, KeyedByDevice, Links, ConnectHub.FenceExecutor;
      while i < |links|
        invariant 0 <= i <= |links| && Inv(State())
        invariant forall j :: i <= j < |links| ==> LinkOrNone(State(), links[j])
        invariant RevokeLinks(State(), links[i..], executorId) == RevokeLinks(h, links, executorId)
      {
        if VouchedBy(links[i], executorId) {
          RevokeLinkKeeps(State(), links[i]);
          InvRoutes(State());
          DropVouched(links[i]);
        }
        i := i + 1;
      }
      InvRoutes(State());
      FenceExecutor(executorId);
    }

    method TakeRate(deviceId: string) returns (admitted: bool)
      modifies this`rates
      ensures var (rate, taken) := ConnectHub.TakeRate(RateOf(old(State()), deviceId), executors.clock);
        rates == old(rates)[deviceId := rate] && admitted == taken
    {
      var now := executors.clock;
      if deviceId !in rates || now - rates[deviceId].windowStartedMs >= RATE_WINDOW_MS {
        rates := rates[deviceId := Rate(now, 1)];
        return true;
      }
      if rates[deviceId].count >= MAX_COMMANDS_PER_WINDOW {
        assert rates == rates[deviceId := rates[deviceId]];
        return false;
      }
      rates := rates[deviceId := rates[deviceId].(count := rates[deviceId].count + 1)];
      return true;
    }

    /** `command` up to its second await: no answer means it goes on with the link that is registered. */
    method BeginCommand(actor: Authority, frame: Frame, envelope: Option<Outcome>) returns (answer: Option<Outcome>)
      modifies this`rates
      ensures (State(), answer) == Begin(old(State()), actor, frame, envelope)
    {
      hide ConnectHub.TakeRate;
      if envelope.Some? {
        return envelope;
      }
      if actor.deviceId !in desktops.values || desktops.values[actor.deviceId].authority != actor
         || frame.deviceId != actor.deviceId
      {
        return Some(Unauthorized);
      }
      var admitted := TakeRate(actor.deviceId);
      return if admitted then None else Some(Overloaded);
    }

    method DeviceRouteCount(deviceId: string) returns (count: nat)
      ensures count == InFlight(byCommand, deviceId)
    {
      count := 0;
      ghost var seen := {};
      DeviceRoutesListed(byCommand, deviceId, None);
      hide DeviceRoutes;
      var todo := byCommand.Values;
      while todo != {}
        invariant count == |seen| && seen <= DeviceRoutes(byCommand, deviceId, None)
        invariant forall r :: r in todo ==> r in byCommand.Values && r !in seen
        invariant forall r :: r in DeviceRoutes(byCommand, deviceId, None) ==> r in seen || r in todo
        decreases |todo|
      {
        var route :| route in todo;
        todo := todo - {route};
        if route.deviceId == deviceId {
          count, seen := count + 1, seen + {route};
        }
      }
      assert seen == DeviceRoutes(byCommand, deviceId, None);
    }

    /** Index a new route, wait for its acceptance and arm its timer. */
    method Register(route: Route)
      requires Attached() && route.executorId in executors.connections && route.id == nextRoute
      modifies this
      ensures State() == Insert(old(State()), route, executors.connections[route.executorId].fence)
    {
      timers := timers[route.id := Timer(route, executors.clock + ACCEPT_TIMEOUT_MS)];
      pending := pending[route.commandId := route];
      byCommand := byCommand[route.commandId := route];
      byCorrelation := byCorrelation[route.correlationId := route];
      nextRoute := nextRoute + 1;
      resolved := resolved[route.id := []];
      dispatchedOn := dispatchedOn[route.id := executors.connections[route.executorId].fence];
    }

    /** Write the frame of a registered route; a failure answers its promise unless the disconnect that
        the failure caused has done so before `Dispatch` returned. */
    method Send(route: Route)
      requires Attached() && Inv(State())
      modifies this, executors`connections, executors`staleExecutors, executors`pendingHello, sinks`ended
      ensures State() == Written(old(State()), route)
    {
      DispatchKeeps(State(), route.executorId);
      InvRoutes(ConnectHub.Dispatch(State(), route.executorId).0);
      hide Inv, RoutesInv, Dispatch, Owed, RemoveRoutes, Unrouted;
      var failure := executors.Dispatch(route.executorId);
      if failure.Some? && route.commandId in pending && pending[route.commandId] == route {
        RemoveOne(State(), route, failure);
        RemoveRoute(route, failure);
      }
    }

    /** The rest of `command` once its executor has matched. */
    method AdmitCommand(link: DesktopLink, frame: Frame, lag: nat) returns (answer: Option<Outcome>)
      requires Attached() && Inv(State()) && frame.executorId in executors.connections
      requires link.deviceId in desktops.values && desktops.values[link.deviceId] == link
      modifies this, executors`connections, executors`staleExecutors, executors`pendingHello, executors`clock, sinks`ended
      ensures (State(), answer) == Admit(old(State()), link, frame, lag)
    {
      ghost var h := State();
      hide Inv, Owed, Written, Insert, InFlight;
      var inFlight := DeviceRouteCount(link.deviceId);
      if |pending| >= MAX_PENDING_ACCEPTS || |byCommand| >= MAX_ROUTES || inFlight >= MAX_DEVICE_IN_FLIGHT
         || frame.commandId in byCommand || frame.correlationId in byCorrelation
      {
        return Some(Overloaded);
      }
      RegisteredKeeps(h, link, frame, lag);
      hide HasRoom;
      var route := Route(nextRoute, frame.commandId, frame.correlationId, frame.idempotencyKey, frame.executorId,
                         link.deviceId, link.fence, link.authority);
      Register(route);
      executors.clock := executors.clock + lag;
      Send(route);
      return None;
    }

    /** `command` after its second await, with the link it captured before. */
    method FinishCommand(link: DesktopLink, frame: Frame, lookup: Lookup, lag: nat) returns (answer: Option<Outcome>)
      requires Attached() && Inv(State())
      modifies this, executors`connections, executors`staleExecutors, executors`pendingHello, executors`clock, sinks`ended
      ensures (State(), answer) == Finish(old(State()), link, frame, lookup, lag)
    {
      ghost var h := State();
      InvRoutes(h);
      hide Inv, Owed, RoutesInv, ConnectHub.Matches, Admit;
      if lookup.LookupFailed? {
        return Some(ExecutorOffline);
      }
      if link.deviceId !in desktops.values || desktops.values[link.deviceId] != link {
        return Some(Unauthorized);
      }
      if lookup.NotUsable? {
        return Some(ExecutorOffline);
      }
      MatchesKeeps(h, frame.executorId, lookup.row);
      var online := executors.Matches(frame.executorId, lookup.row);
      if !online {
        return Some(ExecutorOffline);
      }
      answer := AdmitCommand(link, frame, lag);
    }

    /** The accept timer of a route. */
    method FireTimer(id: nat)
      requires RoutesInv(State()) && id in timers
      modifies this
      ensures State() == Fire(old(State()), id)
    {
      FireAnswers(State(), id);
      RemoveOne(State(), timers[id].route, Some(AcceptTimeout));
      hide RoutesInv, RemoveRoutes, Fire, Unrouted;
      var route := timers[id].route;
      RemoveRoute(route, Some(AcceptTimeout));
    }

    method AcceptCommand(executorId: string, frame: Frame) returns (routed: bool)
      modifies this
      ensures (State(), routed) == Accept(old(State()), executorId, frame)
    {
      if frame.commandId !in pending || pending[frame.commandId].executorId != executorId
         || pending[frame.commandId].correlationId != frame.correlationId
         || pending[frame.commandId].idempotencyKey != frame.idempotencyKey
      {
        return false;
      }
      var route := pending[frame.commandId];
      timers := timers - {route.id};
      pending := pending - {frame.commandId};
      resolved := Resolve(resolved, {route.id}, Accepted);
      return true;
    }

    /** `removeRoute` without a result. */
    method ForgetRoute(route: Route)
      requires RoutesInv(State())
      modifies this
      ensures State() == RemoveRoutes(old(State()), {route}, None)
    {
      RemoveOne(State(), route, None);
      hide RoutesInv, RemoveRoutes, Unrouted;
      RemoveRoute(route, None);
    }

    method RouteOutput(executorId: string, commandId: Option<string>, correlationId: string, terminal: bool) returns (written: bool)
      requires RoutesInv(State())
      modifies this, sinks`ended, sinks`onClose
      ensures (State(), written) == Output(old(State()), executorId, commandId, correlationId, terminal)
    {
      hide RoutesInv, RemoveRoutes, EndSink, DropDesktop, ConnectHub.RemoveDesktopRoutes;
      var known := if commandId.Some? then commandId.value in byCommand else correlationId in byCorrelation;
      if !known {
        return false;
      }
      var route := if commandId.Some? then byCommand[commandId.value] else byCorrelation[correlationId];
      if route.executorId != executorId {
        return false;
      }
      if route.deviceId !in desktops.values || desktops.values[route.deviceId].fence != route.desktopFence {
        ForgetRoute(route);
        return false;
      }
      var sink := desktops.values[route.deviceId].sink;
      if sink in sinks.ended || sink in sinks.refusing {
        EndLink(route.deviceId, sink);
        RemoveDesktopRoutes(route.deviceId, Some(route.desktopFence));
        return false;
      }
      if terminal {
        ForgetRoute(route);
      }
      return true;
    }
  }
}
