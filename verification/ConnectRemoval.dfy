/** Removing routes one at a time, as the loops of the relay do, removes them all at once. */
module ConnectRemoval {
  import opened Wrappers
  import opened JsMaps
  import opened ConnectHub
  import opened ConnectInvariants
  import opened ConnectKeeps

  function Dropped(routes: map<string, Route>, key: string, route: Route): map<string, Route> {
    if key in routes && routes[key] == route then routes - {key} else routes
  }

  ghost function Answer(resolved: map<nat, seq<Outcome>>, id: nat, result: Option<Outcome>): map<nat, seq<Outcome>> {
    if result.Some? && id in resolved then resolved[id := resolved[id] + [result.value]] else resolved
  }

  /** Forgetting one route, entry by entry. */
  ghost function Unrouted(h: Hub, route: Route, result: Option<Outcome>): Hub {
    h.(byCommand := Dropped(h.byCommand, route.commandId, route),
       byCorrelation := Dropped(h.byCorrelation, route.correlationId, route),
       pending := Dropped(h.pending, route.commandId, route),
       timers := if Waits(h, route) then h.timers - {route.id} else h.timers,
       resolved := if Waits(h, route) then Answer(h.resolved, route.id, result) else h.resolved)
  }

  lemma KeptOne(routes: map<string, Route>, key: string, route: Route)
    requires forall k :: k in routes && routes[k] == route ==> k == key
    ensures Kept(routes, {route}) == Dropped(routes, key, route)
  {
  }

  lemma KeptEach(h: Hub, route: Route)
    requires Indexed(h.byCommand, h.byCorrelation, h.pending)
    ensures Kept(h.byCommand, {route}) == Dropped(h.byCommand, route.commandId, route)
    ensures Kept(h.byCorrelation, {route}) == Dropped(h.byCorrelation, route.correlationId, route)
    ensures Kept(h.pending, {route}) == Dropped(h.pending, route.commandId, route)
    ensures Released(h.pending, {route}) == if Waits(h, route) then {route.id} else {}
  {
    KeptOne(h.byCommand, route.commandId, route);
    KeptOne(h.byCorrelation, route.correlationId, route);
    KeptOne(h.pending, route.commandId, route);
    hide Kept, Dropped;
    if Waits(h, route) {
      ReleasedOne(h, route);
    } else {
      NothingReleased(h, route);
    }
  }

  lemma RemoveOne(h: Hub, route: Route, result: Option<Outcome>)
    requires RoutesInv(h)
    ensures RemoveRoutes(h, {route}, result) == Unrouted(h, route, result)
  {
    hide Indexed, Capped, Numbered, Once, Awaited, Kept, Dropped, Released, Resolve;
    KeptEach(h, route);
    if Waits(h, route) {
      if result.Some? {
        ResolveOne(h.resolved, route.id, result.value);
        assert [] + [result.value] == [result.value];
      }
    } else {
      ResolveNone(h.resolved, result);
    }
  }

  lemma ResolveNone(resolved: map<nat, seq<Outcome>>, result: Option<Outcome>)
    ensures result.Some? ==> Resolve(resolved, {}, result.value) == resolved
  {
  }

  lemma ReleasedSplit(pending: map<string, Route>, a: set<Route>, b: set<Route>)
    ensures Released(pending, a + b) == Released(pending, a) + Released(Kept(pending, a), b)
    ensures Kept(Kept(pending, a), b) == Kept(pending, a + b)
  {
    var kept := Kept(pending, a);
    forall i | i in Released(pending, a + b) ensures i in Released(pending, a) + Released(kept, b) {
      var c :| c in pending && pending[c] in a + b && pending[c].id == i;
      if pending[c] !in a {
        assert c in kept && kept[c] in b;
      }
    }
  }

  lemma ResolveSplit(resolved: map<nat, seq<Outcome>>, a: set<nat>, b: set<nat>, outcome: Outcome)
    requires forall i :: i in a ==> i !in b
    ensures Resolve(Resolve(resolved, a, outcome), b, outcome) == Resolve(resolved, a + b, outcome)
  {
  }

  lemma ReleasedApart(h: Hub, a: set<Route>, b: set<Route>, i: nat)
    requires Indexed(h.byCommand, h.byCorrelation, h.pending) && Numbered(h.byCommand, h.nextRoute)
    requires i in Released(h.pending, a)
    ensures i !in Released(Kept(h.pending, a), b)
  {
    var c :| c in h.pending && h.pending[c] in a && h.pending[c].id == i;
    forall d | d in Kept(h.pending, a) ensures h.pending[d].id != i {
      if d != c {
        PendingDistinct(h, c, d);
      }
    }
  }

  lemma TimersSplit(timers: map<nat, Timer>, a: set<nat>, b: set<nat>)
    ensures timers - a - b == timers - (a + b)
  {
  }

  /** Removing routes in two rounds is removing them in one. */
  lemma RemoveMore(h: Hub, done: set<Route>, more: set<Route>, result: Option<Outcome>)
    requires RoutesInv(h)
    ensures RemoveRoutes(RemoveRoutes(h, done, result), more, result) == RemoveRoutes(h, done + more, result)
  {
    hide Indexed, Numbered, Answered, Capped, Kept, Released, Resolve;
    ReleasedSplit(h.byCommand, done, more);
    ReleasedSplit(h.byCorrelation, done, more);
    ReleasedSplit(h.pending, done, more);
    TimersSplit(h.timers, Released(h.pending, done), Released(Kept(h.pending, done), more));
    forall i | i in Released(h.pending, done) ensures i !in Released(Kept(h.pending, done), more) {
      ReleasedApart(h, done, more, i);
    }
    if result.Some? {
      ResolveSplit(h.resolved, Released(h.pending, done), Released(Kept(h.pending, done), more), result.value);
    }
  }

  lemma NoneGone(h: Hub, result: Option<Outcome>)
    ensures RemoveRoutes(h, {}, result) == h
  {
    assert Released(h.pending, {}) == {};
  }

  /** Of the routes to remove, those in `gone` are removed and the others are still to be visited. */
  ghost predicate Progress(gone: set<Route>, target: set<Route>, todo: set<Route>, all: set<Route>) {
    gone <= target && (forall r :: r in todo ==> r in all) && forall r :: r in target ==> r in gone || r in todo
  }

  lemma ExecutorRoutesListed(byCommand: map<string, Route>, executorId: string)
    ensures forall r :: r in ExecutorRoutes(byCommand, executorId) <==> r in byCommand.Values && r.executorId == executorId
  {
  }

  lemma DeviceRoutesListed(byCommand: map<string, Route>, deviceId: string, fence: Option<string>)
    ensures forall r :: r in DeviceRoutes(byCommand, deviceId, fence) <==>
      r in byCommand.Values && r.deviceId == deviceId && (fence.None? || r.desktopFence == fence.value)
  {
  }

  lemma InvRoutes(h: Hub)
    requires Inv(h)
    ensures RoutesInv(h)
  {
  }

  lemma RoutesOnly(h: Hub, h': Hub)
    requires RoutesInv(h)
    requires h'.byCommand == h.byCommand && h'.byCorrelation == h.byCorrelation && h'.pending == h.pending
    requires h'.timers == h.timers && h'.resolved == h.resolved && h'.nextRoute == h.nextRoute
    ensures RoutesInv(h')
  {
  }

  lemma EndKeepsRoutes(h: Hub, sink: nat)
    requires RoutesInv(h)
    ensures RoutesInv(EndSink(h, sink))
  {
    hide Indexed, Numbered, Answered, Capped, RemoveRoutes;
    if sink !in h.ended && sink in h.onClose {
      var marked := h.(ended := h.ended + {sink}, onClose := h.onClose - {sink});
      var callback := h.onClose[sink];
      var closed := marked.(desktops := Delete(h.desktops, callback.deviceId), rates := h.rates - {callback.deviceId});
      RoutesOnly(h, closed);
      RemoveKeepsRoutes(closed, DeviceRoutes(h.byCommand, callback.deviceId, Some(callback.fence)), Some(Unauthorized));
    }
  }

  lemma KeyedOldest(desktops: JsMap<DesktopLink>)
    requires KeyedByDevice(desktops) && desktops.keys != []
    ensures desktops.keys[0] in desktops.values
  {
  }

  lemma ReplaceKeeps(h: Hub, deviceId: string)
    requires Inv(h) && deviceId in h.desktops.values
    ensures Inv(Replace(h, h.desktops.values[deviceId])) && h.desktops.values[deviceId].deviceId == deviceId
  {
    InvLinkDevice(h, deviceId);
    hide Inv, EndSink, RemoveRoutes;
    EndAndForget(h, deviceId, h.desktops.values[deviceId].sink, h.desktops.values[deviceId].fence);
  }

  lemma LinksRegistered(h: Hub)
    requires Inv(h) && KeyedByDevice(h.desktops)
    ensures forall i :: 0 <= i < |Links(h.desktops)| ==> LinkOrNone(h, Links(h.desktops)[i])
  {
  }
}
