/**
 What every operation of the relay and the registry keeps. The predicates look at single
 fields, so that an operation is examined once for each field it writes.
 */
module ConnectInvariants {
  import opened Wrappers
  import opened FiniteSets
  import opened JsMaps
  import opened ConnectHub

  /** Both indexes hold the same routes and the pending entries are a part of them. */
  ghost predicate Indexed(byCommand: map<string, Route>, byCorrelation: map<string, Route>, pending: map<string, Route>) {
    && (forall c :: c in byCommand ==>
          byCommand[c].commandId == c && byCommand[c].correlationId in byCorrelation
          && byCorrelation[byCommand[c].correlationId] == byCommand[c])
    && (forall x :: x in byCorrelation ==>
          byCorrelation[x].correlationId == x && byCorrelation[x].commandId in byCommand
          && byCommand[byCorrelation[x].commandId] == byCorrelation[x])
    && (forall c :: c in pending ==> c in byCommand && byCommand[c] == pending[c])
  }

  ghost predicate Numbered(byCommand: map<string, Route>, nextRoute: nat) {
    && (forall c :: c in byCommand ==> byCommand[c].id < nextRoute)
    && (forall a, b :: a in byCommand && b in byCommand && a != b ==> byCommand[a].id != byCommand[b].id)
  }

  /** Every promise made so far is resolved at most once. */
  ghost predicate Once(resolved: map<nat, seq<Outcome>>, nextRoute: nat) {
    && (forall i: nat :: i in resolved <==> i < nextRoute)
    && (forall i :: i in resolved ==> |resolved[i]| <= 1)
  }

  /** A pending promise is unresolved and its timer is armed. */
  ghost predicate Armed(pending: map<string, Route>, timers: map<nat, Timer>, resolved: map<nat, seq<Outcome>>) {
    forall c :: c in pending ==>
      && pending[c].id in resolved && resolved[pending[c].id] == []
      && pending[c].id in timers && timers[pending[c].id].route == pending[c]
  }

  /** No other timer is armed. */
  ghost predicate Awaited(pending: map<string, Route>, timers: map<nat, Timer>) {
    forall i :: i in timers ==>
      && timers[i].route.id == i && timers[i].route.commandId in pending
      && pending[timers[i].route.commandId] == timers[i].route
  }

  ghost predicate Answered(pending: map<string, Route>, timers: map<nat, Timer>, resolved: map<nat, seq<Outcome>>, nextRoute: nat) {
    Once(resolved, nextRoute) && Armed(pending, timers, resolved) && Awaited(pending, timers)
  }

  /** Every route belongs to the client link that is registered for its device. */
  ghost predicate Linked(byCommand: map<string, Route>, desktops: JsMap<DesktopLink>) {
    && Ordered(desktops) && |desktops.keys| <= MAX_CONNECTIONS
    && (forall d :: d in desktops.values ==> desktops.values[d].deviceId == d)
    && (forall c :: c in byCommand ==>
          byCommand[c].deviceId in desktops.values && desktops.values[byCommand[c].deviceId].fence == byCommand[c].desktopFence)
  }

  /** Every route's executor is connected, on the very connection the route was registered against. */
  ghost predicate Connected(byCommand: map<string, Route>, connections: map<string, ExecutorLink>, dispatchedOn: map<nat, string>) {
    && (forall e :: e in connections ==> connections[e].executorId == e)
    && (forall c :: c in byCommand ==>
          byCommand[c].executorId in connections && byCommand[c].id in dispatchedOn
          && dispatchedOn[byCommand[c].id] == connections[byCommand[c].executorId].fence)
  }

  ghost predicate Capped(byCommand: map<string, Route>, pending: map<string, Route>) {
    && |byCommand| <= MAX_ROUTES && |pending| <= MAX_PENDING_ACCEPTS
    && forall d :: InFlight(byCommand, d) <= MAX_DEVICE_IN_FLIGHT
  }

  /** An executor is never both connected and remembered as stale, and the side tables stay bounded. */
  ghost predicate Remembered(connections: map<string, ExecutorLink>, stale: JsMap<int>, hellos: JsMap<PendingHello>) {
    && Ordered(stale) && |stale.keys| <= MAX_STALE_TOMBSTONES
    && Ordered(hellos) && |hellos.keys| <= MAX_PENDING_HELLOS
    && forall e :: e in connections ==> e !in stale.values
  }

  ghost predicate RoutesInv(h: Hub) {
    && Indexed(h.byCommand, h.byCorrelation, h.pending)
    && Numbered(h.byCommand, h.nextRoute)
    && Answered(h.pending, h.timers, h.resolved, h.nextRoute)
    && Capped(h.byCommand, h.pending)
  }

  ghost predicate Inv(h: Hub) {
    && RoutesInv(h)
    && Linked(h.byCommand, h.desktops)
    && Connected(h.byCommand, h.connections, h.dispatchedOn)
    && Remembered(h.connections, h.stale, h.hellos)
  }

  lemma EmptyInv(now: int)
    ensures Inv(EMPTY_HUB.(now := now))
  {
    assert forall d :: DeviceRoutes(map[], d, None) == {};
  }

  /** Every promise not yet resolved still has its pending entry: no caller is orphaned. */
  ghost predicate OwedBy(pending: map<string, Route>, timers: map<nat, Timer>, resolved: map<nat, seq<Outcome>>) {
    forall i :: i in resolved && resolved[i] == [] ==>
      && i in timers && timers[i].route.id == i
      && timers[i].route.commandId in pending && pending[timers[i].route.commandId] == timers[i].route
  }

  ghost predicate Owed(h: Hub) {
    OwedBy(h.pending, h.timers, h.resolved)
  }

  // ------------------------------------------------------------ forgetting routes

  lemma KeptCapped(byCommand: map<string, Route>, pending: map<string, Route>, gone: set<Route>)
    requires Capped(byCommand, pending)
    ensures Capped(Kept(byCommand, gone), Kept(pending, gone))
  {
    FewerKeys(byCommand, Kept(byCommand, gone));
    FewerKeys(pending, Kept(pending, gone));
    forall d ensures InFlight(Kept(byCommand, gone), d) <= MAX_DEVICE_IN_FLIGHT {
      SubsetSize(DeviceRoutes(Kept(byCommand, gone), d, None), DeviceRoutes(byCommand, d, None));
      assert InFlight(byCommand, d) <= MAX_DEVICE_IN_FLIGHT;
    }
  }

  /** A released identity belongs to the pending route that is gone, to no other. */
  lemma ReleasedExactly(h: Hub, gone: set<Route>, c: string)
    requires Indexed(h.byCommand, h.byCorrelation, h.pending) && Numbered(h.byCommand, h.nextRoute) && c in h.pending
    ensures h.pending[c].id in Released(h.pending, gone) <==> h.pending[c] in gone
  {
  }

  lemma ReleasedOnce(resolved: map<nat, seq<Outcome>>, nextRoute: nat, ids: set<nat>, outcome: Outcome)
    requires Once(resolved, nextRoute) && forall i :: i in ids ==> i in resolved && resolved[i] == []
    ensures Once(Resolve(resolved, ids, outcome), nextRoute)
  {
  }

  lemma RemoveArmed(h: Hub, gone: set<Route>, resolved: map<nat, seq<Outcome>>)
    requires Armed(h.pending, h.timers, h.resolved)
    requires forall c :: c in h.pending ==> (h.pending[c].id in Released(h.pending, gone) <==> h.pending[c] in gone)
    requires forall i :: i in h.resolved && i !in Released(h.pending, gone) ==> i in resolved && resolved[i] == h.resolved[i]
    ensures Armed(Kept(h.pending, gone), h.timers - Released(h.pending, gone), resolved)
  {
    hide Released;
  }

  lemma RemoveAwaited(h: Hub, gone: set<Route>)
    requires Awaited(h.pending, h.timers)
    requires forall c :: c in h.pending ==> (h.pending[c].id in Released(h.pending, gone) <==> h.pending[c] in gone)
    ensures Awaited(Kept(h.pending, gone), h.timers - Released(h.pending, gone))
  {
    hide Released;
  }

  lemma RemoveAnswers(h: Hub, gone: set<Route>, result: Option<Outcome>)
    requires RoutesInv(h)
    ensures var h' := RemoveRoutes(h, gone, result); Answered(h'.pending, h'.timers, h'.resolved, h'.nextRoute)
  {
    forall c | c in h.pending ensures h.pending[c].id in Released(h.pending, gone) <==> h.pending[c] in gone {
      ReleasedExactly(h, gone, c);
    }
    assert forall i :: i in Released(h.pending, gone) ==> i in h.resolved && h.resolved[i] == [];
    hide Indexed, Numbered, Capped, Released, Once, Armed, Awaited, Kept;
    RemoveArmed(h, gone, RemoveRoutes(h, gone, result).resolved);
    RemoveAwaited(h, gone);
    if result.Some? {
      ReleasedOnce(h.resolved, h.nextRoute, Released(h.pending, gone), result.value);
    }
  }

  lemma RemoveKeepsRoutes(h: Hub, gone: set<Route>, result: Option<Outcome>)
    requires RoutesInv(h)
    ensures RoutesInv(RemoveRoutes(h, gone, result))
  {
    RemoveAnswers(h, gone, result);
    KeptCapped(h.byCommand, h.pending, gone);
  }

  lemma RemoveKeeps(h: Hub, gone: set<Route>, result: Option<Outcome>)
    requires Inv(h)
    ensures Inv(RemoveRoutes(h, gone, result))
  {
    RemoveKeepsRoutes(h, gone, result);
  }

  /** Forgetting routes with a result orphans nobody. */
  lemma RemovePays(h: Hub, gone: set<Route>, outcome: Outcome)
    requires RoutesInv(h) && Owed(h)
    ensures Owed(RemoveRoutes(h, gone, Some(outcome)))
  {
    var h' := RemoveRoutes(h, gone, Some(outcome));
    forall i | i in h'.resolved && h'.resolved[i] == []
      ensures i in h'.timers && Waits(h', h'.timers[i].route) && h'.timers[i].route.id == i
    {
      ReleasedExactly(h, gone, h.timers[i].route.commandId);
    }
  }
}
