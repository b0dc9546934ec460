/** What presence, hellos and failed dispatches come to. */
module ConnectPresence {
  import opened Wrappers
  import opened JsMaps
  import opened ConnectHub
  import opened ConnectInvariants
  import opened ConnectKeeps

  lemma WaitingReleased(h: Hub, gone: set<Route>, route: Route)
    requires RoutesInv(h) && Waits(h, route) && route in gone
    ensures route.id in Released(h.pending, gone) && route.id in h.resolved && h.resolved[route.id] == []
    ensures route.commandId !in Kept(h.pending, gone)
  {
    assert h.pending[route.commandId] in gone;
  }

  /** Losing its executor answers a waiting route at once, whatever the reason, and whatever else has changed. */
  lemma FenceAnswersWaiting(h: Hub, h': Hub, route: Route)
    requires RoutesInv(h) && Waits(h, route)
    requires h'.byCommand == h.byCommand && h'.pending == h.pending && h'.resolved == h.resolved
    ensures var fenced := FenceExecutor(h', route.executorId);
      !Waits(fenced, route) && route.id in fenced.resolved && fenced.resolved[route.id] == [ExecutorOffline]
  {
    var gone := ExecutorRoutes(h.byCommand, route.executorId);
    assert h.byCommand[route.commandId] == route && route in gone;
    WaitingReleased(h, gone, route);
    hide RoutesInv, ExecutorRoutes, Kept, Released;
  }

  /** A dispatch that fails has answered the waiting route before it returns: the failure it reports, back
      pressure in particular, reaches no caller. */
  lemma FailedDispatchHasAnswered(h: Hub, route: Route)
    requires Inv(h) && Waits(h, route) && Dispatch(h, route.executorId).1.Some?
    ensures var dispatched := Dispatch(h, route.executorId).0;
      && !Waits(dispatched, route) && Written(h, route) == dispatched
      && route.id in dispatched.resolved && dispatched.resolved[route.id] == [ExecutorOffline]
  {
    hide Inv, RoutesInv, Dispatch, FenceExecutor, Waits;
    WaitingConnected(h, route);
    var fenced := FailedDispatchFences(h, route.executorId);
    FenceAnswersWaiting(h, fenced, route);
  }

  /** A dispatch to a connected executor fails by disconnecting it: for silence or for back pressure. */
  lemma FailedDispatchFences(h: Hub, executorId: string) returns (h': Hub)
    requires executorId in h.connections && Dispatch(h, executorId).1.Some?
    ensures h'.byCommand == h.byCommand && h'.pending == h.pending && h'.resolved == h.resolved
    ensures Dispatch(h, executorId).0 == FenceExecutor(h', executorId)
  {
    hide FenceExecutor, Prune, Trim, Set, Delete;
    var cut := PruneStale(PruneHellos(h)).(
      ended := h.ended + {h.connections[executorId].sink}, connections := h.connections - {executorId});
    h' := if Quiet(h, executorId) then MarkStale(cut, executorId) else cut;
  }

  lemma WaitingConnected(h: Hub, route: Route)
    requires Inv(h) && Waits(h, route)
    ensures route.executorId in h.connections && RoutesInv(h)
  {
    assert h.byCommand[route.commandId] == route;
  }

  /** An executor is online exactly while it is connected and was heard within 45 seconds; it is stale when its
      silence is noticed, and from then on until its tombstone expires. */
  lemma PresenceExact(h: Hub, executorId: string)
    requires Remembered(h.connections, h.stale, h.hellos)
    ensures var presence := Look(h, executorId).1;
      && (presence == Online <==> executorId in h.connections && h.now - h.connections[executorId].lastActivityMs <= 45_000)
      && (presence == Stale <==>
            if executorId in h.connections then h.now - h.connections[executorId].lastActivityMs > 45_000
            else executorId in h.stale.values && h.now < h.stale.values[executorId])
  {
    PruneExact(h.stale, h.stale.keys, TombstoneExpired(h.now));
    assert executorId in h.stale.values <==> executorId in h.stale.keys;
    hide Prune, Trim, Set, Delete, FenceExecutor, Ordered;
  }

  lemma SilenceNoticed(h: Hub, executorId: string)
    requires Remembered(h.connections, h.stale, h.hellos) && executorId in h.connections && Quiet(h, executorId)
    ensures var noticed := Look(h, executorId).0;
      && executorId !in noticed.connections && Remembered(noticed.connections, noticed.stale, noticed.hellos)
      && executorId in noticed.stale.values && noticed.stale.values[executorId] == h.now + 45_000
      && noticed.now == h.now && noticed.stale.keys != [] && noticed.stale.keys[|noticed.stale.keys| - 1] == executorId
  {
    hide Prune, Trim, Set, Delete, Kept, Released, Resolve, Ordered, Remembered;
    var pruned := PruneStale(PruneHellos(h));
    PruneRemembers(h);
    var cut := pruned.(ended := h.ended + {h.connections[executorId].sink}, connections := h.connections - {executorId});
    FewerRemembers(h.connections, pruned.stale, pruned.hellos, executorId);
    MarkRemembers(cut, executorId);
    assert Ordered(cut.stale) by { RememberedOrdered(pruned); }
    NewestKept(cut.stale, executorId, h.now + STALE_TOMBSTONE_TTL_MS);
  }

  lemma RememberedOrdered(h: Hub)
    requires Remembered(h.connections, h.stale, h.hellos)
    ensures Ordered(h.stale) && Ordered(h.hellos)
  {
  }

  /** An entry that is set last survives the trimming. */
  lemma NewestKept(stale: JsMap<int>, executorId: string, expiresAtMs: int)
    requires Ordered(stale)
    ensures var trimmed := Trim(Set(Delete(stale, executorId), executorId, expiresAtMs), MAX_STALE_TOMBSTONES);
      && executorId in trimmed.values && trimmed.values[executorId] == expiresAtMs
      && trimmed.keys != [] && trimmed.keys[|trimmed.keys| - 1] == executorId
  {
    var marked := Set(Delete(stale, executorId), executorId, expiresAtMs);
    DeleteOrdered(stale, executorId);
    SetOrdered(Delete(stale, executorId), executorId, expiresAtMs);
    assert marked.keys[|marked.keys| - 1] == executorId by { WithoutOrdered(stale.keys, executorId); }
    TrimNewest(marked, MAX_STALE_TOMBSTONES);
    var trimmed := Trim(marked, MAX_STALE_TOMBSTONES);
    assert trimmed.keys[|trimmed.keys| - 1] == executorId;
    hide Trim, Delete, Without;
  }

  /** Opening a channel acknowledges exactly a hello of the same generation that came within 30 seconds, and
      then forgets it; the connection is up unless that acknowledgement cannot be written. */
  lemma HelloAcknowledged(h: Hub, executorId: string, deviceId: string, generation: nat, sink: nat, fence: string)
    requires Remembered(h.connections, h.stale, h.hellos)
    ensures var h' := OpenExecutor(h, executorId, deviceId, generation, sink, fence);
      var greeted := executorId in h.hellos.values && h.hellos.values[executorId].generation == generation
        && h.hellos.values[executorId].expiresAtMs > h.now;
      && (greeted ==> executorId !in h'.hellos.values)
      && (executorId in h'.connections <==> !greeted || Writes(ReplaceConnection(PruneStale(PruneHellos(h)), executorId), sink))
      && (executorId in h'.connections ==>
            h'.connections[executorId] == ExecutorLink(fence, executorId, deviceId, generation, sink, h.now))
  {
    hide PruneStale, PruneHellos, ReplaceConnection, Remembered, Delete;
    PrunedHello(h, executorId);
    ReplaceLeaves(PruneStale(PruneHellos(h)), executorId);
    DeletedHello(ReplaceConnection(PruneStale(PruneHellos(h)), executorId).hellos, executorId);
  }

  lemma DeletedHello(hellos: JsMap<PendingHello>, executorId: string)
    ensures executorId !in Delete(hellos, executorId).values
  {
  }

  lemma PrunedHello(h: Hub, executorId: string)
    requires Remembered(h.connections, h.stale, h.hellos)
    ensures var hellos := PruneStale(PruneHellos(h)).hellos;
      && (executorId in hellos.values <==> executorId in h.hellos.values && h.hellos.values[executorId].expiresAtMs > h.now)
      && (executorId in hellos.values ==> hellos.values[executorId] == h.hellos.values[executorId])
    ensures PruneStale(PruneHellos(h)).now == h.now
  {
    PruneExact(h.hellos, h.hellos.keys, HelloExpired(h.now));
    assert executorId in h.hellos.values <==> executorId in h.hellos.keys;
    hide Prune, Ordered;
  }

  lemma ReplaceLeaves(h: Hub, executorId: string)
    ensures ReplaceConnection(h, executorId).hellos == h.hellos && executorId !in ReplaceConnection(h, executorId).connections
  {
  }
}
