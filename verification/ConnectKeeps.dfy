/** Each operation of the relay and the registry keeps the shared invariants. */
module ConnectKeeps {
  import opened Wrappers
  import opened FiniteSets
  import opened JsMaps
  import opened ConnectHub
  import opened ConnectInvariants

  /** From `h` to `h'` the invariants survive and nobody's promise is lost. */
  ghost predicate Keeps(h: Hub, h': Hub) {
    Inv(h') && (Owed(h) ==> Owed(h'))
  }

  /** Forgetting routes with an answer. */
  lemma ForgetKeeps(h: Hub, gone: set<Route>, outcome: Outcome)
    requires Inv(h)
    ensures Keeps(h, RemoveRoutes(h, gone, Some(outcome)))
  {
    hide RoutesInv, Owed;
    RemoveKeeps(h, gone, Some(outcome));
    if Owed(h) {
      RemovePays(h, gone, outcome);
    }
  }

  // ------------------------------------------------------------ client links

  /** The link of a device may go once its routes have gone. */
  lemma UnlinkedDevice(h: Hub, deviceId: string, fence: Option<string>)
    requires Linked(h.byCommand, h.desktops)
    requires deviceId in h.desktops.values && fence.Some? ==> h.desktops.values[deviceId].fence == fence.value
    ensures Linked(Kept(h.byCommand, DeviceRoutes(h.byCommand, deviceId, fence)), Delete(h.desktops, deviceId))
  {
    DeleteOrdered(h.desktops, deviceId);
    var gone := DeviceRoutes(h.byCommand, deviceId, fence);
    forall c | c in Kept(h.byCommand, gone) ensures h.byCommand[c].deviceId != deviceId {
      assert h.byCommand[c] !in gone;
    }
  }

  lemma WithDesktops(h: Hub, h': Hub, desktops: JsMap<DesktopLink>, rates: map<string, Rate>)
    requires Keeps(h, h') && Linked(h'.byCommand, desktops)
    ensures Keeps(h, h'.(desktops := desktops, rates := rates))
  {
    hide Indexed, Numbered, Answered, Capped, Linked, Connected, Remembered, OwedBy;
  }

  /** A device loses its link and its routes together, in whichever order the code does it. */
  lemma ForgetDevice(h: Hub, deviceId: string, fence: Option<string>, rates: map<string, Rate>)
    requires Inv(h)
    requires deviceId in h.desktops.values && fence.Some? ==> h.desktops.values[deviceId].fence == fence.value
    ensures Keeps(h, RemoveDesktopRoutes(h.(desktops := Delete(h.desktops, deviceId), rates := rates), deviceId, fence))
    ensures Keeps(h, RemoveDesktopRoutes(h, deviceId, fence).(desktops := Delete(h.desktops, deviceId)))
  {
    var h' := RemoveDesktopRoutes(h, deviceId, fence);
    ForgetKeeps(h, DeviceRoutes(h.byCommand, deviceId, fence), Unauthorized);
    UnlinkedDevice(h, deviceId, fence);
    hide Inv, Keeps;
    WithDesktops(h, h', Delete(h.desktops, deviceId), rates);
    WithDesktops(h, h', Delete(h.desktops, deviceId), h.rates);
  }

  lemma CloseKeeps(h: Hub, deviceId: string, fence: string)
    requires Inv(h)
    ensures Keeps(h, CloseLink(h, deviceId, fence))
    ensures Shrinks(h, CloseLink(h, deviceId, fence))
  {
    hide Inv;
    if deviceId in h.desktops.values && h.desktops.values[deviceId].fence == fence {
      ForgetDevice(h, deviceId, Some(fence), h.rates - {deviceId});
    }
  }

  /** Links only disappear. */
  ghost predicate Shrinks(h: Hub, h': Hub) {
    forall d :: d in h'.desktops.values ==> d in h.desktops.values && h'.desktops.values[d] == h.desktops.values[d]
  }

  /** What a step may do besides: sinks, callbacks, rates, drawn fences and the clock. */
  predicate SameTables(h: Hub, h': Hub) {
    && h'.desktops == h.desktops && h'.byCommand == h.byCommand && h'.byCorrelation == h.byCorrelation
    && h'.pending == h.pending && h'.connections == h.connections && h'.stale == h.stale && h'.hellos == h.hellos
    && h'.timers == h.timers && h'.resolved == h.resolved && h'.dispatchedOn == h.dispatchedOn && h'.nextRoute == h.nextRoute
  }

  lemma SameKeeps(h: Hub, h': Hub)
    requires Inv(h) && SameTables(h, h')
    ensures Keeps(h, h')
  {
  }

  lemma EndKeeps(h: Hub, sink: nat)
    requires Inv(h)
    ensures Keeps(h, EndSink(h, sink)) && Shrinks(h, EndSink(h, sink))
  {
    hide Inv, CloseLink;
    if sink !in h.ended {
      var marked := h.(ended := h.ended + {sink}, onClose := h.onClose - {sink});
      SameKeeps(h, marked);
      if sink in h.onClose {
        CloseKeeps(marked, h.onClose[sink].deviceId, h.onClose[sink].fence);
      }
    }
  }

  /** The current link of a device is ended, and whatever of it its own callback left is removed. */
  lemma EndAndForget(h: Hub, deviceId: string, sink: nat, fence: string)
    requires Inv(h) && deviceId in h.desktops.values && h.desktops.values[deviceId].fence == fence
    ensures var ended := EndSink(h, sink);
      && Keeps(h, RemoveDesktopRoutes(DropDesktop(ended, deviceId), deviceId, Some(fence)))
      && Keeps(h, RemoveDesktopRoutes(
           DropDesktop(ended, deviceId).(rates := DropDesktop(ended, deviceId).rates - {deviceId}), deviceId, Some(fence)))
      && Keeps(h, DropDesktop(RemoveDesktopRoutes(ended, deviceId, Some(fence)), deviceId))
  {
    EndKeeps(h, sink);
    var ended := EndSink(h, sink);
    hide Inv, EndSink;
    ForgetDevice(ended, deviceId, Some(fence), ended.rates);
    ForgetDevice(ended, deviceId, Some(fence), ended.rates - {deviceId});
  }

  lemma InvKeyed(h: Hub)
    requires Inv(h)
    ensures KeyedByDevice(h.desktops)
  {
  }

  lemma {:induction false} EvictKeeps(h: Hub)
    requires Inv(h) && KeyedByDevice(h.desktops)
    ensures Keeps(h, Evict(h)) && Shrinks(h, Evict(h))
    decreases |h.desktops.keys|
  {
    hide Inv, CloseLink, EndSink;
    if |h.desktops.keys| >= MAX_CONNECTIONS {
      var oldest := h.desktops.values[h.desktops.keys[0]];
      CloseKeeps(h, oldest.deviceId, oldest.fence);
      EndKeeps(CloseLink(h, oldest.deviceId, oldest.fence), oldest.sink);
      EvictKeeps(EvictOldest(h));
    }
  }

  /** A new link for a device that has none. */
  lemma RegisterKeeps(h: Hub, link: DesktopLink, fences: set<string>)
    requires Inv(h) && link.deviceId !in h.desktops.values && |h.desktops.keys| < MAX_CONNECTIONS
    ensures Keeps(h, h.(fences := fences, desktops := Set(h.desktops, link.deviceId, link)))
  {
    hide Indexed, Numbered, Answered, Capped, Connected, Remembered, OwedBy;
    SetOrdered(h.desktops, link.deviceId, link);
  }

  lemma OpenKeeps(h: Hub, actor: Authority, sink: nat, fence: string)
    requires Inv(h) && KeyedByDevice(h.desktops)
    ensures Keeps(h, OpenLink(h, actor, sink, fence))
  {
    hide Inv, EndSink, Evict;
    if actor.deviceId in h.desktops.values && Conflicts(h.desktops.values[actor.deviceId].authority, actor) {
      EndKeeps(h, sink);
      SameKeeps(EndSink(h, sink), OpenLink(h, actor, sink, fence));
    } else {
      var replaced := if actor.deviceId in h.desktops.values then Replace(h, h.desktops.values[actor.deviceId]) else h;
      ReplaceShrinks(h, actor.deviceId);
      if actor.deviceId in h.desktops.values {
        InvLinkDevice(h, actor.deviceId);
        EndAndForget(h, actor.deviceId, h.desktops.values[actor.deviceId].sink, h.desktops.values[actor.deviceId].fence);
      }
      assert actor.deviceId !in replaced.desktops.values;
      EvictKeeps(replaced);
      RegisterKeeps(Evict(replaced), DesktopLink(fence, actor.deviceId, actor, sink), h.fences + {fence});
    }
  }

  lemma InvLinkDevice(h: Hub, deviceId: string)
    requires Inv(h) && deviceId in h.desktops.values
    ensures h.desktops.values[deviceId].deviceId == deviceId
  {
  }

  lemma WatchKeeps(h: Hub, sink: nat, deviceId: string, fence: string)
    requires Inv(h)
    ensures Keeps(h, Watch(h, sink, deviceId, fence))
  {
    hide Inv, CloseLink;
    if sink in h.ended {
      CloseKeeps(h, deviceId, fence);
    } else {
      SameKeeps(h, Watch(h, sink, deviceId, fence));
    }
  }

  // ------------------------------------------------------------ revocation

  lemma RevokeDesktopKeeps(h: Hub, deviceId: string)
    requires Inv(h)
    ensures Keeps(h, RevokeDesktop(h, deviceId))
  {
    hide Inv, EndSink;
    if deviceId in h.desktops.values {
      var link := h.desktops.values[deviceId];
      EndAndForget(h, deviceId, link.sink, link.fence);
      var cleared := RemoveDesktopRoutes(DropDesktop(EndSink(h, link.sink), deviceId), deviceId, Some(link.fence));
      SameKeeps(cleared, RevokeDesktop(h, deviceId));
    } else {
      ForgetKeeps(h, DeviceRoutes(h.byCommand, deviceId, None), Unauthorized);
      SameKeeps(RemoveDesktopRoutes(h, deviceId, None), RevokeDesktop(h, deviceId));
    }
  }

  /** A link in a copy of the table is still registered, or its device has no link left. */
  ghost predicate LinkOrNone(h: Hub, link: DesktopLink) {
    link.deviceId in h.desktops.values ==> h.desktops.values[link.deviceId] == link
  }

  function ForgottenLink(h: Hub, link: DesktopLink): Hub {
    RemoveDesktopRoutes(
      h.(desktops := Delete(h.desktops, link.deviceId), rates := h.rates - {link.deviceId}), link.deviceId, Some(link.fence))
  }

  lemma ForgetLinkKeeps(h: Hub, link: DesktopLink)
    requires Inv(h) && LinkOrNone(h, link)
    ensures Keeps(h, ForgottenLink(h, link)) && Shrinks(h, ForgottenLink(h, link))
  {
    hide Inv, Owed, Kept, Released, DeviceRoutes, Resolve, Without, Keeps;
    ForgetDevice(h, link.deviceId, Some(link.fence), h.rates - {link.deviceId});
  }

  lemma RevokeLinkKeeps(h: Hub, link: DesktopLink)
    requires Inv(h) && LinkOrNone(h, link)
    ensures Keeps(h, RevokeLink(h, link)) && Shrinks(h, RevokeLink(h, link))
  {
    hide Inv, EndSink, Owed, RemoveDesktopRoutes, Delete;
    EndKeeps(h, link.sink);
    ForgetLinkKeeps(EndSink(h, link.sink), link);
  }

  lemma {:induction false} RevokeLinksKeeps(h: Hub, links: seq<DesktopLink>, executorId: string)
    requires Inv(h) && forall i :: 0 <= i < |links| ==> LinkOrNone(h, links[i])
    ensures Keeps(h, RevokeLinks(h, links, executorId))
    decreases |links|
  {
    hide Inv, RevokeLink;
    if links != [] {
      var h' := if VouchedBy(links[0], executorId) then RevokeLink(h, links[0]) else h;
      RevokeLinkKeeps(h, links[0]);
      SameKeeps(h, h);
      RevokeLinksKeeps(h', links[1..], executorId);
    }
  }

  lemma RevokeExecutorKeeps(h: Hub, executorId: string)
    requires Inv(h)
    ensures KeyedByDevice(h.desktops) && Keeps(h, RevokeExecutor(h, executorId))
  {
    InvKeyed(h);
    var revoked := RevokeLinks(h, Links(h.desktops), executorId);
    hide Inv, RevokeLinks;
    RevokeLinksKeeps(h, Links(h.desktops), executorId);
    ForgetKeeps(revoked, ExecutorRoutes(revoked.byCommand, executorId), ExecutorOffline);
  }

  // ------------------------------------------------------------ executor registry

  lemma FenceKeeps(h: Hub, executorId: string)
    requires Inv(h)
    ensures Keeps(h, FenceExecutor(h, executorId))
    ensures forall c :: c in FenceExecutor(h, executorId).byCommand ==> FenceExecutor(h, executorId).byCommand[c].executorId != executorId
  {
    ForgetKeeps(h, ExecutorRoutes(h.byCommand, executorId), ExecutorOffline);
    var h' := FenceExecutor(h, executorId);
    forall c | c in h'.byCommand ensures h'.byCommand[c].executorId != executorId {
      assert h.byCommand[c] !in ExecutorRoutes(h.byCommand, executorId);
    }
  }

  /** Connections change only for an executor that has no routes (any more). */
  lemma ConnectionsKeep(h: Hub, executorId: string, connections: map<string, ExecutorLink>, stale: JsMap<int>, hellos: JsMap<PendingHello>, ended: set<nat>, fences: set<string>)
    requires Inv(h)
    requires forall c :: c in h.byCommand ==> h.byCommand[c].executorId != executorId
    requires forall e :: e != executorId ==> (e in connections <==> e in h.connections) && (e in connections ==> connections[e] == h.connections[e])
    requires executorId in connections ==> connections[executorId].executorId == executorId
    requires Remembered(connections, stale, hellos)
    ensures Keeps(h, h.(connections := connections, stale := stale, hellos := hellos, ended := ended, fences := fences))
  {
    hide Indexed, Numbered, Answered, Capped, Linked, Remembered, OwedBy;
    assert Connected(h.byCommand, connections, h.dispatchedOn);
    hide Connected;
  }

  /** An executor's connection goes and its routes are answered before anything else runs. */
  lemma DisconnectKeeps(h: Hub, executorId: string, stale: JsMap<int>, hellos: JsMap<PendingHello>, ended: set<nat>)
    requires Inv(h) && Remembered(h.connections - {executorId}, stale, hellos)
    ensures var cut := h.(connections := h.connections - {executorId}, stale := stale, hellos := hellos, ended := ended);
      Keeps(h, FenceExecutor(cut, executorId))
  {
    var fenced := FenceExecutor(h, executorId);
    FenceKeeps(h, executorId);
    hide Inv;
    ConnectionsKeep(fenced, executorId, h.connections - {executorId}, stale, hellos, ended, h.fences);
  }

  /** The side tables alone. */
  lemma TablesKeep(h: Hub, stale: JsMap<int>, hellos: JsMap<PendingHello>)
    requires Inv(h) && Remembered(h.connections, stale, hellos)
    ensures Keeps(h, h.(stale := stale, hellos := hellos))
  {
    hide Indexed, Numbered, Answered, Capped, Linked, Connected, Remembered, OwedBy;
  }

  lemma PruneRemembers(h: Hub)
    requires Remembered(h.connections, h.stale, h.hellos)
    ensures var p := PruneStale(PruneHellos(h)); Remembered(p.connections, p.stale, p.hellos)
    ensures Remembered(h.connections, h.stale, PruneHellos(h).hellos)
  {
    PruneExact(h.hellos, h.hellos.keys, HelloExpired(h.now));
    PruneExact(h.stale, h.stale.keys, TombstoneExpired(h.now));
    hide Prune;
  }

  /** Forgetting a tombstone or a hello. */
  lemma DeleteRemembers(h: Hub, executorId: string)
    requires Remembered(h.connections, h.stale, h.hellos)
    ensures Remembered(h.connections, Delete(h.stale, executorId), h.hellos)
    ensures Remembered(h.connections, Delete(h.stale, executorId), Delete(h.hellos, executorId))
  {
    DeleteOrdered(h.stale, executorId);
    DeleteOrdered(h.hellos, executorId);
  }

  lemma MarkOrdered<V>(m: JsMap<V>, key: string, value: V)
    requires Ordered(m)
    ensures Ordered(Set(Delete(m, key), key, value))
    ensures Set(Delete(m, key), key, value).values.Keys == m.values.Keys + {key}
  {
    DeleteOrdered(m, key);
    SetOrdered(Delete(m, key), key, value);
  }

  lemma TrimmedRemembers(connections: map<string, ExecutorLink>, stale: JsMap<int>, hellos: JsMap<PendingHello>)
    requires Ordered(stale) && Ordered(hellos) && |hellos.keys| <= MAX_PENDING_HELLOS
    requires forall e :: e in connections ==> e !in stale.values
    ensures Remembered(connections, Trim(stale, MAX_STALE_TOMBSTONES), hellos)
  {
    TrimNewest(stale, MAX_STALE_TOMBSTONES);
    hide Ordered, Trim;
  }

  lemma MarkRemembers(h: Hub, executorId: string)
    requires Remembered(h.connections, h.stale, h.hellos) && executorId !in h.connections
    ensures Remembered(h.connections, MarkStale(h, executorId).stale, h.hellos)
  {
    hide Ordered, Trim, Delete, Set, Without;
    var expiresAtMs := h.now + STALE_TOMBSTONE_TTL_MS;
    var marked := Set(Delete(h.stale, executorId), executorId, expiresAtMs);
    MarkOrdered(h.stale, executorId, expiresAtMs);
    forall e | e in h.connections ensures e !in marked.values {
      assert e !in h.stale.values.Keys + {executorId};
    }
    TrimmedRemembers(h.connections, marked, h.hellos);
  }

  lemma FewerRemembers(connections: map<string, ExecutorLink>, stale: JsMap<int>, hellos: JsMap<PendingHello>, executorId: string)
    requires Remembered(connections, stale, hellos)
    ensures Remembered(connections - {executorId}, stale, hellos)
  {
  }

  /** Only the two side tables may differ. */
  predicate SameButTables(h: Hub, h': Hub) {
    h' == h.(stale := h'.stale, hellos := h'.hellos)
  }

  lemma PruneKeeps(h: Hub)
    requires Inv(h)
    ensures var p := PruneStale(PruneHellos(h));
      Keeps(h, p) && SameButTables(h, p) && Remembered(p.connections, p.stale, p.hellos)
  {
    PruneRemembers(h);
    hide Remembered, Prune;
    TablesKeep(h, PruneStale(PruneHellos(h)).stale, PruneHellos(h).hellos);
  }

  lemma DropConnectionKeeps(h: Hub, executorId: string)
    requires Inv(h)
    ensures forall sinks :: Keeps(h, Disconnect(h.(ended := sinks), executorId))
  {
    FewerRemembers(h.connections, h.stale, h.hellos, executorId);
    forall sinks ensures Keeps(h, Disconnect(h.(ended := sinks), executorId)) {
      DisconnectKeeps(h, executorId, h.stale, h.hellos, sinks);
    }
  }

  lemma LookKeeps(h: Hub, executorId: string)
    requires Inv(h)
    ensures Keeps(h, Look(h, executorId).0)
    ensures Look(h, executorId).1 == Online ==> SameButTables(h, Look(h, executorId).0) && executorId in h.connections
  {
    hide Inv, Owed, Remembered, PruneStale, PruneHellos, Trim;
    var pruned := PruneStale(PruneHellos(h));
    PruneKeeps(h);
    if executorId in h.connections && Quiet(h, executorId) {
      var cut := pruned.(connections := h.connections - {executorId});
      FewerRemembers(pruned.connections, pruned.stale, pruned.hellos, executorId);
      MarkRemembers(cut, executorId);
      DisconnectKeeps(pruned, executorId, MarkStale(cut, executorId).stale, pruned.hellos, h.ended + {h.connections[executorId].sink});
    }
  }

  lemma DispatchKeeps(h: Hub, executorId: string)
    requires Inv(h)
    ensures Keeps(h, Dispatch(h, executorId).0)
  {
    hide Inv, Owed, Look;
    LookKeeps(h, executorId);
    if executorId in h.connections {
      DropConnectionKeeps(Look(h, executorId).0, executorId);
    } else {
      SameKeeps(h, h);
    }
  }

  lemma MatchesKeeps(h: Hub, executorId: string, row: ExecutorRow)
    requires Inv(h)
    ensures Keeps(h, Matches(h, executorId, row).0)
    ensures Matches(h, executorId, row).1 ==> SameButTables(h, Matches(h, executorId, row).0) && executorId in h.connections
  {
    hide Inv, Look, Owed;
    LookKeeps(h, executorId);
    SameKeeps(h, h);
  }

  lemma TrimmedHellos(connections: map<string, ExecutorLink>, stale: JsMap<int>, hellos: JsMap<PendingHello>)
    requires Ordered(stale) && |stale.keys| <= MAX_STALE_TOMBSTONES && Ordered(hellos)
    requires forall e :: e in connections ==> e !in stale.values
    ensures Remembered(connections, stale, Trim(hellos, MAX_PENDING_HELLOS))
  {
    TrimNewest(hellos, MAX_PENDING_HELLOS);
    hide Ordered, Trim;
  }

  lemma GreetedRemembers(h: Hub, hellos: JsMap<PendingHello>, executorId: string, hello: PendingHello)
    requires Remembered(h.connections, h.stale, hellos)
    ensures Remembered(h.connections, h.stale, Trim(Set(Delete(hellos, executorId), executorId, hello), MAX_PENDING_HELLOS))
  {
    MarkOrdered(hellos, executorId, hello);
    hide Ordered, Trim, Set, Delete;
    TrimmedHellos(h.connections, h.stale, Set(Delete(hellos, executorId), executorId, hello));
  }

  lemma HelloIs(h: Hub, executorId: string, generation: nat, correlationId: string)
    ensures Hello(h, executorId, generation, correlationId) == h.(hellos := Trim(
      Set(Delete(PruneHellos(h).hellos, executorId), executorId, PendingHello(generation, correlationId, h.now + PENDING_HELLO_TTL_MS)),
      MAX_PENDING_HELLOS))
  {
    hide Trim, Set, Delete, Prune;
  }

  lemma HelloKeeps(h: Hub, executorId: string, generation: nat, correlationId: string)
    requires Inv(h)
    ensures Keeps(h, Hello(h, executorId, generation, correlationId))
  {
    InvRemembers(h);
    HelloIs(h, executorId, generation, correlationId);
    hide Inv, Keeps, Remembered, PruneHellos, Trim, Set, Delete, Hello;
    PruneRemembers(h);
    var hello := PendingHello(generation, correlationId, h.now + PENDING_HELLO_TTL_MS);
    GreetedRemembers(h, PruneHellos(h).hellos, executorId, hello);
    TablesKeep(h, h.stale, Trim(Set(Delete(PruneHellos(h).hellos, executorId), executorId, hello), MAX_PENDING_HELLOS));
  }

  /** Refreshing a connection changes neither its fence nor whose it is. */
  lemma RefreshedConnected(h: Hub, executorId: string, connections: map<string, ExecutorLink>)
    requires Connected(h.byCommand, h.connections, h.dispatchedOn) && executorId in h.connections
    requires connections == h.connections[executorId := h.connections[executorId].(lastActivityMs := h.now)]
    ensures Connected(h.byCommand, connections, h.dispatchedOn)
  {
  }

  lemma TouchKeeps(h: Hub, executorId: string, generation: nat)
    requires Inv(h)
    ensures Keeps(h, TouchExecutor(h, executorId, generation))
  {
    hide Indexed, Numbered, Answered, Capped, Linked, Connected, Remembered, OwedBy, Delete;
    if executorId in h.connections && h.connections[executorId].generation == generation {
      var h' := TouchExecutor(h, executorId, generation);
      RefreshedConnected(h, executorId, h'.connections);
      DeleteRemembers(h, executorId);
      RefreshedRemembers(h.connections, h'.connections, h'.stale, h.hellos);
    }
  }

  lemma RefreshedRemembers(connections: map<string, ExecutorLink>, connections': map<string, ExecutorLink>, stale: JsMap<int>, hellos: JsMap<PendingHello>)
    requires Remembered(connections, stale, hellos) && forall e :: e in connections' ==> e in connections
    ensures Remembered(connections', stale, hellos)
  {
  }

  lemma CloseExecutorKeeps(h: Hub, executorId: string, fence: Option<string>)
    requires Inv(h)
    ensures Keeps(h, CloseExecutor(h, executorId, fence))
  {
    DeleteRemembers(h, executorId);
    FewerRemembers(h.connections, Delete(h.stale, executorId), Delete(h.hellos, executorId), executorId);
    hide Inv, Remembered;
    DisconnectKeeps(h, executorId, Delete(h.stale, executorId), Delete(h.hellos, executorId), h.ended);
    SameKeeps(h, h);
  }

  lemma RevokeConnectionKeeps(h: Hub, executorId: string)
    requires Inv(h)
    ensures Keeps(h, RevokeConnection(h, executorId))
  {
    DeleteRemembers(h, executorId);
    FewerRemembers(h.connections, Delete(h.stale, executorId), Delete(h.hellos, executorId), executorId);
    hide Inv, Remembered;
    if executorId in h.connections {
      DisconnectKeeps(h, executorId, Delete(h.stale, executorId), Delete(h.hellos, executorId),
        h.ended + {h.connections[executorId].sink});
    } else {
      TablesKeep(h, Delete(h.stale, executorId), Delete(h.hellos, executorId));
    }
  }

  lemma ReplaceConnectionKeeps(h: Hub, executorId: string)
    requires Inv(h)
    ensures Keeps(h, ReplaceConnection(h, executorId))
    ensures var r := ReplaceConnection(h, executorId);
      && executorId !in r.connections
      && forall c :: c in r.byCommand ==> r.byCommand[c].executorId != executorId
  {
    if executorId in h.connections {
      DropConnectionKeeps(h, executorId);
      FenceKeeps(h, executorId);
    }
  }

  /** Opening ends without a route for the executor, so the connection may come, and also go again
      unnoticed when its hello cannot be acknowledged. */
  lemma OpenExecutorKeeps(h: Hub, executorId: string, deviceId: string, generation: nat, sink: nat, fence: string)
    requires Inv(h)
    ensures Keeps(h, OpenExecutor(h, executorId, deviceId, generation, sink, fence))
  {
    hide Inv, Owed, Remembered, PruneStale, PruneHellos, ReplaceConnection, Delete;
    var pruned := PruneStale(PruneHellos(h));
    PruneKeeps(h);
    ReplaceConnectionKeeps(pruned, executorId);
    var r := ReplaceConnection(pruned, executorId);
    var link := ExecutorLink(fence, executorId, deviceId, generation, sink, h.now);
    var h' := OpenExecutor(h, executorId, deviceId, generation, sink, fence);
    InvRemembers(r);
    OpenedRemembers(r, executorId, link);
    ConnectionsKeep(r, executorId, h'.connections, h'.stale, h'.hellos, h'.ended, h'.fences);
  }

  lemma InvRemembers(h: Hub)
    requires Inv(h)
    ensures Remembered(h.connections, h.stale, h.hellos)
  {
  }

  lemma OpenedRemembers(h: Hub, executorId: string, link: ExecutorLink)
    requires Remembered(h.connections, h.stale, h.hellos) && executorId !in h.connections
    ensures Remembered(h.connections[executorId := link], Delete(h.stale, executorId), h.hellos)
    ensures Remembered(h.connections[executorId := link], Delete(h.stale, executorId), Delete(h.hellos, executorId))
    ensures Remembered(h.connections[executorId := link] - {executorId}, Delete(h.stale, executorId), Delete(h.hellos, executorId))
  {
    DeleteRemembers(h, executorId);
    WithoutOrdered(h.stale.keys, executorId);
  }

  // ------------------------------------------------------------ commands

  lemma BeginKeeps(h: Hub, actor: Authority, frame: Frame, envelope: Option<Outcome>)
    requires Inv(h)
    ensures Keeps(h, Begin(h, actor, frame, envelope).0)
  {
    hide Inv, Keeps, TakeRate, RateOf;
    SameKeeps(h, h);
    var rates := h.rates[actor.deviceId := TakeRate(RateOf(h, actor.deviceId), h.now).0];
    SameKeeps(h, h.(rates := rates));
    hide SameTables;
    assert Begin(h, actor, frame, envelope).0 == h || Begin(h, actor, frame, envelope).0 == h.(rates := rates);
  }

  /** A fresh route whose link and connection are registered. */
  ghost predicate Insertable(h: Hub, route: Route, registryFence: string) {
    && route.id == h.nextRoute
    && |h.pending| < MAX_PENDING_ACCEPTS && |h.byCommand| < MAX_ROUTES
    && InFlight(h.byCommand, route.deviceId) < MAX_DEVICE_IN_FLIGHT
    && route.commandId !in h.byCommand && route.correlationId !in h.byCorrelation
    && route.deviceId in h.desktops.values && h.desktops.values[route.deviceId].fence == route.desktopFence
    && route.executorId in h.connections && h.connections[route.executorId].fence == registryFence
  }

  lemma InsertInFlight(byCommand: map<string, Route>, route: Route, deviceId: string)
    requires route.commandId !in byCommand
    ensures InFlight(byCommand[route.commandId := route], deviceId)
      <= InFlight(byCommand, deviceId) + if deviceId == route.deviceId then 1 else 0
  {
    var before := DeviceRoutes(byCommand, deviceId, None);
    SubsetSize(DeviceRoutes(byCommand[route.commandId := route], deviceId, None),
      if deviceId == route.deviceId then before + {route} else before);
  }

  lemma InsertCapped(h: Hub, route: Route)
    requires Capped(h.byCommand, h.pending)
    requires |h.pending| < MAX_PENDING_ACCEPTS && |h.byCommand| < MAX_ROUTES
    requires InFlight(h.byCommand, route.deviceId) < MAX_DEVICE_IN_FLIGHT && route.commandId !in h.byCommand
    ensures Capped(h.byCommand[route.commandId := route], h.pending[route.commandId := route])
  {
    hide InFlight;
    var byCommand := h.byCommand[route.commandId := route];
    forall d ensures InFlight(byCommand, d) <= MAX_DEVICE_IN_FLIGHT {
      InsertInFlight(h.byCommand, route, d);
    }
  }

  lemma InsertIndexed(byCommand: map<string, Route>, byCorrelation: map<string, Route>, pending: map<string, Route>, route: Route)
    requires Indexed(byCommand, byCorrelation, pending)
    requires route.commandId !in byCommand && route.correlationId !in byCorrelation
    ensures Indexed(byCommand[route.commandId := route], byCorrelation[route.correlationId := route], pending[route.commandId := route])
  {
  }

  lemma InsertAnswered(h: Hub, route: Route, dueMs: int)
    requires Answered(h.pending, h.timers, h.resolved, h.nextRoute)
    requires route.id == h.nextRoute && route.commandId !in h.pending
    ensures var (pending, timers, resolved) :=
      (h.pending[route.commandId := route], h.timers[route.id := Timer(route, dueMs)], h.resolved[route.id := []]);
      && Answered(pending, timers, resolved, h.nextRoute + 1)
      && (OwedBy(h.pending, h.timers, h.resolved) ==> OwedBy(pending, timers, resolved))
  {
  }

  lemma InsertLinked(h: Hub, route: Route, registryFence: string)
    requires Linked(h.byCommand, h.desktops) && Connected(h.byCommand, h.connections, h.dispatchedOn)
    requires Numbered(h.byCommand, h.nextRoute) && Insertable(h, route, registryFence)
    ensures var byCommand := h.byCommand[route.commandId := route];
      && Numbered(byCommand, h.nextRoute + 1) && Linked(byCommand, h.desktops)
      && Connected(byCommand, h.connections, h.dispatchedOn[route.id := registryFence])
  {
    hide Ordered;
  }

  lemma InsertRoutes(h: Hub, route: Route, registryFence: string)
    requires RoutesInv(h) && Insertable(h, route, registryFence)
    ensures var h' := Insert(h, route, registryFence);
      && Indexed(h'.byCommand, h'.byCorrelation, h'.pending)
      && Answered(h'.pending, h'.timers, h'.resolved, h'.nextRoute)
      && Capped(h'.byCommand, h'.pending)
      && (Owed(h) ==> Owed(h'))
  {
    hide Indexed, Numbered, Answered, Capped, OwedBy, InFlight;
    PendingIndexed(h, route.commandId);
    InsertIndexed(h.byCommand, h.byCorrelation, h.pending, route);
    InsertAnswered(h, route, h.now + ACCEPT_TIMEOUT_MS);
    InsertCapped(h, route);
  }

  lemma InsertKeeps(h: Hub, route: Route, registryFence: string)
    requires Inv(h) && Insertable(h, route, registryFence)
    ensures Keeps(h, Insert(h, route, registryFence))
  {
    hide Indexed, Numbered, Answered, Capped, Linked, Connected, Remembered, Owed, Insertable, InFlight;
    InsertRoutes(h, route, registryFence);
    InsertLinked(h, route, registryFence);
  }

  lemma PendingIndexed(h: Hub, c: string)
    requires Indexed(h.byCommand, h.byCorrelation, h.pending) && c !in h.byCommand
    ensures c !in h.pending
  {
  }

  lemma WrittenKeeps(h: Hub, route: Route)
    requires Inv(h)
    ensures Keeps(h, Written(h, route))
  {
    hide Inv, Owed, Dispatch;
    DispatchKeeps(h, route.executorId);
    var (dispatched, failure) := Dispatch(h, route.executorId);
    if failure.Some? {
      ForgetKeeps(dispatched, {route}, failure.value);
    }
  }

  /** A command that has matched its executor and found room is registered before its frame is written. */
  lemma RegisteredKeeps(h: Hub, link: DesktopLink, frame: Frame, lag: nat)
    requires Inv(h) && link.deviceId in h.desktops.values && h.desktops.values[link.deviceId] == link
    requires HasRoom(h, link.deviceId, frame) && frame.executorId in h.connections
    ensures Keeps(h, Registered(h, link, frame, lag))
  {
    hide Inv, Owed, Insert;
    var route := NewRoute(h, link, frame);
    var fence := h.connections[frame.executorId].fence;
    InsertKeeps(h, route, fence);
    SameKeeps(Insert(h, route, fence), Registered(h, link, frame, lag));
  }

  lemma AdmitKeeps(h: Hub, link: DesktopLink, frame: Frame, lag: nat)
    requires Inv(h) && link.deviceId in h.desktops.values && h.desktops.values[link.deviceId] == link
    requires frame.executorId in h.connections
    ensures Keeps(h, Admit(h, link, frame, lag).0)
  {
    hide Inv, Owed, Registered, Written, HasRoom;
    SameKeeps(h, h);
    if HasRoom(h, link.deviceId, frame) {
      RegisteredKeeps(h, link, frame, lag);
      WrittenKeeps(Registered(h, link, frame, lag), NewRoute(h, link, frame));
    }
  }

  lemma FinishKeeps(h: Hub, link: DesktopLink, frame: Frame, lookup: Lookup, lag: nat)
    requires Inv(h)
    ensures Keeps(h, Finish(h, link, frame, lookup, lag).0)
  {
    hide Inv, Owed, Matches, Admit;
    SameKeeps(h, h);
    if lookup.Usable? && link.deviceId in h.desktops.values && h.desktops.values[link.deviceId] == link {
      MatchesKeeps(h, frame.executorId, lookup.row);
      var (matched, online) := Matches(h, frame.executorId, lookup.row);
      if online {
        AdmitKeeps(matched, link, frame, lag);
      }
    }
  }

  lemma ResolveOne(resolved: map<nat, seq<Outcome>>, id: nat, outcome: Outcome)
    requires id in resolved && resolved[id] == []
    ensures Resolve(resolved, {id}, outcome) == resolved[id := [outcome]]
  {
    assert resolved[id] + [outcome] == [outcome];
  }

  lemma ReleasedOne(h: Hub, route: Route)
    requires Waits(h, route)
    requires forall c :: c in h.pending ==> h.pending[c].commandId == c
    ensures Released(h.pending, {route}) == {route.id}
  {
    assert h.pending[route.commandId] in {route};
  }

  /** A timer that fires finds its own route still waiting, and answers it. */
  lemma FireAnswers(h: Hub, id: nat)
    requires RoutesInv(h) && id in h.timers
    ensures Fire(h, id) == RemoveRoutes(h, {h.timers[id].route}, Some(AcceptTimeout))
    ensures id in h.resolved && h.resolved[id] == [] && Fire(h, id).resolved == h.resolved[id := [AcceptTimeout]]
  {
    ReleasedOne(h, h.timers[id].route);
    hide Capped, Kept, Released, Indexed, Resolve;
    ResolveOne(h.resolved, id, AcceptTimeout);
    assert h.timers - {id} - {id} == h.timers - {id};
  }

  lemma FireKeeps(h: Hub, id: nat)
    requires Inv(h) && id in h.timers
    ensures Keeps(h, Fire(h, id))
  {
    FireAnswers(h, id);
    hide Inv, Fire;
    ForgetKeeps(h, {h.timers[id].route}, AcceptTimeout);
  }

  /** Two pending routes have two identities. */
  lemma PendingDistinct(h: Hub, c: string, d: string)
    requires Indexed(h.byCommand, h.byCorrelation, h.pending) && Numbered(h.byCommand, h.nextRoute)
    requires c in h.pending && d in h.pending && c != d
    ensures h.pending[c].id != h.pending[d].id
  {
    assert h.byCommand[c] == h.pending[c] && h.byCommand[d] == h.pending[d];
  }

  lemma PendingOwed(h: Hub, c: string)
    requires Answered(h.pending, h.timers, h.resolved, h.nextRoute) && c in h.pending
    ensures var id := h.pending[c].id;
      && id in h.resolved && h.resolved[id] == [] && id in h.timers && h.timers[id].route == h.pending[c]
  {
  }

  lemma AcceptAnswered(h: Hub, c: string)
    requires Indexed(h.byCommand, h.byCorrelation, h.pending) && Numbered(h.byCommand, h.nextRoute)
    requires Answered(h.pending, h.timers, h.resolved, h.nextRoute) && c in h.pending
    ensures Answered(h.pending - {c}, h.timers - {h.pending[c].id}, Resolve(h.resolved, {h.pending[c].id}, Accepted), h.nextRoute)
  {
    PendingOwed(h, c);
    ResolveOne(h.resolved, h.pending[c].id, Accepted);
    forall d | d in h.pending && d != c ensures h.pending[d].id != h.pending[c].id {
      PendingDistinct(h, c, d);
    }
    hide Indexed, Numbered, Resolve;
  }

  lemma AcceptOwed(h: Hub, c: string)
    requires Answered(h.pending, h.timers, h.resolved, h.nextRoute) && c in h.pending && h.pending[c].commandId == c
    requires OwedBy(h.pending, h.timers, h.resolved)
    ensures OwedBy(h.pending - {c}, h.timers - {h.pending[c].id}, Resolve(h.resolved, {h.pending[c].id}, Accepted))
  {
    PendingOwed(h, c);
    hide Answered;
    ResolveOne(h.resolved, h.pending[c].id, Accepted);
    hide Resolve;
  }

  lemma AcceptIndexed(h: Hub, c: string)
    requires Indexed(h.byCommand, h.byCorrelation, h.pending) && c in h.pending
    ensures Indexed(h.byCommand, h.byCorrelation, h.pending - {c}) && h.pending[c].commandId == c
  {
  }

  lemma AcceptCapped(h: Hub, c: string)
    requires Capped(h.byCommand, h.pending)
    ensures Capped(h.byCommand, h.pending - {c})
  {
    hide InFlight;
    FewerKeys(h.pending, h.pending - {c});
  }

  lemma AcceptRoutes(h: Hub, executorId: string, frame: Frame)
    requires RoutesInv(h) && Accept(h, executorId, frame).1
    ensures RoutesInv(Accept(h, executorId, frame).0)
    ensures Owed(h) ==> Owed(Accept(h, executorId, frame).0)
  {
    hide Indexed, Numbered, Answered, Capped, OwedBy, Resolve;
    AcceptIndexed(h, frame.commandId);
    AcceptAnswered(h, frame.commandId);
    AcceptCapped(h, frame.commandId);
    if Owed(h) {
      AcceptOwed(h, frame.commandId);
    }
  }

  lemma AcceptKeeps(h: Hub, executorId: string, frame: Frame)
    requires Inv(h)
    ensures Keeps(h, Accept(h, executorId, frame).0)
  {
    if Accept(h, executorId, frame).1 {
      AcceptRoutes(h, executorId, frame);
    }
    hide RoutesInv, Linked, Connected, Remembered, Owed;
  }

  /** The route a frame addresses is always attached: the mismatch branch is never taken. */
  lemma NeverDetached(h: Hub, commandId: Option<string>, correlationId: string)
    requires Inv(h) && Target(h, commandId, correlationId).Some?
    ensures var route := Target(h, commandId, correlationId).value;
      && route.deviceId in h.desktops.values && h.desktops.values[route.deviceId].fence == route.desktopFence
  {
  }

  /** Whether this frame is routed, written and ends its route. */
  predicate Terminates(h: Hub, executorId: string, commandId: Option<string>, correlationId: string, terminal: bool) {
    && terminal && Target(h, commandId, correlationId).Some?
    && var route := Target(h, commandId, correlationId).value;
    && route.executorId == executorId && !Detached(h, route) && Writes(h, h.desktops.values[route.deviceId].sink)
  }

  lemma OutputKeepsInv(h: Hub, executorId: string, commandId: Option<string>, correlationId: string, terminal: bool)
    requires Inv(h)
    ensures Inv(Output(h, executorId, commandId, correlationId, terminal).0)
    ensures !Terminates(h, executorId, commandId, correlationId, terminal) ==>
      Keeps(h, Output(h, executorId, commandId, correlationId, terminal).0)
  {
    hide Inv, Owed, EndSink, RemoveRoutes, RemoveDesktopRoutes, DropDesktop;
    SameKeeps(h, h);
    var target := Target(h, commandId, correlationId);
    if target.Some? && target.value.executorId == executorId {
      var route := target.value;
      NeverDetached(h, commandId, correlationId);
      RemoveKeeps(h, {route}, None);
      EndAndForget(h, route.deviceId, h.desktops.values[route.deviceId].sink, route.desktopFence);
    }
  }

  /** Taking a route away without an answer orphans its caller exactly if it was still waiting. */
  lemma SilentRemoval(h: Hub, route: Route)
    requires RoutesInv(h) && Owed(h)
    ensures Owed(RemoveRoutes(h, {route}, None)) <==> !Waits(h, route)
  {
    hide Numbered, Capped;
    if Waits(h, route) {
      assert h.pending[route.commandId] in {route};
      assert route.id in Released(h.pending, {route});
      assert h.resolved[route.id] == [] && route.id !in h.timers - Released(h.pending, {route});
    } else {
      NothingReleased(h, route);
    }
  }

  lemma NothingReleased(h: Hub, route: Route)
    requires Indexed(h.byCommand, h.byCorrelation, h.pending) && !Waits(h, route)
    ensures Released(h.pending, {route}) == {} && Kept(h.pending, {route}) == h.pending
  {
    forall c | c in h.pending ensures h.pending[c] !in {route} {
      assert h.byCommand[c].commandId == c;
    }
  }

  /** Output orphans a caller exactly when it is terminal, reaches the client, and comes before the
      acceptance of its command: the route goes and nobody answers the promise. */
  lemma OutputOrphans(h: Hub, executorId: string, commandId: Option<string>, correlationId: string, terminal: bool)
    requires Inv(h) && Owed(h)
    ensures Owed(Output(h, executorId, commandId, correlationId, terminal).0) <==>
      !(Terminates(h, executorId, commandId, correlationId, terminal)
        && Waits(h, Target(h, commandId, correlationId).value))
  {
    OutputKeepsInv(h, executorId, commandId, correlationId, terminal);
    if Terminates(h, executorId, commandId, correlationId, terminal) {
      SilentRemoval(h, Target(h, commandId, correlationId).value);
    }
    hide Inv, Owed, RemoveRoutes;
  }
}
