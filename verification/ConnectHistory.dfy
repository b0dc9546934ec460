/**
 What no operation of the relay or the registry undoes: a link or connection that stays registered is the one
 it was, a registration under a fence that was drawn before never appears anew, answers are final, and a
 promise for which nothing waits is never resolved.
 */
module ConnectHistory {
  import opened Wrappers
  import opened JsMaps
  import opened ConnectHub
  import opened ConnectInvariants
  import opened ConnectKeeps
  import opened ConnectPresence
  import opened ConnectRuns

  /** A registration is an old one, or under a fence that has just been drawn. */
  ghost predicate LinksLast(links: map<string, DesktopLink>, links': map<string, DesktopLink>, fences: set<string>, fences': set<string>) {
    forall d :: d in links' ==> (d in links && links[d] == links'[d]) || links'[d].fence in fences' - fences
  }

  predicate SameConnection(a: ExecutorLink, b: ExecutorLink) {
    a.fence == b.fence && a.executorId == b.executorId && a.deviceId == b.deviceId && a.generation == b.generation && a.sink == b.sink
  }

  ghost predicate ConnectionsLast(connections: map<string, ExecutorLink>, connections': map<string, ExecutorLink>, fences: set<string>, fences': set<string>) {
    forall e :: e in connections' ==>
      (e in connections && SameConnection(connections[e], connections'[e])) || connections'[e].fence in fences' - fences
  }

  /** The answers a promise may get but for acceptance. */
  predicate Refusal(outcome: Outcome) {
    outcome in {ExecutorOffline, AcceptTimeout, Unauthorized}
  }

  /** Answers stay; a new one is a refusal, or else an acceptance if `accepts` allows it. */
  ghost predicate AnswersLast(resolved: map<nat, seq<Outcome>>, resolved': map<nat, seq<Outcome>>, accepts: bool) {
    && (forall i :: i in resolved ==> i in resolved' && resolved[i] <= resolved'[i])
    && (forall i, o :: i in resolved' && o in resolved'[i] ==>
          Refusal(o) || (accepts && o == Accepted) || (i in resolved && o in resolved[i]))
  }

  ghost predicate DispatchesLast(dispatchedOn: map<nat, string>, dispatchedOn': map<nat, string>, resolved: map<nat, seq<Outcome>>) {
    forall i :: i in resolved && i in dispatchedOn ==> i in dispatchedOn' && dispatchedOn'[i] == dispatchedOn[i]
  }

  /** The promise is unresolved and nothing waits for it any more. */
  ghost predicate Orphaned(pending: map<string, Route>, resolved: map<nat, seq<Outcome>>, id: nat) {
    id in resolved && resolved[id] == [] && forall c :: c in pending ==> pending[c].id != id
  }

  ghost predicate OrphansLast(h: Hub, h': Hub) {
    forall i :: Orphaned(h.pending, h.resolved, i) ==> Orphaned(h'.pending, h'.resolved, i)
  }

  ghost predicate LastsWith(h: Hub, h': Hub, accepts: bool) {
    && LinksLast(h.desktops.values, h'.desktops.values, h.fences, h'.fences)
    && ConnectionsLast(h.connections, h'.connections, h.fences, h'.fences)
    && AnswersLast(h.resolved, h'.resolved, accepts) && DispatchesLast(h.dispatchedOn, h'.dispatchedOn, h.resolved)
    && h.fences <= h'.fences && OrphansLast(h, h')
  }

  /** What holds between the states before and after anything but an acceptance. */
  ghost predicate Lasts(h: Hub, h': Hub) {
    LastsWith(h, h', false)
  }

  /** What holds between the states before and after any stretch of a run. */
  ghost predicate Endures(h: Hub, h': Hub) {
    LastsWith(h, h', true)
  }

  lemma LastsOn(a: Hub, b: Hub, c: Hub)
    requires Lasts(a, b) && Lasts(b, c)
    ensures Lasts(a, c)
  {
  }

  lemma EnduresOn(a: Hub, b: Hub, c: Hub)
    requires Endures(a, b) && Endures(b, c)
    ensures Endures(a, c)
  {
  }

  lemma LastsEndures(h: Hub, h': Hub)
    requires Lasts(h, h')
    ensures Endures(h, h')
  {
  }

  /** Registrations only disappear, and nothing is answered. */
  ghost predicate Fewer(h: Hub, h': Hub) {
    && (forall d :: d in h'.desktops.values ==> d in h.desktops.values && h'.desktops.values[d] == h.desktops.values[d])
    && (forall e :: e in h'.connections ==> e in h.connections && SameConnection(h'.connections[e], h.connections[e]))
    && h'.resolved == h.resolved && h'.dispatchedOn == h.dispatchedOn && h'.fences == h.fences && h'.pending == h.pending
  }

  lemma FewerLasts(h: Hub, h': Hub)
    requires Fewer(h, h')
    ensures Lasts(h, h')
  {
  }

  lemma SelfLasts(h: Hub)
    ensures Lasts(h, h)
  {
  }

  lemma RemoveOrphans(h: Hub, gone: set<Route>, result: Option<Outcome>)
    ensures OrphansLast(h, RemoveRoutes(h, gone, result))
  {
    forall i | Orphaned(h.pending, h.resolved, i)
      ensures Orphaned(RemoveRoutes(h, gone, result).pending, RemoveRoutes(h, gone, result).resolved, i)
    {
      assert i !in Released(h.pending, gone);
    }
  }

  lemma RemoveLasts(h: Hub, gone: set<Route>, result: Option<Outcome>)
    requires result.Some? ==> Refusal(result.value)
    ensures Lasts(h, RemoveRoutes(h, gone, result))
  {
    hide Kept, Released, OrphansLast;
    RemoveOrphans(h, gone, result);
  }

  /** First some registrations go, then some routes are answered. */
  lemma ThenRemoveLasts(h: Hub, h': Hub, gone: set<Route>, result: Option<Outcome>)
    requires Fewer(h, h') && (result.Some? ==> Refusal(result.value))
    ensures Lasts(h, RemoveRoutes(h', gone, result))
  {
    FewerLasts(h, h');
    hide Lasts, Fewer, RemoveRoutes;
    RemoveLasts(h', gone, result);
    LastsOn(h, h', RemoveRoutes(h', gone, result));
  }

  // ------------------------------------------------------------ client links

  lemma CloseLasts(h: Hub, deviceId: string, fence: string)
    ensures Lasts(h, CloseLink(h, deviceId, fence))
  {
    if deviceId in h.desktops.values && h.desktops.values[deviceId].fence == fence {
      var fewer := h.(desktops := Delete(h.desktops, deviceId), rates := h.rates - {deviceId});
      hide RemoveRoutes;
      ThenRemoveLasts(h, fewer, DeviceRoutes(h.byCommand, deviceId, Some(fence)), Some(Unauthorized));
    }
  }

  lemma EndLasts(h: Hub, sink: nat)
    ensures Lasts(h, EndSink(h, sink))
  {
    hide CloseLink;
    var marked := h.(ended := h.ended + {sink}, onClose := h.onClose - {sink});
    FewerLasts(h, marked);
    SelfLasts(h);
    if sink in h.onClose {
      CloseLasts(marked, h.onClose[sink].deviceId, h.onClose[sink].fence);
    }
  }

  /** A stream ends, a link goes, and the routes of its device are answered, in either order. */
  lemma EndAndForgetLasts(h: Hub, sink: nat, deviceId: string, rates: map<string, Rate>, fence: Option<string>)
    ensures Lasts(h, RemoveDesktopRoutes(DropDesktop(EndSink(h, sink), deviceId).(rates := rates), deviceId, fence))
    ensures Lasts(h, DropDesktop(RemoveDesktopRoutes(EndSink(h, sink), deviceId, fence), deviceId))
  {
    hide EndSink, RemoveRoutes;
    EndLasts(h, sink);
    var ended := EndSink(h, sink);
    var dropped := DropDesktop(ended, deviceId).(rates := rates);
    ThenRemoveLasts(ended, dropped, DeviceRoutes(ended.byCommand, deviceId, fence), Some(Unauthorized));
    LastsOn(h, ended, RemoveDesktopRoutes(dropped, deviceId, fence));
    var removed := RemoveDesktopRoutes(ended, deviceId, fence);
    RemoveLasts(ended, DeviceRoutes(ended.byCommand, deviceId, fence), Some(Unauthorized));
    FewerLasts(removed, DropDesktop(removed, deviceId));
    LastsOn(h, ended, removed);
    LastsOn(h, removed, DropDesktop(removed, deviceId));
  }

  lemma {:induction false} EvictLasts(h: Hub)
    requires KeyedByDevice(h.desktops)
    ensures Lasts(h, Evict(h))
    decreases |h.desktops.keys|
  {
    hide CloseLink, EndSink, Lasts;
    SelfLasts(h);
    if |h.desktops.keys| >= MAX_CONNECTIONS {
      var oldest := h.desktops.values[h.desktops.keys[0]];
      CloseLasts(h, oldest.deviceId, oldest.fence);
      EndLasts(CloseLink(h, oldest.deviceId, oldest.fence), oldest.sink);
      EvictLasts(EvictOldest(h));
      LastsOn(h, CloseLink(h, oldest.deviceId, oldest.fence), EvictOldest(h));
      LastsOn(h, EvictOldest(h), Evict(h));
    }
  }

  /** Only the link of one device is new, under a fence that is drawn now. */
  lemma NewLinkLasts(h: Hub, room: Hub, h': Hub, link: DesktopLink)
    requires Lasts(h, room) && link.fence !in h.fences
    requires h' == room.(fences := h.fences + {link.fence}, desktops := Set(room.desktops, link.deviceId, link))
    requires room.fences == h.fences
    ensures Lasts(h, h')
  {
  }

  lemma OpenLasts(h: Hub, actor: Authority, sink: nat, fence: string)
    requires KeyedByDevice(h.desktops) && fence !in h.fences
    ensures Lasts(h, OpenLink(h, actor, sink, fence))
  {
    hide EndSink, Evict, RemoveDesktopRoutes, DropDesktop, KeyedByDevice, Lasts, Set;
    EndLasts(h, sink);
    EndFences(h, sink);
    ReplaceShrinks(h, actor.deviceId);
    var replaced := if actor.deviceId in h.desktops.values then Replace(h, h.desktops.values[actor.deviceId]) else h;
    SelfLasts(h);
    if actor.deviceId in h.desktops.values && Conflicts(h.desktops.values[actor.deviceId].authority, actor) {
      RefusedLasts(h, EndSink(h, sink), fence);
    } else {
      if actor.deviceId in h.desktops.values {
        var previous := h.desktops.values[actor.deviceId];
        EndAndForgetLasts(h, previous.sink, previous.deviceId, map[], Some(previous.fence));
        ReplaceFences(h, previous);
      }
      EvictLasts(replaced);
      EvictFences(replaced);
      LastsOn(h, replaced, Evict(replaced));
      NewLinkLasts(h, Evict(replaced), OpenLink(h, actor, sink, fence), DesktopLink(fence, actor.deviceId, actor, sink));
    }
  }

  lemma RefusedLasts(h: Hub, ended: Hub, fence: string)
    requires Lasts(h, ended) && ended.fences == h.fences && fence !in h.fences
    ensures Lasts(h, ended.(fences := h.fences + {fence}))
  {
  }

  lemma EndFences(h: Hub, sink: nat)
    ensures EndSink(h, sink).fences == h.fences
  {
    hide Kept, Released, Resolve, DeviceRoutes, Delete;
  }

  lemma ReplaceFences(h: Hub, previous: DesktopLink)
    ensures Replace(h, previous).fences == h.fences
  {
    EndFences(h, previous.sink);
    hide EndSink;
  }

  lemma {:induction false} EvictFences(h: Hub)
    requires KeyedByDevice(h.desktops)
    ensures Evict(h).fences == h.fences
    decreases |h.desktops.keys|
  {
    if |h.desktops.keys| >= MAX_CONNECTIONS {
      var oldest := h.desktops.values[h.desktops.keys[0]];
      EndFences(CloseLink(h, oldest.deviceId, oldest.fence), oldest.sink);
      assert CloseLink(h, oldest.deviceId, oldest.fence).fences == h.fences;
      hide CloseLink, EndSink;
      EvictFences(EvictOldest(h));
    }
  }

  lemma OpenAndWatchLasts(h: Hub, actor: Authority, sink: nat, fence: string)
    requires KeyedByDevice(h.desktops) && fence !in h.fences
    ensures Lasts(h, Watch(OpenLink(h, actor, sink, fence), sink, actor.deviceId, fence))
  {
    hide Lasts, OpenLink, CloseLink;
    var linked := OpenLink(h, actor, sink, fence);
    var watched := Watch(linked, sink, actor.deviceId, fence);
    OpenLasts(h, actor, sink, fence);
    CloseLasts(linked, actor.deviceId, fence);
    if sink !in linked.ended {
      FewerLasts(linked, watched);
    }
    LastsOn(h, linked, watched);
  }

  lemma RevokeDesktopLasts(h: Hub, deviceId: string)
    ensures Lasts(h, RevokeDesktop(h, deviceId))
  {
    hide EndSink, RemoveRoutes;
    if deviceId in h.desktops.values {
      var link := h.desktops.values[deviceId];
      var ended := EndSink(h, link.sink);
      EndAndForgetLasts(h, link.sink, deviceId, ended.rates, Some(link.fence));
      assert DropDesktop(ended, deviceId).(rates := ended.rates) == DropDesktop(ended, deviceId);
    } else {
      RemoveLasts(h, DeviceRoutes(h.byCommand, deviceId, None), Some(Unauthorized));
    }
  }

  lemma RevokeLinkLasts(h: Hub, link: DesktopLink)
    ensures Lasts(h, RevokeLink(h, link))
  {
    hide EndSink, RemoveRoutes, Lasts;
    EndAndForgetLasts(h, link.sink, link.deviceId, EndSink(h, link.sink).rates - {link.deviceId}, Some(link.fence));
  }

  lemma {:induction false} RevokeLinksLasts(h: Hub, links: seq<DesktopLink>, executorId: string)
    ensures Lasts(h, RevokeLinks(h, links, executorId))
    decreases |links|
  {
    hide RevokeLink, Lasts;
    SelfLasts(h);
    if links != [] {
      var next := if VouchedBy(links[0], executorId) then RevokeLink(h, links[0]) else h;
      RevokeLinkLasts(h, links[0]);
      RevokeLinksLasts(next, links[1..], executorId);
      LastsOn(h, next, RevokeLinks(next, links[1..], executorId));
    }
  }

  lemma RevokeExecutorLasts(h: Hub, executorId: string)
    requires forall k :: k in h.desktops.keys ==> k in h.desktops.values
    ensures Lasts(h, RevokeExecutor(h, executorId))
  {
    hide RevokeLinks, Lasts, RemoveRoutes;
    var revoked := RevokeLinks(h, Links(h.desktops), executorId);
    RevokeLinksLasts(h, Links(h.desktops), executorId);
    RemoveLasts(revoked, ExecutorRoutes(revoked.byCommand, executorId), Some(ExecutorOffline));
    LastsOn(h, revoked, FenceExecutor(revoked, executorId));
  }

  // ------------------------------------------------------------ executor registry

  lemma DropLasts(h: Hub, h': Hub, executorId: string)
    requires Fewer(h, h')
    ensures Lasts(h, Disconnect(h', executorId)) && Lasts(h, FenceExecutor(h', executorId))
  {
    hide RemoveRoutes;
    ThenRemoveLasts(h, h', ExecutorRoutes(h'.byCommand, executorId), Some(ExecutorOffline));
    ThenRemoveLasts(h, h'.(connections := h'.connections - {executorId}), ExecutorRoutes(h'.byCommand, executorId), Some(ExecutorOffline));
  }

  lemma LookLasts(h: Hub, executorId: string)
    ensures Lasts(h, Look(h, executorId).0)
    ensures Look(h, executorId).1 == Online ==> Fewer(h, Look(h, executorId).0)
  {
    hide FenceExecutor, Prune, Trim, Set, Delete, Lasts;
    var pruned := PruneStale(PruneHellos(h));
    FewerLasts(h, pruned);
    if executorId in h.connections && Quiet(h, executorId) {
      var cut := pruned.(ended := h.ended + {h.connections[executorId].sink}, connections := h.connections - {executorId});
      DropLasts(h, MarkStale(cut, executorId), executorId);
    }
  }

  lemma DispatchLasts(h: Hub, executorId: string)
    ensures Lasts(h, Dispatch(h, executorId).0)
  {
    hide Look, Disconnect, Lasts;
    SelfLasts(h);
    LookLasts(h, executorId);
    if executorId in h.connections && Look(h, executorId).1 == Online {
      var looked := Look(h, executorId).0;
      DropLasts(h, looked.(ended := looked.ended + {h.connections[executorId].sink}), executorId);
    }
  }

  lemma PrunedFewer(h: Hub)
    ensures Fewer(h, PruneStale(PruneHellos(h))) && PruneStale(PruneHellos(h)).connections == h.connections
  {
    hide Prune;
  }

  lemma ReplaceConnectionLasts(h: Hub, executorId: string)
    ensures Lasts(h, ReplaceConnection(h, executorId))
  {
    hide Disconnect, Lasts;
    SelfLasts(h);
    if executorId in h.connections {
      DropLasts(h, h.(ended := h.ended + {h.connections[executorId].sink}), executorId);
    }
  }

  /** Only the connection of one executor is new, under a fence that is drawn now. */
  lemma NewConnectionLasts(h: Hub, replaced: Hub, h': Hub, executorId: string, fence: string)
    requires Lasts(h, replaced) && fence !in h.fences
    requires h'.desktops == replaced.desktops && h'.resolved == replaced.resolved && h'.dispatchedOn == replaced.dispatchedOn
    requires h'.pending == replaced.pending
    requires h'.fences == h.fences + {fence} && replaced.fences == h.fences
    requires forall e :: e in h'.connections ==>
      (e == executorId && h'.connections[e].fence == fence) || (e in replaced.connections && h'.connections[e] == replaced.connections[e])
    ensures Lasts(h, h')
  {
  }

  lemma OpenExecutorLasts(h: Hub, executorId: string, deviceId: string, generation: nat, sink: nat, fence: string)
    requires fence !in h.fences
    ensures Lasts(h, OpenExecutor(h, executorId, deviceId, generation, sink, fence))
  {
    hide Delete, Lasts, ReplaceConnection, PruneStale, PruneHellos, Fewer;
    var pruned := PruneStale(PruneHellos(h));
    PrunedFewer(h);
    FewerLasts(h, pruned);
    ReplaceConnectionLasts(pruned, executorId);
    LastsOn(h, pruned, ReplaceConnection(pruned, executorId));
    PrunedFences(h, executorId);
    NewConnectionLasts(h, ReplaceConnection(pruned, executorId), OpenExecutor(h, executorId, deviceId, generation, sink, fence), executorId, fence);
  }

  lemma PrunedFences(h: Hub, executorId: string)
    ensures ReplaceConnection(PruneStale(PruneHellos(h)), executorId).fences == h.fences
  {
    hide Prune;
  }

  lemma CloseExecutorLasts(h: Hub, executorId: string, onlyFence: Option<string>)
    ensures Lasts(h, CloseExecutor(h, executorId, onlyFence)) && Lasts(h, RevokeConnection(h, executorId))
  {
    hide Disconnect, Delete, Lasts;
    SelfLasts(h);
    var cleared := h.(stale := Delete(h.stale, executorId), hellos := Delete(h.hellos, executorId));
    FewerLasts(h, cleared);
    DropLasts(h, cleared, executorId);
    if executorId in h.connections {
      DropLasts(h, cleared.(ended := h.ended + {h.connections[executorId].sink}), executorId);
    }
  }

  lemma TouchLasts(h: Hub, executorId: string, generation: nat)
    ensures Lasts(h, TouchExecutor(h, executorId, generation))
  {
    hide Delete, Lasts, SameConnection;
    SelfLasts(h);
    if executorId in h.connections && h.connections[executorId].generation == generation {
      Refreshed(h.connections, executorId, h.now);
      FewerLasts(h, TouchExecutor(h, executorId, generation));
    }
  }

  lemma Refreshed(connections: map<string, ExecutorLink>, executorId: string, now: int)
    requires executorId in connections
    ensures var refreshed := connections[executorId := connections[executorId].(lastActivityMs := now)];
      forall e :: e in refreshed ==> e in connections && SameConnection(refreshed[e], connections[e])
    ensures forall e :: e in connections ==> SameConnection(connections[e], connections[e])
  {
  }

  lemma HelloLasts(h: Hub, executorId: string, generation: nat, correlationId: string)
    ensures Lasts(h, Hello(h, executorId, generation, correlationId))
  {
    hide Delete, Prune, Trim, Set, Lasts;
    HelloIs(h, executorId, generation, correlationId);
    FewerLasts(h, Hello(h, executorId, generation, correlationId));
  }

  // ------------------------------------------------------------ commands

  lemma WrittenLasts(h: Hub, route: Route)
    requires Inv(h) && Waits(h, route)
    ensures Lasts(h, Written(h, route))
  {
    hide Inv, Dispatch, Lasts, RemoveRoutes;
    DispatchLasts(h, route.executorId);
    if Dispatch(h, route.executorId).1.Some? {
      FailedDispatchHasAnswered(h, route);
    }
  }

  lemma FinishLasts(h: Hub, link: DesktopLink, frame: Frame, lookup: Lookup, lag: nat)
    requires Inv(h)
    ensures Lasts(h, Finish(h, link, frame, lookup, lag).0)
  {
    hide Inv, Look, Written, Lasts, HasRoom, Fewer, Registered;
    SelfLasts(h);
    if lookup.Usable? && frame.executorId in h.connections {
      LookLasts(h, frame.executorId);
      LookKeeps(h, frame.executorId);
      var looked := Look(h, frame.executorId).0;
      if Look(h, frame.executorId).1 == Online {
        var registered := Registered(looked, link, frame, lag);
        FreshPromise(looked);
        RegisteredLasts(h, looked, link, frame, lag);
        if Finish(h, link, frame, lookup, lag).1.None? {
          RegisteredKeeps(looked, link, frame, lag);
          RegisteredWaits(looked, link, frame, lag);
          WrittenLasts(registered, NewRoute(looked, link, frame));
          LastsOn(h, registered, Written(registered, NewRoute(looked, link, frame)));
        }
      }
    }
  }

  lemma RegisteredWaits(h: Hub, link: DesktopLink, frame: Frame, lag: nat)
    requires frame.executorId in h.connections
    ensures Waits(Registered(h, link, frame, lag), NewRoute(h, link, frame))
  {
  }

  lemma FreshPromise(h: Hub)
    requires Inv(h)
    ensures h.nextRoute !in h.resolved
  {
  }

  lemma RegisteredLasts(h: Hub, h': Hub, link: DesktopLink, frame: Frame, lag: nat)
    requires Fewer(h, h') && frame.executorId in h'.connections && h'.nextRoute !in h'.resolved
    ensures Lasts(h, Registered(h', link, frame, lag))
  {
    FewerLasts(h, h');
  }

  lemma AcceptLasts(h: Hub, executorId: string, frame: Frame)
    ensures Endures(h, Accept(h, executorId, frame).0)
  {
  }

  lemma FireLasts(h: Hub, id: nat)
    requires Inv(h) && id in h.timers
    ensures Lasts(h, Fire(h, id))
  {
    hide Indexed, Numbered, Once, Armed, Awaited, Capped, Linked, Connected, Remembered, RemoveRoutes, Fire, Lasts;
    FireAnswers(h, id);
    RemoveLasts(h, {h.timers[id].route}, Some(AcceptTimeout));
  }

  lemma OutputLasts(h: Hub, executorId: string, commandId: Option<string>, correlationId: string, terminal: bool)
    ensures Lasts(h, Output(h, executorId, commandId, correlationId, terminal).0)
  {
    hide EndSink, RemoveRoutes, Lasts, Target;
    SelfLasts(h);
    var target := Target(h, commandId, correlationId);
    if target.Some? {
      var route := target.value;
      RemoveLasts(h, {route}, None);
      if route.deviceId in h.desktops.values {
        var sink := h.desktops.values[route.deviceId].sink;
        EndAndForgetLasts(h, sink, route.deviceId, EndSink(h, sink).rates, Some(route.desktopFence));
        var dropped := DropDesktop(EndSink(h, sink), route.deviceId);
        assert dropped.(rates := EndSink(h, sink).rates) == dropped;
      }
    }
  }

  // ------------------------------------------------------------ whole runs

  lemma KeysListed(desktops: JsMap<DesktopLink>)
    requires KeyedByDevice(desktops)
    ensures forall k :: k in desktops.keys ==> k in desktops.values
  {
  }

  lemma RelayStepLasts(w: World, e: Event)
    requires Inv(w.hub) && Enabled(w, e)
    requires e.OpenDesktop? || e.CancelStream? || e.RevokesDesktop? || e.RevokesExecutor? || e.Produce? || e.TimerFires?
    ensures Lasts(w.hub, Apply(w, e).hub)
  {
    hide Inv, Lasts, OpenLink, Watch, EndSink, RevokeDesktop, RevokeExecutor, Output, Accept, Fire, KeyedByDevice, Waits;
    InvKeyed(w.hub);
    if e.OpenDesktop? {
      OpenAndWatchLasts(w.hub, e.actor, e.sink, e.fence);
    } else if e.CancelStream? {
      EndLasts(w.hub, e.sink);
    } else if e.RevokesDesktop? {
      RevokeDesktopLasts(w.hub, e.deviceId);
    } else if e.RevokesExecutor? {
      KeysListed(w.hub.desktops);
      RevokeExecutorLasts(w.hub, e.executorId);
    } else if e.Produce? {
      OutputLasts(w.hub, e.executorId, e.commandId, e.correlationId, e.terminal);
    } else {
      FireLasts(w.hub, e.route);
    }
  }

  lemma RegistryStepLasts(w: World, e: Event)
    requires Inv(w.hub) && Enabled(w, e)
    requires e.OpensExecutor? || e.ClosesExecutor? || e.RevokesConnection? || e.Touches? || e.Greets? || e.AsksPresence?
    ensures Lasts(w.hub, Apply(w, e).hub)
  {
    hide Inv, Lasts, OpenExecutor, CloseExecutor, RevokeConnection, TouchExecutor, Hello, Look, KeyedByDevice;
    if e.OpensExecutor? {
      OpenExecutorLasts(w.hub, e.executorId, e.deviceId, e.generation, e.sink, e.fence);
    } else if e.ClosesExecutor? {
      CloseExecutorLasts(w.hub, e.executorId, e.onlyFence);
    } else if e.RevokesConnection? {
      CloseExecutorLasts(w.hub, e.executorId, None);
    } else if e.Touches? {
      TouchLasts(w.hub, e.executorId, e.generation);
    } else if e.Greets? {
      HelloLasts(w.hub, e.executorId, e.generation, e.correlationId);
    } else {
      LookLasts(w.hub, e.executorId);
    }
  }

  lemma CommandStepLasts(w: World, e: Event)
    requires Inv(w.hub) && Enabled(w, e) && (e.BeginCommand? || e.FinishCommand? || e.SetRefusing? || e.Tick?)
    ensures Lasts(w.hub, Apply(w, e).hub)
  {
    hide Inv, Lasts, Finish, Begin;
    if e.FinishCommand? {
      FinishLasts(w.hub, w.commands[e.task].link, w.commands[e.task].frame, e.lookup, e.lag);
    } else if e.BeginCommand? {
      BeginLasts(w.hub, e.actor, e.frame, e.envelope);
    } else {
      FewerLasts(w.hub, Apply(w, e).hub);
    }
  }

  lemma BeginLasts(h: Hub, actor: Authority, frame: Frame, envelope: Option<Outcome>)
    ensures Lasts(h, Begin(h, actor, frame, envelope).0)
  {
    hide Lasts, TakeRate, RateOf;
    SelfLasts(h);
    RatesLast(h, h.rates[actor.deviceId := TakeRate(RateOf(h, actor.deviceId), h.now).0]);
  }

  lemma RatesLast(h: Hub, rates: map<string, Rate>)
    ensures Lasts(h, h.(rates := rates))
  {
  }

  lemma ReceiveEndures(w: World, e: Event)
    requires Inv(w.hub) && Enabled(w, e) && e.Receive?
    ensures Endures(w.hub, Apply(w, e).hub)
  {
    hide Inv, Endures, Accept;
    AcceptLasts(w.hub, e.executorId, e.accepted);
  }

  lemma StepLasts(w: World, e: Event)
    requires Inv(w.hub) && Enabled(w, e)
    ensures Endures(w.hub, Apply(w, e).hub)
    ensures !e.Receive? ==> Lasts(w.hub, Apply(w, e).hub)
  {
    hide Inv, Lasts, Endures, Apply, Enabled;
    if e.Receive? {
      ReceiveEndures(w, e);
    } else {
      if e.BeginCommand? || e.FinishCommand? || e.SetRefusing? || e.Tick? {
        CommandStepLasts(w, e);
      } else if e.OpensExecutor? || e.ClosesExecutor? || e.RevokesConnection? || e.Touches? || e.Greets? || e.AsksPresence? {
        RegistryStepLasts(w, e);
      } else {
        RelayStepLasts(w, e);
      }
      LastsEndures(w.hub, Apply(w, e).hub);
    }
  }

  lemma {:induction false} RunLasts(w: World, es: seq<Event>)
    requires Inv(w.hub) && Follows(w, es)
    ensures Endures(w.hub, After(w, es).hub)
    decreases |es|
  {
    SelfLasts(w.hub);
    LastsEndures(w.hub, w.hub);
    hide Inv, Endures, Apply, Enabled;
    if es != [] {
      StepKeeps(w, es[0]);
      StepLasts(w, es[0]);
      RunLasts(Apply(w, es[0]), es[1..]);
      EnduresOn(w.hub, Apply(w, es[0]).hub, After(w, es).hub);
    }
  }

  /** A run from the start that goes on with `later`. */
  ghost predicate FollowsOn(now: int, es: seq<Event>, later: seq<Event>) {
    Follows(Start(now), es) && (RunKeeps(Start(now), es); Follows(After(Start(now), es), later))
  }

  ghost function Later(now: int, es: seq<Event>, later: seq<Event>): World
    requires FollowsOn(now, es, later)
  {
    RunKeeps(Start(now), es);
    After(After(Start(now), es), later)
  }

  /** A route keeps its ends for life: whatever happens while it lives, its client's link and its executor's
      connection stay the very ones it was registered with. */
  lemma RouteKeepsItsEnds(now: int, es: seq<Event>, later: seq<Event>, c: string)
    requires FollowsOn(now, es, later)
    requires var (h, h') := (After(Start(now), es).hub, Later(now, es, later).hub);
      c in h.byCommand && c in h'.byCommand && h'.byCommand[c] == h.byCommand[c]
    ensures var (h, h') := (After(Start(now), es).hub, Later(now, es, later).hub);
      var route := h.byCommand[c];
      && route.deviceId in h.desktops.values && route.deviceId in h'.desktops.values
      && h'.desktops.values[route.deviceId] == h.desktops.values[route.deviceId]
      && route.executorId in h.connections && route.executorId in h'.connections
      && SameConnection(h.connections[route.executorId], h'.connections[route.executorId])
  {
    hide Follows, After, Inv, Endures;
    RunKeeps(Start(now), es);
    var w := After(Start(now), es);
    RunKeeps(w, later);
    RunLasts(Start(now), es);
    RunLasts(w, later);
    RegistrationsDrawn(Start(now).hub, w.hub);
    hide Start;
    Attached(w.hub, c);
    Attached(After(w, later).hub, c);
    SameEnds(w.hub, After(w, later).hub, c);
  }

  lemma RegistrationsDrawn(start: Hub, h: Hub)
    requires Endures(start, h) && start.desktops.values == map[] && start.connections == map[]
    ensures forall d :: d in h.desktops.values ==> h.desktops.values[d].fence in h.fences
    ensures forall e :: e in h.connections ==> h.connections[e].fence in h.fences
  {
  }

  lemma SameEnds(h: Hub, h': Hub, c: string)
    requires Inv(h) && Inv(h') && Endures(h, h') && c in h.byCommand && c in h'.byCommand && h'.byCommand[c] == h.byCommand[c]
    requires forall d :: d in h.desktops.values ==> h.desktops.values[d].fence in h.fences
    requires forall e :: e in h.connections ==> h.connections[e].fence in h.fences
    ensures var route := h.byCommand[c];
      && h'.desktops.values[route.deviceId] == h.desktops.values[route.deviceId]
      && SameConnection(h.connections[route.executorId], h'.connections[route.executorId])
  {
    hide RoutesInv, Remembered, Ordered;
    var route := h.byCommand[c];
    assert route.id in h.resolved by { RouteAnswered(h, c); }
  }

  lemma RouteAnswered(h: Hub, c: string)
    requires RoutesInv(h) && c in h.byCommand
    ensures h.byCommand[c].id in h.resolved
  {
  }

  lemma SameAnswer(h: Hub, h': Hub, id: nat, outcome: Outcome)
    requires Inv(h') && Endures(h, h') && id in h.resolved && h.resolved[id] == [outcome]
    ensures id in h'.resolved && h'.resolved[id] == [outcome]
  {
    hide Connected, Linked, Remembered, Indexed, Capped, Numbered;
    assert h.resolved[id] <= h'.resolved[id] && |h'.resolved[id]| <= 1;
  }

  /** An answer is final: a promise that is resolved stays resolved, once, with what it was resolved with. */
  lemma AnswersAreFinal(now: int, es: seq<Event>, later: seq<Event>, id: nat, outcome: Outcome)
    requires FollowsOn(now, es, later)
    requires id in After(Start(now), es).hub.resolved && After(Start(now), es).hub.resolved[id] == [outcome]
    ensures id in Later(now, es, later).hub.resolved && Later(now, es, later).hub.resolved[id] == [outcome]
  {
    hide Follows, After, Start, Inv, Endures;
    RunKeeps(Start(now), es);
    var w := After(Start(now), es);
    RunKeeps(w, later);
    RunLasts(w, later);
    SameAnswer(w.hub, After(w, later).hub, id, outcome);
  }

  /** A command's promise is answered with acceptance, an offline executor, a timeout or the loss of its link:
      never with back pressure. */
  lemma AnswersArePossible(now: int, es: seq<Event>, id: nat, outcome: Outcome)
    requires Follows(Start(now), es)
    requires id in After(Start(now), es).hub.resolved && outcome in After(Start(now), es).hub.resolved[id]
    ensures outcome in {Accepted, ExecutorOffline, AcceptTimeout, Unauthorized}
  {
    RunLasts(Start(now), es);
    var h := After(Start(now), es).hub;
    hide Follows, After, Inv, AnswersLast, LinksLast, ConnectionsLast;
    NoneBefore(h.resolved, id, outcome);
  }

  lemma NoneBefore(resolved: map<nat, seq<Outcome>>, id: nat, outcome: Outcome)
    requires AnswersLast(map[], resolved, true) && id in resolved && outcome in resolved[id]
    ensures Refusal(outcome) || outcome == Accepted
  {
  }

  // ------------------------------------------------------------ orphans

  /** A promise for which nothing waits is never resolved, whatever comes later. */
  lemma OrphanedForever(now: int, es: seq<Event>, later: seq<Event>, id: nat)
    requires FollowsOn(now, es, later)
    requires var h := After(Start(now), es).hub; Orphaned(h.pending, h.resolved, id)
    ensures var h' := Later(now, es, later).hub; Orphaned(h'.pending, h'.resolved, id)
  {
    hide Follows, After, Start, Inv, Orphaned, LinksLast, ConnectionsLast, AnswersLast, DispatchesLast;
    RunKeeps(Start(now), es);
    RunLasts(After(Start(now), es), later);
  }

  /** A promise that is not owed an answer is an orphan, and no promise that is owed one is. */
  lemma OwedOrOrphaned(h: Hub)
    requires Inv(h)
    ensures Owed(h) <==> forall id :: !Orphaned(h.pending, h.resolved, id)
  {
    hide Indexed, Numbered, Capped, Linked, Connected, Remembered, Awaited, Once;
    if !Owed(h) {
      var i :| i in h.resolved && h.resolved[i] == [] && !(i in h.timers && h.timers[i].route.id == i
        && h.timers[i].route.commandId in h.pending && h.pending[h.timers[i].route.commandId] == h.timers[i].route);
      assert Orphaned(h.pending, h.resolved, i) by { PendingNamed(h); }
    }
  }

  lemma PendingNamed(h: Hub)
    requires Inv(h)
    ensures forall c :: c in h.pending ==> h.pending[c].commandId == c
  {
  }

  lemma {:induction false} EarlyOrphans(w: World, es: seq<Event>)
    requires Inv(w.hub) && Follows(w, es) && Owed(w.hub)
    ensures Owed(After(w, es).hub) <==> AcceptsFirst(w, es)
    decreases |es|
  {
    hide Inv, Apply, Enabled, Owed, TooEarly;
    if es != [] {
      StepKeeps(w, es[0]);
      if TooEarly(w, es[0]) {
        StillOrphaned(Apply(w, es[0]), es[1..]);
      } else {
        EarlyOrphans(Apply(w, es[0]), es[1..]);
      }
    }
  }

  lemma StillOrphaned(w: World, es: seq<Event>)
    requires Inv(w.hub) && Follows(w, es) && !Owed(w.hub)
    ensures !Owed(After(w, es).hub)
  {
    hide Inv, Follows, After, Owed, Orphaned, LinksLast, ConnectionsLast, AnswersLast, DispatchesLast;
    RunKeeps(w, es);
    RunLasts(w, es);
    OwedOrOrphaned(w.hub);
    OwedOrOrphaned(After(w, es).hub);
  }

  /** Exactly the runs in which some executor finishes a command before it accepts it leave a caller waiting
      for ever: every unresolved promise has its pending entry and an armed timer, and none is orphaned, if and
      only if executors accept first. */
  lemma OrphanedExactly(now: int, es: seq<Event>)
    requires Follows(Start(now), es)
    ensures var h := After(Start(now), es).hub;
      && (AcceptsFirst(Start(now), es) <==> Owed(h))
      && (AcceptsFirst(Start(now), es) <==> forall id :: !Orphaned(h.pending, h.resolved, id))
  {
    hide Inv, Follows, After, Owed, Orphaned, AcceptsFirst;
    RunKeeps(Start(now), es);
    EarlyOrphans(Start(now), es);
    OwedOrOrphaned(After(Start(now), es).hub);
  }
}
