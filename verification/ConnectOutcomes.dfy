/**
 The fate of every route in every step. Each step of the relay and the registry either leaves a route alone or ends
 it for one of five reasons, and its caller is told which; a command is accepted by its own executor only.
 */
module ConnectOutcomes {
  import opened Wrappers
  import opened JsMaps
  import opened ConnectHub
  import opened ConnectInvariants
  import opened ConnectKeeps
  import opened ConnectRuns
  import opened ConnectWiring
  import opened ConnectStreams
  import opened ConnectFates
  import ConnectRemoval
  import ConnectHistory

  // ------------------------------------------------------------ acceptance and last frames

  /** The acceptance is for the route, which still waits, and from its own executor. */
  predicate Fits(h: Hub, executorId: string, frame: Frame, r: Route) {
    && Waits(h, r) && r.executorId == executorId && r.commandId == frame.commandId
    && r.correlationId == frame.correlationId && r.idempotencyKey == frame.idempotencyKey
  }

  ghost predicate AcceptedNow(h: Hub, h': Hub, r: Route) {
    && Listed(h', r) && !Waits(h', r) && r.id in h'.resolved && h'.resolved[r.id] == [Accepted] && r.id !in h'.timers
  }

  /** An acceptance answers the route that it fits, and no other; it is taken exactly if there is such a route. */
  lemma AcceptPoint(h: Hub, executorId: string, frame: Frame, r: Route)
    requires RoutesInv(h) && Listed(h, r)
    ensures var (h', taken) := Accept(h, executorId, frame);
      && (if Fits(h, executorId, frame, r) then AcceptedNow(h, h', r) else LivesOn(h, h', r))
      && (Fits(h, executorId, frame, r) ==> taken)
  {
    hide RoutesInv, Resolve;
    ListedFacts(h, r);
    PendingNames(h);
    if frame.commandId in h.pending {
      ResolvePoint(h.resolved, {h.pending[frame.commandId].id}, Accepted, r.id);
      assert h.pending[frame.commandId].id == r.id <==> h.pending[frame.commandId] == r;
      assert [] + [Accepted] == [Accepted];
    }
  }

  lemma PendingNames(h: Hub)
    requires RoutesInv(h)
    ensures forall c :: c in h.pending ==> h.pending[c].commandId == c && c in h.byCommand && h.byCommand[c] == h.pending[c]
  {
    hide Numbered, Answered, Capped;
  }

  /** An acceptance is taken exactly if the pending route of its command id fits it, and changes nothing otherwise. */
  lemma TakenExactly(h: Hub, executorId: string, frame: Frame)
    requires RoutesInv(h)
    ensures var (h', taken) := Accept(h, executorId, frame);
      && (taken <==> frame.commandId in h.pending && Fits(h, executorId, frame, h.pending[frame.commandId]))
      && (!taken ==> h' == h)
  {
    PendingNames(h);
    hide RoutesInv, Resolve;
  }

  lemma AcceptPast(h: Hub, executorId: string, frame: Frame, r: Route)
    ensures StaysPast(h, Accept(h, executorId, frame).0, r)
  {
    if frame.commandId in h.pending && r.id in h.resolved {
      ResolvePoint(h.resolved, {h.pending[frame.commandId].id}, Accepted, r.id);
    }
    hide Resolve;
  }

  /** A timer ends its own route, which still waits. */
  lemma FirePoint(h: Hub, id: nat, r: Route)
    requires RoutesInv(h) && id in h.timers && Listed(h, r)
    ensures Waits(h, h.timers[id].route) && h.timers[id].route.id == id
    ensures var h' := Fire(h, id); if r.id == id then Ends(h, h', r, Some(AcceptTimeout)) && Waits(h, r) else LivesOn(h, h', r)
  {
    TimerFacts(h, id);
    ListedFacts(h, r);
    FireAnswers(h, id);
    hide RoutesInv, Fire, RemoveRoutes;
    RemovePoint(h, {h.timers[id].route}, Some(AcceptTimeout), r);
  }

  lemma TimerFacts(h: Hub, id: nat)
    requires RoutesInv(h) && id in h.timers
    ensures h.timers[id].route.id == id && Waits(h, h.timers[id].route)
  {
    hide Indexed, Numbered, Once, Armed, Capped;
  }

  /** The last frame of the route, which its client's stream takes. */
  predicate Finishes(h: Hub, executorId: string, commandId: Option<string>, correlationId: string, terminal: bool, r: Route) {
    && terminal && r.executorId == executorId
    && (if commandId.Some? then commandId == Some(r.commandId) else correlationId == r.correlationId)
    && r.deviceId in h.desktops.values && h.desktops.values[r.deviceId].sink !in h.ended + h.refusing
  }

  lemma TargetIs(h: Hub, commandId: Option<string>, correlationId: string, r: Route)
    requires RoutesInv(h) && Listed(h, r)
    ensures Target(h, commandId, correlationId) == Some(r) <==>
      if commandId.Some? then commandId == Some(r.commandId) else correlationId == r.correlationId
    ensures Target(h, commandId, correlationId).Some? ==> Listed(h, Target(h, commandId, correlationId).value)
  {
    hide Numbered, Answered, Capped;
  }

  /** A frame reaches a client exactly if it is for a route of its own executor and the client's stream takes it; it
      ends that route if it is the last one, and the client's link if the stream does not take it. */
  lemma OutputPoint(h: Hub, executorId: string, commandId: Option<string>, correlationId: string, terminal: bool, r: Route)
    requires Inv(h) && Listed(h, r)
    ensures var h' := Output(h, executorId, commandId, correlationId, terminal).0;
      if Finishes(h, executorId, commandId, correlationId, terminal, r) then Ends(h, h', r, None)
      else Careful(h, h', r)
  {
    hide Inv, RoutesInv, EndSink, RemoveRoutes, RemoveDesktopRoutes, DropDesktop, Target, Careful, SameRoutes, Shrinks, LivesOn, Ends;
    ConnectRemoval.InvRoutes(h);
    TargetIs(h, commandId, correlationId, r);
    SelfShrinks(h);
    SameCareful(h, h, r);
    var target := Target(h, commandId, correlationId);
    if target.Some? && target.value.executorId == executorId {
      var route := target.value;
      NeverDetached(h, commandId, correlationId);
      if !Writes(h, h.desktops.values[route.deviceId].sink) {
        EndAndForgetCareful(h, h.desktops.values[route.deviceId].sink, route.deviceId, Some(route.desktopFence), r);
      } else if terminal {
        RemovePoint(h, {route}, None, r);
        RemoveShrinks(h, {route}, r);
      }
    }
  }

  lemma RemoveShrinks(h: Hub, gone: set<Route>, r: Route)
    ensures LivesOn(h, RemoveRoutes(h, gone, None), r) ==> Careful(h, RemoveRoutes(h, gone, None), r)
  {
    RemovePast(h, gone, None, r);
    RemoveSame(h, gone, None);
    hide RemoveRoutes, StaysPast, Ends;
  }

  lemma RoutedExactly(h: Hub, executorId: string, commandId: Option<string>, correlationId: string, terminal: bool)
    requires Inv(h)
    ensures Output(h, executorId, commandId, correlationId, terminal).1 <==>
      exists r :: Listed(h, r) && r.executorId == executorId && Target(h, commandId, correlationId) == Some(r)
        && r.deviceId in h.desktops.values && h.desktops.values[r.deviceId].sink !in h.ended + h.refusing
  {
    hide Inv, RoutesInv, EndSink, RemoveRoutes, RemoveDesktopRoutes, DropDesktop, Target;
    ConnectRemoval.InvRoutes(h);
    var target := Target(h, commandId, correlationId);
    if target.Some? {
      NeverDetached(h, commandId, correlationId);
      TargetListed(h, commandId, correlationId);
    }
  }

  lemma TargetListed(h: Hub, commandId: Option<string>, correlationId: string)
    requires RoutesInv(h) && Target(h, commandId, correlationId).Some?
    ensures Listed(h, Target(h, commandId, correlationId).value)
  {
    hide Numbered, Answered, Capped;
  }

  // ------------------------------------------------------------ the registry

  lemma CloseExecutorFences(h: Hub, executorId: string, onlyFence: Option<string>, r: Route)
    requires RoutesInv(h)
    ensures Fences(h, CloseExecutor(h, executorId, onlyFence), executorId,
                   executorId in h.connections && (onlyFence.None? || h.connections[executorId].fence == onlyFence.value), r)
    ensures Fences(h, RevokeConnection(h, executorId), executorId, executorId in h.connections, r)
  {
    hide RoutesInv, Disconnect, Delete, Fences, SameRoutes;
    var cleared := h.(stale := Delete(h.stale, executorId), hellos := Delete(h.hellos, executorId));
    ClearedRoutes(h, cleared, cleared.ended);
    SelfShrinks(h);
    SameFences(h, h, executorId, r);
    SameFences(h, cleared, executorId, r);
    if executorId in h.connections {
      DisconnectFences(h, cleared, executorId, r);
      var ended := h.ended + {h.connections[executorId].sink};
      ClearedRoutes(h, cleared, ended);
      DisconnectFences(h, cleared.(ended := ended), executorId, r);
    }
  }

  lemma ClearedRoutes(h: Hub, h': Hub, ended: set<nat>)
    requires h' == h.(stale := h'.stale, hellos := h'.hellos)
    ensures SameRoutes(h, h') && SameRoutes(h, h'.(ended := ended))
  {
  }

  lemma OpenExecutorFences(h: Hub, executorId: string, deviceId: string, generation: nat, sink: nat, fence: string, r: Route)
    requires RoutesInv(h)
    ensures Fences(h, OpenExecutor(h, executorId, deviceId, generation, sink, fence), executorId, executorId in h.connections, r)
  {
    hide RoutesInv, Disconnect, Delete, PruneStale, PruneHellos, Fences, SameRoutes;
    var pruned := PruneStale(PruneHellos(h));
    PrunedRoutes(h);
    PrunedConnections(h);
    SameFences(h, pruned, executorId, r);
    var replaced := ReplaceConnection(pruned, executorId);
    if executorId in h.connections {
      EndedRoutes(h, pruned, pruned.ended + {pruned.connections[executorId].sink});
      DisconnectFences(h, pruned.(ended := pruned.ended + {pruned.connections[executorId].sink}), executorId, r);
    }
    OpenedRoutes(h, executorId, deviceId, generation, sink, fence);
    FencesOn(h, replaced, OpenExecutor(h, executorId, deviceId, generation, sink, fence), executorId, executorId in h.connections, r);
  }

  lemma PrunedConnections(h: Hub)
    ensures PruneStale(PruneHellos(h)).connections == h.connections
  {
  }

  lemma EndedRoutes(h: Hub, h': Hub, ended: set<nat>)
    requires SameRoutes(h, h')
    ensures SameRoutes(h, h'.(ended := ended))
  {
  }

  lemma OpenedRoutes(h: Hub, executorId: string, deviceId: string, generation: nat, sink: nat, fence: string)
    ensures SameRoutes(ReplaceConnection(PruneStale(PruneHellos(h)), executorId), OpenExecutor(h, executorId, deviceId, generation, sink, fence))
  {
    hide ReplaceConnection, PruneStale, PruneHellos, Delete;
  }

  lemma FencesOn(a: Hub, b: Hub, c: Hub, executorId: string, fenced: bool, r: Route)
    requires Fences(a, b, executorId, fenced, r) && SameRoutes(b, c)
    ensures Fences(a, c, executorId, fenced, r)
  {
  }

  // ------------------------------------------------------------ the fate of a route

  /** Why a route ends, if it does; or that it is accepted, or left alone. */
  datatype Fate = LinkEnds | ExecutorGone | TimedOut | Finished | IsAccepted | LeftAlone

  /** The step takes the executor's connection away, or its trust: a new channel, a close of the channel or any
      close, a revocation; or its silence, or that it does not take a frame, is noticed. */
  predicate Parts(w: World, e: Event, x: string) {
    match e
    case RevokesExecutor(executorId) => executorId == x
    case OpensExecutor(executorId, _, _, _, _) => executorId == x && x in w.hub.connections
    case ClosesExecutor(executorId, onlyFence) =>
      executorId == x && x in w.hub.connections && (onlyFence.None? || w.hub.connections[x].fence == onlyFence.value)
    case RevokesConnection(executorId) => executorId == x && x in w.hub.connections
    case AsksPresence(executorId) => executorId == x && Quiet(w.hub, x)
    case FinishCommand(task, lookup, lag) =>
      && task in w.commands && w.commands[task].frame.executorId == x
      && Unheard(w.hub, w.commands[task].link, w.commands[task].frame, lookup, lag)
    case _ => false
  }

  function FateOf(w: World, e: Event, r: Route): Fate {
    if EndsLink(w.hub, e, r.deviceId) then LinkEnds
    else if Parts(w, e, r.executorId) then ExecutorGone
    else if e.TimerFires? && e.route == r.id then TimedOut
    else if e.Produce? && Finishes(w.hub, e.executorId, e.commandId, e.correlationId, e.terminal, r) then Finished
    else if e.Receive? && Fits(w.hub, e.executorId, e.accepted, r) then IsAccepted
    else LeftAlone
  }

  /** What each fate does to the route and tells its caller. */
  ghost predicate Meets(h: Hub, h': Hub, r: Route, fate: Fate) {
    match fate
    case LinkEnds => Ends(h, h', r, Some(Unauthorized))
    case ExecutorGone => Ends(h, h', r, Some(ExecutorOffline))
    case TimedOut => Ends(h, h', r, Some(AcceptTimeout))
    case Finished => Ends(h, h', r, None)
    case IsAccepted => AcceptedNow(h, h', r)
    case LeftAlone => LivesOn(h, h', r)
  }

  /** A listed route's link and executor are registered. */
  lemma ListedEnds(h: Hub, r: Route)
    requires Inv(h) && Listed(h, r)
    ensures r.deviceId in h.desktops.values && h.desktops.values[r.deviceId].fence == r.desktopFence
    ensures r.executorId in h.connections
  {
  }

  /** A route that was handled with care ends exactly if its link does. */
  lemma CarefulFate(h: Hub, h': Hub, r: Route)
    requires Inv(h) && Inv(h') && Listed(h, r) && Careful(h, h', r)
    ensures if KeepsLink(h, h', r.deviceId) then LivesOn(h, h', r) else Ends(h, h', r, Some(Unauthorized))
  {
    hide Inv, Ends;
    ListedEnds(h, r);
    if LivesOn(h, h', r) {
      ListedEnds(h', r);
    }
  }

  lemma EndedExactly(w: World, e: Event, r: Route)
    requires Inv(w.hub) && Wired(w.hub) && Enabled(w, e) && OwnStream(w.hub, e) && Listed(w.hub, r)
    ensures KeepsLink(w.hub, Apply(w, e).hub, r.deviceId) <==> !EndsLink(w.hub, e, r.deviceId)
  {
    hide Inv, Wired, Apply, Enabled, OwnStream, EndsLink;
    StepEnds(w, e);
    ListedEnds(w.hub, r);
  }

  /** A new link under a fresh fence touches no route. */
  lemma WatchLives(h: Hub, live: Hub, sink: nat, d: string, fence: string, r: Route)
    requires RoutesInv(h) && SameRoutes(h, live) && r.desktopFence != fence
    ensures var h' := Watch(live, sink, d, fence); (Listed(h, r) ==> LivesOn(h, h', r)) && StaysPast(h, h', r)
  {
    hide RoutesInv, SameRoutes, LivesOn, StaysPast, Ends, RemoveRoutes;
    SameLives(h, live, r);
    if sink in live.ended {
      var cut := live.(desktops := Delete(live.desktops, d), rates := live.rates - {d});
      if d in live.desktops.values && live.desktops.values[d].fence == fence {
        CutRoutes(h, live, Delete(live.desktops, d), live.rates - {d});
        SameLives(h, cut, r);
        var gone := DeviceRoutes(cut.byCommand, d, Some(fence));
        RemovePast(cut, gone, Some(Unauthorized), r);
        PastOn(h, cut, RemoveRoutes(cut, gone, Some(Unauthorized)), r);
        if Listed(h, r) {
          LivesListed(h, cut, r);
          assert r !in gone;
          RemovePoint(cut, gone, Some(Unauthorized), r);
          LivesThen(h, cut, RemoveRoutes(cut, gone, Some(Unauthorized)), r, None);
        }
      }
    } else {
      CallbackRoutes(h, live, live.onClose[sink := Callback(d, fence)]);
      SameLives(h, live.(onClose := live.onClose[sink := Callback(d, fence)]), r);
    }
  }

  lemma CutRoutes(h: Hub, live: Hub, desktops: JsMap<DesktopLink>, rates: map<string, Rate>)
    requires SameRoutes(h, live)
    ensures SameRoutes(h, live.(desktops := desktops, rates := rates))
  {
  }

  lemma CallbackRoutes(h: Hub, live: Hub, onClose: map<nat, Callback>)
    requires SameRoutes(h, live)
    ensures SameRoutes(h, live.(onClose := onClose))
  {
  }

  /** The links but one are as they were; that one, if it is there, is new. */
  ghost predicate NewLink(room: Hub, h': Hub, d: string, fence: string) {
    && (forall x :: x != d ==> (x in h'.desktops.values <==> x in room.desktops.values))
    && (forall x :: x != d && x in room.desktops.values ==> h'.desktops.values[x] == room.desktops.values[x])
    && (d in h'.desktops.values && d !in room.desktops.values ==> h'.desktops.values[d].fence == fence)
    && (d in h'.desktops.values && d in room.desktops.values ==>
          h'.desktops.values[d].fence == fence || h'.desktops.values[d] == room.desktops.values[d])
  }

  lemma WatchDesktops(h: Hub, sink: nat, d: string, fence: string)
    ensures Watch(h, sink, d, fence).desktops == h.desktops || Watch(h, sink, d, fence).desktops == Delete(h.desktops, d)
  {
    hide CloseLink, Delete;
    if d in h.desktops.values && h.desktops.values[d].fence == fence {
      CloseIs(h, d, fence);
    } else {
      CloseNothing(h, d, fence);
    }
  }

  lemma WatchLinks(h: Hub, sink: nat, d: string, fence: string)
    ensures NewLink(h, Watch(h, sink, d, fence), d, fence)
  {
    hide Watch;
    WatchDesktops(h, sink, d, fence);
    DeleteValues(h.desktops, d);
    hide Delete;
  }

  lemma LiveLinks(room: Hub, h: Hub, actor: Authority, sink: nat, fence: string)
    ensures NewLink(room, Watch(Live(room, h, actor, sink, fence), sink, actor.deviceId, fence), actor.deviceId, fence)
    ensures SameRoutes(room, Live(room, h, actor, sink, fence))
  {
    var live := Live(room, h, actor, sink, fence);
    hide Watch, Delete;
    WatchDesktops(live, sink, actor.deviceId, fence);
    DeleteValues(live.desktops, actor.deviceId);
    SetValues(room.desktops, actor.deviceId, DesktopLink(fence, actor.deviceId, actor, sink));
    hide Set;
  }

  /** What was handled with care, and then joined by a new link under a fresh fence. */
  lemma JoinedCareful(h: Hub, room: Hub, h': Hub, d: string, fence: string, r: Route)
    requires Careful(h, room, r) && Listed(h, r) && NewLink(room, h', d, fence)
    requires (Listed(room, r) ==> LivesOn(room, h', r)) && StaysPast(room, h', r)
    requires r.deviceId in h.desktops.values && h.desktops.values[r.deviceId].fence != fence
    ensures LivesOn(h, h', r) || (Ends(h, h', r, Some(Unauthorized)) && !KeepsLink(h, h', r.deviceId))
    ensures r.deviceId in h'.desktops.values && h'.desktops.values[r.deviceId].fence != fence ==> KeepsLink(h, h', r.deviceId)
  {
    hide StaysPast;
    if LivesOn(h, room, r) {
      LivesThen(h, room, h', r, None);
    } else {
      EndsThen(h, room, h', r, Some(Unauthorized));
    }
    hide LivesOn, Ends;
  }

  lemma OpenCareful(h: Hub, actor: Authority, sink: nat, fence: string, r: Route)
    requires Inv(h) && Listed(h, r) && KeyedByDevice(h.desktops)
    requires r.desktopFence != fence
    ensures var h' := Watch(OpenLink(h, actor, sink, fence), sink, actor.deviceId, fence);
      && (LivesOn(h, h', r) || (Ends(h, h', r, Some(Unauthorized)) && !KeepsLink(h, h', r.deviceId)))
      && (r.deviceId in h'.desktops.values && h'.desktops.values[r.deviceId].fence != fence ==> KeepsLink(h, h', r.deviceId))
  {
    ListedEnds(h, r);
    ConnectRemoval.InvRoutes(h);
    hide Inv, RoutesInv, KeyedByDevice, EndSink, Watch, Room, Live, Careful, LivesOn, Ends, StaysPast, SameRoutes, KeepsLink, NewLink;
    if Refused(h, actor) {
      var ended := EndSink(h, sink);
      var refused := ended.(fences := h.fences + {fence});
      assert OpenLink(h, actor, sink, fence) == refused;
      EndCareful(h, sink, r);
      EndRoutes(h, sink);
      FencedRoutes(ended, h.fences + {fence});
      WatchLives(ended, refused, sink, actor.deviceId, fence, r);
      WatchLinks(refused, sink, actor.deviceId, fence);
      FencedLinks(ended, refused, Watch(refused, sink, actor.deviceId, fence), actor.deviceId, fence);
      JoinedCareful(h, ended, Watch(refused, sink, actor.deviceId, fence), actor.deviceId, fence, r);
    } else {
      var room := Room(h, actor);
      RoomCareful(h, actor, r);
      ConnectRemoval.InvRoutes(room);
      OpenIsLive(h, actor, sink, fence);
      LiveLinks(room, h, actor, sink, fence);
      WatchLives(room, Live(room, h, actor, sink, fence), sink, actor.deviceId, fence, r);
      JoinedCareful(h, room, Watch(Live(room, h, actor, sink, fence), sink, actor.deviceId, fence), actor.deviceId, fence, r);
    }
  }

  lemma FencedRoutes(h: Hub, fences: set<string>)
    ensures SameRoutes(h, h.(fences := fences))
  {
  }

  lemma FencedLinks(h: Hub, fenced: Hub, h': Hub, d: string, fence: string)
    requires fenced.desktops == h.desktops && NewLink(fenced, h', d, fence)
    ensures NewLink(h, h', d, fence)
  {
  }

  // ------------------------------------------------------------ one step

  lemma OpenFate(w: World, e: Event, r: Route)
    requires Inv(w.hub) && Wired(w.hub) && Enabled(w, e) && Listed(w.hub, r) && e.OpenDesktop?
    ensures var h' := Apply(w, e).hub;
      if KeepsLink(w.hub, h', r.deviceId) then LivesOn(w.hub, h', r) else Ends(w.hub, h', r, Some(Unauthorized))
  {
    hide Inv, Wired, KeyedByDevice, LivesOn, Ends, OpenLink, Watch, KeepsLink;
    ListedEnds(w.hub, r);
    WiredFacts(w.hub);
    InvKeyed(w.hub);
    StepKeeps(w, e);
    OpenCareful(w.hub, e.actor, e.sink, e.fence, r);
    if LivesOn(w.hub, Apply(w, e).hub, r) {
      LivesListed(w.hub, Apply(w, e).hub, r);
      ListedEnds(Apply(w, e).hub, r);
    }
  }

  lemma CancelFate(w: World, e: Event, r: Route)
    requires Inv(w.hub) && Enabled(w, e) && Listed(w.hub, r) && (e.CancelStream? || e.RevokesDesktop?)
    ensures var h' := Apply(w, e).hub;
      if KeepsLink(w.hub, h', r.deviceId) then LivesOn(w.hub, h', r) else Ends(w.hub, h', r, Some(Unauthorized))
  {
    hide Inv, RoutesInv, Careful, LivesOn, Ends, EndSink, RevokeDesktop, KeepsLink;
    ConnectRemoval.InvRoutes(w.hub);
    StepKeeps(w, e);
    if e.CancelStream? {
      EndCareful(w.hub, e.sink, r);
    } else {
      RevokeDesktopCareful(w.hub, e.deviceId, r);
    }
    CarefulFate(w.hub, Apply(w, e).hub, r);
  }

  /** The links that an executor vouches for end first, and then its remaining routes. */
  lemma RevokeFate(w: World, e: Event, r: Route)
    requires Inv(w.hub) && Enabled(w, e) && Listed(w.hub, r) && e.RevokesExecutor?
    ensures var h' := Apply(w, e).hub;
      if !KeepsLink(w.hub, h', r.deviceId) then Ends(w.hub, h', r, Some(Unauthorized))
      else if r.executorId == e.executorId then Ends(w.hub, h', r, Some(ExecutorOffline)) else LivesOn(w.hub, h', r)
  {
    hide Inv, RoutesInv, KeyedByDevice, Careful, LivesOn, Ends, RevokeLinks, Links, KeepsLink, FenceExecutor, StaysPast;
    InvKeyed(w.hub);
    ConnectHistory.KeysListed(w.hub.desktops);
    var links := Links(w.hub.desktops);
    ConnectRemoval.InvRoutes(w.hub);
    ConnectRemoval.LinksRegistered(w.hub);
    var revoked := RevokeLinks(w.hub, links, e.executorId);
    RevokeLinksKeeps(w.hub, links, e.executorId);
    RevokeLinksCareful(w.hub, links, e.executorId, r);
    CarefulFate(w.hub, revoked, r);
    SelfShrinks(revoked);
    FencePoint(revoked, revoked, e.executorId, r);
    FencedDesktops(revoked, e.executorId);
    SameKept(w.hub, revoked, FenceExecutor(revoked, e.executorId), r.deviceId);
    if KeepsLink(w.hub, revoked, r.deviceId) {
      LivesListed(w.hub, revoked, r);
      LivesThen(w.hub, revoked, FenceExecutor(revoked, e.executorId), r, Some(ExecutorOffline));
    } else {
      EndsThen(w.hub, revoked, FenceExecutor(revoked, e.executorId), r, Some(Unauthorized));
    }
  }

  lemma FencedDesktops(h: Hub, executorId: string)
    ensures FenceExecutor(h, executorId).desktops == h.desktops
  {
  }

  lemma SameKept(h: Hub, h': Hub, h'': Hub, d: string)
    requires h''.desktops == h'.desktops
    ensures KeepsLink(h, h', d) == KeepsLink(h, h'', d)
  {
  }

  lemma OutputFate(w: World, e: Event, r: Route)
    requires Inv(w.hub) && Enabled(w, e) && Listed(w.hub, r) && e.Produce?
    ensures var h' := Apply(w, e).hub;
      if Finishes(w.hub, e.executorId, e.commandId, e.correlationId, e.terminal, r) then Ends(w.hub, h', r, None)
      else if KeepsLink(w.hub, h', r.deviceId) then LivesOn(w.hub, h', r) else Ends(w.hub, h', r, Some(Unauthorized))
  {
    hide Inv, Careful, LivesOn, Ends, Output, KeepsLink, Finishes;
    StepKeeps(w, e);
    OutputPoint(w.hub, e.executorId, e.commandId, e.correlationId, e.terminal, r);
    if !Finishes(w.hub, e.executorId, e.commandId, e.correlationId, e.terminal, r) {
      CarefulFate(w.hub, Apply(w, e).hub, r);
    }
  }

  lemma RegistryFate(w: World, e: Event, r: Route)
    requires Inv(w.hub) && Enabled(w, e) && Listed(w.hub, r)
    requires e.OpensExecutor? || e.ClosesExecutor? || e.RevokesConnection? || e.AsksPresence? || e.FinishCommand?
    ensures var h' := Apply(w, e).hub;
      if Parts(w, e, r.executorId) then Ends(w.hub, h', r, Some(ExecutorOffline)) else LivesOn(w.hub, h', r)
  {
    hide Inv, RoutesInv, LivesOn, Ends, StaysPast, OpenExecutor, CloseExecutor, RevokeConnection, Look, Finish, Quiet, Unheard;
    ConnectRemoval.InvRoutes(w.hub);
    match e
    case OpensExecutor(x, deviceId, generation, sink, fence) => OpenExecutorFences(w.hub, x, deviceId, generation, sink, fence, r);
    case ClosesExecutor(x, onlyFence) => CloseExecutorFences(w.hub, x, onlyFence, r);
    case RevokesConnection(x) => CloseExecutorFences(w.hub, x, None, r);
    case AsksPresence(x) => LookFences(w.hub, x, r);
    case FinishCommand(task, lookup, lag) =>
      FinishFences(w.hub, w.commands[task].link, w.commands[task].frame, lookup, lag, r);
  }

  lemma QuietFate(w: World, e: Event, r: Route)
    requires Inv(w.hub) && Enabled(w, e) && Listed(w.hub, r)
    requires e.SetRefusing? || e.BeginCommand? || e.Touches? || e.Greets? || e.Tick?
    ensures LivesOn(w.hub, Apply(w, e).hub, r)
  {
    hide RoutesInv, LivesOn;
    ConnectRemoval.InvRoutes(w.hub);
    QuietRoutes(w, e);
    hide Inv, Apply, Enabled, SameRoutes;
    SameLives(w.hub, Apply(w, e).hub, r);
  }

  lemma QuietRoutes(w: World, e: Event)
    requires Inv(w.hub) && Enabled(w, e) && (e.SetRefusing? || e.BeginCommand? || e.Touches? || e.Greets? || e.Tick?)
    ensures SameRoutes(w.hub, Apply(w, e).hub)
  {
    hide Inv, TakeRate, Prune, Trim, Set, Delete;
  }

  lemma AnswerFate(w: World, e: Event, r: Route)
    requires Inv(w.hub) && Enabled(w, e) && Listed(w.hub, r) && (e.TimerFires? || e.Receive?)
    ensures var h' := Apply(w, e).hub;
      if e.TimerFires? then if e.route == r.id then Ends(w.hub, h', r, Some(AcceptTimeout)) else LivesOn(w.hub, h', r)
      else if Fits(w.hub, e.executorId, e.accepted, r) then AcceptedNow(w.hub, h', r) else LivesOn(w.hub, h', r)
  {
    hide Inv, RoutesInv, LivesOn, Ends, Fire, Accept, Fits, AcceptedNow;
    ConnectRemoval.InvRoutes(w.hub);
    if e.TimerFires? {
      FirePoint(w.hub, e.route, r);
    } else {
      AcceptPoint(w.hub, e.executorId, e.accepted, r);
    }
  }

  /** Every route meets exactly the fate that the step has for it. */
  lemma StepFates(w: World, e: Event, r: Route)
    requires Inv(w.hub) && Wired(w.hub) && Enabled(w, e) && OwnStream(w.hub, e) && Listed(w.hub, r)
    ensures Meets(w.hub, Apply(w, e).hub, r, FateOf(w, e, r))
  {
    hide Inv, Wired, LivesOn, Ends, AcceptedNow, Apply, Enabled, OwnStream, KeepsLink, Fits, Finishes;
    EndedExactly(w, e, r);
    if e.OpenDesktop? {
      OpenFate(w, e, r);
    } else if e.CancelStream? || e.RevokesDesktop? {
      CancelFate(w, e, r);
    } else if e.RevokesExecutor? {
      RevokeFate(w, e, r);
    } else if e.Produce? {
      OutputFate(w, e, r);
      if Finishes(w.hub, e.executorId, e.commandId, e.correlationId, e.terminal, r) {
        FailsOrFinishes(w, e, r);
      }
    } else if e.OpensExecutor? || e.ClosesExecutor? || e.RevokesConnection? || e.AsksPresence? || e.FinishCommand? {
      RegistryFate(w, e, r);
    } else if e.TimerFires? || e.Receive? {
      AnswerFate(w, e, r);
    } else {
      QuietFate(w, e, r);
    }
  }

  /** A stream that takes the last frame of a route is not ended by it. */
  lemma FailsOrFinishes(w: World, e: Event, r: Route)
    requires e.Produce? && Finishes(w.hub, e.executorId, e.commandId, e.correlationId, e.terminal, r)
    ensures !EndsLink(w.hub, e, r.deviceId)
  {
    hide Target;
  }

  // ------------------------------------------------------------ whose acceptance it was

  predicate IsAnsweredAccepted(h: Hub, id: nat) {
    id in h.resolved && Accepted in h.resolved[id]
  }

  /** The step is an acceptance of the promise's own route, which waits: from the executor that the command was
      dispatched to, with its command id, correlation id and idempotency key. */
  predicate Hears(h: Hub, e: Event, id: nat) {
    && e.Receive? && e.accepted.commandId in h.pending && h.pending[e.accepted.commandId].id == id
    && Fits(h, e.executorId, e.accepted, h.pending[e.accepted.commandId])
  }

  lemma AcceptanceAnswers(h: Hub, executorId: string, frame: Frame, id: nat)
    requires RoutesInv(h) && !IsAnsweredAccepted(h, id)
    ensures IsAnsweredAccepted(Accept(h, executorId, frame).0, id) <==>
      && frame.commandId in h.pending && h.pending[frame.commandId].id == id
      && Fits(h, executorId, frame, h.pending[frame.commandId])
  {
    TakenExactly(h, executorId, frame);
    if frame.commandId in h.pending {
      PendingOwed(h, frame.commandId);
      ResolvedOne(h.resolved, h.pending[frame.commandId].id, id);
    }
    hide RoutesInv, Resolve;
  }

  lemma ResolvedOne(resolved: map<nat, seq<Outcome>>, at: nat, id: nat)
    requires at in resolved && resolved[at] == []
    requires !(id in resolved && Accepted in resolved[id])
    ensures id in Resolve(resolved, {at}, Accepted) && Accepted in Resolve(resolved, {at}, Accepted)[id] <==> id == at
  {
  }

  /** A step answers a promise with acceptance exactly if it is such a frame. */
  lemma StepHears(w: World, e: Event, id: nat)
    requires Inv(w.hub) && Enabled(w, e) && !IsAnsweredAccepted(w.hub, id)
    ensures IsAnsweredAccepted(Apply(w, e).hub, id) <==> Hears(w.hub, e, id)
  {
    hide Inv, RoutesInv, Accept, Fits, ConnectHistory.Lasts, ConnectHistory.Endures;
    ConnectRemoval.InvRoutes(w.hub);
    if e.Receive? {
      AcceptanceAnswers(w.hub, e.executorId, e.accepted, id);
    } else {
      hide Apply, Enabled;
      ConnectHistory.StepLasts(w, e);
      NoAcceptance(w.hub, Apply(w, e).hub, id);
    }
  }

  lemma NoAcceptance(h: Hub, h': Hub, id: nat)
    requires ConnectHistory.Lasts(h, h') && !IsAnsweredAccepted(h, id)
    ensures !IsAnsweredAccepted(h', id)
  {
    hide ConnectHistory.LinksLast, ConnectHistory.ConnectionsLast, ConnectHistory.DispatchesLast, ConnectHistory.OrphansLast;
    assert !ConnectHistory.Refusal(Accepted);
  }

  /** Some step of the run is such a frame. */
  ghost predicate Heard(w: World, es: seq<Event>, id: nat)
    requires Inv(w.hub) && Follows(w, es)
    decreases |es|
  {
    es != [] && (Hears(w.hub, es[0], id) || (StepKeeps(w, es[0]); Heard(Apply(w, es[0]), es[1..], id)))
  }

  lemma {:induction false} RunHears(w: World, es: seq<Event>, id: nat)
    requires Inv(w.hub) && Follows(w, es) && !IsAnsweredAccepted(w.hub, id)
    ensures IsAnsweredAccepted(After(w, es).hub, id) ==> Heard(w, es, id)
    ensures es != [] && Hears(w.hub, es[0], id) ==> IsAnsweredAccepted(After(w, es).hub, id)
    decreases |es|
  {
    hide Inv, Apply, Enabled, Hears;
    if es != [] {
      StepKeeps(w, es[0]);
      StepHears(w, es[0], id);
      if Hears(w.hub, es[0], id) {
        StaysAccepted(Apply(w, es[0]), es[1..], id);
      } else {
        RunHears(Apply(w, es[0]), es[1..], id);
      }
    }
  }

  lemma StaysAccepted(w: World, es: seq<Event>, id: nat)
    requires Inv(w.hub) && Follows(w, es) && IsAnsweredAccepted(w.hub, id)
    ensures IsAnsweredAccepted(After(w, es).hub, id)
  {
    hide Inv, Follows, After, ConnectHistory.LinksLast, ConnectHistory.ConnectionsLast, ConnectHistory.DispatchesLast, ConnectHistory.OrphansLast;
    ConnectHistory.RunLasts(w, es);
    assert w.hub.resolved[id] <= After(w, es).hub.resolved[id];
  }

  lemma {:induction false} HeardAccepts(w: World, es: seq<Event>, id: nat)
    requires Inv(w.hub) && Follows(w, es) && Heard(w, es, id)
    ensures IsAnsweredAccepted(After(w, es).hub, id)
    decreases |es|
  {
    hide Inv, Apply, Enabled, Hears;
    StepKeeps(w, es[0]);
    if IsAnsweredAccepted(w.hub, id) {
      StaysAccepted(w, es, id);
    } else if Hears(w.hub, es[0], id) {
      RunHears(w, es, id);
    } else {
      HeardAccepts(Apply(w, es[0]), es[1..], id);
    }
  }

  /** In every run a command is answered with acceptance exactly if its own executor accepted it, by its own ids, while
      it waited: no other executor's frame, and none for another command, ever does. */
  lemma AcceptedByItsOwn(now: int, es: seq<Event>, id: nat)
    requires Follows(Start(now), es)
    ensures IsAnsweredAccepted(After(Start(now), es).hub, id) <==> Heard(Start(now), es, id)
  {
    assert !IsAnsweredAccepted(Start(now).hub, id);
    hide Inv, Follows, After, Heard, Hears, Start;
    RunHears(Start(now), es, id);
    if Heard(Start(now), es, id) {
      HeardAccepts(Start(now), es, id);
    }
  }

  // ------------------------------------------------------------ the fate of a route over whole runs

  /** In every run in which requests have streams of their own, each step ends exactly the routes that it has a
      reason to end, and tells each caller that still waits that reason. */
  lemma EveryRouteMeetsItsFate(now: int, es: seq<Event>, e: Event, r: Route)
    requires Follows(Start(now), es) && OwnStreams(Start(now), es)
    requires Enabled(After(Start(now), es), e) && OwnStream(After(Start(now), es).hub, e)
    requires Listed(After(Start(now), es).hub, r)
    ensures Inv(After(Start(now), es).hub)
    ensures var w := After(Start(now), es); Meets(w.hub, Apply(w, e).hub, r, FateOf(w, e, r))
  {
    hide Inv, Follows, Apply, Enabled, OwnStream, OwnStreams, Wired, Meets, FateOf, Listed;
    RunKeeps(Start(now), es);
    StartWired(now);
    RunWired(Start(now), es);
    hide After, Start;
    StepFates(After(Start(now), es), e, r);
  }
}
