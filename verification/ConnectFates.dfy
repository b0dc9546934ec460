/**
 What becomes of each route in one step, and what its caller is told: it ends with its client's link, with its
 executor's connection, with its accept timer or with its last frame, it is accepted by its own executor, or it
 lives on. Nothing else ends it, and nothing ends another route instead.
 */
module ConnectFates {
  import opened Wrappers
  import opened JsMaps
  import opened ConnectHub
  import opened ConnectInvariants
  import opened ConnectKeeps
  import opened ConnectRuns
  import opened ConnectWiring
  import opened ConnectStreams
  import ConnectPresence
  import ConnectSilence
  import ConnectRemoval

  predicate Listed(h: Hub, r: Route) {
    r.commandId in h.byCommand && h.byCommand[r.commandId] == r
  }

  /** The route has ended: neither index nor pending entry leads to its number again. */
  ghost predicate Past(h: Hub, r: Route) {
    !Listed(h, r) && r.id in h.resolved && r.id < h.nextRoute && forall c :: c in h.pending ==> h.pending[c].id != r.id
  }

  ghost predicate LivesOn(h: Hub, h': Hub, r: Route) {
    && Listed(h', r) && (Waits(h', r) <==> Waits(h, r))
    && r.id in h.resolved && r.id in h'.resolved && h'.resolved[r.id] == h.resolved[r.id]
  }

  /** The route ends; a caller that still waits is told `answer`, if any. */
  ghost predicate Ends(h: Hub, h': Hub, r: Route, answer: Option<Outcome>) {
    && Past(h', r) && r.id in h.resolved
    && h'.resolved[r.id] == if Waits(h, r) && answer.Some? then [answer.value] else h.resolved[r.id]
  }

  ghost predicate StaysPast(h: Hub, h': Hub, r: Route) {
    Past(h, r) ==> Past(h', r) && h'.resolved[r.id] == h.resolved[r.id]
  }

  // ------------------------------------------------------------ removing routes

  lemma ListedFacts(h: Hub, r: Route)
    requires RoutesInv(h) && Listed(h, r)
    ensures r.id < h.nextRoute && r.id in h.resolved && (Waits(h, r) ==> h.resolved[r.id] == [])
    ensures forall c :: c in h.pending && h.pending[c].id == r.id ==> h.pending[c] == r
  {
    hide Capped;
    forall c | c in h.pending && h.pending[c].id == r.id ensures h.pending[c] == r {
      assert h.byCommand[c] == h.pending[c];
    }
  }

  lemma KeptPoint(routes: map<string, Route>, gone: set<Route>, key: string, r: Route)
    ensures key in Kept(routes, gone) && Kept(routes, gone)[key] == r <==> key in routes && routes[key] == r && r !in gone
  {
  }

  lemma ReleasedPoint(h: Hub, gone: set<Route>, r: Route)
    requires RoutesInv(h) && Listed(h, r)
    ensures r.id in Released(h.pending, gone) <==> r in gone && Waits(h, r)
    ensures r in gone ==> forall c :: c in Kept(h.pending, gone) ==> Kept(h.pending, gone)[c].id != r.id
  {
    ListedFacts(h, r);
    hide RoutesInv;
  }

  lemma ResolvePoint(resolved: map<nat, seq<Outcome>>, ids: set<nat>, answer: Outcome, id: nat)
    requires id in resolved
    ensures id in Resolve(resolved, ids, answer)
    ensures Resolve(resolved, ids, answer)[id] == if id in ids then resolved[id] + [answer] else resolved[id]
  {
  }

  lemma RemovePoint(h: Hub, gone: set<Route>, answer: Option<Outcome>, r: Route)
    requires RoutesInv(h) && Listed(h, r)
    ensures var h' := RemoveRoutes(h, gone, answer); if r in gone then Ends(h, h', r, answer) else LivesOn(h, h', r)
  {
    hide RoutesInv, Kept, Released, Resolve;
    ListedFacts(h, r);
    KeptPoint(h.byCommand, gone, r.commandId, r);
    KeptPoint(h.pending, gone, r.commandId, r);
    ReleasedPoint(h, gone, r);
    if answer.Some? {
      ResolvePoint(h.resolved, Released(h.pending, gone), answer.value, r.id);
      assert [] + [answer.value] == [answer.value];
    }
  }

  lemma RemovePast(h: Hub, gone: set<Route>, answer: Option<Outcome>, r: Route)
    ensures StaysPast(h, RemoveRoutes(h, gone, answer), r)
  {
    if Past(h, r) {
      assert r.id !in Released(h.pending, gone);
    }
  }

  /** Route tables, promises and their numbers are the same. */
  predicate SameRoutes(h: Hub, h': Hub) {
    && h'.byCommand == h.byCommand && h'.byCorrelation == h.byCorrelation && h'.pending == h.pending
    && h'.timers == h.timers && h'.resolved == h.resolved && h'.nextRoute == h.nextRoute
  }

  lemma SameLives(h: Hub, h': Hub, r: Route)
    requires RoutesInv(h) && SameRoutes(h, h')
    ensures (Listed(h, r) ==> LivesOn(h, h', r)) && StaysPast(h, h', r) && RoutesInv(h')
  {
    if Listed(h, r) {
      ListedFacts(h, r);
    }
    hide Indexed, Numbered, Answered, Capped;
  }

  /** What lives on or stays past through one stretch meets what comes in the next. */
  lemma LivesThen(a: Hub, b: Hub, c: Hub, r: Route, answer: Option<Outcome>)
    requires LivesOn(a, b, r)
    ensures LivesOn(b, c, r) ==> LivesOn(a, c, r)
    ensures Ends(b, c, r, answer) ==> Ends(a, c, r, answer)
  {
  }

  lemma EndsThen(a: Hub, b: Hub, c: Hub, r: Route, answer: Option<Outcome>)
    requires Ends(a, b, r, answer) && StaysPast(b, c, r)
    ensures Ends(a, c, r, answer)
  {
  }

  // ------------------------------------------------------------ routes and links

  /** Links only go; a route ends only unauthorized and with its link. */
  ghost predicate Careful(h: Hub, h': Hub, r: Route) {
    && Shrinks(h, h') && StaysPast(h, h', r)
    && (Listed(h, r) ==> LivesOn(h, h', r) || (Ends(h, h', r, Some(Unauthorized)) && !KeepsLink(h, h', r.deviceId)))
  }

  lemma CarefulOn(a: Hub, b: Hub, c: Hub, r: Route)
    requires Careful(a, b, r) && Careful(b, c, r)
    ensures Careful(a, c, r)
  {
    if Listed(a, r) {
      if LivesOn(a, b, r) {
        LivesThen(a, b, c, r, Some(Unauthorized));
      } else {
        EndsThen(a, b, c, r, Some(Unauthorized));
      }
    }
    hide LivesOn, Ends, Past;
  }

  lemma SameCareful(h: Hub, h': Hub, r: Route)
    requires RoutesInv(h) && SameRoutes(h, h') && Shrinks(h, h')
    ensures Careful(h, h', r)
  {
    hide RoutesInv, SameRoutes;
    SameLives(h, h', r);
    hide LivesOn;
  }

  /** A device's link is dropped, whatever else, and routes of the device are removed unauthorized. */
  lemma ForgetCareful(h: Hub, cut: Hub, d: string, fence: Option<string>, r: Route)
    requires RoutesInv(h) && SameRoutes(h, cut) && Shrinks(h, cut) && d !in cut.desktops.values
    ensures Careful(h, RemoveDesktopRoutes(cut, d, fence), r)
  {
    hide RoutesInv, RemoveRoutes, SameRoutes, LivesOn, Ends, StaysPast;
    SameLives(h, cut, r);
    var gone := DeviceRoutes(cut.byCommand, d, fence);
    RemovePast(cut, gone, Some(Unauthorized), r);
    RemoveSame(cut, gone, Some(Unauthorized));
    PastOn(h, cut, RemoveRoutes(cut, gone, Some(Unauthorized)), r);
    if Listed(h, r) {
      LivesListed(h, cut, r);
      RemovePoint(cut, gone, Some(Unauthorized), r);
      LivesThen(h, cut, RemoveRoutes(cut, gone, Some(Unauthorized)), r, Some(Unauthorized));
    }
  }

  lemma PastOn(a: Hub, b: Hub, c: Hub, r: Route)
    requires StaysPast(a, b, r) && StaysPast(b, c, r)
    ensures StaysPast(a, c, r)
  {
  }

  lemma LivesListed(h: Hub, h': Hub, r: Route)
    requires LivesOn(h, h', r)
    ensures Listed(h', r)
  {
  }

  lemma CloseCareful(h: Hub, d: string, fence: string, r: Route)
    requires RoutesInv(h)
    ensures Careful(h, CloseLink(h, d, fence), r)
  {
    hide RoutesInv, RemoveDesktopRoutes, Careful;
    SameCareful(h, h, r);
    if d in h.desktops.values && h.desktops.values[d].fence == fence {
      ForgetCareful(h, h.(desktops := Delete(h.desktops, d), rates := h.rates - {d}), d, Some(fence), r);
    }
  }

  lemma EndCareful(h: Hub, sink: nat, r: Route)
    requires RoutesInv(h)
    ensures Careful(h, EndSink(h, sink), r)
  {
    hide RoutesInv, CloseLink, Careful;
    SameCareful(h, h, r);
    if sink !in h.ended {
      var marked := h.(ended := h.ended + {sink}, onClose := h.onClose - {sink});
      SameCareful(h, marked, r);
      SameLives(h, marked, r);
      if sink in h.onClose {
        CloseCareful(marked, h.onClose[sink].deviceId, h.onClose[sink].fence, r);
        CarefulOn(h, marked, EndSink(h, sink), r);
      }
    }
  }

  lemma EndRoutes(h: Hub, sink: nat)
    requires RoutesInv(h)
    ensures RoutesInv(EndSink(h, sink))
  {
    ConnectRemoval.EndKeepsRoutes(h, sink);
  }

  lemma DropCommutes(h: Hub, d: string, fence: Option<string>)
    ensures DropDesktop(RemoveDesktopRoutes(h, d, fence), d) == RemoveDesktopRoutes(DropDesktop(h, d), d, fence)
  {
  }

  lemma Dropped(h: Hub, d: string)
    ensures SameRoutes(h, DropDesktop(h, d)) && Shrinks(h, DropDesktop(h, d)) && d !in DropDesktop(h, d).desktops.values
  {
  }

  /** A stream ends, a link is dropped, and routes of its device are removed. */
  lemma EndAndForgetCareful(h: Hub, sink: nat, d: string, fence: Option<string>, r: Route)
    requires RoutesInv(h)
    ensures var dropped := DropDesktop(EndSink(h, sink), d);
      && Careful(h, RemoveDesktopRoutes(dropped, d, fence), r)
      && Careful(h, RemoveDesktopRoutes(dropped.(rates := dropped.rates - {d}), d, fence), r)
  {
    hide RoutesInv, EndSink, DropDesktop, RemoveDesktopRoutes, Careful, SameRoutes, Shrinks;
    var ended := EndSink(h, sink);
    var dropped := DropDesktop(ended, d);
    EndCareful(h, sink, r);
    EndRoutes(h, sink);
    Dropped(ended, d);
    SameRated(ended, dropped, dropped.rates - {d});
    ForgetCareful(ended, dropped, d, fence, r);
    ForgetCareful(ended, dropped.(rates := dropped.rates - {d}), d, fence, r);
    CarefulOn(h, ended, RemoveDesktopRoutes(dropped, d, fence), r);
    CarefulOn(h, ended, RemoveDesktopRoutes(dropped.(rates := dropped.rates - {d}), d, fence), r);
  }

  lemma SameRated(h: Hub, h': Hub, rates: map<string, Rate>)
    requires SameRoutes(h, h') && Shrinks(h, h')
    ensures SameRoutes(h, h'.(rates := rates)) && Shrinks(h, h'.(rates := rates))
  {
  }

  lemma ReplaceCareful(h: Hub, previous: DesktopLink, r: Route)
    requires RoutesInv(h)
    ensures Careful(h, Replace(h, previous), r)
  {
    hide RoutesInv, EndSink, DropDesktop, RemoveDesktopRoutes, Careful;
    EndAndForgetCareful(h, previous.sink, previous.deviceId, Some(previous.fence), r);
    DropCommutes(EndSink(h, previous.sink), previous.deviceId, Some(previous.fence));
  }

  lemma CloseRoutes(h: Hub, d: string, fence: string)
    requires RoutesInv(h)
    ensures RoutesInv(CloseLink(h, d, fence))
  {
    hide Indexed, Numbered, Answered, Capped, RemoveRoutes;
    if d in h.desktops.values && h.desktops.values[d].fence == fence {
      var closed := h.(desktops := Delete(h.desktops, d), rates := h.rates - {d});
      ConnectRemoval.RoutesOnly(h, closed);
      RemoveKeepsRoutes(closed, DeviceRoutes(h.byCommand, d, Some(fence)), Some(Unauthorized));
    }
  }

  lemma EvictOldestCareful(h: Hub, r: Route)
    requires RoutesInv(h) && KeyedByDevice(h.desktops) && h.desktops.keys != []
    ensures Careful(h, EvictOldest(h), r) && RoutesInv(EvictOldest(h))
  {
    var oldest := h.desktops.values[h.desktops.keys[0]];
    hide RoutesInv, KeyedByDevice, CloseLink, EndSink, Careful;
    var closed := CloseLink(h, oldest.deviceId, oldest.fence);
    CloseCareful(h, oldest.deviceId, oldest.fence, r);
    CloseRoutes(h, oldest.deviceId, oldest.fence);
    EndCareful(closed, oldest.sink, r);
    EndRoutes(closed, oldest.sink);
    CarefulOn(h, closed, EndSink(closed, oldest.sink), r);
  }

  lemma {:induction false} EvictCareful(h: Hub, r: Route)
    requires RoutesInv(h) && KeyedByDevice(h.desktops)
    ensures Careful(h, Evict(h), r)
    decreases |h.desktops.keys|
  {
    hide RoutesInv, Careful, EvictOldest, KeyedByDevice;
    SelfShrinks(h);
    SameCareful(h, h, r);
    if |h.desktops.keys| >= MAX_CONNECTIONS {
      EvictOldestCareful(h, r);
      EvictCareful(EvictOldest(h), r);
      CarefulOn(h, EvictOldest(h), Evict(h), r);
    }
  }

  lemma SelfShrinks(h: Hub)
    ensures Shrinks(h, h) && SameRoutes(h, h)
  {
  }

  lemma RoomCareful(h: Hub, actor: Authority, r: Route)
    requires Inv(h) && KeyedByDevice(h.desktops)
    ensures Careful(h, Room(h, actor), r) && Inv(Room(h, actor))
  {
    ReplaceShrinks(h, actor.deviceId);
    ConnectRemoval.InvRoutes(h);
    if actor.deviceId in h.desktops.values {
      ConnectRemoval.ReplaceKeeps(h, actor.deviceId);
    }
    hide Inv, RoutesInv, KeyedByDevice, Careful, Replace, Evict;
    var replaced := if actor.deviceId in h.desktops.values then Replace(h, h.desktops.values[actor.deviceId]) else h;
    SelfShrinks(h);
    SameCareful(h, h, r);
    if actor.deviceId in h.desktops.values {
      ReplaceCareful(h, h.desktops.values[actor.deviceId], r);
    }
    ConnectRemoval.InvRoutes(replaced);
    EvictCareful(replaced, r);
    EvictKeeps(replaced);
    CarefulOn(h, replaced, Evict(replaced), r);
  }

  lemma RevokeDesktopCareful(h: Hub, d: string, r: Route)
    requires RoutesInv(h)
    ensures Careful(h, RevokeDesktop(h, d), r)
  {
    hide RoutesInv, EndSink, DropDesktop, RemoveDesktopRoutes, Careful, SameRoutes, Shrinks;
    var cleared := if d in h.desktops.values
      then RemoveDesktopRoutes(DropDesktop(EndSink(h, h.desktops.values[d].sink), d), d, Some(h.desktops.values[d].fence))
      else RemoveDesktopRoutes(h, d, None);
    if d in h.desktops.values {
      EndAndForgetCareful(h, h.desktops.values[d].sink, d, Some(h.desktops.values[d].fence), r);
    } else {
      SelfShrinks(h);
      ForgetCareful(h, h, d, None, r);
    }
    RatedCareful(h, cleared, cleared.rates - {d}, r);
  }

  lemma RatedCareful(h: Hub, h': Hub, rates: map<string, Rate>, r: Route)
    requires Careful(h, h', r)
    ensures Careful(h, h'.(rates := rates), r)
  {
  }

  lemma RevokeLinkCareful(h: Hub, link: DesktopLink, r: Route)
    requires RoutesInv(h)
    ensures Careful(h, RevokeLink(h, link), r)
  {
    hide RoutesInv, EndSink, DropDesktop, RemoveDesktopRoutes, Careful;
    EndAndForgetCareful(h, link.sink, link.deviceId, Some(link.fence), r);
  }

  lemma RevokeLinkRoutes(h: Hub, link: DesktopLink)
    requires RoutesInv(h)
    ensures RoutesInv(RevokeLink(h, link))
  {
    hide RoutesInv, EndSink, RemoveRoutes, Delete;
    EndRoutes(h, link.sink);
    var dropped := DropDesktop(EndSink(h, link.sink), link.deviceId);
    var forgotten := dropped.(rates := dropped.rates - {link.deviceId});
    ConnectRemoval.RoutesOnly(EndSink(h, link.sink), forgotten);
    RemoveKeepsRoutes(forgotten, DeviceRoutes(forgotten.byCommand, link.deviceId, Some(link.fence)), Some(Unauthorized));
  }

  lemma {:induction false} RevokeLinksCareful(h: Hub, links: seq<DesktopLink>, executorId: string, r: Route)
    requires RoutesInv(h)
    ensures Careful(h, RevokeLinks(h, links, executorId), r) && RoutesInv(RevokeLinks(h, links, executorId))
    decreases |links|
  {
    hide RoutesInv, Careful, RevokeLink;
    SelfShrinks(h);
    SameCareful(h, h, r);
    if links != [] {
      var next := if VouchedBy(links[0], executorId) then RevokeLink(h, links[0]) else h;
      RevokeLinkCareful(h, links[0], r);
      RevokeLinkRoutes(h, links[0]);
      RevokeLinksCareful(next, links[1..], executorId, r);
      CarefulOn(h, next, RevokeLinks(next, links[1..], executorId), r);
    }
  }

  // ------------------------------------------------------------ routes and executors

  /** Fencing an executor ends its routes, and no other. */
  lemma FencePoint(h: Hub, cut: Hub, executorId: string, r: Route)
    requires RoutesInv(h) && SameRoutes(h, cut)
    ensures var h' := FenceExecutor(cut, executorId);
      && StaysPast(h, h', r)
      && (Listed(h, r) ==> if r.executorId == executorId then Ends(h, h', r, Some(ExecutorOffline)) else LivesOn(h, h', r))
  {
    hide RoutesInv, RemoveRoutes, SameRoutes, LivesOn, Ends, StaysPast;
    SameLives(h, cut, r);
    var gone := ExecutorRoutes(cut.byCommand, executorId);
    RemovePast(cut, gone, Some(ExecutorOffline), r);
    var h' := RemoveRoutes(cut, gone, Some(ExecutorOffline));
    PastOn(h, cut, h', r);
    if Listed(h, r) {
      LivesListed(h, cut, r);
      RemovePoint(cut, gone, Some(ExecutorOffline), r);
      LivesThen(h, cut, h', r, Some(ExecutorOffline));
    }
  }

  /** A registry operation either fences its executor or leaves every route alone. */
  ghost predicate Fences(h: Hub, h': Hub, executorId: string, fenced: bool, r: Route) {
    && StaysPast(h, h', r)
    && (Listed(h, r) ==>
          if fenced && r.executorId == executorId then Ends(h, h', r, Some(ExecutorOffline)) else LivesOn(h, h', r))
  }

  lemma SameFences(h: Hub, h': Hub, executorId: string, r: Route)
    requires RoutesInv(h) && SameRoutes(h, h')
    ensures Fences(h, h', executorId, false, r)
  {
    hide RoutesInv, SameRoutes, LivesOn, StaysPast;
    SameLives(h, h', r);
  }

  lemma DisconnectFences(h: Hub, cut: Hub, executorId: string, r: Route)
    requires RoutesInv(h) && SameRoutes(h, cut)
    ensures Fences(h, Disconnect(cut, executorId), executorId, true, r)
  {
    hide RoutesInv, FenceExecutor, LivesOn, Ends, StaysPast;
    FencePoint(h, cut.(connections := cut.connections - {executorId}), executorId, r);
  }

  lemma LookFences(h: Hub, executorId: string, r: Route)
    requires RoutesInv(h)
    ensures Fences(h, Look(h, executorId).0, executorId, Quiet(h, executorId), r)
  {
    hide RoutesInv, FenceExecutor, Fences, Prune, Trim, Set, Delete, SameRoutes;
    var pruned := PruneStale(PruneHellos(h));
    PrunedRoutes(h);
    SameFences(h, pruned, executorId, r);
    if Quiet(h, executorId) {
      var cut := pruned.(ended := h.ended + {h.connections[executorId].sink}, connections := h.connections - {executorId});
      MarkedRoutes(h, cut, executorId);
      MarkFences(h, MarkStale(cut, executorId), executorId, r);
    }
  }

  lemma MarkFences(h: Hub, cut: Hub, executorId: string, r: Route)
    requires RoutesInv(h) && SameRoutes(h, cut)
    ensures Fences(h, FenceExecutor(cut, executorId), executorId, true, r)
  {
    hide RoutesInv, FenceExecutor, LivesOn, Ends, StaysPast;
    FencePoint(h, cut, executorId, r);
  }

  lemma PrunedRoutes(h: Hub)
    ensures SameRoutes(h, PruneStale(PruneHellos(h)))
  {
    hide Prune;
  }

  lemma MarkedRoutes(h: Hub, cut: Hub, executorId: string)
    requires cut.byCommand == h.byCommand && cut.byCorrelation == h.byCorrelation && cut.pending == h.pending
    requires cut.timers == h.timers && cut.resolved == h.resolved && cut.nextRoute == h.nextRoute
    ensures SameRoutes(h, MarkStale(cut, executorId))
  {
    hide Trim, Set, Delete;
  }

  lemma FencesThen(a: Hub, b: Hub, c: Hub, executorId: string, fenced: bool, r: Route)
    requires LivesOn(a, b, r) || !Listed(a, r)
    requires StaysPast(a, b, r) && Fences(b, c, executorId, fenced, r)
    ensures Fences(a, c, executorId, fenced, r)
  {
    PastOn(a, b, c, r);
    if Listed(a, r) {
      LivesThen(a, b, c, r, Some(ExecutorOffline));
    }
    hide StaysPast, Ends;
  }

  lemma LookRoutes(h: Hub, executorId: string)
    requires RoutesInv(h)
    ensures RoutesInv(Look(h, executorId).0)
    ensures Look(h, executorId).1 == Online <==> executorId in h.connections && !Quiet(h, executorId)
    ensures Look(h, executorId).1 == Online ==> SameButTables(h, Look(h, executorId).0)
  {
    hide Indexed, Numbered, Answered, Capped, RemoveRoutes, Prune, Trim, Set, Delete;
    if executorId in h.connections && Quiet(h, executorId) {
      var pruned := PruneStale(PruneHellos(h));
      var cut := MarkStale(
        pruned.(ended := h.ended + {h.connections[executorId].sink}, connections := h.connections - {executorId}), executorId);
      ConnectRemoval.RoutesOnly(h, cut);
      RemoveKeepsRoutes(cut, ExecutorRoutes(cut.byCommand, executorId), Some(ExecutorOffline));
    }
  }

  /** A dispatch fences its executor exactly if that is silent or does not take the frame. */
  predicate Unreached(h: Hub, executorId: string) {
    && executorId in h.connections
    && (Quiet(h, executorId) || h.connections[executorId].sink in h.ended || h.connections[executorId].sink in h.refusing)
  }

  lemma DispatchFences(h: Hub, executorId: string, r: Route)
    requires RoutesInv(h)
    ensures Fences(h, Dispatch(h, executorId).0, executorId, Unreached(h, executorId), r)
    ensures Dispatch(h, executorId).1 == (
      if executorId !in h.connections || Quiet(h, executorId) then Some(ExecutorOffline)
      else if h.connections[executorId].sink in h.ended + h.refusing then Some(Backpressure) else None)
  {
    hide RoutesInv, Look, Disconnect, Fences, SameRoutes;
    LookFences(h, executorId, r);
    LookRoutes(h, executorId);
    SelfShrinks(h);
    SameFences(h, h, executorId, r);
    var looked := Look(h, executorId).0;
    if Look(h, executorId).1 == Online && !Writes(h, h.connections[executorId].sink) {
      TablesRoutes(h, looked, looked.ended + {h.connections[executorId].sink});
      DisconnectFences(h, looked.(ended := looked.ended + {h.connections[executorId].sink}), executorId, r);
    }
  }

  lemma TablesRoutes(h: Hub, h': Hub, ended: set<nat>)
    requires SameButTables(h, h')
    ensures SameRoutes(h, h'.(ended := ended))
  {
  }

  /** The command's target is the executor that the row describes, on the link it came from. */
  predicate Matched(h: Hub, link: DesktopLink, frame: Frame, lookup: Lookup) {
    && lookup.Usable? && link.deviceId in h.desktops.values && h.desktops.values[link.deviceId] == link
    && frame.executorId in h.connections
    && h.connections[frame.executorId].deviceId == lookup.row.deviceId
    && h.connections[frame.executorId].generation == lookup.row.generation
  }

  /** The four caps, and identifiers that no route has. */
  predicate Roomy(h: Hub, deviceId: string, frame: Frame) {
    && |h.pending| < 256 && |h.byCommand| < 1_024 && |set c | c in h.byCommand && h.byCommand[c].deviceId == deviceId :: h.byCommand[c]| < 32
    && frame.commandId !in h.byCommand && frame.correlationId !in h.byCorrelation
  }

  /** The second half of a command finds its executor silent, or registers its route and cannot write its frame. */
  predicate Unheard(h: Hub, link: DesktopLink, frame: Frame, lookup: Lookup, lag: nat) {
    && Matched(h, link, frame, lookup)
    && (Quiet(h, frame.executorId)
        || (Roomy(h, link.deviceId, frame) && Unreached(h.(now := h.now + lag), frame.executorId)))
  }

  lemma RegisteredLives(h: Hub, link: DesktopLink, frame: Frame, lag: nat, r: Route)
    requires RoutesInv(h) && frame.commandId !in h.byCommand && frame.executorId in h.connections
    ensures var h' := ConnectHub.Registered(h, link, frame, lag); (Listed(h, r) ==> LivesOn(h, h', r)) && StaysPast(h, h', r)
  {
    hide RoutesInv;
    PendingListed(h);
    if Listed(h, r) {
      ListedFacts(h, r);
      assert r.id != h.nextRoute && r.commandId != frame.commandId;
    }
    assert Past(h, r) ==> r.id != h.nextRoute && NewRoute(h, link, frame) != r;
  }

  lemma PendingListed(h: Hub)
    requires RoutesInv(h)
    ensures forall c :: c in h.pending ==> c in h.byCommand
  {
    hide Numbered, Answered, Capped;
  }

  /** The route of a new command waits for its acceptance, five seconds at most. */
  lemma RegisteredWaits(h: Hub, link: DesktopLink, frame: Frame, lag: nat)
    requires frame.executorId in h.connections
    ensures var (h', route) := (ConnectHub.Registered(h, link, frame, lag), NewRoute(h, link, frame));
      && Listed(h', route) && Waits(h', route) && route.id == h.nextRoute && route.id in h'.resolved && h'.resolved[route.id] == []
      && route.id in h'.timers && h'.timers[route.id] == Timer(route, h.now + 5_000)
      && h'.connections == h.connections && h'.ended == h.ended && h'.refusing == h.refusing && h'.now == h.now + lag
  {
  }

  lemma SameRoom(h: Hub, h': Hub, deviceId: string, frame: Frame)
    requires SameButTables(h, h')
    ensures HasRoom(h', deviceId, frame) == Roomy(h, deviceId, frame)
  {
    assert DeviceRoutes(h.byCommand, deviceId, None) == set c | c in h.byCommand && h.byCommand[c].deviceId == deviceId :: h.byCommand[c];
  }

  /** How the second half of a command proceeds. */
  lemma FinishIs(h: Hub, link: DesktopLink, frame: Frame, lookup: Lookup, lag: nat)
    requires RoutesInv(h)
    ensures var looked := Look(h, frame.executorId).0;
      if !Matched(h, link, frame, lookup) then
        Finish(h, link, frame, lookup, lag) == (h,
          if !lookup.LookupFailed? && (link.deviceId !in h.desktops.values || h.desktops.values[link.deviceId] != link)
          then Some(Unauthorized) else Some(ExecutorOffline))
      else if Quiet(h, frame.executorId) then Finish(h, link, frame, lookup, lag) == (looked, Some(ExecutorOffline))
      else
        && SameButTables(h, looked)
        && Finish(h, link, frame, lookup, lag)
           == if !Roomy(h, link.deviceId, frame) then (looked, Some(Overloaded))
              else (Written(ConnectHub.Registered(looked, link, frame, lag), NewRoute(looked, link, frame)), None)
  {
    hide RoutesInv, Look, Written, ConnectHub.Registered, HasRoom, Roomy, SameButTables, Quiet;
    LookRoutes(h, frame.executorId);
    var looked := Look(h, frame.executorId).0;
    if Matched(h, link, frame, lookup) && !Quiet(h, frame.executorId) {
      SameRoom(h, looked, link.deviceId, frame);
    }
  }

  /** What the second half of a command answers at once. */
  lemma FinishAnswers(h: Hub, link: DesktopLink, frame: Frame, lookup: Lookup, lag: nat)
    requires Inv(h)
    ensures Finish(h, link, frame, lookup, lag).1 == (
      if lookup.LookupFailed? then Some(ExecutorOffline)
      else if link.deviceId !in h.desktops.values || h.desktops.values[link.deviceId] != link then Some(Unauthorized)
      else if !Matched(h, link, frame, lookup) || Quiet(h, frame.executorId) then Some(ExecutorOffline)
      else if !Roomy(h, link.deviceId, frame) then Some(Overloaded) else None)
  {
    hide Inv, Look, Written, Finish, Roomy, Quiet;
    ConnectRemoval.InvRoutes(h);
    FinishIs(h, link, frame, lookup, lag);
  }

  /** The route of the command that is dispatched: as the frame and its link say. */
  function RouteOf(h: Hub, link: DesktopLink, frame: Frame): Route {
    Route(h.nextRoute, frame.commandId, frame.correlationId, frame.idempotencyKey, frame.executorId,
          link.deviceId, link.fence, link.authority)
  }

  lemma WrittenIs(h: Hub, r: Route)
    requires Inv(h) && Waits(h, r)
    ensures Written(h, r) == Dispatch(h, r.executorId).0
  {
    hide Inv, Dispatch;
    if Dispatch(h, r.executorId).1.Some? {
      ConnectPresence.FailedDispatchHasAnswered(h, r);
    }
  }

  lemma DispatchTimers(h: Hub, executorId: string)
    ensures !Unreached(h, executorId) ==> Dispatch(h, executorId).0.timers == h.timers
  {
    hide FenceExecutor, Prune, MarkStale;
  }

  /** Its route waits, with its timer, unless its executor cannot be reached. */
  lemma WrittenFate(looked: Hub, link: DesktopLink, frame: Frame, lag: nat)
    requires Inv(looked) && frame.executorId in looked.connections && Inv(ConnectHub.Registered(looked, link, frame, lag))
    ensures var r := NewRoute(looked, link, frame);
      var h' := Written(ConnectHub.Registered(looked, link, frame, lag), r);
      && r.id in h'.resolved
      && if Unreached(looked.(now := looked.now + lag), frame.executorId) then Past(h', r) && h'.resolved[r.id] == [ExecutorOffline]
         else Listed(h', r) && Waits(h', r) && h'.resolved[r.id] == [] && r.id in h'.timers && h'.timers[r.id] == Timer(r, looked.now + 5_000)
  {
    hide Inv, RoutesInv, Written, ConnectHub.Registered, Dispatch, Unreached, Fences, Past, Waits;
    var registered := ConnectHub.Registered(looked, link, frame, lag);
    var r := NewRoute(looked, link, frame);
    RegisteredWaits(looked, link, frame, lag);
    ConnectRemoval.InvRoutes(registered);
    DispatchFences(registered, frame.executorId, r);
    DispatchTimers(registered, frame.executorId);
    WrittenIs(registered, r);
    SameReach(looked, registered, frame.executorId, lag);
    NewFate(registered, Dispatch(registered, frame.executorId).0, frame.executorId, Unreached(registered, frame.executorId), r);
  }

  /** A command that is dispatched waits for its acceptance, for five seconds, unless its executor cannot be reached:
      then it is answered and forgotten at once. */
  lemma DispatchedFate(h: Hub, link: DesktopLink, frame: Frame, lookup: Lookup, lag: nat)
    requires Inv(h) && Finish(h, link, frame, lookup, lag).1.None?
    ensures var (h', r) := (Finish(h, link, frame, lookup, lag).0, RouteOf(h, link, frame));
      && r.id !in h.resolved && r.id in h'.resolved
      && if Unheard(h, link, frame, lookup, lag) then Past(h', r) && h'.resolved[r.id] == [ExecutorOffline]
         else Listed(h', r) && Waits(h', r) && h'.resolved[r.id] == [] && r.id in h'.timers && h'.timers[r.id] == Timer(r, h.now + 5_000)
  {
    hide Inv, RoutesInv, Look, Written, Finish, Roomy, Quiet, ConnectHub.Registered, Unreached, Past, Waits;
    FreshNumber(h);
    ConnectRemoval.InvRoutes(h);
    FinishAnswers(h, link, frame, lookup, lag);
    FinishIs(h, link, frame, lookup, lag);
    var looked := Look(h, frame.executorId).0;
    RegisteredInv(h, looked, link, frame, lag);
    WrittenFate(looked, link, frame, lag);
    SameReach(h, looked.(now := looked.now + lag), frame.executorId, lag);
  }

  lemma NewFate(h: Hub, h': Hub, executorId: string, fenced: bool, r: Route)
    requires Fences(h, h', executorId, fenced, r) && Listed(h, r) && Waits(h, r) && r.executorId == executorId
    requires r.id in h.resolved && h.resolved[r.id] == []
    ensures r.id in h'.resolved
    ensures if fenced then Past(h', r) && h'.resolved[r.id] == [ExecutorOffline] else Listed(h', r) && Waits(h', r) && h'.resolved[r.id] == []
  {
  }

  lemma FreshNumber(h: Hub)
    requires Inv(h)
    ensures h.nextRoute !in h.resolved
  {
  }

  lemma SameReach(h: Hub, h': Hub, executorId: string, lag: nat)
    requires h'.connections == h.connections && h'.ended == h.ended && h'.refusing == h.refusing && h'.now == h.now + lag
    ensures Unreached(h', executorId) == Unreached(h.(now := h.now + lag), executorId)
  {
  }

  lemma RegisteredInv(h: Hub, looked: Hub, link: DesktopLink, frame: Frame, lag: nat)
    requires Inv(h) && looked == Look(h, frame.executorId).0 && SameButTables(h, looked)
    requires link.deviceId in h.desktops.values && h.desktops.values[link.deviceId] == link
    requires Roomy(h, link.deviceId, frame) && frame.executorId in h.connections
    ensures Inv(looked) && Inv(ConnectHub.Registered(looked, link, frame, lag))
  {
    hide Inv, Look, ConnectHub.Registered, HasRoom, Roomy;
    LookKeeps(h, frame.executorId);
    SameRoom(h, looked, link.deviceId, frame);
    RegisteredKeeps(looked, link, frame, lag);
  }

  lemma FinishFences(h: Hub, link: DesktopLink, frame: Frame, lookup: Lookup, lag: nat, r: Route)
    requires Inv(h)
    ensures Fences(h, Finish(h, link, frame, lookup, lag).0, frame.executorId, Unheard(h, link, frame, lookup, lag), r)
  {
    hide Inv, RoutesInv, Look, Written, Finish, Quiet, ConnectHub.Registered, Dispatch, Unreached, Fences, InFlight, SameButTables;
    ConnectRemoval.InvRoutes(h);
    FinishIs(h, link, frame, lookup, lag);
    SelfShrinks(h);
    SameFences(h, h, frame.executorId, r);
    LookFences(h, frame.executorId, r);
    var looked := Look(h, frame.executorId).0;
    if Matched(h, link, frame, lookup) && !Quiet(h, frame.executorId) && Roomy(h, link.deviceId, frame) {
      RegisteredInv(h, looked, link, frame, lag);
      DispatchedFences(h, looked, link, frame, lag, r);
    }
  }

  lemma DispatchedFences(h: Hub, looked: Hub, link: DesktopLink, frame: Frame, lag: nat, r: Route)
    requires RoutesInv(h) && Inv(looked) && SameButTables(h, looked)
    requires frame.commandId !in h.byCommand && frame.executorId in h.connections
    requires Inv(ConnectHub.Registered(looked, link, frame, lag))
    ensures Fences(h, Written(ConnectHub.Registered(looked, link, frame, lag), NewRoute(looked, link, frame)), frame.executorId,
                   Unreached(h.(now := h.now + lag), frame.executorId), r)
  {
    TablesRoutes(h, looked, looked.ended);
    hide Inv, RoutesInv, ConnectHub.Registered, Dispatch, Written, Unreached, Fences, LivesOn, StaysPast, SameRoutes;
    var registered := ConnectHub.Registered(looked, link, frame, lag);
    ConnectRemoval.InvRoutes(looked);
    ConnectRemoval.InvRoutes(registered);
    SameLives(h, looked, r);
    RegisteredLives(looked, link, frame, lag, r);
    RegisteredWaits(looked, link, frame, lag);
    WrittenIs(registered, NewRoute(looked, link, frame));
    DispatchFences(registered, frame.executorId, r);
    SameReach(h, registered, frame.executorId, lag);
    PastOn(h, looked, registered, r);
    if Listed(h, r) {
      LivesListed(h, looked, r);
      LivesThen(h, looked, registered, r, None);
    }
    FencesThen(h, registered, Dispatch(registered, frame.executorId).0, frame.executorId, Unreached(registered, frame.executorId), r);
  }
}
