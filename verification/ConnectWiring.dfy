/**
 How links, their streams' close callbacks and the command limits belong together when every client and every
 executor has a stream of its own, and which of them each operation takes away.
 */
module ConnectWiring {
  import opened Wrappers
  import opened JsMaps
  import opened ConnectHub
  import opened ConnectInvariants
  import opened ConnectKeeps
  import opened ConnectRuns
  import RateRuns

  /** Close callbacks and links belong to each other. */
  ghost predicate Tied(desktops: map<string, DesktopLink>, onClose: map<nat, Callback>) {
    && (forall s :: s in onClose ==>
          onClose[s].deviceId in desktops && desktops[onClose[s].deviceId].sink == s && desktops[onClose[s].deviceId].fence == onClose[s].fence)
    && (forall d :: d in desktops ==> desktops[d].sink in onClose && onClose[desktops[d].sink].deviceId == d)
  }

  /** The streams of the links are open, and no executor's. */
  ghost predicate Apart(h: Hub) {
    && (forall s :: s in h.onClose ==> s !in h.ended)
    && (forall e :: e in h.connections ==> h.connections[e].sink !in h.onClose)
  }

  ghost predicate Wired(h: Hub) {
    && Tied(h.desktops.values, h.onClose) && Apart(h)
    && (forall d :: d in h.rates ==> d in h.desktops.values)
    && (forall d :: d in h.desktops.values ==> h.desktops.values[d].fence in h.fences)
  }

  /** The links of `gone` are lost, with their limits and callbacks, and nothing else is. */
  ghost predicate Lost(h: Hub, h': Hub, gone: set<string>) {
    && h'.desktops.values == h.desktops.values - gone
    && h'.rates == h.rates - gone
    && (forall s :: s in h'.onClose <==> s in h.onClose && h.onClose[s].deviceId !in gone)
    && (forall s :: s in h'.onClose ==> h'.onClose[s] == h.onClose[s])
    && Apart(h') && h.fences <= h'.fences
  }

  lemma LostWired(h: Hub, h': Hub, gone: set<string>)
    requires Wired(h) && Lost(h, h', gone)
    ensures Wired(h')
  {
  }

  lemma LostOn(a: Hub, b: Hub, c: Hub, gone: set<string>, more: set<string>)
    requires Lost(a, b, gone) && Lost(b, c, more)
    ensures Lost(a, c, gone + more)
  {
    hide Apart;
  }

  /** What streams, links and limits are made of. */
  ghost predicate SameWires(h: Hub, h': Hub) {
    && h'.desktops.values == h.desktops.values && h'.rates == h.rates && h'.onClose == h.onClose
    && h'.ended == h.ended && h'.connections == h.connections && h'.fences == h.fences
  }

  lemma SameLost(h: Hub, h': Hub)
    requires Wired(h) && SameWires(h, h')
    ensures Lost(h, h', {})
  {
  }

  lemma LostSame(h: Hub, h': Hub, h'': Hub, gone: set<string>)
    requires Lost(h, h', gone) && SameWires(h', h'')
    ensures Lost(h, h'', gone)
  {
  }

  lemma RemoveSame(h: Hub, gone: set<Route>, result: Option<Outcome>)
    ensures SameWires(h, RemoveRoutes(h, gone, result)) && RemoveRoutes(h, gone, result).desktops == h.desktops
  {
  }

  // ------------------------------------------------------------ operations of the relay

  lemma CloseIs(h: Hub, deviceId: string, fence: string)
    requires deviceId in h.desktops.values && h.desktops.values[deviceId].fence == fence
    ensures var cut := h.(desktops := Delete(h.desktops, deviceId), rates := h.rates - {deviceId});
      SameWires(cut, CloseLink(h, deviceId, fence)) && CloseLink(h, deviceId, fence).desktops == Delete(h.desktops, deviceId)
  {
    hide RemoveRoutes, DeviceRoutes, Delete, SameWires;
    var cut := h.(desktops := Delete(h.desktops, deviceId), rates := h.rates - {deviceId});
    RemoveSame(cut, DeviceRoutes(cut.byCommand, deviceId, Some(fence)), Some(Unauthorized));
  }

  /** The links whose stream it is. */
  function Owners(h: Hub, sink: nat): set<string> {
    if sink in h.onClose then {h.onClose[sink].deviceId} else {}
  }

  /** A link and its callback go, and its stream is over. */
  lemma UnlinkLoses(h: Hub, h': Hub, d: string)
    requires Wired(h) && d in h.desktops.values && h'.desktops.values == h.desktops.values - {d} && h'.rates == h.rates - {d}
    requires var sink := h.desktops.values[d].sink; h'.onClose == h.onClose - {sink} && h'.ended == h.ended + {sink}
    requires h'.connections == h.connections && h'.fences == h.fences
    ensures Lost(h, h', {d})
  {
  }

  lemma EndIdleIs(h: Hub, sink: nat)
    requires sink !in h.onClose
    ensures EndSink(h, sink) == h.(ended := h.ended + {sink})
  {
    assert h.onClose - {sink} == h.onClose;
    if sink in h.ended {
      assert h.ended + {sink} == h.ended;
    }
    hide CloseLink;
  }

  /** The end of a stream that is no link's changes nothing. */
  lemma EndsIdle(h: Hub, sink: nat)
    requires Wired(h) && sink !in h.onClose
    ensures Lost(h, EndSink(h, sink), {}) && EndSink(h, sink).desktops == h.desktops
  {
    hide EndSink, Tied;
    EndIdleIs(h, sink);
    assert h.desktops.values - {} == h.desktops.values && h.rates - {} == h.rates;
  }

  lemma EndLoses(h: Hub, sink: nat)
    requires Wired(h)
    ensures Lost(h, EndSink(h, sink), Owners(h, sink))
    ensures EndSink(h, sink).desktops == if sink in h.onClose then Delete(h.desktops, h.onClose[sink].deviceId) else h.desktops
  {
    hide CloseLink, Lost, Delete;
    if sink in h.onClose {
      var d, fence := h.onClose[sink].deviceId, h.onClose[sink].fence;
      CloseIs(h.(ended := h.ended + {sink}, onClose := h.onClose - {sink}), d, fence);
      assert sink !in h.ended && d in h.desktops.values && h.desktops.values[d].sink == sink;
      hide Wired;
      DeleteValues(h.desktops, d);
      UnlinkLoses(h, EndSink(h, sink), d);
    } else {
      hide Wired;
      EndsIdle(h, sink);
    }
  }

  lemma DeleteValues(m: JsMap<DesktopLink>, d: string)
    ensures Delete(m, d).values == m.values - {d}
  {
  }

  lemma DropAgain(m: JsMap<DesktopLink>, d: string)
    requires Ordered(m)
    ensures Delete(Delete(m, d), d) == Delete(m, d)
  {
    DeleteOrdered(m, d);
  }

  /** A link's stream ends, and the link is dropped, which it already was. */
  lemma EndAndDropLoses(h: Hub, d: string, fence: Option<string>)
    requires Wired(h) && Ordered(h.desktops) && d in h.desktops.values
    ensures var ended := EndSink(h, h.desktops.values[d].sink);
      && Lost(h, RemoveDesktopRoutes(DropDesktop(ended, d), d, fence), {d})
      && RemoveDesktopRoutes(DropDesktop(ended, d), d, fence).desktops == Delete(h.desktops, d)
      && Lost(h, DropDesktop(RemoveDesktopRoutes(ended, d, fence), d), {d})
      && DropDesktop(RemoveDesktopRoutes(ended, d, fence), d).desktops == Delete(h.desktops, d)
  {
    var sink := h.desktops.values[d].sink;
    EndLoses(h, sink);
    DropAgain(h.desktops, d);
    assert sink in h.onClose && h.onClose[sink].deviceId == d;
    hide Wired, Ordered, Lost, RemoveRoutes, DeviceRoutes, EndSink, Delete;
    var ended := EndSink(h, sink);
    var dropped := DropDesktop(ended, d);
    assert dropped == ended;
    RemoveSame(ended, DeviceRoutes(ended.byCommand, d, fence), Some(Unauthorized));
    LostSame(h, ended, RemoveDesktopRoutes(ended, d, fence), {d});
    assert DropDesktop(RemoveDesktopRoutes(ended, d, fence), d) == RemoveDesktopRoutes(ended, d, fence);
  }

  lemma EvictLoses(h: Hub)
    requires Wired(h) && KeyedByDevice(h.desktops) && h.desktops.keys != []
    ensures Lost(h, EvictOldest(h), {h.desktops.keys[0]})
  {
    var d := h.desktops.keys[0];
    var oldest := h.desktops.values[d];
    assert oldest.deviceId == d && oldest.sink !in h.ended && oldest.sink in h.onClose && h.onClose[oldest.sink].deviceId == d;
    hide CloseLink, Lost, Wired, KeyedByDevice, Delete;
    CloseIs(h, d, oldest.fence);
    DeleteValues(h.desktops, d);
    var closed := CloseLink(h, d, oldest.fence);
    CloseNothing(closed.(ended := closed.ended + {oldest.sink}, onClose := closed.onClose - {oldest.sink}), d, h.onClose[oldest.sink].fence);
    UnlinkLoses(h, EvictOldest(h), d);
  }

  lemma CloseNothing(h: Hub, deviceId: string, fence: string)
    requires deviceId !in h.desktops.values || h.desktops.values[deviceId].fence != fence
    ensures CloseLink(h, deviceId, fence) == h
  {
  }

  lemma EvictsOne(h: Hub)
    requires KeyedByDevice(h.desktops) && |h.desktops.keys| <= MAX_CONNECTIONS
    ensures Evict(h) == if |h.desktops.keys| < MAX_CONNECTIONS then h else EvictOldest(h)
  {
    hide EvictOldest;
  }

  predicate Refused(h: Hub, actor: Authority) {
    actor.deviceId in h.desktops.values && Conflicts(h.desktops.values[actor.deviceId].authority, actor)
  }

  /** Whose links an opening that is not refused takes away: the device's own, or else the oldest when all places
      are taken. */
  function Displaced(h: Hub, actor: Authority): set<string> {
    if actor.deviceId in h.desktops.values then {actor.deviceId}
    else if |h.desktops.keys| >= MAX_CONNECTIONS && h.desktops.keys != [] then {h.desktops.keys[0]} else {}
  }

  function Room(h: Hub, actor: Authority): Hub
    requires KeyedByDevice(h.desktops)
  {
    ReplaceShrinks(h, actor.deviceId);
    Evict(if actor.deviceId in h.desktops.values then Replace(h, h.desktops.values[actor.deviceId]) else h)
  }

  lemma RoomLoses(h: Hub, actor: Authority)
    requires Wired(h) && KeyedByDevice(h.desktops) && |h.desktops.keys| <= MAX_CONNECTIONS
    ensures Lost(h, Room(h, actor), Displaced(h, actor))
  {
    hide EndSink, Wired, EvictOldest, Lost, Evict, RemoveDesktopRoutes, DropDesktop;
    ReplaceShrinks(h, actor.deviceId);
    if actor.deviceId in h.desktops.values {
      var d := actor.deviceId;
      EndAndDropLoses(h, d, Some(h.desktops.values[d].fence));
      DeleteOrdered(h.desktops, d);
      EvictsOne(Replace(h, h.desktops.values[d]));
    } else {
      EvictsOne(h);
      SameLost(h, h);
      if |h.desktops.keys| >= MAX_CONNECTIONS {
        EvictLoses(h);
      }
    }
  }

  /** The stream of a new link is nobody else's. */
  predicate OwnStream(h: Hub, e: Event) {
    match e
    case OpenDesktop(_, sink, _) => sink !in h.onClose && forall x :: x in h.connections ==> h.connections[x].sink != sink
    case OpensExecutor(_, _, _, sink, _) => sink !in h.onClose
    case _ => true
  }

  lemma RefusedLoses(h: Hub, actor: Authority, sink: nat, fence: string)
    requires Wired(h) && KeyedByDevice(h.desktops) && sink !in h.onClose && fence !in h.fences && Refused(h, actor)
    ensures Lost(h, Watch(OpenLink(h, actor, sink, fence), sink, actor.deviceId, fence), {})
  {
    assert h.desktops.values[actor.deviceId].fence != fence;
    hide EndSink, CloseLink, Lost, Wired, KeyedByDevice;
    EndsIdle(h, sink);
    EndEnds(h, sink);
    var refused := EndSink(h, sink).(fences := h.fences + {fence});
    assert OpenLink(h, actor, sink, fence) == refused;
    CloseNothing(refused, actor.deviceId, fence);
    MoreFences(h, EndSink(h, sink), fence);
  }

  lemma EndEnds(h: Hub, sink: nat)
    ensures sink in EndSink(h, sink).ended
  {
    hide RemoveRoutes, Delete;
    RemoveAll();
  }

  lemma RemoveAll()
    ensures forall h: Hub, gone, result :: RemoveRoutes(h, gone, result).ended == h.ended
  {
  }

  lemma MoreFences(h: Hub, h': Hub, fence: string)
    requires Lost(h, h', {})
    ensures Lost(h, h'.(fences := h.fences + {fence}), {})
  {
  }

  /** An opening that is not refused displaces links, and registers its own unless its stream is over already. */
  ghost predicate Opens(h: Hub, h': Hub, actor: Authority, sink: nat, fence: string) {
    && h'.rates == h.rates - Displaced(h, actor)
    && h'.desktops.values - {actor.deviceId} == h.desktops.values - Displaced(h, actor) - {actor.deviceId}
    && (actor.deviceId in h'.desktops.values <==> sink !in h.ended)
    && (actor.deviceId in h'.desktops.values ==> h'.desktops.values[actor.deviceId] == DesktopLink(fence, actor.deviceId, actor, sink))
  }

  function Live(room: Hub, h: Hub, actor: Authority, sink: nat, fence: string): Hub {
    room.(fences := h.fences + {fence}, desktops := Set(room.desktops, actor.deviceId, DesktopLink(fence, actor.deviceId, actor, sink)))
  }

  /** The new link is registered and its callback with it. */
  lemma LiveOpen(h: Hub, room: Hub, actor: Authority, sink: nat, fence: string)
    requires Wired(room) && actor.deviceId !in room.desktops.values && room.fences == h.fences
    requires sink !in room.onClose && sink !in room.ended && forall x :: x in room.connections ==> room.connections[x].sink != sink
    ensures Wired(Live(room, h, actor, sink, fence).(onClose := room.onClose[sink := Callback(actor.deviceId, fence)]))
  {
  }

  /** The stream is over already: the new link is closed at once. */
  lemma LiveClosed(h: Hub, room: Hub, actor: Authority, sink: nat, fence: string)
    requires Wired(room) && actor.deviceId !in room.desktops.values && room.fences == h.fences
    ensures SameWires(room.(fences := h.fences + {fence}), CloseLink(Live(room, h, actor, sink, fence), actor.deviceId, fence))
  {
    var live := Live(room, h, actor, sink, fence);
    CloseIs(live, actor.deviceId, fence);
    assert live.desktops.values - {actor.deviceId} == room.desktops.values && room.rates - {actor.deviceId} == room.rates;
    DeleteValues(live.desktops, actor.deviceId);
    hide CloseLink, Set, Delete, Tied, Apart;
  }

  lemma FencedWired(h: Hub, h': Hub, fence: string)
    requires Wired(h) && SameWires(h.(fences := h.fences + {fence}), h')
    ensures Wired(h')
  {
  }

  lemma LiveWired(h: Hub, room: Hub, actor: Authority, sink: nat, fence: string)
    requires Wired(room) && actor.deviceId !in room.desktops.values && room.fences == h.fences
    requires sink !in room.onClose && forall x :: x in room.connections ==> room.connections[x].sink != sink
    ensures var h' := Watch(Live(room, h, actor, sink, fence), sink, actor.deviceId, fence);
      && Wired(h') && h'.rates == room.rates
      && h'.desktops.values == if sink in room.ended then room.desktops.values
           else room.desktops.values[actor.deviceId := DesktopLink(fence, actor.deviceId, actor, sink)]
  {
    var live := Live(room, h, actor, sink, fence);
    hide Wired, CloseLink, Set;
    if sink in room.ended {
      LiveClosed(h, room, actor, sink, fence);
      FencedWired(room, CloseLink(live, actor.deviceId, fence), fence);
    } else {
      LiveOpen(h, room, actor, sink, fence);
      SetValues(room.desktops, actor.deviceId, DesktopLink(fence, actor.deviceId, actor, sink));
    }
  }

  lemma SetValues(m: JsMap<DesktopLink>, d: string, link: DesktopLink)
    ensures Set(m, d, link).values == m.values[d := link]
  {
  }

  /** Nothing but streams of links may have ended. */
  ghost predicate OnlyLinks(h: Hub, h': Hub) {
    && h'.connections == h.connections && h'.fences == h.fences && h'.onClose.Keys <= h.onClose.Keys
    && h.ended <= h'.ended && h'.ended <= h.ended + h.onClose.Keys
  }

  lemma OnlyOn(a: Hub, b: Hub, c: Hub)
    requires OnlyLinks(a, b) && OnlyLinks(b, c)
    ensures OnlyLinks(a, c)
  {
  }

  lemma RemoveOnly(h: Hub, gone: set<Route>, result: Option<Outcome>)
    ensures OnlyLinks(h, RemoveRoutes(h, gone, result))
  {
  }

  lemma CloseOnly(h: Hub, deviceId: string, fence: string)
    ensures OnlyLinks(h, CloseLink(h, deviceId, fence)) && CloseLink(h, deviceId, fence).onClose == h.onClose
      && CloseLink(h, deviceId, fence).ended == h.ended
  {
    hide RemoveRoutes, DeviceRoutes, Delete;
    var cut := h.(desktops := Delete(h.desktops, deviceId), rates := h.rates - {deviceId});
    RemoveSame(cut, DeviceRoutes(cut.byCommand, deviceId, Some(fence)), Some(Unauthorized));
  }

  lemma EndOnly(h: Hub, sink: nat)
    requires sink in h.onClose
    ensures OnlyLinks(h, EndSink(h, sink))
  {
    hide CloseLink;
    CloseOnly(h.(ended := h.ended + {sink}, onClose := h.onClose - {sink}), h.onClose[sink].deviceId, h.onClose[sink].fence);
  }

  lemma ReplaceOnly(h: Hub, previous: DesktopLink)
    requires previous.sink in h.onClose
    ensures OnlyLinks(h, Replace(h, previous))
  {
    hide EndSink, RemoveRoutes, DeviceRoutes, Delete;
    EndOnly(h, previous.sink);
    var ended := EndSink(h, previous.sink);
    RemoveOnly(ended, DeviceRoutes(ended.byCommand, previous.deviceId, Some(previous.fence)), Some(Unauthorized));
  }

  lemma EvictOnly(h: Hub)
    requires Wired(h) && KeyedByDevice(h.desktops) && h.desktops.keys != []
    ensures OnlyLinks(h, EvictOldest(h))
  {
    var oldest := h.desktops.values[h.desktops.keys[0]];
    assert oldest.sink in h.onClose;
    hide Wired, KeyedByDevice, CloseLink, EndSink, OnlyLinks;
    CloseOnly(h, oldest.deviceId, oldest.fence);
    var closed := CloseLink(h, oldest.deviceId, oldest.fence);
    EndOnly(closed, oldest.sink);
    OnlyOn(h, closed, EndSink(closed, oldest.sink));
  }

  lemma SelfOnly(h: Hub)
    ensures OnlyLinks(h, h)
  {
  }

  /** Making room ends streams of links only. */
  lemma RoomKeeps(h: Hub, actor: Authority)
    requires Wired(h) && KeyedByDevice(h.desktops) && |h.desktops.keys| <= MAX_CONNECTIONS
    ensures OnlyLinks(h, Room(h, actor))
  {
    ReplaceShrinks(h, actor.deviceId);
    SelfOnly(h);
    if actor.deviceId in h.desktops.values {
      var d := actor.deviceId;
      assert h.desktops.values[d].sink in h.onClose;
      hide EndSink, Wired, EvictOldest, OnlyLinks, Evict, RemoveDesktopRoutes, DropDesktop;
      ReplaceOnly(h, h.desktops.values[d]);
      EndAndDropLoses(h, d, Some(h.desktops.values[d].fence));
      DeleteOrdered(h.desktops, d);
      EvictsOne(Replace(h, h.desktops.values[d]));
    } else {
      hide EndSink, Wired, EvictOldest, OnlyLinks, Evict;
      EvictsOne(h);
      if |h.desktops.keys| >= MAX_CONNECTIONS {
        EvictOnly(h);
      }
    }
  }

  lemma OpenIsLive(h: Hub, actor: Authority, sink: nat, fence: string)
    requires KeyedByDevice(h.desktops) && !Refused(h, actor)
    ensures OpenLink(h, actor, sink, fence) == Live(Room(h, actor), h, actor, sink, fence)
  {
    hide Evict, Replace, Set, EndSink, KeyedByDevice;
  }

  lemma OpenChanges(h: Hub, actor: Authority, sink: nat, fence: string)
    requires Wired(h) && KeyedByDevice(h.desktops) && |h.desktops.keys| <= MAX_CONNECTIONS && !Refused(h, actor)
    requires sink !in h.onClose && forall x :: x in h.connections ==> h.connections[x].sink != sink
    ensures var h' := Watch(OpenLink(h, actor, sink, fence), sink, actor.deviceId, fence); Wired(h') && Opens(h, h', actor, sink, fence)
  {
    hide Wired, KeyedByDevice, Room, Watch, OpenLink, Live;
    RoomLoses(h, actor);
    RoomKeeps(h, actor);
    OpenIsLive(h, actor, sink, fence);
    var room := Room(h, actor);
    LostWired(h, room, Displaced(h, actor));
    hide Apart;
    LiveWired(h, room, actor, sink, fence);
  }

  // ------------------------------------------------------------ revocation and output

  lemma RevokeAbsentLoses(h: Hub, deviceId: string)
    requires Wired(h) && deviceId !in h.desktops.values
    ensures Lost(h, RevokeDesktop(h, deviceId), {deviceId})
  {
    assert h.rates - {deviceId} == h.rates && h.desktops.values - {deviceId} == h.desktops.values;
    var gone := DeviceRoutes(h.byCommand, deviceId, None);
    RemoveSame(h, gone, Some(Unauthorized));
    hide RemoveRoutes, DeviceRoutes, EndSink;
  }

  lemma RevokeDesktopLoses(h: Hub, deviceId: string)
    requires Wired(h) && Ordered(h.desktops)
    ensures Lost(h, RevokeDesktop(h, deviceId), {deviceId})
  {
    hide Wired, Ordered, Lost, EndSink, RemoveDesktopRoutes, DropDesktop;
    if deviceId in h.desktops.values {
      var link := h.desktops.values[deviceId];
      EndAndDropLoses(h, deviceId, Some(link.fence));
      LostRates(h, RemoveDesktopRoutes(DropDesktop(EndSink(h, link.sink), deviceId), deviceId, Some(link.fence)), deviceId);
    } else {
      RevokeAbsentLoses(h, deviceId);
    }
  }

  lemma RevokeLinkLoses(h: Hub, link: DesktopLink)
    requires Wired(h) && Ordered(h.desktops) && link.deviceId in h.desktops.values && h.desktops.values[link.deviceId] == link
    ensures Lost(h, RevokeLink(h, link), {link.deviceId}) && RevokeLink(h, link).desktops == Delete(h.desktops, link.deviceId)
  {
    var d := link.deviceId;
    EndLoses(h, link.sink);
    DropAgain(h.desktops, d);
    assert link.sink in h.onClose && h.onClose[link.sink].deviceId == d;
    hide EndSink, RemoveRoutes, DeviceRoutes, Wired, Ordered, Lost, Delete;
    var ended := EndSink(h, link.sink);
    var dropped := DropDesktop(ended, d);
    assert dropped == ended;
    LostRates(h, ended, d);
    RemoveSame(ended, DeviceRoutes(ended.byCommand, d, Some(link.fence)), Some(Unauthorized));
    LostSame(h, ended, RevokeLink(h, link), {d});
  }

  lemma LostRates(h: Hub, h': Hub, d: string)
    requires Lost(h, h', {d})
    ensures h'.(rates := h'.rates - {d}) == h'
  {
    assert h'.rates - {d} == h'.rates;
  }

  /** Links of a copy of the table, each still registered. */
  ghost predicate Registered(h: Hub, links: seq<DesktopLink>) {
    && (forall i :: 0 <= i < |links| ==> links[i].deviceId in h.desktops.values && h.desktops.values[links[i].deviceId] == links[i])
    && (forall i, j :: 0 <= i < j < |links| ==> links[i].deviceId != links[j].deviceId)
  }

  function Vouched(links: seq<DesktopLink>, executorId: string): set<string> {
    set i | 0 <= i < |links| && VouchedBy(links[i], executorId) :: links[i].deviceId
  }

  lemma VouchedFirst(links: seq<DesktopLink>, executorId: string)
    requires links != []
    ensures Vouched(links, executorId)
      == (if VouchedBy(links[0], executorId) then {links[0].deviceId} else {}) + Vouched(links[1..], executorId)
  {
    forall d | d in Vouched(links, executorId)
      ensures d in (if VouchedBy(links[0], executorId) then {links[0].deviceId} else {}) + Vouched(links[1..], executorId)
    {
      var i :| 0 <= i < |links| && VouchedBy(links[i], executorId) && links[i].deviceId == d;
      assert i > 0 ==> links[1..][i - 1] == links[i];
    }
  }

  lemma StillRegistered(h: Hub, h': Hub, links: seq<DesktopLink>, gone: set<string>)
    requires links != [] && Registered(h, links) && Lost(h, h', gone) && gone <= {links[0].deviceId}
    ensures Registered(h', links[1..])
  {
    forall i | 0 <= i < |links[1..]|
      ensures links[1..][i].deviceId in h'.desktops.values && h'.desktops.values[links[1..][i].deviceId] == links[1..][i]
    {
      assert links[1..][i] == links[i + 1] && links[i + 1].deviceId != links[0].deviceId;
    }
    assert forall i :: 0 <= i < |links[1..]| ==> links[1..][i] == links[i + 1];
    hide Apart;
  }

  lemma {:induction false} RevokeLinksLose(h: Hub, links: seq<DesktopLink>, executorId: string)
    requires Wired(h) && Ordered(h.desktops) && Registered(h, links)
    ensures Lost(h, RevokeLinks(h, links, executorId), Vouched(links, executorId))
    decreases |links|
  {
    if links == [] {
      hide Wired, Lost;
      SameLost(h, h);
      assert Vouched([], executorId) == {};
    } else {
      assert links[0].deviceId in h.desktops.values && h.desktops.values[links[0].deviceId] == links[0];
      hide Wired, Lost, RevokeLink, Registered, Ordered, Vouched;
      var first := if VouchedBy(links[0], executorId) then {links[0].deviceId} else {};
      var next := if VouchedBy(links[0], executorId) then RevokeLink(h, links[0]) else h;
      SameLost(h, h);
      RevokeLinkLoses(h, links[0]);
      DeleteOrdered(h.desktops, links[0].deviceId);
      LostWired(h, next, first);
      StillRegistered(h, next, links, first);
      RevokeLinksLose(next, links[1..], executorId);
      VouchedFirst(links, executorId);
      LostOn(h, next, RevokeLinks(next, links[1..], executorId), first, Vouched(links[1..], executorId));
    }
  }

  lemma LinksRegistered(h: Hub)
    requires KeyedByDevice(h.desktops)
    ensures Registered(h, Links(h.desktops))
  {
    var links := Links(h.desktops);
    forall i, j | 0 <= i < j < |links| ensures links[i].deviceId != links[j].deviceId {
      assert h.desktops.keys[i] != h.desktops.keys[j];
    }
  }

  lemma VouchedLinks(h: Hub, executorId: string, d: string)
    requires KeyedByDevice(h.desktops) && d in h.desktops.values
    ensures d in Vouched(Links(h.desktops), executorId) <==> VouchedBy(h.desktops.values[d], executorId)
  {
    var links := Links(h.desktops);
    var i :| 0 <= i < |h.desktops.keys| && h.desktops.keys[i] == d;
    assert links[i] == h.desktops.values[d];
    forall j | 0 <= j < |links| && links[j].deviceId == d ensures links[j] == h.desktops.values[d] {
    }
  }

  lemma RevokeExecutorLoses(h: Hub, executorId: string)
    requires Wired(h) && KeyedByDevice(h.desktops)
    ensures Lost(h, RevokeExecutor(h, executorId), Vouched(Links(h.desktops), executorId))
  {
    var links := Links(h.desktops);
    LinksRegistered(h);
    hide Wired, Lost, RevokeLinks, Links, Registered, Vouched, RemoveRoutes;
    RevokeLinksLose(h, links, executorId);
    var revoked := RevokeLinks(h, links, executorId);
    RemoveSame(revoked, ExecutorRoutes(revoked.byCommand, executorId), Some(ExecutorOffline));
    LostSame(h, revoked, FenceExecutor(revoked, executorId), Vouched(links, executorId));
  }

  /** An executor's frame finds a route of its own. */
  predicate Finds(h: Hub, executorId: string, commandId: Option<string>, correlationId: string) {
    Target(h, commandId, correlationId).Some? && Target(h, commandId, correlationId).value.executorId == executorId
  }

  /** The device whose stream does not take the frame. */
  function FailedFor(h: Hub, executorId: string, commandId: Option<string>, correlationId: string): set<string> {
    if !Finds(h, executorId, commandId, correlationId) then {}
    else
      var d := Target(h, commandId, correlationId).value.deviceId;
      if d in h.desktops.values && !Writes(h, h.desktops.values[d].sink) then {d} else {}
  }

  lemma OutputLoses(h: Hub, executorId: string, commandId: Option<string>, correlationId: string, terminal: bool)
    requires Inv(h) && Wired(h) && Ordered(h.desktops)
    ensures Lost(h, Output(h, executorId, commandId, correlationId, terminal).0, FailedFor(h, executorId, commandId, correlationId))
  {
    hide Inv, Wired, Ordered, Lost, EndSink, RemoveRoutes, RemoveDesktopRoutes, DropDesktop, Target, Writes, SameWires;
    SameSelf(h);
    SameLost(h, h);
    if Finds(h, executorId, commandId, correlationId) {
      var route := Target(h, commandId, correlationId).value;
      NeverDetached(h, commandId, correlationId);
      RemoveSame(h, {route}, None);
      SameLost(h, RemoveRoutes(h, {route}, None));
      EndAndDropLoses(h, route.deviceId, Some(route.desktopFence));
    }
  }

  lemma SameSelf(h: Hub)
    ensures SameWires(h, h)
  {
  }

  // ------------------------------------------------------------ the registry

  /** Links, limits and callbacks stay; only executors' streams may end. */
  ghost predicate SameLinks(h: Hub, h': Hub) {
    && h'.desktops == h.desktops && h'.rates == h.rates && h'.onClose == h.onClose
    && h.fences <= h'.fences && (forall s :: s in h'.ended && s !in h.ended ==> s !in h.onClose)
    && (forall e :: e in h'.connections ==> h'.connections[e].sink !in h.onClose)
  }

  lemma SameLinksLost(h: Hub, h': Hub)
    requires Wired(h) && SameLinks(h, h')
    ensures Lost(h, h', {})
  {
    assert h.desktops.values - {} == h.desktops.values && h.rates - {} == h.rates;
  }

  lemma SameLinksOn(a: Hub, b: Hub, c: Hub)
    requires SameLinks(a, b) && SameLinks(b, c)
    ensures SameLinks(a, c)
  {
  }

  lemma FenceLinks(h: Hub, h': Hub, executorId: string)
    requires SameLinks(h, h')
    ensures SameLinks(h, FenceExecutor(h', executorId))
  {
    hide ExecutorRoutes, RemoveRoutes;
    RemoveSame(h', ExecutorRoutes(h'.byCommand, executorId), Some(ExecutorOffline));
  }

  lemma DisconnectLinks(h: Hub, h': Hub, executorId: string)
    requires SameLinks(h, h')
    ensures SameLinks(h, Disconnect(h', executorId))
  {
    hide FenceExecutor;
    FenceLinks(h, h'.(connections := h'.connections - {executorId}), executorId);
  }

  lemma LookLinks(h: Hub, executorId: string)
    requires Apart(h)
    ensures SameLinks(h, Look(h, executorId).0)
  {
    hide FenceExecutor, Prune, Trim, Set, Delete;
    var pruned := PruneStale(PruneHellos(h));
    if executorId in h.connections && Quiet(h, executorId) {
      var cut := pruned.(ended := h.ended + {h.connections[executorId].sink}, connections := h.connections - {executorId});
      FenceLinks(h, MarkStale(cut, executorId), executorId);
    }
  }

  lemma SameApart(h: Hub, h': Hub)
    requires Apart(h) && SameLinks(h, h')
    ensures Apart(h')
  {
  }

  lemma DispatchLinks(h: Hub, executorId: string)
    requires Apart(h)
    ensures SameLinks(h, Dispatch(h, executorId).0)
  {
    hide Look, Disconnect, SameLinks;
    LookLinks(h, executorId);
    SameLinksSelf(h);
    var looked := Look(h, executorId).0;
    if executorId in h.connections && Look(h, executorId).1 == Online {
      EndsExecutor(h, executorId);
      DisconnectLinks(h, looked.(ended := looked.ended + {h.connections[executorId].sink}), executorId);
    }
  }

  /** An executor's stream ends; it is no link's. */
  lemma EndsExecutor(h: Hub, executorId: string)
    requires Apart(h) && executorId in h.connections
    ensures var looked := Look(h, executorId).0; SameLinks(h, looked.(ended := looked.ended + {h.connections[executorId].sink}))
  {
    LookLinks(h, executorId);
    hide Look;
  }

  lemma FinishLinks(h: Hub, link: DesktopLink, frame: Frame, lookup: Lookup, lag: nat)
    requires Apart(h)
    ensures SameLinks(h, Finish(h, link, frame, lookup, lag).0)
  {
    hide Look, Dispatch, RemoveRoutes, HasRoom, SameLinks, Apart, ConnectHub.Registered;
    LookLinks(h, frame.executorId);
    var looked := Look(h, frame.executorId).0;
    SameApart(h, looked);
    SameLinksSelf(h);
    RateRuns.LookNever(h, frame.executorId);
    if lookup.Usable? && frame.executorId in looked.connections {
      var registered := ConnectHub.Registered(looked, link, frame, lag);
      var route := NewRoute(looked, link, frame);
      RegisteredLinks(h, looked, link, frame, lag);
      SameApart(h, registered);
      DispatchLinks(registered, frame.executorId);
      var dispatched := Dispatch(registered, frame.executorId);
      SameLinksOn(h, registered, dispatched.0);
      RemoveSame(dispatched.0, {route}, dispatched.1);
      FailedLinks(h, dispatched.0, {route}, dispatched.1);
    }
  }

  lemma FailedLinks(h: Hub, h': Hub, gone: set<Route>, reason: Option<Outcome>)
    requires SameLinks(h, h')
    ensures SameLinks(h, RemoveRoutes(h', gone, reason))
  {
    hide Kept, Released, Resolve;
  }

  lemma RegisteredLinks(h: Hub, h': Hub, link: DesktopLink, frame: Frame, lag: nat)
    requires SameLinks(h, h') && frame.executorId in h'.connections
    ensures SameLinks(h, ConnectHub.Registered(h', link, frame, lag))
  {
  }

  lemma SameLinksSelf(h: Hub)
    requires Apart(h)
    ensures SameLinks(h, h)
  {
  }

  lemma OpenExecutorLinks(h: Hub, executorId: string, deviceId: string, generation: nat, sink: nat, fence: string)
    requires Apart(h) && sink !in h.onClose
    ensures SameLinks(h, OpenExecutor(h, executorId, deviceId, generation, sink, fence))
  {
    hide Disconnect, Delete, PruneStale, PruneHellos, SameLinks, ReplaceConnection;
    var pruned := PruneStale(PruneHellos(h));
    PrunedLinks(h);
    SameApart(h, pruned);
    ReplaceLinks(pruned, executorId);
    SameLinksOn(h, pruned, ReplaceConnection(pruned, executorId));
    NewLinks(h, ReplaceConnection(pruned, executorId), OpenExecutor(h, executorId, deviceId, generation, sink, fence), executorId, sink);
  }

  lemma ReplaceLinks(h: Hub, executorId: string)
    requires Apart(h)
    ensures SameLinks(h, ReplaceConnection(h, executorId))
  {
    hide Disconnect;
    if executorId in h.connections {
      DisconnectLinks(h, h.(ended := h.ended + {h.connections[executorId].sink}), executorId);
    }
  }

  /** One executor's connection is new or gone, on a stream that is no link's. */
  lemma NewLinks(h: Hub, replaced: Hub, h': Hub, executorId: string, sink: nat)
    requires SameLinks(h, replaced) && sink !in h.onClose
    requires h'.desktops == replaced.desktops && h'.rates == replaced.rates && h'.onClose == replaced.onClose
    requires h.fences <= h'.fences && h'.ended <= replaced.ended + {sink}
    requires forall e :: e in h'.connections ==>
      (e == executorId && h'.connections[e].sink == sink) || (e in replaced.connections && h'.connections[e] == replaced.connections[e])
    ensures SameLinks(h, h')
  {
  }

  lemma PrunedLinks(h: Hub)
    requires Apart(h)
    ensures SameLinks(h, PruneStale(PruneHellos(h)))
  {
    hide Prune;
  }

  lemma CloseExecutorLinks(h: Hub, executorId: string, onlyFence: Option<string>)
    requires Apart(h)
    ensures SameLinks(h, CloseExecutor(h, executorId, onlyFence)) && SameLinks(h, RevokeConnection(h, executorId))
  {
    hide Disconnect, Delete;
    var cleared := h.(stale := Delete(h.stale, executorId), hellos := Delete(h.hellos, executorId));
    DisconnectLinks(h, cleared, executorId);
    if executorId in h.connections {
      DisconnectLinks(h, cleared.(ended := h.ended + {h.connections[executorId].sink}), executorId);
    }
  }

  lemma SmallLinks(w: World, e: Event)
    requires Enabled(w, e) && Inv(w.hub) && Apart(w.hub)
    requires e.SetRefusing? || e.Receive? || e.TimerFires? || e.Touches? || e.Greets? || e.Tick?
    ensures SameLinks(w.hub, Apply(w, e).hub)
  {
    hide Inv, Prune, Delete, Set, Trim, Resolve, Kept, Released;
  }

  /** The first half of a command writes its device's entry, or nothing. */
  lemma BeginIs(h: Hub, actor: Authority, frame: Frame, envelope: Option<Outcome>)
    ensures var h' := Begin(h, actor, frame, envelope).0;
      h' == h || (actor.deviceId in h.desktops.values
                  && h' == h.(rates := h.rates[actor.deviceId := TakeRate(RateOf(h, actor.deviceId), h.now).0]))
  {
    hide TakeRate, RateOf;
  }

  lemma BeginWired(h: Hub, actor: Authority, frame: Frame, envelope: Option<Outcome>)
    requires Wired(h)
    ensures var h' := Begin(h, actor, frame, envelope).0; Wired(h') && h'.desktops == h.desktops && h.rates.Keys <= h'.rates.Keys
  {
    BeginIs(h, actor, frame, envelope);
    hide Begin, TakeRate, RateOf, Tied;
  }
}
