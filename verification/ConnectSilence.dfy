/**
 How long a silence is remembered. A tombstone may only be trimmed when 1024 younger ones press it out, and
 every one of those belongs to a step that met a silent executor.
 */
module ConnectSilence {
  import opened Wrappers
  import opened JsMaps
  import opened ConnectHub
  import opened ConnectInvariants
  import opened ConnectKeeps
  import opened ConnectPresence
  import opened ConnectRuns

  // ------------------------------------------------------------ one tombstone among others

  /** How many keys were inserted after `key`. */
  function Behind(keys: seq<string>, key: string): nat {
    if keys == [] then 0 else if keys[0] == key then |keys| - 1 else Behind(keys[1..], key)
  }

  lemma {:induction false} BehindWithout(keys: seq<string>, other: string, key: string)
    requires key in keys && other != key
    ensures key in Without(keys, other) && Behind(Without(keys, other), key) <= Behind(keys, key)
  {
    if keys[0] != key && keys[0] != other {
      BehindWithout(keys[1..], other, key);
    }
  }

  lemma {:induction false} BehindAppend(keys: seq<string>, other: string, key: string)
    requires key in keys
    ensures Behind(keys + [other], key) == Behind(keys, key) + 1
  {
    if keys[0] != key {
      assert (keys + [other])[1..] == keys[1..] + [other];
      BehindAppend(keys[1..], other, key);
    }
  }

  lemma {:induction false} BehindSuffix(keys: seq<string>, from: nat, key: string)
    requires key in keys && from + Behind(keys, key) < |keys|
    ensures key in keys[from..] && Behind(keys[from..], key) == Behind(keys, key)
  {
    if from > 0 && keys[0] != key {
      assert keys[from..] == keys[1..][from - 1..];
      BehindSuffix(keys[1..], from - 1, key);
    }
  }

  /** The tombstone of `x` that expires at `expiry`: it is there until then, with at most `younger` behind it. */
  ghost predicate Tomb(stale: JsMap<int>, x: string, expiry: int, younger: nat, now: int) {
    && Ordered(stale)
    && (now < expiry ==> x in stale.values)
    && (x in stale.values ==> stale.values[x] == expiry && Behind(stale.keys, x) <= younger)
  }

  lemma TombDelete(stale: JsMap<int>, x: string, expiry: int, younger: nat, now: int, other: string)
    requires Tomb(stale, x, expiry, younger, now) && other != x
    ensures Tomb(Delete(stale, other), x, expiry, younger, now)
  {
    DeleteOrdered(stale, other);
    if x in stale.values {
      BehindWithout(stale.keys, other, x);
    }
    hide Without, Behind;
  }

  lemma TombExpires(stale: JsMap<int>, x: string, expiry: int, younger: nat, now: int)
    requires Tomb(stale, x, expiry, younger, now) && expiry <= now
    ensures Tomb(Delete(stale, x), x, expiry, younger, now)
  {
    DeleteOrdered(stale, x);
    hide Without, Behind;
  }

  lemma {:induction false} TombPrune(stale: JsMap<int>, keys: seq<string>, x: string, expiry: int, younger: nat, now: int)
    requires Tomb(stale, x, expiry, younger, now)
    ensures Tomb(Prune(stale, keys, TombstoneExpired(now)), x, expiry, younger, now)
    decreases |keys|
  {
    if keys != [] {
      if keys[0] in stale.values && TombstoneExpired(now)(stale.values[keys[0]]) {
        if keys[0] == x {
          TombExpires(stale, x, expiry, younger, now);
        } else {
          TombDelete(stale, x, expiry, younger, now, keys[0]);
        }
        TombPrune(Delete(stale, keys[0]), keys[1..], x, expiry, younger, now);
      } else {
        TombPrune(stale, keys[1..], x, expiry, younger, now);
      }
    }
  }

  lemma {:induction false} BehindBelow(keys: seq<string>, key: string)
    requires key in keys
    ensures Behind(keys, key) < |keys|
  {
    if keys[0] != key {
      BehindBelow(keys[1..], key);
    }
  }

  lemma TombMark(stale: JsMap<int>, x: string, expiry: int, younger: nat, now: int, other: string, otherExpiry: int)
    requires Tomb(stale, x, expiry, younger, now) && other != x && younger + 1 < MAX_STALE_TOMBSTONES
    ensures Tomb(Trim(Set(Delete(stale, other), other, otherExpiry), MAX_STALE_TOMBSTONES), x, expiry, younger + 1, now)
  {
    TombDelete(stale, x, expiry, younger, now, other);
    Cleared(stale, other);
    hide Delete;
    TombSet(Delete(stale, other), x, expiry, younger, now, other, otherExpiry);
  }

  lemma TombSet(stale: JsMap<int>, x: string, expiry: int, younger: nat, now: int, other: string, otherExpiry: int)
    requires Tomb(stale, x, expiry, younger, now) && other != x && younger + 1 < MAX_STALE_TOMBSTONES && other !in stale.values
    ensures Tomb(Trim(Set(stale, other, otherExpiry), MAX_STALE_TOMBSTONES), x, expiry, younger + 1, now)
  {
    var marked := Set(stale, other, otherExpiry);
    SetOrdered(stale, other, otherExpiry);
    if x in stale.values {
      Listed(stale, x);
      BehindAppend(stale.keys, other, x);
    }
    hide Ordered, Behind, Trim;
    TombTrim(marked, x, expiry, younger + 1, now);
  }

  lemma Listed(m: JsMap<int>, key: string)
    requires Ordered(m)
    ensures key in m.keys <==> key in m.values
  {
  }

  lemma TombTrim(stale: JsMap<int>, x: string, expiry: int, younger: nat, now: int)
    requires Tomb(stale, x, expiry, younger, now) && younger < MAX_STALE_TOMBSTONES
    ensures Tomb(Trim(stale, MAX_STALE_TOMBSTONES), x, expiry, younger, now)
  {
    hide Ordered, Trim, Behind;
    var trimmed := Trim(stale, MAX_STALE_TOMBSTONES);
    TrimNewest(stale, MAX_STALE_TOMBSTONES);
    Listed(stale, x);
    Listed(trimmed, x);
    if x in stale.values {
      BehindBelow(stale.keys, x);
      BehindSuffix(stale.keys, if |stale.keys| > MAX_STALE_TOMBSTONES then |stale.keys| - MAX_STALE_TOMBSTONES else 0, x);
    }
  }

  lemma Cleared(stale: JsMap<int>, other: string)
    ensures other !in Delete(stale, other).values
  {
  }

  // ------------------------------------------------------------ steps that leave the registry alone

  ghost predicate SameRegistry(h: Hub, h': Hub) {
    h'.connections == h.connections && h'.stale == h.stale && h'.hellos == h.hellos && h'.now == h.now
  }

  lemma EndSame(h: Hub, sink: nat)
    ensures SameRegistry(h, EndSink(h, sink))
  {
    hide RemoveRoutes, DeviceRoutes, Delete;
    assert forall g: Hub, gone, result :: SameRegistry(g, RemoveRoutes(g, gone, result)) by { RemoveSame(); }
  }

  lemma RemoveSame()
    ensures forall g: Hub, gone, result :: SameRegistry(g, RemoveRoutes(g, gone, result))
  {
  }

  lemma {:induction false} EvictSame(h: Hub)
    requires KeyedByDevice(h.desktops)
    ensures SameRegistry(h, Evict(h))
    decreases |h.desktops.keys|
  {
    hide RemoveRoutes, EndSink, Delete;
    if |h.desktops.keys| >= MAX_CONNECTIONS {
      var oldest := h.desktops.values[h.desktops.keys[0]];
      RemoveSame();
      EndSame(CloseLink(h, oldest.deviceId, oldest.fence), oldest.sink);
      EvictSame(EvictOldest(h));
    }
  }

  lemma ReplaceSame(h: Hub, previous: DesktopLink)
    ensures SameRegistry(h, Replace(h, previous))
  {
    hide RemoveRoutes, EndSink, Delete, DeviceRoutes;
    RemoveSame();
    EndSame(h, previous.sink);
  }

  lemma CloseSame(h: Hub, deviceId: string, fence: string)
    ensures SameRegistry(h, CloseLink(h, deviceId, fence))
  {
    hide RemoveDesktopRoutes, Delete;
    forall g: Hub, fence ensures SameRegistry(g, RemoveDesktopRoutes(g, deviceId, fence)) {
      RemoveDesktopSame(g, deviceId, fence);
    }
  }

  lemma RemoveDesktopSame(h: Hub, deviceId: string, fence: Option<string>)
    ensures SameRegistry(h, RemoveDesktopRoutes(h, deviceId, fence))
  {
  }

  lemma WatchSame(h: Hub, sink: nat, deviceId: string, fence: string)
    ensures SameRegistry(h, Watch(h, sink, deviceId, fence))
  {
    hide CloseLink;
    CloseSame(h, deviceId, fence);
  }

  lemma OpenSame(h: Hub, actor: Authority, sink: nat, fence: string)
    requires KeyedByDevice(h.desktops)
    ensures SameRegistry(h, OpenLink(h, actor, sink, fence))
  {
    hide EndSink, Replace, KeyedByDevice, Set, Evict, Conflicts, SameRegistry;
    ReplaceShrinks(h, actor.deviceId);
    var refused := EndSink(h, sink);
    EndSame(h, sink);
    SameOn(h, refused, refused.(fences := h.fences + {fence}));
    var replaced := if actor.deviceId in h.desktops.values then Replace(h, h.desktops.values[actor.deviceId]) else h;
    if actor.deviceId in h.desktops.values {
      ReplaceSame(h, h.desktops.values[actor.deviceId]);
    } else {
      SameOn(h, h, h);
    }
    EvictSame(replaced);
    var room := Evict(replaced);
    SameOn(h, replaced, room);
    SameOn(h, room, room.(fences := h.fences + {fence},
                          desktops := Set(room.desktops, actor.deviceId, DesktopLink(fence, actor.deviceId, actor, sink))));
  }

  lemma SameOn(a: Hub, b: Hub, c: Hub)
    requires a == b || SameRegistry(a, b)
    requires SameRegistry(b, c) || (c.connections == b.connections && c.stale == b.stale && c.hellos == b.hellos && c.now == b.now)
    ensures SameRegistry(a, c)
  {
  }

  lemma {:induction false} RevokeLinksSame(h: Hub, links: seq<DesktopLink>, executorId: string)
    ensures SameRegistry(h, RevokeLinks(h, links, executorId))
    decreases |links|
  {
    hide RemoveRoutes, EndSink, Delete, DeviceRoutes;
    if links != [] {
      RemoveSame();
      EndSame(h, links[0].sink);
      RevokeLinksSame(if VouchedBy(links[0], executorId) then RevokeLink(h, links[0]) else h, links[1..], executorId);
    }
  }

  lemma OutputSame(h: Hub, executorId: string, commandId: Option<string>, correlationId: string, terminal: bool)
    ensures SameRegistry(h, Output(h, executorId, commandId, correlationId, terminal).0)
  {
    hide RemoveRoutes, EndSink, Delete, DeviceRoutes;
    RemoveSame();
    forall sink: nat ensures SameRegistry(h, EndSink(h, sink)) {
      EndSame(h, sink);
    }
  }

  /** Steps of the relay alone. */
  lemma RelaySame(w: World, e: Event)
    requires Inv(w.hub) && Enabled(w, e)
    requires e.OpenDesktop? || e.CancelStream? || e.RevokesDesktop? || e.RevokesExecutor? || e.BeginCommand? || e.Produce?
    ensures SameRegistry(w.hub, Apply(w, e).hub)
  {
    hide Inv, RemoveRoutes, EndSink, OpenLink, Watch, Output, RevokeLinks, KeyedByDevice, Delete, DeviceRoutes;
    InvKeyed(w.hub);
    match e
    case OpenDesktop(actor, sink, fence) =>
      OpenSame(w.hub, actor, sink, fence);
      WatchSame(OpenLink(w.hub, actor, sink, fence), sink, actor.deviceId, fence);
    case CancelStream(sink) => EndSame(w.hub, sink);
    case RevokesDesktop(deviceId) => RevokeDesktopSame(w.hub, deviceId);
    case RevokesExecutor(executorId) => RevokeExecutorSame(w.hub, executorId);
    case BeginCommand(task, actor, frame, envelope) => BeginSame(w, task, actor, frame, envelope);
    case Produce(executorId, commandId, correlationId, terminal) => OutputSame(w.hub, executorId, commandId, correlationId, terminal);
  }

  lemma BeginSame(w: World, task: nat, actor: Authority, frame: Frame, envelope: Option<Outcome>)
    ensures SameRegistry(w.hub, Begun(w, task, actor, frame, envelope).hub)
  {
  }

  lemma RevokeDesktopSame(h: Hub, deviceId: string)
    ensures SameRegistry(h, RevokeDesktop(h, deviceId))
  {
    hide RemoveRoutes, EndSink, Delete, DeviceRoutes;
    RemoveSame();
    if deviceId in h.desktops.values {
      EndSame(h, h.desktops.values[deviceId].sink);
    }
  }

  lemma RevokeExecutorSame(h: Hub, executorId: string)
    requires KeyedByDevice(h.desktops)
    ensures SameRegistry(h, RevokeExecutor(h, executorId))
  {
    var links := Links(h.desktops);
    hide RemoveRoutes, RevokeLinks, Links, KeyedByDevice;
    RemoveSame();
    RevokeLinksSame(h, links, executorId);
  }

  // ------------------------------------------------------------ steps of the registry

  /** The executor is gone, and its tombstone is remembered. */
  ghost predicate Silent(h: Hub, x: string, expiry: int, younger: nat) {
    x !in h.connections && Tomb(h.stale, x, expiry, younger, h.now)
  }

  lemma FenceSame(h: Hub, executorId: string)
    ensures SameRegistry(h, FenceExecutor(h, executorId))
  {
    RemoveSame();
    hide RemoveRoutes;
  }

  lemma PrunedSilent(h: Hub, x: string, expiry: int, younger: nat)
    requires Silent(h, x, expiry, younger)
    ensures Silent(PruneStale(PruneHellos(h)), x, expiry, younger)
    ensures PruneStale(PruneHellos(h)).connections == h.connections && PruneStale(PruneHellos(h)).now == h.now
  {
    hide Prune, Tomb;
    TombPrune(h.stale, h.stale.keys, x, expiry, younger, h.now);
  }

  /** Asking about an executor makes a new tombstone only if it is quiet. */
  lemma LookSilent(h: Hub, executorId: string, x: string, expiry: int, younger: nat)
    requires Silent(h, x, expiry, younger) && (Quiet(h, executorId) ==> younger + 1 < MAX_STALE_TOMBSTONES)
    ensures Silent(Look(h, executorId).0, x, expiry, if Quiet(h, executorId) then younger + 1 else younger)
    ensures Look(h, executorId).0.now == h.now
  {
    hide Tomb, PruneStale, PruneHellos, MarkStale, FenceExecutor;
    PrunedSilent(h, x, expiry, younger);
    if Quiet(h, executorId) {
      var pruned := PruneStale(PruneHellos(h));
      var cut := pruned.(ended := h.ended + {h.connections[executorId].sink}, connections := h.connections - {executorId});
      MarkSilent(cut, executorId, x, expiry, younger);
      FenceSame(MarkStale(cut, executorId), executorId);
    }
  }

  lemma MarkSilent(h: Hub, executorId: string, x: string, expiry: int, younger: nat)
    requires Silent(h, x, expiry, younger) && executorId != x && younger + 1 < MAX_STALE_TOMBSTONES
    ensures Silent(MarkStale(h, executorId), x, expiry, younger + 1) && MarkStale(h, executorId).now == h.now
  {
    hide Tomb, Trim, Set, Delete;
    TombMark(h.stale, x, expiry, younger, h.now, executorId, h.now + STALE_TOMBSTONE_TTL_MS);
  }

  lemma DisconnectSilent(h: Hub, executorId: string, x: string, expiry: int, younger: nat)
    requires Silent(h, x, expiry, younger)
    ensures Silent(Disconnect(h, executorId), x, expiry, younger) && Disconnect(h, executorId).now == h.now
  {
    hide FenceExecutor, Tomb;
    FenceSame(h.(connections := h.connections - {executorId}), executorId);
  }

  lemma DispatchSilent(h: Hub, executorId: string, x: string, expiry: int, younger: nat)
    requires Silent(h, x, expiry, younger) && (Quiet(h, executorId) ==> younger + 1 < MAX_STALE_TOMBSTONES)
    ensures Silent(Dispatch(h, executorId).0, x, expiry, if Quiet(h, executorId) then younger + 1 else younger)
  {
    hide Disconnect, Silent, Look;
    LookSilent(h, executorId, x, expiry, younger);
    if executorId in h.connections && Look(h, executorId).1 == Online {
      LookOnline(h, executorId);
      var looked := Look(h, executorId).0;
      var ended := looked.(ended := looked.ended + {h.connections[executorId].sink});
      SilentMore(looked, ended, x, expiry, younger, younger);
      DisconnectSilent(ended, executorId, x, expiry, younger);
    } else if executorId !in h.connections {
      hide Quiet;
    }
  }

  lemma LookOnline(h: Hub, executorId: string)
    ensures executorId in h.connections && Look(h, executorId).1 == Online ==>
      !Quiet(h, executorId) && Look(h, executorId).0.connections == h.connections && Look(h, executorId).0.now == h.now
  {
    hide FenceExecutor, MarkStale, Prune;
  }

  /** Tombstones never grow younger ones by themselves. */
  lemma SilentMore(h: Hub, h': Hub, x: string, expiry: int, younger: nat, more: nat)
    requires Silent(h, x, expiry, younger) && younger <= more
    requires h'.connections == h.connections && h'.stale == h.stale && h.now <= h'.now
    ensures Silent(h', x, expiry, more)
  {
  }

  lemma WrittenSilent(h: Hub, route: Route, x: string, expiry: int, younger: nat)
    requires Silent(h, x, expiry, younger) && (Quiet(h, route.executorId) ==> younger + 1 < MAX_STALE_TOMBSTONES)
    ensures Silent(Written(h, route), x, expiry, if Quiet(h, route.executorId) then younger + 1 else younger)
  {
    hide Dispatch, RemoveRoutes, Tomb, Quiet;
    DispatchSilent(h, route.executorId, x, expiry, younger);
    RemoveSame();
  }

  /** The second half of a command makes one tombstone at most: of its executor, if that is quiet when the
      frame is written. */
  lemma FinishSilent(h: Hub, link: DesktopLink, frame: Frame, lookup: Lookup, lag: nat, x: string, expiry: int, younger: nat)
    requires Silent(h, x, expiry, younger)
    requires Quiet(h.(now := h.now + lag), frame.executorId) ==> younger + 1 < MAX_STALE_TOMBSTONES
    ensures Silent(Finish(h, link, frame, lookup, lag).0, x, expiry,
                   if Quiet(h.(now := h.now + lag), frame.executorId) then younger + 1 else younger)
  {
    hide Look, Written, Silent, HasRoom, Quiet, Registered;
    var quiet := Quiet(h.(now := h.now + lag), frame.executorId);
    var more := if quiet then younger + 1 else younger;
    QuietLater(h, frame.executorId, lag);
    LookSilent(h, frame.executorId, x, expiry, younger);
    LookOnline(h, frame.executorId);
    var looked := Look(h, frame.executorId).0;
    SilentMore(h, h, x, expiry, younger, more);
    SilentMore(looked, looked, x, expiry, if Quiet(h, frame.executorId) then younger + 1 else younger, more);
    if lookup.Usable? && frame.executorId in h.connections && Look(h, frame.executorId).1 == Online {
      var registered := Registered(looked, link, frame, lag);
      RegisteredSame(looked, link, frame, lag);
      SilentMore(looked, registered, x, expiry, younger, younger);
      QuietBy(registered, h.(now := h.now + lag), frame.executorId);
      WrittenSilent(registered, NewRoute(looked, link, frame), x, expiry, younger);
    }
  }

  lemma QuietLater(h: Hub, executorId: string, lag: nat)
    ensures Quiet(h, executorId) ==> Quiet(h.(now := h.now + lag), executorId)
  {
  }

  lemma QuietBy(h: Hub, h': Hub, executorId: string)
    requires h'.connections == h.connections && h'.now == h.now
    ensures Quiet(h, executorId) == Quiet(h', executorId)
  {
  }

  lemma RegisteredSame(h: Hub, link: DesktopLink, frame: Frame, lag: nat)
    requires frame.executorId in h.connections
    ensures var h' := Registered(h, link, frame, lag);
      h'.connections == h.connections && h'.stale == h.stale && h'.now == h.now + lag
  {
  }

  lemma OpenExecutorSilent(h: Hub, executorId: string, deviceId: string, generation: nat, sink: nat, fence: string, x: string, expiry: int, younger: nat)
    requires Silent(h, x, expiry, younger) && executorId != x
    ensures Silent(OpenExecutor(h, executorId, deviceId, generation, sink, fence), x, expiry, younger)
  {
    hide Tomb, Delete, PruneStale, PruneHellos, ReplaceConnection;
    var replaced := ReplaceConnection(PruneStale(PruneHellos(h)), executorId);
    assert Tomb(Delete(replaced.stale, executorId), x, expiry, younger, h.now) && x !in replaced.connections && replaced.now == h.now by {
      PrunedSilent(h, x, expiry, younger);
      ReplaceSilent(PruneStale(PruneHellos(h)), executorId, x, expiry, younger);
      TombDelete(replaced.stale, x, expiry, younger, h.now, executorId);
    }
    Opens(h, executorId, deviceId, generation, sink, fence);
    OpensOne(h, executorId, deviceId, generation, sink, fence, x);
    hide OpenExecutor;
  }

  /** Opening changes the tables of its own executor only. */
  lemma Opens(h: Hub, executorId: string, deviceId: string, generation: nat, sink: nat, fence: string)
    ensures var replaced := ReplaceConnection(PruneStale(PruneHellos(h)), executorId);
      var h' := OpenExecutor(h, executorId, deviceId, generation, sink, fence);
      (h'.stale, h'.now) == (Delete(replaced.stale, executorId), replaced.now)
  {
    hide Delete, PruneStale, PruneHellos, ReplaceConnection;
  }

  lemma OpensOne(h: Hub, executorId: string, deviceId: string, generation: nat, sink: nat, fence: string, x: string)
    requires x != executorId && x !in ReplaceConnection(PruneStale(PruneHellos(h)), executorId).connections
    ensures x !in OpenExecutor(h, executorId, deviceId, generation, sink, fence).connections
  {
    hide Delete, PruneStale, PruneHellos, ReplaceConnection;
  }

  lemma ReplaceSilent(h: Hub, executorId: string, x: string, expiry: int, younger: nat)
    requires Silent(h, x, expiry, younger)
    ensures Silent(ReplaceConnection(h, executorId), x, expiry, younger) && ReplaceConnection(h, executorId).now == h.now
  {
    hide Tomb, Disconnect;
    if executorId in h.connections {
      DisconnectSilent(h.(ended := h.ended + {h.connections[executorId].sink}), executorId, x, expiry, younger);
    }
  }

  lemma CloseExecutorSilent(h: Hub, executorId: string, onlyFence: Option<string>, x: string, expiry: int, younger: nat)
    requires Silent(h, x, expiry, younger)
    ensures Silent(CloseExecutor(h, executorId, onlyFence), x, expiry, younger)
    ensures executorId != x ==> Silent(RevokeConnection(h, executorId), x, expiry, younger)
  {
    hide Tomb, Disconnect;
    if executorId != x {
      TombDelete(h.stale, x, expiry, younger, h.now, executorId);
      var cleared := h.(stale := Delete(h.stale, executorId), hellos := Delete(h.hellos, executorId));
      hide Delete;
      DisconnectSilent(cleared, executorId, x, expiry, younger);
      if executorId in h.connections {
        DisconnectSilent(cleared.(ended := h.ended + {h.connections[executorId].sink}), executorId, x, expiry, younger);
      }
    }
  }

  lemma TouchSilent(h: Hub, executorId: string, generation: nat, x: string, expiry: int, younger: nat)
    requires Silent(h, x, expiry, younger)
    ensures Silent(TouchExecutor(h, executorId, generation), x, expiry, younger)
  {
    if executorId != x {
      TombDelete(h.stale, x, expiry, younger, h.now, executorId);
    }
    hide Tomb, Delete;
  }

  // ------------------------------------------------------------ whole runs

  /** The step connects the executor again, or revokes it. */
  predicate Returns(e: Event, x: string) {
    (e.OpensExecutor? || e.RevokesConnection?) && e.executorId == x
  }

  /** The step meets an executor that has been silent for more than 45 seconds. */
  predicate MeetsSilence(w: World, e: Event) {
    match e
    case AsksPresence(executorId) => Quiet(w.hub, executorId)
    case FinishCommand(task, _, lag) =>
      task in w.commands && Quiet(w.hub.(now := w.hub.now + lag), w.commands[task].frame.executorId)
    case _ => false
  }

  /** How many steps of the run meet a silent executor. */
  ghost function Silences(w: World, es: seq<Event>): nat
    requires Inv(w.hub) && Follows(w, es)
    decreases |es|
  {
    if es == [] then 0
    else StepKeeps(w, es[0]); (if MeetsSilence(w, es[0]) then 1 else 0) + Silences(Apply(w, es[0]), es[1..])
  }

  lemma StepSilent(w: World, e: Event, x: string, expiry: int, younger: nat)
    requires Inv(w.hub) && Enabled(w, e) && !Returns(e, x)
    requires Silent(w.hub, x, expiry, younger) && (MeetsSilence(w, e) ==> younger + 1 < MAX_STALE_TOMBSTONES)
    ensures Silent(Apply(w, e).hub, x, expiry, if MeetsSilence(w, e) then younger + 1 else younger)
  {
    hide Inv, Tomb;
    if e.OpenDesktop? || e.CancelStream? || e.RevokesDesktop? || e.RevokesExecutor? || e.BeginCommand? || e.Produce? {
      RelaySame(w, e);
      hide Apply, Enabled;
    } else if e.OpensExecutor? || e.ClosesExecutor? || e.RevokesConnection? || e.Touches? || e.AsksPresence? {
      RegistryStepSilent(w, e, x, expiry, younger);
      hide Apply, Enabled;
    } else if e.FinishCommand? {
      hide Finish, Silent, Quiet;
      FinishSilent(w.hub, w.commands[e.task].link, w.commands[e.task].frame, e.lookup, e.lag, x, expiry, younger);
    } else {
      QuietStepSilent(w, e, x, expiry, younger);
      hide Apply, Enabled;
    }
  }

  lemma RegistryStepSilent(w: World, e: Event, x: string, expiry: int, younger: nat)
    requires Inv(w.hub) && Enabled(w, e) && !Returns(e, x)
    requires e.OpensExecutor? || e.ClosesExecutor? || e.RevokesConnection? || e.Touches? || e.AsksPresence?
    requires Silent(w.hub, x, expiry, younger) && (MeetsSilence(w, e) ==> younger + 1 < MAX_STALE_TOMBSTONES)
    ensures Silent(Apply(w, e).hub, x, expiry, if MeetsSilence(w, e) then younger + 1 else younger)
  {
    hide Inv, Silent, Quiet, OpenExecutor, CloseExecutor, RevokeConnection, TouchExecutor, Look;
    match e
    case OpensExecutor(executorId, deviceId, generation, sink, fence) =>
      OpenExecutorSilent(w.hub, executorId, deviceId, generation, sink, fence, x, expiry, younger);
    case ClosesExecutor(executorId, onlyFence) => CloseExecutorSilent(w.hub, executorId, onlyFence, x, expiry, younger);
    case RevokesConnection(executorId) => CloseExecutorSilent(w.hub, executorId, None, x, expiry, younger);
    case Touches(executorId, generation) => TouchSilent(w.hub, executorId, generation, x, expiry, younger);
    case AsksPresence(executorId) => LookSilent(w.hub, executorId, x, expiry, younger);
  }

  lemma QuietStepSilent(w: World, e: Event, x: string, expiry: int, younger: nat)
    requires Inv(w.hub) && Enabled(w, e) && Silent(w.hub, x, expiry, younger)
    requires e.SetRefusing? || e.Receive? || e.TimerFires? || e.Greets? || e.Tick?
    ensures Silent(Apply(w, e).hub, x, expiry, younger)
  {
    hide Inv, Tomb, RemoveRoutes, Resolve, Prune, Trim, Set, Delete;
    RemoveSame();
    if e.Tick? {
      SilentMore(w.hub, Apply(w, e).hub, x, expiry, younger, younger);
    }
  }

  lemma {:induction false} RunSilent(w: World, es: seq<Event>, x: string, expiry: int, younger: nat)
    requires Inv(w.hub) && Follows(w, es) && forall i :: 0 <= i < |es| ==> !Returns(es[i], x)
    requires Silent(w.hub, x, expiry, younger) && younger + Silences(w, es) < MAX_STALE_TOMBSTONES
    ensures Silent(After(w, es).hub, x, expiry, younger + Silences(w, es))
    decreases |es|
  {
    hide Inv, Apply, Enabled, Silent, MeetsSilence, Returns;
    if es != [] {
      StepKeeps(w, es[0]);
      StepSilent(w, es[0], x, expiry, younger);
      var rest := es[1..];
      assert forall i :: 0 <= i < |rest| ==> rest[i] == es[i + 1];
      RunSilent(Apply(w, es[0]), rest, x, expiry, if MeetsSilence(w, es[0]) then younger + 1 else younger);
    }
  }

  /** A silence that is noticed is remembered for exactly 45 seconds, whatever happens to the relay and to
      other executors meanwhile, unless the executor connects again or is revoked, or 1024 more silences
      press its tombstone out. */
  lemma SilenceRemembered(w: World, es: seq<Event>, x: string)
    requires Inv(w.hub) && Quiet(w.hub, x) && Follows(w, es) && es != [] && es[0] == AsksPresence(x)
    requires forall i :: 0 < i < |es| ==> !Returns(es[i], x)
    requires Silences(w, es) <= 1_024
    ensures var h := After(w, es).hub;
      && x !in h.connections
      && Look(h, x).1 == (if h.now < w.hub.now + 45_000 then Stale else Offline)
  {
    hide Inv, Apply, Enabled, Silent, Quiet, Silences, Look;
    RunKeeps(w, es);
    FirstStep(w, es, x);
    var rest := es[1..];
    assert forall i :: 0 <= i < |rest| ==> rest[i] == es[i + 1];
    hide Returns;
    RunSilent(Apply(w, es[0]), rest, x, w.hub.now + 45_000, 0);
    SilentLook(After(w, es).hub, x, w.hub.now + 45_000, Silences(w, es) - 1);
  }

  lemma FirstStep(w: World, es: seq<Event>, x: string)
    requires Inv(w.hub) && Quiet(w.hub, x) && Follows(w, es) && es != [] && es[0] == AsksPresence(x)
    ensures Inv(Apply(w, es[0]).hub) && Follows(Apply(w, es[0]), es[1..])
    ensures Silent(Apply(w, es[0]).hub, x, w.hub.now + 45_000, 0)
    ensures Silences(w, es) == 1 + Silences(Apply(w, es[0]), es[1..])
  {
    hide Inv, Look, Silent, Quiet;
    FirstSilent(w.hub, x);
    StepKeeps(w, es[0]);
  }

  lemma FirstSilent(h: Hub, x: string)
    requires Inv(h) && Quiet(h, x)
    ensures Silent(Look(h, x).0, x, h.now + 45_000, 0)
  {
    hide Look, RoutesInv, Linked, Connected;
    SilenceNoticed(h, x);
    var noticed := Look(h, x).0;
    LastBehind(noticed.stale.keys, x);
  }

  lemma {:induction false} LastBehind(keys: seq<string>, x: string)
    requires forall i, j :: 0 <= i < j < |keys| ==> keys[i] != keys[j]
    requires keys != [] && keys[|keys| - 1] == x
    ensures Behind(keys, x) == 0
  {
    if |keys| > 1 {
      assert keys[0] != x;
      LastBehind(keys[1..], x);
    }
  }

  lemma SilentLook(h: Hub, x: string, expiry: int, younger: nat)
    requires Inv(h) && Silent(h, x, expiry, younger)
    ensures x !in h.connections && Look(h, x).1 == (if h.now < expiry then Stale else Offline)
  {
    hide RoutesInv, Linked, Connected, Look, Behind;
    PresenceExact(h, x);
  }
}
