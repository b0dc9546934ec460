/**
 What every step makes of the executor registry as one executor sees it: its connection, its live tombstone and
 its live hello.
 */
module ConnectEffects {
  import opened Wrappers
  import opened JsMaps
  import opened ConnectHub
  import opened ConnectInvariants
  import opened ConnectKeeps
  import opened ConnectRuns
  import opened ConnectFates
  import ConnectSilence
  import ConnectRemoval

  datatype View = View(connection: Option<ExecutorLink>, tomb: Option<int>, hello: Option<PendingHello>)

  /** The tombstone and the hello count only until they expire. */
  function Live(v: View, now: int): View {
    v.(tomb := if v.tomb.Some? && v.tomb.value <= now then None else v.tomb,
       hello := if v.hello.Some? && v.hello.value.expiresAtMs <= now then None else v.hello)
  }

  function Seen(h: Hub, x: string): View {
    Live(View(if x in h.connections then Some(h.connections[x]) else None,
              if x in h.stale.values then Some(h.stale.values[x]) else None,
              if x in h.hellos.values then Some(h.hellos.values[x]) else None),
         h.now)
  }

  /** Nothing was heard from the connection for more than 45 seconds. */
  predicate SilentAt(v: View, now: int) {
    v.connection.Some? && now - v.connection.value.lastActivityMs > 45_000
  }

  /** The silence is noticed: the connection goes and leaves a tombstone for 45 seconds. */
  function Noticed(v: View, now: int): View {
    v.(connection := None, tomb := Some(now + 45_000))
  }

  predicate Takes(h: Hub, sink: nat) {
    sink !in h.ended && sink !in h.refusing
  }

  function AfterOpening(h: Hub, v: View, link: ExecutorLink): View {
    var greeted := v.hello.Some? && v.hello.value.generation == link.generation;
    var takes := Takes(h, link.sink) && (v.connection.Some? ==> v.connection.value.sink != link.sink);
    View(if greeted && !takes then None else Some(link), None, if greeted then None else v.hello)
  }

  /** A frame is written at `now`. */
  function AfterDispatch(h: Hub, v: View, now: int): View {
    if SilentAt(v, now) then Noticed(v, now)
    else if v.connection.Some? && !Takes(h, v.connection.value.sink) then v.(connection := None)
    else v
  }

  function AfterFinish(h: Hub, v: View, room: bool, lag: nat): View {
    if SilentAt(v, h.now) then Noticed(v, h.now) else if room then AfterDispatch(h, v, h.now + lag) else v
  }

  /** What the step makes of what the executor `x` has in the registry. */
  function Next(w: World, e: Event, x: string): View {
    var (h, v) := (w.hub, Seen(w.hub, x));
    match e
    case OpensExecutor(executorId, deviceId, generation, sink, fence) =>
      if executorId != x then v else AfterOpening(h, v, ExecutorLink(fence, x, deviceId, generation, sink, h.now))
    case ClosesExecutor(executorId, onlyFence) =>
      if executorId == x && v.connection.Some? && onlyFence in {None, Some(v.connection.value.fence)} then View(None, None, None) else v
    case RevokesConnection(executorId) => if executorId == x then View(None, None, None) else v
    case Touches(executorId, generation) =>
      if executorId == x && v.connection.Some? && v.connection.value.generation == generation
      then v.(connection := Some(v.connection.value.(lastActivityMs := h.now)), tomb := None) else v
    case Greets(executorId, generation, correlationId) =>
      if executorId == x then v.(hello := Some(PendingHello(generation, correlationId, h.now + 30_000))) else v
    case AsksPresence(executorId) => if executorId == x && SilentAt(v, h.now) then Noticed(v, h.now) else v
    case FinishCommand(task, lookup, lag) =>
      if task in w.commands && w.commands[task].frame.executorId == x && Matched(h, w.commands[task].link, w.commands[task].frame, lookup)
      then AfterFinish(h, v, Roomy(h, w.commands[task].link.deviceId, w.commands[task].frame), lag) else v
    case _ => v
  }

  /** Beside that, an executor loses its tombstone or its hello only to those of others, when 1024 are kept. */
  ghost predicate Becomes(h: Hub, h': Hub, x: string, v: View) {
    var (v', n) := (Seen(h', x), Live(v, h'.now));
    && v'.connection == n.connection
    && (v'.tomb == n.tomb || (v'.tomb == None && |h.stale.keys| >= 1_024))
    && (v'.hello == n.hello || (v'.hello == None && |h.hellos.keys| >= 1_024))
  }

  // ------------------------------------------------------------ the tables

  ghost predicate Tables(h: Hub) {
    Remembered(h.connections, h.stale, h.hellos)
  }

  /** The entry of `key` is set to `value`, and those of others are kept unless there is no room. */
  ghost predicate Entered<V>(m: JsMap<V>, t: JsMap<V>, key: string, value: V, x: string) {
    && (x == key ==> x in t.values && t.values[x] == value)
    && (x != key && x in t.values ==> x in m.values && t.values[x] == m.values[x])
    && (x != key && x in m.values && |m.keys| < 1_024 ==> x in t.values)
  }

  lemma TrimmedEntries<V>(m: JsMap<V>, key: string, value: V, cap: nat, x: string)
    requires Ordered(m) && cap > 0
    ensures var t := Trim(Set(Delete(m, key), key, value), cap).values;
      && key in t && t[key] == value
      && (x != key && x in t ==> x in m.values && t[x] == m.values[x])
      && (x != key && x in m.values && |m.keys| < cap ==> x in t)
  {
    var marked := Set(Delete(m, key), key, value);
    DeleteOrdered(m, key);
    SetOrdered(Delete(m, key), key, value);
    TrimNewest(marked, cap);
    var t := Trim(marked, cap);
    assert marked.keys[|marked.keys| - 1] == key by { WithoutOrdered(m.keys, key); }
    assert t.keys[|t.keys| - 1] == key;
    assert |m.keys| < cap ==> t.keys == marked.keys;
    assert x != key && x in m.values ==> x in marked.keys;
    hide Trim, Delete, Set, Without;
  }

  /** An entry that is set last stays; the others stay as they were, all of them if there was room. */
  lemma EntersLast<V>(m: JsMap<V>, key: string, value: V, x: string)
    requires Ordered(m)
    ensures Entered(m, Trim(Set(Delete(m, key), key, value), 1_024), key, value, x)
  {
    hide Trim, Set, Delete, Ordered;
    TrimmedEntries(m, key, value, 1_024, x);
  }

  lemma PrunedSees(h: Hub, x: string)
    requires Tables(h)
    ensures var p := PruneStale(PruneHellos(h));
      && Tables(p) && Seen(p, x) == Seen(h, x) && |p.stale.keys| <= |h.stale.keys| && |p.hellos.keys| <= |h.hellos.keys|
      && p.connections == h.connections && p.now == h.now && p.ended == h.ended && p.refusing == h.refusing
    ensures var p := PruneHellos(h); Tables(p) && Seen(p, x) == Seen(h, x) && |p.hellos.keys| <= |h.hellos.keys|
  {
    PruneRemembers(h);
    PruneExact(h.hellos, h.hellos.keys, HelloExpired(h.now));
    PruneExact(h.stale, h.stale.keys, TombstoneExpired(h.now));
    assert x in h.hellos.values <==> x in h.hellos.keys;
    assert x in h.stale.values <==> x in h.stale.keys;
    hide Prune, Ordered;
  }

  lemma FenceSees(h: Hub, executorId: string, x: string)
    ensures var f := FenceExecutor(h, executorId);
      && Seen(f, x) == Seen(h, x) && f.stale == h.stale && f.hellos == h.hellos && f.now == h.now
  {
    hide Kept, Released, Resolve, ExecutorRoutes;
  }

  lemma TombEntered(h: Hub, stale: JsMap<int>, key: string, x: string)
    requires Entered(h.stale, stale, key, h.now + 45_000, x)
    ensures Becomes(h, h.(stale := stale), x, if x == key then Seen(h, x).(tomb := Some(h.now + 45_000)) else Seen(h, x))
  {
  }

  lemma HelloEntered(h: Hub, hellos: JsMap<PendingHello>, key: string, hello: PendingHello, x: string)
    requires Entered(h.hellos, hellos, key, hello, x)
    ensures Becomes(h, h.(hellos := hellos), x, if x == key then Seen(h, x).(hello := Some(hello)) else Seen(h, x))
  {
  }

  lemma MarkSees(h: Hub, executorId: string, x: string)
    requires Ordered(h.stale)
    ensures Becomes(h, MarkStale(h, executorId), x,
                    if x == executorId then Seen(h, x).(tomb := Some(h.now + 45_000)) else Seen(h, x))
    ensures MarkStale(h, executorId).(stale := h.stale) == h
  {
    var stale := Trim(Set(Delete(h.stale, executorId), executorId, h.now + STALE_TOMBSTONE_TTL_MS), MAX_STALE_TOMBSTONES);
    MarkIs(h, executorId);
    EntersLast(h.stale, executorId, h.now + STALE_TOMBSTONE_TTL_MS, x);
    hide Trim, Set, Delete, Becomes, Ordered, MarkStale, Entered, Seen;
    TombEntered(h, stale, executorId, x);
  }

  lemma MarkIs(h: Hub, executorId: string)
    ensures MarkStale(h, executorId) ==
      h.(stale := Trim(Set(Delete(h.stale, executorId), executorId, h.now + STALE_TOMBSTONE_TTL_MS), MAX_STALE_TOMBSTONES))
  {
    hide Trim, Set, Delete;
  }

  lemma HelloSees(h: Hub, executorId: string, generation: nat, correlationId: string, x: string)
    requires Tables(h)
    ensures Becomes(h, Hello(h, executorId, generation, correlationId), x,
                    if x == executorId then Seen(h, x).(hello := Some(PendingHello(generation, correlationId, h.now + 30_000))) else Seen(h, x))
  {
    var (p, hello) := (PruneHellos(h), PendingHello(generation, correlationId, h.now + PENDING_HELLO_TTL_MS));
    PrunedSees(h, x);
    HelloIs(h, executorId, generation, correlationId);
    hide Trim, Set, Delete, Prune, Tables, Ordered, PruneHellos, Hello, Seen, Becomes;
    PrunedOnly(h);
    EntersHello(p, executorId, hello, x);
    BecomesFrom(h, p, Hello(h, executorId, generation, correlationId), x,
                if x == executorId then Seen(h, x).(hello := Some(hello)) else Seen(h, x));
  }

  lemma EntersHello(h: Hub, key: string, hello: PendingHello, x: string)
    requires Ordered(h.hellos)
    ensures Becomes(h, h.(hellos := Trim(Set(Delete(h.hellos, key), key, hello), MAX_PENDING_HELLOS)), x,
                    if x == key then Seen(h, x).(hello := Some(hello)) else Seen(h, x))
  {
    EntersLast(h.hellos, key, hello, x);
    hide Trim, Set, Delete, Becomes, Ordered, Entered, Seen;
    HelloEntered(h, Trim(Set(Delete(h.hellos, key), key, hello), MAX_PENDING_HELLOS), key, hello, x);
  }

  lemma PrunedOnly(h: Hub)
    requires Tables(h)
    ensures PruneHellos(h) == h.(hellos := PruneHellos(h).hellos) && Ordered(PruneHellos(h).hellos)
  {
    PruneExact(h.hellos, h.hellos.keys, HelloExpired(h.now));
    hide Prune, Ordered;
  }

  lemma BecomesFrom(h: Hub, p: Hub, h': Hub, x: string, v: View)
    requires Becomes(p, h', x, v) && |p.stale.keys| <= |h.stale.keys| && |p.hellos.keys| <= |h.hellos.keys|
    ensures Becomes(h, h', x, v)
  {
    hide Seen, Live;
  }

  // ------------------------------------------------------------ operations

  lemma LookSees(h: Hub, executorId: string, x: string)
    requires Tables(h)
    ensures Becomes(h, Look(h, executorId).0, x,
                    if x == executorId && SilentAt(Seen(h, x), h.now) then Noticed(Seen(h, x), h.now) else Seen(h, x))
  {
    hide Prune, Trim, Set, Delete, MarkStale, PruneStale, PruneHellos, FenceExecutor, Becomes, Tables, Ordered;
    PrunedSees(h, x);
    var p := PruneStale(PruneHellos(h));
    if executorId in h.connections && Quiet(h, executorId) {
      var cut := p.(ended := h.ended + {h.connections[executorId].sink}, connections := h.connections - {executorId});
      OrderedTables(p);
      MarkSees(cut, executorId, x);
      FenceSees(MarkStale(cut, executorId), executorId, x);
      SilenceSees(h, p, cut, MarkStale(cut, executorId), Look(h, executorId).0, executorId, x);
    } else {
      SameSees(h, p, x);
    }
  }

  lemma OrderedTables(h: Hub)
    requires Tables(h)
    ensures Ordered(h.stale) && Ordered(h.hellos)
  {
  }

  lemma SameSees(h: Hub, h': Hub, x: string)
    requires Seen(h', x) == Seen(h, x) && h'.now == h.now
    ensures Becomes(h, h', x, Seen(h, x))
  {
  }

  lemma SilenceSees(h: Hub, p: Hub, cut: Hub, marked: Hub, h': Hub, executorId: string, x: string)
    requires Seen(p, x) == Seen(h, x) && |p.stale.keys| <= |h.stale.keys| && |p.hellos.keys| <= |h.hellos.keys|
    requires p.connections == h.connections && p.now == h.now
    requires executorId in h.connections && Quiet(h, executorId)
    requires cut == p.(ended := cut.ended, connections := h.connections - {executorId})
    requires Becomes(cut, marked, x, if x == executorId then Seen(cut, x).(tomb := Some(h.now + 45_000)) else Seen(cut, x))
    requires marked.now == h.now && Seen(h', x) == Seen(marked, x) && h'.now == marked.now
    ensures Becomes(h, h', x,
                    if x == executorId && SilentAt(Seen(h, x), h.now) then Noticed(Seen(h, x), h.now) else Seen(h, x))
  {
  }

  /** A connection that is not silent is left as it is by the look before the frame is written. */
  lemma LookPasses(h: Hub, executorId: string, x: string)
    requires Tables(h) && executorId in h.connections && !Quiet(h, executorId)
    ensures var looked := Look(h, executorId).0;
      && Look(h, executorId).1 == Online && Seen(looked, x) == Seen(h, x) && looked.now == h.now
      && looked.ended == h.ended && looked.refusing == h.refusing && looked.connections == h.connections
  {
    PrunedSees(h, x);
    hide PruneStale, PruneHellos, MarkStale, FenceExecutor;
  }

  lemma DispatchSees(h: Hub, executorId: string, x: string)
    requires Tables(h)
    ensures Becomes(h, Dispatch(h, executorId).0, x, if x == executorId then AfterDispatch(h, Seen(h, x), h.now) else Seen(h, x))
  {
    hide Look, Tables, Becomes, FenceExecutor;
    LookSees(h, executorId, x);
    SameSees(h, h, x);
    if executorId in h.connections && !Quiet(h, executorId) {
      LookPasses(h, executorId, x);
      var looked := Look(h, executorId).0;
      SameSees(h, looked, x);
      var cut := looked.(ended := looked.ended + {h.connections[executorId].sink}, connections := looked.connections - {executorId});
      FenceSees(cut, executorId, x);
      if !Writes(h, h.connections[executorId].sink) {
        CutSees(h, cut, Dispatch(h, executorId).0, executorId, x);
      }
    } else if executorId in h.connections {
      LookStale(h, executorId);
    }
  }

  lemma LookStale(h: Hub, executorId: string)
    requires executorId in h.connections && Quiet(h, executorId)
    ensures Look(h, executorId).1 == Stale
  {
  }

  lemma CutSees(h: Hub, cut: Hub, h': Hub, executorId: string, x: string)
    requires cut.connections == h.connections - {executorId} && cut.now == h.now
    requires Seen(cut.(connections := h.connections), x) == Seen(h, x)
    requires Seen(h', x) == Seen(cut, x) && h'.now == h.now
    requires executorId in h.connections && !Quiet(h, executorId) && !Writes(h, h.connections[executorId].sink)
    ensures Becomes(h, h', x, if x == executorId then AfterDispatch(h, Seen(h, x), h.now) else Seen(h, x))
  {
  }

  lemma TouchSees(h: Hub, executorId: string, generation: nat, x: string)
    ensures var v := Seen(h, x);
      Becomes(h, TouchExecutor(h, executorId, generation), x,
              if executorId == x && v.connection.Some? && v.connection.value.generation == generation
              then v.(connection := Some(v.connection.value.(lastActivityMs := h.now)), tomb := None) else v)
  {
    hide Without;
  }

  /** The executor's connection, tombstone and hello are taken away. */
  lemma ClearedSees(h: Hub, executorId: string, ended: set<nat>, x: string)
    ensures var cut := h.(stale := Delete(h.stale, executorId), hellos := Delete(h.hellos, executorId),
                          connections := h.connections - {executorId}, ended := ended);
      Becomes(h, FenceExecutor(cut, executorId), x, if executorId == x then View(None, None, None) else Seen(h, x))
  {
    hide FenceExecutor, Without;
    FenceSees(h.(stale := Delete(h.stale, executorId), hellos := Delete(h.hellos, executorId),
                 connections := h.connections - {executorId}, ended := ended), executorId, x);
  }

  lemma CloseSees(h: Hub, executorId: string, onlyFence: Option<string>, x: string)
    ensures var v := Seen(h, x);
      Becomes(h, CloseExecutor(h, executorId, onlyFence), x,
              if executorId == x && v.connection.Some? && onlyFence in {None, Some(v.connection.value.fence)} then View(None, None, None) else v)
  {
    hide FenceExecutor, Delete, Becomes;
    ClearedSees(h, executorId, h.ended, x);
    SameSees(h, h, x);
  }

  lemma RevokeSees(h: Hub, executorId: string, x: string)
    ensures Becomes(h, RevokeConnection(h, executorId), x, if executorId == x then View(None, None, None) else Seen(h, x))
  {
    hide FenceExecutor, Becomes, Without;
    if executorId in h.connections {
      hide Delete;
      ClearedSees(h, executorId, h.ended + {h.connections[executorId].sink}, x);
    } else {
      UnknownSees(h, executorId, x);
    }
  }

  lemma UnknownSees(h: Hub, executorId: string, x: string)
    requires executorId !in h.connections
    ensures Becomes(h, h.(stale := Delete(h.stale, executorId), hellos := Delete(h.hellos, executorId)), x,
                    if executorId == x then View(None, None, None) else Seen(h, x))
  {
    hide Without;
  }

  lemma ReplaceSees(h: Hub, executorId: string, x: string)
    ensures var r := ReplaceConnection(h, executorId);
      && Seen(r, x) == (if x == executorId then Seen(h, x).(connection := None) else Seen(h, x))
      && r.now == h.now && r.stale == h.stale && r.hellos == h.hellos && r.connections == h.connections - {executorId}
      && r.refusing == h.refusing
      && r.ended == h.ended + (if executorId in h.connections then {h.connections[executorId].sink} else {})
  {
    hide FenceExecutor;
    if executorId in h.connections {
      FenceSees(h.(ended := h.ended + {h.connections[executorId].sink}, connections := h.connections - {executorId}), executorId, x);
      FenceOnly(h.(ended := h.ended + {h.connections[executorId].sink}, connections := h.connections - {executorId}), executorId);
    }
  }

  lemma FenceOnly(h: Hub, executorId: string)
    ensures var f := FenceExecutor(h, executorId); f.ended == h.ended && f.refusing == h.refusing && f.connections == h.connections
  {
    hide Kept, Released, Resolve, ExecutorRoutes;
  }

  /** A channel that opens on what the takeover has left. */
  lemma JoinedSees(h: Hub, replaced: Hub, live: Hub, h': Hub, link: ExecutorLink, fences: set<string>, x: string)
    requires Seen(replaced, x) == (if x == link.executorId then Seen(h, x).(connection := None) else Seen(h, x)) && replaced.now == h.now
    requires live == replaced.(stale := Delete(replaced.stale, link.executorId), fences := fences,
                               connections := replaced.connections[link.executorId := link])
    requires h' == live.(ended := h'.ended, hellos := h'.hellos, connections := h'.connections)
    requires var y := link.executorId;
      var greeted := y in live.hellos.values && live.hellos.values[y].generation == link.generation && live.hellos.values[y].expiresAtMs > h.now;
      && h'.hellos == (if greeted then Delete(live.hellos, y) else live.hellos)
      && h'.connections == (if greeted && !Takes(live, link.sink) then live.connections - {y} else live.connections)
    requires x == link.executorId ==>
      (Takes(live, link.sink) <==> Takes(h, link.sink) && (Seen(h, x).connection.Some? ==> Seen(h, x).connection.value.sink != link.sink))
    ensures Becomes(h, h', x, if x == link.executorId then AfterOpening(h, Seen(h, x), link) else Seen(h, x))
  {
    hide Without, Takes;
  }

  lemma OpenSees(h: Hub, executorId: string, deviceId: string, generation: nat, sink: nat, fence: string, x: string)
    requires Tables(h)
    ensures var h' := OpenExecutor(h, executorId, deviceId, generation, sink, fence);
      Becomes(h, h', x,
              if x == executorId then AfterOpening(h, Seen(h, x), ExecutorLink(fence, x, deviceId, generation, sink, h.now)) else Seen(h, x))
  {
    hide PruneStale, PruneHellos, ReplaceConnection, Tables, Delete, Becomes, Seen;
    PrunedSees(h, x);
    var p := PruneStale(PruneHellos(h));
    ReplaceSees(p, executorId, x);
    var replaced := ReplaceConnection(p, executorId);
    var link := ExecutorLink(fence, executorId, deviceId, generation, sink, h.now);
    var live := replaced.(stale := Delete(replaced.stale, executorId), fences := h.fences + {fence},
                          connections := replaced.connections[executorId := link]);
    SeenConnection(h, x);
    JoinedSees(h, replaced, live, OpenExecutor(h, executorId, deviceId, generation, sink, fence), link, h.fences + {fence}, x);
  }

  lemma SeenConnection(h: Hub, x: string)
    ensures Seen(h, x).connection == if x in h.connections then Some(h.connections[x]) else None
  {
  }

  // ------------------------------------------------------------ the second half of a command

  lemma RegisteredSees(h: Hub, looked: Hub, link: DesktopLink, frame: Frame, lag: nat, x: string)
    requires frame.executorId in looked.connections && Seen(looked, x) == Seen(h, x) && looked.now == h.now
    ensures var registered := ConnectHub.Registered(looked, link, frame, lag);
      && registered.now == h.now + lag && Seen(registered, x) == Live(Seen(h, x), h.now + lag)
      && registered.stale == looked.stale && registered.hellos == looked.hellos && registered.connections == looked.connections
      && registered.ended == looked.ended && registered.refusing == looked.refusing
  {
  }

  lemma WrittenSees(h: Hub, route: Route, x: string)
    requires Tables(h)
    ensures Becomes(h, Written(h, route), x, if x == route.executorId then AfterDispatch(h, Seen(h, x), h.now) else Seen(h, x))
  {
    hide Dispatch, RemoveRoutes, Tables, AfterDispatch, Becomes, Seen;
    DispatchSees(h, route.executorId, x);
    var dispatched := Dispatch(h, route.executorId).0;
    ForgottenSees(dispatched, x);
    SeesSame(h, dispatched, Written(h, route), x,
             if x == route.executorId then AfterDispatch(h, Seen(h, x), h.now) else Seen(h, x));
  }

  lemma LookNow(h: Hub, x: string)
    ensures Look(h, x).0.now == h.now
  {
    hide Prune, Trim, Set, Delete, FenceExecutor;
    if x in h.connections && Quiet(h, x) {
      FenceSees(MarkStale(PruneStale(PruneHellos(h)).(ended := h.ended + {h.connections[x].sink}, connections := h.connections - {x}), x), x, x);
    }
  }

  lemma WrittenNow(h: Hub, route: Route)
    ensures Written(h, route).now == h.now
  {
    hide Look, RemoveRoutes, FenceExecutor, Seen;
    var x := route.executorId;
    LookNow(h, x);
    if x in h.connections {
      var looked := Look(h, x).0;
      FenceSees(looked.(ended := looked.ended + {h.connections[x].sink}, connections := looked.connections - {x}), x, x);
    }
    ForgottenSees(Dispatch(h, x).0, x);
  }

  lemma ForgottenSees(h: Hub, x: string)
    ensures forall gone, result :: Seen(RemoveRoutes(h, gone, result), x) == Seen(h, x) && RemoveRoutes(h, gone, result).now == h.now
  {
    hide Kept, Released, Resolve;
  }

  lemma SeesSame(h: Hub, a: Hub, b: Hub, x: string, v: View)
    requires Becomes(h, a, x, v) && Seen(b, x) == Seen(a, x) && b.now == a.now
    ensures Becomes(h, b, x, v)
  {
    hide Seen, Live;
  }

  lemma FinishSees(h: Hub, link: DesktopLink, frame: Frame, lookup: Lookup, lag: nat, x: string)
    requires Inv(h)
    ensures Becomes(h, Finish(h, link, frame, lookup, lag).0, x,
                    if x == frame.executorId && Matched(h, link, frame, lookup)
                    then AfterFinish(h, Seen(h, x), Roomy(h, link.deviceId, frame), lag) else Seen(h, x))
  {
    ConnectRemoval.InvRoutes(h);
    InvRemembers(h);
    hide Inv, Look, Written, ConnectHub.Registered, Finish, Roomy, Becomes, Tables, RoutesInv, Seen, AfterDispatch;
    FinishIs(h, link, frame, lookup, lag);
    LookSees(h, frame.executorId, x);
    SameSees(h, h, x);
    QuietSees(h, frame.executorId);
    if Matched(h, link, frame, lookup) && !Quiet(h, frame.executorId) {
      LookPasses(h, frame.executorId, x);
      var looked := Look(h, frame.executorId).0;
      SameSees(h, looked, x);
      if Roomy(h, link.deviceId, frame) {
        SentSees(h, looked, link, frame, lag, x);
      }
    }
  }

  lemma QuietSees(h: Hub, x: string)
    ensures Quiet(h, x) <==> SilentAt(Seen(h, x), h.now)
  {
  }

  /** Registered on what the look has left, and written. */
  lemma SentSees(h: Hub, looked: Hub, link: DesktopLink, frame: Frame, lag: nat, x: string)
    requires Inv(h) && frame.executorId in h.connections && !Quiet(h, frame.executorId) && looked == Look(h, frame.executorId).0
    requires frame.executorId in looked.connections
    ensures Becomes(h, Written(ConnectHub.Registered(looked, link, frame, lag), NewRoute(looked, link, frame)), x,
                    if x == frame.executorId then AfterFinish(h, Seen(h, x), true, lag) else Seen(h, x))
  {
    hide Inv, Look, Written, ConnectHub.Registered, Becomes, Seen, AfterDispatch, AfterFinish, Remembered, SameButTables, Quiet, Owed, Live;
    InvRemembers(h);
    LookKeeps(h, frame.executorId);
    InvRemembers(looked);
    LookPasses(h, frame.executorId, x);
    LookShrinks(h, frame.executorId);
    RegisteredSees(h, looked, link, frame, lag, x);
    var registered := ConnectHub.Registered(looked, link, frame, lag);
    WrittenSees(registered, NewRoute(looked, link, frame), x);
    WrittenNow(registered, NewRoute(looked, link, frame));
    QuietSees(h, frame.executorId);
    LaterSees(h, registered, Written(registered, NewRoute(looked, link, frame)), lag, x, x == frame.executorId);
  }

  lemma LookShrinks(h: Hub, executorId: string)
    requires Tables(h) && executorId in h.connections && !Quiet(h, executorId)
    ensures |Look(h, executorId).0.stale.keys| <= |h.stale.keys| && |Look(h, executorId).0.hellos.keys| <= |h.hellos.keys|
  {
    PrunedSees(h, executorId);
    hide PruneStale, PruneHellos, MarkStale, FenceExecutor;
  }

  lemma LaterSees(h: Hub, registered: Hub, h': Hub, lag: nat, x: string, own: bool)
    requires registered.now == h.now + lag && Seen(registered, x) == Live(Seen(h, x), h.now + lag)
    requires registered.ended == h.ended && registered.refusing == h.refusing
    requires |registered.stale.keys| <= |h.stale.keys| && |registered.hellos.keys| <= |h.hellos.keys|
    requires Becomes(registered, h', x, if own then AfterDispatch(registered, Seen(registered, x), registered.now) else Seen(registered, x))
    requires own ==> !SilentAt(Seen(h, x), h.now)
    requires h'.now == registered.now
    ensures Becomes(h, h', x, if own then AfterFinish(h, Seen(h, x), true, lag) else Seen(h, x))
  {
    hide Seen;
  }

  // ------------------------------------------------------------ every step

  lemma RelaySees(w: World, e: Event, x: string)
    requires Inv(w.hub) && Enabled(w, e)
    requires e.OpenDesktop? || e.CancelStream? || e.RevokesDesktop? || e.RevokesExecutor? || e.BeginCommand? || e.Produce?
    ensures Becomes(w.hub, Apply(w, e).hub, x, Seen(w.hub, x))
  {
    hide Inv, Apply, Enabled;
    ConnectSilence.RelaySame(w, e);
    SameSees(w.hub, Apply(w, e).hub, x);
  }

  lemma TickSees(w: World, e: Event, x: string)
    requires Inv(w.hub) && Enabled(w, e) && (e.Tick? || e.SetRefusing? || e.Receive? || e.TimerFires?)
    ensures Becomes(w.hub, Apply(w, e).hub, x, Seen(w.hub, x))
  {
    hide Inv, RemoveRoutes, Resolve;
    if e.TimerFires? {
      var fired := w.hub.(timers := w.hub.timers - {e.route});
      ForgottenSees(fired, x);
    }
  }

  lemma ChannelSees(w: World, e: Event, x: string)
    requires Inv(w.hub) && Enabled(w, e)
    requires e.OpensExecutor? || e.ClosesExecutor? || e.RevokesConnection?
    ensures Becomes(w.hub, Apply(w, e).hub, x, Next(w, e, x))
  {
    hide Inv, Becomes, Seen, OpenExecutor, CloseExecutor, RevokeConnection, Remembered, AfterOpening, KeyedByDevice;
    InvRemembers(w.hub);
    match e
    case OpensExecutor(executorId, deviceId, generation, sink, fence) => OpenSees(w.hub, executorId, deviceId, generation, sink, fence, x);
    case ClosesExecutor(executorId, onlyFence) => CloseSees(w.hub, executorId, onlyFence, x);
    case RevokesConnection(executorId) => RevokeSees(w.hub, executorId, x);
  }

  lemma HeardSees(w: World, e: Event, x: string)
    requires Inv(w.hub) && Enabled(w, e) && (e.Touches? || e.Greets? || e.AsksPresence?)
    ensures Becomes(w.hub, Apply(w, e).hub, x, Next(w, e, x))
  {
    hide Inv, Becomes, Seen, TouchExecutor, Hello, Look, Remembered, KeyedByDevice;
    InvRemembers(w.hub);
    match e
    case Touches(executorId, generation) => TouchSees(w.hub, executorId, generation, x);
    case Greets(executorId, generation, correlationId) => HelloSees(w.hub, executorId, generation, correlationId, x);
    case AsksPresence(executorId) => LookSees(w.hub, executorId, x);
  }

  lemma CommandSees(w: World, e: Event, x: string)
    requires Inv(w.hub) && Enabled(w, e) && e.FinishCommand?
    ensures Becomes(w.hub, Apply(w, e).hub, x, Next(w, e, x))
  {
    hide Inv, Becomes, Seen, Finish, AfterFinish, Matched, Roomy, KeyedByDevice;
    FinishSees(w.hub, w.commands[e.task].link, w.commands[e.task].frame, e.lookup, e.lag, x);
  }

  lemma StepSees(w: World, e: Event, x: string)
    requires Inv(w.hub) && Enabled(w, e)
    ensures Becomes(w.hub, Apply(w, e).hub, x, Next(w, e, x))
  {
    hide Inv, Becomes, Seen, Apply, Enabled;
    if e.OpenDesktop? || e.CancelStream? || e.RevokesDesktop? || e.RevokesExecutor? || e.BeginCommand? || e.Produce? {
      RelaySees(w, e, x);
    } else if e.Tick? || e.SetRefusing? || e.Receive? || e.TimerFires? {
      TickSees(w, e, x);
    } else if e.FinishCommand? {
      CommandSees(w, e, x);
    } else if e.OpensExecutor? || e.ClosesExecutor? || e.RevokesConnection? {
      ChannelSees(w, e, x);
    } else {
      HeardSees(w, e, x);
    }
  }

  /** In every run each step makes of each executor's connection, tombstone and hello exactly that, whatever it
      does to those of others. */
  lemma RegistryExactly(now: int, es: seq<Event>, e: Event, x: string)
    requires Follows(Start(now), es) && Enabled(After(Start(now), es), e)
    ensures Inv(After(Start(now), es).hub)
    ensures var w := After(Start(now), es); Becomes(w.hub, Apply(w, e).hub, x, Next(w, e, x))
  {
    hide Inv, Follows, Apply, Enabled, Becomes, Next;
    RunKeeps(Start(now), es);
    hide After, Start;
    StepSees(After(Start(now), es), e, x);
  }

  // ------------------------------------------------------------ which streams the registry ends

  function StreamOf(v: View): set<nat> {
    if v.connection.Some? then {v.connection.value.sink} else {}
  }

  /** The streams that a step of the registry ends: the one that is taken over or revoked, the one whose silence or
      refusal is noticed, and a new one that cannot be greeted. A channel that closes by itself ends nothing. */
  function Hung(w: World, e: Event): set<nat> {
    match e
    case OpensExecutor(x, _, _, sink, _) => StreamOf(Seen(w.hub, x)) + (if Next(w, e, x).connection.None? then {sink} else {})
    case RevokesConnection(x) => StreamOf(Seen(w.hub, x))
    case AsksPresence(x) => if Next(w, e, x).connection.None? then StreamOf(Seen(w.hub, x)) else {}
    case FinishCommand(task, _, _) =>
      if task !in w.commands || Next(w, e, w.commands[task].frame.executorId).connection.Some? then {}
      else StreamOf(Seen(w.hub, w.commands[task].frame.executorId))
    case _ => {}
  }

  lemma PrunedEnded(h: Hub)
    ensures PruneStale(PruneHellos(h)).ended == h.ended && PruneHellos(h).ended == h.ended
  {
    hide Prune;
  }

  lemma LookHangs(h: Hub, x: string)
    ensures Look(h, x).0.ended == h.ended + (if SilentAt(Seen(h, x), h.now) then StreamOf(Seen(h, x)) else {})
  {
    hide Prune, Trim, Set, Delete, Kept, Released, Resolve, ExecutorRoutes;
    PrunedEnded(h);
  }

  lemma DispatchHangs(h: Hub, x: string)
    requires Tables(h)
    ensures Dispatch(h, x).0.ended == h.ended + (if AfterDispatch(h, Seen(h, x), h.now).connection.None? then StreamOf(Seen(h, x)) else {})
  {
    hide Look, Tables, Kept, Released, Resolve, ExecutorRoutes;
    LookHangs(h, x);
    if x in h.connections && !Quiet(h, x) {
      LookPasses(h, x, x);
    } else if x in h.connections {
      LookStale(h, x);
    }
  }

  lemma OpenHangs(h: Hub, executorId: string, deviceId: string, generation: nat, sink: nat, fence: string)
    requires Tables(h)
    ensures var v := AfterOpening(h, Seen(h, executorId), ExecutorLink(fence, executorId, deviceId, generation, sink, h.now));
      OpenExecutor(h, executorId, deviceId, generation, sink, fence).ended ==
        h.ended + StreamOf(Seen(h, executorId)) + (if v.connection.None? then {sink} else {})
  {
    hide PruneStale, PruneHellos, ReplaceConnection, Tables, Delete;
    PrunedSees(h, executorId);
    ReplaceSees(PruneStale(PruneHellos(h)), executorId, executorId);
  }

  lemma ForgottenEnded(h: Hub)
    ensures forall gone, result :: RemoveRoutes(h, gone, result).ended == h.ended
  {
    hide Kept, Released, Resolve;
  }

  lemma SmallHangs(w: World, e: Event)
    requires Inv(w.hub) && Enabled(w, e)
    requires e.Touches? || e.Greets? || e.Tick? || e.SetRefusing? || e.Receive? || e.TimerFires? || e.BeginCommand?
    ensures Apply(w, e).hub.ended == w.hub.ended
  {
    hide Inv, KeyedByDevice, Hello, Fire, Accept, Begin;
    if e.TimerFires? {
      FireEnded(w.hub, e.route);
    } else if e.Greets? {
      HelloEnded(w.hub, e.executorId, e.generation, e.correlationId);
    } else if e.Receive? || e.BeginCommand? {
      AnswerEnded(w.hub);
    }
  }

  lemma FireEnded(h: Hub, id: nat)
    requires id in h.timers
    ensures Fire(h, id).ended == h.ended
  {
    hide RemoveRoutes;
    ForgottenEnded(h.(timers := h.timers - {id}));
  }

  lemma HelloEnded(h: Hub, executorId: string, generation: nat, correlationId: string)
    ensures Hello(h, executorId, generation, correlationId).ended == h.ended
  {
    hide Trim, Set, Delete, Prune;
  }

  lemma AnswerEnded(h: Hub)
    ensures forall executorId, frame :: Accept(h, executorId, frame).0.ended == h.ended
    ensures forall actor, frame, envelope :: Begin(h, actor, frame, envelope).0.ended == h.ended
  {
    hide Resolve, TakeRate;
  }

  lemma ClosedHangs(w: World, e: Event)
    requires Inv(w.hub) && Enabled(w, e) && (e.ClosesExecutor? || e.RevokesConnection?)
    ensures Apply(w, e).hub.ended == w.hub.ended + Hung(w, e)
  {
    hide Inv, KeyedByDevice, Delete, FenceExecutor;
    var (h, x) := (w.hub, e.executorId);
    if x in h.connections {
      var cut := h.(stale := Delete(h.stale, x), hellos := Delete(h.hellos, x), connections := h.connections - {x});
      FenceOnly(cut, x);
      FenceOnly(cut.(ended := h.ended + {h.connections[x].sink}), x);
    }
  }

  lemma WrittenHangs(h: Hub, route: Route)
    requires Tables(h)
    ensures Written(h, route).ended ==
      h.ended + (if AfterDispatch(h, Seen(h, route.executorId), h.now).connection.None? then StreamOf(Seen(h, route.executorId)) else {})
  {
    hide Dispatch, RemoveRoutes, Tables, AfterDispatch, Seen;
    DispatchHangs(h, route.executorId);
    ForgottenEnded(Dispatch(h, route.executorId).0);
  }

  lemma FinishHangs(h: Hub, link: DesktopLink, frame: Frame, lookup: Lookup, lag: nat)
    requires Inv(h)
    ensures var v := Seen(h, frame.executorId);
      Finish(h, link, frame, lookup, lag).0.ended == h.ended + (
        if Matched(h, link, frame, lookup) && AfterFinish(h, v, Roomy(h, link.deviceId, frame), lag).connection.None?
        then StreamOf(v) else {})
  {
    hide Inv, Look, Written, ConnectHub.Registered, Finish, Roomy, Remembered, RoutesInv, Seen, AfterDispatch, SameButTables, Live, Owed,
      AfterFinish, SilentAt, StreamOf, Quiet;
    var x := frame.executorId;
    ConnectRemoval.InvRoutes(h);
    FinishIs(h, link, frame, lookup, lag);
    LookHangs(h, x);
    MatchedHangs(h, x, lag);
    if Matched(h, link, frame, lookup) && !Quiet(h, x) {
      hide Matched;
      InvRemembers(h);
      LookPasses(h, x, x);
      if Roomy(h, link.deviceId, frame) {
        SentHangs(h, Look(h, x).0, link, frame, lag);
      }
    }
  }

  lemma MatchedHangs(h: Hub, x: string, lag: nat)
    ensures Quiet(h, x) <==> SilentAt(Seen(h, x), h.now)
    ensures Quiet(h, x) ==> forall room :: AfterFinish(h, Seen(h, x), room, lag).connection.None?
    ensures x in h.connections && !Quiet(h, x) ==> AfterFinish(h, Seen(h, x), false, lag).connection.Some?
  {
  }

  lemma SentHangs(h: Hub, looked: Hub, link: DesktopLink, frame: Frame, lag: nat)
    requires Inv(h) && frame.executorId in h.connections && !Quiet(h, frame.executorId) && looked == Look(h, frame.executorId).0
    requires frame.executorId in looked.connections
    ensures Written(ConnectHub.Registered(looked, link, frame, lag), NewRoute(looked, link, frame)).ended ==
      h.ended + (if AfterFinish(h, Seen(h, frame.executorId), true, lag).connection.None? then StreamOf(Seen(h, frame.executorId)) else {})
  {
    hide Inv, Look, Written, ConnectHub.Registered, Seen, AfterDispatch, AfterFinish, Remembered, SameButTables, Quiet, Owed, Live, StreamOf;
    var x := frame.executorId;
    InvRemembers(h);
    LookKeeps(h, x);
    InvRemembers(looked);
    LookPasses(h, x, x);
    QuietSees(h, x);
    RegisteredSees(h, looked, link, frame, lag, x);
    var registered := ConnectHub.Registered(looked, link, frame, lag);
    WrittenHangs(registered, NewRoute(looked, link, frame));
    LaterHangs(h, registered, lag, x);
  }

  lemma LaterHangs(h: Hub, registered: Hub, lag: nat, x: string)
    requires registered.now == h.now + lag && Seen(registered, x) == Live(Seen(h, x), h.now + lag)
    requires registered.ended == h.ended && registered.refusing == h.refusing && !SilentAt(Seen(h, x), h.now)
    ensures AfterDispatch(registered, Seen(registered, x), registered.now).connection == AfterFinish(h, Seen(h, x), true, lag).connection
    ensures StreamOf(Seen(registered, x)) == StreamOf(Seen(h, x))
  {
    hide Seen;
  }

  /** In every run a step of the registry ends exactly those streams. */
  lemma StreamsEndExactly(now: int, es: seq<Event>, e: Event)
    requires Follows(Start(now), es) && Enabled(After(Start(now), es), e)
    requires !e.OpenDesktop? && !e.CancelStream? && !e.RevokesDesktop? && !e.RevokesExecutor? && !e.Produce?
    ensures Inv(After(Start(now), es).hub)
    ensures var w := After(Start(now), es); Apply(w, e).hub.ended == w.hub.ended + Hung(w, e)
  {
    hide Inv, Follows, Apply, Enabled, Hung;
    RunKeeps(Start(now), es);
    hide After, Start;
    StepHangs(After(Start(now), es), e);
  }

  lemma StepHangs(w: World, e: Event)
    requires Inv(w.hub) && Enabled(w, e)
    requires !e.OpenDesktop? && !e.CancelStream? && !e.RevokesDesktop? && !e.RevokesExecutor? && !e.Produce?
    ensures Apply(w, e).hub.ended == w.hub.ended + Hung(w, e)
  {
    hide Inv, Apply, Enabled, KeyedByDevice;
    if e.ClosesExecutor? || e.RevokesConnection? {
      hide Hung;
      ClosedHangs(w, e);
    } else if e.OpensExecutor? {
      hide Hung;
      OpenStepHangs(w, e);
    } else if e.AsksPresence? {
      hide Hung;
      AskStepHangs(w, e);
    } else if e.FinishCommand? {
      hide Hung;
      FinishStepHangs(w, e);
    } else {
      SmallHangs(w, e);
    }
  }

  lemma OpenStepHangs(w: World, e: Event)
    requires Inv(w.hub) && Enabled(w, e) && e.OpensExecutor?
    ensures Apply(w, e).hub.ended == w.hub.ended + Hung(w, e)
  {
    hide Inv, KeyedByDevice, Seen, OpenExecutor, AfterOpening, Remembered, StreamOf;
    InvRemembers(w.hub);
    OpenHangs(w.hub, e.executorId, e.deviceId, e.generation, e.sink, e.fence);
  }

  lemma AskStepHangs(w: World, e: Event)
    requires Inv(w.hub) && Enabled(w, e) && e.AsksPresence?
    ensures Apply(w, e).hub.ended == w.hub.ended + Hung(w, e)
  {
    hide Inv, KeyedByDevice, Seen, Look;
    LookHangs(w.hub, e.executorId);
  }

  lemma FinishStepHangs(w: World, e: Event)
    requires Inv(w.hub) && Enabled(w, e) && e.FinishCommand?
    ensures Apply(w, e).hub.ended == w.hub.ended + Hung(w, e)
  {
    hide Inv, KeyedByDevice, Seen, Finish, AfterFinish, Matched, Roomy;
    FinishHangs(w.hub, w.commands[e.task].link, w.commands[e.task].frame, e.lookup, e.lag);
  }
}
