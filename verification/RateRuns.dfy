/**
 The command limit over whole runs of the relay. The entry of a device may be deleted at any time, and each
 deletion lifts the limit by one more window.
 */
module RateRuns {
  import opened Wrappers
  import opened JsMaps
  import opened ConnectHub
  import opened ConnectInvariants
  import opened ConnectKeeps
  import opened ConnectRuns
  import opened RateLimit
  import ConnectHistory
  import ConnectSilence

  // ------------------------------------------------------------ no step but a command writes an entry

  ghost predicate RatesOnlyGo(h: Hub, h': Hub) {
    forall d :: d in h'.rates ==> d in h.rates && h'.rates[d] == h.rates[d]
  }

  /** Every entry stays as it was, and the clock does not go back. */
  ghost predicate Untouched(h: Hub, h': Hub) {
    h'.rates == h.rates && h.now <= h'.now
  }

  lemma OnlyGoOn(a: Hub, b: Hub, c: Hub)
    requires RatesOnlyGo(a, b) && RatesOnlyGo(b, c)
    ensures RatesOnlyGo(a, c)
  {
  }

  lemma SameGo(h: Hub, h': Hub)
    requires h'.rates == h.rates
    ensures RatesOnlyGo(h, h')
  {
  }

  lemma CloseGo(h: Hub, deviceId: string, fence: string)
    ensures RatesOnlyGo(h, CloseLink(h, deviceId, fence))
  {
    hide Kept, Released, DeviceRoutes, Resolve, Delete;
  }

  lemma EndGo(h: Hub, sink: nat)
    ensures RatesOnlyGo(h, EndSink(h, sink))
  {
    hide CloseLink;
    if sink !in h.ended && sink in h.onClose {
      CloseGo(h.(ended := h.ended + {sink}, onClose := h.onClose - {sink}), h.onClose[sink].deviceId, h.onClose[sink].fence);
    }
  }

  lemma RemoveGo(h: Hub, gone: set<Route>, result: Option<Outcome>)
    ensures Untouched(h, RemoveRoutes(h, gone, result))
  {
  }

  lemma {:induction false} EvictGo(h: Hub)
    requires KeyedByDevice(h.desktops)
    ensures RatesOnlyGo(h, Evict(h))
    decreases |h.desktops.keys|
  {
    hide CloseLink, EndSink, RatesOnlyGo;
    SameGo(h, h);
    if |h.desktops.keys| >= MAX_CONNECTIONS {
      var oldest := h.desktops.values[h.desktops.keys[0]];
      var closed := CloseLink(h, oldest.deviceId, oldest.fence);
      CloseGo(h, oldest.deviceId, oldest.fence);
      EndGo(closed, oldest.sink);
      OnlyGoOn(h, closed, EvictOldest(h));
      EvictGo(EvictOldest(h));
      OnlyGoOn(h, EvictOldest(h), Evict(h));
    }
  }

  /** A stream ends, and then nothing but routes and the link itself may go. */
  lemma EndAndDropGo(h: Hub, sink: nat, deviceId: string, fence: Option<string>)
    ensures RatesOnlyGo(h, RemoveDesktopRoutes(DropDesktop(EndSink(h, sink), deviceId), deviceId, fence))
    ensures RatesOnlyGo(h, DropDesktop(RemoveDesktopRoutes(EndSink(h, sink), deviceId, fence), deviceId))
  {
    hide EndSink, RemoveRoutes, Delete;
    EndGo(h, sink);
    var ended := EndSink(h, sink);
    RemoveGo(ended, DeviceRoutes(ended.byCommand, deviceId, fence), Some(Unauthorized));
    RemoveGo(DropDesktop(ended, deviceId), DeviceRoutes(ended.byCommand, deviceId, fence), Some(Unauthorized));
  }

  lemma OpenGo(h: Hub, actor: Authority, sink: nat, fence: string)
    requires KeyedByDevice(h.desktops)
    ensures RatesOnlyGo(h, OpenLink(h, actor, sink, fence))
  {
    hide EndSink, Replace, Evict, KeyedByDevice, Set, Conflicts, RatesOnlyGo;
    ReplaceShrinks(h, actor.deviceId);
    EndGo(h, sink);
    var replaced := if actor.deviceId in h.desktops.values then Replace(h, h.desktops.values[actor.deviceId]) else h;
    if actor.deviceId in h.desktops.values {
      ReplaceGo(h, h.desktops.values[actor.deviceId]);
    } else {
      SameGo(h, h);
    }
    EvictGo(replaced);
    OnlyGoOn(h, replaced, Evict(replaced));
    SameOn(h, EndSink(h, sink), OpenLink(h, actor, sink, fence));
    SameOn(h, Evict(replaced), OpenLink(h, actor, sink, fence));
  }

  lemma SameOn(a: Hub, b: Hub, c: Hub)
    requires RatesOnlyGo(a, b)
    ensures c.rates == b.rates ==> RatesOnlyGo(a, c)
  {
  }

  lemma ReplaceGo(h: Hub, previous: DesktopLink)
    ensures RatesOnlyGo(h, Replace(h, previous))
  {
    hide EndSink, RemoveDesktopRoutes, DropDesktop;
    EndAndDropGo(h, previous.sink, previous.deviceId, Some(previous.fence));
  }

  lemma RevokeDesktopGo(h: Hub, deviceId: string)
    ensures RatesOnlyGo(h, RevokeDesktop(h, deviceId))
  {
    hide EndSink, RemoveRoutes, DropDesktop;
    RemoveGo(h, DeviceRoutes(h.byCommand, deviceId, None), Some(Unauthorized));
    if deviceId in h.desktops.values {
      var link := h.desktops.values[deviceId];
      EndAndDropGo(h, link.sink, deviceId, Some(link.fence));
    }
  }

  lemma RevokeLinkGo(h: Hub, link: DesktopLink)
    ensures RatesOnlyGo(h, RevokeLink(h, link))
  {
    hide EndSink, RemoveRoutes, Delete;
    EndGo(h, link.sink);
    var dropped := DropDesktop(EndSink(h, link.sink), link.deviceId);
    var forgotten := dropped.(rates := dropped.rates - {link.deviceId});
    RemoveGo(forgotten, DeviceRoutes(forgotten.byCommand, link.deviceId, Some(link.fence)), Some(Unauthorized));
  }

  lemma {:induction false} RevokeLinksGo(h: Hub, links: seq<DesktopLink>, executorId: string)
    ensures RatesOnlyGo(h, RevokeLinks(h, links, executorId))
    decreases |links|
  {
    hide RevokeLink, RatesOnlyGo;
    SameGo(h, h);
    if links != [] {
      var next := if VouchedBy(links[0], executorId) then RevokeLink(h, links[0]) else h;
      RevokeLinkGo(h, links[0]);
      RevokeLinksGo(next, links[1..], executorId);
      OnlyGoOn(h, next, RevokeLinks(next, links[1..], executorId));
    }
  }

  lemma RevokeExecutorGo(h: Hub, executorId: string)
    requires forall k :: k in h.desktops.keys ==> k in h.desktops.values
    ensures RatesOnlyGo(h, RevokeExecutor(h, executorId))
  {
    var links := Links(h.desktops);
    hide RevokeLinks, Links, RemoveRoutes;
    RevokeLinksGo(h, links, executorId);
    var revoked := RevokeLinks(h, links, executorId);
    RemoveGo(revoked, ExecutorRoutes(revoked.byCommand, executorId), Some(ExecutorOffline));
  }

  lemma OutputGo(h: Hub, executorId: string, commandId: Option<string>, correlationId: string, terminal: bool)
    ensures RatesOnlyGo(h, Output(h, executorId, commandId, correlationId, terminal).0)
  {
    hide EndSink, RemoveRoutes, RemoveDesktopRoutes, DropDesktop, Target;
    var target := Target(h, commandId, correlationId);
    if target.Some? {
      var route := target.value;
      RemoveGo(h, {route}, None);
      if route.deviceId in h.desktops.values {
        EndAndDropGo(h, h.desktops.values[route.deviceId].sink, route.deviceId, Some(route.desktopFence));
      }
    }
  }

  lemma WatchGo(h: Hub, sink: nat, deviceId: string, fence: string)
    ensures RatesOnlyGo(h, Watch(h, sink, deviceId, fence))
  {
    hide CloseLink;
    CloseGo(h, deviceId, fence);
  }

  lemma RelayGo(w: World, e: Event)
    requires Inv(w.hub) && Enabled(w, e)
    requires e.OpenDesktop? || e.CancelStream? || e.RevokesDesktop? || e.RevokesExecutor? || e.Produce?
    ensures RatesOnlyGo(w.hub, Apply(w, e).hub) && Apply(w, e).hub.now == w.hub.now
  {
    hide Inv, EndSink, OpenLink, Watch, Output, RevokeDesktop, RevokeExecutor, KeyedByDevice, RatesOnlyGo;
    ConnectSilence.RelaySame(w, e);
    InvKeyed(w.hub);
    match e
    case OpenDesktop(actor, sink, fence) =>
      OpenGo(w.hub, actor, sink, fence);
      WatchGo(OpenLink(w.hub, actor, sink, fence), sink, actor.deviceId, fence);
      OnlyGoOn(w.hub, OpenLink(w.hub, actor, sink, fence), Apply(w, e).hub);
    case CancelStream(sink) => EndGo(w.hub, sink);
    case RevokesDesktop(deviceId) => RevokeDesktopGo(w.hub, deviceId);
    case RevokesExecutor(executorId) =>
      ConnectHistory.KeysListed(w.hub.desktops);
      RevokeExecutorGo(w.hub, executorId);
    case Produce(executorId, commandId, correlationId, terminal) => OutputGo(w.hub, executorId, commandId, correlationId, terminal);
  }

  lemma FenceRates(h: Hub, executorId: string)
    ensures Untouched(h, FenceExecutor(h, executorId))
  {
    hide ExecutorRoutes;
    RemoveGo(h, ExecutorRoutes(h.byCommand, executorId), Some(ExecutorOffline));
    hide RemoveRoutes;
  }

  lemma DisconnectRates(h: Hub, executorId: string)
    ensures Untouched(h, Disconnect(h, executorId))
  {
    hide FenceExecutor;
    FenceRates(h.(connections := h.connections - {executorId}), executorId);
  }

  lemma LookRates(h: Hub, executorId: string)
    ensures Untouched(h, Look(h, executorId).0)
  {
    hide FenceExecutor, Prune, Trim, Set, Delete;
    var pruned := PruneStale(PruneHellos(h));
    if executorId in h.connections {
      var cut := pruned.(ended := h.ended + {h.connections[executorId].sink}, connections := h.connections - {executorId});
      FenceRates(MarkStale(cut, executorId), executorId);
    }
  }

  lemma DispatchRates(h: Hub, executorId: string)
    ensures Untouched(h, Dispatch(h, executorId).0)
  {
    hide Look, Disconnect;
    LookRates(h, executorId);
    var looked := Look(h, executorId).0;
    if executorId in h.connections {
      DisconnectRates(looked.(ended := looked.ended + {h.connections[executorId].sink}), executorId);
    }
  }

  lemma FinishRates(h: Hub, link: DesktopLink, frame: Frame, lookup: Lookup, lag: nat)
    ensures Untouched(h, Finish(h, link, frame, lookup, lag).0)
  {
    hide Look, Dispatch, RemoveRoutes, HasRoom;
    LookRates(h, frame.executorId);
    var looked := Look(h, frame.executorId).0;
    if lookup.Usable? && frame.executorId in looked.connections {
      var registered := Registered(looked, link, frame, lag);
      var route := NewRoute(looked, link, frame);
      DispatchRates(registered, frame.executorId);
      RemoveGo(Dispatch(registered, frame.executorId).0, {route}, Dispatch(registered, frame.executorId).1);
    }
    LookNever(h, frame.executorId);
  }

  lemma LookNever(h: Hub, executorId: string)
    ensures Look(h, executorId).1 == Online ==> executorId in Look(h, executorId).0.connections
  {
    hide FenceExecutor, MarkStale, Prune;
  }

  lemma OpenExecutorRates(h: Hub, executorId: string, deviceId: string, generation: nat, sink: nat, fence: string)
    ensures Untouched(h, OpenExecutor(h, executorId, deviceId, generation, sink, fence))
  {
    hide PruneStale, PruneHellos, ReplaceConnection, Delete;
    var pruned := PruneStale(PruneHellos(h));
    PrunedRates(h);
    ReplaceRates(pruned, executorId);
  }

  lemma PrunedRates(h: Hub)
    ensures Untouched(h, PruneStale(PruneHellos(h)))
  {
    hide Prune;
  }

  lemma ReplaceRates(h: Hub, executorId: string)
    ensures Untouched(h, ReplaceConnection(h, executorId))
  {
    hide Disconnect;
    if executorId in h.connections {
      DisconnectRates(h.(ended := h.ended + {h.connections[executorId].sink}), executorId);
    }
  }

  lemma CloseExecutorRates(h: Hub, executorId: string, onlyFence: Option<string>)
    ensures Untouched(h, CloseExecutor(h, executorId, onlyFence)) && Untouched(h, RevokeConnection(h, executorId))
  {
    hide Disconnect, Delete;
    var cleared := h.(stale := Delete(h.stale, executorId), hellos := Delete(h.hellos, executorId));
    DisconnectRates(cleared, executorId);
    if executorId in h.connections {
      DisconnectRates(cleared.(ended := h.ended + {h.connections[executorId].sink}), executorId);
    }
  }

  /** The other steps, commands apart, leave every entry alone. */
  lemma OtherRates(w: World, e: Event)
    requires Inv(w.hub) && Enabled(w, e)
    requires !e.OpenDesktop? && !e.CancelStream? && !e.RevokesDesktop? && !e.RevokesExecutor? && !e.Produce? && !e.BeginCommand?
    ensures Untouched(w.hub, Apply(w, e).hub)
  {
    hide Inv, Finish, OpenExecutor, CloseExecutor, RevokeConnection, TouchExecutor, Hello, Look, Accept, Fire;
    match e
    case FinishCommand(task, lookup, lag) => FinishRates(w.hub, w.commands[task].link, w.commands[task].frame, lookup, lag);
    case OpensExecutor(executorId, deviceId, generation, sink, fence) => OpenExecutorRates(w.hub, executorId, deviceId, generation, sink, fence);
    case ClosesExecutor(executorId, onlyFence) => CloseExecutorRates(w.hub, executorId, onlyFence);
    case RevokesConnection(executorId) => CloseExecutorRates(w.hub, executorId, None);
    case Touches(executorId, generation) => TouchRates(w.hub, executorId, generation);
    case Greets(executorId, generation, correlationId) => HelloRates(w.hub, executorId, generation, correlationId);
    case AsksPresence(executorId) => LookRates(w.hub, executorId);
    case Receive(executorId, accepted) => AcceptRates(w.hub, executorId, accepted);
    case TimerFires(id) => FireRates(w.hub, id);
    case _ =>
  }

  lemma TouchRates(h: Hub, executorId: string, generation: nat)
    ensures Untouched(h, TouchExecutor(h, executorId, generation))
  {
    hide Delete;
  }

  lemma HelloRates(h: Hub, executorId: string, generation: nat, correlationId: string)
    ensures Untouched(h, Hello(h, executorId, generation, correlationId))
  {
    hide Prune, Delete, Set, Trim;
  }

  lemma AcceptRates(h: Hub, executorId: string, frame: Frame)
    ensures Untouched(h, Accept(h, executorId, frame).0)
  {
    hide Resolve;
  }

  lemma FireRates(h: Hub, id: nat)
    requires id in h.timers
    ensures Untouched(h, Fire(h, id))
  {
    hide Kept, Released, Resolve;
  }

  // ------------------------------------------------------------ one step

  /** A command of the device reaches the limiter. */
  predicate Charges(w: World, e: Event, d: string) {
    && e.BeginCommand? && e.actor.deviceId == d && e.envelope.None?
    && d in w.hub.desktops.values && w.hub.desktops.values[d].authority == e.actor && e.frame.deviceId == d
  }

  /** A command of the device gets past the first half of `command`. */
  predicate Admits(w: World, e: Event, d: string) {
    e.BeginCommand? && e.actor.deviceId == d && Begin(w.hub, e.actor, e.frame, e.envelope).1.None?
  }

  lemma AdmitsIsLimiters(w: World, e: Event, d: string)
    ensures Admits(w, e, d) <==> Charges(w, e, d) && TakeRate(RateOf(w.hub, d), w.hub.now).1
    ensures Charges(w, e, d) && !Admits(w, e, d) ==> Begin(w.hub, e.actor, e.frame, e.envelope).1 == Some(Overloaded)
  {
  }

  /** The step deletes the entry of the device. */
  ghost predicate Deletes(w: World, e: Event, d: string)
    requires Inv(w.hub) && Enabled(w, e)
  {
    d in w.hub.rates && d !in Apply(w, e).hub.rates
  }

  /** An entry is what the limiter makes of the command, or as it was, or deleted; and the clock never goes back. */
  lemma StepRate(w: World, e: Event, d: string)
    requires Inv(w.hub) && Enabled(w, e)
    ensures var (r, r') := (RateOf(w.hub, d), RateOf(Apply(w, e).hub, d));
      && (Charges(w, e, d) ==> r' == Some(TakeRate(r, w.hub.now).0))
      && (!Charges(w, e, d) && !Deletes(w, e, d) ==> r' == r)
      && (Deletes(w, e, d) ==> !Charges(w, e, d) && r'.None?)
    ensures w.hub.now <= Apply(w, e).hub.now
  {
    hide Inv;
    if e.BeginCommand? {
      hide TakeRate;
    } else if e.OpenDesktop? || e.CancelStream? || e.RevokesDesktop? || e.RevokesExecutor? || e.Produce? {
      RelayGo(w, e);
      hide Apply, Enabled, TakeRate;
    } else {
      OtherRates(w, e);
      hide Apply, Enabled, TakeRate;
    }
  }

  // ------------------------------------------------------------ the entry and the commands that reached it

  /** The clock readings of the commands of the device that reached the limiter since its entry was last deleted;
      `before` are those from before the run. */
  ghost function Readings(w: World, es: seq<Event>, d: string, before: seq<int>): seq<int>
    requires Inv(w.hub) && Follows(w, es)
    decreases |es|
  {
    if es == [] then before
    else
      StepKeeps(w, es[0]);
      Readings(Apply(w, es[0]), es[1..], d,
               if Charges(w, es[0], d) then before + [w.hub.now] else if Deletes(w, es[0], d) then [] else before)
  }

  lemma {:induction false} FinalAppend(rate: Option<Rate>, times: seq<int>, now: int)
    ensures Final(rate, times + [now]) == Some(TakeRate(Final(rate, times), now).0)
    decreases |times|
  {
    if times == [] {
      assert ([] + [now])[1..] == [];
    } else {
      assert (times + [now])[1..] == times[1..] + [now];
      FinalAppend(Some(TakeRate(rate, times[0]).0), times[1..], now);
    }
  }

  ghost predicate Accounts(h: Hub, d: string, times: seq<int>) {
    RateOf(h, d) == Final(None, times) && Monotone(times) && (times != [] ==> times[|times| - 1] <= h.now)
  }

  lemma StepAccounts(w: World, e: Event, d: string, times: seq<int>)
    requires Inv(w.hub) && Enabled(w, e) && Accounts(w.hub, d, times)
    ensures Accounts(Apply(w, e).hub, d, if Charges(w, e, d) then times + [w.hub.now] else if Deletes(w, e, d) then [] else times)
  {
    hide Inv, Apply, Enabled, Charges, RateOf, TakeRate;
    StepRate(w, e, d);
    FinalAppend(None, times, w.hub.now);
    hide Deletes;
  }

  /** The entry of a device is exactly what the limiter makes of the commands that reached it since the entry was
      last deleted. */
  lemma {:induction false} EntryAccounts(w: World, es: seq<Event>, d: string, before: seq<int>)
    requires Inv(w.hub) && Follows(w, es) && Accounts(w.hub, d, before)
    ensures Accounts(After(w, es).hub, d, Readings(w, es, d, before))
    decreases |es|
  {
    hide Inv, Apply, Enabled, Accounts, Charges;
    if es != [] {
      StepKeeps(w, es[0]);
      StepAccounts(w, es[0], d, before);
      EntryAccounts(Apply(w, es[0]), es[1..], d,
                    if Charges(w, es[0], d) then before + [w.hub.now] else if Deletes(w, es[0], d) then [] else before);
    }
  }

  /** A command that reaches the limiter is refused if and only if the running window of the device's entry is not
      over and was charged 120 times since the entry was last deleted. */
  lemma RefusedExactly(now: int, es: seq<Event>, e: Event, d: string)
    requires Follows(Start(now), es) && Charges(After(Start(now), es), e, d)
    ensures var w := After(Start(now), es);
      Begin(w.hub, e.actor, e.frame, e.envelope).1 == Some(Overloaded) <==>
        && d in w.hub.rates && w.hub.now - w.hub.rates[d].windowStartedMs < 60_000
        && Charged(None, Readings(Start(now), es, d, []), w.hub.rates[d].windowStartedMs) == 120
  {
    var w, times := After(Start(now), es), Readings(Start(now), es, d, []);
    hide Inv, Follows, After, Readings;
    EntryAccounts(Start(now), es, d, []);
    hide Start;
    AdmitsIsLimiters(w, e, d);
    if d in w.hub.rates {
      RefusedExactlyWhenSpent(times, w.hub.now);
    }
    hide Charges;
  }

  // ------------------------------------------------------------ any minute of any run

  /** How many commands of the device are admitted in the half-open interval `lo .. hi`. */
  ghost function AdmittedIn(w: World, es: seq<Event>, d: string, lo: int, hi: int): nat
    requires Inv(w.hub) && Follows(w, es)
    decreases |es|
  {
    if es == [] then 0
    else
      StepKeeps(w, es[0]);
      (if Admits(w, es[0], d) && lo <= w.hub.now < hi then 1 else 0) + AdmittedIn(Apply(w, es[0]), es[1..], d, lo, hi)
  }

  /** How often its entry is deleted in the interval. */
  ghost function DeletedIn(w: World, es: seq<Event>, d: string, lo: int, hi: int): nat
    requires Inv(w.hub) && Follows(w, es)
    decreases |es|
  {
    if es == [] then 0
    else
      StepKeeps(w, es[0]);
      (if Deletes(w, es[0], d) && lo <= w.hub.now < hi then 1 else 0) + DeletedIn(Apply(w, es[0]), es[1..], d, lo, hi)
  }

  ghost predicate Sane(h: Hub, d: string) {
    d in h.rates ==> 1 <= h.rates[d].count <= MAX_COMMANDS_PER_WINDOW && h.rates[d].windowStartedMs <= h.now
  }

  lemma StepSane(w: World, e: Event, d: string)
    requires Inv(w.hub) && Enabled(w, e) && Sane(w.hub, d)
    ensures Sane(Apply(w, e).hub, d)
  {
    hide Inv, Apply, Enabled, Charges, Deletes;
    StepRate(w, e, d);
  }

  lemma {:induction false} NothingLater(w: World, es: seq<Event>, d: string, lo: int, hi: int)
    requires Inv(w.hub) && Follows(w, es) && hi <= w.hub.now
    ensures AdmittedIn(w, es, d, lo, hi) == 0
    decreases |es|
  {
    hide Inv, Apply, Enabled, Charges, Deletes, Admits;
    if es != [] {
      StepKeeps(w, es[0]);
      StepRate(w, es[0], d);
      NothingLater(Apply(w, es[0]), es[1..], d, lo, hi);
    }
  }

  /** What one step admits, an entry's allowance pays, or a deletion. */
  lemma StepAllowance(w: World, e: Event, d: string, lo: int, hi: int)
    requires Inv(w.hub) && Enabled(w, e) && Sane(w.hub, d) && lo <= w.hub.now < hi && hi - lo <= RATE_WINDOW_MS
    ensures (if Admits(w, e, d) then 1 else 0) + Allowance(RateOf(Apply(w, e).hub, d), lo)
      <= Allowance(RateOf(w.hub, d), lo) + if Deletes(w, e, d) then MAX_COMMANDS_PER_WINDOW else 0
  {
    hide Inv, Apply, Enabled;
    StepRate(w, e, d);
    AdmitsIsLimiters(w, e, d);
    hide Deletes, Charges, Admits;
  }

  lemma {:induction false} RunAllowance(w: World, es: seq<Event>, d: string, lo: int, hi: int)
    requires Inv(w.hub) && Follows(w, es) && Sane(w.hub, d) && lo <= w.hub.now && hi - lo <= RATE_WINDOW_MS
    ensures AdmittedIn(w, es, d, lo, hi) <= Allowance(RateOf(w.hub, d), lo) + MAX_COMMANDS_PER_WINDOW * DeletedIn(w, es, d, lo, hi)
    decreases |es|
  {
    hide Inv, Apply, Enabled, Charges, Deletes, Admits;
    if es != [] {
      StepKeeps(w, es[0]);
      StepRate(w, es[0], d);
      StepSane(w, es[0], d);
      if w.hub.now < hi {
        StepAllowance(w, es[0], d, lo, hi);
        RunAllowance(Apply(w, es[0]), es[1..], d, lo, hi);
      } else {
        NothingLater(w, es, d, lo, hi);
      }
    }
  }

  lemma {:induction false} RunWithin(w: World, es: seq<Event>, d: string, lo: int)
    requires Inv(w.hub) && Follows(w, es) && Sane(w.hub, d)
    ensures AdmittedIn(w, es, d, lo, lo + RATE_WINDOW_MS) <= 239 + 120 * DeletedIn(w, es, d, lo, lo + RATE_WINDOW_MS)
    decreases |es|
  {
    hide Inv, Apply, Enabled, Charges, Deletes, Admits;
    if lo <= w.hub.now {
      RunAllowance(w, es, d, lo, lo + RATE_WINDOW_MS);
    } else if es != [] {
      StepKeeps(w, es[0]);
      StepSane(w, es[0], d);
      RunWithin(Apply(w, es[0]), es[1..], d, lo);
    }
  }

  /** In every run and every half-open interval of a minute, at most 239 commands of a device are admitted, and
      120 more for each time its entry is deleted in that minute. */
  lemma AnyMinuteOfAnyRun(now: int, es: seq<Event>, d: string, lo: int)
    requires Follows(Start(now), es)
    ensures AdmittedIn(Start(now), es, d, lo, lo + 60_000) <= 239 + 120 * DeletedIn(Start(now), es, d, lo, lo + 60_000)
  {
    hide Inv, Follows;
    RunWithin(Start(now), es, d, lo);
  }
}
