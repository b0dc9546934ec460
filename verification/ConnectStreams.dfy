/**
 Which steps take a client's link away, and its command limit with it, when every client and every executor has a
 stream of its own: the close callback of a link's stream is the link's, and a device has a limit only while it
 has a link.
 */
module ConnectStreams {
  import opened Wrappers
  import opened JsMaps
  import opened ConnectHub
  import opened ConnectInvariants
  import opened ConnectKeeps
  import opened ConnectRuns
  import opened ConnectWiring
  import RateRuns

  // ------------------------------------------------------------ one step

  /** The step ends the link of the device: its own authority takes over, or it is the oldest of 256 and another
      device opens; its stream is cancelled; the device is revoked, or the executor that vouches for it; or its
      stream does not take a frame for one of its routes. */
  predicate EndsLink(h: Hub, e: Event, d: string) {
    && d in h.desktops.values
    && match e
       case OpenDesktop(actor, _, _) => !Refused(h, actor) && d in Displaced(h, actor)
       case CancelStream(sink) => h.desktops.values[d].sink == sink
       case RevokesDesktop(deviceId) => d == deviceId
       case RevokesExecutor(executorId) => VouchedBy(h.desktops.values[d], executorId)
       case Produce(executorId, commandId, correlationId, _) => d in FailedFor(h, executorId, commandId, correlationId)
       case _ => false
  }

  /** The link of the device is registered, and still is. */
  predicate KeepsLink(h: Hub, h': Hub, d: string) {
    d in h.desktops.values && d in h'.desktops.values && h'.desktops.values[d] == h.desktops.values[d]
  }

  /** What happens to a link happens to the limit: both are kept or both are gone. */
  ghost predicate Together(h: Hub, h': Hub, ends: set<string>) {
    && (forall d :: d in h.desktops.values ==> (KeepsLink(h, h', d) <==> d !in ends))
    && (forall d :: d in h.rates ==> (d in h'.rates <==> d !in ends))
  }

  lemma LostTogether(h: Hub, h': Hub, gone: set<string>)
    requires Wired(h) && Lost(h, h', gone)
    ensures Wired(h') && Together(h, h', gone)
  {
    LostWired(h, h', gone);
    hide Apart, Wired;
  }

  lemma OpenTogether(h: Hub, actor: Authority, sink: nat, fence: string)
    requires Inv(h) && Wired(h) && !Refused(h, actor) && fence !in h.fences
    requires sink !in h.onClose && forall x :: x in h.connections ==> h.connections[x].sink != sink
    ensures KeyedByDevice(h.desktops)
    ensures var h' := Watch(OpenLink(h, actor, sink, fence), sink, actor.deviceId, fence);
      Wired(h') && Together(h, h', Displaced(h, actor))
  {
    hide Inv, Wired, KeyedByDevice, Watch, OpenLink, Opens;
    InvKeyed(h);
    InvPlaces(h);
    OpenChanges(h, actor, sink, fence);
    var h' := Watch(OpenLink(h, actor, sink, fence), sink, actor.deviceId, fence);
    WiredFacts(h);
    OpensTogether(h, h', actor, sink, fence);
  }

  lemma WiredFacts(h: Hub)
    requires Wired(h)
    ensures forall d :: d in h.rates ==> d in h.desktops.values
    ensures forall d :: d in h.desktops.values ==> h.desktops.values[d].fence in h.fences
  {
  }

  lemma OpensTogether(h: Hub, h': Hub, actor: Authority, sink: nat, fence: string)
    requires Opens(h, h', actor, sink, fence) && fence !in h.fences
    requires forall d :: d in h.rates ==> d in h.desktops.values
    requires forall d :: d in h.desktops.values ==> h.desktops.values[d].fence in h.fences
    ensures Together(h, h', Displaced(h, actor))
  {
    forall d | d in h.desktops.values ensures KeepsLink(h, h', d) <==> d !in Displaced(h, actor) {
      if d != actor.deviceId {
        assert d in h'.desktops.values <==> d in h'.desktops.values - {actor.deviceId};
        assert d in h.desktops.values - Displaced(h, actor) - {actor.deviceId} <==> d !in Displaced(h, actor);
      }
    }
  }

  lemma InvPlaces(h: Hub)
    requires Inv(h)
    ensures |h.desktops.keys| <= MAX_CONNECTIONS && Ordered(h.desktops)
  {
  }

  function EndedBy(h: Hub, e: Event): set<string> {
    set d | d in h.desktops.values && EndsLink(h, e, d)
  }

  lemma TogetherBy(h: Hub, h': Hub, e: Event, gone: set<string>)
    requires Wired(h) && Together(h, h', gone) && forall d :: d in h.desktops.values ==> (d in gone <==> EndsLink(h, e, d))
    ensures Together(h, h', EndedBy(h, e))
  {
    hide EndsLink, Tied, Apart;
  }

  lemma OpenDesktopEnds(w: World, e: Event)
    requires Inv(w.hub) && Wired(w.hub) && Enabled(w, e) && OwnStream(w.hub, e) && e.OpenDesktop?
    ensures Wired(Apply(w, e).hub) && Together(w.hub, Apply(w, e).hub, EndedBy(w.hub, e))
  {
    InvKeyed(w.hub);
    hide Inv, Wired, KeyedByDevice, OpenLink, Watch, Together, Lost;
    if Refused(w.hub, e.actor) {
      RefusedLoses(w.hub, e.actor, e.sink, e.fence);
      LostTogether(w.hub, Apply(w, e).hub, {});
      TogetherBy(w.hub, Apply(w, e).hub, e, {});
    } else {
      OpenTogether(w.hub, e.actor, e.sink, e.fence);
      TogetherBy(w.hub, Apply(w, e).hub, e, Displaced(w.hub, e.actor));
    }
  }

  lemma OwnersExact(h: Hub, sink: nat)
    requires Wired(h)
    ensures forall d :: d in h.desktops.values ==> (d in Owners(h, sink) <==> h.desktops.values[d].sink == sink)
  {
  }

  /** Losing exactly the links that the step is to end. */
  lemma EndsBy(w: World, e: Event, gone: set<string>)
    requires Inv(w.hub) && Wired(w.hub) && Enabled(w, e) && Lost(w.hub, Apply(w, e).hub, gone)
    requires forall d :: d in w.hub.desktops.values ==> (d in gone <==> EndsLink(w.hub, e, d))
    ensures Wired(Apply(w, e).hub) && Together(w.hub, Apply(w, e).hub, EndedBy(w.hub, e))
  {
    hide Inv, Wired, Lost, Together, Apply, Enabled, EndsLink, EndedBy;
    LostTogether(w.hub, Apply(w, e).hub, gone);
    TogetherBy(w.hub, Apply(w, e).hub, e, gone);
  }

  lemma CancelEnds(w: World, e: Event)
    requires Inv(w.hub) && Wired(w.hub) && Enabled(w, e) && e.CancelStream?
    ensures Wired(Apply(w, e).hub) && Together(w.hub, Apply(w, e).hub, EndedBy(w.hub, e))
  {
    hide Inv, Wired, Together, Lost, EndSink, Owners, EndedBy;
    EndLoses(w.hub, e.sink);
    OwnersExact(w.hub, e.sink);
    EndsBy(w, e, Owners(w.hub, e.sink));
  }

  lemma RevokeEnds(w: World, e: Event)
    requires Inv(w.hub) && Wired(w.hub) && Enabled(w, e) && (e.RevokesDesktop? || e.RevokesExecutor?)
    ensures Wired(Apply(w, e).hub) && Together(w.hub, Apply(w, e).hub, EndedBy(w.hub, e))
  {
    hide Inv, Wired, Together, Lost, Ordered, RevokeDesktop, RevokeExecutor, Vouched, EndedBy, KeyedByDevice;
    InvKeyed(w.hub);
    InvPlaces(w.hub);
    if e.RevokesDesktop? {
      RevokeDesktopLoses(w.hub, e.deviceId);
      EndsBy(w, e, {e.deviceId});
    } else {
      RevokedExactly(w.hub, e.executorId);
      EndsBy(w, e, EndedVouched(w.hub, e.executorId));
    }
  }

  ghost function EndedVouched(h: Hub, executorId: string): set<string>
    requires KeyedByDevice(h.desktops)
  {
    Vouched(Links(h.desktops), executorId)
  }

  lemma RevokedExactly(h: Hub, executorId: string)
    requires Wired(h) && KeyedByDevice(h.desktops)
    ensures Lost(h, RevokeExecutor(h, executorId), EndedVouched(h, executorId))
    ensures forall d :: d in h.desktops.values ==> (d in EndedVouched(h, executorId) <==> VouchedBy(h.desktops.values[d], executorId))
  {
    RevokeExecutorLoses(h, executorId);
    forall d | d in h.desktops.values ensures d in EndedVouched(h, executorId) <==> VouchedBy(h.desktops.values[d], executorId) {
      VouchedLinks(h, executorId, d);
    }
    hide Wired, Lost, RevokeExecutor, Links, Vouched;
  }

  lemma OutputEnds(w: World, e: Event)
    requires Inv(w.hub) && Wired(w.hub) && Enabled(w, e) && e.Produce?
    ensures Wired(Apply(w, e).hub) && Together(w.hub, Apply(w, e).hub, EndedBy(w.hub, e))
  {
    hide Inv, Wired, Together, Lost, Ordered, Output, FailedFor, EndedBy;
    InvPlaces(w.hub);
    OutputLoses(w.hub, e.executorId, e.commandId, e.correlationId, e.terminal);
    EndsBy(w, e, FailedFor(w.hub, e.executorId, e.commandId, e.correlationId));
  }

  lemma BeginEnds(w: World, e: Event)
    requires Inv(w.hub) && Wired(w.hub) && Enabled(w, e) && e.BeginCommand?
    ensures Wired(Apply(w, e).hub) && Together(w.hub, Apply(w, e).hub, {})
  {
    hide Inv, Wired, Begin;
    BeginWired(w.hub, e.actor, e.frame, e.envelope);
  }

  lemma LinksTogether(h: Hub, h': Hub)
    requires Wired(h) && SameLinks(h, h')
    ensures Wired(h') && Together(h, h', {})
  {
    hide Wired, Lost, SameLinks, Together;
    SameLinksLost(h, h');
    LostTogether(h, h', {});
  }

  lemma RegistryLinks(w: World, e: Event)
    requires Inv(w.hub) && Apart(w.hub) && Enabled(w, e) && OwnStream(w.hub, e)
    requires e.OpensExecutor? || e.ClosesExecutor? || e.RevokesConnection? || e.AsksPresence?
    ensures SameLinks(w.hub, Apply(w, e).hub)
  {
    hide Inv, SameLinks, Apart, OpenExecutor, CloseExecutor, RevokeConnection, Look;
    match e
    case OpensExecutor(executorId, deviceId, generation, sink, fence) => OpenExecutorLinks(w.hub, executorId, deviceId, generation, sink, fence);
    case ClosesExecutor(executorId, onlyFence) => CloseExecutorLinks(w.hub, executorId, onlyFence);
    case RevokesConnection(executorId) => CloseExecutorLinks(w.hub, executorId, None);
    case AsksPresence(executorId) => LookLinks(w.hub, executorId);
  }

  lemma FinishStepLinks(w: World, e: Event)
    requires Inv(w.hub) && Apart(w.hub) && Enabled(w, e) && e.FinishCommand?
    ensures SameLinks(w.hub, Apply(w, e).hub)
  {
    hide Inv, SameLinks, Apart, Finish;
    FinishLinks(w.hub, w.commands[e.task].link, w.commands[e.task].frame, e.lookup, e.lag);
  }

  lemma WiredApart(h: Hub)
    requires Wired(h)
    ensures Apart(h)
  {
  }

  lemma OtherEnds(w: World, e: Event)
    requires Inv(w.hub) && Wired(w.hub) && Enabled(w, e) && OwnStream(w.hub, e)
    requires !e.OpenDesktop? && !e.CancelStream? && !e.RevokesDesktop? && !e.RevokesExecutor? && !e.Produce?
    ensures Wired(Apply(w, e).hub) && Together(w.hub, Apply(w, e).hub, {})
  {
    hide Inv, Wired, Together, SameLinks, Apart, Apply, Enabled, OwnStream;
    WiredApart(w.hub);
    if e.BeginCommand? {
      BeginEnds(w, e);
    } else {
      if e.FinishCommand? {
        FinishStepLinks(w, e);
      } else if e.OpensExecutor? || e.ClosesExecutor? || e.RevokesConnection? || e.AsksPresence? {
        RegistryLinks(w, e);
      } else {
        SmallLinks(w, e);
      }
      LinksTogether(w.hub, Apply(w, e).hub);
    }
  }

  /** A step that gives streams of their own ends exactly the links that `EndsLink` names, and with each its limit. */
  lemma StepEnds(w: World, e: Event)
    requires Inv(w.hub) && Wired(w.hub) && Enabled(w, e) && OwnStream(w.hub, e)
    ensures Wired(Apply(w, e).hub) && Together(w.hub, Apply(w, e).hub, EndedBy(w.hub, e))
  {
    hide Inv, Wired, Together, Apply, Enabled, OwnStream;
    if e.OpenDesktop? {
      OpenDesktopEnds(w, e);
    } else if e.CancelStream? || e.RevokesDesktop? || e.RevokesExecutor? || e.Produce? {
      hide EndedBy;
      if e.CancelStream? {
        CancelEnds(w, e);
      } else if e.Produce? {
        OutputEnds(w, e);
      } else {
        RevokeEnds(w, e);
      }
    } else {
      OtherEnds(w, e);
      assert EndedBy(w.hub, e) == {};
    }
  }

  // ------------------------------------------------------------ whole runs

  ghost predicate OwnStreams(w: World, es: seq<Event>)
    requires Inv(w.hub) && Follows(w, es)
    decreases |es|
  {
    es == [] || (OwnStream(w.hub, es[0]) && (StepKeeps(w, es[0]); OwnStreams(Apply(w, es[0]), es[1..])))
  }

  lemma {:induction false} RunWired(w: World, es: seq<Event>)
    requires Inv(w.hub) && Follows(w, es) && OwnStreams(w, es) && Wired(w.hub)
    ensures Wired(After(w, es).hub)
    decreases |es|
  {
    hide Inv, Apply, Enabled, Wired, OwnStream;
    if es != [] {
      StepKeeps(w, es[0]);
      StepEnds(w, es[0]);
      RunWired(Apply(w, es[0]), es[1..]);
    }
  }

  lemma StartWired(now: int)
    ensures Wired(Start(now).hub)
  {
  }

  /** With streams of their own, a device has a limit only while it has a link, and a step deletes the limit exactly
      when it ends the link. */
  lemma LimitEndsWithLink(now: int, es: seq<Event>, e: Event, d: string)
    requires Follows(Start(now), es) && OwnStreams(Start(now), es)
    requires Enabled(After(Start(now), es), e) && OwnStream(After(Start(now), es).hub, e)
    requires d in After(Start(now), es).hub.rates
    ensures Inv(After(Start(now), es).hub)
    ensures var w := After(Start(now), es);
      && d in w.hub.desktops.values
      && (RateRuns.Deletes(w, e, d) <==> EndsLink(w.hub, e, d))
      && (KeepsLink(w.hub, Apply(w, e).hub, d) <==> !EndsLink(w.hub, e, d))
  {
    hide Inv, Follows, Apply, Enabled, OwnStream, OwnStreams, EndsLink, Tied, Apart;
    RunKeeps(Start(now), es);
    StartWired(now);
    RunWired(Start(now), es);
    hide After, Start;
    StepEnds(After(Start(now), es), e);
  }
}
