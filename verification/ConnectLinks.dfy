/** When a client's link ends, whose opening is refused, and what a command is answered before it looks anything up. */
module ConnectLinks {
  import opened Wrappers
  import opened JsMaps
  import opened ConnectHub
  import opened ConnectInvariants
  import opened ConnectRuns
  import opened ConnectWiring
  import opened ConnectStreams
  import ConnectFates
  import opened ConnectKeeps
  import RateRuns

  /** Whether the two are of the same kind, and of the same executor if they are an executor's. */
  predicate SameHolder(a: Authority, b: Authority) {
    match (a, b)
    case (DesktopAuthority(_, _), DesktopAuthority(_, _)) => true
    case (ExecutorAuthority(_, _, x), ExecutorAuthority(_, _, y)) => x == y
    case _ => false
  }

  /** A link ends exactly if its own holder opens again, or it is the oldest of 256 and a device without a link
      opens; if its stream is cancelled; if its device is revoked, or the executor that vouches for it; or if a frame
      for one of its routes finds its stream ended or refusing. */
  lemma LinkEndsExactly(h: Hub, e: Event, d: string)
    requires Inv(h) && d in h.desktops.values
    ensures EndsLink(h, e, d) <==> match e
      case OpenDesktop(actor, _, _) =>
        if actor.deviceId in h.desktops.values then d == actor.deviceId && SameHolder(h.desktops.values[d].authority, actor)
        else |h.desktops.keys| >= 256 && d == h.desktops.keys[0]
      case CancelStream(sink) => h.desktops.values[d].sink == sink
      case RevokesDesktop(deviceId) => deviceId == d
      case RevokesExecutor(executorId) =>
        h.desktops.values[d].authority.ExecutorAuthority? && h.desktops.values[d].authority.executorId == executorId
      case Produce(executorId, commandId, correlationId, _) =>
        && h.desktops.values[d].sink in h.ended + h.refusing
        && exists r :: ConnectFates.Listed(h, r) && r.executorId == executorId && r.deviceId == d
             && (if commandId.Some? then commandId == Some(r.commandId) else correlationId == r.correlationId)
      case _ => false
  {
    hide Linked, Connected, Remembered, Answered, Numbered, Capped;
    if e.Produce? && Finds(h, e.executorId, e.commandId, e.correlationId) {
      assert ConnectFates.Listed(h, Target(h, e.commandId, e.correlationId).value);
    }
  }

  /** An opening under another's credential only ends the newcomer's own stream. */
  lemma RefusedExactly(h: Hub, actor: Authority, sink: nat, fence: string)
    requires Wired(h) && KeyedByDevice(h.desktops) && sink !in h.onClose && fence !in h.fences
    requires actor.deviceId in h.desktops.values && !SameHolder(h.desktops.values[actor.deviceId].authority, actor)
    ensures Watch(OpenLink(h, actor, sink, fence), sink, actor.deviceId, fence) == h.(ended := h.ended + {sink}, fences := h.fences + {fence})
  {
    hide Evict, Replace, Apart, Tied;
    assert h.onClose - {sink} == h.onClose;
    assert sink in h.ended ==> h.ended + {sink} == h.ended;
  }

  /** What a command is answered at once, exactly, and what it costs. A command that is let on holds the link that
      was registered. */
  lemma BeginExactly(w: World, task: nat, actor: Authority, frame: Frame, envelope: Option<Outcome>)
    requires task !in w.commands
    ensures var (h, d, w') := (w.hub, actor.deviceId, Begun(w, task, actor, frame, envelope));
      var own := d in h.desktops.values && h.desktops.values[d].authority == actor && frame.deviceId == d;
      var spent := d in h.rates && h.now < h.rates[d].windowStartedMs + 60_000 && h.rates[d].count >= 120;
      && Begin(h, actor, frame, envelope).1 == (
           if envelope.Some? then envelope else if !own then Some(Unauthorized) else if spent then Some(Overloaded) else None)
      && (if envelope.None? && own && !spent then
            && w'.commands == w.commands[task := Waiting(h.desktops.values[d], frame)]
            && w'.hub == h.(rates := h.rates[d :=
                 if d in h.rates && h.now < h.rates[d].windowStartedMs + 60_000
                 then Rate(h.rates[d].windowStartedMs, h.rates[d].count + 1) else Rate(h.now, 1)])
          else w' == w)
  {
    assert actor.deviceId in w.hub.rates ==> w.hub.rates[actor.deviceId := w.hub.rates[actor.deviceId]] == w.hub.rates;
  }

  // ------------------------------------------------------------ revocation, whatever the streams do

  /** The device has neither a link nor a limit. */
  predicate Forgotten(h: Hub, d: string) {
    d !in h.desktops.values && d !in h.rates
  }

  /** A revoked device has no link, no limit and no route left, even if its stream had no callback. */
  lemma RevokedDeviceForgotten(h: Hub, d: string)
    requires Inv(h)
    ensures var h' := RevokeDesktop(h, d); Forgotten(h', d) && forall r :: ConnectFates.Listed(h', r) ==> r.deviceId != d
  {
    hide Inv, EndSink, RemoveRoutes, DeviceRoutes, Without;
    RevokeDesktopKeeps(h, d);
    RoutesHaveLinks(RevokeDesktop(h, d));
    if d in h.desktops.values {
      var dropped := DropDesktop(EndSink(h, h.desktops.values[d].sink), d);
      RemoveSame(dropped, DeviceRoutes(dropped.byCommand, d, Some(h.desktops.values[d].fence)), Some(Unauthorized));
    } else {
      RemoveSame(h, DeviceRoutes(h.byCommand, d, None), Some(Unauthorized));
    }
  }

  lemma RoutesHaveLinks(h: Hub)
    requires Inv(h)
    ensures forall r :: ConnectFates.Listed(h, r) ==> r.deviceId in h.desktops.values
  {
    hide Indexed, Answered, Numbered, Capped, Connected, Remembered;
  }

  lemma StaysForgotten(h: Hub, h': Hub, d: string)
    requires Forgotten(h, d) && Shrinks(h, h') && RateRuns.RatesOnlyGo(h, h')
    ensures Forgotten(h', d)
  {
  }

  lemma LinkForgotten(h: Hub, link: DesktopLink)
    ensures Forgotten(RevokeLink(h, link), link.deviceId)
  {
    hide EndSink, RemoveRoutes, DeviceRoutes, Without;
    var dropped := DropDesktop(EndSink(h, link.sink), link.deviceId);
    var cut := dropped.(rates := dropped.rates - {link.deviceId});
    RemoveSame(cut, DeviceRoutes(cut.byCommand, link.deviceId, Some(link.fence)), Some(Unauthorized));
  }

  lemma ShrinksOn(a: Hub, b: Hub, c: Hub)
    requires Shrinks(a, b) && Shrinks(b, c)
    ensures Shrinks(a, c)
  {
  }

  lemma {:induction false} VouchedForgotten(h: Hub, links: seq<DesktopLink>, executorId: string)
    requires Inv(h) && forall i :: 0 <= i < |links| ==> LinkOrNone(h, links[i])
    ensures var h' := RevokeLinks(h, links, executorId);
      Shrinks(h, h') && forall i :: 0 <= i < |links| && VouchedBy(links[i], executorId) ==> Forgotten(h', links[i].deviceId)
    decreases |links|
  {
    hide Inv, RevokeLink, Shrinks, Forgotten, LinkOrNone, Owed, RateRuns.RatesOnlyGo;
    SelfShrinks(h);
    if links != [] {
      var next := if VouchedBy(links[0], executorId) then RevokeLink(h, links[0]) else h;
      var h' := RevokeLinks(next, links[1..], executorId);
      RevokeLinkKeeps(h, links[0]);
      LinkForgotten(h, links[0]);
      StillLinkOrNone(h, next, links);
      VouchedForgotten(next, links[1..], executorId);
      ShrinksOn(h, next, h');
      RateRuns.RevokeLinksGo(next, links[1..], executorId);
      if VouchedBy(links[0], executorId) {
        StaysForgotten(next, h', links[0].deviceId);
      }
      forall i | 0 <= i < |links| && VouchedBy(links[i], executorId) ensures Forgotten(h', links[i].deviceId) {
        if i > 0 {
          assert links[1..][i - 1] == links[i];
        }
      }
    }
  }

  lemma SelfShrinks(h: Hub)
    ensures Shrinks(h, h)
  {
  }

  lemma StillLinkOrNone(h: Hub, h': Hub, links: seq<DesktopLink>)
    requires Shrinks(h, h') && forall i :: 0 <= i < |links| ==> LinkOrNone(h, links[i])
    ensures forall i :: 0 <= i < |links| ==> LinkOrNone(h', links[i])
  {
  }

  /** Of a revoked executor no link that it vouched for is left, with no limit of its device, and no route. */
  lemma RevokedExecutorForgotten(h: Hub, executorId: string)
    requires Inv(h) && KeyedByDevice(h.desktops)
    ensures var h' := RevokeExecutor(h, executorId);
      && (forall d :: d in h.desktops.values ==>
            h.desktops.values[d].authority.ExecutorAuthority? && h.desktops.values[d].authority.executorId == executorId ==>
              Forgotten(h', d))
      && (forall d :: d in h'.desktops.values ==> d in h.desktops.values && h'.desktops.values[d] == h.desktops.values[d])
      && (forall r :: ConnectFates.Listed(h', r) ==> r.executorId != executorId)
  {
    var links := Links(h.desktops);
    LinksRegistered(h);
    hide Inv, RevokeLinks, Links, RemoveRoutes, ExecutorRoutes, KeyedByDevice;
    VouchedForgotten(h, links, executorId);
    var revoked := RevokeLinks(h, links, executorId);
    RevokeLinksKeeps(h, links, executorId);
    RemoveSame(revoked, ExecutorRoutes(revoked.byCommand, executorId), Some(ExecutorOffline));
    FencedRoutes(revoked, executorId);
    forall d | d in h.desktops.values && VouchedBy(h.desktops.values[d], executorId) ensures Forgotten(revoked, d) {
      ListedLink(h, d);
    }
  }

  lemma ListedLink(h: Hub, d: string)
    requires KeyedByDevice(h.desktops) && d in h.desktops.values
    ensures exists i :: 0 <= i < |Links(h.desktops)| && Links(h.desktops)[i] == h.desktops.values[d] && Links(h.desktops)[i].deviceId == d
  {
    var i :| 0 <= i < |h.desktops.keys| && h.desktops.keys[i] == d;
    assert Links(h.desktops)[i] == h.desktops.values[d];
  }

  lemma FencedRoutes(h: Hub, executorId: string)
    ensures forall r :: ConnectFates.Listed(FenceExecutor(h, executorId), r) ==> r.executorId != executorId
  {
    hide Released, Resolve;
  }
}
