/**
 What the coordinator does with each frame and each dispatch: who is refused and why, when a route counts as
 accepted, which channel presence belongs to, and how long a route may live.
 */
module CoordinatorAnswers {
  import opened Wrappers
  import opened JsMaps
  import opened CoordinatorRoutes
  import opened CoordinatorRuns
  import opened CoordinatorTheorems

  // ------------------------------------------------------------ acceptance

  /** A route counts as accepted exactly from the acceptance that its own channel sent for it while it was live:
      from then on its accept timer is disarmed, and it lives on. */
  lemma StepAcceptsExactly(s: Coordinator, e: Event, id: nat)
    requires Inv(s) && Enabled(s, e) && id in s.objects
    ensures var s' := Apply(s, e);
      && id in s'.objects
      && (s'.objects[id].accepted <==>
            s.objects[id].accepted || (IsLive(s, id) && e == Accepts(s.objects[id].fence, s.objects[id].operationId)))
      && (IsLive(s, id) && e == Accepts(s.objects[id].fence, s.objects[id].operationId) ==>
            IsLive(s', id) && id !in s'.acceptTimers && id in s'.resultTimers)
  {
    if e.Accepts? {
      AcceptedFlag(s, e.fence, e.operationId, id);
      hide Inv, OnAccepted, IsLive;
    } else {
      hide Inv, Apply, Enabled, IsLive;
      OthersKeepFlags(s, e, id);
    }
  }

  lemma AcceptedFlag(s: Coordinator, fence: string, operationId: string, id: nat)
    requires Inv(s) && id in s.objects
    ensures var s' := OnAccepted(s, fence, operationId);
      && id in s'.objects
      && (s'.objects[id].accepted <==>
            s.objects[id].accepted || (IsLive(s, id) && fence == s.objects[id].fence && operationId == s.objects[id].operationId))
      && (IsLive(s, id) && fence == s.objects[id].fence && operationId == s.objects[id].operationId ==>
            IsLive(s', id) && id !in s'.acceptTimers && id in s'.resultTimers)
  {
    hide Answered, AwaitsAccept, Truthful, Channelled, Dated;
  }

  lemma OthersKeepFlags(s: Coordinator, e: Event, id: nat)
    requires Inv(s) && Enabled(s, e) && !e.Accepts? && id in s.objects
    ensures id in Apply(s, e).objects && Apply(s, e).objects[id].accepted == s.objects[id].accepted
  {
    FreshNumber(s);
    hide Inv;
    if e.Dispatches? {
      hide Dispatch;
      DispatchAddsObject(s, e.operationId, e.commandId, e.remaining, e.limits, e.answeredAt, e.sends);
    } else {
      OthersLeaveObjects(s, e);
      hide Apply, Enabled;
    }
  }

  lemma {:induction false} StaysAccepted(s: Coordinator, es: seq<Event>, id: nat)
    requires Inv(s) && Follows(s, es) && id in s.objects && s.objects[id].accepted
    ensures id in After(s, es).objects && After(s, es).objects[id].accepted
    decreases |es|
  {
    hide Inv, Apply, Enabled, IsLive;
    if es != [] {
      StepKeeps(s, es[0]);
      StepAcceptsExactly(s, es[0], id);
      StaysAccepted(Apply(s, es[0]), es[1..], id);
    }
  }

  lemma HeardSooner(s: Coordinator, es: seq<Event>, k: nat, id: nat, frame: Event)
    requires es != [] && Follows(s, es) && k > 0 && Heard(s, es, k, id, frame)
    ensures Heard(Apply(s, es[0]), es[1..], k - 1, id, frame)
  {
    hide Apply, Enabled, IsLive;
    Prefix(s, es, k);
    Prefix(Apply(s, es[0]), es[1..], k - 1);
    assert es[..k][1..] == es[1..][..k - 1];
    assert es[..k][0] == es[0];
  }

  lemma {:induction false} HeardAccepts(s: Coordinator, es: seq<Event>, k: nat, id: nat, frame: Event)
    requires Inv(s) && Follows(s, es) && Heard(s, es, k, id, frame) && frame.Accepts?
    requires id in After(s, es).objects && frame == Accepts(After(s, es).objects[id].fence, After(s, es).objects[id].operationId)
    ensures After(s, es).objects[id].accepted
    decreases |es|
  {
    hide Inv, Apply, Enabled, IsLive;
    StepKeeps(s, es[0]);
    if k == 0 {
      assert es[..0] == [];
      LiveObject(s, id);
      ObjectsLast(s, es, id);
      StepAcceptsExactly(s, es[0], id);
      StaysAccepted(Apply(s, es[0]), es[1..], id);
    } else {
      HeardSooner(s, es, k, id, frame);
      HeardAccepts(Apply(s, es[0]), es[1..], k - 1, id, frame);
    }
  }

  lemma LiveObject(s: Coordinator, id: nat)
    requires IsLive(s, id)
    ensures id in s.objects
  {
  }

  /** In every run a route counts as accepted exactly if an acceptance of its own channel for its own operation id was
      heard while it was live; and then it is never answered with an accept timeout, nor as not taken. */
  lemma AcceptedExactlyIfHeard(now: int, es: seq<Event>, id: nat)
    requires Follows(Start(now), es) && id in After(Start(now), es).objects
    ensures var s := After(Start(now), es);
      var route := s.objects[id];
      && id in s.settled
      && (route.accepted <==> exists k: nat :: Heard(Start(now), es, k, id, Accepts(route.fence, route.operationId)))
      && (route.accepted && s.settled[id] != [] && s.settled[id][0].Rejected? ==>
            s.settled[id][0].code == ResultRouteLost || s.settled[id][0].code == DeadlineExceeded)
  {
    hide Inv, Follows, After, IsLive, Heard;
    RunKeeps(Start(now), es);
    var s := After(Start(now), es);
    var route := s.objects[id];
    SettledThere(s, id);
    if route.accepted {
      AcceptanceWasHeard(Start(now), es, id);
    }
    if k: nat :| Heard(Start(now), es, k, id, Accepts(route.fence, route.operationId)) {
      HeardAccepts(Start(now), es, k, id, Accepts(route.fence, route.operationId));
    }
    if s.settled[id] != [] {
      AnswersAreTrue(now, es, id);
    }
  }

  lemma SettledThere(s: Coordinator, id: nat)
    requires Inv(s) && id in s.objects
    ensures id in s.settled
  {
  }

  // ------------------------------------------------------------ dispatch

  /** How long ago the channel was last heard, the runtime's own ping answers counted. */
  function Silence(s: Coordinator, answeredAt: Option<int>): int
    requires s.presence.Some?
  {
    if answeredAt.Some? && answeredAt.value > s.presence.value.lastSeenAt then s.now - answeredAt.value
    else s.now - s.presence.value.lastSeenAt
  }

  /** When a dispatch is refused, and as what. */
  lemma RefusedExactly(s: Coordinator, operationId: string, commandId: string, limits: Limits, answeredAt: Option<int>)
    ensures var refusal := Refuses(s, operationId, commandId, limits, answeredAt);
      var reachable := s.sockets != [] && s.presence.Some?
        && Silence(s, answeredAt) <= limits.staleAfterMs && Silence(s, answeredAt) <= limits.offlineAfterMs;
      && (refusal == Some(Offline) <==> !reachable)
      && (refusal == Some(Backpressure) <==> reachable && |s.routes| >= 32)
      && (refusal == Some(InvalidFrame) <==>
            reachable && |s.routes| < 32 && (operationId == "" || commandId == "" || operationId in s.routes))
  {
  }

  /** A refused dispatch changes nothing. One that is not is routed to the channel that presence belongs to, under the
      next number: it waits with both timers, or, if its frame is not taken, it is answered at once and only its
      result timer stays. */
  lemma DispatchedExactly(s: Coordinator, operationId: string, commandId: string, remaining: Option<int>,
                          limits: Limits, answeredAt: Option<int>, sends: bool)
    requires Inv(s)
    ensures var (s', refusal) := Dispatch(s, operationId, commandId, remaining, limits, answeredAt, sends);
      && refusal == Refuses(s, operationId, commandId, limits, answeredAt)
      && (refusal.Some? ==> s' == s)
      && (refusal.None? ==>
            var id := s.nextRoute;
            && s.presence.Some? && id !in s.objects && id in s'.objects && s'.nextRoute == id + 1
            && s'.objects[id] == InflightRoute(operationId, commandId, s.presence.value.fence, false)
            && id in s'.settled && s'.settled[id] == (if sends then [] else [Rejected(ExecutorOffline, s.now)])
            && (IsLive(s', id) <==> sends) && (id in s'.acceptTimers <==> sends)
            && (sends ==> s'.acceptTimers[id] == s.now + 5_000)
            && id in s'.resultTimers && s'.resultTimers[id] == s.now + RouteDeadlineMs(remaining)
            && id in s'.registeredAt && s'.registeredAt[id] == s.now)
  {
    hide Answered, AwaitsAccept, AwaitsResult, Truthful, Channelled, Dated, Refuses, RouteDeadlineMs;
    if Refuses(s, operationId, commandId, limits, answeredAt).None? {
      NotRefused(s, operationId, commandId, limits, answeredAt);
      NewRoute(s, operationId, commandId, remaining);
      AbandonedRoute(Register(s, operationId, commandId, remaining), s.nextRoute);
    }
    hide Register, FailSend, Indexed;
  }

  lemma NewRoute(s: Coordinator, operationId: string, commandId: string, remaining: Option<int>)
    requires s.presence.Some?
    ensures var s' := Register(s, operationId, commandId, remaining);
      var id := s.nextRoute;
      && IsLive(s', id) && s'.objects[id] == InflightRoute(operationId, commandId, s.presence.value.fence, false)
      && id in s'.settled && s'.settled[id] == [] && s'.nextRoute == id + 1 && s'.now == s.now
      && id in s'.acceptTimers && s'.acceptTimers[id] == s.now + 5_000
      && id in s'.resultTimers && s'.resultTimers[id] == s.now + RouteDeadlineMs(remaining)
      && id in s'.registeredAt && s'.registeredAt[id] == s.now
  {
    hide RouteDeadlineMs;
  }

  lemma AbandonedRoute(s: Coordinator, id: nat)
    requires IsLive(s, id) && id in s.settled && s.settled[id] == []
    ensures var s' := FailSend(s, id);
      && !IsLive(s', id) && s'.objects == s.objects && id !in s'.acceptTimers && s'.resultTimers == s.resultTimers
      && id in s'.settled && s'.settled[id] == [Rejected(ExecutorOffline, s.now)]
      && s'.nextRoute == s.nextRoute && s'.registeredAt == s.registeredAt
  {
    assert [] + [Rejected(ExecutorOffline, s.now)] == [Rejected(ExecutorOffline, s.now)];
  }

  /** A route outlives its deadline by two seconds: one to fifty-five are allowed, fifty without a deadline. */
  lemma DeadlineExactly(remaining: Option<int>)
    ensures RouteDeadlineMs(remaining) == (
      match remaining
      case None => 52_000
      case Some(ms) => if ms < 1_000 then 3_000 else if ms > 55_000 then 57_000 else ms + 2_000)
  {
  }

  // ------------------------------------------------------------ presence and sockets

  /** Presence belongs to the channel that greeted last, from its greeting to its close; a report about tools or
      workspaces renews it, from that channel only; nothing else touches it. */
  lemma StepPresence(s: Coordinator, e: Event)
    requires Enabled(s, e)
    ensures var s' := Apply(s, e);
      && s'.presence == (
           match e
           case Greets(fence) => Some(PresenceRecord(fence, s.now))
           case Reports(fence, eventType) =>
             if s.presence.Some? && s.presence.value.fence == fence && (eventType == CapabilitiesChanged || eventType == WorkspacesChanged)
             then Some(PresenceRecord(fence, s.now)) else s.presence
           case Disconnects(fence) => if s.presence.Some? && s.presence.value.fence == fence then None else s.presence
           case _ => s.presence)
      && s'.sockets == (
           match e
           case Connects(fence) => s.sockets + [fence]
           case Disconnects(fence) => Without(s.sockets, fence)
           case _ => s.sockets)
  {
    hide IsLive, Losses, Refuses, RouteDeadlineMs, Without;
  }
}
