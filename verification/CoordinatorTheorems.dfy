/** What holds of a coordinator's dispatches in every run. */
module CoordinatorTheorems {
  import opened Wrappers
  import opened JsMaps
  import opened CoordinatorRoutes
  import opened CoordinatorRuns

  ghost function Start(now: int): (s: Coordinator)
    ensures Inv(s)
  {
    EMPTY_COORDINATOR.(now := now)
  }

  ghost predicate Follows(s: Coordinator, es: seq<Event>)
    decreases |es|
  {
    es == [] || (Enabled(s, es[0]) && Follows(Apply(s, es[0]), es[1..]))
  }

  ghost function After(s: Coordinator, es: seq<Event>): Coordinator
    requires Follows(s, es)
    decreases |es|
  {
    if es == [] then s else After(Apply(s, es[0]), es[1..])
  }

  lemma {:induction false} RunKeeps(s: Coordinator, es: seq<Event>)
    requires Inv(s) && Follows(s, es)
    ensures Inv(After(s, es))
    decreases |es|
  {
    hide Inv, Apply, Enabled;
    if es != [] {
      StepKeeps(s, es[0]);
      RunKeeps(Apply(s, es[0]), es[1..]);
    }
  }

  /** Every dispatch is answered at most once and waits exactly while its operation id leads to it; while
      it waits its result timer is armed, its accept timer exactly until it is accepted, its channel's
      socket has not closed, and there are never more than 32 such routes. */
  lemma SettledExactlyOnce(now: int, es: seq<Event>, id: nat)
    requires Follows(Start(now), es) && id in After(Start(now), es).objects
    ensures var s := After(Start(now), es);
      && id in s.settled && |s.settled[id]| <= 1 && |s.routes| <= 32
      && (s.settled[id] == [] <==> IsLive(s, id))
      && (IsLive(s, id) ==>
            && id in s.resultTimers && id in s.registeredAt && s.resultTimers[id] - s.registeredAt[id] <= 57_000
            && (id in s.acceptTimers <==> !s.objects[id].accepted)
            && s.objects[id].fence in s.sockets)
  {
    RunKeeps(Start(now), es);
    hide Follows, After, Start, Live, Truthful, Dated;
  }

  /** What each answer tells about the past of its route. */
  lemma AnswersAreTrue(now: int, es: seq<Event>, id: nat)
    requires Follows(Start(now), es)
    requires id in After(Start(now), es).objects && id in After(Start(now), es).settled && After(Start(now), es).settled[id] != []
    ensures var s := After(Start(now), es);
      match s.settled[id][0]
      case Resolved(byFence, _) => byFence == s.objects[id].fence
      case Rejected(ResultRouteLost, _) => s.objects[id].accepted
      case Rejected(AcceptTimeout, at) => !s.objects[id].accepted && id in s.registeredAt && at >= s.registeredAt[id] + 5_000
      case Rejected(ExecutorOffline, _) => !s.objects[id].accepted
      case Rejected(DeadlineExceeded, _) => true
  {
    RunKeeps(Start(now), es);
    hide Follows, After, Start, Live, Answered, AwaitsAccept, AwaitsResult, Channelled, Dated, Indexed;
  }

  // ------------------------------------------------------------ time

  /** The runtime fires timers on time: the clock never passes an armed one. */
  ghost predicate Prompt(s: Coordinator, e: Event) {
    e.Tick? ==>
      && (forall id :: id in s.acceptTimers ==> s.now + e.ms <= s.acceptTimers[id])
      && (forall id :: id in s.resultTimers ==> s.now + e.ms <= s.resultTimers[id])
  }

  ghost predicate PromptRun(s: Coordinator, es: seq<Event>)
    requires Follows(s, es)
    decreases |es|
  {
    es == [] || (Prompt(s, es[0]) && PromptRun(Apply(s, es[0]), es[1..]))
  }

  ghost predicate Ahead(acceptTimers: map<nat, int>, resultTimers: map<nat, int>, now: int) {
    && (forall id :: id in acceptTimers ==> now <= acceptTimers[id])
    && (forall id :: id in resultTimers ==> now <= resultTimers[id])
  }

  ghost predicate InTime(objects: map<nat, InflightRoute>, settled: map<nat, seq<Settlement>>, registeredAt: map<nat, int>) {
    forall id :: id in objects && id in settled && settled[id] != [] ==>
      id in registeredAt && settled[id][0].at <= registeredAt[id] + 57_000
  }

  ghost predicate OnTime(s: Coordinator) {
    Ahead(s.acceptTimers, s.resultTimers, s.now) && InTime(s.objects, s.settled, s.registeredAt)
  }

  lemma LiveInTime(s: Coordinator, id: nat)
    requires Inv(s) && OnTime(s) && IsLive(s, id)
    ensures id in s.registeredAt && s.now <= s.registeredAt[id] + 57_000
  {
    LiveTimed(s, id);
  }

  lemma AnswerInTime(s: Coordinator, answers: map<nat, Settlement>)
    requires Inv(s) && OnTime(s) && forall id :: id in answers ==> IsLive(s, id) && answers[id].at == s.now
    ensures InTime(s.objects, Answer(s, answers).settled, s.registeredAt)
  {
    hide Indexed, AwaitsAccept, AwaitsResult, Truthful, Channelled, Dated, IsLive, Answer, Ahead;
    AnswerSettled(s, answers);
    hide Answered;
    forall id | id in answers ensures id in s.registeredAt && s.now <= s.registeredAt[id] + 57_000 {
      LiveInTime(s, id);
    }
  }

  lemma AnswerOnTime(s: Coordinator, answers: map<nat, Settlement>)
    requires Inv(s) && OnTime(s) && forall id :: id in answers ==> IsLive(s, id) && answers[id].at == s.now
    ensures OnTime(Answer(s, answers))
  {
    hide Inv, IsLive, InTime;
    AnswerInTime(s, answers);
  }

  lemma RegisterOnTime(s: Coordinator, operationId: string, commandId: string, remaining: Option<int>)
    requires OnTime(s) && s.presence.Some?
    ensures OnTime(Register(s, operationId, commandId, remaining))
  {
    hide Inv;
  }

  lemma DispatchOnTime(s: Coordinator, operationId: string, commandId: string, remaining: Option<int>,
                       limits: Limits, answeredAt: Option<int>, sends: bool)
    requires Inv(s) && OnTime(s)
    ensures OnTime(Dispatch(s, operationId, commandId, remaining, limits, answeredAt, sends).0)
  {
    hide Inv, Register, OnTime, IsLive, Refuses, FailSend;
    if Refuses(s, operationId, commandId, limits, answeredAt).None? {
      NotRefused(s, operationId, commandId, limits, answeredAt);
      RegisteredLive(s, operationId, commandId, remaining);
      RegisterKeeps(s, operationId, commandId, remaining);
      RegisterOnTime(s, operationId, commandId, remaining);
      FailSendOnTime(Register(s, operationId, commandId, remaining), s.nextRoute);
    }
  }

  lemma FailSendOnTime(s: Coordinator, id: nat)
    requires Inv(s) && OnTime(s) && IsLive(s, id)
    ensures OnTime(FailSend(s, id))
  {
    hide Inv, IsLive, InTime;
    AnswerOnTime(s, map[id := Rejected(ExecutorOffline, s.now)]);
  }

  lemma ChannelOnTime(s: Coordinator, e: Event)
    requires OnTime(s) && Enabled(s, e) && Prompt(s, e)
    requires e.Connects? || e.Greets? || e.Reports? || e.Accepts? || e.Tick?
    ensures OnTime(Apply(s, e))
  {
    hide IsLive;
  }

  lemma TimerOnTime(s: Coordinator, e: Event)
    requires Inv(s) && OnTime(s) && Enabled(s, e) && (e.AcceptTimerFires? || e.ResultTimerFires?)
    ensures OnTime(Apply(s, e))
  {
    hide Inv, Answer, IsLive, InTime, FireAccept, FireResult;
    if e.AcceptTimerFires? {
      FireAcceptAnswers(s, e.id);
      AnswerOnTime(s, map[e.id := Rejected(AcceptTimeout, s.now)]);
    } else {
      FireResultAnswers(s, e.id);
      if IsLive(s, e.id) {
        AnswerOnTime(s, map[e.id := Rejected(DeadlineExceeded, s.now)]);
      }
    }
  }

  lemma StepOnTime(s: Coordinator, e: Event)
    requires Inv(s) && OnTime(s) && Enabled(s, e) && Prompt(s, e)
    ensures OnTime(Apply(s, e))
  {
    match e
    case Disconnects(fence) =>
      hide Inv, Losses, InTime;
      LossesFit(s, fence);
      AnswerOnTime(s, Losses(s, fence));
    case Answers(fence, operationId) =>
      if operationId in s.routes {
        assert IsLive(s, s.routes[operationId]);
        hide Inv, OnTime, Answer;
        AnswerOnTime(s, map[s.routes[operationId] := Resolved(fence, s.now)]);
      }
    case Dispatches(operationId, commandId, remaining, limits, answeredAt, sends) =>
      DispatchOnTime(s, operationId, commandId, remaining, limits, answeredAt, sends);
    case AcceptTimerFires(_) => TimerOnTime(s, e);
    case ResultTimerFires(_) => TimerOnTime(s, e);
    case _ => ChannelOnTime(s, e);
  }

  lemma {:induction false} RunOnTime(s: Coordinator, es: seq<Event>)
    requires Inv(s) && Follows(s, es) && PromptRun(s, es) && OnTime(s)
    ensures OnTime(After(s, es))
    decreases |es|
  {
    hide Inv, OnTime, Prompt, Apply, Enabled;
    if es != [] {
      StepKeeps(s, es[0]);
      StepOnTime(s, es[0]);
      RunOnTime(Apply(s, es[0]), es[1..]);
    }
  }

  /** With punctual timers every dispatch is answered within 57 seconds of its registration, and within 5
      when it is not accepted. */
  lemma SettlesInTime(now: int, es: seq<Event>, id: nat)
    requires Follows(Start(now), es) && PromptRun(Start(now), es) && id in After(Start(now), es).objects
    ensures var s := After(Start(now), es);
      && id in s.registeredAt && id in s.settled
      && (s.settled[id] == [] ==> s.now <= s.registeredAt[id] + if s.objects[id].accepted then 57_000 else 5_000)
      && (s.settled[id] != [] ==> s.settled[id][0].at <= s.registeredAt[id] + 57_000)
  {
    RunKeeps(Start(now), es);
    RunOnTime(Start(now), es);
    hide Follows, After, Start, PromptRun, Live, Truthful, Channelled;
  }

  // ------------------------------------------------------------ timers and channels of the past

  /** An armed result timer of a route that is gone was left by a failed send, and firing it changes nothing
      else: not even the route that now has the same operation id. */
  lemma LeakedTimerIsHarmless(now: int, es: seq<Event>, id: nat)
    requires Follows(Start(now), es) && id in After(Start(now), es).resultTimers && !IsLive(After(Start(now), es), id)
    ensures var s := After(Start(now), es);
      && FireResult(s, id) == s.(resultTimers := s.resultTimers - {id})
      && id in s.settled && id in s.registeredAt && s.settled[id] == [Rejected(ExecutorOffline, s.registeredAt[id])]
  {
    RunKeeps(Start(now), es);
    var s := After(Start(now), es);
    hide Follows, After, Start;
    FireResultAnswers(s, id);
    hide FireResult, IsLive;
  }

  /** A closing channel answers its own routes, each according to its acceptance, and changes nothing of any
      other channel: neither its routes, their timers and answers, nor its presence. */
  lemma CloseTouchesOnlyItsOwn(s: Coordinator, fence: string, id: nat)
    requires Inv(s) && id in s.objects
    ensures var s' := WebSocketClose(s, fence);
      && s'.objects == s.objects && id in s.settled && id in s'.settled
      && (s.presence.Some? && s.presence.value.fence != fence ==> s'.presence == s.presence)
      && (s'.presence.Some? ==> s'.presence.value.fence != fence)
      && (s.objects[id].fence != fence ==>
            && (IsLive(s', id) <==> IsLive(s, id)) && s'.settled[id] == s.settled[id]
            && (id in s'.acceptTimers <==> id in s.acceptTimers) && (id in s'.resultTimers <==> id in s.resultTimers))
      && (s.objects[id].fence == fence && IsLive(s, id) ==>
            s'.settled[id] == [Rejected(if s.objects[id].accepted then ResultRouteLost else ExecutorOffline, s.now)])
      && (s.objects[id].fence == fence ==> !IsLive(s', id))
  {
    hide Indexed, AwaitsAccept, AwaitsResult, Truthful, Channelled, Dated, Live, Without;
    LossesFit(s, fence);
    AnswerSettled(s, Losses(s, fence));
    AnswerLive(s, Losses(s, fence));
    assert id in s.settled;
    hide Answered;
  }

  // ------------------------------------------------------------ where acceptances and results come from

  lemma AnswerLeavesObjects(s: Coordinator, answers: map<nat, Settlement>)
    ensures Answer(s, answers).objects == s.objects
  {
  }

  lemma DispatchAddsObject(s: Coordinator, operationId: string, commandId: string, remaining: Option<int>,
                           limits: Limits, answeredAt: Option<int>, sends: bool)
    ensures var s' := Dispatch(s, operationId, commandId, remaining, limits, answeredAt, sends).0;
      && (s.nextRoute in s'.objects && s.nextRoute !in s.objects ==> !s'.objects[s.nextRoute].accepted)
      && forall id :: id != s.nextRoute ==> (id in s'.objects <==> id in s.objects) && (id in s.objects ==> s'.objects[id] == s.objects[id])
  {
    hide Refuses, Answer;
    if Refuses(s, operationId, commandId, limits, answeredAt).None? {
      NotRefused(s, operationId, commandId, limits, answeredAt);
      var registered := Register(s, operationId, commandId, remaining);
      AnswerLeavesObjects(registered, map[s.nextRoute := Rejected(ExecutorOffline, registered.now)]);
    }
  }

  lemma OthersLeaveObjects(s: Coordinator, e: Event)
    requires Enabled(s, e) && !e.Accepts? && !e.Dispatches?
    ensures Apply(s, e).objects == s.objects
  {
    hide OnResult, WebSocketClose, FireAccept, FireResult;
    match e
    case Answers(fence, operationId) => ResultLeavesObjects(s, fence, operationId);
    case Disconnects(fence) => CloseLeavesObjects(s, fence);
    case AcceptTimerFires(id) => FireAcceptLeavesObjects(s, id);
    case ResultTimerFires(id) => FireResultLeavesObjects(s, id);
    case _ =>
  }

  lemma ResultLeavesObjects(s: Coordinator, fence: string, operationId: string)
    ensures OnResult(s, fence, operationId).objects == s.objects
  {
  }

  lemma CloseLeavesObjects(s: Coordinator, fence: string)
    ensures WebSocketClose(s, fence).objects == s.objects
  {
    hide Losses, Without;
  }

  lemma FireAcceptLeavesObjects(s: Coordinator, id: nat)
    requires id in s.acceptTimers
    ensures FireAccept(s, id).objects == s.objects
  {
  }

  lemma FireResultLeavesObjects(s: Coordinator, id: nat)
    requires id in s.resultTimers
    ensures FireResult(s, id).objects == s.objects
  {
  }

  /** Nothing else about a route object ever changes, and it is accepted only by a frame of its own channel. */
  lemma StepAccepts(s: Coordinator, e: Event, id: nat)
    requires Inv(s) && Enabled(s, e)
    ensures var s' := Apply(s, e);
      && (id in s.objects ==> id in s'.objects && s'.objects[id].(accepted := false) == s.objects[id].(accepted := false))
      && (id in s'.objects && s'.objects[id].accepted && !(id in s.objects && s.objects[id].accepted) ==>
            IsLive(s, id) && e == Accepts(s'.objects[id].fence, s'.objects[id].operationId))
  {
    hide Answered, AwaitsAccept, AwaitsResult, Truthful, Channelled, Dated;
    if e.Dispatches? {
      hide Dispatch;
      DispatchAddsObject(s, e.operationId, e.commandId, e.remaining, e.limits, e.answeredAt, e.sends);
    } else if !e.Accepts? {
      OthersLeaveObjects(s, e);
      hide Apply, Enabled;
    }
  }

  /** The answers a step gives. */
  ghost function Given(s: Coordinator, e: Event): map<nat, Settlement>
    requires Inv(s) && Enabled(s, e)
  {
    match e
    case Disconnects(fence) => Losses(s, fence)
    case Answers(fence, operationId) =>
      if operationId in s.routes && s.objects[s.routes[operationId]].fence == fence
      then map[s.routes[operationId] := Resolved(fence, s.now)] else map[]
    case AcceptTimerFires(id) => map[id := Rejected(AcceptTimeout, s.now)]
    case ResultTimerFires(id) => if IsLive(s, id) then map[id := Rejected(DeadlineExceeded, s.now)] else map[]
    case Dispatches(operationId, commandId, _, limits, answeredAt, sends) =>
      if sends || Refuses(s, operationId, commandId, limits, answeredAt).Some? then map[]
      else map[s.nextRoute := Rejected(ExecutorOffline, s.now)]
    case _ => map[]
  }

  /** What a route's answer is after a step. */
  ghost predicate Gives(s: Coordinator, s': Coordinator, given: map<nat, Settlement>) {
    && (forall id :: id in s'.objects ==>
          && id in s'.settled
          && s'.settled[id] == if id in given then [given[id]] else if id in s.objects && id in s.settled then s.settled[id] else [])
    && (forall id :: id in given ==> id !in s.objects || IsLive(s, id))
  }

  lemma AnswerGives(s: Coordinator, answers: map<nat, Settlement>)
    requires Answered(s.routes, s.objects, s.settled) && forall id :: id in answers ==> IsLive(s, id)
    ensures Gives(s, Answer(s, answers), answers)
  {
    AnswerSettled(s, answers);
    hide IsLive;
  }

  lemma RegisterGives(s: Coordinator, operationId: string, commandId: string, remaining: Option<int>)
    requires Answered(s.routes, s.objects, s.settled) && s.presence.Some? && s.nextRoute !in s.objects
    ensures Gives(s, Register(s, operationId, commandId, remaining), map[])
  {
    hide Live;
  }

  lemma FailSendGives(s: Coordinator, s': Coordinator, id: nat)
    requires Gives(s, s', map[]) && id !in s.objects && id in s'.objects
    ensures Gives(s, FailSend(s', id), map[id := Rejected(ExecutorOffline, s'.now)])
  {
    assert [] + [Rejected(ExecutorOffline, s'.now)] == [Rejected(ExecutorOffline, s'.now)];
    hide IsLive;
  }

  lemma DispatchGives(s: Coordinator, e: Event)
    requires Inv(s) && e.Dispatches?
    ensures Gives(s, Apply(s, e), Given(s, e))
  {
    FreshNumber(s);
    hide Indexed, Answered, AwaitsAccept, AwaitsResult, Truthful, Channelled, Dated, Gives, Refuses, RouteDeadlineMs, FailSend;
    if Refuses(s, e.operationId, e.commandId, e.limits, e.answeredAt).None? {
      NotRefused(s, e.operationId, e.commandId, e.limits, e.answeredAt);
      RegisterGives(s, e.operationId, e.commandId, e.remaining);
      FailSendGives(s, Register(s, e.operationId, e.commandId, e.remaining), s.nextRoute);
    } else {
      NothingGiven(s, s);
    }
  }

  lemma FreshNumber(s: Coordinator)
    requires Inv(s)
    ensures s.nextRoute !in s.objects
  {
  }

  lemma CloseGives(s: Coordinator, fence: string)
    requires Inv(s)
    ensures Gives(s, WebSocketClose(s, fence), Losses(s, fence))
  {
    hide Indexed, AwaitsAccept, AwaitsResult, Truthful, Channelled, Dated, IsLive, Losses, Without, Gives;
    LossesFit(s, fence);
    AnswerGives(s, Losses(s, fence));
    SameGives(s, Answer(s, Losses(s, fence)), WebSocketClose(s, fence), Losses(s, fence));
  }

  lemma TimerGives(s: Coordinator, e: Event)
    requires Inv(s) && Enabled(s, e) && (e.AcceptTimerFires? || e.ResultTimerFires?)
    ensures Gives(s, Apply(s, e), Given(s, e))
  {
    hide Indexed, AwaitsAccept, AwaitsResult, Truthful, Channelled, Dated, IsLive, Answer, Gives, FireAccept, FireResult;
    if e.AcceptTimerFires? {
      FireAcceptAnswers(s, e.id);
      AnswerGives(s, Given(s, e));
    } else {
      FireResultAnswers(s, e.id);
      if IsLive(s, e.id) {
        AnswerGives(s, Given(s, e));
      } else {
        NothingGiven(s, Apply(s, e));
      }
    }
  }

  lemma ResultGives(s: Coordinator, e: Event)
    requires Inv(s) && e.Answers? && Enabled(s, e)
    ensures Gives(s, Apply(s, e), Given(s, e))
  {
    if e.operationId in s.routes {
      LedTo(s, e.operationId);
    }
    hide Indexed, AwaitsAccept, AwaitsResult, Truthful, Channelled, Dated, Answer, Gives;
    if e.operationId in s.routes && s.objects[s.routes[e.operationId]].fence == e.fence {
      AnswerGives(s, map[s.routes[e.operationId] := Resolved(e.fence, s.now)]);
    } else {
      NothingGiven(s, s);
    }
  }

  lemma QuietGives(s: Coordinator, e: Event)
    requires Inv(s) && Enabled(s, e) && (e.Connects? || e.Greets? || e.Reports? || e.Accepts? || e.Tick?)
    ensures Gives(s, Apply(s, e), Given(s, e))
  {
    hide Indexed, AwaitsAccept, AwaitsResult, Truthful, Channelled, Dated, Gives, IsLive;
    NothingGiven(s, Apply(s, e));
  }

  lemma StepGives(s: Coordinator, e: Event)
    requires Inv(s) && Enabled(s, e)
    ensures Gives(s, Apply(s, e), Given(s, e))
  {
    if e.Dispatches? {
      DispatchGives(s, e);
    } else if e.AcceptTimerFires? || e.ResultTimerFires? {
      TimerGives(s, e);
    } else if e.Disconnects? {
      hide Inv, Losses, WebSocketClose, Gives;
      CloseGives(s, e.fence);
    } else if e.Answers? {
      ResultGives(s, e);
    } else {
      QuietGives(s, e);
    }
    hide Inv, Apply, Given, Gives;
  }

  lemma LedTo(s: Coordinator, operationId: string)
    requires Inv(s) && operationId in s.routes
    ensures IsLive(s, s.routes[operationId])
  {
  }

  lemma SameGives(s: Coordinator, s': Coordinator, s'': Coordinator, given: map<nat, Settlement>)
    requires Gives(s, s', given) && s''.objects == s'.objects && s''.settled == s'.settled
    ensures Gives(s, s'', given)
  {
  }

  lemma NothingGiven(s: Coordinator, s': Coordinator)
    requires Answered(s.routes, s.objects, s.settled) && s'.objects.Keys == s.objects.Keys && s'.settled == s.settled
    ensures Gives(s, s', map[])
  {
    hide Live;
  }

  /** Only a result frame of the route's own channel resolves. */
  lemma GivenResolves(s: Coordinator, e: Event, id: nat)
    requires Inv(s) && Enabled(s, e)
    ensures id in Given(s, e) && Given(s, e)[id].Resolved?
      <==> IsLive(s, id) && e == Answers(s.objects[id].fence, s.objects[id].operationId)
  {
    hide Answered, AwaitsAccept, AwaitsResult, Truthful, Channelled, Dated, Refuses;
  }

  /** A step resolves a requester exactly if it is a result frame from the route's own channel. */
  lemma StepResolves(s: Coordinator, e: Event, id: nat)
    requires Inv(s) && Enabled(s, e) && (IsLive(s, id) || id !in s.objects) && id in Apply(s, e).objects
    ensures id in Apply(s, e).settled
    ensures Apply(s, e).settled[id] != [] && Apply(s, e).settled[id][0].Resolved?
      <==> IsLive(s, id) && e == Answers(s.objects[id].fence, s.objects[id].operationId)
  {
    StepGives(s, e);
    GivenResolves(s, e, id);
    assert IsLive(s, id) ==> id in s.settled && s.settled[id] == [];
    hide Indexed, Answered, AwaitsAccept, AwaitsResult, Truthful, Channelled, Dated, Apply, Given;
  }

  /** An answer is final: no step changes or repeats it. */
  lemma StepIsFinal(s: Coordinator, e: Event, id: nat)
    requires Inv(s) && Enabled(s, e) && id in s.objects && s.settled[id] != []
    ensures id in Apply(s, e).objects && id in Apply(s, e).settled && Apply(s, e).settled[id] == s.settled[id]
  {
    StepGives(s, e);
    StepAccepts(s, e, id);
    assert !IsLive(s, id);
    hide Indexed, Answered, AwaitsAccept, AwaitsResult, Truthful, Channelled, Dated, Apply, Given, Enabled, IsLive;
  }

  lemma {:induction false} AnswerIsFinal(s: Coordinator, es: seq<Event>, id: nat)
    requires Inv(s) && Follows(s, es) && id in s.objects && s.settled[id] != []
    ensures id in After(s, es).settled && After(s, es).settled[id] == s.settled[id]
    decreases |es|
  {
    if es != [] {
      StepKeeps(s, es[0]);
      StepIsFinal(s, es[0], id);
      StepAccepts(s, es[0], id);
      hide Inv, Apply, Enabled;
      AnswerIsFinal(Apply(s, es[0]), es[1..], id);
    }
  }

  lemma {:induction false} Prefix(s: Coordinator, es: seq<Event>, k: nat)
    requires Follows(s, es) && k <= |es|
    ensures Follows(s, es[..k])
    decreases k
  {
    hide Apply, Enabled;
    if k > 0 {
      Prefix(Apply(s, es[0]), es[1..], k - 1);
      assert es[..k][1..] == es[1..][..k - 1];
    }
  }

  /** The k-th event of a run is a frame of the route's own channel, and found the route live. */
  ghost predicate Heard(s: Coordinator, es: seq<Event>, k: nat, id: nat, frame: Event)
    requires Follows(s, es)
  {
    k < |es| && es[k] == frame && (Prefix(s, es, k); IsLive(After(s, es[..k]), id))
  }

  lemma HeardLater(s: Coordinator, es: seq<Event>, k: nat, id: nat, frame: Event)
    requires es != [] && Follows(s, es) && Heard(Apply(s, es[0]), es[1..], k, id, frame)
    ensures Heard(s, es, k + 1, id, frame)
  {
    hide Apply, Enabled, IsLive;
    Prefix(s, es, k + 1);
    assert es[..k + 1][1..] == es[1..][..k];
  }

  /** A route that is accepted at the end of a run was accepted by an acceptance frame of its own channel
      for its own operation id, which came while the route was live. */
  lemma {:induction false} AcceptanceWasHeard(s: Coordinator, es: seq<Event>, id: nat)
    requires Inv(s) && Follows(s, es) && id in After(s, es).objects && After(s, es).objects[id].accepted
    requires !(id in s.objects && s.objects[id].accepted)
    ensures var route := After(s, es).objects[id];
      exists k: nat :: Heard(s, es, k, id, Accepts(route.fence, route.operationId))
    decreases |es|
  {
    var s' := Apply(s, es[0]);
    var route := After(s, es).objects[id];
    StepKeeps(s, es[0]);
    StepAccepts(s, es[0], id);
    hide Inv, Apply, Enabled, IsLive;
    if id in s'.objects && s'.objects[id].accepted {
      ObjectsLast(s', es[1..], id);
      assert es[..0] == [];
      assert Heard(s, es, 0, id, Accepts(route.fence, route.operationId));
    } else {
      AcceptanceWasHeard(s', es[1..], id);
      var k: nat :| Heard(s', es[1..], k, id, Accepts(route.fence, route.operationId));
      HeardLater(s, es, k, id, Accepts(route.fence, route.operationId));
    }
  }

  /** The identity of a route object never changes. */
  lemma {:induction false} ObjectsLast(s: Coordinator, es: seq<Event>, id: nat)
    requires Inv(s) && Follows(s, es) && id in s.objects
    ensures id in After(s, es).objects
    ensures After(s, es).objects[id].(accepted := false) == s.objects[id].(accepted := false)
    decreases |es|
  {
    hide Inv, Apply, Enabled;
    if es != [] {
      StepKeeps(s, es[0]);
      StepAccepts(s, es[0], id);
      ObjectsLast(Apply(s, es[0]), es[1..], id);
    }
  }

  /** A requester that has a result got it from a result frame of the route's own channel for its own
      operation id, which came while the route was live: never from another channel, or another route. */
  lemma {:induction false} ResultWasHeard(s: Coordinator, es: seq<Event>, id: nat)
    requires Inv(s) && Follows(s, es) && id in After(s, es).objects
    requires id in After(s, es).settled && After(s, es).settled[id] != [] && After(s, es).settled[id][0].Resolved?
    requires id in s.objects ==> s.settled[id] == []
    ensures var route := After(s, es).objects[id];
      exists k: nat :: Heard(s, es, k, id, Answers(route.fence, route.operationId))
    decreases |es|
  {
    var s' := Apply(s, es[0]);
    var route := After(s, es).objects[id];
    StepKeeps(s, es[0]);
    if id in s'.objects {
      StepResolves(s, es[0], id);
    }
    hide Indexed, Answered, AwaitsAccept, AwaitsResult, Truthful, Channelled, Dated, Apply, Enabled, IsLive;
    if id in s'.objects && s'.settled[id] != [] {
      AnswerIsFinal(s', es[1..], id);
      StepAccepts(s, es[0], id);
      ObjectsLast(s, es, id);
      assert es[..0] == [];
      assert Heard(s, es, 0, id, Answers(route.fence, route.operationId));
    } else {
      ResultWasHeard(s', es[1..], id);
      var k: nat :| Heard(s', es[1..], k, id, Answers(route.fence, route.operationId));
      HeardLater(s, es, k, id, Answers(route.fence, route.operationId));
    }
  }
}
