/**
 Whole runs of the client relay and the executor registry. A step is one uninterrupted stretch of
 code: a handler, a timer, a callback of a cancelled stream, or one of the two halves of `command`,
 which any number of other steps may separate.
 */
module ConnectRuns {
  import opened Wrappers
  import opened JsMaps
  import opened ConnectHub
  import opened ConnectInvariants
  import opened ConnectKeeps

  /** A `command` call between its two halves, with the link it captured. */
  datatype Waiting = Waiting(link: DesktopLink, frame: Frame)
  datatype World = World(hub: Hub, commands: map<nat, Waiting>)

  datatype Event =
    | OpenDesktop(actor: Authority, sink: nat, fence: string)
    | CancelStream(sink: nat)
    | SetRefusing(sink: nat, refuses: bool)
    | RevokesDesktop(deviceId: string)
    | RevokesExecutor(executorId: string)
    | BeginCommand(task: nat, actor: Authority, frame: Frame, envelope: Option<Outcome>)
    | FinishCommand(task: nat, lookup: Lookup, lag: nat)
    | Receive(executorId: string, accepted: Frame)
    | Produce(executorId: string, commandId: Option<string>, correlationId: string, terminal: bool)
    | TimerFires(route: nat)
    | OpensExecutor(executorId: string, deviceId: string, generation: nat, sink: nat, fence: string)
    | ClosesExecutor(executorId: string, onlyFence: Option<string>)
    | RevokesConnection(executorId: string)
    | Touches(executorId: string, generation: nat)
    | Greets(executorId: string, generation: nat, correlationId: string)
    | AsksPresence(executorId: string)
    | Tick(ms: nat)

  predicate Enabled(w: World, e: Event) {
    match e
    case OpenDesktop(_, _, fence) => fence !in w.hub.fences
    case OpensExecutor(_, _, _, _, fence) => fence !in w.hub.fences
    case BeginCommand(task, _, _, _) => task !in w.commands
    case FinishCommand(task, _, _) => task in w.commands
    case TimerFires(id) => id in w.hub.timers && w.hub.timers[id].dueMs <= w.hub.now
    case _ => true
  }

  function Begun(w: World, task: nat, actor: Authority, frame: Frame, envelope: Option<Outcome>): World {
    var (hub, answer) := Begin(w.hub, actor, frame, envelope);
    if answer.None? && actor.deviceId in w.hub.desktops.values then
      World(hub, w.commands[task := Waiting(w.hub.desktops.values[actor.deviceId], frame)])
    else World(hub, w.commands)
  }

  ghost function Apply(w: World, e: Event): World
    requires Inv(w.hub) && Enabled(w, e)
  {
    hide Inv;
    InvKeyed(w.hub);
    match e
    case OpenDesktop(actor, sink, fence) =>
      w.(hub := Watch(OpenLink(w.hub, actor, sink, fence), sink, actor.deviceId, fence))
    case CancelStream(sink) => w.(hub := EndSink(w.hub, sink))
    case SetRefusing(sink, refuses) =>
      w.(hub := w.hub.(refusing := if refuses then w.hub.refusing + {sink} else w.hub.refusing - {sink}))
    case RevokesDesktop(deviceId) => w.(hub := RevokeDesktop(w.hub, deviceId))
    case RevokesExecutor(executorId) => w.(hub := RevokeExecutor(w.hub, executorId))
    case BeginCommand(task, actor, frame, envelope) => Begun(w, task, actor, frame, envelope)
    case FinishCommand(task, lookup, lag) =>
      World(Finish(w.hub, w.commands[task].link, w.commands[task].frame, lookup, lag).0, w.commands - {task})
    case Receive(executorId, accepted) => w.(hub := Accept(w.hub, executorId, accepted).0)
    case Produce(executorId, commandId, correlationId, terminal) =>
      w.(hub := Output(w.hub, executorId, commandId, correlationId, terminal).0)
    case TimerFires(id) => w.(hub := Fire(w.hub, id))
    case OpensExecutor(executorId, deviceId, generation, sink, fence) =>
      w.(hub := OpenExecutor(w.hub, executorId, deviceId, generation, sink, fence))
    case ClosesExecutor(executorId, fence) => w.(hub := CloseExecutor(w.hub, executorId, fence))
    case RevokesConnection(executorId) => w.(hub := RevokeConnection(w.hub, executorId))
    case Touches(executorId, generation) => w.(hub := TouchExecutor(w.hub, executorId, generation))
    case Greets(executorId, generation, correlationId) => w.(hub := Hello(w.hub, executorId, generation, correlationId))
    case AsksPresence(executorId) => w.(hub := Look(w.hub, executorId).0)
    case Tick(ms) => w.(hub := w.hub.(now := w.hub.now + ms))
  }

  /** A terminal frame that reaches its client while the command is not accepted yet. */
  ghost predicate TooEarly(w: World, e: Event) {
    && e.Produce? && Terminates(w.hub, e.executorId, e.commandId, e.correlationId, e.terminal)
    && Waits(w.hub, Target(w.hub, e.commandId, e.correlationId).value)
  }

  lemma OpenStep(h: Hub, actor: Authority, sink: nat, fence: string)
    requires Inv(h) && KeyedByDevice(h.desktops)
    ensures Keeps(h, Watch(OpenLink(h, actor, sink, fence), sink, actor.deviceId, fence))
  {
    hide Inv, Owed, OpenLink, Watch;
    OpenKeeps(h, actor, sink, fence);
    WatchKeeps(OpenLink(h, actor, sink, fence), sink, actor.deviceId, fence);
  }

  lemma BeginStep(w: World, task: nat, actor: Authority, frame: Frame, envelope: Option<Outcome>)
    requires Inv(w.hub)
    ensures Keeps(w.hub, Begun(w, task, actor, frame, envelope).hub)
  {
    hide Inv, Keeps, Begin;
    BeginKeeps(w.hub, actor, frame, envelope);
  }

  lemma OutputStep(h: Hub, executorId: string, commandId: Option<string>, correlationId: string, terminal: bool)
    requires Inv(h)
    ensures Inv(Output(h, executorId, commandId, correlationId, terminal).0)
    ensures Owed(h) ==>
      (Owed(Output(h, executorId, commandId, correlationId, terminal).0) <==>
       !(Terminates(h, executorId, commandId, correlationId, terminal) && Waits(h, Target(h, commandId, correlationId).value)))
  {
    hide Inv, Owed, Output, Terminates, Waits;
    OutputKeepsInv(h, executorId, commandId, correlationId, terminal);
    if Owed(h) {
      OutputOrphans(h, executorId, commandId, correlationId, terminal);
    }
  }

  lemma RelayStep(w: World, e: Event)
    requires Inv(w.hub) && Enabled(w, e)
    requires e.OpenDesktop? || e.CancelStream? || e.RevokesDesktop? || e.RevokesExecutor? || e.BeginCommand? || e.FinishCommand?
    ensures Keeps(w.hub, Apply(w, e).hub)
  {
    hide Inv, Keeps, OpenLink, Watch, EndSink, RevokeDesktop, RevokeExecutor, Finish, Begun, KeyedByDevice;
    InvKeyed(w.hub);
    match e
    case OpenDesktop(actor, sink, fence) => OpenStep(w.hub, actor, sink, fence);
    case CancelStream(sink) => EndKeeps(w.hub, sink);
    case RevokesDesktop(deviceId) => RevokeDesktopKeeps(w.hub, deviceId);
    case RevokesExecutor(executorId) => RevokeExecutorKeeps(w.hub, executorId);
    case BeginCommand(task, actor, frame, envelope) => BeginStep(w, task, actor, frame, envelope);
    case FinishCommand(task, lookup, lag) =>
      FinishKeeps(w.hub, w.commands[task].link, w.commands[task].frame, lookup, lag);
  }

  lemma RegistryStep(w: World, e: Event)
    requires Inv(w.hub) && Enabled(w, e)
    requires e.OpensExecutor? || e.ClosesExecutor? || e.RevokesConnection? || e.Touches? || e.Greets? || e.AsksPresence?
    ensures Keeps(w.hub, Apply(w, e).hub)
  {
    hide Inv, Keeps, OpenLink, Watch, EndSink, RevokeDesktop, RevokeExecutor, Finish, Begun, KeyedByDevice;
    hide OpenExecutor, CloseExecutor, RevokeConnection, TouchExecutor, Hello, Look, Accept, Output, Fire, SameButTables, Terminates;
    if e.OpensExecutor? {
      OpenExecutorKeeps(w.hub, e.executorId, e.deviceId, e.generation, e.sink, e.fence);
    } else if e.ClosesExecutor? {
      CloseExecutorKeeps(w.hub, e.executorId, e.onlyFence);
    } else if e.RevokesConnection? {
      RevokeConnectionKeeps(w.hub, e.executorId);
    } else if e.Touches? {
      TouchKeeps(w.hub, e.executorId, e.generation);
    } else if e.Greets? {
      HelloKeeps(w.hub, e.executorId, e.generation, e.correlationId);
    } else {
      LookKeeps(w.hub, e.executorId);
    }
  }

  lemma SmallStep(w: World, e: Event)
    requires Inv(w.hub) && Enabled(w, e) && (e.Receive? || e.TimerFires? || e.SetRefusing? || e.Tick?)
    ensures Keeps(w.hub, Apply(w, e).hub)
  {
    hide Inv, Keeps, Accept, Fire, Waits, Owed;
    match e
    case Receive(executorId, accepted) => AcceptKeeps(w.hub, executorId, accepted);
    case TimerFires(id) => FireKeeps(w.hub, id);
    case SetRefusing(_, _) => SameKeeps(w.hub, Apply(w, e).hub);
    case Tick(_) => SameKeeps(w.hub, Apply(w, e).hub);
  }

  /** Every step keeps the invariants, and answers or keeps every promise unless a terminal frame is too early. */
  lemma StepKeeps(w: World, e: Event)
    requires Inv(w.hub) && Enabled(w, e)
    ensures Inv(Apply(w, e).hub)
    ensures Owed(w.hub) ==> (Owed(Apply(w, e).hub) <==> !TooEarly(w, e))
  {
    if e.Produce? {
      hide Inv, Owed, Output, Terminates, Waits;
      OutputStep(w.hub, e.executorId, e.commandId, e.correlationId, e.terminal);
    } else if e.OpensExecutor? || e.ClosesExecutor? || e.RevokesConnection? || e.Touches? || e.Greets? || e.AsksPresence? {
      hide Inv, Owed, Apply;
      RegistryStep(w, e);
    } else if e.Receive? || e.TimerFires? || e.SetRefusing? || e.Tick? {
      hide Inv, Owed, Apply;
      SmallStep(w, e);
    } else {
      hide Inv, Owed, Apply;
      RelayStep(w, e);
    }
  }

  // ------------------------------------------------------------ whole runs

  ghost function Start(now: int): (w: World)
    ensures Inv(w.hub) && Owed(w.hub)
  {
    hide Inv;
    EmptyInv(now);
    World(EMPTY_HUB.(now := now), map[])
  }

  ghost predicate Follows(w: World, es: seq<Event>)
    requires Inv(w.hub)
    decreases |es|
  {
    es == [] || (Enabled(w, es[0]) && (StepKeeps(w, es[0]); Follows(Apply(w, es[0]), es[1..])))
  }

  ghost function After(w: World, es: seq<Event>): World
    requires Inv(w.hub) && Follows(w, es)
    decreases |es|
  {
    if es == [] then w else StepKeeps(w, es[0]); After(Apply(w, es[0]), es[1..])
  }

  lemma {:induction false} RunKeeps(w: World, es: seq<Event>)
    requires Inv(w.hub) && Follows(w, es)
    ensures Inv(After(w, es).hub)
    decreases |es|
  {
    hide Inv, Apply, Enabled;
    if es != [] {
      StepKeeps(w, es[0]);
      RunKeeps(Apply(w, es[0]), es[1..]);
    }
  }

  /** Executors accept a command before they finish it. */
  ghost predicate AcceptsFirst(w: World, es: seq<Event>)
    requires Inv(w.hub) && Follows(w, es)
    decreases |es|
  {
    es == [] || (StepKeeps(w, es[0]); !TooEarly(w, es[0]) && AcceptsFirst(Apply(w, es[0]), es[1..]))
  }

  lemma Attached(h: Hub, c: string)
    requires Inv(h) && c in h.byCommand
    ensures var route := h.byCommand[c];
      && route.deviceId in h.desktops.values && h.desktops.values[route.deviceId].fence == route.desktopFence
      && route.executorId in h.connections && route.id in h.dispatchedOn
      && h.connections[route.executorId].fence == h.dispatchedOn[route.id]
  {
    hide RoutesInv, Remembered, Ordered;
  }

  /** Cross-class liveness: in every reachable state each route's fence is that of the link registered for
      its device, and its executor is on the registry connection the route was registered against. */
  lemma RoutesStayAttached(now: int, es: seq<Event>, c: string)
    requires Follows(Start(now), es) && c in After(Start(now), es).hub.byCommand
    ensures var h := After(Start(now), es).hub;
      var route := h.byCommand[c];
      && route.deviceId in h.desktops.values && h.desktops.values[route.deviceId].fence == route.desktopFence
      && route.executorId in h.connections && route.id in h.dispatchedOn
      && h.connections[route.executorId].fence == h.dispatchedOn[route.id]
  {
    hide Follows, After, Start, Inv;
    RunKeeps(Start(now), es);
    Attached(After(Start(now), es).hub, c);
  }

  lemma ValuesAgree(byCommand: map<string, Route>, byCorrelation: map<string, Route>, pending: map<string, Route>)
    requires Indexed(byCommand, byCorrelation, pending)
    ensures byCommand.Values == byCorrelation.Values && pending.Values <= byCommand.Values
  {
    forall r | r in byCommand.Values ensures r in byCorrelation.Values {
      assert byCorrelation[r.correlationId] == r;
    }
    forall r | r in byCorrelation.Values ensures r in byCommand.Values {
      assert byCommand[r.commandId] == r;
    }
    forall r | r in pending.Values ensures r in byCommand.Values {
      assert byCommand[r.commandId] == r;
    }
  }

  /** The two indexes hold the same routes, pending is a part of them, and every cap holds. */
  lemma IndexesAgree(now: int, es: seq<Event>)
    requires Follows(Start(now), es)
    ensures var h := After(Start(now), es).hub;
      && h.byCommand.Values == h.byCorrelation.Values && h.pending.Values <= h.byCommand.Values
      && |h.desktops.keys| <= 256 && |h.byCommand| <= 1_024 && |h.pending| <= 256
      && forall d :: InFlight(h.byCommand, d) <= 32
  {
    RunKeeps(Start(now), es);
    var h := After(Start(now), es).hub;
    hide Follows, After, Start, InFlight, Answered, Connected, Numbered, Remembered, Indexed;
    ValuesAgree(h.byCommand, h.byCorrelation, h.pending);
  }

  /** No promise is ever resolved twice, and a route addressed by a frame is never found detached. */
  lemma ResolvedAtMostOnce(now: int, es: seq<Event>, id: nat, commandId: Option<string>, correlationId: string)
    requires Follows(Start(now), es)
    ensures var h := After(Start(now), es).hub;
      && (id in h.resolved ==> |h.resolved[id]| <= 1)
      && (Target(h, commandId, correlationId).Some? ==> !Detached(h, Target(h, commandId, correlationId).value))
  {
    RunKeeps(Start(now), es);
    var h := After(Start(now), es).hub;
    hide Follows, After, Start, Indexed, Connected, Numbered, Armed, Awaited, Capped, Remembered, Linked, Target;
    if Target(h, commandId, correlationId).Some? {
      NeverDetached(h, commandId, correlationId);
    }
  }

  lemma {:induction false} RunOwes(w: World, es: seq<Event>)
    requires Inv(w.hub) && Owed(w.hub) && Follows(w, es) && AcceptsFirst(w, es)
    ensures Owed(After(w, es).hub)
    decreases |es|
  {
    hide Inv, Owed, Apply, TooEarly;
    if es != [] {
      StepKeeps(w, es[0]);
      RunOwes(Apply(w, es[0]), es[1..]);
    }
  }

  /** No caller is orphaned: when executors accept before they finish, every unresolved promise has its
      pending entry and an armed timer, and that timer, if nothing comes before it, answers it. */
  lemma NobodyOrphaned(now: int, es: seq<Event>, id: nat)
    requires Follows(Start(now), es) && AcceptsFirst(Start(now), es)
    requires id in After(Start(now), es).hub.resolved && After(Start(now), es).hub.resolved[id] == []
    ensures var h := After(Start(now), es).hub;
      && id in h.timers && Waits(h, h.timers[id].route) && h.timers[id].route.id == id
      && Fire(h, id).resolved[id] == [AcceptTimeout] && id !in Fire(h, id).timers
  {
    RunKeeps(Start(now), es);
    RunOwes(Start(now), es);
    var h := After(Start(now), es).hub;
    hide Follows, After, Start, AcceptsFirst;
    FireAnswers(h, id);
  }
}
