/** The order the relay does not survive: a result frame that arrives before its acceptance. */
module ConnectWitness {
  import opened Wrappers
  import opened JsMaps
  import opened ConnectHub
  import opened ConnectInvariants
  import opened ConnectRuns

  const ACTOR := DesktopAuthority("d", 1)
  const FRAME := Frame("c", "k", "i", "e", "d")
  const LINK := DesktopLink("f1", "d", ACTOR, 1)
  const CHANNEL := ExecutorLink("f2", "e", "x", 1, 2, 0)
  const ROUTE := Route(0, "c", "k", "i", "e", "d", "f1", ACTOR)

  ghost predicate Leads(es: seq<Event>, w: World) {
    Follows(Start(0), es) && After(Start(0), es) == w
  }

  lemma {:induction false} Append(start: World, es: seq<Event>, e: Event)
    requires Inv(start.hub) && Follows(start, es) && Inv(After(start, es).hub) && Enabled(After(start, es), e)
    ensures Follows(start, es + [e]) && After(start, es + [e]) == Apply(After(start, es), e)
    decreases |es|
  {
    hide Inv, Apply, Enabled;
    StepKeeps(After(start, es), e);
    if es == [] {
      assert (es + [e])[1..] == [];
    } else {
      StepKeeps(start, es[0]);
      Append(Apply(start, es[0]), es[1..], e);
      assert (es + [e])[1..] == es[1..] + [e];
    }
  }

  lemma Step(es: seq<Event>, w: World, e: Event) returns (es': seq<Event>, w': World)
    requires Leads(es, w) && Enabled(w, e)
    ensures Inv(w.hub) && w' == Apply(w, e) && Leads(es', w')
  {
    hide Inv, Apply, Enabled;
    RunKeeps(Start(0), es);
    Append(Start(0), es, e);
    es', w' := es + [e], Apply(w, e);
  }

  function Opened(): Hub {
    EMPTY_HUB.(desktops := JsMap(["d"], map["d" := LINK]), fences := {"f1"}, onClose := map[1 := Callback("d", "f1")])
  }

  function Connected(): Hub {
    Opened().(connections := map["e" := CHANNEL], fences := {"f1", "f2"})
  }

  function Rated(): Hub {
    Connected().(rates := map["d" := Rate(0, 1)])
  }

  function Dispatched(): Hub {
    Rated().(byCommand := map["c" := ROUTE], byCorrelation := map["k" := ROUTE], pending := map["c" := ROUTE],
             timers := map[0 := Timer(ROUTE, 5_000)], resolved := map[0 := []], dispatchedOn := map[0 := "f2"], nextRoute := 1)
  }

  lemma OpensFirst()
    ensures KeyedByDevice(EMPTY_HUB.desktops) && Watch(OpenLink(EMPTY_HUB, ACTOR, 1, "f1"), 1, "d", "f1") == Opened()
  {
    assert Evict(EMPTY_HUB) == EMPTY_HUB;
  }

  lemma ConnectsSecond()
    ensures OpenExecutor(Opened(), "e", "x", 1, 2, "f2") == Connected()
  {
    assert PruneStale(PruneHellos(Opened())) == Opened();
    assert ReplaceConnection(Opened(), "e") == Opened();
    assert Delete(Opened().stale, "e") == Opened().stale;
  }

  lemma LooksOnline(h: Hub)
    requires h.connections == map["e" := CHANNEL] && h.now == 0
    requires h.stale == JsMap([], map[]) && h.hellos == JsMap([], map[]) && h.ended == {} && h.refusing == {}
    ensures Look(h, "e") == (h, Online) && Dispatch(h, "e") == (h, None)
    ensures Matches(h, "e", ExecutorRow("x", 1)) == (h, true)
  {
    assert PruneHellos(h) == h;
    assert PruneStale(h) == h;
  }

  lemma CommandsThird()
    ensures Begin(Connected(), ACTOR, FRAME, None) == (Rated(), None)
    ensures Finish(Rated(), LINK, FRAME, Usable(ExecutorRow("x", 1)), 0) == (Dispatched(), None)
  {
    LooksOnline(Rated());
    LooksOnline(Dispatched());
    assert Written(Dispatched(), ROUTE) == Dispatched();
    hide Look, Matches, Dispatch, Written;
    assert DeviceRoutes(Rated().byCommand, "d", None) == {};
    assert HasRoom(Rated(), "d", FRAME);
    assert NewRoute(Rated(), LINK, FRAME) == ROUTE;
    assert Insert(Rated(), ROUTE, "f2") == Dispatched();
  }

  /** A desktop connects, an executor connects, a command is dispatched, and its result comes without
      an acceptance: the caller's promise is unresolved and nothing is left that could resolve it. */
  lemma ResultBeforeAcceptance() returns (es: seq<Event>, w: World)
    ensures Leads(es, w)
    ensures w.hub.resolved == map[0 := []] && w.hub.pending == map[] && w.hub.timers == map[] && w.commands == map[]
  {
    hide Leads, Inv, OpenLink, Watch, OpenExecutor, Begin, Finish, Output, KeyedByDevice;
    es, w := [], Start(0);
    assert Leads(es, w) by { StartLeads(); }
    OpensFirst();
    es, w := Step(es, w, OpenDesktop(ACTOR, 1, "f1"));
    ConnectsSecond();
    es, w := Step(es, w, OpensExecutor("e", "x", 1, 2, "f2"));
    CommandsThird();
    es, w := Step(es, w, BeginCommand(0, ACTOR, FRAME, None));
    es, w := Step(es, w, FinishCommand(0, Usable(ExecutorRow("x", 1)), 0));
    ResultLast();
    es, w := Step(es, w, Produce("e", Some("c"), "k", true));
  }

  lemma ResultLast()
    ensures var h := Output(Dispatched(), "e", Some("c"), "k", true).0;
      h.resolved == map[0 := []] && h.pending == map[] && h.timers == map[]
  {
    assert ROUTE in {ROUTE} && Dispatched().pending["c"] in {ROUTE};
  }

  lemma StartLeads()
    ensures Leads([], Start(0)) && Start(0) == World(EMPTY_HUB, map[])
  {
  }
}
