/**
 Runs that use the command limit up: 239 commands in a minute, 120 more for each time the client reopens its
 stream, and so, without a tick of the clock, any number.
 */
module RateWitnesses {
  import opened Wrappers
  import opened JsMaps
  import opened ConnectHub
  import opened ConnectInvariants
  import opened ConnectKeeps
  import opened ConnectRuns
  import opened ConnectWiring
  import opened ConnectStreams
  import opened RateRuns
  import ConnectWitness

  const ACTOR := DesktopAuthority("d", 1)
  const FRAME := Frame("c", "k", "i", "e", "d")

  // ------------------------------------------------------------ runs step by step

  /** The run `es` leads from an empty relay at time 0 to `w`, with streams of their own; in the minute from `lo`
      it admits `admitted` commands of the device and deletes its entry `deleted` times. */
  ghost predicate Reaches(es: seq<Event>, w: World, lo: int, admitted: nat, deleted: nat) {
    && Follows(Start(0), es) && After(Start(0), es) == w && OwnStreams(Start(0), es)
    && AdmittedIn(Start(0), es, "d", lo, lo + 60_000) == admitted && DeletedIn(Start(0), es, "d", lo, lo + 60_000) == deleted
  }

  predicate Within(w: World, lo: int) {
    lo <= w.hub.now < lo + 60_000
  }

  lemma {:induction false} AppendOwn(start: World, es: seq<Event>, e: Event)
    requires Inv(start.hub) && Follows(start, es) && Follows(start, es + [e]) && OwnStreams(start, es) && OwnStream(After(start, es).hub, e)
    ensures OwnStreams(start, es + [e])
    decreases |es|
  {
    hide Inv, Apply, Enabled, OwnStream;
    if es == [] {
      assert (es + [e])[1..] == [];
    } else {
      StepKeeps(start, es[0]);
      assert (es + [e])[1..] == es[1..] + [e];
      AppendOwn(Apply(start, es[0]), es[1..], e);
    }
  }

  lemma {:induction false} AppendAdmitted(start: World, es: seq<Event>, e: Event, lo: int)
    requires Inv(start.hub) && Follows(start, es) && Follows(start, es + [e])
    ensures AdmittedIn(start, es + [e], "d", lo, lo + 60_000)
      == AdmittedIn(start, es, "d", lo, lo + 60_000)
         + if Admits(After(start, es), e, "d") && Within(After(start, es), lo) then 1 else 0
    decreases |es|
  {
    hide Inv, Apply, Enabled, Admits;
    if es == [] {
      assert (es + [e])[1..] == [];
    } else {
      StepKeeps(start, es[0]);
      assert (es + [e])[1..] == es[1..] + [e];
      AppendAdmitted(Apply(start, es[0]), es[1..], e, lo);
    }
  }

  lemma {:induction false} AppendDeleted(start: World, es: seq<Event>, e: Event, lo: int)
    requires Inv(start.hub) && Follows(start, es) && Follows(start, es + [e])
    requires Inv(After(start, es).hub) && Enabled(After(start, es), e)
    ensures DeletedIn(start, es + [e], "d", lo, lo + 60_000)
      == DeletedIn(start, es, "d", lo, lo + 60_000)
         + if Deletes(After(start, es), e, "d") && Within(After(start, es), lo) then 1 else 0
    decreases |es|
  {
    hide Inv, Apply, Enabled, Deletes;
    if es == [] {
      assert (es + [e])[1..] == [];
    } else {
      StepKeeps(start, es[0]);
      assert (es + [e])[1..] == es[1..] + [e];
      AppendDeleted(Apply(start, es[0]), es[1..], e, lo);
    }
  }

  lemma Step(es: seq<Event>, w: World, lo: int, admitted: nat, deleted: nat, e: Event)
    requires Reaches(es, w, lo, admitted, deleted) && Enabled(w, e) && OwnStream(w.hub, e)
    ensures Inv(w.hub)
    ensures Reaches(es + [e], Apply(w, e), lo,
                    admitted + (if Admits(w, e, "d") && Within(w, lo) then 1 else 0),
                    deleted + (if Deletes(w, e, "d") && Within(w, lo) then 1 else 0))
  {
    hide Inv, Apply, Enabled, OwnStream, Admits, Deletes, AdmittedIn, DeletedIn, OwnStreams;
    RunKeeps(Start(0), es);
    ConnectWitness.Append(Start(0), es, e);
    AppendOwn(Start(0), es, e);
    AppendAdmitted(Start(0), es, e, lo);
    AppendDeleted(Start(0), es, e, lo);
  }

  // ------------------------------------------------------------ one device alone

  function Name(n: nat): (fence: string)
    ensures |fence| == n
  {
    seq(n, _ => 'f')
  }

  predicate NoRoutes(h: Hub) {
    h.byCommand == map[] && h.byCorrelation == map[] && h.pending == map[]
  }

  /** The device is the only client, on its stream number `n`; nothing else was ever registered. */
  predicate Alone(h: Hub, n: nat) {
    && h.desktops == JsMap(["d"], map["d" := DesktopLink(Name(n), "d", ACTOR, n)])
    && NoRoutes(h) && h.connections == map[] && h.onClose == map[n := Callback("d", Name(n))]
    && (forall s :: s in h.ended ==> s < n) && (forall f :: f in h.fences ==> |f| <= n)
  }

  /** The commands so far have the numbers below `c`. */
  predicate At(w: World, n: nat, c: nat) {
    Alone(w.hub, n) && forall k :: k in w.commands ==> k < c
  }

  lemma RemoveNone(h: Hub, gone: set<Route>, result: Option<Outcome>)
    requires NoRoutes(h)
    ensures RemoveRoutes(h, gone, result) == h
  {
    assert Released(h.pending, gone) == {};
    assert h.timers - {} == h.timers;
    assert result.Some? ==> Resolve(h.resolved, {}, result.value) == h.resolved;
  }

  lemma EndAlone(h: Hub, n: nat)
    requires Alone(h, n)
    ensures EndSink(h, n) == h.(ended := h.ended + {n}, onClose := map[], desktops := JsMap([], map[]), rates := h.rates - {"d"})
  {
    var marked := h.(ended := h.ended + {n}, onClose := h.onClose - {n});
    assert marked.onClose == map[];
    var cut := marked.(desktops := Delete(h.desktops, "d"), rates := h.rates - {"d"});
    assert cut.desktops == JsMap([], map[]);
    hide RemoveRoutes, DeviceRoutes, Delete;
    RemoveNone(cut, DeviceRoutes(cut.byCommand, "d", Some(Name(n))), Some(Unauthorized));
  }

  lemma ReplaceAlone(h: Hub, n: nat)
    requires Alone(h, n)
    ensures Replace(h, h.desktops.values["d"])
      == h.(ended := h.ended + {n}, onClose := map[], desktops := JsMap([], map[]), rates := h.rates - {"d"})
  {
    hide EndSink, RemoveRoutes, DeviceRoutes;
    EndAlone(h, n);
    var ended := EndSink(h, n);
    RemoveNone(ended, DeviceRoutes(ended.byCommand, "d", Some(Name(n))), Some(Unauthorized));
  }

  lemma OpenAlone(h: Hub, n: nat)
    requires Alone(h, n)
    ensures KeyedByDevice(h.desktops)
    ensures var h' := Watch(OpenLink(h, ACTOR, n + 1, Name(n + 1)), n + 1, "d", Name(n + 1));
      Alone(h', n + 1) && h'.rates == h.rates - {"d"} && h'.now == h.now
  {
    hide Replace, EndSink;
    ReplaceShrinks(h, "d");
    ReplaceAlone(h, n);
    var room := Replace(h, h.desktops.values["d"]);
    hide Alone;
    assert Evict(room) == room;
    NewAlone(h, room, n);
  }

  lemma NewAlone(h: Hub, room: Hub, n: nat)
    requires Alone(h, n)
    requires room == h.(ended := h.ended + {n}, onClose := map[], desktops := JsMap([], map[]), rates := h.rates - {"d"})
    ensures var live := room.(fences := h.fences + {Name(n + 1)},
                              desktops := Set(room.desktops, "d", DesktopLink(Name(n + 1), "d", ACTOR, n + 1)));
      Alone(Watch(live, n + 1, "d", Name(n + 1)), n + 1)
  {
  }

  lemma FirstAlone(h: Hub)
    requires h == EMPTY_HUB
    ensures KeyedByDevice(h.desktops)
    ensures var h' := Watch(OpenLink(h, ACTOR, 0, Name(0)), 0, "d", Name(0)); Alone(h', 0) && h'.now == 0 && h'.rates == map[]
  {
    hide EndSink, Replace, CloseLink;
  }

  /** Reopening is possible, and deletes the entry if there is one. */
  lemma Reopening(w: World, n: nat, c: nat)
    requires Inv(w.hub) && At(w, n, c)
    ensures var e := OpenDesktop(ACTOR, n + 1, Name(n + 1));
      && Enabled(w, e) && OwnStream(w.hub, e) && !Admits(w, e, "d") && (Deletes(w, e, "d") <==> "d" in w.hub.rates)
      && At(Apply(w, e), n + 1, c) && Apply(w, e).hub.now == w.hub.now && "d" !in Apply(w, e).hub.rates
  {
    hide Inv, OpenLink, Watch, KeyedByDevice;
    OpenAlone(w.hub, n);
  }

  /** The client reopens its stream: its entry goes. */
  lemma Reopens(es: seq<Event>, w: World, lo: int, admitted: nat, deleted: nat, n: nat, c: nat) returns (es': seq<Event>, w': World)
    requires Reaches(es, w, lo, admitted, deleted) && At(w, n, c) && Within(w, lo)
    ensures Reaches(es', w', lo, admitted, deleted + if "d" in w.hub.rates then 1 else 0) && At(w', n + 1, c)
    ensures w'.hub.now == w.hub.now && "d" !in w'.hub.rates
    ensures |es'| == |es| + 1 && es' == es + [es'[|es|]] && !es'[|es|].Tick?
  {
    var e := OpenDesktop(ACTOR, n + 1, Name(n + 1));
    hide Reaches, Inv, Apply, Enabled, OwnStream, Admits, Deletes, At;
    ReachesInv(es, w, lo, admitted, deleted);
    Reopening(w, n, c);
    Step(es, w, lo, admitted, deleted, e);
    es', w' := es + [e], Apply(w, e);
  }

  lemma ReachesInv(es: seq<Event>, w: World, lo: int, admitted: nat, deleted: nat)
    requires Reaches(es, w, lo, admitted, deleted)
    ensures Inv(w.hub)
  {
    hide Inv, Follows, After, OwnStreams, AdmittedIn, DeletedIn;
    RunKeeps(Start(0), es);
  }

  /** One more command is admitted, on an entry with room or on a new one. */
  lemma Commands(es: seq<Event>, w: World, lo: int, admitted: nat, deleted: nat, n: nat, c: nat) returns (es': seq<Event>, w': World)
    requires Reaches(es, w, lo, admitted, deleted) && At(w, n, c)
    requires TakeRate(RateOf(w.hub, "d"), w.hub.now).1
    ensures Reaches(es', w', lo, admitted + (if Within(w, lo) then 1 else 0), deleted) && At(w', n, c + 1)
    ensures w'.hub.now == w.hub.now && "d" in w'.hub.rates && w'.hub.rates["d"] == TakeRate(RateOf(w.hub, "d"), w.hub.now).0
    ensures |es'| == |es| + 1 && es' == es + [es'[|es|]] && !es'[|es|].Tick?
  {
    var e := BeginCommand(c, ACTOR, FRAME, None);
    hide Reaches, Inv, TakeRate;
    Step(es, w, lo, admitted, deleted, e);
    AdmitsIsLimiters(w, e, "d");
    es', w' := es + [e], Apply(w, e);
  }

  lemma {:induction false} Burst(es: seq<Event>, w: World, lo: int, admitted: nat, deleted: nat, n: nat, c: nat, k: nat)
    returns (es': seq<Event>, w': World)
    requires Reaches(es, w, lo, admitted, deleted) && At(w, n, c) && Within(w, lo)
    requires "d" in w.hub.rates && w.hub.now - w.hub.rates["d"].windowStartedMs < 60_000 && w.hub.rates["d"].count + k <= 120
    ensures Reaches(es', w', lo, admitted + k, deleted) && At(w', n, c + k) && w'.hub.now == w.hub.now
    ensures "d" in w'.hub.rates && w'.hub.rates["d"] == w.hub.rates["d"].(count := w.hub.rates["d"].count + k)
    decreases k
  {
    hide Reaches, Alone;
    es', w' := es, w;
    if k > 0 {
      es', w' := Commands(es, w, lo, admitted, deleted, n, c);
      es', w' := Burst(es', w', lo, admitted + 1, deleted, n, c + 1, k - 1);
    }
  }

  /** A new window: the first command of an entry that is absent or over, and all that follow it. */
  lemma Windowful(es: seq<Event>, w: World, lo: int, admitted: nat, deleted: nat, n: nat, c: nat) returns (es': seq<Event>, w': World)
    requires Reaches(es, w, lo, admitted, deleted) && At(w, n, c) && Within(w, lo)
    requires "d" in w.hub.rates ==> w.hub.now - w.hub.rates["d"].windowStartedMs >= 60_000
    ensures Reaches(es', w', lo, admitted + 120, deleted) && At(w', n, c + 120) && w'.hub.now == w.hub.now && "d" in w'.hub.rates
  {
    hide Reaches, Alone;
    es', w' := Commands(es, w, lo, admitted, deleted, n, c);
    es', w' := Burst(es', w', lo, admitted + 1, deleted, n, c + 1, 119);
  }

  lemma Ticks(es: seq<Event>, w: World, lo: int, admitted: nat, deleted: nat, n: nat, c: nat, ms: nat) returns (es': seq<Event>, w': World)
    requires Reaches(es, w, lo, admitted, deleted) && At(w, n, c)
    ensures Reaches(es', w', lo, admitted, deleted) && At(w', n, c) && w' == w.(hub := w.hub.(now := w.hub.now + ms))
  {
    hide Reaches, Inv;
    Step(es, w, lo, admitted, deleted, Tick(ms));
    es', w' := es + [Tick(ms)], Apply(w, Tick(ms));
  }

  /** The client opens its first stream. */
  lemma Begins(lo: int) returns (es: seq<Event>, w: World)
    ensures Reaches(es, w, lo, 0, 0) && At(w, 0, 0) && w.hub.now == 0 && w.hub.rates == map[]
    ensures |es| == 1 && !es[0].Tick?
  {
    var e := OpenDesktop(ACTOR, 0, Name(0));
    hide Inv, Reaches, OpenLink, Watch, KeyedByDevice;
    w := Start(0);
    StartReaches(lo);
    FirstAlone(w.hub);
    Step([], w, lo, 0, 0, e);
    es, w := [] + [e], Apply(w, e);
  }

  lemma StartReaches(lo: int)
    ensures Reaches([], Start(0), lo, 0, 0)
  {
  }

  /** The bound is attained: 239 commands in a minute. */
  lemma FullMinute() returns (es: seq<Event>, w: World, c: nat)
    ensures Reaches(es, w, 1, 239, 0) && At(w, 0, c) && w.hub.now == 60_000 && "d" in w.hub.rates
  {
    hide Reaches, Alone;
    es, w := Begins(1);
    es, w := Commands(es, w, 1, 0, 0, 0, 0);
    es, w := Ticks(es, w, 1, 0, 0, 0, 1, 59_999);
    es, w := Burst(es, w, 1, 0, 0, 0, 1, 119);
    es, w := Ticks(es, w, 1, 119, 0, 0, 120, 1);
    es, w := Windowful(es, w, 1, 119, 0, 0, 120);
    c := 240;
  }

  /** And with `m` deletions 120 more for each: the bound is attained whatever their number. */
  lemma {:induction false} ReopenedMinute(m: nat) returns (es: seq<Event>, w: World, n: nat, c: nat)
    ensures Reaches(es, w, 1, 239 + 120 * m, m) && At(w, n, c) && w.hub.now == 60_000 && "d" in w.hub.rates
  {
    hide Reaches, Alone;
    if m == 0 {
      es, w, c := FullMinute();
      n := 0;
    } else {
      es, w, n, c := ReopenedMinute(m - 1);
      es, w := Reopens(es, w, 1, 239 + 120 * (m - 1), m - 1, n, c);
      es, w := Windowful(es, w, 1, 239 + 120 * (m - 1), m, n + 1, c);
      n, c := n + 1, c + 120;
    }
  }

  /** Without a tick of the clock, a client that reopens its stream before each command is admitted any number of
      times. */
  lemma {:induction false} AnyNumberAtOnce(k: nat) returns (es: seq<Event>, w: World, n: nat)
    ensures Reaches(es, w, 0, k, if k == 0 then 0 else k - 1) && At(w, n, k) && w.hub.now == 0
    ensures forall i :: 0 <= i < |es| ==> !es[i].Tick?
    ensures "d" in w.hub.rates <==> k > 0
  {
    hide Reaches, Alone;
    if k == 0 {
      es, w := Begins(0);
      n := 0;
    } else {
      es, w, n := AnyNumberAtOnce(k - 1);
      var before := es;
      es, w := Reopens(es, w, 0, k - 1, if k == 1 then 0 else k - 2, n, k - 1);
      var between := es;
      es, w := Commands(es, w, 0, k - 1, k - 1, n + 1, k - 1);
      n := n + 1;
      forall i | 0 <= i < |es| ensures !es[i].Tick? {
        if i < |before| {
          assert es[i] == between[i] == before[i];
        }
      }
    }
  }
}
