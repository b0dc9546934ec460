/**
 Two runs in which one admit request is queued twice: at the instant it expires, and, long
 before it expires, because two overlapping pruning passes listed the same expired key.
 */
module RelayWitnesses {
  import opened Wrappers
  import opened RelayBatching
  import opened KaziQueryRelay
  import opened RelayReceipts
  import opened RelayRuns
  import opened RelayDuplicates

  const TARGET := Destination("", "", "", "")
  const ENV := Environment(Some(TARGET), true)
  const EARLY := AdmitRequest("early", Record("r", ""), 0, true)
  const LATE := AdmitRequest("late", Record("r", ""), DAY + REPAIR_MS, true)
  const EARLY_KEY := ExpiryKey(DAY, "r")

  lemma EarlyKeyInRange()
    ensures KeyInRange(EARLY_KEY)
  {
    assert Power10(2) == 100;
    assert Power10(4) == 10_000;
    assert Power10(6) == 1_000_000;
    assert Power10(8) == 100_000_000;
    PowerGrows(8, KEY_DIGITS);
  }

  lemma {:induction false} PowerGrows(a: nat, b: nat)
    requires a <= b
    ensures Power10(a) <= Power10(b)
    decreases b - a
  {
    if a < b {
      PowerGrows(a, b - 1);
    }
  }

  /** The body of a record without fields of its own. */
  lemma SmallBody(record: Record, sequence: nat)
    requires record.fields == "" && sequence < 10
    ensures 0 < |RenderBody(record, TARGET, sequence)| <= 200
  {
  }

  /** The run `es` leads from an empty store at time 0 to `w`; `serial` says whether its pruning passes were serial. */
  ghost predicate Leads(es: seq<Event>, w: World, serial: bool) {
    Follows(Start(0), es) && After(Start(0), es) == w && SerialRun(Start(0), es) == serial
  }

  lemma {:induction false} Append(start: World, es: seq<Event>, e: Event)
    requires Inv(start) && Follows(start, es) && Inv(After(start, es)) && Enabled(After(start, es), e)
    ensures Follows(start, es + [e]) && After(start, es + [e]) == Apply(After(start, es), e)
    ensures SerialRun(start, es + [e]) <==> SerialRun(start, es) && SerialStep(After(start, es), e)
    decreases |es|
  {
    hide SerialStep, Apply, Enabled, QueueRepresents, RequestsReplay, SinkHolds, NotStranded, WithinBodyLimit, InflightWithinPending;
    StepKeeps(After(start, es), e);
    if es == [] {
      assert (es + [e])[1..] == [];
    } else {
      StepKeeps(start, es[0]);
      Append(Apply(start, es[0]), es[1..], e);
      assert (es + [e])[1..] == es[1..] + [e];
    }
  }

  lemma LeadsToStart()
    ensures Leads([], Start(0), true)
  {
  }

  /** One more step. */
  lemma Step(es: seq<Event>, w: World, serial: bool, e: Event) returns (es': seq<Event>, w': World)
    requires Leads(es, w, serial) && Enabled(w, e)
    ensures Sound(w.store) && w' == Apply(w, e) && Leads(es', w', serial && SerialStep(w, e))
  {
    RunKeeps(Start(0), es);
    Append(Start(0), es, e);
    es', w' := es + [e], Apply(w, e);
  }

  /** Admitting a small record to a storage with room and without its receipt. */
  lemma Admits(es: seq<Event>, w: World, serial: bool, request: AdmitRequest, id: string) returns (es': seq<Event>, w': World)
    requires Leads(es, w, serial) && id !in w.usedIds
    requires ValidRequest(request, w.now) && |request.text| <= 10 && request.record.fields == ""
    requires request.record.id !in w.store.receipts
    requires RoomAtTarget(w)
    ensures Leads(es', w', serial) && RoomLeft(w, w')
    ensures w'.enqueues == w.enqueues + [Enqueued(request, w.now, w.now)]
    ensures w'.now == w.now && w'.tasks == w.tasks && w'.usedIds == w.usedIds + {id}
    ensures w'.store.receipts == w.store.receipts[request.record.id := Receipt(request.text, Expires(request))]
    ensures w'.store.expiries == w.store.expiries + {ExpiryKey(Expires(request), request.record.id)}
    ensures w.store.queue.None? ==> w'.store.alarm == Some(w.now + COALESCE_MS)
  {
    hide Leads, Inv, Sound;
    es', w' := Step(es, w, serial, AdmitEvent(ENV, request, id, w.now));
    SmallBody(request.record, QueueOr(w.store, TARGET).next);
  }

  predicate RoomAtTarget(w: World) {
    var q := QueueOr(w.store, TARGET);
    q.destination == TARGET && q.blocked.None? && |q.pending| == q.next && q.next < 10
  }

  predicate RoomLeft(w: World, w': World) {
    && RoomAtTarget(w) && w'.store.queue.Some?
    && w'.store.queue.value == QueueOr(w.store, TARGET).(next := QueueOr(w.store, TARGET).next + 1,
         pending := w'.store.queue.value.pending)
    && |w'.store.queue.value.pending| == w'.store.queue.value.next
  }

  /** An alarm handler starts and lists the only key. */
  lemma Lists(es: seq<Event>, w: World, serial: bool, task: nat) returns (es': seq<Event>, w': World)
    requires Leads(es, w, serial) && task !in w.tasks && w.store.alarm.Some? && w.store.alarm.value <= w.now
    requires w.store.expiries == {EARLY_KEY}
    ensures Leads(es', w', serial && SerialStep(w, AlarmFires(task)))
    ensures w' == w.(store := w.store.(alarm := Some(w.now + REPAIR_MS)), tasks := w.tasks[task := Pruning([EARLY_KEY])])
  {
    hide Follows, After, SerialRun, Inv, Sound;
    EarlyKeyInRange();
    es', w' := Step(es, w, serial, AlarmFires(task));
    es', w' := Step(es', w', serial && SerialStep(w, AlarmFires(task)), ListReceipts(task, [EARLY_KEY]));
    assert w'.tasks == w.tasks[task := Pruning([EARLY_KEY])];
  }

  lemma Prunes(es: seq<Event>, w: World, serial: bool, task: nat) returns (es': seq<Event>, w': World)
    requires Leads(es, w, serial) && task in w.tasks && w.tasks[task] == Pruning([EARLY_KEY]) && EARLY_KEY.expires <= w.now
    ensures Leads(es', w', serial)
    ensures w' == w.(store := PruneOne(w.store, EARLY_KEY), tasks := w.tasks[task := Pruning([])])
  {
    hide Follows, After, SerialRun;
    assert [EARLY_KEY][1..] == [];
    es', w' := Step(es, w, serial, PruneNext(task));
  }

  lemma Ticks(es: seq<Event>, w: World, serial: bool, ms: nat) returns (es': seq<Event>, w': World)
    requires Leads(es, w, serial)
    ensures Leads(es', w', serial) && w' == w.(now := w.now + ms)
  {
    hide Follows, After, SerialRun;
    es', w' := Step(es, w, serial, Tick(ms));
  }

  /** The window check and the pruning pass overlap in the instant of expiry. */
  lemma DuplicateAtExpiry() returns (es: seq<Event>, w: World)
    ensures Leads(es, w, true) && w.enqueues == [Enqueued(EARLY, 0, 0), Enqueued(EARLY, Expires(EARLY), Expires(EARLY))]
  {
    hide Leads, Inv, IsListing;
    es, w := [], Start(0);
    LeadsToStart();
    es, w := Admits(es, w, true, EARLY, "p0");
    es, w := Ticks(es, w, true, DAY);
    es, w := Lists(es, w, true, 0);
    es, w := Prunes(es, w, true, 0);
    es, w := Admits(es, w, true, EARLY, "p1");
  }

  /** A run that queues a request twice before its expiry has deleted a live receipt. */
  lemma RepeatsBlame(es: seq<Event>, w: World, i: nat, j: nat)
    requires Leads(es, w, false) && i < j < |w.enqueues| && w.enqueues[i].request == w.enqueues[j].request
    requires w.enqueues[j].at < Expires(w.enqueues[j].request)
    ensures Follows(Start(0), es) && !SparesRun(Start(0), es)
  {
    hide Inv, SparesRun, SerialRun;
    assert After(Start(0), es) == w;
    if SparesRun(Start(0), es) {
      QueuedOnceExceptAtExpiry(0, es);
    }
  }

  /** A second pass that listed the same key deletes the receipt of a later request with that record
      id: the key no longer matches the receipt, which is still live, and the later request is queued
      twice in one instant, a whole day before it expires. */
  lemma DuplicateAfterOverlappingPrunes() returns (es: seq<Event>, w: World)
    ensures Leads(es, w, false) && !SparesRun(Start(0), es)
    ensures w.enqueues == [Enqueued(EARLY, 0, 0), Enqueued(LATE, w.now, w.now), Enqueued(LATE, w.now, w.now)] && w.now + DAY == Expires(LATE)
  {
    hide Leads, Inv, IsListing;
    es, w := [], Start(0);
    LeadsToStart();
    es, w := Admits(es, w, true, EARLY, "p0");
    es, w := Ticks(es, w, true, DAY);
    es, w := Lists(es, w, true, 0);
    es, w := Ticks(es, w, true, REPAIR_MS);
    assert !SerialStep(w, AlarmFires(1)) by { assert w.tasks[0].Pruning?; }
    es, w := Lists(es, w, true, 1);
    es, w := Prunes(es, w, false, 0);
    es, w := Admits(es, w, false, LATE, "p1");
    es, w := Prunes(es, w, false, 1);
    es, w := Admits(es, w, false, LATE, "p2");
    RepeatsBlame(es, w, 1, 2);
  }
}
