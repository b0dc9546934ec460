/**
 The relay in operation: storage transactions of overlapping alarm handlers and requests,
 a network that may delay, repeat or lose requests and replies, crashes that lose every
 handler, and a sink that stores each idempotency key once.
 */
module RelayRuns {
  import opened Wrappers
  import opened RelayBatching
  import opened KaziQueryRelay
  import opened RelayReceipts

  datatype Request = Request(destination: Destination, batch: Batch)

  /** How far one alarm handler has come; every `await` is a boundary between phases. */
  datatype Phase =
    | Armed
    | Pruning(entries: seq<ExpiryKey>)
    | Reading
    | Composing(destination: Destination)
    | Sending(request: Request)

  /** The ingest service: an idempotency key seen before adds nothing. */
  datatype Sink = Sink(seen: set<string>, log: seq<Pending>)

  /** A request that was queued: when its fields were checked, and when its transaction ran. */
  datatype Enqueued = Enqueued(request: AdmitRequest, checkedAt: int, at: int)

  /** `admitted`, `enqueues` and `usedIds` are history: everything ever queued and every id ever drawn. */
  datatype World = World(
    store: Storage, now: int, tasks: map<nat, Phase>, network: set<Request>, sink: Sink,
    admitted: seq<Pending>, enqueues: seq<Enqueued>, usedIds: set<string>)

  datatype Event =
    | Tick(ms: nat)
    | AdmitEvent(env: Environment, request: AdmitRequest, id: string, checkedAt: int)
    | ResumeEvent
    | ReviseEvent(revision: string)
    | AlarmFires(task: nat)
    | ListReceipts(task: nat, listed: seq<ExpiryKey>)
    | PruneNext(task: nat)
    | ReadQueue(task: nat, env: Environment)
    | ComposeEvent(task: nat, id: string)
    | SendEvent(task: nat)
    | SinkReceives(arrived: Request)
    | Reply(task: nat, status: int)
    | Crash

  function End(w: World, task: nat): World {
    w.(tasks := w.tasks - {task})
  }

  function Move(w: World, task: nat, phase: Phase): World {
    w.(tasks := w.tasks[task := phase])
  }

  ghost predicate Enabled(w: World, e: Event) {
    match e
    case Tick(_) => true
    case AdmitEvent(_, _, id, checkedAt) => id !in w.usedIds && checkedAt <= w.now
    case ResumeEvent => true
    case ReviseEvent(_) => true
    case AlarmFires(task) => task !in w.tasks && w.store.alarm.Some? && w.store.alarm.value <= w.now
    case ListReceipts(task, listed) =>
      task in w.tasks && w.tasks[task] == Armed && IsListing(listed, w.store.expiries, LIST_LIMIT)
    case PruneNext(task) => task in w.tasks && w.tasks[task].Pruning?
    case ReadQueue(task, _) => task in w.tasks && w.tasks[task] == Reading
    case ComposeEvent(task, id) => task in w.tasks && w.tasks[task].Composing? && id !in w.usedIds
    case SendEvent(task) => task in w.tasks && w.tasks[task].Sending?
    case SinkReceives(arrived) => arrived in w.network
    case Reply(task, status) =>
      && task in w.tasks && w.tasks[task].Sending?
      && (status == 202 ==> w.tasks[task].request.batch.id in w.sink.seen) // the sink says 202 only for what it holds
    case Crash => true
  }

  function AdmitWorld(w: World, env: Environment, request: AdmitRequest, id: string, checkedAt: int): World {
    var drawn := w.(store := Admit(w.store, env, request, id, checkedAt, w.now), usedIds := w.usedIds + {id});
    if AdmitStatus(w.store, env, request, checkedAt) == 202 && request.record.id !in w.store.receipts then
      drawn.(admitted := w.admitted + [NextItem(QueueOr(w.store, env.config.value), request, id)],
             enqueues := w.enqueues + [Enqueued(request, checkedAt, w.now)])
    else drawn
  }

  function Receive(sink: Sink, batch: Batch): Sink {
    if batch.id in sink.seen then sink else Sink(sink.seen + {batch.id}, sink.log + batch.records)
  }

  ghost function Apply(w: World, e: Event): World
    requires Sound(w.store) && Enabled(w, e)
  {
    match e
    case Tick(ms) => w.(now := w.now + ms)
    case AdmitEvent(env, request, id, checkedAt) => AdmitWorld(w, env, request, id, checkedAt)
    case ResumeEvent => w.(store := Resume(w.store, w.now))
    case ReviseEvent(revision) => w.(store := Revise(w.store, revision, w.now))
    case AlarmFires(task) => Move(w.(store := w.store.(alarm := Some(w.now + REPAIR_MS))), task, Armed)
    case ListReceipts(task, listed) => Move(w, task, Pruning(listed))
    case PruneNext(task) =>
      var entries := w.tasks[task].entries;
      if entries == [] || entries[0].expires > w.now then Move(w, task, Reading)
      else Move(w.(store := PruneOne(w.store, entries[0])), task, Pruning(entries[1..]))
    case ReadQueue(task, env) =>
      if Deliverable(w.store, env) then Move(w, task, Composing(env.config.value)) else End(w, task)
    case ComposeEvent(task, id) =>
      var (store, batch) := Compose(w.store, id, w.now);
      var next := w.(store := store, usedIds := w.usedIds + {id});
      if batch.None? then End(next, task)
      else Move(next, task, Sending(Request(w.tasks[task].destination, batch.value)))
    case SendEvent(task) => w.(network := w.network + {w.tasks[task].request})
    case SinkReceives(arrived) => w.(sink := Receive(w.sink, arrived.batch))
    case Reply(task, status) =>
      End(w.(store := Commit(w.store, w.tasks[task].request.batch.id, status, w.now)), task)
    case Crash => w.(tasks := map[])
  }

  predicate Sound(st: Storage) {
    WithinBodyLimit(st) && InflightWithinPending(st)
  }

  // ------------------------------------------------------------ what every step keeps

  /** The queue is the tail of everything admitted, numbered without gaps. */
  ghost predicate QueueRepresents(w: World) {
    && (forall i :: 0 <= i < |w.admitted| ==> w.admitted[i].sequence == i && |w.admitted[i].body| <= MAX_BODY_BYTES)
    && (w.store.queue.None? ==> w.admitted == [])
    && (w.store.queue.Some? ==>
          var q := w.store.queue.value;
          && q.next == |w.admitted|
          && |q.pending| <= MAX_PENDING
          && |q.pending| <= q.next
          && q.pending == w.admitted[q.next - |q.pending|..]
          && q.failures <= MAX_FAILURES)
    && InflightWithinPending(w.store)
  }

  /** How many admitted records the sink must hold: those taken off the queue, and the in-flight
      batch once the sink has seen its id. */
  function Delivered(w: World): int {
    if w.store.queue.None? then 0
    else
      var q := w.store.queue.value;
      q.next - |q.pending|
      + (if q.inflight.Some? && q.inflight.value.id in w.sink.seen then q.inflight.value.count else 0)
  }

  ghost predicate IsInflight(w: World, batch: Batch) {
    && Awaits(w.store, batch.id)
    && w.store.queue.value.inflight.value.count <= |w.store.queue.value.pending|
    && batch.records == w.store.queue.value.pending[..w.store.queue.value.inflight.value.count]
  }

  /** A request some handler holds or the network carries. */
  ghost predicate Known(w: World, request: Request) {
    request in w.network || exists task :: task in w.tasks && w.tasks[task] == Sending(request)
  }

  ghost predicate RequestsReplay(w: World) {
    && (forall r :: Known(w, r) ==>
          && r.batch.id in w.usedIds
          && w.store.queue.Some? && r.destination == w.store.queue.value.destination
          && (IsInflight(w, r.batch) || (r.batch.id in w.sink.seen && !Awaits(w.store, r.batch.id))))
    && (forall r1, r2 :: Known(w, r1) && Known(w, r2) && r1.batch.id == r2.batch.id ==> r1 == r2)
    && (forall task :: task in w.tasks && w.tasks[task].Composing? ==>
          w.store.queue.Some? && w.tasks[task].destination == w.store.queue.value.destination)
  }

  ghost predicate SinkHolds(w: World) {
    && w.sink.seen <= w.usedIds
    && (w.store.queue.Some? && w.store.queue.value.inflight.Some? ==> w.store.queue.value.inflight.value.id in w.usedIds)
    && 0 <= Delivered(w) <= |w.admitted|
    && w.sink.log == w.admitted[..Delivered(w)]
  }

  /** Pending records never wait without an alarm, and never more than an hour for one. */
  predicate NotStranded(w: World) {
    w.store.queue.Some? && |w.store.queue.value.pending| > 0 ==>
      w.store.alarm.Some? && w.store.alarm.value <= w.now + MAX_BACKOFF_MS
  }

  ghost predicate Inv(w: World) {
    Sound(w.store) && QueueRepresents(w) && RequestsReplay(w) && SinkHolds(w) && NotStranded(w)
  }

  /** The parts of the queue that delivery depends on. */
  predicate SameQueue(st: Storage, st': Storage) {
    && st.queue.Some? == st'.queue.Some?
    && (st.queue.Some? ==>
          && st'.queue.value.destination == st.queue.value.destination
          && st'.queue.value.next == st.queue.value.next
          && st'.queue.value.pending == st.queue.value.pending
          && st'.queue.value.inflight == st.queue.value.inflight
          && st'.queue.value.failures <= MAX_FAILURES)
  }

  /** A step that leaves queue, network and sink alone keeps the delivery invariants. */
  lemma QuietKeeps(w: World, w': World)
    requires Inv(w)
    requires SameQueue(w.store, w'.store) && w'.network == w.network && w'.sink == w.sink && w'.admitted == w.admitted
    requires w.usedIds <= w'.usedIds
    requires forall task :: task in w'.tasks && w'.tasks[task].Sending? ==> task in w.tasks && w'.tasks[task] == w.tasks[task]
    requires forall task :: task in w'.tasks && w'.tasks[task].Composing? ==>
      (task in w.tasks && w'.tasks[task] == w.tasks[task])
      || (w'.store.queue.Some? && w'.tasks[task].destination == w'.store.queue.value.destination)
    requires NotStranded(w')
    ensures Inv(w')
  {
    forall r | Known(w', r) ensures Known(w, r) {
    }
    assert forall r :: Known(w', r) ==> IsInflight(w', r.batch) == IsInflight(w, r.batch);
    assert Delivered(w') == Delivered(w);
  }

  lemma AdmitKeeps(w: World, env: Environment, request: AdmitRequest, id: string, checkedAt: int)
    requires Inv(w) && id !in w.usedIds
    ensures Inv(AdmitWorld(w, env, request, id, checkedAt))
  {
    hide AdmitStatus, RenderBody;
    var w' := AdmitWorld(w, env, request, id, checkedAt);
    if AdmitStatus(w.store, env, request, checkedAt) == 202 && request.record.id !in w.store.receipts {
      EnqueueKeeps(w, w', NextItem(QueueOr(w.store, env.config.value), request, id));
    } else {
      QuietKeeps(w, w');
    }
  }

  /** `w'` is `w` with one more record admitted and queued. */
  ghost predicate Enqueues(w: World, w': World, item: Pending) {
    && w'.store.queue.Some?
    && w'.network == w.network && w'.sink == w.sink && w'.tasks == w.tasks && w.usedIds <= w'.usedIds
    && w'.admitted == w.admitted + [item] && item.sequence == |w.admitted| && |item.body| <= MAX_BODY_BYTES
    && var q := QueueOr(w.store, w'.store.queue.value.destination);
    && |q.pending| < MAX_PENDING && w'.store.queue == Some(q.(next := q.next + 1, pending := q.pending + [item]))
  }

  lemma EnqueueKeepsQueue(w: World, w': World, item: Pending)
    requires Inv(w) && Enqueues(w, w', item)
    ensures Sound(w'.store) && QueueRepresents(w')
  {
    hide RequestsReplay, SinkHolds, NotStranded;
    var q, q' := QueueOr(w.store, w'.store.queue.value.destination), w'.store.queue.value;
    AppendAdmissible(q.pending, item);
    assert w'.admitted[q'.next - |q'.pending|..] == q'.pending;
  }

  /** Appending the next record leaves the in-flight prefix, and so every known request, as it was. */
  lemma EnqueueKeepsRequests(w: World, w': World, item: Pending)
    requires InflightWithinPending(w.store) && RequestsReplay(w) && Enqueues(w, w', item)
    ensures RequestsReplay(w')
  {
    var q, q' := QueueOr(w.store, w'.store.queue.value.destination), w'.store.queue.value;
    if q.inflight.Some? {
      assert q'.pending[..q.inflight.value.count] == q.pending[..q.inflight.value.count];
    }
    assert forall r :: Known(w', r) ==> Known(w, r);
    assert forall r :: Known(w', r) ==> IsInflight(w', r.batch) == IsInflight(w, r.batch);
  }

  lemma EnqueueKeepsSink(w: World, w': World, item: Pending)
    requires QueueRepresents(w) && SinkHolds(w) && Enqueues(w, w', item)
    ensures SinkHolds(w')
  {
    assert Delivered(w') == Delivered(w);
    assert w'.admitted[..Delivered(w)] == w.admitted[..Delivered(w)];
  }

  lemma EnqueueKeeps(w: World, w': World, item: Pending)
    requires Inv(w) && Enqueues(w, w', item) && NotStranded(w')
    ensures Inv(w')
  {
    hide QueueRepresents, RequestsReplay, SinkHolds, Enqueues, NotStranded, WithinBodyLimit;
    EnqueueKeepsQueue(w, w', item);
    EnqueueKeepsRequests(w, w', item);
    EnqueueKeepsSink(w, w', item);
  }

  lemma ComposeKeeps(w: World, task: nat, id: string)
    requires Inv(w) && Enabled(w, ComposeEvent(task, id))
    ensures Inv(Apply(w, ComposeEvent(task, id)))
  {
    var w' := Apply(w, ComposeEvent(task, id));
    forall r | Known(w', r) ensures Known(w, r) || w'.tasks[task] == Sending(r) {
    }
  }

  lemma SendKeeps(w: World, task: nat)
    requires Inv(w) && Enabled(w, SendEvent(task))
    ensures Inv(Apply(w, SendEvent(task)))
  {
    var w' := Apply(w, SendEvent(task));
    assert Known(w, w.tasks[task].request);
    assert forall r :: Known(w', r) ==> Known(w, r);
  }

  lemma ReceiveKeeps(w: World, arrived: Request)
    requires Inv(w) && arrived in w.network
    ensures Inv(Apply(w, SinkReceives(arrived)))
  {
    var w' := Apply(w, SinkReceives(arrived));
    assert Known(w, arrived);
    assert forall r :: Known(w', r) ==> Known(w, r);
    if arrived.batch.id !in w.sink.seen {
      var q := w.store.queue.value;
      var done := q.next - |q.pending|;
      assert w.admitted[..done + q.inflight.value.count] == w.admitted[..done] + q.pending[..q.inflight.value.count];
    }
  }

  lemma ReplyKeeps(w: World, task: nat, status: int)
    requires Inv(w) && Enabled(w, Reply(task, status))
    ensures Inv(Apply(w, Reply(task, status)))
  {
    var w' := Apply(w, Reply(task, status));
    var request := w.tasks[task].request;
    assert Known(w, request);
    assert forall r :: Known(w', r) ==> Known(w, r);
    if Awaits(w.store, request.batch.id) {
      var q := w.store.queue.value;
      if status == 202 {
        SuffixAdmissible(q.pending, q.inflight.value.count);
      }
    }
  }

  lemma RestartKeeps(w: World, e: Event)
    requires Inv(w) && Enabled(w, e) && (e.Tick? || e.ResumeEvent? || e.ReviseEvent?)
    ensures Inv(Apply(w, e))
  {
    QuietKeeps(w, Apply(w, e));
  }

  lemma HandlerKeeps(w: World, e: Event)
    requires Inv(w) && Enabled(w, e)
    requires e.AlarmFires? || e.ListReceipts? || e.PruneNext? || e.ReadQueue? || e.Crash?
    ensures Inv(Apply(w, e))
  {
    QuietKeeps(w, Apply(w, e));
  }

  lemma StepKeeps(w: World, e: Event)
    requires Inv(w) && Enabled(w, e)
    ensures Inv(Apply(w, e))
  {
    hide Inv;
    match e
    case AdmitEvent(env, request, id, checkedAt) => AdmitKeeps(w, env, request, id, checkedAt);
    case ComposeEvent(task, id) => ComposeKeeps(w, task, id);
    case SendEvent(task) => SendKeeps(w, task);
    case SinkReceives(arrived) => ReceiveKeeps(w, arrived);
    case Reply(task, status) => ReplyKeeps(w, task, status);
    case Tick(_) => RestartKeeps(w, e);
    case ResumeEvent => RestartKeeps(w, e);
    case ReviseEvent(_) => RestartKeeps(w, e);
    case _ => HandlerKeeps(w, e);
  }

  // ------------------------------------------------------------ whole runs

  ghost function Start(now: nat): (w: World)
    ensures Inv(w)
  {
    World(EMPTY_STORAGE, now, map[], {}, Sink({}, []), [], [], {})
  }

  ghost predicate Follows(w: World, es: seq<Event>)
    requires Inv(w)
    decreases |es|
  {
    es == [] || (Enabled(w, es[0]) && (StepKeeps(w, es[0]); Follows(Apply(w, es[0]), es[1..])))
  }

  ghost function After(w: World, es: seq<Event>): World
    requires Inv(w) && Follows(w, es)
    decreases |es|
  {
    if es == [] then w else StepKeeps(w, es[0]); After(Apply(w, es[0]), es[1..])
  }

  lemma {:induction false} RunKeeps(w: World, es: seq<Event>)
    requires Inv(w) && Follows(w, es)
    ensures Inv(After(w, es))
    decreases |es|
  {
    assert Sound(w.store);
    hide Inv, Apply, Enabled;
    if es != [] {
      StepKeeps(w, es[0]);
      RunKeeps(Apply(w, es[0]), es[1..]);
    }
  }

  /** Exactly once, in order: whatever the network, the alarms and the crashes did, the sink holds a
      prefix of the admitted records, without gap, repetition or exchange: those taken off the queue,
      and the in-flight batch if the sink has committed it. */
  lemma ExactlyOnceInOrder(now: nat, es: seq<Event>)
    requires Follows(Start(now), es)
    ensures var w := After(Start(now), es);
      && w.sink.log <= w.admitted
      && (forall i :: 0 <= i < |w.sink.log| ==> w.sink.log[i].sequence == i)
      && (w.store.queue.Some? ==>
            var q := w.store.queue.value;
            var done := q.next - |q.pending|;
            |w.sink.log| == done || (q.inflight.Some? && |w.sink.log| == done + q.inflight.value.count))
      && (w.store.queue.None? ==> w.sink.log == [])
  {
    RunKeeps(Start(now), es);
  }

  /** Exact replay: all requests ever sent under one id are the same, for the queue's own destination,
      and pending records are numbered up to `next` with the in-flight batch a non-empty prefix. */
  lemma SendsReplayExactly(now: nat, es: seq<Event>, r1: Request, r2: Request)
    requires Follows(Start(now), es)
    requires var w := After(Start(now), es); r1 in w.network && r2 in w.network
    ensures r1.batch.id == r2.batch.id ==> r1 == r2
    ensures var q := After(Start(now), es).store.queue;
      && q.Some? && r1.destination == q.value.destination
      && (forall i :: 0 <= i < |q.value.pending| ==> q.value.pending[i].sequence == q.value.next - |q.value.pending| + i)
      && (q.value.inflight.Some? ==> 1 <= q.value.inflight.value.count <= |q.value.pending|)
  {
    RunKeeps(Start(now), es);
    var w := After(Start(now), es);
    assert Known(w, r1) && Known(w, r2);
  }

  /** No record is stranded: an alarm is armed within the hour whenever records are pending. */
  lemma NoRecordStranded(now: nat, es: seq<Event>)
    requires Follows(Start(now), es)
    ensures var w := After(Start(now), es);
      w.store.queue.Some? && w.store.queue.value.pending != [] ==>
        w.store.alarm.Some? && w.store.alarm.value <= w.now + 3_600_000
  {
    RunKeeps(Start(now), es);
  }

  // ------------------------------------------------------------ backoff

  lemma {:induction false} BackoffGrows(f: nat, g: nat)
    requires f <= g
    ensures Backoff(f) <= Backoff(g) <= MAX_BACKOFF_MS && Pow2(f) <= Pow2(g)
    decreases g - f
  {
    if f < g {
      BackoffGrows(f, g - 1);
    }
  }

  function Failures(st: Storage): nat {
    if st.queue.Some? then st.queue.value.failures else 0
  }

  /** A step that starts the count of failures afresh: a resume of a stored queue, a revision that is new and finds
      an unblocked queue with records, or the acceptance of the batch in flight. */
  predicate Restarts(w: World, e: Event) {
    match e
    case ResumeEvent => w.store.queue.Some?
    case ReviseEvent(revision) =>
      && w.store.retryRevision != Some(revision)
      && w.store.queue.Some? && w.store.queue.value.pending != [] && w.store.queue.value.blocked.None?
    case Reply(task, status) =>
      && task in w.tasks && w.tasks[task].Sending?
      && status == 202 && Awaits(w.store, w.tasks[task].request.batch.id)
    case _ => false
  }

  lemma AdmitKeepsFailures(st: Storage, env: Environment, request: AdmitRequest, id: string, checkedAt: int, now: int)
    ensures Failures(Admit(st, env, request, id, checkedAt, now)) == Failures(st)
  {
    hide AdmitStatus, RenderBody;
  }

  lemma ComposeKeepsFailures(st: Storage, id: string, now: int)
    requires WithinBodyLimit(st)
    ensures Failures(Compose(st, id, now).0) == Failures(st)
  {
    hide Composed;
  }

  lemma CommitCountsFailure(st: Storage, id: string, status: int, now: int)
    requires InflightWithinPending(st) && Failures(st) <= MAX_FAILURES
    ensures Failures(Commit(st, id, status, now)) ==
      if !Awaits(st, id) then Failures(st)
      else if status == 202 then 0
      else if Failures(st) < MAX_FAILURES then Failures(st) + 1 else MAX_FAILURES
  {
  }

  /** A step lowers the count of failures exactly if it starts it afresh and there were any. */
  lemma FailuresFallExactly(w: World, e: Event)
    requires Inv(w) && Enabled(w, e)
    ensures Failures(Apply(w, e).store) < Failures(w.store) <==> Restarts(w, e) && Failures(w.store) > 0
  {
    assert Sound(w.store) && Failures(w.store) <= MAX_FAILURES;
    hide Inv, Sound, Compose, Commit, Admit, Deliverable, Awaits;
    match e
    case AdmitEvent(env, request, id, checkedAt) => AdmitKeepsFailures(w.store, env, request, id, checkedAt, w.now);
    case ComposeEvent(_, id) => ComposeKeepsFailures(w.store, id, w.now);
    case Reply(task, status) => CommitCountsFailure(w.store, w.tasks[task].request.batch.id, status, w.now);
    case _ =>
  }

  /** No step of the run starts the count afresh. */
  ghost predicate NeverRestarts(w: World, es: seq<Event>)
    requires Inv(w) && Follows(w, es)
    decreases |es|
  {
    es == [] || (!Restarts(w, es[0]) && (StepKeeps(w, es[0]); NeverRestarts(Apply(w, es[0]), es[1..])))
  }

  /** As long as no step starts it afresh the failure count and the delay it causes never shrink, whatever else
      happens, and the count stays within twelve. */
  lemma {:induction false} FailuresGrow(w: World, es: seq<Event>)
    requires Inv(w) && Follows(w, es) && NeverRestarts(w, es)
    ensures Failures(w.store) <= Failures(After(w, es).store) <= MAX_FAILURES
    ensures Backoff(Failures(w.store)) <= Backoff(Failures(After(w, es).store))
    decreases |es|
  {
    assert Sound(w.store);
    FailuresBounded(w, es);
    hide Inv, Sound, Apply, Enabled, Restarts;
    if es != [] {
      StepKeeps(w, es[0]);
      FailuresFallExactly(w, es[0]);
      FailuresGrow(Apply(w, es[0]), es[1..]);
    }
    BackoffGrows(Failures(w.store), Failures(After(w, es).store));
  }

  lemma FailuresBounded(w: World, es: seq<Event>)
    requires Inv(w) && Follows(w, es)
    ensures Failures(After(w, es).store) <= MAX_FAILURES
  {
    RunKeeps(w, es);
    hide Follows, After;
  }

  // ------------------------------------------------------------ draining

  /** Compose a batch, have it accepted, and repeat until the queue is empty: the number of batches. */
  function DrainRounds(st: Storage, id: string): nat
    requires Sound(st) && st.queue.Some? && st.queue.value.inflight.None?
    decreases |st.queue.value.pending|
  {
    if st.queue.value.pending == [] then 0
    else 1 + DrainRounds(Drained(st, id), id)
  }

  function Drained(st: Storage, id: string): (st': Storage)
    requires Sound(st) && st.queue.Some? && st.queue.value.inflight.None? && st.queue.value.pending != []
    ensures Sound(st') && st'.queue.Some? && st'.queue.value.inflight.None?
    ensures st'.queue.value.pending == st.queue.value.pending[Reach(Sizes(st.queue.value.pending), 0)..]
  {
    var (composed, batch) := Compose(st, id, 0);
    SuffixAdmissible(st.queue.value.pending, Reach(Sizes(st.queue.value.pending), 0));
    Commit(composed, id, 202, 0)
  }

  /** A batch is composed from what is pending alone. */
  lemma ReachOfSuffix(sizes: seq<nat>, i: nat)
    requires Admissible(sizes) && i < |sizes|
    ensures Reach(sizes[i..], 0) == Reach(sizes, i) - i
  {
    var n := Reach(sizes[i..], 0);
    assert sizes[i..][0..n] == sizes[i..i + n];
    assert i + n < |sizes| ==> sizes[i..][0..n + 1] == sizes[i..i + n + 1];
    ReachUnique(sizes, i, i + n, Reach(sizes, i));
  }

  lemma {:induction false} DrainIsRounds(st: Storage, id: string, sizes: seq<nat>, i: nat)
    requires Sound(st) && st.queue.Some? && st.queue.value.inflight.None?
    requires Admissible(sizes) && i <= |sizes| && Sizes(st.queue.value.pending) == sizes[i..]
    ensures DrainRounds(st, id) == Rounds(sizes, i)
    decreases |sizes| - i
  {
    if i < |sizes| {
      ReachOfSuffix(sizes, i);
      hide Reach, Commit, Compose;
      assert Sizes(Drained(st, id).queue.value.pending) == sizes[Reach(sizes, i)..];
      DrainIsRounds(Drained(st, id), id, sizes, Reach(sizes, i));
    }
  }

  /** With nothing in flight and nothing arriving, the relay empties its queue in as few requests as
      any in-order split of the pending records within the ingest limits, and one such split attains it. */
  lemma DrainFewestBatches(st: Storage, id: string, ends: seq<nat>)
    requires Sound(st) && st.queue.Some? && st.queue.value.inflight.None?
    requires Partition(Sizes(st.queue.value.pending), 0, ends)
    ensures DrainRounds(st, id) <= |ends|
    ensures exists cuts :: Partition(Sizes(st.queue.value.pending), 0, cuts) && |cuts| == DrainRounds(st, id)
  {
    var sizes := Sizes(st.queue.value.pending);
    assert sizes[0..] == sizes;
    DrainIsRounds(st, id, sizes, 0);
    GreedyOptimal(sizes, 0, ends);
    GreedyAttained(sizes, 0);
  }
}
