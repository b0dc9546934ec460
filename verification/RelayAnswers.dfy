/**
 What each transaction of the relay answers and leaves stored, told from the stored state: which status an admission
 gets and what it means to its caller, when a queue is blocked and unblocked, and when the next attempt is due.
 */
module RelayAnswers {
  import opened Wrappers
  import opened RelayBatching
  import opened KaziQueryRelay
  import opened RelayRuns
  import opened RelayDuplicates

  // ------------------------------------------------------------ admission

  /** The request gets as far as the admission transaction. */
  predicate Reached(env: Environment, request: AdmitRequest, checkedAt: int) {
    env.config.Some? && env.exportEnabled && |request.text| <= 65_536 && ValidRequest(request, checkedAt)
  }

  /** The stored receipt of the record is that of this very text. */
  predicate Receipted(st: Storage, request: AdmitRequest) {
    request.record.id in st.receipts && st.receipts[request.record.id].fingerprint == request.text
  }

  predicate Known(st: Storage, request: AdmitRequest) {
    request.record.id in st.receipts
  }

  /** The queue, if there is one, is for another destination or blocked. */
  predicate Closed(st: Storage, env: Environment) {
    env.config.Some? && st.queue.Some? && (st.queue.value.destination != env.config.value || st.queue.value.blocked.Some?)
  }

  predicate Full(st: Storage) {
    st.queue.Some? && (|st.queue.value.pending| >= 2_000 || st.queue.value.next >= 9_007_199_254_740_991)
  }

  /** The rendered record, its newline apart, is longer than 64 KiB. */
  predicate Oversized(st: Storage, env: Environment, request: AdmitRequest) {
    env.config.Some?
    && |RenderBody(request.record, env.config.value, if st.queue.Some? then st.queue.value.next else 0)| > 65_537
  }

  /** A caller is told that its record is held if and only if it is: afterwards the receipt of the record has this
      very text. A record that is known changes nothing, and another text under its id conflicts. */
  lemma AcceptedMeansHeld(st: Storage, env: Environment, request: AdmitRequest, id: string, checkedAt: int, now: int)
    requires Reached(env, request, checkedAt)
    ensures var (status, st') := (AdmitStatus(st, env, request, checkedAt), Admit(st, env, request, id, checkedAt, now));
      && (status == 202 <==> Receipted(st', request))
      && (Known(st, request) ==> st' == st && status == if Receipted(st, request) then 202 else 409)
      && (!Known(st, request) && status != 202 ==> st' == st)
  {
    hide RenderBody, ValidRequest;
  }

  /** When each other status is given; none of them leaves anything stored. */
  lemma RefusalsExactly(st: Storage, env: Environment, request: AdmitRequest, id: string, checkedAt: int, now: int)
    ensures var status := AdmitStatus(st, env, request, checkedAt);
      && (status == 503 <==> env.config.None? || !env.exportEnabled)
      && (status == 400 <==> env.config.Some? && env.exportEnabled && |request.text| <= 65_536 && !ValidRequest(request, checkedAt))
      && (status == 409 <==>
            Reached(env, request, checkedAt) && if Known(st, request) then !Receipted(st, request) else Closed(st, env))
      && (status == 429 <==> Reached(env, request, checkedAt) && !Known(st, request) && !Closed(st, env) && Full(st))
      && (status == 413 <==>
            env.config.Some? && env.exportEnabled
            && (|request.text| > 65_536
                || (Reached(env, request, checkedAt) && !Known(st, request) && !Closed(st, env) && !Full(st) && Oversized(st, env, request))))
      && status in {202, 400, 409, 413, 429, 503}
      && (status != 202 ==> Admit(st, env, request, id, checkedAt, now) == st)
  {
    hide RenderBody, ValidRequest;
  }

  /** A new record is appended under the next sequence number, with its receipt and expiry key. The first record
      waits a second for others, two hundred are flushed at once. */
  lemma QueuedExactly(st: Storage, env: Environment, request: AdmitRequest, id: string, checkedAt: int, now: int)
    requires AdmitStatus(st, env, request, checkedAt) == 202 && !Known(st, request)
    ensures var st' := Admit(st, env, request, id, checkedAt, now);
      var pending := if st.queue.Some? then st.queue.value.pending else [];
      var next := if st.queue.Some? then st.queue.value.next else 0;
      var inflight := if st.queue.Some? then st.queue.value.inflight else None;
      && st'.queue.Some? && env.config.Some?
      && st'.queue.value.pending == pending + [Pending(id, RenderBody(request.record, env.config.value, next), next)]
      && st'.queue.value.next == next + 1
      && st'.queue.value.destination == env.config.value && st'.queue.value.blocked.None? && st'.queue.value.inflight == inflight
      && st'.receipts == st.receipts[request.record.id := Receipt(request.text, request.admittedAtMs + 86_400_000)]
      && st'.expiries == st.expiries + {ExpiryKey(request.admittedAtMs + 86_400_000, request.record.id)}
      && st'.alarm == (if pending == [] then Some(now + 1_000)
                       else if |pending| + 1 >= 200 && inflight.None? then Some(now) else st.alarm)
  {
    hide RenderBody, ValidRequest;
  }

  /** A request is valid from a day before the clock to five minutes after it, both ends included. */
  lemma WindowExactly(request: AdmitRequest, now: int)
    ensures ValidRequest(request, now) <==>
      && request.wellFormed && request.record.id != "" && |request.record.id| <= 128
      && -9_007_199_254_740_991 <= request.admittedAtMs <= 9_007_199_254_740_991
      && now - 86_400_000 <= request.admittedAtMs <= now + 300_000
  {
  }

  lemma {:induction false} DecimalInjective(m: nat, n: nat)
    requires Decimal(m) == Decimal(n)
    ensures m == n
    decreases m + n
  {
    DecimalLength(m);
    DecimalLength(n);
    assert Decimal(m)[|Decimal(m)| - 1] == DIGITS[m % 10] && Decimal(n)[|Decimal(n)| - 1] == DIGITS[n % 10];
    assert m % 10 == n % 10;
    if m >= 10 {
      assert Decimal(m)[..|Decimal(m)| - 1] == Decimal(m / 10);
      assert Decimal(n)[..|Decimal(n)| - 1] == Decimal(n / 10);
      DecimalInjective(m / 10, n / 10);
    }
  }

  lemma {:induction false} DecimalLength(n: nat)
    ensures |Decimal(n)| >= 1 && (|Decimal(n)| >= 2 <==> n >= 10)
  {
    if n >= 10 {
      DecimalLength(n / 10);
    }
  }

  /** The stored text of a record tells its sequence number. */
  lemma BodyTellsSequence(record: Record, destination: Destination, m: nat, n: nat)
    requires RenderBody(record, destination, m) == RenderBody(record, destination, n)
    ensures m == n
  {
    hide Text;
    var before := "{" + record.fields + ",\"schemaVersion\":1,\"service\":\"kazibee\",\"environment\":\"dev\","
      + Text("producerId", destination.producer) + "," + Text("producerEpoch", destination.epoch) + ",\"sequence\":";
    var a, b := RenderBody(record, destination, m), RenderBody(record, destination, n);
    assert a == before + Decimal(m) + "}\n" && b == before + Decimal(n) + "}\n";
    assert Decimal(m) == a[|before|..|a| - 2] && Decimal(n) == b[|before|..|b| - 2];
    DecimalInjective(m, n);
  }

  ghost predicate Holds(text: string, part: string) {
    exists before, after :: Splits(text, before, part, after)
  }

  ghost predicate Splits(text: string, before: string, part: string, after: string) {
    text == before + part + after
  }

  lemma BodyParts(record: Record, d: Destination, n: nat) returns (head: string, middle: string)
    ensures RenderBody(record, d, n) ==
      head + Text("producerId", d.producer) + "," + Text("producerEpoch", d.epoch) + middle + Decimal(n) + "}\n"
    ensures "{" + record.fields <= head
  {
    hide Text;
    head := "{" + record.fields + ",\"schemaVersion\":1,\"service\":\"kazibee\",\"environment\":\"dev\",";
    middle := ",\"sequence\":";
  }

  /** The stored text begins with the record's own fields and ends with the sequence number, and has the producer
      and the epoch under their names. */
  lemma BodyNames(record: Record, d: Destination, n: nat)
    ensures var body := RenderBody(record, d, n);
      && "{" + record.fields <= body && Holds(body, Text("producerId", d.producer)) && Holds(body, Text("producerEpoch", d.epoch))
      && exists before :: Splits(body, before, Decimal(n), "}\n")
  {
    hide RenderBody, Text, Decimal;
    var body := RenderBody(record, d, n);
    var head, middle := BodyParts(record, d, n);
    var producer, epoch := Text("producerId", d.producer), Text("producerEpoch", d.epoch);
    assert Splits(body, head, producer, "," + epoch + middle + Decimal(n) + "}\n");
    assert Splits(body, head + producer + ",", epoch, middle + Decimal(n) + "}\n");
    assert Splits(body, head + producer + "," + epoch + middle, Decimal(n), "}\n");
  }

  /** As long as no live receipt is deleted, a request that was queued is confirmed whenever it is sent again
      before it expires, any other text under its record id is told of the conflict, and neither changes anything. */
  lemma RepetitionsConfirmed(now: nat, es: seq<Event>, i: nat, env: Environment, request: AdmitRequest, id: string, checkedAt: int)
    requires Follows(Start(now), es) && SparesRun(Start(now), es) && i < |After(Start(now), es).enqueues|
    requires var w := After(Start(now), es);
      && w.now < Expires(w.enqueues[i].request) && request.record.id == w.enqueues[i].request.record.id
      && Reached(env, request, checkedAt)
    ensures var w := After(Start(now), es);
      && AdmitStatus(w.store, env, request, checkedAt) == (if request.text == w.enqueues[i].request.text then 202 else 409)
      && Admit(w.store, env, request, id, checkedAt, w.now) == w.store
  {
    hide Inv, Follows, After, SparesRun, Reached, ValidRequest;
    ProtectedExactly(Start(now), es);
    var w := After(Start(now), es);
    assert Guarded(w, w.enqueues[i]);
    hide Protected, Start;
    AcceptedMeansHeld(w.store, env, request, id, checkedAt, w.now);
  }

  // ------------------------------------------------------------ what arrives

  /** Every record that was queued is its request's own, rendered for the queue's destination under its number. */
  ghost predicate Rendered(w: World) {
    && |w.enqueues| == |w.admitted| && (w.admitted != [] ==> w.store.queue.Some?)
    && forall i :: 0 <= i < |w.admitted| ==>
         w.admitted[i].sequence == i
         && w.admitted[i].body == RenderBody(w.enqueues[i].request.record, w.store.queue.value.destination, i)
  }

  /** No step changes the destination of a queue. */
  lemma StepDestination(w: World, e: Event)
    requires Inv(w) && Enabled(w, e) && w.store.queue.Some?
    ensures Apply(w, e).store.queue.Some? && Apply(w, e).store.queue.value.destination == w.store.queue.value.destination
  {
    hide QueueRepresents, RequestsReplay, SinkHolds, NotStranded, WithinBodyLimit, RenderBody, AdmitStatus, Composed;
  }

  lemma StepRendered(w: World, e: Event)
    requires Inv(w) && Enabled(w, e) && Rendered(w)
    ensures Rendered(Apply(w, e))
  {
    if e.AdmitEvent? {
      AdmitRendered(w, e.env, e.request, e.id, e.checkedAt);
    } else {
      hide QueueRepresents, RequestsReplay, SinkHolds, NotStranded, RenderBody;
      if w.store.queue.Some? {
        StepDestination(w, e);
      }
      NothingQueued(w, e);
      hide Apply, Enabled;
    }
  }

  lemma NothingQueued(w: World, e: Event)
    requires Inv(w) && Enabled(w, e) && !e.AdmitEvent?
    ensures Apply(w, e).admitted == w.admitted && Apply(w, e).enqueues == w.enqueues
  {
    hide QueueRepresents, RequestsReplay, SinkHolds, NotStranded, Compose, Commit, PruneOne, Resume, Revise;
  }

  lemma AdmitRendered(w: World, env: Environment, request: AdmitRequest, id: string, checkedAt: int)
    requires Inv(w) && Rendered(w)
    ensures Rendered(AdmitWorld(w, env, request, id, checkedAt))
  {
    hide RequestsReplay, SinkHolds, NotStranded, RenderBody, ValidRequest;
    var w' := AdmitWorld(w, env, request, id, checkedAt);
    if w'.admitted != w.admitted {
      QueuedExactly(w.store, env, request, id, checkedAt, w.now);
    }
  }

  lemma {:induction false} RunRendered(w: World, es: seq<Event>)
    requires Inv(w) && Follows(w, es) && Rendered(w)
    ensures Rendered(After(w, es))
    decreases |es|
  {
    assert Sound(w.store);
    hide Inv, Sound, Apply, Enabled, Rendered;
    if es != [] {
      StepKeeps(w, es[0]);
      StepRendered(w, es[0]);
      RunRendered(Apply(w, es[0]), es[1..]);
    }
  }

  /** In every run the sink's log is the records of the first requests that were queued, one each, in the order in
      which they were, rendered under consecutive numbers for one destination. */
  lemma SinkHoldsRequests(now: nat, es: seq<Event>, k: nat)
    requires Follows(Start(now), es) && k < |After(Start(now), es).sink.log|
    ensures var w := After(Start(now), es);
      && w.store.queue.Some? && k < |w.enqueues|
      && w.sink.log[k].sequence == k
      && w.sink.log[k].body == RenderBody(w.enqueues[k].request.record, w.store.queue.value.destination, k)
  {
    hide Inv, Follows, After, RenderBody;
    RunRendered(Start(now), es);
    ExactlyOnceInOrder(now, es);
    hide Start;
  }

  // ------------------------------------------------------------ resuming

  /** The queue but for the named fields. */
  predicate SameRecords(q: RelayQueue, q': RelayQueue) {
    q'.destination == q.destination && q'.next == q.next && q'.pending == q.pending && q'.inflight == q.inflight
  }

  /** A resume unblocks the queue and starts it afresh within a second: its records are delivered again if the
      destination is still the configured one. */
  lemma ResumeUnblocks(st: Storage, env: Environment, now: int)
    ensures var st' := Resume(st, now);
      && st'.receipts == st.receipts && st'.expiries == st.expiries && st'.retryRevision == st.retryRevision
      && (st.queue.None? ==> st' == st)
      && (st.queue.Some? ==>
            && st'.queue.Some? && SameRecords(st.queue.value, st'.queue.value)
            && st'.queue.value.blocked.None? && st'.queue.value.failures == 0 && st'.alarm == Some(now + 1_000)
            && (Deliverable(st', env) <==> st.queue.value.pending != [] && env.config == Some(st.queue.value.destination)))
  {
  }

  /** A revision is remembered, and acts once: on an unblocked queue with records, which it starts afresh within a
      second. It never unblocks. */
  lemma RevisionActsOnce(st: Storage, revision: string, now: int)
    ensures var st' := Revise(st, revision, now);
      && st'.retryRevision == Some(revision) && st'.receipts == st.receipts && st'.expiries == st.expiries
      && Revise(st', revision, now) == st'
      && (st.retryRevision == Some(revision) ==> st' == st)
      && (st'.queue.Some? <==> st.queue.Some?)
      && (st.queue.Some? ==> SameRecords(st.queue.value, st'.queue.value) && st'.queue.value.blocked == st.queue.value.blocked)
      && (st.queue.Some? && st.retryRevision != Some(revision) && st.queue.value.blocked.None? && st.queue.value.pending != [] ==>
            st'.queue.value.failures == 0 && st'.alarm == Some(now + 1_000))
      && (st.queue.None? || st.queue.value.blocked.Some? || st.queue.value.pending == [] ==>
            st'.queue == st.queue && st'.alarm == st.alarm)
  {
  }

  // ------------------------------------------------------------ batches and replies

  /** The delay doubles with every failure, from two seconds, until it is an hour. */
  lemma BackoffDoubles(f: nat)
    ensures Backoff(0) == 1_000
    ensures Backoff(f + 1) == if 2 * Backoff(f) < 3_600_000 then 2 * Backoff(f) else 3_600_000
  {
  }

  /** A composed batch is the pending prefix that the in-flight entry stands for, and is tried now. */
  lemma ComposedExactly(st: Storage, id: string, now: int)
    requires Sound(st)
    ensures var (st', batch) := Compose(st, id, now);
      && (batch.None? <==> st.queue.None? || st.queue.value.pending == [])
      && (batch.None? ==> st' == st)
      && (batch.Some? ==>
            && st'.queue.Some? && st'.queue.value.pending == st.queue.value.pending && st'.queue.value.inflight.Some?
            && st'.queue.value.lastAttemptAtMs == Some(now) && st'.alarm == st.alarm
            && batch.value.id == st'.queue.value.inflight.value.id
            && batch.value.records == st.queue.value.pending[..st'.queue.value.inflight.value.count]
            && (if st.queue.value.inflight.Some? then st'.queue.value.inflight == st.queue.value.inflight
                else batch.value.id == id && IsReach(Sizes(st.queue.value.pending), 0, |batch.value.records|)))
  {
    if st.queue.Some? && st.queue.value.pending != [] && st.queue.value.inflight.None? {
      ReachUnique(Sizes(st.queue.value.pending), 0, Reach(Sizes(st.queue.value.pending), 0), Reach(Sizes(st.queue.value.pending), 0));
    }
    hide Reach;
  }

  /** A reply that is not for the batch in flight is stale. */
  lemma StaleReply(st: Storage, id: string, status: int, now: int)
    requires InflightWithinPending(st)
    requires st.queue.None? || st.queue.value.inflight.None? || st.queue.value.inflight.value.id != id
    ensures Commit(st, id, status, now) == st
  {
  }

  /** An accepted batch leaves the queue, which goes on at once if it is still full enough and in a second if not. */
  lemma AcceptedReply(st: Storage, id: string, now: int)
    requires InflightWithinPending(st) && Awaits(st, id)
    ensures var (q, st') := (st.queue.value, Commit(st, id, 202, now));
      && st'.queue.Some? && st'.queue.value.pending == q.pending[q.inflight.value.count..]
      && st'.queue.value.inflight.None? && st'.queue.value.failures == 0 && st'.queue.value.blocked == q.blocked
      && st'.queue.value.next == q.next && st'.queue.value.destination == q.destination
      && st'.alarm == Some(if |st'.queue.value.pending| >= 200 then now else now + 1_000)
      && st'.receipts == st.receipts && st'.expiries == st.expiries
  {
  }

  /** Any other status keeps the batch for a replay after the delay of one more failure, and blocks the queue exactly
      if it is from 300 up to 499, save 408 and 429. */
  lemma RejectedReply(st: Storage, id: string, status: int, now: int)
    requires InflightWithinPending(st) && Awaits(st, id) && status != 202 && Failures(st) <= MAX_FAILURES
    ensures var (q, st') := (st.queue.value, Commit(st, id, status, now));
      && st'.queue.Some? && SameRecords(q, st'.queue.value) && st'.queue.value.lastStatus == Some(status)
      && st'.queue.value.failures == (if q.failures < 12 then q.failures + 1 else 12)
      && st'.queue.value.blocked == (if (300 <= status <= 407) || (409 <= status <= 428) || (430 <= status <= 499) then Some(status) else q.blocked)
      && st'.alarm == Some(now + Backoff(st'.queue.value.failures))
      && st'.receipts == st.receipts && st'.expiries == st.expiries
  {
    hide Backoff;
  }

  /** An alarm goes on to compose exactly if records are pending, the queue is not blocked and its destination is
      the configured one; otherwise it ends without a change. */
  lemma DeliversExactly(w: World, task: nat, env: Environment)
    requires Sound(w.store) && Enabled(w, ReadQueue(task, env))
    ensures var w' := Apply(w, ReadQueue(task, env));
      && w' == w.(tasks := w'.tasks)
      && (if w.store.queue.Some? && w.store.queue.value.pending != [] && w.store.queue.value.blocked.None?
             && env.config == Some(w.store.queue.value.destination)
          then w'.tasks == w.tasks[task := Composing(w.store.queue.value.destination)]
          else w'.tasks == w.tasks - {task})
  {
  }
}
