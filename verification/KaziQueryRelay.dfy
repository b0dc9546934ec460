/**
 The durable export relay: what it stores, what each storage transaction does to it, and
 the relay object that performs the transactions step by step. A text stands for its UTF-8
 bytes, one element a byte; SHA-256 keys and fingerprints stand for the text they hash.
 */
module KaziQueryRelay {
  import opened Wrappers
  import opened RelayBatching

  const DAY: int := 86_400_000
  const CLOCK_SKEW: int := 300_000
  const MAX_PENDING: nat := 2_000
  const FLUSH_RECORDS: nat := 200
  const MAX_TEXT_BYTES: nat := 64 * 1024
  const MAX_SAFE_INTEGER: int := 9_007_199_254_740_991
  const MAX_FAILURES: nat := 12
  const COALESCE_MS: int := 1_000
  const REPAIR_MS: int := 60_000
  const MAX_BACKOFF_MS: int := 3_600_000

  datatype Destination = Destination(dataset: string, connector: string, producer: string, epoch: string)
  /** `fields` is the JSON text of the record's own fields. */
  datatype Record = Record(id: string, fields: string)
  /** `wellFormed` is the verdict of the field checks that do not look at the clock. */
  datatype AdmitRequest = AdmitRequest(text: string, record: Record, admittedAtMs: int, wellFormed: bool)
  datatype Environment = Environment(config: Option<Destination>, exportEnabled: bool)

  datatype Pending = Pending(id: string, body: string, sequence: nat)
  datatype Inflight = Inflight(id: string, count: nat)
  datatype RelayQueue = RelayQueue(
    destination: Destination, next: nat, pending: seq<Pending>, failures: nat,
    blocked: Option<int>, lastAttemptAtMs: Option<int>, lastStatus: Option<int>, inflight: Option<Inflight>)
  datatype Receipt = Receipt(fingerprint: string, expires: int)
  /** The stored key `expiry:<16 digits>:<receipt key>`; its value repeats the receipt key. */
  datatype ExpiryKey = ExpiryKey(expires: int, receiptKey: string)
  datatype Storage = Storage(
    queue: Option<RelayQueue>, receipts: map<string, Receipt>, expiries: set<ExpiryKey>,
    retryRevision: Option<string>, alarm: Option<int>)

  /** One composed batch: its idempotency key and the records its body joins. */
  datatype Batch = Batch(id: string, records: seq<Pending>)

  const EMPTY_STORAGE := Storage(None, map[], {}, None, None)

  function Decimal(n: nat): string {
    if n < 10 then [DIGITS[n]] else Decimal(n / 10) + [DIGITS[n % 10]]
  }

  const DIGITS := "0123456789"

  /** A JSON member whose value is a string. */
  function Text(name: string, value: string): string {
    "\"" + name + "\":\"" + value + "\""
  }

  function RenderBody(record: Record, destination: Destination, sequence: nat): string {
    "{" + record.fields + ",\"schemaVersion\":1,\"service\":\"kazibee\",\"environment\":\"dev\","
    + Text("producerId", destination.producer) + "," + Text("producerEpoch", destination.epoch) + ",\"sequence\":"
    + Decimal(sequence) + "}\n"
  }

  function Sizes(pending: seq<Pending>): (sizes: seq<nat>)
    ensures |sizes| == |pending|
    ensures forall i :: 0 <= i < |sizes| ==> sizes[i] == |pending[i].body|
  {
    seq(|pending|, i requires 0 <= i < |pending| => |pending[i].body|)
  }

  // ------------------------------------------------------------ the transactions as functions

  predicate ValidFields(request: AdmitRequest) {
    && request.wellFormed
    && 0 < |request.record.id| <= 128
    && -MAX_SAFE_INTEGER <= request.admittedAtMs <= MAX_SAFE_INTEGER
  }

  predicate ValidRequest(request: AdmitRequest, now: int) {
    && ValidFields(request)
    && now - DAY <= request.admittedAtMs <= now + CLOCK_SKEW
  }

  function Expires(request: AdmitRequest): int {
    request.admittedAtMs + DAY
  }

  function QueueOr(st: Storage, destination: Destination): RelayQueue {
    if st.queue.Some? then st.queue.value
    else RelayQueue(destination, 0, [], 0, None, None, None, None)
  }

  /** What the admission transaction asks besides the clock and the receipt. */
  predicate HasRoom(st: Storage, env: Environment, request: AdmitRequest) {
    && env.config.Some? && env.exportEnabled && |request.text| <= MAX_TEXT_BYTES
    && var queue := QueueOr(st, env.config.value);
    && queue.destination == env.config.value && queue.blocked.None?
    && |queue.pending| < MAX_PENDING && queue.next < MAX_SAFE_INTEGER
    && |RenderBody(request.record, env.config.value, queue.next)| - 1 <= MAX_TEXT_BYTES
  }

  /** The answer to POST /admit; `checkedAt` is when the fields were checked, before the hashes were awaited. */
  function AdmitStatus(st: Storage, env: Environment, request: AdmitRequest, checkedAt: int): (status: int)
    ensures request.record.id !in st.receipts ==> (status == 202 <==> HasRoom(st, env, request) && ValidRequest(request, checkedAt))
  {
    if env.config.None? || !env.exportEnabled then 503
    else if |request.text| > MAX_TEXT_BYTES then 413
    else if !ValidRequest(request, checkedAt) then 400
    else if request.record.id in st.receipts then
      if st.receipts[request.record.id].fingerprint == request.text then 202 else 409
    else
      var queue := QueueOr(st, env.config.value);
      if queue.destination != env.config.value || queue.blocked.Some? then 409
      else if |queue.pending| >= MAX_PENDING || queue.next + 1 > MAX_SAFE_INTEGER then 429
      else if |RenderBody(request.record, env.config.value, queue.next)| - 1 > MAX_TEXT_BYTES then 413
      else 202
  }

  /** The record as it is stored, under the next sequence number. */
  function NextItem(queue: RelayQueue, request: AdmitRequest, id: string): Pending {
    Pending(id, RenderBody(request.record, queue.destination, queue.next), queue.next)
  }

  /** Queue, receipt, expiry key and alarm are written together. */
  function Enqueue(st: Storage, queue: RelayQueue, request: AdmitRequest, item: Pending, now: int): Storage {
    var pending := queue.pending + [item];
    Storage(
      Some(queue.(next := queue.next + 1, pending := pending)),
      st.receipts[request.record.id := Receipt(request.text, Expires(request))],
      st.expiries + {ExpiryKey(Expires(request), request.record.id)},
      st.retryRevision,
      if |pending| == 1 then Some(now + COALESCE_MS)
      else if |pending| >= FLUSH_RECORDS && queue.inflight.None? then Some(now)
      else st.alarm)
  }

  /** What POST /admit leaves stored: a known record id or a refusal changes nothing. */
  function Admit(st: Storage, env: Environment, request: AdmitRequest, id: string, checkedAt: int, now: int): Storage {
    if AdmitStatus(st, env, request, checkedAt) == 202 && request.record.id !in st.receipts then
      var queue := QueueOr(st, env.config.value);
      Enqueue(st, queue, request, NextItem(queue, request, id), now)
    else st
  }

  /** POST /resume. */
  function Resume(st: Storage, now: int): Storage {
    if st.queue.None? then st
    else st.(queue := Some(st.queue.value.(blocked := None, failures := 0)), alarm := Some(now + COALESCE_MS))
  }

  /** The retry-revision transaction that precedes every request. */
  function Revise(st: Storage, revision: string, now: int): Storage {
    if st.retryRevision == Some(revision) then st
    else if st.queue.Some? && |st.queue.value.pending| > 0 && st.queue.value.blocked.None? then
      st.(retryRevision := Some(revision), queue := Some(st.queue.value.(failures := 0)), alarm := Some(now + COALESCE_MS))
    else st.(retryRevision := Some(revision))
  }

  function PruneOne(st: Storage, key: ExpiryKey): Storage {
    st.(receipts := st.receipts - {key.receiptKey}, expiries := st.expiries - {key})
  }

  /** The pruning loop over a listing: it stops at the first entry that has not expired. */
  function Prune(st: Storage, entries: seq<ExpiryKey>, now: int): Storage
    decreases |entries|
  {
    if entries == [] || entries[0].expires > now then st
    else Prune(PruneOne(st, entries[0]), entries[1..], now)
  }

  /** The checks of `alarm` that decide whether there is anything to send. */
  predicate Deliverable(st: Storage, env: Environment) {
    && st.queue.Some? && |st.queue.value.pending| > 0 && st.queue.value.blocked.None?
    && env.config == Some(st.queue.value.destination)
  }

  predicate WithinBodyLimit(st: Storage) {
    st.queue.Some? ==> Admissible(Sizes(st.queue.value.pending))
  }

  /** The in-flight batch a composition works with: the stored one, or a new longest prefix. */
  function Composed(queue: RelayQueue, id: string): Inflight
    requires |queue.pending| > 0 && Admissible(Sizes(queue.pending))
  {
    if queue.inflight.None? || queue.inflight.value.count > |queue.pending|
    then Inflight(id, Reach(Sizes(queue.pending), 0))
    else queue.inflight.value
  }

  /** Compose or replay one batch. */
  function Compose(st: Storage, id: string, now: int): (Storage, Option<Batch>)
    requires WithinBodyLimit(st)
  {
    if st.queue.None? || |st.queue.value.pending| == 0 then (st, None)
    else
      var queue := st.queue.value;
      var inflight := Composed(queue, id);
      (st.(queue := Some(queue.(inflight := Some(inflight), lastAttemptAtMs := Some(now)))),
       Some(Batch(inflight.id, queue.pending[..inflight.count])))
  }

  predicate Blocking(status: int) {
    300 <= status < 500 && status != 408 && status != 429
  }

  function Pow2(n: nat): nat {
    if n == 0 then 1 else 2 * Pow2(n - 1)
  }

  function Min(a: int, b: int): int {
    if a < b then a else b
  }

  function Backoff(failures: nat): int {
    Min(MAX_BACKOFF_MS, 1_000 * Pow2(failures))
  }

  /** What a reply with `status` makes of the queue whose in-flight batch it answers. */
  function Settled(queue: RelayQueue, status: int): RelayQueue
    requires queue.inflight.Some? && queue.inflight.value.count <= |queue.pending|
  {
    if status == 202 then
      queue.(pending := queue.pending[queue.inflight.value.count..], inflight := None, failures := 0,
             lastStatus := Some(status))
    else
      queue.(failures := Min(queue.failures + 1, MAX_FAILURES), lastStatus := Some(status),
             blocked := if Blocking(status) then Some(status) else queue.blocked)
  }

  function NextRetry(queue: RelayQueue, status: int): int {
    if status != 202 then Backoff(queue.failures)
    else if |queue.pending| >= FLUSH_RECORDS then 0
    else COALESCE_MS
  }

  /** The queue still waits for the reply to batch `id`. */
  predicate Awaits(st: Storage, id: string) {
    && st.queue.Some? && st.queue.value.inflight.Some?
    && st.queue.value.inflight.value.id == id
  }

  predicate InflightWithinPending(st: Storage) {
    st.queue.Some? && st.queue.value.inflight.Some? ==>
      0 < st.queue.value.inflight.value.count <= |st.queue.value.pending|
  }

  /** Record the reply to batch `id`; a reply to any other batch is stale and changes nothing. */
  function Commit(st: Storage, id: string, status: int, now: int): Storage
    requires InflightWithinPending(st)
  {
    if !Awaits(st, id) then st
    else
      var queue := Settled(st.queue.value, status);
      st.(queue := Some(queue), alarm := Some(now + NextRetry(queue, status)))
  }

  // ------------------------------------------------------------ the relay object

  class KaziQueryExportRelay {
    var queue: Option<RelayQueue>
    var receipts: map<string, Receipt>
    var expiries: set<ExpiryKey>
    var retryRevision: Option<string>
    var alarm: Option<int>

    function Store(): Storage
      reads this
    {
      Storage(queue, receipts, expiries, retryRevision, alarm)
    }

    ghost predicate Valid()
      reads this
    {
      WithinBodyLimit(Store()) && InflightWithinPending(Store())
    }

    constructor ()
      ensures Valid() && Store() == EMPTY_STORAGE
    {
      queue, receipts, expiries, retryRevision, alarm := None, map[], {}, None, None;
    }

    /** `uuid` is the fresh identifier the platform supplies; the clock stands at `checkedAt` when the fields
        are checked and at `now` in the transaction. */
    method AdmitRecord(env: Environment, request: AdmitRequest, uuid: string, checkedAt: int, now: int) returns (status: int)
      requires Valid()
      modifies this
      ensures Valid()
      ensures status == AdmitStatus(old(Store()), env, request, checkedAt)
      ensures Store() == Admit(old(Store()), env, request, uuid, checkedAt, now)
    {
      hide RenderBody, ValidRequest;
      if env.config.None? || !env.exportEnabled {
        return 503;
      }
      if |request.text| > MAX_TEXT_BYTES {
        return 413;
      }
      if !ValidRequest(request, checkedAt) {
        return 400;
      }
      var key := request.record.id;
      if key in receipts {
        return if receipts[key].fingerprint == request.text then 202 else 409;
      }
      var destination := env.config.value;
      var current := RelayQueue(destination, 0, [], 0, None, None, None, None);
      if queue.Some? {
        current := queue.value;
      }
      if current.destination != destination || current.blocked.Some? {
        return 409;
      }
      if |current.pending| >= MAX_PENDING || current.next + 1 > MAX_SAFE_INTEGER {
        return 429;
      }
      var sequence := current.next;
      current := current.(next := sequence + 1);
      var body := RenderBody(request.record, destination, sequence);
      if |body| - 1 > MAX_TEXT_BYTES {
        return 413; // the increment above is dropped with the snapshot
      }
      AppendAdmissible(current.pending, Pending(uuid, body, sequence));
      current := current.(pending := current.pending + [Pending(uuid, body, sequence)]);
      queue := Some(current);
      receipts := receipts[key := Receipt(request.text, Expires(request))];
      expiries := expiries + {ExpiryKey(Expires(request), key)};
      if |current.pending| == 1 {
        alarm := Some(now + COALESCE_MS);
      } else if |current.pending| >= FLUSH_RECORDS && current.inflight.None? {
        alarm := Some(now);
      }
      return 202;
    }

    method ResumeDelivery(now: int)
      requires Valid()
      modifies this`queue, this`alarm
      ensures Valid() && Store() == Resume(old(Store()), now)
    {
      if queue.None? {
        return;
      }
      queue := Some(queue.value.(blocked := None));
      queue := Some(queue.value.(failures := 0));
      alarm := Some(now + COALESCE_MS);
    }

    method ReviseRetry(revision: string, now: int)
      requires Valid()
      modifies this`retryRevision, this`queue, this`alarm
      ensures Valid() && Store() == Revise(old(Store()), revision, now)
    {
      if retryRevision == Some(revision) {
        return;
      }
      retryRevision := Some(revision);
      if queue.Some? && |queue.value.pending| > 0 && queue.value.blocked.None? {
        queue := Some(queue.value.(failures := 0));
        alarm := Some(now + COALESCE_MS);
      }
    }

    /** Compose or replay one batch; the caller sends it. */
    method ComposeBatch(uuid: string, now: int) returns (batch: Option<Batch>)
      requires Valid()
      modifies this`queue
      ensures Valid() && (Store(), batch) == Compose(old(Store()), uuid, now)
      ensures batch.Some? && old(queue).value.inflight.None? ==>
        IsReach(Sizes(queue.value.pending), 0, |batch.value.records|) && batch.value.records <= queue.value.pending
    {
      if queue.None? || |queue.value.pending| == 0 {
        return None;
      }
      var current := queue.value;
      if current.inflight.None? || current.inflight.value.count > |current.pending| {
        var count := ComposeFrom(Sizes(current.pending), 0);
        current := current.(inflight := Some(Inflight(uuid, count)));
      }
      current := current.(lastAttemptAtMs := Some(now));
      queue := Some(current);
      var records := current.pending[..current.inflight.value.count];
      return Some(Batch(current.inflight.value.id, records));
    }

    /** The transaction after the send. */
    method CommitReply(batchId: string, status: int, now: int)
      requires Valid()
      modifies this`queue, this`alarm
      ensures Valid() && Store() == Commit(old(Store()), batchId, status, now)
    {
      if queue.None? || queue.value.inflight.None? || queue.value.inflight.value.id != batchId {
        return;
      }
      var current := queue.value.(lastStatus := Some(status));
      if status == 202 {
        current := current.(pending := current.pending[current.inflight.value.count..]);
        current := current.(inflight := None, failures := 0);
        SuffixAdmissible(queue.value.pending, queue.value.inflight.value.count);
      } else {
        current := current.(failures := Min(current.failures + 1, MAX_FAILURES));
        if Blocking(status) {
          current := current.(blocked := Some(status));
        }
      }
      queue := Some(current);
      var nextRetryMs := NextRetry(current, status);
      alarm := Some(now + nextRetryMs);
    }

    /** `entries` is what the storage listed under `expiry:`, in key order. */
    method PruneReceipts(entries: seq<ExpiryKey>, now: int)
      requires Valid()
      modifies this`receipts, this`expiries
      ensures Valid() && Store() == Prune(old(Store()), entries, now)
    {
      var i := 0;
      while i < |entries| && entries[i].expires <= now
        invariant 0 <= i <= |entries|
        invariant Prune(Store(), entries[i..], now) == Prune(old(Store()), entries, now)
      {
        assert entries[i..][1..] == entries[i + 1..];
        receipts := receipts - {entries[i].receiptKey};
        expiries := expiries - {entries[i]};
        i := i + 1;
      }
    }
  }

  lemma AppendAdmissible(pending: seq<Pending>, item: Pending)
    requires Admissible(Sizes(pending)) && |item.body| <= MAX_BODY_BYTES
    ensures Admissible(Sizes(pending + [item]))
  {
  }

  lemma SuffixAdmissible(pending: seq<Pending>, count: nat)
    requires count <= |pending| && Admissible(Sizes(pending))
    ensures Admissible(Sizes(pending[count..]))
  {
    forall i | 0 <= i < |pending| - count ensures Sizes(pending[count..])[i] <= MAX_BODY_BYTES {
      assert Sizes(pending[count..])[i] == Sizes(pending)[count + i];
    }
  }
}
