/**
 How often one admit request can be queued. A receipt guards a request until its expiry; the window
 check and the pruning pass both include the instant of expiry itself, and a pruning pass that works
 from a stale listing can delete a receipt that is still live. Every request stays guarded exactly as
 long as no pruning pass does. The check and the transaction of one request lie apart in time.
 */
module RelayDuplicates {
  import opened Wrappers
  import opened KaziQueryRelay
  import opened RelayReceipts
  import opened RelayRuns

  // ------------------------------------------------------------ requests and their receipts

  /** A request that was queued was valid then, and its receipt is stored until it expires. */
  ghost predicate Guarded(w: World, done: Enqueued) {
    && ValidRequest(done.request, done.checkedAt) && done.checkedAt <= done.at <= w.now
    && (w.now < Expires(done.request) ==>
          && done.request.record.id in w.store.receipts
          && w.store.receipts[done.request.record.id] == Receipt(done.request.text, Expires(done.request)))
  }

  ghost predicate AllGuarded(w: World) {
    forall i :: 0 <= i < |w.enqueues| ==> Guarded(w, w.enqueues[i])
  }

  predicate ReceiptOf(done: Enqueued, key: string, receipt: Receipt) {
    done.request.record.id == key && receipt == Receipt(done.request.text, Expires(done.request))
  }

  /** The stored receipt is that of a request that was queued. */
  ghost predicate Earned(w: World, key: string) {
    key in w.store.receipts && exists i :: 0 <= i < |w.enqueues| && ReceiptOf(w.enqueues[i], key, w.store.receipts[key])
  }

  ghost predicate ReceiptsEarned(w: World) {
    forall k {:trigger Earned(w, k)} :: k in w.store.receipts ==> Earned(w, k)
  }

  /** The request was checked no later than its expiry, and queued no earlier. */
  predicate AcrossExpiry(done: Enqueued) {
    done.checkedAt <= Expires(done.request) <= done.at
  }

  /** The same request is queued later only across its expiry: in that very instant if nothing is awaited
      between the check and the transaction. */
  ghost predicate RepeatsOnlyAtExpiry(w: World) {
    forall i, j :: 0 <= i < j < |w.enqueues| && w.enqueues[i].request == w.enqueues[j].request ==>
      AcrossExpiry(w.enqueues[j])
  }

  ghost predicate Protected(w: World) {
    AllGuarded(w) && ReceiptsEarned(w) && RepeatsOnlyAtExpiry(w)
  }

  /** The entry a pruning step deletes, if it deletes one. */
  predicate Deletes(w: World, e: Event) {
    && e.PruneNext? && e.task in w.tasks && w.tasks[e.task].Pruning?
    && w.tasks[e.task].entries != [] && w.tasks[e.task].entries[0].expires <= w.now
  }

  function Deleted(w: World, e: Event): ExpiryKey
    requires Deletes(w, e)
  {
    w.tasks[e.task].entries[0]
  }

  /** The step deletes no receipt that is still live. */
  predicate SparesLive(w: World, e: Event) {
    Deletes(w, e) ==>
      var key := Deleted(w, e).receiptKey;
      key in w.store.receipts ==> w.store.receipts[key].expires <= w.now
  }

  // ------------------------------------------------------------ one step

  /** Admission touches no receipt that is already there. */
  lemma AdmitKeepsGuards(w: World, env: Environment, request: AdmitRequest, id: string, checkedAt: int, done: Enqueued)
    requires Guarded(w, done)
    ensures Guarded(AdmitWorld(w, env, request, id, checkedAt), done)
    ensures |AdmitWorld(w, env, request, id, checkedAt).enqueues| > |w.enqueues| && done.request == request ==> checkedAt <= Expires(request) <= w.now
  {
    hide AdmitStatus, RenderBody;
  }

  lemma AdmitEarns(w: World, env: Environment, request: AdmitRequest, id: string, checkedAt: int)
    requires ReceiptsEarned(w)
    ensures ReceiptsEarned(AdmitWorld(w, env, request, id, checkedAt))
  {
    hide AdmitStatus, RenderBody;
    var w' := AdmitWorld(w, env, request, id, checkedAt);
    forall k | k in w'.store.receipts ensures Earned(w', k) {
      if k in w.store.receipts {
        assert Earned(w, k);
        var i :| 0 <= i < |w.enqueues| && ReceiptOf(w.enqueues[i], k, w.store.receipts[k]);
        assert w'.enqueues[i] == w.enqueues[i];
      } else {
        assert ReceiptOf(w'.enqueues[|w.enqueues|], k, w'.store.receipts[k]);
      }
    }
  }

  lemma AdmitProtects(w: World, env: Environment, request: AdmitRequest, id: string, checkedAt: int)
    requires Protected(w) && checkedAt <= w.now
    ensures Protected(AdmitWorld(w, env, request, id, checkedAt))
  {
    AdmitEarns(w, env, request, id, checkedAt);
    hide AdmitStatus, RenderBody, ReceiptsEarned;
    var w' := AdmitWorld(w, env, request, id, checkedAt);
    forall i | 0 <= i < |w'.enqueues| ensures Guarded(w', w'.enqueues[i]) {
      if i < |w.enqueues| {
        assert w'.enqueues[i] == w.enqueues[i];
        AdmitKeepsGuards(w, env, request, id, checkedAt, w.enqueues[i]);
      }
    }
    forall i, j | 0 <= i < j < |w'.enqueues| && w'.enqueues[i].request == w'.enqueues[j].request
      ensures AcrossExpiry(w'.enqueues[j])
    {
      assert w'.enqueues[i] == w.enqueues[i];
      AdmitKeepsGuards(w, env, request, id, checkedAt, w.enqueues[i]);
    }
  }

  /** What a pruning step deletes costs some request its guard exactly if the receipt is live. */
  lemma PruneProtects(w: World, w': World, key: ExpiryKey)
    requires Protected(w) && w'.store == PruneOne(w.store, key) && w'.enqueues == w.enqueues && w'.now == w.now
    ensures Protected(w') <==> (key.receiptKey in w.store.receipts ==> w.store.receipts[key.receiptKey].expires <= w.now)
  {
    var k := key.receiptKey;
    assert w'.store.receipts == w.store.receipts - {k};
    forall r | r in w'.store.receipts ensures Earned(w', r) {
      assert Earned(w, r);
      var i :| 0 <= i < |w.enqueues| && ReceiptOf(w.enqueues[i], r, w.store.receipts[r]);
      assert ReceiptOf(w'.enqueues[i], r, w'.store.receipts[r]);
    }
    if k in w.store.receipts && w.store.receipts[k].expires > w.now {
      assert Earned(w, k);
      var i :| 0 <= i < |w.enqueues| && ReceiptOf(w.enqueues[i], k, w.store.receipts[k]);
      assert !Guarded(w', w'.enqueues[i]);
    } else {
      forall i | 0 <= i < |w'.enqueues| ensures Guarded(w', w'.enqueues[i]) {
        assert Guarded(w, w.enqueues[i]);
      }
    }
  }

  lemma CommitTouchesNoReceipt(st: Storage, id: string, status: int, now: int)
    requires InflightWithinPending(st)
    ensures Commit(st, id, status, now).receipts == st.receipts && Commit(st, id, status, now).expiries == st.expiries
  {
  }

  lemma ComposeTouchesNoReceipt(st: Storage, id: string, now: int)
    requires WithinBodyLimit(st)
    ensures Compose(st, id, now).0.receipts == st.receipts && Compose(st, id, now).0.expiries == st.expiries
  {
  }

  /** The other steps touch neither receipts nor expiry keys nor the history. */
  lemma OtherTouchesNoReceipt(w: World, e: Event)
    requires Inv(w) && Enabled(w, e) && !e.PruneNext? && !e.ListReceipts? && !e.AdmitEvent?
    ensures var w' := Apply(w, e);
      && w'.store.receipts == w.store.receipts && w'.store.expiries == w.store.expiries
      && w'.enqueues == w.enqueues && w'.now >= w.now
  {
    assert Sound(w.store);
    hide Inv, Sound, Compose, Commit, Deliverable, Resume, Revise;
    match e
    case Reply(task, status) => CommitTouchesNoReceipt(w.store, w.tasks[task].request.batch.id, status, w.now);
    case ComposeEvent(_, id) => ComposeTouchesNoReceipt(w.store, id, w.now);
    case ResumeEvent => RestartTouchesNoReceipt(w.store, "", w.now);
    case ReviseEvent(revision) => RestartTouchesNoReceipt(w.store, revision, w.now);
    case _ =>
  }

  lemma RestartTouchesNoReceipt(st: Storage, revision: string, now: int)
    ensures Resume(st, now).receipts == st.receipts && Resume(st, now).expiries == st.expiries
    ensures Revise(st, revision, now).receipts == st.receipts && Revise(st, revision, now).expiries == st.expiries
  {
  }

  /** No step but a listing starts to prune, and none but the firing of the alarm is about to. */
  lemma OtherStartsNoPruning(w: World, e: Event)
    requires Inv(w) && Enabled(w, e) && !e.PruneNext? && !e.ListReceipts? && !e.AdmitEvent?
    ensures var w' := Apply(w, e);
      && (forall t :: t in w'.tasks && w'.tasks[t].Pruning? ==> t in w.tasks && w'.tasks[t] == w.tasks[t])
      && (forall t :: t in w'.tasks && w'.tasks[t].Armed? ==> (t in w.tasks && w'.tasks[t] == w.tasks[t]) || e == AlarmFires(t))
  {
    assert Sound(w.store);
    hide Inv, Sound, Compose, Commit, Deliverable, Resume, Revise;
  }

  lemma TimeProtects(w: World, w': World)
    requires Protected(w) && w'.store.receipts == w.store.receipts && w'.enqueues == w.enqueues && w'.now >= w.now
    ensures Protected(w')
  {
    forall i | 0 <= i < |w'.enqueues| ensures Guarded(w', w'.enqueues[i]) {
      assert Guarded(w, w.enqueues[i]);
    }
    forall k | k in w'.store.receipts ensures Earned(w', k) {
      assert Earned(w, k);
      var i :| 0 <= i < |w.enqueues| && ReceiptOf(w.enqueues[i], k, w.store.receipts[k]);
      assert ReceiptOf(w'.enqueues[i], k, w'.store.receipts[k]);
    }
  }

  /** A step keeps every request guarded exactly if it deletes no live receipt. */
  lemma StepProtects(w: World, e: Event)
    requires Inv(w) && Enabled(w, e) && Protected(w)
    ensures Protected(Apply(w, e)) <==> SparesLive(w, e)
  {
    assert Sound(w.store);
    hide Inv, Sound, Protected;
    if e.AdmitEvent? {
      AdmitProtects(w, e.env, e.request, e.id, e.checkedAt);
    } else if Deletes(w, e) {
      PruneProtects(w, Apply(w, e), Deleted(w, e));
    } else if e.PruneNext? || e.ListReceipts? {
      TimeProtects(w, Apply(w, e));
    } else {
      OtherTouchesNoReceipt(w, e);
      TimeProtects(w, Apply(w, e));
      hide Apply, Enabled;
    }
  }

  // ------------------------------------------------------------ whole runs

  /** No step of the run deletes a live receipt. */
  ghost predicate SparesRun(w: World, es: seq<Event>)
    requires Inv(w) && Follows(w, es)
    decreases |es|
  {
    es == [] || (SparesLive(w, es[0]) && (StepKeeps(w, es[0]); SparesRun(Apply(w, es[0]), es[1..])))
  }

  /** Every state of the run keeps every request guarded. */
  ghost predicate ProtectedThroughout(w: World, es: seq<Event>)
    requires Inv(w) && Follows(w, es)
    decreases |es|
  {
    Protected(w) && (es == [] || (StepKeeps(w, es[0]); ProtectedThroughout(Apply(w, es[0]), es[1..])))
  }

  /** Whatever overlaps: a run keeps every request guarded exactly if no step deletes a live receipt. */
  lemma {:induction false} ProtectedExactly(w: World, es: seq<Event>)
    requires Inv(w) && Follows(w, es) && Protected(w)
    ensures ProtectedThroughout(w, es) <==> SparesRun(w, es)
    ensures SparesRun(w, es) ==> Protected(After(w, es))
    decreases |es|
  {
    assert Sound(w.store);
    hide Inv, Sound, Protected, Apply, Enabled, SparesLive;
    if es != [] {
      StepKeeps(w, es[0]);
      StepProtects(w, es[0]);
      if SparesLive(w, es[0]) {
        ProtectedExactly(Apply(w, es[0]), es[1..]);
      }
    }
  }

  /** Alarms, requests and pruning passes may overlap at will: unless a pruning pass deletes a live
      receipt, an admit request is queued at most once for ever, except when its check and its transaction
      lie on both sides of its expiry. */
  lemma QueuedOnceExceptAtExpiry(now: nat, es: seq<Event>)
    requires Follows(Start(now), es) && SparesRun(Start(now), es)
    ensures var w := After(Start(now), es);
      forall i, j :: 0 <= i < j < |w.enqueues| && w.enqueues[i].request == w.enqueues[j].request ==>
        w.enqueues[j].checkedAt <= Expires(w.enqueues[j].request) <= w.enqueues[j].at
  {
    hide Inv;
    ProtectedExactly(Start(now), es);
  }

  /** A request that was queued before is queued again exactly when it is still in its window as it is
      checked, its transaction does not run before its expiry, and its receipt has been pruned. */
  lemma RequeuedExactlyAtExpiry(w: World, env: Environment, i: nat, id: string, checkedAt: int)
    requires Protected(w) && i < |w.enqueues| && HasRoom(w.store, env, w.enqueues[i].request)
    ensures var r := w.enqueues[i].request;
      |AdmitWorld(w, env, r, id, checkedAt).enqueues| > |w.enqueues| <==>
        ValidRequest(r, checkedAt) && Expires(r) <= w.now && r.record.id !in w.store.receipts
  {
    assert Guarded(w, w.enqueues[i]);
    hide ReceiptsEarned, RepeatsOnlyAtExpiry, AllGuarded;
  }

  /** Any repetition of the request that finds room is queued. */
  ghost predicate QueuedOnRepetition(w: World, r: AdmitRequest) {
    forall env, id :: HasRoom(w.store, env, r) ==>
      AdmitWorld(w, env, r, id, w.now).enqueues == w.enqueues + [Enqueued(r, w.now, w.now)]
  }

  /** Once a pruning pass has deleted a live receipt, the request it belonged to is queued a second time
      within its window, by any repetition that finds room. */
  lemma OffendedIsQueuedAgain(w: World, e: Event)
    requires Inv(w) && Enabled(w, e) && Protected(w) && !SparesLive(w, e)
    ensures Apply(w, e).enqueues == w.enqueues && Apply(w, e).now == w.now
    ensures exists i ::
      0 <= i < |w.enqueues| && w.now < Expires(w.enqueues[i].request) && QueuedOnRepetition(Apply(w, e), w.enqueues[i].request)
  {
    var key := Deleted(w, e).receiptKey;
    assert Earned(w, key);
    var i :| 0 <= i < |w.enqueues| && ReceiptOf(w.enqueues[i], key, w.store.receipts[key]);
    assert Guarded(w, w.enqueues[i]) && Sound(w.store);
    hide Inv, Sound, Protected, HasRoom, AdmitWorld, ReceiptsEarned, RepeatsOnlyAtExpiry, AllGuarded;
    var w', r := Apply(w, e), w.enqueues[i].request;
    forall env, id | HasRoom(w'.store, env, r)
      ensures AdmitWorld(w', env, r, id, w'.now).enqueues == w'.enqueues + [Enqueued(r, w'.now, w'.now)]
    {
      QueuedWithoutReceipt(w', env, r, id);
    }
    assert QueuedOnRepetition(w', r);
  }

  lemma QueuedWithoutReceipt(w: World, env: Environment, r: AdmitRequest, id: string)
    requires r.record.id !in w.store.receipts && HasRoom(w.store, env, r) && ValidRequest(r, w.now)
    ensures AdmitWorld(w, env, r, id, w.now).enqueues == w.enqueues + [Enqueued(r, w.now, w.now)]
  {
    hide HasRoom, AdmitStatus, Admit;
  }

  // ------------------------------------------------------------ when pruning passes spare live receipts

  /** The entry that the step deletes is still stored, or its receipt is already gone. */
  predicate FreshEntry(w: World, e: Event) {
    Deletes(w, e) ==> Deleted(w, e) in w.store.expiries || Deleted(w, e).receiptKey !in w.store.receipts
  }

  /** Receipts and expiry keys stay paired exactly as long as entries are fresh, and a fresh entry spares
      every live receipt. */
  lemma StepPairs(w: World, e: Event)
    requires Inv(w) && Enabled(w, e) && Paired(w.store)
    ensures Paired(Apply(w, e).store) <==> FreshEntry(w, e)
    ensures FreshEntry(w, e) ==> SparesLive(w, e)
  {
    assert Sound(w.store);
    hide Inv, Sound;
    if e.AdmitEvent? {
      AdmitKeepsPaired(w.store, e.env, e.request, e.id, e.checkedAt, w.now);
    } else if Deletes(w, e) {
      PruneOneKeepsPaired(w.store, Deleted(w, e));
    } else if !e.PruneNext? && !e.ListReceipts? {
      OtherTouchesNoReceipt(w, e);
      hide Apply, Enabled;
    }
  }

  ghost predicate FreshRun(w: World, es: seq<Event>)
    requires Inv(w) && Follows(w, es)
    decreases |es|
  {
    es == [] || (FreshEntry(w, es[0]) && (StepKeeps(w, es[0]); FreshRun(Apply(w, es[0]), es[1..])))
  }

  ghost predicate PairedThroughout(w: World, es: seq<Event>)
    requires Inv(w) && Follows(w, es)
    decreases |es|
  {
    Paired(w.store) && (es == [] || (StepKeeps(w, es[0]); PairedThroughout(Apply(w, es[0]), es[1..])))
  }

  /** Whatever overlaps: receipts and expiry keys are in bijection in every state of a run exactly if every
      entry is deleted fresh, and then no live receipt is deleted. */
  lemma {:induction false} PairedExactly(w: World, es: seq<Event>)
    requires Inv(w) && Follows(w, es) && Paired(w.store)
    ensures PairedThroughout(w, es) <==> FreshRun(w, es)
    ensures FreshRun(w, es) ==> SparesRun(w, es) && Paired(After(w, es).store)
    decreases |es|
  {
    assert Sound(w.store);
    hide Inv, Sound, Apply, Enabled, Paired, SparesLive, FreshEntry;
    if es != [] {
      StepKeeps(w, es[0]);
      StepPairs(w, es[0]);
      if FreshEntry(w, es[0]) {
        PairedExactly(Apply(w, es[0]), es[1..]);
      }
    }
  }

  /** Pruning passes do not overlap: an alarm fires only when no other handler is still pruning. */
  predicate SerialStep(w: World, e: Event) {
    e.AlarmFires? ==> forall task :: task in w.tasks ==> !w.tasks[task].Armed? && !w.tasks[task].Pruning?
  }

  ghost predicate SerialRun(w: World, es: seq<Event>)
    requires Inv(w) && Follows(w, es)
    decreases |es|
  {
    es == [] || (SerialStep(w, es[0]) && (StepKeeps(w, es[0]); SerialRun(Apply(w, es[0]), es[1..])))
  }

  /** The one handler that prunes still finds every entry it listed. */
  ghost predicate ListingFresh(w: World) {
    && (forall task :: task in w.tasks && w.tasks[task].Pruning? ==>
          && (forall k :: k in w.tasks[task].entries ==> k in w.store.expiries)
          && forall i, j :: 0 <= i < j < |w.tasks[task].entries| ==> w.tasks[task].entries[i] != w.tasks[task].entries[j])
    && (forall a, b :: a in w.tasks && b in w.tasks && a != b ==>
          !((w.tasks[a].Armed? || w.tasks[a].Pruning?) && (w.tasks[b].Armed? || w.tasks[b].Pruning?)))
  }

  lemma PruneKeepsFresh(w: World, task: nat)
    requires Inv(w) && Enabled(w, PruneNext(task)) && ListingFresh(w)
    ensures ListingFresh(Apply(w, PruneNext(task)))
  {
    assert Sound(w.store);
    hide Inv, Sound;
    var entries := w.tasks[task].entries;
    var w' := Apply(w, PruneNext(task));
    if entries != [] && entries[0].expires <= w.now {
      forall k | k in entries[1..] ensures k in w'.store.expiries {
      }
    }
  }

  lemma ListKeepsFresh(w: World, task: nat, listed: seq<ExpiryKey>)
    requires Inv(w) && Enabled(w, ListReceipts(task, listed)) && ListingFresh(w)
    ensures ListingFresh(Apply(w, ListReceipts(task, listed)))
  {
    forall i, j | 0 <= i < j < |listed| ensures listed[i] != listed[j] {
      NotBeforeItself(KeyText(listed[i]));
    }
  }

  lemma AdmitKeepsFresh(w: World, env: Environment, request: AdmitRequest, id: string, checkedAt: int)
    requires ListingFresh(w)
    ensures ListingFresh(AdmitWorld(w, env, request, id, checkedAt))
  {
    hide AdmitStatus, RenderBody;
    assert w.store.expiries <= AdmitWorld(w, env, request, id, checkedAt).store.expiries;
  }

  lemma FreshCarries(w: World, w': World, e: Event)
    requires ListingFresh(w) && SerialStep(w, e) && w'.store.expiries == w.store.expiries
    requires forall t :: t in w'.tasks && w'.tasks[t].Pruning? ==> t in w.tasks && w'.tasks[t] == w.tasks[t]
    requires forall t :: t in w'.tasks && w'.tasks[t].Armed? ==> (t in w.tasks && w'.tasks[t] == w.tasks[t]) || e == AlarmFires(t)
    ensures ListingFresh(w')
  {
  }

  lemma StepKeepsFresh(w: World, e: Event)
    requires Inv(w) && Enabled(w, e) && ListingFresh(w) && SerialStep(w, e)
    ensures ListingFresh(Apply(w, e)) && FreshEntry(w, e)
  {
    assert Sound(w.store) && FreshEntry(w, e);
    hide Inv, Sound, ListingFresh, FreshEntry;
    match e
    case PruneNext(task) => PruneKeepsFresh(w, task);
    case ListReceipts(task, listed) => ListKeepsFresh(w, task, listed);
    case AdmitEvent(env, request, id, checkedAt) => AdmitKeepsFresh(w, env, request, id, checkedAt);
    case _ =>
      OtherTouchesNoReceipt(w, e);
      OtherStartsNoPruning(w, e);
      FreshCarries(w, Apply(w, e), e);
  }

  /** Serial pruning passes are one way to find every entry fresh. */
  lemma {:induction false} SerialIsFresh(w: World, es: seq<Event>)
    requires Inv(w) && Follows(w, es) && SerialRun(w, es) && ListingFresh(w)
    ensures FreshRun(w, es)
    decreases |es|
  {
    assert Sound(w.store);
    hide Inv, Sound, Apply, Enabled, SerialStep, ListingFresh, FreshEntry;
    if es != [] {
      StepKeeps(w, es[0]);
      StepKeepsFresh(w, es[0]);
      SerialIsFresh(Apply(w, es[0]), es[1..]);
    }
  }

  /** When pruning passes do not overlap, receipts and expiry keys pair up in every reachable state
      and an admit request is queued at most once for ever, except across its expiry. */
  lemma SerialQueuedOnce(now: nat, es: seq<Event>)
    requires Follows(Start(now), es) && SerialRun(Start(now), es)
    ensures Paired(After(Start(now), es).store)
    ensures RepeatsOnlyAtExpiry(After(Start(now), es))
  {
    hide Inv;
    SerialIsFresh(Start(now), es);
    PairedExactly(Start(now), es);
    QueuedOnceExceptAtExpiry(now, es);
  }
}
