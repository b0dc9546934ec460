/**
 Runs of the executor service: registrations, revocations, and decisions that pass one by one through the
 queue of promises in front of the decision transaction.
 */
module ClaimDecisions {
  import opened Wrappers
  import opened ExecutorClaims

  datatype Call = Call(claimId: string, decision: Decision, userId: string, key: string)
  /** A call waits for the promise that was the tail when it came, and releases its own when it is done. */
  datatype Ticket = Ticket(predecessor: nat, own: nat, call: Call)
  /** `won` tells that the call decided a claim that was open, `at` when its transaction ran. */
  datatype Entry = Entry(call: Call, outcome: DecideOutcome, won: bool, at: int)

  /** Promises are numbered in the order of their creation; `arrived` lists the calls in the order they came,
      `history` those that are done. */
  datatype World = World(
    t: Tables, tail: nat, released: set<nat>, waiting: map<nat, Ticket>, running: map<nat, Ticket>,
    now: int, arrived: seq<Call>, history: seq<Entry>)

  datatype Event =
    | Creates(request: ClaimRequest, token: string, expiresAt: int)
    | Arrives(task: nat, call: Call)
    | Starts(task: nat)
    | Ends(task: nat, fails: bool)
    | Revokes(userId: string, executorId: string)
    | Tick(ms: nat)

  predicate Enabled(w: World, e: Event) {
    match e
    case Arrives(task, _) => task !in w.waiting && task !in w.running
    case Starts(task) => task in w.waiting && w.waiting[task].predecessor in w.released
    case Ends(task, _) => task in w.running
    case _ => true
  }

  function Decides(t: Tables, call: Call, now: int, fails: bool): (Tables, DecideOutcome) {
    if fails then (t, DecideFailed) else Decide(t, call.claimId, call.decision, call.userId, call.key, now)
  }

  /** A call releases its promise whether its transaction commits or fails. */
  function Ended(w: World, task: nat, fails: bool): World
    requires task in w.running
  {
    var ticket := w.running[task];
    var (t, outcome) := Decides(w.t, ticket.call, w.now, fails);
    w.(t := t, running := w.running - {task}, released := w.released + {ticket.own},
       history := w.history + [Entry(ticket.call, outcome, IsOpen(w.t.claims, ticket.call.claimId) && !IsOpen(t.claims, ticket.call.claimId), w.now)])
  }

  ghost function Apply(w: World, e: Event): World
    requires Enabled(w, e)
  {
    match e
    case Creates(request, token, expiresAt) => w.(t := CreateClaim(w.t, request, token, expiresAt).0)
    case Arrives(task, call) => w.(waiting := w.waiting[task := Ticket(w.tail, w.tail + 1, call)], tail := w.tail + 1, arrived := w.arrived + [call])
    case Starts(task) => w.(waiting := w.waiting - {task}, running := w.running[task := w.waiting[task]])
    case Ends(task, fails) => Ended(w, task, fails)
    case Revokes(userId, executorId) => w.(t := Revoke(w.t, userId, executorId).0)
    case Tick(ms) => w.(now := w.now + ms)
  }

  // ------------------------------------------------------------ the queue

  /** The tickets behind those served are held, one each, and only the first of them may run. */
  ghost predicate Queued(tail: nat, released: set<nat>, waiting: map<nat, Ticket>, running: map<nat, Ticket>, served: nat) {
    && served <= tail && (forall n: nat :: n in released <==> n <= served)
    && (forall k :: k in waiting ==> served < waiting[k].own <= tail && waiting[k].predecessor == waiting[k].own - 1)
    && (forall k :: k in running ==> running[k].own == served + 1 <= tail && k !in waiting)
    && (forall j, k :: j in waiting && k in waiting && j != k ==> waiting[j].own != waiting[k].own)
    && (forall j, k :: j in running && k in running ==> j == k)
    && (forall j, k :: j in waiting && k in running ==> waiting[j].own != running[k].own)
    && (forall n: nat :: served < n <= tail ==> Held(waiting, running, n))
  }

  ghost predicate Held(waiting: map<nat, Ticket>, running: map<nat, Ticket>, n: nat) {
    (exists k :: k in waiting && waiting[k].own == n) || (exists k :: k in running && running[k].own == n)
  }

  /** Calls are done in the order in which they came. */
  ghost predicate InOrder(w: World) {
    && |w.arrived| == w.tail && Done(w.arrived, w.history) && Called(w.arrived, w.waiting) && Called(w.arrived, w.running)
  }

  ghost predicate Done(arrived: seq<Call>, history: seq<Entry>) {
    |history| <= |arrived| && forall i :: 0 <= i < |history| ==> history[i].call == arrived[i]
  }

  ghost predicate Called(arrived: seq<Call>, tickets: map<nat, Ticket>) {
    forall k :: k in tickets ==> 1 <= tickets[k].own <= |arrived| && arrived[tickets[k].own - 1] == tickets[k].call
  }

  // ------------------------------------------------------------ decided claims

  /** What decides a claim decides it for good. */
  ghost predicate Lasts(t: Tables, t': Tables) {
    && (forall c :: c in t.claims && t.claims[c].status != Open ==> c in t'.claims && t'.claims[c] == t.claims[c])
    && (forall e :: e in t.executors && t.executors[e].state != Pending ==>
          && e in t'.executors && t'.executors[e].owner == t.executors[e].owner
          && (t.executors[e].state == Revoked ==> t'.executors[e] == t.executors[e])
          && t'.executors[e].state != Pending)
  }

  /** The claim is as this call decided it. */
  predicate DecidedBy(t: Tables, call: Call) {
    && call.claimId in t.claims && t.claims[call.claimId].decidedBy == Some(call.userId) && t.claims[call.claimId].decisionKey == Some(call.key)
    && t.claims[call.claimId].status == (if call.decision == Accept then Accepted else Denied)
  }

  predicate SameCall(a: Call, b: Call) {
    a.decision == b.decision && a.userId == b.userId && a.key == b.key
  }

  /** What the winner of a claim leaves for a later call of it: a replay, unless it is the same call again;
      any call may fail. */
  predicate Loses(winner: Entry, later: Entry) {
    && !later.won
    && (later.outcome == DecideFailed
        || later.outcome == (if SameCall(winner.call, later.call) then winner.outcome else Replayed))
  }

  function OutcomeOf(decision: Decision): DecideOutcome {
    if decision == Accept then DecidedAccepted else DecidedDenied
  }

  ghost predicate OneWinner(t: Tables, history: seq<Entry>) {
    && (forall i :: 0 <= i < |history| && history[i].won ==>
          && DecidedBy(t, history[i].call) && history[i].outcome == OutcomeOf(history[i].call.decision)
          && history[i].at < t.claims[history[i].call.claimId].expiresAt)
    && (forall i, j :: 0 <= i < j < |history| && history[i].won && history[j].call.claimId == history[i].call.claimId ==>
          Loses(history[i], history[j]))
  }

  ghost predicate Inv(w: World) {
    && ExecutorClaims.Inv(w.t) && Queued(w.tail, w.released, w.waiting, w.running, |w.history|) && InOrder(w)
    && OneWinner(w.t, w.history)
  }

  lemma StepTables(w: World, e: Event)
    requires Inv(w) && Enabled(w, e)
    ensures ExecutorClaims.Inv(Apply(w, e).t) && Lasts(w.t, Apply(w, e).t)
  {
    hide Queued, InOrder, OneWinner;
    match e
    case Creates(request, token, expiresAt) =>
      CreateKeeps(w.t, request, token, expiresAt);
      CreateLasts(w.t, request, token, expiresAt);
      hide ExecutorClaims.Inv, CreateClaim;
    case Ends(task, fails) =>
      var call := w.running[task].call;
      DecideKeeps(w.t, call.claimId, call.decision, call.userId, call.key, w.now);
      DecideLasts(w.t, call, w.now);
      hide ExecutorClaims.Inv, Decide;
    case Revokes(userId, executorId) =>
      RevokeKeeps(w.t, userId, executorId);
      RevokeLasts(w.t, userId, executorId);
      hide ExecutorClaims.Inv, Revoke;
    case _ =>
  }

  lemma CreateLasts(t: Tables, request: ClaimRequest, token: string, expiresAt: int)
    requires ExecutorClaims.Inv(t)
    ensures Lasts(t, CreateClaim(t, request, token, expiresAt).0)
  {
    hide ClaimsSound, ExecutorsSound, Granted, CredentialsSound, Known, DeviceTaken, ClaimedOtherwise, Repeats;
    if !Known(t.claims, request) {
      NotKnown(t.claims, request);
    }
  }

  lemma DecideLasts(t: Tables, call: Call, now: int)
    requires ExecutorClaims.Inv(t)
    ensures Lasts(t, Decide(t, call.claimId, call.decision, call.userId, call.key, now).0)
  {
    hide ClaimsSound, ExecutorsSound, Granted, CredentialsSound;
  }

  lemma RevokeLasts(t: Tables, userId: string, executorId: string)
    requires ExecutorClaims.Inv(t)
    ensures Lasts(t, Revoke(t, userId, executorId).0)
  {
    hide ClaimsSound, ExecutorsSound, Granted, CredentialsSound;
  }

  lemma ArrivalQueued(w: World, task: nat, call: Call)
    requires Inv(w) && Enabled(w, Arrives(task, call))
    ensures var w' := Apply(w, Arrives(task, call)); Queued(w'.tail, w'.released, w'.waiting, w'.running, |w'.history|)
  {
    hide InOrder, OneWinner, ExecutorClaims.Inv;
    var w' := Apply(w, Arrives(task, call));
    forall n: nat | |w.history| < n <= w'.tail ensures Held(w'.waiting, w'.running, n) {
      if n <= w.tail {
        assert Held(w.waiting, w.running, n);
        if k :| k in w.waiting && w.waiting[k].own == n {
          assert w'.waiting[k].own == n;
        }
      } else {
        assert w'.waiting[task].own == n;
      }
    }
  }

  lemma StartQueued(w: World, task: nat)
    requires Inv(w) && Enabled(w, Starts(task))
    ensures var w' := Apply(w, Starts(task)); Queued(w'.tail, w'.released, w'.waiting, w'.running, |w'.history|)
  {
    hide InOrder, OneWinner, ExecutorClaims.Inv;
    var w' := Apply(w, Starts(task));
    assert w.waiting[task].own == |w.history| + 1 && w.running == map[];
    forall n: nat | |w.history| < n <= w'.tail ensures Held(w'.waiting, w'.running, n) {
      assert Held(w.waiting, w.running, n);
      var k :| k in w.waiting && w.waiting[k].own == n;
      if k == task {
        assert w'.running[k].own == n;
      } else {
        assert w'.waiting[k].own == n;
      }
    }
  }

  lemma EndQueued(w: World, task: nat, fails: bool)
    requires Inv(w) && Enabled(w, Ends(task, fails))
    ensures var w' := Apply(w, Ends(task, fails)); Queued(w'.tail, w'.released, w'.waiting, w'.running, |w'.history|)
  {
    hide InOrder, OneWinner, ExecutorClaims.Inv, Decides;
    var w' := Apply(w, Ends(task, fails));
    forall n: nat | |w'.history| < n <= w'.tail ensures Held(w'.waiting, w'.running, n) {
      assert Held(w.waiting, w.running, n);
      var k :| k in w.waiting && w.waiting[k].own == n;
    }
  }

  lemma StepQueued(w: World, e: Event)
    requires Inv(w) && Enabled(w, e)
    ensures var w' := Apply(w, e); Queued(w'.tail, w'.released, w'.waiting, w'.running, |w'.history|)
  {
    hide InOrder, OneWinner, CreateClaim, Decide, Revoke, Queued, ExecutorClaims.Inv;
    match e
    case Arrives(task, call) => ArrivalQueued(w, task, call);
    case Starts(task) => StartQueued(w, task);
    case Ends(task, fails) => EndQueued(w, task, fails);
    case _ =>
  }

  lemma ArrivalInOrder(w: World, call: Call, task: nat)
    requires InOrder(w)
    ensures var arrived := w.arrived + [call];
      && Done(arrived, w.history) && Called(arrived, w.running)
      && Called(arrived, w.waiting[task := Ticket(w.tail, w.tail + 1, call)])
  {
  }

  lemma EndInOrder(w: World, task: nat, fails: bool)
    requires Inv(w) && task in w.running
    ensures InOrder(Ended(w, task, fails))
  {
    assert w.running[task].own == |w.history| + 1 <= w.tail;
    assert w.arrived[|w.history|] == w.running[task].call;
    hide Queued, OneWinner, ExecutorClaims.Inv, Decides;
  }

  lemma StepInOrder(w: World, e: Event)
    requires Inv(w) && Enabled(w, e)
    ensures InOrder(Apply(w, e))
  {
    hide OneWinner, CreateClaim, Decides, Revoke, ExecutorClaims.Inv, Queued, Done, Ended;
    if e.Ends? {
      EndInOrder(w, e.task, e.fails);
    } else if e.Arrives? {
      hide Called;
      ArrivalInOrder(w, e.call, e.task);
      assert InOrder(Apply(w, e));
    } else if e.Starts? {
      assert InOrder(Apply(w, e));
    }
  }

  lemma LastingDecisions(t: Tables, t': Tables, history: seq<Entry>)
    requires OneWinner(t, history) && Lasts(t, t')
    ensures OneWinner(t', history)
  {
    forall i | 0 <= i < |history| && history[i].won ensures DecidedBy(t', history[i].call) {
      assert DecidedBy(t, history[i].call);
    }
    hide Lasts, Loses;
  }

  /** A call decides an open claim, and is told so; of a claim that is decided it learns the decision. */
  lemma CallOutcome(t: Tables, call: Call, now: int, fails: bool)
    ensures var (t', outcome) := Decides(t, call, now, fails);
      && (IsOpen(t.claims, call.claimId) && !IsOpen(t'.claims, call.claimId) ==>
            DecidedBy(t', call) && outcome == OutcomeOf(call.decision) && now < t'.claims[call.claimId].expiresAt)
      && (call.claimId in t.claims && !IsOpen(t.claims, call.claimId) ==>
            outcome == DecideFailed || outcome == Terminal(t.claims[call.claimId], call.decision, call.userId, call.key))
  {
  }

  lemma EndOneWinner(w: World, task: nat, fails: bool)
    requires Inv(w) && task in w.running && Lasts(w.t, Ended(w, task, fails).t)
    ensures OneWinner(Ended(w, task, fails).t, Ended(w, task, fails).history)
  {
    hide ExecutorClaims.Inv, Queued, InOrder;
    var w' := Ended(w, task, fails);
    var last := w'.history[|w.history|];
    LastingDecisions(w.t, w'.t, w.history);
    CallOutcome(w.t, last.call, w.now, fails);
    hide Decides, Lasts;
    forall i | 0 <= i < |w.history| && w.history[i].won && last.call.claimId == w.history[i].call.claimId
      ensures Loses(w.history[i], last)
    {
      assert DecidedBy(w.t, w.history[i].call);
    }
    hide Loses, DecidedBy;
  }

  lemma StepOneWinner(w: World, e: Event)
    requires Inv(w) && Enabled(w, e)
    ensures OneWinner(Apply(w, e).t, Apply(w, e).history)
  {
    StepTables(w, e);
    hide ExecutorClaims.Inv, Queued, InOrder, OneWinner, Lasts;
    if e.Ends? {
      EndOneWinner(w, e.task, e.fails);
    } else {
      LastingDecisions(w.t, Apply(w, e).t, w.history);
    }
  }

  lemma StepKeeps(w: World, e: Event)
    requires Inv(w) && Enabled(w, e)
    ensures Inv(Apply(w, e))
  {
    StepTables(w, e);
    StepQueued(w, e);
    StepInOrder(w, e);
    StepOneWinner(w, e);
    hide ExecutorClaims.Inv, Queued, InOrder, OneWinner, Apply, Enabled;
  }

  // ------------------------------------------------------------ whole runs

  ghost function Start(now: int): (w: World)
    ensures Inv(w)
  {
    World(EMPTY_TABLES, 0, {0}, map[], map[], now, [], [])
  }

  ghost predicate Follows(w: World, es: seq<Event>)
    decreases |es|
  {
    es == [] || (Enabled(w, es[0]) && Follows(Apply(w, es[0]), es[1..]))
  }

  ghost function After(w: World, es: seq<Event>): World
    requires Follows(w, es)
    decreases |es|
  {
    if es == [] then w else After(Apply(w, es[0]), es[1..])
  }

  lemma {:induction false} RunKeeps(w: World, es: seq<Event>)
    requires Inv(w) && Follows(w, es)
    ensures Inv(After(w, es))
    decreases |es|
  {
    hide Inv, Apply, Enabled;
    if es != [] {
      StepKeeps(w, es[0]);
      RunKeeps(Apply(w, es[0]), es[1..]);
    }
  }

  /** Racing decisions of a claim yield at most one winner; every other is told of a replay, or that it failed,
      unless it is the winning call again, which is told of the same outcome. */
  lemma RacingDecidesOneWinner(now: int, es: seq<Event>, i: nat, j: nat)
    requires Follows(Start(now), es)
    requires var h := After(Start(now), es).history; i < j < |h| && h[i].call.claimId == h[j].call.claimId
    ensures var h := After(Start(now), es).history;
      && !(h[i].won && h[j].won)
      && (h[i].won ==> h[j].outcome in {DecideFailed, if SameCall(h[i].call, h[j].call) then h[i].outcome else Replayed})
  {
    RunKeeps(Start(now), es);
    hide Follows, After, Start, Queued, InOrder, ExecutorClaims.Inv, DecidedBy;
  }

  /** Whoever wins a claim decides it before it expires: what the claim became, it keeps from then on. */
  lemma WonInTime(now: int, es: seq<Event>, i: nat)
    requires Follows(Start(now), es)
    requires var h := After(Start(now), es).history; i < |h| && h[i].won
    ensures var w := After(Start(now), es);
      && w.history[i].call.claimId in w.t.claims && w.history[i].at < w.t.claims[w.history[i].call.claimId].expiresAt
      && DecidedBy(w.t, w.history[i].call)
  {
    RunKeeps(Start(now), es);
    hide Follows, After, Start, Queued, InOrder, ExecutorClaims.Inv;
  }

  /** Decisions run one at a time in the order of their arrival, failed ones included, and never stall: when
      some are waiting, one runs or the next one may start. */
  lemma DecisionsInOrder(now: int, es: seq<Event>)
    requires Follows(Start(now), es)
    ensures var w := After(Start(now), es);
      && |w.history| <= |w.arrived| && (forall i :: 0 <= i < |w.history| ==> w.history[i].call == w.arrived[i])
      && (forall j, k :: j in w.running && k in w.running ==> j == k)
      && (forall k :: k in w.running ==> |w.history| < |w.arrived| && w.running[k].call == w.arrived[|w.history|])
      && (w.waiting != map[] && w.running == map[] ==> exists k :: k in w.waiting && Enabled(w, Starts(k)))
  {
    RunKeeps(Start(now), es);
    var w := After(Start(now), es);
    hide Follows, After, Start, OneWinner, ExecutorClaims.Inv;
    if w.waiting != map[] && w.running == map[] {
      var j :| j in w.waiting;
      assert Held(w.waiting, w.running, |w.history| + 1);
      var k :| k in w.waiting && w.waiting[k].own == |w.history| + 1;
      assert Enabled(w, Starts(k));
    }
  }

  lemma {:induction false} RunLasts(w: World, es: seq<Event>, e: string)
    requires Inv(w) && Follows(w, es) && e in w.t.executors && w.t.executors[e].state != Pending
    ensures e in After(w, es).t.executors && After(w, es).t.executors[e].owner == w.t.executors[e].owner
    ensures w.t.executors[e].state == Revoked ==> After(w, es).t.executors[e] == w.t.executors[e]
    decreases |es|
  {
    if es != [] {
      StepKeeps(w, es[0]);
      StepTables(w, es[0]);
      hide Inv, Apply, Enabled;
      RunLasts(Apply(w, es[0]), es[1..], e);
    }
  }

  /** An owner is for life, and after a committed revocation no channel of the executor authenticates ever again. */
  lemma RevokedForever(now: int, es: seq<Event>, later: seq<Event>, e: string, token: string, deviceId: string, generation: nat)
    requires Follows(Start(now), es) && Follows(After(Start(now), es), later)
    requires e in After(Start(now), es).t.executors && After(Start(now), es).t.executors[e].state != Pending
    ensures var (t, t') := (After(Start(now), es).t, After(After(Start(now), es), later).t);
      && e in t'.executors && t'.executors[e].owner == t.executors[e].owner && t.executors[e].owner.Some?
      && (t.executors[e].state == Revoked ==> t'.executors[e].generation == 2 && !Authenticates(t', token, e, deviceId, generation))
  {
    RunKeeps(Start(now), es);
    var w := After(Start(now), es);
    assert ExecutorSound(w.t.executors[e]);
    hide Follows, After, Start, Inv;
    RunLasts(w, later, e);
  }

  lemma {:induction false} RunKeepsDecision(w: World, es: seq<Event>, c: string)
    requires Inv(w) && Follows(w, es) && c in w.t.claims && w.t.claims[c].status != Open
    ensures c in After(w, es).t.claims && After(w, es).t.claims[c] == w.t.claims[c]
    decreases |es|
  {
    if es != [] {
      StepKeeps(w, es[0]);
      StepTables(w, es[0]);
      hide Inv, Apply, Enabled;
      RunKeepsDecision(Apply(w, es[0]), es[1..], c);
    }
  }

  /** A denial is for good: the claim stays denied, and its executor pending, without owner or credential,
      whatever is claimed for it later. */
  lemma DeniedForGood(now: int, es: seq<Event>, later: seq<Event>, c: string, token: string, deviceId: string, generation: nat)
    requires Follows(Start(now), es) && Follows(After(Start(now), es), later)
    requires c in After(Start(now), es).t.claims && After(Start(now), es).t.claims[c].status == Denied
    ensures var (t, t') := (After(Start(now), es).t, After(After(Start(now), es), later).t);
      var e := t.claims[c].request.executorId;
      && c in t'.claims && t'.claims[c] == t.claims[c]
      && e in t'.executors && t'.executors[e].state == Pending && t'.executors[e].owner.None?
      && !Authenticates(t', token, e, deviceId, generation)
  {
    RunKeeps(Start(now), es);
    var w := After(Start(now), es);
    RunKeepsDecision(w, later, c);
    RunKeeps(w, later);
    var t' := After(w, later).t;
    assert ClaimSound(t'.executors, c, t'.claims[c]);
    assert ExecutorSound(t'.executors[t'.claims[c].request.executorId]);
    hide Follows, After, Start, Inv;
  }
}
