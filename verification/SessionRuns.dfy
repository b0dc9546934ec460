/**
 Ephemeral invokes over whole runs: they open, chunks arrive for them, executors close them, they time out,
 viewers go and channels come and go. Timers are the runtime's; `answers` and `openedAt` are history.
 */
module SessionRuns {
  import opened Wrappers
  import opened JsMaps
  import opened SessionFrames

  const SESSION_INVOKE_TIMEOUT_MS: int := 30_000

  datatype InvokeAnswer = Replied(message: string) | BudgetExceeded | ClosedByExecutor | TimedOut | ExecutorOffline

  datatype World = World(
    sessions: Sessions, timers: map<string, int>, answers: map<string, seq<InvokeAnswer>>, openedAt: map<string, int>, now: int)

  /** `Renews` stands for a new channel and for the close of the channel that presence belongs to. */
  datatype Event =
    | Opens(sessionId: string, id: string)
    | Arrives(sessionId: string, chunk: Chunk)
    | SessionCloses(sessionId: string)
    | TimesOut(sessionId: string)
    | ViewerCloses(sessionId: string)
    | Renews
    | Tick(ms: nat)

  /** The payload budgets, and which messages answer the invoke with a given id. */
  datatype Protocol = Protocol(budget: Budget, answers: (string, string) -> bool)

  predicate Enabled(w: World, e: Event) {
    match e
    case Opens(sessionId, _) => sessionId != "" && sessionId !in w.answers
    case TimesOut(sessionId) => sessionId in w.timers && w.timers[sessionId] <= w.now
    case _ => true
  }

  /** The invokes that the new sessions no longer hold are answered, and their timers cleared. */
  function Ended(w: World, sessions: Sessions, answer: InvokeAnswer): World {
    var gone := w.sessions.ephemeral.Keys - sessions.ephemeral.Keys;
    w.(sessions := sessions, timers := w.timers - gone,
       answers := map id | id in w.answers :: if id in gone then w.answers[id] + [answer] else w.answers[id])
  }

  function ReplyOf(verdict: Verdict): InvokeAnswer {
    match verdict
    case Completed(message, _) => Replied(message)
    case _ => BudgetExceeded
  }

  function Apply(p: Protocol, w: World, e: Event): World
    requires Enabled(w, e)
  {
    match e
    case Opens(sessionId, id) =>
      w.(sessions := OpenInvoke(w.sessions, sessionId, id), timers := w.timers[sessionId := w.now + SESSION_INVOKE_TIMEOUT_MS],
         answers := w.answers[sessionId := []], openedAt := w.openedAt[sessionId := w.now])
    case Arrives(sessionId, chunk) =>
      var (sessions, verdict) := OnSessionFrame(w.sessions, p.budget, sessionId, chunk, p.answers);
      Ended(w, sessions, ReplyOf(verdict))
    case SessionCloses(sessionId) =>
      if sessionId == "" then w else Ended(w, FailSession(w.sessions, sessionId), ClosedByExecutor)
    case TimesOut(sessionId) => Ended(w, FailSession(w.sessions, sessionId), TimedOut)
    case ViewerCloses(sessionId) => w.(sessions := CloseViewer(w.sessions, sessionId))
    case Renews => Ended(w, Sessions(map[], map[]), ExecutorOffline)
    case Tick(ms) => w.(now := w.now + ms)
  }

  // ------------------------------------------------------------ what every step keeps

  /** An invoke waits exactly while it is unanswered, with its timer armed for 30 seconds after it opened. */
  ghost predicate Waiting(w: World) {
    && w.timers.Keys == w.sessions.ephemeral.Keys && w.answers.Keys == w.openedAt.Keys
    && (forall id :: id in w.sessions.ephemeral <==> id in w.answers && w.answers[id] == [])
    && (forall id :: id in w.answers ==> |w.answers[id]| <= 1)
    && (forall id :: id in w.timers ==> id in w.openedAt && w.timers[id] == w.openedAt[id] + SESSION_INVOKE_TIMEOUT_MS)
  }

  /** Groups are open only for invokes that wait, or that were answered by a reply while others were open. */
  ghost predicate Attached(w: World) {
    forall id :: id in w.sessions.frames ==>
      id in w.sessions.ephemeral || (id in w.answers && |w.answers[id]| == 1 && w.answers[id][0].Replied?)
  }

  ghost predicate Inv(p: Protocol, w: World) {
    Sound(w.sessions, p.budget) && Waiting(w) && Attached(w)
  }

  /** What a step may do to the sessions. */
  ghost predicate Shrinks(s: Sessions, s': Sessions, replied: bool) {
    && s'.ephemeral.Keys <= s.ephemeral.Keys
    && forall id :: id in s'.frames ==>
         (id in s.frames || id in s.ephemeral) && (id in s.ephemeral && id !in s'.ephemeral ==> replied)
  }

  lemma EndedKeeps(p: Protocol, w: World, sessions: Sessions, answer: InvokeAnswer)
    requires Inv(p, w) && Sound(sessions, p.budget) && Shrinks(w.sessions, sessions, answer.Replied?)
    ensures Inv(p, Ended(w, sessions, answer))
  {
    hide Sound;
  }

  /** A chunk ends no invoke but its session's, and leaves its groups only behind a reply. */
  lemma ChunkShrinks(s: Sessions, budget: Budget, sessionId: string, chunk: Chunk, answers: (string, string) -> bool)
    ensures var (s', verdict) := OnSessionFrame(s, budget, sessionId, chunk, answers); Shrinks(s, s', ReplyOf(verdict).Replied?)
  {
    hide TotalBytes, Join, Set, Delete, GroupOf, WellFormed;
  }

  lemma FewerSound(s: Sessions, s': Sessions, budget: Budget)
    requires Sound(s, budget) && forall id :: id in s'.frames ==> id in s.frames && s'.frames[id] == s.frames[id]
    ensures Sound(s', budget)
  {
    hide GroupsSound;
  }

  /** A session that fails leaves nothing behind. */
  lemma FailKeeps(p: Protocol, w: World, sessionId: string, answer: InvokeAnswer)
    requires Inv(p, w) && !answer.Replied?
    ensures Inv(p, Ended(w, FailSession(w.sessions, sessionId), answer))
    ensures Inv(p, Ended(w, Sessions(map[], map[]), answer))
  {
    hide Ended, Waiting, Attached, Sound;
    FewerSound(w.sessions, FailSession(w.sessions, sessionId), p.budget);
    EndedKeeps(p, w, FailSession(w.sessions, sessionId), answer);
    FewerSound(w.sessions, Sessions(map[], map[]), p.budget);
    EndedKeeps(p, w, Sessions(map[], map[]), answer);
  }

  lemma ChunkKeeps(p: Protocol, w: World, sessionId: string, chunk: Chunk)
    requires Inv(p, w)
    ensures Inv(p, Apply(p, w, Arrives(sessionId, chunk)))
  {
    hide Ended, Waiting, Attached, Sound, OnSessionFrame, Shrinks;
    var (sessions, verdict) := OnSessionFrame(w.sessions, p.budget, sessionId, chunk, p.answers);
    FrameKeepsSound(w.sessions, p.budget, sessionId, chunk, p.answers);
    ChunkShrinks(w.sessions, p.budget, sessionId, chunk, p.answers);
    EndedKeeps(p, w, sessions, ReplyOf(verdict));
  }

  lemma StepKeeps(p: Protocol, w: World, e: Event)
    requires Inv(p, w) && Enabled(w, e)
    ensures Inv(p, Apply(p, w, e))
  {
    hide Inv, OnSessionFrame, Ended, FailSession;
    match e
    case Arrives(sessionId, chunk) => ChunkKeeps(p, w, sessionId, chunk);
    case SessionCloses(sessionId) => FailKeeps(p, w, sessionId, ClosedByExecutor);
    case TimesOut(sessionId) => FailKeeps(p, w, sessionId, TimedOut);
    case Renews => FailKeeps(p, w, "", ExecutorOffline);
    case _ => QuietKeeps(p, w, e);
  }

  lemma QuietKeeps(p: Protocol, w: World, e: Event)
    requires Inv(p, w) && Enabled(w, e) && (e.Opens? || e.ViewerCloses? || e.Tick?)
    ensures Inv(p, Apply(p, w, e))
  {
    hide Sound;
    FewerSound(w.sessions, Apply(p, w, e).sessions, p.budget);
  }

  // ------------------------------------------------------------ whole runs

  ghost function Start(now: int): World {
    World(Sessions(map[], map[]), map[], map[], map[], now)
  }

  ghost predicate Follows(p: Protocol, w: World, es: seq<Event>)
    decreases |es|
  {
    es == [] || (Enabled(w, es[0]) && Follows(p, Apply(p, w, es[0]), es[1..]))
  }

  ghost function After(p: Protocol, w: World, es: seq<Event>): World
    requires Follows(p, w, es)
    decreases |es|
  {
    if es == [] then w else After(p, Apply(p, w, es[0]), es[1..])
  }

  lemma {:induction false} RunKeeps(p: Protocol, w: World, es: seq<Event>)
    requires Inv(p, w) && Follows(p, w, es)
    ensures Inv(p, After(p, w, es))
    decreases |es|
  {
    hide Inv, Apply, Enabled;
    if es != [] {
      StepKeeps(p, w, es[0]);
      RunKeeps(p, Apply(p, w, es[0]), es[1..]);
    }
  }

  /** In every run, whatever ends sessions, all bounds on open groups hold in every state, every invoke is
      answered at most once, and it waits exactly while it is unanswered, with a timer that answers it 30
      seconds after it opened. */
  lemma InvokesAnsweredOnce(p: Protocol, now: int, es: seq<Event>, id: string)
    requires Follows(p, Start(now), es) && id in After(p, Start(now), es).answers
    ensures var w := After(p, Start(now), es);
      && Sound(w.sessions, p.budget) && |w.answers[id]| <= 1
      && (w.answers[id] == [] <==> id in w.sessions.ephemeral) && (w.answers[id] == [] <==> id in w.timers)
      && (id in w.timers ==> id in w.openedAt && w.timers[id] == w.openedAt[id] + 30_000)
      && (id in w.timers && w.timers[id] <= w.now ==>
            && Apply(p, w, TimesOut(id)).answers[id] == [TimedOut]
            && id !in Apply(p, w, TimesOut(id)).sessions.frames && id !in Apply(p, w, TimesOut(id)).timers)
  {
    RunKeeps(p, Start(now), es);
    hide Follows, After, Start, Sound;
  }

  /** Groups without an invoke remain only of sessions whose invoke was answered by a reply. */
  lemma OnlyRepliesLeaveGroups(p: Protocol, now: int, es: seq<Event>, sessionId: string)
    requires Follows(p, Start(now), es)
    requires sessionId in After(p, Start(now), es).sessions.frames && sessionId !in After(p, Start(now), es).sessions.ephemeral
    ensures var w := After(p, Start(now), es);
      && sessionId in w.answers && (exists message :: w.answers[sessionId] == [Replied(message)])
      && forall chunk :: Apply(p, w, Arrives(sessionId, chunk)) == w
  {
    RunKeeps(p, Start(now), es);
    var w := After(p, Start(now), es);
    hide Follows, After, Start, Sound;
    assert w.answers[sessionId] == [Replied(w.answers[sessionId][0].message)];
    forall chunk ensures Apply(p, w, Arrives(sessionId, chunk)) == w {
      NothingEnds(w);
      hide Ended;
    }
  }

  lemma NothingEnds(w: World)
    ensures forall answer :: Ended(w, w.sessions, answer) == w
  {
    forall answer ensures Ended(w, w.sessions, answer) == w {
      assert w.sessions.ephemeral.Keys - w.sessions.ephemeral.Keys == {};
      assert Ended(w, w.sessions, answer).answers == w.answers;
    }
  }

  /** A reply leaves groups behind exactly if the session had another one open. */
  lemma LeftBehindExactly(s: Sessions, budget: Budget, sessionId: string, chunk: Chunk, answers: (string, string) -> bool)
    requires Sound(s, budget)
    requires var verdict := OnSessionFrame(s, budget, sessionId, chunk, answers).1; verdict.Completed? && verdict.answers
    ensures var s' := OnSessionFrame(s, budget, sessionId, chunk, answers).0;
      && sessionId !in s'.ephemeral
      && (sessionId in s'.frames <==> exists f :: f in Groups(s, sessionId).values && f != chunk.frameId)
  {
    var groups := Groups(s, sessionId);
    var group := GroupOf(groups, chunk).value;
    var updated := Set(groups, chunk.frameId, Grown(group, chunk));
    assert Ordered(groups);
    SetOrdered(groups, chunk.frameId, Grown(group, chunk));
    DeleteOrdered(updated, chunk.frameId);
    EmptyOrdered(Delete(updated, chunk.frameId));
    hide TotalBytes, Join, Ordered, Sound, GroupOf, WellFormed;
  }

  lemma EmptyOrdered(groups: JsMap<Pending>)
    requires Ordered(groups)
    ensures groups.keys == [] <==> groups.values == map[]
  {
    if groups.keys != [] {
      assert groups.keys[0] in groups.values;
    }
  }
}
