/** The bounded replay log of a swarm machine, and a client that polls it. */
module SwarmReplay {
  import opened Wrappers

  const SWARM_EVENT_LIMIT: nat := 500
  const MAX_PAGE: nat := 100

  datatype StoredFrame = StoredFrame(cursor: nat, frame: string)
  datatype Log = Log(cursor: nat, events: seq<StoredFrame>)

  function Last(events: seq<StoredFrame>, n: nat): seq<StoredFrame> {
    if |events| <= n then events else events[|events| - n..]
  }

  function Append(log: Log, frame: string): Log {
    Log(log.cursor + 1, Last(log.events + [StoredFrame(log.cursor + 1, frame)], SWARM_EVENT_LIMIT))
  }

  function Newer(events: seq<StoredFrame>, after: nat): seq<StoredFrame> {
    if events == [] then []
    else (if events[0].cursor > after then [events[0]] else []) + Newer(events[1..], after)
  }

  /** The query parameters as numbers, where they are safe integers. */
  function After(raw: Option<int>): nat {
    if raw.Some? && raw.value >= 0 then raw.value else 0
  }

  function Limit(raw: Option<int>): (limit: nat)
    ensures 1 <= limit <= MAX_PAGE
  {
    if raw.None? then MAX_PAGE else if raw.value < 1 then 1 else if raw.value > MAX_PAGE then MAX_PAGE else raw.value
  }

  /** A query asks for what comes after the start, and for a hundred frames, unless it says otherwise in range. */
  lemma QueryExactly(raw: int)
    ensures After(None) == 0 && Limit(None) == 100
    ensures After(Some(raw)) == (if raw < 0 then 0 else raw)
    ensures Limit(Some(raw)) == (if raw < 1 then 1 else if raw > 100 then 100 else raw)
  {
  }

  /** A page and the cursor to ask with next. */
  function Page(log: Log, after: nat, limit: nat): (seq<StoredFrame>, nat) {
    var newer := Newer(log.events, after);
    var page := if |newer| <= limit then newer else newer[..limit];
    (page, if page == [] then after else page[|page| - 1].cursor)
  }

  class SwarmMachineCoordinator {
    var cursor: nat
    var events: seq<StoredFrame>

    constructor ()
      ensures Stored() == Log(0, [])
    {
      cursor, events := 0, [];
    }

    function Stored(): Log
      reads this
    {
      Log(cursor, events)
    }

    method AppendFrame(frame: string)
      modifies this
      ensures Stored() == Append(old(Stored()), frame)
    {
      var next := cursor + 1;
      var current := events + [StoredFrame(next, frame)];
      cursor := next;
      events := if |current| > SWARM_EVENT_LIMIT then current[|current| - SWARM_EVENT_LIMIT..] else current;
    }

    method Events(rawAfter: Option<int>, rawLimit: Option<int>) returns (page: seq<StoredFrame>, nextCursor: nat)
      ensures (page, nextCursor) == Page(Stored(), After(rawAfter), Limit(rawLimit))
    {
      var after, limit := After(rawAfter), Limit(rawLimit);
      page := Newer(events, after);
      if |page| > limit {
        page := page[..limit];
      }
      nextCursor := if page == [] then after else page[|page| - 1].cursor;
    }
  }

  // ------------------------------------------------------------ the log refines the list of all frames

  /** How many of `n` frames have been evicted. */
  function Evicted(n: nat): nat {
    if n > 500 then n - 500 else 0
  }

  /** Frames `from` to `to` of all frames, numbered from one. */
  function Numbered(all: seq<string>, from: nat, to: nat): (frames: seq<StoredFrame>)
    requires from <= to <= |all|
    ensures |frames| == to - from
    ensures forall i :: 0 <= i < |frames| ==> frames[i] == StoredFrame(from + i + 1, all[from + i])
  {
    seq(to - from, i requires 0 <= i < to - from => StoredFrame(from + i + 1, all[from + i]))
  }

  /** The log holds exactly the last 500 of all frames, with consecutive cursors up to their number. */
  predicate Holds(log: Log, all: seq<string>) {
    log.cursor == |all| && log.events == Numbered(all, Evicted(|all|), |all|)
  }

  lemma AppendHolds(log: Log, all: seq<string>, frame: string)
    requires Holds(log, all)
    ensures Holds(Append(log, frame), all + [frame])
  {
    var log', all' := Append(log, frame), all + [frame];
    assert |log'.events| == |all'| - Evicted(|all'|);
    assert forall i :: 0 <= i < |log'.events| ==> log'.events[i] == StoredFrame(Evicted(|all'|) + i + 1, all'[Evicted(|all'|) + i]);
  }

  function Max(a: nat, b: nat): nat {
    if a > b then a else b
  }

  lemma {:induction false} NewerOf(all: seq<string>, from: nat, after: nat)
    requires from <= |all|
    ensures Newer(Numbered(all, from, |all|), after) == if after >= |all| then [] else Numbered(all, Max(from, after), |all|)
    decreases |all| - from
  {
    if from < |all| {
      var frames := Numbered(all, from, |all|);
      assert frames[1..] == Numbered(all, from + 1, |all|);
      NewerOf(all, from + 1, after);
      if after <= from {
        assert [frames[0]] + Numbered(all, from + 1, |all|) == frames;
      }
    }
  }

  lemma NumberedSplit(all: seq<string>, from: nat, mid: nat)
    requires from <= mid <= |all|
    ensures Numbered(all, from, |all|) == Numbered(all, from, mid) + Numbered(all, mid, |all|)
  {
  }

  /** A page holds the oldest retained frames the client has not seen, without gap, at most `limit` of them,
      and the next cursor is the last of them. */
  lemma PageExact(log: Log, all: seq<string>, after: nat, limit: nat)
    requires Holds(log, all) && limit > 0
    ensures var (page, next) := Page(log, after, limit);
      if after >= |all| then page == [] && next == after
      else
        var from := Max(Evicted(|all|), after);
        && next == (if from + limit <= |all| then from + limit else |all|)
        && after < next && page == Numbered(all, from, next)
  {
    NewerOf(all, Evicted(|all|), after);
    hide Newer;
    if after < |all| {
      var from := Max(Evicted(|all|), after);
      var next := if from + limit <= |all| then from + limit else |all|;
      NumberedSplit(all, from, next);
      hide Max, Evicted;
    }
  }

  // ------------------------------------------------------------ a client that polls

  /** What a client has received and lost, and the cursor it asks with. */
  datatype Client = Client(next: nat, received: seq<StoredFrame>, lost: set<nat>)
  datatype Event = Arrives(frame: string) | Polls(limit: Option<int>)
  datatype World = World(log: Log, all: seq<string>, client: Client)

  function Cursors(frames: seq<StoredFrame>): set<nat> {
    set i | 0 <= i < |frames| :: frames[i].cursor
  }

  function Polled(client: Client, page: seq<StoredFrame>, next: nat): Client {
    Client(next, client.received + page, client.lost + (set c | client.next < c <= next && c !in Cursors(page)))
  }

  function Apply(w: World, e: Event): World {
    match e
    case Arrives(frame) => World(Append(w.log, frame), w.all + [frame], w.client)
    case Polls(limit) =>
      var (page, next) := Page(w.log, w.client.next, Limit(limit));
      w.(client := Polled(w.client, page, next))
  }

  function Run(w: World, es: seq<Event>): World
    decreases |es|
  {
    if es == [] then w else Run(Apply(w, es[0]), es[1..])
  }

  const START := World(Log(0, []), [], Client(0, [], {}))

  /** Received frames are genuine and in strictly increasing order. */
  ghost predicate InOrder(received: seq<StoredFrame>, all: seq<string>, next: nat) {
    && next <= |all|
    && (forall i :: 0 <= i < |received| ==> 1 <= received[i].cursor <= next && received[i].frame == all[received[i].cursor - 1])
    && (forall i, j :: 0 <= i < j < |received| ==> received[i].cursor < received[j].cursor)
  }

  /** What the client has received are frames as they were appended, in strictly increasing order of their
      cursors; of all up to its cursor it has each or lost it, and what it lost has been evicted. */
  ghost predicate Follows(w: World) {
    && Holds(w.log, w.all) && InOrder(w.client.received, w.all, w.client.next)
    && (forall c :: 1 <= c <= w.client.next ==> (c in w.client.lost <==> c !in Cursors(w.client.received)))
    && (forall c :: c in w.client.lost ==> 1 <= c <= Evicted(|w.all|) && c <= w.client.next)
  }

  lemma CursorsAdd(a: seq<StoredFrame>, b: seq<StoredFrame>)
    ensures Cursors(a + b) == Cursors(a) + Cursors(b)
  {
    forall c | c in Cursors(a) ensures c in Cursors(a + b) {
      var i :| 0 <= i < |a| && a[i].cursor == c;
      assert (a + b)[i] == a[i];
    }
    forall c | c in Cursors(b) ensures c in Cursors(a + b) {
      var i :| 0 <= i < |b| && b[i].cursor == c;
      assert (a + b)[|a| + i] == b[i];
    }
  }

  lemma NumberedCursors(all: seq<string>, from: nat, to: nat, c: nat)
    requires from <= to <= |all|
    ensures c in Cursors(Numbered(all, from, to)) <==> from < c <= to
  {
    if from < c <= to {
      assert Numbered(all, from, to)[c - from - 1].cursor == c;
    }
  }

  /** A poll loses exactly the frames that were evicted before the client asked for them. */
  lemma PollLosesEvicted(w: World, limit: Option<int>)
    requires Follows(w)
    ensures var w' := Apply(w, Polls(limit));
      forall c :: c in w'.client.lost <==>
        c in w.client.lost || (w.client.next < |w.all| && w.client.next < c <= Evicted(|w.all|))
  {
    var w' := Apply(w, Polls(limit));
    PageExact(w.log, w.all, w.client.next, Limit(limit));
    var page, next := Page(w.log, w.client.next, Limit(limit)).0, w'.client.next;
    if w.client.next < |w.all| {
      var from := Max(Evicted(|w.all|), w.client.next);
      forall c: nat ensures c in Cursors(page) <==> from < c <= next {
        NumberedCursors(w.all, from, next, c);
      }
    }
    hide Page, Cursors, Limit, Holds;
  }

  lemma AppendFollows(w: World, frame: string)
    requires Follows(w)
    ensures Follows(Apply(w, Arrives(frame)))
  {
    AppendHolds(w.log, w.all, frame);
    hide Holds, Append, Cursors;
  }

  /** What a poll brings is new to the client and in order. */
  lemma PollBrings(w: World, limit: Option<int>)
    requires Follows(w)
    ensures var w' := Apply(w, Polls(limit));
      && w.client.next <= w'.client.next <= |w.all|
      && exists from :: w.client.next <= from <= w'.client.next
           && w'.client.received == w.client.received + Numbered(w.all, from, w'.client.next)
  {
    PageExact(w.log, w.all, w.client.next, Limit(limit));
    var w' := Apply(w, Polls(limit));
    if w.client.next >= |w.all| {
      assert w.client.received + Numbered(w.all, w.client.next, w.client.next) == w.client.received;
      assert w'.client.received == w.client.received + [];
    }
    hide Page, Limit, Holds, Cursors;
  }

  lemma BroughtInOrder(received: seq<StoredFrame>, all: seq<string>, next: nat, from: nat, to: nat)
    requires InOrder(received, all, next) && next <= from <= to <= |all|
    ensures InOrder(received + Numbered(all, from, to), all, to)
  {
  }

  lemma PollFollows(w: World, limit: Option<int>)
    requires Follows(w)
    ensures Follows(Apply(w, Polls(limit)))
  {
    var w' := Apply(w, Polls(limit));
    hide Page, Limit, Holds, Cursors, InOrder, Apply;
    PollBrings(w, limit);
    PollLosesEvicted(w, limit);
    var from :| w.client.next <= from <= w'.client.next
                && w'.client.received == w.client.received + Numbered(w.all, from, w'.client.next);
    BroughtInOrder(w.client.received, w.all, w.client.next, from, w'.client.next);
    PollCovers(w, limit);
    PollLeaves(w, limit);
  }

  lemma PollLeaves(w: World, limit: Option<int>)
    ensures Apply(w, Polls(limit)).log == w.log && Apply(w, Polls(limit)).all == w.all
  {
  }

  lemma PollCovers(w: World, limit: Option<int>)
    requires Follows(w)
    ensures var client := Apply(w, Polls(limit)).client;
      forall c :: 1 <= c <= client.next ==> (c in client.lost <==> c !in Cursors(client.received))
    ensures forall c :: c in Apply(w, Polls(limit)).client.lost ==> c <= Apply(w, Polls(limit)).client.next
  {
    var page, next := Page(w.log, w.client.next, Limit(limit)).0, Page(w.log, w.client.next, Limit(limit)).1;
    CursorsAdd(w.client.received, page);
    PollBrings(w, limit);
    ReceivedUpTo(w.client.received, w.all, w.client.next);
    PageAbove(w, limit);
    hide Page, Limit, Holds, Cursors, InOrder;
  }

  lemma ReceivedUpTo(received: seq<StoredFrame>, all: seq<string>, next: nat)
    requires InOrder(received, all, next)
    ensures forall c :: c in Cursors(received) ==> 1 <= c <= next
  {
  }

  lemma PageAbove(w: World, limit: Option<int>)
    requires Holds(w.log, w.all)
    ensures forall c :: c in Cursors(Page(w.log, w.client.next, Limit(limit)).0) ==> w.client.next < c
  {
    PageExact(w.log, w.all, w.client.next, Limit(limit));
  }

  lemma {:induction false} RunFollows(w: World, es: seq<Event>)
    requires Follows(w)
    ensures Follows(Run(w, es))
    decreases |es|
  {
    hide Follows, Apply;
    if es != [] {
      match es[0] {
        case Arrives(frame) => AppendFollows(w, frame);
        case Polls(limit) => PollFollows(w, limit);
      }
      RunFollows(Apply(w, es[0]), es[1..]);
    }
  }

  /** However appends and polls alternate: the log is the last 500 frames; the client has received frames as
      they were appended, in strictly increasing order and so never twice; and every frame up to its cursor
      that it has not received had left the log. */
  lemma ClientMissesOnlyEvicted(es: seq<Event>)
    ensures var w := Run(START, es);
      && w.log.events == Numbered(w.all, Evicted(|w.all|), |w.all|) && w.log.cursor == |w.all|
      && (forall i, j :: 0 <= i < j < |w.client.received| ==> w.client.received[i].cursor < w.client.received[j].cursor)
      && (forall i :: 0 <= i < |w.client.received| ==>
            1 <= w.client.received[i].cursor <= |w.all| && w.client.received[i].frame == w.all[w.client.received[i].cursor - 1])
      && (forall c :: 1 <= c <= w.client.next && c !in Cursors(w.client.received) ==> c <= Evicted(|w.all|))
  {
    assert Numbered([], 0, 0) == [];
    RunFollows(START, es);
    hide Run, Cursors;
  }

  /** The pages a client gets by asking again and again while nothing is appended. */
  function Drain(log: Log, all: seq<string>, after: nat, limit: nat): seq<StoredFrame>
    requires Holds(log, all) && limit > 0
    decreases |all| - after
  {
    var (page, next) := Page(log, after, limit);
    PageExact(log, all, after, limit);
    if page == [] then [] else page + Drain(log, all, next, limit)
  }

  /** Paging ends, and has then returned every retained frame the client had not seen, once each in order. */
  lemma {:induction false} DrainReturnsAll(log: Log, all: seq<string>, after: nat, limit: nat)
    requires Holds(log, all) && limit > 0
    ensures Drain(log, all, after, limit) == Newer(log.events, after)
    decreases |all| - after
  {
    PageExact(log, all, after, limit);
    NewerOf(all, Evicted(|all|), after);
    hide Page, Newer, Numbered;
    if after < |all| {
      var (page, next) := Page(log, after, limit);
      DrainReturnsAll(log, all, next, limit);
      NewerOf(all, Evicted(|all|), next);
      NumberedSplit(all, Max(Evicted(|all|), after), next);
    }
  }
}
