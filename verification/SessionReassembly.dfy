/** Reassembly undoes chunking, however the chunks of several messages are interleaved. */
module SessionReassembly {
  import opened Wrappers
  import opened JsMaps
  import opened SessionFrames

  /** Each message's chunks by frame id, and how many of each have arrived. */
  type Chunkings = map<string, seq<string>>
  type Progress = map<string, nat>

  ghost predicate Within(chunkings: Chunkings, p: Progress) {
    p.Keys == chunkings.Keys && forall f :: f in chunkings ==> p[f] <= |chunkings[f]|
  }

  /** The chunks are well formed and no message is without one. */
  ghost predicate Sendable(chunkings: Chunkings, budget: Budget) {
    forall f :: f in chunkings ==>
      f != "" && chunkings[f] != [] && forall part :: part in chunkings[f] ==> |part| <= budget.payloadBytes
  }

  function Arrived(parts: seq<string>, n: nat): Pending
    requires n <= |parts|
  {
    Pending(|parts|, n, parts[..n], |Join(parts[..n])|)
  }

  /** The open groups are exactly the messages that have begun and not ended, with all that has arrived. */
  ghost predicate Represents(groups: JsMap<Pending>, chunkings: Chunkings, p: Progress)
    requires Within(chunkings, p)
  {
    && Ordered(groups)
    && (forall f :: f in groups.values <==> f in chunkings && 0 < p[f] < |chunkings[f]|)
    && (forall f :: f in groups.values ==> groups.values[f] == Arrived(chunkings[f], p[f]))
  }

  function NextChunk(chunkings: Chunkings, p: Progress, f: string): Chunk
    requires f in chunkings && f in p && p[f] < |chunkings[f]|
  {
    Chunk(f, p[f], |chunkings[f]|, chunkings[f][p[f]])
  }

  /** The budgets leave room for the chunk. */
  predicate Roomy(groups: JsMap<Pending>, budget: Budget, chunk: Chunk) {
    && (chunk.frameId !in groups.values ==> |groups.keys| < SESSION_PENDING_FRAMES)
    && TotalBytes(groups) + |chunk.payload| <= budget.pendingBytes
  }

  lemma GrownArrived(chunkings: Chunkings, p: Progress, f: string)
    requires Within(chunkings, p) && f in chunkings && p[f] < |chunkings[f]|
    ensures Grown(Arrived(chunkings[f], p[f]), NextChunk(chunkings, p, f)) == Arrived(chunkings[f], p[f] + 1)
  {
    var parts := chunkings[f];
    assert parts[..p[f] + 1] == parts[..p[f]] + [parts[p[f]]];
    JoinGrows(parts[..p[f]], parts[p[f]]);
  }

  /** A chunk that comes next in its own message finds the group it continues. */
  lemma FindsItsGroup(groups: JsMap<Pending>, budget: Budget, chunkings: Chunkings, p: Progress, f: string)
    requires Within(chunkings, p) && Represents(groups, chunkings, p) && f in chunkings && p[f] < |chunkings[f]|
    requires Roomy(groups, budget, NextChunk(chunkings, p, f))
    ensures GroupOf(groups, NextChunk(chunkings, p, f)) == Some(Arrived(chunkings[f], p[f]))
  {
    assert chunkings[f][..0] == [];
  }

  lemma AdvancedRepresents(groups: JsMap<Pending>, chunkings: Chunkings, p: Progress, f: string)
    requires Within(chunkings, p) && Represents(groups, chunkings, p) && f in chunkings && p[f] < |chunkings[f]|
    ensures var updated := Set(groups, f, Arrived(chunkings[f], p[f] + 1));
      if p[f] + 1 == |chunkings[f]| then Represents(Delete(updated, f), chunkings, p[f := p[f] + 1])
      else Represents(updated, chunkings, p[f := p[f] + 1])
  {
    hide Ordered, Arrived, Without;
    var updated := Set(groups, f, Arrived(chunkings[f], p[f] + 1));
    SetOrdered(groups, f, Arrived(chunkings[f], p[f] + 1));
    DeleteOrdered(updated, f);
  }

  lemma StoreThenGroups(s: Sessions, sessionId: string, groups: JsMap<Pending>)
    requires Ordered(groups)
    ensures Groups(Store(s, sessionId, groups), sessionId) == groups
    ensures Store(s, sessionId, groups).ephemeral == s.ephemeral
  {
    if |groups.keys| == 0 {
      assert forall k :: k in groups.values ==> k in groups.keys;
      assert groups.values == map[];
    }
  }

  lemma NextWellFormed(chunkings: Chunkings, budget: Budget, p: Progress, f: string)
    requires Within(chunkings, p) && Sendable(chunkings, budget) && f in chunkings && p[f] < |chunkings[f]|
    ensures WellFormed(NextChunk(chunkings, p, f), budget)
  {
    assert chunkings[f][p[f]] in chunkings[f];
  }

  lemma RepresentsOrdered(groups: JsMap<Pending>, chunkings: Chunkings, p: Progress, f: string)
    requires Within(chunkings, p) && Represents(groups, chunkings, p) && f in chunkings && p[f] < |chunkings[f]|
    ensures var updated := Set(groups, f, Arrived(chunkings[f], p[f] + 1));
      Ordered(groups) && Ordered(updated) && Ordered(Delete(updated, f))
    ensures f in groups.values ==> groups.values[f].bytes == |Join(chunkings[f][..p[f]])|
    ensures f !in groups.values ==> |Join(chunkings[f][..p[f]])| == 0
    ensures |Join(chunkings[f][..p[f] + 1])| == |Join(chunkings[f][..p[f]])| + |chunkings[f][p[f]]|
  {
    SetOrdered(groups, f, Arrived(chunkings[f], p[f] + 1));
    DeleteOrdered(Set(groups, f, Arrived(chunkings[f], p[f] + 1)), f);
    GrownArrived(chunkings, p, f);
  }

  /** One chunk: the group grows by it, and the last one yields the whole message. */
  lemma ChunkReassembles(s: Sessions, budget: Budget, sessionId: string, answers: (string, string) -> bool,
                         chunkings: Chunkings, p: Progress, f: string)
    requires sessionId != "" && sessionId in s.ephemeral && Within(chunkings, p) && Sendable(chunkings, budget)
    requires Represents(Groups(s, sessionId), chunkings, p) && f in chunkings && p[f] < |chunkings[f]|
    requires Roomy(Groups(s, sessionId), budget, NextChunk(chunkings, p, f))
    ensures var (s', verdict) := OnSessionFrame(s, budget, sessionId, NextChunk(chunkings, p, f), answers);
      && Within(chunkings, p[f := p[f] + 1]) && Represents(Groups(s', sessionId), chunkings, p[f := p[f] + 1])
      && (p[f] + 1 < |chunkings[f]| ==> verdict == Stored && s'.ephemeral == s.ephemeral)
      && (p[f] + 1 == |chunkings[f]| ==> verdict == Completed(Join(chunkings[f]), answers(s.ephemeral[sessionId], Join(chunkings[f]))))
      && (verdict.Completed? && !verdict.answers ==> s'.ephemeral == s.ephemeral)
  {
    hide Ordered, Store, Set, Delete, TotalBytes, GroupOf, Join, Grown, Represents, Sendable, WellFormed;
    var groups, chunk := Groups(s, sessionId), NextChunk(chunkings, p, f);
    NextWellFormed(chunkings, budget, p, f);
    RepresentsOrdered(groups, chunkings, p, f);
    var updated := Set(groups, f, Arrived(chunkings[f], p[f] + 1));
    FindsItsGroup(groups, budget, chunkings, p, f);
    GrownArrived(chunkings, p, f);
    AdvancedRepresents(groups, chunkings, p, f);
    SetTotal(groups, f, Arrived(chunkings[f], p[f] + 1));
    assert chunkings[f][..|chunkings[f]|] == chunkings[f];
    if p[f] + 1 == |chunkings[f]| {
      StoreThenGroups(s, sessionId, Delete(updated, f));
    } else {
      StoreThenGroups(s, sessionId, updated);
    }
  }

  // ------------------------------------------------------------ whole runs

  /** `order` tells whose chunk arrives next; no message has more arrivals than chunks. */
  ghost predicate Interleaving(chunkings: Chunkings, p: Progress, order: seq<string>)
    requires Within(chunkings, p)
    decreases |order|
  {
    order == []
    || (order[0] in chunkings && p[order[0]] < |chunkings[order[0]]|
        && Interleaving(chunkings, p[order[0] := p[order[0]] + 1], order[1..]))
  }

  ghost function Advance(chunkings: Chunkings, p: Progress, order: seq<string>): (p': Progress)
    requires Within(chunkings, p) && Interleaving(chunkings, p, order)
    ensures Within(chunkings, p')
    decreases |order|
  {
    if order == [] then p else Advance(chunkings, p[order[0] := p[order[0]] + 1], order[1..])
  }

  /** The state after the chunks of `order`, and the messages that were completed on the way. */
  ghost function Deliver(s: Sessions, budget: Budget, sessionId: string, answers: (string, string) -> bool,
                         chunkings: Chunkings, p: Progress, order: seq<string>): (Sessions, seq<(string, string)>)
    requires Within(chunkings, p) && Interleaving(chunkings, p, order)
    decreases |order|
  {
    if order == [] then (s, [])
    else
      var f := order[0];
      var (s', verdict) := OnSessionFrame(s, budget, sessionId, NextChunk(chunkings, p, f), answers);
      var (end, rest) := Deliver(s', budget, sessionId, answers, chunkings, p[f := p[f] + 1], order[1..]);
      (end, (if verdict.Completed? then [(f, verdict.message)] else []) + rest)
  }

  /** Every chunk finds room, and no message but the last thing to arrive answers the invoke. */
  ghost predicate Roomful(s: Sessions, budget: Budget, sessionId: string, answers: (string, string) -> bool,
                          chunkings: Chunkings, p: Progress, order: seq<string>)
    requires Within(chunkings, p) && Interleaving(chunkings, p, order)
    decreases |order|
  {
    order == []
    || (var f := order[0];
        var (s', verdict) := OnSessionFrame(s, budget, sessionId, NextChunk(chunkings, p, f), answers);
        && Roomy(Groups(s, sessionId), budget, NextChunk(chunkings, p, f))
        && (verdict.Completed? && verdict.answers ==> |order| == 1)
        && Roomful(s', budget, sessionId, answers, chunkings, p[f := p[f] + 1], order[1..]))
  }

  /** The messages whose last chunk arrives, in that order. */
  ghost function Ended(chunkings: Chunkings, p: Progress, order: seq<string>): seq<(string, string)>
    requires Within(chunkings, p) && Interleaving(chunkings, p, order)
    decreases |order|
  {
    if order == [] then []
    else
      var f := order[0];
      (if p[f] + 1 == |chunkings[f]| then [(f, Join(chunkings[f]))] else [])
      + Ended(chunkings, p[f := p[f] + 1], order[1..])
  }

  /** Whatever the interleaving, the completed messages are the originals, each when its last chunk arrives;
      nothing is dropped, and the open groups are what is still under way. */
  lemma {:induction false} InterleavedReassembles(s: Sessions, budget: Budget, sessionId: string, answers: (string, string) -> bool,
                                                  chunkings: Chunkings, p: Progress, order: seq<string>)
    requires sessionId != "" && sessionId in s.ephemeral && Within(chunkings, p) && Sendable(chunkings, budget)
    requires Represents(Groups(s, sessionId), chunkings, p) && Interleaving(chunkings, p, order)
    requires Roomful(s, budget, sessionId, answers, chunkings, p, order)
    ensures var (end, messages) := Deliver(s, budget, sessionId, answers, chunkings, p, order);
      && messages == Ended(chunkings, p, order)
      && Represents(Groups(end, sessionId), chunkings, Advance(chunkings, p, order))
    decreases |order|
  {
    hide Represents, Sendable, Join, OnSessionFrame, Roomy;
    if order != [] {
      var f := order[0];
      var (s', verdict) := OnSessionFrame(s, budget, sessionId, NextChunk(chunkings, p, f), answers);
      ChunkReassembles(s, budget, sessionId, answers, chunkings, p, f);
      if |order| == 1 {
        assert order[1..] == [];
      } else {
        InterleavedReassembles(s', budget, sessionId, answers, chunkings, p[f := p[f] + 1], order[1..]);
      }
    }
  }

  // ------------------------------------------------------------ the chunks of a message

  /** Any way to cut a message: pieces of at most `limit` bytes, at least one. */
  ghost predicate Cuts(parts: seq<string>, message: string, limit: nat) {
    parts != [] && Join(parts) == message && forall part :: part in parts ==> |part| <= limit
  }

  /** One way that always exists. */
  function Split(message: string, limit: nat): (parts: seq<string>)
    requires limit > 0
    ensures Cuts(parts, message, limit)
    decreases |message|
  {
    if |message| <= limit then JoinOne(message); [message]
    else
      var rest := Split(message[..|message| - limit], limit);
      JoinGrows(rest, message[|message| - limit..]);
      assert message[..|message| - limit] + message[|message| - limit..] == message;
      rest + [message[|message| - limit..]]
  }

  lemma JoinOne(part: string)
    ensures Join([part]) == part
  {
    assert [part][..0] == [];
    assert Join([]) + part == part;
  }

  function Times(messages: seq<(string, string)>, f: string): nat {
    if messages == [] then 0 else (if messages[0].0 == f then 1 else 0) + Times(messages[1..], f)
  }

  lemma TimesAdd(a: seq<(string, string)>, b: seq<(string, string)>, f: string)
    ensures Times(a + b, f) == Times(a, f) + Times(b, f)
  {
    if a == [] {
      assert a + b == b;
    } else {
      assert (a + b)[1..] == a[1..] + b;
    }
  }

  /** A message is completed once if its last chunk arrives, and never otherwise. */
  lemma {:induction false} EndsOnce(chunkings: Chunkings, p: Progress, order: seq<string>, f: string)
    requires Within(chunkings, p) && Interleaving(chunkings, p, order) && f in chunkings
    ensures Times(Ended(chunkings, p, order), f)
      == if p[f] < |chunkings[f]| == Advance(chunkings, p, order)[f] then 1 else 0
    ensures p[f] <= Advance(chunkings, p, order)[f]
    ensures forall m :: m in Ended(chunkings, p, order) ==> m.0 in chunkings && m.1 == Join(chunkings[m.0])
    decreases |order|
  {
    hide Join;
    if order != [] {
      var g := order[0];
      var here := if p[g] + 1 == |chunkings[g]| then [(g, Join(chunkings[g]))] else [];
      EndsOnce(chunkings, p[g := p[g] + 1], order[1..], f);
      TimesAdd(here, Ended(chunkings, p[g := p[g] + 1], order[1..]), f);
    }
  }

  /** From an idle session, messages cut in any way and interleaved in any order come through: each that
      has arrived completely is delivered exactly once, unchanged, and no other. */
  lemma MessagesComeThrough(s: Sessions, budget: Budget, sessionId: string, answers: (string, string) -> bool,
                            messages: map<string, string>, chunkings: Chunkings, order: seq<string>, f: string)
    requires sessionId != "" && sessionId in s.ephemeral && sessionId !in s.frames && "" !in messages
    requires chunkings.Keys == messages.Keys && forall g :: g in messages ==> Cuts(chunkings[g], messages[g], budget.payloadBytes)
    requires Within(chunkings, map g | g in chunkings :: 0) && Interleaving(chunkings, map g | g in chunkings :: 0, order)
    requires Roomful(s, budget, sessionId, answers, chunkings, map g | g in chunkings :: 0, order)
    requires f in messages
    ensures var p := map g | g in chunkings :: 0;
      var delivered := Deliver(s, budget, sessionId, answers, chunkings, p, order).1;
      && (forall m :: m in delivered ==> m.0 in messages && m.1 == messages[m.0])
      && Times(delivered, f) == if Advance(chunkings, p, order)[f] == |chunkings[f]| then 1 else 0
  {
    var p := map g | g in chunkings :: 0;
    assert Represents(Groups(s, sessionId), chunkings, p);
    InterleavedReassembles(s, budget, sessionId, answers, chunkings, p, order);
    EndsOnce(chunkings, p, order, f);
  }
}
