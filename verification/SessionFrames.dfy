/**
 Reassembly of the chunked frames that an executor sends for an ephemeral invoke. Strings stand for
 their UTF-8 bytes.
 */
module SessionFrames {
  import opened Wrappers
  import opened JsMaps

  const SESSION_PENDING_FRAMES: nat := 64

  /** The payload budgets of the channel protocol: of one chunk, and of a session's open groups. */
  datatype Budget = Budget(payloadBytes: nat, pendingBytes: nat)

  datatype Chunk = Chunk(frameId: string, index: int, count: int, payload: string)
  datatype Pending = Pending(chunkCount: int, nextIndex: nat, payload: seq<string>, bytes: nat)

  /** The open groups by session, and the ephemeral invokes that wait, by session: each with its own id. */
  datatype Sessions = Sessions(frames: map<string, JsMap<Pending>>, ephemeral: map<string, string>)

  /** What became of a chunk: not for this object, stored, the end of its session, or the end of its group. */
  datatype Verdict = Passed | Stored | Dropped | Completed(message: string, answers: bool)

  function Join(parts: seq<string>): string {
    if parts == [] then "" else Join(parts[..|parts| - 1]) + parts[|parts| - 1]
  }

  function SumBytes(keys: seq<string>, groups: map<string, Pending>): nat {
    if keys == [] then 0 else (if keys[0] in groups then groups[keys[0]].bytes else 0) + SumBytes(keys[1..], groups)
  }

  function TotalBytes(groups: JsMap<Pending>): nat {
    SumBytes(groups.keys, groups.values)
  }

  predicate WellFormed(chunk: Chunk, budget: Budget) {
    chunk.frameId != "" && |chunk.payload| <= budget.payloadBytes && 0 <= chunk.index < chunk.count
  }

  function Groups(s: Sessions, sessionId: string): JsMap<Pending> {
    if sessionId in s.frames then s.frames[sessionId] else JsMap([], map[])
  }

  /** The group a chunk belongs to; none if it may not start one. */
  function GroupOf(groups: JsMap<Pending>, chunk: Chunk): Option<Pending> {
    if chunk.frameId in groups.values then Some(groups.values[chunk.frameId])
    else if chunk.index != 0 || |groups.keys| >= SESSION_PENDING_FRAMES then None
    else Some(Pending(chunk.count, 0, [], 0))
  }

  function Grown(group: Pending, chunk: Chunk): Pending {
    Pending(group.chunkCount, group.nextIndex + 1, group.payload + [chunk.payload], group.bytes + |chunk.payload|)
  }

  function FailSession(s: Sessions, sessionId: string): Sessions {
    Sessions(s.frames - {sessionId}, s.ephemeral - {sessionId})
  }

  function OpenInvoke(s: Sessions, sessionId: string, id: string): Sessions {
    s.(ephemeral := s.ephemeral[sessionId := id])
  }

  function CloseViewer(s: Sessions, sessionId: string): Sessions {
    s.(frames := s.frames - {sessionId})
  }

  function Store(s: Sessions, sessionId: string, groups: JsMap<Pending>): Sessions {
    s.(frames := if |groups.keys| == 0 then s.frames - {sessionId} else s.frames[sessionId := groups])
  }

  /** The group grows by the chunk: too far for the budget, not yet to its end, or to its end. `answers` tells
      whether a message is a result or an error for the invoke with the given id. */
  function Extend(s: Sessions, budget: Budget, sessionId: string, groups: JsMap<Pending>, group: Pending, chunk: Chunk,
                  answers: (string, string) -> bool): (Sessions, Verdict)
    requires sessionId in s.ephemeral
  {
    var grown := Grown(group, chunk);
    var updated := Set(groups, chunk.frameId, grown);
    if TotalBytes(updated) > budget.pendingBytes then (FailSession(s, sessionId), Dropped)
    else if grown.nextIndex != grown.chunkCount then (Store(s, sessionId, updated), Stored)
    else
      var left := Store(s, sessionId, Delete(updated, chunk.frameId));
      var message := Join(grown.payload);
      if answers(s.ephemeral[sessionId], message)
      then (left.(ephemeral := left.ephemeral - {sessionId}), Completed(message, true))
      else (left, Completed(message, false))
  }

  function OnSessionFrame(s: Sessions, budget: Budget, sessionId: string, chunk: Chunk, answers: (string, string) -> bool): (Sessions, Verdict) {
    if sessionId == "" || !WellFormed(chunk, budget) || sessionId !in s.ephemeral then (s, Passed)
    else
      var groups := Groups(s, sessionId);
      var group := GroupOf(groups, chunk);
      if group.None? || group.value.chunkCount != chunk.count || group.value.nextIndex != chunk.index
      then (FailSession(s, sessionId), Dropped)
      else Extend(s, budget, sessionId, groups, group.value, chunk, answers)
  }

  // ------------------------------------------------------------ what every chunk keeps

  ghost predicate GroupSound(group: Pending) {
    && 1 <= group.nextIndex < group.chunkCount && |group.payload| == group.nextIndex
    && group.bytes == |Join(group.payload)|
  }

  /** Between events no session has an empty table, every open group lacks at least one chunk and has at
      least one, its size is that of its payload, and the group and byte budgets hold. */
  ghost predicate GroupsSound(groups: JsMap<Pending>, budget: Budget) {
    && Ordered(groups) && 1 <= |groups.keys| <= 64 && TotalBytes(groups) <= budget.pendingBytes
    && forall f :: f in groups.values ==> GroupSound(groups.values[f])
  }

  ghost predicate Sound(s: Sessions, budget: Budget) {
    forall sessionId :: sessionId in s.frames ==> GroupsSound(s.frames[sessionId], budget)
  }

  lemma JoinGrows(parts: seq<string>, part: string)
    ensures Join(parts + [part]) == Join(parts) + part
  {
    assert (parts + [part])[..|parts|] == parts;
  }

  lemma {:induction false} SumIgnores(keys: seq<string>, groups: map<string, Pending>, groups': map<string, Pending>)
    requires forall k :: k in keys ==> (k in groups <==> k in groups') && (k in groups ==> groups[k] == groups'[k])
    ensures SumBytes(keys, groups) == SumBytes(keys, groups')
  {
    if keys != [] {
      SumIgnores(keys[1..], groups, groups');
    }
  }

  /** Deleting a group takes its bytes, and no other, out of the total. */
  lemma {:induction false} SumWithout(keys: seq<string>, groups: map<string, Pending>, key: string)
    requires forall i, j :: 0 <= i < j < |keys| ==> keys[i] != keys[j]
    ensures SumBytes(Without(keys, key), groups - {key})
      == SumBytes(keys, groups) - if key in keys && key in groups then groups[key].bytes else 0
  {
    if keys != [] {
      assert keys == [keys[0]] + keys[1..];
      if keys[0] == key {
        assert key !in keys[1..];
        SumIgnores(keys[1..], groups - {key}, groups);
      } else {
        SumWithout(keys[1..], groups, key);
      }
    }
  }

  lemma DeleteTotal(groups: JsMap<Pending>, key: string)
    requires Ordered(groups)
    ensures TotalBytes(Delete(groups, key)) <= TotalBytes(groups)
  {
    SumWithout(groups.keys, groups.values, key);
  }

  lemma GrownSound(group: Pending, chunk: Chunk)
    requires |group.payload| == group.nextIndex < group.chunkCount && group.bytes == |Join(group.payload)|
    ensures var grown := Grown(group, chunk);
      && (grown.nextIndex != grown.chunkCount ==> GroupSound(grown))
      && Join(grown.payload) == Join(group.payload) + chunk.payload
  {
    JoinGrows(group.payload, chunk.payload);
  }

  lemma StoredSound(s: Sessions, budget: Budget, sessionId: string, groups: JsMap<Pending>)
    requires Sound(s, budget) && (|groups.keys| != 0 ==> GroupsSound(groups, budget))
    ensures Sound(Store(s, sessionId, groups), budget)
  {
    hide GroupsSound;
  }

  ghost predicate Tidy(groups: JsMap<Pending>, budget: Budget) {
    groups == JsMap([], map[]) || GroupsSound(groups, budget)
  }

  predicate Continues(group: Option<Pending>, chunk: Chunk) {
    group.Some? && group.value.chunkCount == chunk.count && group.value.nextIndex == chunk.index
  }

  lemma ContinuedSound(groups: JsMap<Pending>, budget: Budget, chunk: Chunk)
    requires Tidy(groups, budget) && WellFormed(chunk, budget) && Continues(GroupOf(groups, chunk), chunk)
    ensures var group := GroupOf(groups, chunk).value;
      && |group.payload| == group.nextIndex < group.chunkCount && group.bytes == |Join(group.payload)|
  {
  }

  lemma UpdatedSound(groups: JsMap<Pending>, budget: Budget, chunk: Chunk)
    requires Tidy(groups, budget) && WellFormed(chunk, budget) && Continues(GroupOf(groups, chunk), chunk)
    requires TotalBytes(Set(groups, chunk.frameId, Grown(GroupOf(groups, chunk).value, chunk))) <= budget.pendingBytes
    ensures var grown := Grown(GroupOf(groups, chunk).value, chunk);
      var updated := Set(groups, chunk.frameId, grown);
      && Ordered(updated) && 1 <= |updated.keys| <= SESSION_PENDING_FRAMES
      && (grown.nextIndex != grown.chunkCount ==> GroupsSound(updated, budget))
      && forall f :: f in updated.values && f != chunk.frameId ==> GroupSound(updated.values[f])
  {
    var grown := Grown(GroupOf(groups, chunk).value, chunk);
    ContinuedSound(groups, budget, chunk);
    GrownSound(GroupOf(groups, chunk).value, chunk);
    SetOrdered(groups, chunk.frameId, grown);
    hide GroupSound, Ordered, TotalBytes;
  }

  lemma CompletedSound(updated: JsMap<Pending>, budget: Budget, frameId: string)
    requires Ordered(updated) && |updated.keys| <= SESSION_PENDING_FRAMES && TotalBytes(updated) <= budget.pendingBytes
    requires forall f :: f in updated.values && f != frameId ==> GroupSound(updated.values[f])
    ensures var left := Delete(updated, frameId); |left.keys| != 0 ==> GroupsSound(left, budget)
  {
    DeleteOrdered(updated, frameId);
    DeleteTotal(updated, frameId);
    hide GroupSound, Ordered, TotalBytes;
  }

  lemma FrameKeepsSound(s: Sessions, budget: Budget, sessionId: string, chunk: Chunk, answers: (string, string) -> bool)
    requires Sound(s, budget)
    ensures Sound(OnSessionFrame(s, budget, sessionId, chunk, answers).0, budget)
  {
    var groups := Groups(s, sessionId);
    assert Tidy(groups, budget);
    hide Tidy, GroupsSound, GroupOf, Set, Delete, Store, TotalBytes, Ordered, GroupSound, Join;
    var group := GroupOf(groups, chunk);
    if WellFormed(chunk, budget) && Continues(group, chunk) {
      var updated := Set(groups, chunk.frameId, Grown(group.value, chunk));
      if TotalBytes(updated) <= budget.pendingBytes {
        UpdatedSound(groups, budget, chunk);
        CompletedSound(updated, budget, chunk.frameId);
        if chunk.index + 1 != chunk.count {
          StoredSound(s, budget, sessionId, updated);
        } else {
          StoredSound(s, budget, sessionId, Delete(updated, chunk.frameId));
        }
      }
    }
  }

  // ------------------------------------------------------------ dropping

  /** A chunk that fits nowhere: it starts in the middle, starts one group too many, leaves a gap, repeats or
      reorders its group, changes its count, or exceeds the byte budget. */
  predicate Misfits(groups: JsMap<Pending>, budget: Budget, chunk: Chunk) {
    || (chunk.frameId !in groups.values && (chunk.index != 0 || |groups.keys| >= 64))
    || (chunk.frameId in groups.values
        && (groups.values[chunk.frameId].chunkCount != chunk.count || groups.values[chunk.frameId].nextIndex != chunk.index))
    || TotalBytes(groups) + |chunk.payload| > budget.pendingBytes
  }

  lemma {:induction false} SumSet(keys: seq<string>, groups: map<string, Pending>, key: string, group: Pending)
    requires forall i, j :: 0 <= i < j < |keys| ==> keys[i] != keys[j]
    ensures SumBytes(keys, groups[key := group])
      == SumBytes(keys, groups) + (if key in keys then group.bytes - (if key in groups then groups[key].bytes else 0) else 0)
  {
    if keys != [] {
      assert keys == [keys[0]] + keys[1..];
      if keys[0] == key {
        assert key !in keys[1..];
        SumIgnores(keys[1..], groups[key := group], groups);
      } else {
        SumSet(keys[1..], groups, key, group);
      }
    }
  }

  lemma {:induction false} SumAppend(keys: seq<string>, groups: map<string, Pending>, key: string)
    requires key in groups
    ensures SumBytes(keys + [key], groups) == SumBytes(keys, groups) + groups[key].bytes
  {
    if keys == [] {
      assert SumBytes([], groups) == 0;
    } else {
      assert (keys + [key])[1..] == keys[1..] + [key];
      SumAppend(keys[1..], groups, key);
    }
  }

  lemma SetTotal(groups: JsMap<Pending>, key: string, group: Pending)
    requires Ordered(groups)
    ensures TotalBytes(Set(groups, key, group))
      == TotalBytes(groups) + group.bytes - if key in groups.values then groups.values[key].bytes else 0
  {
    SumSet(groups.keys, groups.values, key, group);
    if key !in groups.values {
      SumAppend(groups.keys, groups.values[key := group], key);
    }
  }

  /** A well-formed chunk of a waiting invoke drops its session exactly if it misfits; dropping forgets the
      session's groups and its invoke. */
  lemma DroppedExactly(s: Sessions, budget: Budget, sessionId: string, chunk: Chunk, answers: (string, string) -> bool)
    requires Sound(s, budget) && sessionId != "" && sessionId in s.ephemeral && WellFormed(chunk, budget)
    ensures var (s', verdict) := OnSessionFrame(s, budget, sessionId, chunk, answers);
      && (verdict.Dropped? <==> Misfits(Groups(s, sessionId), budget, chunk))
      && (verdict.Dropped? ==> sessionId !in s'.frames && sessionId !in s'.ephemeral)
  {
    var groups := Groups(s, sessionId);
    var group := GroupOf(groups, chunk);
    if group.Some? {
      SetTotal(groups, chunk.frameId, Grown(group.value, chunk));
    }
    hide TotalBytes, GroupSound, WellFormed, Join, Set, Delete, Store, Ordered;
  }

  /** What becomes of a chunk otherwise: it is passed on, and changes nothing, exactly if it is malformed or for no
      invoke that waits; the last chunk of its group completes it, and answers the invoke exactly if the message is
      the invoke's reply. */
  lemma VerdictExactly(s: Sessions, budget: Budget, sessionId: string, chunk: Chunk, answers: (string, string) -> bool)
    ensures var (s', verdict) := OnSessionFrame(s, budget, sessionId, chunk, answers);
      && (verdict.Passed? <==>
            sessionId == "" || sessionId !in s.ephemeral
            || chunk.frameId == "" || |chunk.payload| > budget.payloadBytes || chunk.index < 0 || chunk.count <= chunk.index)
      && (verdict.Passed? ==> s' == s)
      && (verdict.Stored? || verdict.Completed? ==> (verdict.Completed? <==> chunk.index == chunk.count - 1))
      && (verdict.Stored? ==> s'.ephemeral == s.ephemeral)
      && (verdict.Completed? ==>
            && verdict.answers == answers(s.ephemeral[sessionId], verdict.message)
            && s'.ephemeral == if verdict.answers then s.ephemeral - {sessionId} else s.ephemeral)
  {
    hide TotalBytes, Join, Set, Delete;
  }

  /** No chunk touches another session. */
  lemma OthersUntouched(s: Sessions, budget: Budget, sessionId: string, chunk: Chunk, answers: (string, string) -> bool, other: string)
    requires other != sessionId
    ensures var s' := OnSessionFrame(s, budget, sessionId, chunk, answers).0;
      && (other in s'.frames <==> other in s.frames) && (other in s.frames ==> s'.frames[other] == s.frames[other])
      && (other in s'.ephemeral <==> other in s.ephemeral)
  {
    hide TotalBytes, WellFormed, Join, Set, Delete;
  }
}
