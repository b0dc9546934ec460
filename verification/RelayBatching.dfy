/**
 Batch composition of the export relay: a batch is the longest prefix of the pending
 queue within the ingest limits. Positions are absolute indices into one sequence of
 body sizes, so that "the batch starting at i" can be compared with any other split.
 */
module RelayBatching {

  const BATCH_RECORDS: nat := 1_000
  const BATCH_BYTES: nat := 256 * 1024
  const MAX_BODY_BYTES: nat := 64 * 1024 + 1 // a 64 KiB record and its newline

  function Sum(sizes: seq<nat>): nat {
    if sizes == [] then 0 else Sum(sizes[..|sizes| - 1]) + sizes[|sizes| - 1]
  }

  /** What one ingest request may carry. */
  predicate Fits(sizes: seq<nat>) {
    |sizes| <= 1_000 && Sum(sizes) <= 262_144
  }

  /** Every stored body passed the 64 KiB admission check. */
  predicate Admissible(sizes: seq<nat>) {
    forall i :: 0 <= i < |sizes| ==> sizes[i] <= 65_537
  }

  lemma {:induction false} SumSplit(sizes: seq<nat>, k: nat)
    requires k <= |sizes|
    ensures Sum(sizes) == Sum(sizes[..k]) + Sum(sizes[k..])
  {
    if k == |sizes| {
      assert sizes[..k] == sizes;
    } else {
      var init := sizes[..|sizes| - 1];
      SumSplit(init, k);
      assert init[..k] == sizes[..k];
      assert init[k..] == sizes[k..][..|sizes| - k - 1];
    }
  }

  /** A contiguous part of a batch is itself within the limits. */
  lemma FitsPart(sizes: seq<nat>, i: nat, lo: nat, hi: nat, j: nat)
    requires i <= lo <= hi <= j <= |sizes| && Fits(sizes[i..j])
    ensures Fits(sizes[lo..hi])
  {
    var batch := sizes[i..j];
    SumSplit(batch, hi - i);
    assert batch[..hi - i] == sizes[i..hi];
    SumSplit(sizes[i..hi], lo - i);
    assert sizes[i..hi][lo - i..] == sizes[lo..hi];
  }

  /** One past the last record of the batch that starts at `i`: the longest run of records that fits. */
  ghost predicate IsReach(sizes: seq<nat>, i: nat, end: nat) {
    && i < end <= |sizes|
    && Fits(sizes[i..end])
    && (end < |sizes| ==> !Fits(sizes[i..end + 1]))
  }

  /** The composition loop of `alarm`, starting from record `i`. */
  method ComposeFrom(sizes: seq<nat>, i: nat) returns (count: nat)
    requires i < |sizes| && Admissible(sizes)
    ensures IsReach(sizes, i, i + count)
    ensures count == Reach(sizes, i) - i
  {
    count := 0;
    var bytes := 0;
    while i + count < |sizes|
      invariant i + count <= |sizes|
      invariant bytes == Sum(sizes[i..i + count])
      invariant count > 0 ==> Fits(sizes[i..i + count])
      invariant count <= BATCH_RECORDS
    {
      var size := sizes[i + count];
      assert sizes[i..i + count + 1][..count] == sizes[i..i + count];
      if count > 0 && (count >= BATCH_RECORDS || bytes + size > BATCH_BYTES) {
        break;
      }
      count, bytes := count + 1, bytes + size;
    }
    ReachUnique(sizes, i, i + count, Reach(sizes, i));
  }

  function ReachAfter(sizes: seq<nat>, i: nat, end: nat): (reach: nat)
    requires i < end <= |sizes| && Admissible(sizes) && Fits(sizes[i..end])
    ensures IsReach(sizes, i, reach)
    decreases |sizes| - end
  {
    if end < |sizes| && Fits(sizes[i..end + 1]) then ReachAfter(sizes, i, end + 1) else end
  }

  function Reach(sizes: seq<nat>, i: nat): (reach: nat)
    requires i < |sizes| && Admissible(sizes)
    ensures IsReach(sizes, i, reach)
  {
    assert sizes[i..i + 1] == [sizes[i]];
    ReachAfter(sizes, i, i + 1)
  }

  /** A run of records starting at `i` fits exactly when it does not pass the reach. */
  lemma ReachIsLimit(sizes: seq<nat>, i: nat, end: nat, reach: nat)
    requires i < end <= |sizes| && IsReach(sizes, i, reach)
    ensures Fits(sizes[i..end]) <==> end <= reach
  {
    if end <= reach {
      FitsPart(sizes, i, i, end, reach);
    } else if Fits(sizes[i..end]) {
      FitsPart(sizes, i, i, reach + 1, end);
    }
  }

  lemma ReachUnique(sizes: seq<nat>, i: nat, a: nat, b: nat)
    requires IsReach(sizes, i, a) && IsReach(sizes, i, b)
    ensures a == b
  {
    ReachIsLimit(sizes, i, a, b);
    ReachIsLimit(sizes, i, b, a);
  }

  /** How many batches the relay sends to empty the records from `i` on. */
  function Rounds(sizes: seq<nat>, i: nat): nat
    requires i <= |sizes| && Admissible(sizes)
    decreases |sizes| - i
  {
    if i == |sizes| then 0 else 1 + Rounds(sizes, Reach(sizes, i))
  }

  /** Any way to cut the records from `i` on into consecutive requests within the limits. */
  ghost predicate Partition(sizes: seq<nat>, i: nat, ends: seq<nat>)
    decreases |ends|
  {
    if ends == [] then i == |sizes|
    else i <= ends[0] <= |sizes| && Fits(sizes[i..ends[0]]) && Partition(sizes, ends[0], ends[1..])
  }

  /** A batch that starts later reaches at least as far. */
  lemma ReachMonotone(sizes: seq<nat>, i: nat, k: nat)
    requires i <= k < |sizes| && Admissible(sizes)
    ensures Reach(sizes, i) <= Reach(sizes, k)
  {
    var r := Reach(sizes, i);
    if k < r {
      FitsPart(sizes, i, k, r, r);
      ReachIsLimit(sizes, k, r, Reach(sizes, k));
    }
  }

  lemma {:induction false} RoundsMonotone(sizes: seq<nat>, i: nat, k: nat)
    requires i <= k <= |sizes| && Admissible(sizes)
    ensures Rounds(sizes, k) <= Rounds(sizes, i)
    decreases |sizes| - i
  {
    if k < |sizes| {
      ReachMonotone(sizes, i, k);
      RoundsMonotone(sizes, Reach(sizes, i), Reach(sizes, k));
    }
  }

  /** Greedy composition needs the fewest requests of any in-order split within the limits. */
  lemma {:induction false} GreedyOptimal(sizes: seq<nat>, i: nat, ends: seq<nat>)
    requires i <= |sizes| && Admissible(sizes) && Partition(sizes, i, ends)
    ensures Rounds(sizes, i) <= |ends|
    decreases |ends|
  {
    if ends != [] {
      GreedyOptimal(sizes, ends[0], ends[1..]);
      if i < |sizes| {
        if i < ends[0] {
          ReachIsLimit(sizes, i, ends[0], Reach(sizes, i));
        }
        RoundsMonotone(sizes, ends[0], Reach(sizes, i));
      }
    }
  }

  /** The cuts the relay makes itself. */
  function GreedyCuts(sizes: seq<nat>, i: nat): seq<nat>
    requires i <= |sizes| && Admissible(sizes)
    decreases |sizes| - i
  {
    if i == |sizes| then [] else [Reach(sizes, i)] + GreedyCuts(sizes, Reach(sizes, i))
  }

  /** The bound is attained: the relay's own cuts are a legal split of that length. */
  lemma {:induction false} GreedyAttained(sizes: seq<nat>, i: nat)
    requires i <= |sizes| && Admissible(sizes)
    ensures Partition(sizes, i, GreedyCuts(sizes, i)) && |GreedyCuts(sizes, i)| == Rounds(sizes, i)
    decreases |sizes| - i
  {
    if i < |sizes| {
      GreedyAttained(sizes, Reach(sizes, i));
      assert GreedyCuts(sizes, i)[1..] == GreedyCuts(sizes, Reach(sizes, i));
    }
  }
}
