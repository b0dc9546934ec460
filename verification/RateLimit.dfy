/** What the per-device command limit makes of successive commands that find the same, kept entry. */
module RateLimit {
  import opened Wrappers
  import opened ConnectHub

  /** Clock readings of successive commands of one device. */
  ghost predicate Monotone(times: seq<int>) {
    forall i, j :: 0 <= i < j < |times| ==> times[i] <= times[j]
  }

  ghost predicate Fresh(rate: Option<Rate>, times: seq<int>) {
    && Monotone(times)
    && (rate.Some? ==> 1 <= rate.value.count <= MAX_COMMANDS_PER_WINDOW)
    && (rate.Some? && times != [] ==> rate.value.windowStartedMs <= times[0])
  }

  /** How many of the commands at `times` are admitted in the half-open interval `lo .. hi`. */
  function Admitted(rate: Option<Rate>, times: seq<int>, lo: int, hi: int): nat
    decreases |times|
  {
    if times == [] then 0
    else
      var (next, admitted) := TakeRate(rate, times[0]);
      (if admitted && lo <= times[0] < hi then 1 else 0) + Admitted(Some(next), times[1..], lo, hi)
  }

  /** How many are admitted on account of the window that starts at `start`. */
  function Charged(rate: Option<Rate>, times: seq<int>, start: int): nat
    decreases |times|
  {
    if times == [] then 0
    else
      var (next, admitted) := TakeRate(rate, times[0]);
      (if admitted && next.windowStartedMs == start then 1 else 0) + Charged(Some(next), times[1..], start)
  }

  /** The entry after the commands at `times`. */
  function Final(rate: Option<Rate>, times: seq<int>): Option<Rate>
    decreases |times|
  {
    if times == [] then rate else Final(Some(TakeRate(rate, times[0]).0), times[1..])
  }

  lemma NextFresh(rate: Option<Rate>, times: seq<int>)
    requires Fresh(rate, times) && times != []
    ensures Fresh(Some(TakeRate(rate, times[0]).0), times[1..])
  {
    assert forall i :: 0 <= i < |times[1..]| ==> times[1..][i] == times[i + 1];
  }

  lemma {:induction false} NothingAfter(rate: Option<Rate>, times: seq<int>, lo: int, hi: int)
    requires Monotone(times) && (times != [] ==> hi <= times[0])
    ensures Admitted(rate, times, lo, hi) == 0
    decreases |times|
  {
    if times != [] {
      assert forall i :: 0 <= i < |times[1..]| ==> times[1..][i] == times[i + 1];
      NothingAfter(Some(TakeRate(rate, times[0]).0), times[1..], lo, hi);
    }
  }

  /** What an entry leaves for the rest of an interval no longer than a window: the rest of its own window, and one
      more whole window if its own started before the interval. */
  function Allowance(rate: Option<Rate>, lo: int): int {
    if rate.None? then MAX_COMMANDS_PER_WINDOW
    else MAX_COMMANDS_PER_WINDOW - rate.value.count + if rate.value.windowStartedMs < lo then MAX_COMMANDS_PER_WINDOW else 0
  }

  lemma {:induction false} WithinAllowance(rate: Option<Rate>, times: seq<int>, lo: int, hi: int)
    requires Fresh(rate, times) && hi - lo <= RATE_WINDOW_MS && (times != [] ==> lo <= times[0])
    ensures Admitted(rate, times, lo, hi) <= Allowance(rate, lo)
    decreases |times|
  {
    if times != [] {
      NextFresh(rate, times);
      var (next, admitted) := TakeRate(rate, times[0]);
      WithinAllowance(Some(next), times[1..], lo, hi);
      if hi <= times[0] {
        NothingAfter(rate, times, lo, hi);
      }
    }
  }

  lemma {:induction false} WithinMinute(rate: Option<Rate>, times: seq<int>, lo: int)
    requires Fresh(rate, times)
    ensures Admitted(rate, times, lo, lo + RATE_WINDOW_MS) <= 2 * MAX_COMMANDS_PER_WINDOW - 1
    decreases |times|
  {
    if times == [] || lo <= times[0] {
      WithinAllowance(rate, times, lo, lo + RATE_WINDOW_MS);
    } else {
      NextFresh(rate, times);
      WithinMinute(Some(TakeRate(rate, times[0]).0), times[1..], lo);
    }
  }

  /** On an entry that is kept, no half-open interval of a minute admits more than 239 commands. */
  lemma AnyMinute(times: seq<int>, lo: int)
    requires Monotone(times)
    ensures Admitted(None, times, lo, lo + 60_000) <= 239
  {
    WithinMinute(None, times, lo);
  }

  lemma {:induction false} WithinWindow(rate: Option<Rate>, times: seq<int>, start: int)
    requires Fresh(rate, times)
    ensures Charged(rate, times, start) <=
      if rate.None? || rate.value.windowStartedMs < start then MAX_COMMANDS_PER_WINDOW
      else if rate.value.windowStartedMs == start then MAX_COMMANDS_PER_WINDOW - rate.value.count else 0
    decreases |times|
  {
    if times != [] {
      NextFresh(rate, times);
      WithinWindow(Some(TakeRate(rate, times[0]).0), times[1..], start);
    }
  }

  lemma {:induction false} ChargedIsCount(rate: Option<Rate>, times: seq<int>)
    requires Fresh(rate, times) && Final(rate, times).Some?
    ensures var last := Final(rate, times).value;
      && Fresh(Some(last), [])
      && (rate.Some? ==> rate.value.windowStartedMs <= last.windowStartedMs)
      && last.count == Charged(rate, times, last.windowStartedMs)
           + if rate.Some? && rate.value.windowStartedMs == last.windowStartedMs then rate.value.count else 0
    decreases |times|
  {
    if times != [] {
      NextFresh(rate, times);
      ChargedIsCount(Some(TakeRate(rate, times[0]).0), times[1..]);
    }
  }

  /** On an entry that is kept, a command is refused if and only if the running window has been charged 120
      times, and no window is ever charged more. */
  lemma RefusedExactlyWhenSpent(times: seq<int>, now: int)
    requires Monotone(times) && Final(None, times).Some?
    ensures var last := Final(None, times).value;
      !TakeRate(Some(last), now).1 <==>
        now - last.windowStartedMs < 60_000 && Charged(None, times, last.windowStartedMs) == 120
    ensures forall start :: Charged(None, times, start) <= 120
  {
    ChargedIsCount(None, times);
    forall start ensures Charged(None, times, start) <= 120 {
      WithinWindow(None, times, start);
    }
  }

  function Repeat(now: int, n: nat): (times: seq<int>)
    ensures |times| == n && forall i :: 0 <= i < n ==> times[i] == now
  {
    if n == 0 then [] else [now] + Repeat(now, n - 1)
  }

  lemma {:induction false} Burst(rate: Rate, now: int, n: nat, rest: seq<int>, lo: int, hi: int)
    requires now - rate.windowStartedMs < RATE_WINDOW_MS && rate.count + n <= MAX_COMMANDS_PER_WINDOW && lo <= now < hi
    ensures Admitted(Some(rate), Repeat(now, n) + rest, lo, hi) == n + Admitted(Some(rate.(count := rate.count + n)), rest, lo, hi)
    decreases n
  {
    if n == 0 {
      assert Repeat(now, n) + rest == rest;
    } else {
      assert (Repeat(now, n) + rest)[1..] == Repeat(now, n - 1) + rest;
      Burst(rate.(count := rate.count + 1), now, n - 1, rest, lo, hi);
    }
  }

  /** The bound is attained: the end of one window and the whole of the next fit in less than a minute. */
  lemma BusiestMinute() returns (times: seq<int>, lo: int)
    ensures Monotone(times) && Admitted(None, times, lo, lo + 60_000) == 239
  {
    lo := 1;
    var later := Repeat(60_000, 119);
    times := [0] + (Repeat(59_999, 119) + ([60_000] + (later + [])));
    Burst(Rate(0, 1), 59_999, 119, [60_000] + (later + []), lo, lo + 60_000);
    assert times[1..] == Repeat(59_999, 119) + ([60_000] + (later + []));
    assert ([60_000] + (later + []))[1..] == later + [];
    Burst(Rate(60_000, 1), 60_000, 119, [], lo, lo + 60_000);
  }
}
