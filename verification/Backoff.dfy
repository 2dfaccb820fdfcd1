/**
  Crash handling of one app: the list of recent failures, the wait before the next
  restart, and when the supervisor gives up.
 */
module Backoff {
  import opened Wrappers

  /** Nanoseconds, as the source's durations are. */
  type Time = int

  const SECOND: Time := 1_000_000_000
  const CRASH_WINDOW: Time := 600 * SECOND
  const CRASH_THRESHOLD := 10
  const MAX_BACKOFF: Time := 60 * SECOND

  function Pow2(n: nat): nat { if n == 0 then 1 else 2 * Pow2(n - 1) }

  /** What n failures earn: a second, shifted left n - 1 times, but no more than the cap. */
  function Backoff(n: int): Time {
    var m := if n < 1 then 1 else n;
    if m > 7 then MAX_BACKOFF
    else if SECOND * Pow2(m - 1) < MAX_BACKOFF then SECOND * Pow2(m - 1) else MAX_BACKOFF
  }

  lemma BackoffDoubles(n: int)
    requires 1 <= n
    ensures Backoff(1) == 1_000_000_000
    ensures Backoff(n + 1) == (if 2 * Backoff(n) < 60_000_000_000 then 2 * Backoff(n) else 60_000_000_000)
    ensures 1_000_000_000 <= Backoff(n) <= 60_000_000_000
  {
    if n <= 6 {
      assert Pow2(n) == 2 * Pow2(n - 1);
    }
    assert Pow2(6) == 64 && Pow2(5) == 32 && Pow2(4) == 16 && Pow2(3) == 8 && Pow2(2) == 4 && Pow2(1) == 2 by {
      assert Pow2(3) == 8;
    }
  }

  /** The waits before restarts 1 to n, added up. */
  function WaitsUpTo(n: nat): Time { if n == 0 then 0 else WaitsUpTo(n - 1) + Backoff(n) }

  lemma NineWaits()
    ensures WaitsUpTo(9) == 243_000_000_000
  {
    BackoffDoubles(1); BackoffDoubles(2); BackoffDoubles(3); BackoffDoubles(4); BackoffDoubles(5);
    BackoffDoubles(6); BackoffDoubles(7); BackoffDoubles(8); BackoffDoubles(9);
    assert WaitsUpTo(3) == 7 * SECOND;
    assert WaitsUpTo(6) == 63 * SECOND;
  }

  /** The waits in numbers: a second, doubled up to a minute. */
  function Earned(n: nat): Time
    requires 1 <= n <= 9
  {
    [1, 2, 4, 8, 16, 32, 60, 60, 60][n - 1] * 1_000_000_000
  }

  lemma BackoffIsEarned(n: nat)
    requires 1 <= n <= 9
    ensures Backoff(n) == Earned(n)
  {
    BackoffDoubles(1); BackoffDoubles(2); BackoffDoubles(3); BackoffDoubles(4);
    BackoffDoubles(5); BackoffDoubles(6); BackoffDoubles(7); BackoffDoubles(8);
  }

  // ------------------------------------------------------------ the failure list

  /** The failures younger than the window at `now`, in order. */
  function Recent(failures: seq<Time>, now: Time): seq<Time> {
    if failures == [] then []
    else
      var n := |failures| - 1;
      if now - failures[n] < CRASH_WINDOW then Recent(failures[..n], now) + [failures[n]]
          else Recent(failures[..n], now)
  }

  /** The list after one more failure: what is left of the old one, then this one. */
  function AddFailure(failures: seq<Time>, now: Time): (r: seq<Time>)
    ensures 1 <= |r| && r[|r| - 1] == now
  {
    Recent(failures, now) + [now]
  }

  /** What a failure leads to: another attempt after a wait, or nothing (None). */
  function NextWait(failures: seq<Time>): Option<Time> {
    if |failures| >= CRASH_THRESHOLD then None else Some(Backoff(|failures|))
  }

  predicate Ascending(ts: seq<Time>) {
    forall i, j | 0 <= i < j < |ts| :: ts[i] <= ts[j]
  }

  /** The list after a whole history of failures, none forgotten by a reset. */
  function After(history: seq<Time>): seq<Time> {
    if history == [] then []
    else AddFailure(After(history[..|history| - 1]), history[|history| - 1])
  }

  lemma {:induction false} RecentTwice(a: seq<Time>, early: Time, late: Time)
    requires early <= late
    ensures Recent(Recent(a, early), late) == Recent(a, late)
  {
    if a != [] {
      var n := |a| - 1;
      RecentTwice(a[..n], early, late);
      if early - a[n] < CRASH_WINDOW {
        var r := Recent(a[..n], early);
        assert (r + [a[n]])[..|r|] == r;
      }
    }
  }

  /** Dropping old failures as they age never changes the answer: the pruned list is
      always the whole history cut to the window that ends at the latest failure. */
  lemma {:induction false} PrunedListIsTheWindow(history: seq<Time>)
    requires history != [] && Ascending(history)
    ensures After(history) == Recent(history, history[|history| - 1])
  {
    var n := |history| - 1;
    if n > 0 {
      var before := history[..n];
      PrunedListIsTheWindow(before);
      RecentTwice(before, before[n - 1], history[n]);
    }
  }

  /** In order of time, the window is a suffix of the history. */
  lemma {:induction false} RecentIsASuffix(history: seq<Time>, now: Time, k: nat)
    requires k <= |history|
    requires forall i | 0 <= i < k :: CRASH_WINDOW <= now - history[i]
    requires forall i | k <= i < |history| :: now - history[i] < CRASH_WINDOW
    ensures Recent(history, now) == history[k..]
  {
    if history != [] {
      var n := |history| - 1;
      RecentIsASuffix(history[..n], now, if k <= n then k else n);
      if k <= n { assert history[k..] == history[..n][k..] + [history[n]]; }
    }
  }

  /** On any list, in order or not: what is younger than ten minutes stays, in its order. */
  lemma {:induction false} RecentIsAFilter(a: seq<Time>, b: seq<Time>, t: Time, now: Time)
    ensures Recent(a + b, now) == Recent(a, now) + Recent(b, now)
    ensures Recent([t], now) == if now - t < 600_000_000_000 then [t] else []
  {
    assert [t][..0] == [];
    if b == [] {
      assert a + b == a;
    } else {
      var n := |b| - 1;
      RecentIsAFilter(a, b[..n], t, now);
      assert (a + b)[..|a + b| - 1] == a + b[..n];
    }
  }

  /** The last n of the first k failures are those less than ten minutes before the k-th. */
  predicate InWindow(history: seq<Time>, k: nat, n: nat) {
    && 1 <= n <= k <= |history|
    && history[k - 1] - history[k - n] < 600_000_000_000
    && (n < k ==> 600_000_000_000 <= history[k - 1] - history[k - n - 1])
  }

  /** What is kept after k failures is the last ten minutes, and it is what the next wait
      goes by. */
  lemma WindowIsKept(history: seq<Time>, k: nat) returns (n: nat)
    requires Ascending(history) && 1 <= k <= |history|
    ensures InWindow(history, k, n) && After(history[..k]) == history[k - n..k]
    ensures NextWait(After(history[..k])) == if n < 10 then Some(Earned(n)) else None
  {
    var (h, failures) := (history[..k], After(history[..k]));
    WindowOfAll(h, failures);
    n := |failures|;
    InWindowOfMore(h, history, k, n);
  }

  lemma InWindowOfMore(h: seq<Time>, history: seq<Time>, k: nat, n: nat)
    requires k <= |history| && h == history[..k] && InWindow(h, k, n)
    ensures InWindow(history, k, n) && h[k - n..] == history[k - n..k]
  {}

  lemma WindowOfAll(history: seq<Time>, failures: seq<Time>)
    requires Ascending(history) && history != [] && failures == After(history)
    ensures var (k, n) := (|history|, |failures|);
      && InWindow(history, k, n) && failures == history[k - n..]
      && NextWait(failures) == if n < 10 then Some(Earned(n)) else None
  {
    PrunedListIsTheWindow(history);
    var n := RecentWindow(history);
    WaitInNumbers(failures);
  }

  lemma RecentWindow(h: seq<Time>) returns (n: nat)
    requires Ascending(h) && h != []
    ensures InWindow(h, |h|, n) && Recent(h, h[|h| - 1]) == h[|h| - n..]
  {
    var cut := RecentCutPoint(h, h[|h| - 1]);
    RecentIsASuffix(h, h[|h| - 1], cut);
    n := |h| - cut;
  }

  lemma WaitInNumbers(failures: seq<Time>)
    requires failures != []
    ensures NextWait(failures) == if |failures| < 10 then Some(Earned(|failures|)) else None
  {
    if |failures| < 10 { BackoffIsEarned(|failures|); }
  }

  /** So failures that lie eleven minutes apart wait a second each. */
  lemma ElevenMinutesApart(history: seq<Time>, k: nat)
    requires Ascending(history) && 1 < k <= |history|
    requires 660_000_000_000 <= history[k - 1] - history[k - 2]
    ensures NextWait(After(history[..k])) == Some(1_000_000_000)
  {
    var n := WindowIsKept(history, k);
    forall i | 0 <= i < k - 1 ensures 660_000_000_000 <= history[k - 1] - history[i] {
      assert history[i] <= history[k - 2];
    }
  }

  lemma RecentCutPoint(history: seq<Time>, now: Time) returns (k: nat)
    requires Ascending(history)
    ensures k <= |history|
    ensures forall i | 0 <= i < k :: CRASH_WINDOW <= now - history[i]
    ensures forall i | k <= i < |history| :: now - history[i] < CRASH_WINDOW
  {
    k := 0;
    while k < |history| && CRASH_WINDOW <= now - history[k]
      invariant k <= |history|
      invariant forall i | 0 <= i < k :: CRASH_WINDOW <= now - history[i]
    {
      k := k + 1;
    }
  }

  /** Failures i to j of a history that ends at j, if within one window, all count at j. */
  lemma CountedAtLeast(history: seq<Time>, i: nat)
    requires Ascending(history) && i < |history| && history[|history| - 1] - history[i] < CRASH_WINDOW
    ensures |After(history)| >= |history| - i
  {
    var now := history[|history| - 1];
    PrunedListIsTheWindow(history);
    var k := RecentCutPoint(history, now);
    RecentIsASuffix(history, now, k);
    assert k <= i;
  }

  /** A history the supervisor let go on: every failure but the last led to a restart. */
  predicate RestartedAfterAllButLast(history: seq<Time>) {
    forall k | 1 <= k < |history| :: NextWait(After(history[..k])).Some?
  }

  /** A failure that came no earlier than the restart the one before it had earned. */
  predicate WaitedAt(history: seq<Time>, k: nat)
    requires 1 <= k < |history|
  {
    var wait := NextWait(After(history[..k]));
    wait.Some? && history[k - 1] + wait.value <= history[k]
  }

  /** Each failure but the first came after its wait. */
  predicate Waited(history: seq<Time>) {
    |history| <= 1 || (Waited(history[..|history| - 1]) && WaitedAt(history, |history| - 1))
  }

  lemma {:induction false} EachHasWaited(history: seq<Time>, k: nat)
    requires Waited(history) && 1 <= k < |history|
    ensures WaitedAt(history, k)
  {
    var n := |history| - 1;
    if k < n {
      EachHasWaited(history[..n], k);
      WaitedInPrefix(history, n, k);
    }
  }

  lemma WaitedInPrefix(history: seq<Time>, n: nat, k: nat)
    requires 1 <= k < n <= |history| && WaitedAt(history[..n], k)
    ensures WaitedAt(history, k)
  {
    assert history[..n][..k] == history[..k];
  }

  lemma WaitedIsRestarted(history: seq<Time>)
    requires Waited(history)
    ensures RestartedAfterAllButLast(history)
  {
    forall k | 1 <= k < |history| ensures NextWait(After(history[..k])).Some? { EachHasWaited(history, k); }
  }

  /** The promise of the threshold: without a reset, no window of ten minutes ever
      sees an eleventh failure. */
  lemma NoWindowHoldsElevenFailures(history: seq<Time>, i: nat, j: nat)
    requires Ascending(history) && RestartedAfterAllButLast(history)
    requires i <= j < |history| && history[j] - history[i] < 600_000_000_000
    ensures j - i + 1 <= 10
  {
    if j - i + 1 > CRASH_THRESHOLD {
      CountedAtLeast(history[..j], i);
      assert false;
    }
  }

  // ------------------------------------------------------------ crash loops

  /** Failure k (from 0) comes at most `slack` after the wait that k failures earn. */
  predicate LoopStep(history: seq<Time>, k: nat, slack: Time)
    requires 1 <= k < |history|
  {
    history[k] <= history[k - 1] + Backoff(k) + slack
  }

  /** Failure times of an app that keeps crashing, from a clean history on. */
  ghost predicate CrashLoop(history: seq<Time>, slack: Time) {
    Ascending(history) && forall k | 1 <= k < |history| :: LoopStep(history, k, slack)
  }

  /** Nine attempts of at most `slack` each and the nine waits fit in the window. */
  predicate Quick(slack: Time) { 0 <= slack && 243_000_000_000 + 9 * slack < 600_000_000_000 }

  lemma CrashLoopPrefix(history: seq<Time>, n: nat, slack: Time)
    requires n <= |history| && CrashLoop(history, slack)
    ensures CrashLoop(history[..n], slack)
  {
    forall k | 1 <= k < n ensures LoopStep(history[..n], k, slack) { assert LoopStep(history, k, slack); }
  }

  /** How long after the first failure the (n+1)-th comes at the latest. */
  function LoopSpan(n: nat, slack: Time): Time {
    if n == 0 then 0 else LoopSpan(n - 1, slack) + Backoff(n) + slack
  }

  lemma {:induction false} LoopSpanFits(n: nat, slack: Time)
    requires n <= 9 && Quick(slack)
    ensures LoopSpan(n, slack) < CRASH_WINDOW
    decreases 9 - n
  {
    if n < 9 {
      LoopSpanFits(n + 1, slack);
      BackoffDoubles(n + 1);
    } else {
      LoopSpanIsWaits(9, slack);
      NineWaits();
    }
  }

  lemma {:induction false} LoopSpanIsWaits(n: nat, slack: Time)
    ensures LoopSpan(n, slack) == WaitsUpTo(n) + n * slack
  {
    if n > 0 {
      LoopSpanIsWaits(n - 1, slack);
      assert n * slack == (n - 1) * slack + slack;
    }
  }

  lemma AscendingAppend(before: seq<Time>, last: Time)
    requires Ascending(before) && (before != [] ==> before[|before| - 1] <= last)
    ensures Ascending(before + [last])
  {
    forall i, j | 0 <= i < j < |before + [last]| ensures (before + [last])[i] <= (before + [last])[j] {
      if j == |before| { assert before[i] <= before[|before| - 1]; }
    }
  }

  lemma AfterAppend(before: seq<Time>, last: Time)
    ensures After(before + [last]) == Recent(After(before), last) + [last]
  {
    assert (before + [last])[..|before|] == before;
  }

  /** One more failure keeps the pruned list the list of the whole history. */
  lemma HistoryAppend(history: seq<Time>, now: Time)
    requires Ascending(history) && (history != [] ==> history[|history| - 1] <= now)
    ensures After(history + [now]) == AddFailure(After(history), now) && Ascending(history + [now])
  {
    AfterAppend(history, now);
    AscendingAppend(history, now);
  }

  /** A failure inside the window of the first one forgets nothing. */
  lemma FailureInWindowForgetsNothing(before: seq<Time>, last: Time)
    requires before != [] && Ascending(before) && last < before[0] + CRASH_WINDOW
    ensures Recent(before, last) == before
  {
    forall i | 0 <= i < |before| ensures last - before[i] < CRASH_WINDOW {
      assert before[0] <= before[i];
    }
    RecentIsASuffix(before, last, 0);
  }

  lemma OneMoreInTheWindow(before: seq<Time>, last: Time)
    requires before != [] && Ascending(before) && After(before) == before
    requires before[|before| - 1] <= last < before[0] + CRASH_WINDOW
    ensures After(before + [last]) == before + [last] && Ascending(before + [last])
  {
    FailureInWindowForgetsNothing(before, last);
    AfterAppend(before, last);
    AscendingAppend(before, last);
  }

  /** As long as the loop is quick enough nothing ages out of the window. */
  lemma {:induction false} LoopKeepsEveryFailure(history: seq<Time>, slack: Time)
    requires CrashLoop(history, slack) && Quick(slack)
    requires 1 <= |history| <= CRASH_THRESHOLD
    ensures After(history) == history
    ensures history[|history| - 1] - history[0] <= LoopSpan(|history| - 1, slack)
  {
    var n := |history| - 1;
    if n == 0 {
      assert history[..0] == [] && history == [history[0]];
    } else {
      CrashLoopPrefix(history, n, slack);
      LoopKeepsEveryFailure(history[..n], slack);
      LoopKeepsOneMore(history, n, slack);
    }
  }

  lemma LoopKeepsOneMore(history: seq<Time>, n: nat, slack: Time)
    requires CrashLoop(history, slack) && Quick(slack) && |history| == n + 1 && 1 <= n <= 9
    requires After(history[..n]) == history[..n] && history[n - 1] - history[0] <= LoopSpan(n - 1, slack)
    ensures After(history) == history && history[n] - history[0] <= LoopSpan(n, slack)
  {
    var before := history[..n];
    assert LoopStep(history, n, slack);
    LoopSpanFits(n, slack);
    assert Ascending(before) by { CrashLoopPrefix(history, n, slack); }
    OneMoreInTheWindow(before, history[n]);
    assert history == before + [history[n]];
  }

  /** A crash loop ends: if every attempt together with its uptime lasts at most `slack`
      and 243 s + 9 * slack fits in the window, the k-th failure waits backoff(k) for
      k < 10 and the tenth is the one after which nothing more is tried. */
  lemma CrashLoopEndsAtTheTenthFailure(history: seq<Time>, slack: Time)
    requires CrashLoop(history, slack) && Quick(slack)
    requires 1 <= |history| <= 10
    ensures NextWait(After(history)) == if |history| < 10 then Some(Earned(|history|)) else None
  {
    LoopKeepsEveryFailure(history, slack);
    if |history| < 10 { BackoffIsEarned(|history|); }
  }

  lemma CrashLoopHasNoEleventhFailure(history: seq<Time>, slack: Time)
    requires CrashLoop(history, slack) && Quick(slack) && RestartedAfterAllButLast(history)
    ensures |history| <= 10
  {
    if |history| > CRASH_THRESHOLD {
      CrashLoopPrefix(history, CRASH_THRESHOLD, slack);
      CrashLoopEndsAtTheTenthFailure(history[..CRASH_THRESHOLD], slack);
      assert false;
    }
  }

  /** The filter of the source: survivors are moved to the front of the same array. */
  method Prune(buf: array<Time>, n: nat, now: Time) returns (k: nat)
    requires n <= buf.Length
    modifies buf
    ensures k <= n && buf[..k] == Recent(old(buf[..n]), now)
    ensures buf[n..] == old(buf[n..])
  {
    k := 0;
    for i := 0 to n
      invariant k <= i
      invariant forall x | i <= x < buf.Length :: buf[x] == old(buf[x])
      invariant buf[..k] == Recent(old(buf[..i]), now)
    {
      var t := buf[i];
      ghost var was := old(buf[..i]);
      assert old(buf[..i + 1]) == was + [t] && (was + [t])[..i] == was;
      if now - t < CRASH_WINDOW {
        buf[k] := t;
        k := k + 1;
      }
    }
  }
}
