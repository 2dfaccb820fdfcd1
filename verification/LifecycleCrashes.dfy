/**
  What the invariant buys, sixth part: crash loops end, reports count once, and
  recovery leaves nothing half done.
 */
module LifecycleCrashes {
  import opened Wrappers
  import opened Releases
  import opened Backoff
  import opened Lifecycle
  import opened LifecycleInvariant
  import opened LifecycleDeploy
  import opened LifecycleSteps
  import opened LifecycleTheorems

  lemma CrashRunStep(states: seq<State>, events: seq<Event>, i: nat)
    requires IsRun(states, events) && i < |events|
    ensures var s := states[i];
      && HistoryInv(s) && TimerInv(s) && GiveUpInv(s) && SinceInv(s)
      && Enabled(s, events[i]) && states[i + 1] == Next(s, events[i])
  {
    RunStep(states, events, i);
  }

  /** What a pending restart is: for a current instance that has exited, after the 1 to 9
      failures in the window since the last reset, due when the wait they ask for is over. */
  ghost predicate PendingOk(s: State) {
    s.retry.Some? ==>
      var (k, n) := (|s.history|, |s.failures|);
      && s.current.Some? && s.current.value.exited
      && InWindow(s.history, k, n) && s.failures == s.history[k - n..] && n <= 9
      && s.retry.value.delay == Earned(n) && s.retry.value.due == s.history[k - 1] + Earned(n)
  }

  lemma TimerAt(states: seq<State>, events: seq<Event>, i: nat)
    requires IsRun(states, events) && i < |states|
    ensures TimerInv(states[i]) && (states[i].retry.Some? ==> states[i].history != [])
  {
    EveryReachableStateSatisfiesInvariant(states, events, i);
  }

  lemma PendingIn(s: State, history: seq<Time>, n: nat)
    requires s.retry.Some? && TimerInv(s) && history == s.history && n == |s.failures|
    requires Answer(history, n, NextWait(s.failures)) && s.failures == history[|history| - n..]
    ensures PendingOk(s)
  {
    assert s.failures[n - 1] == history[|history| - 1];
  }

  lemma PendingRestart(states: seq<State>, events: seq<Event>, i: nat)
    requires IsRun(states, events) && i < |states|
    ensures PendingOk(states[i])
  {
    TimerAt(states, events, i);
    if states[i].retry.Some? {
      AnswerAt(states, events, i);
      PendingIn(states[i], states[i].history, |states[i].failures|);
    }
  }

  /** In a stretch with no reset and no reconcile restart, each failure came no earlier than
      the restart the one before it had earned; it had earned one, being one of nine at most
      in its ten minutes. */
  lemma EveryFailureWaited(states: seq<State>, events: seq<Event>, i: nat, k: nat) returns (n: nat)
    requires IsRun(states, events) && i < |states| && states[i].intact && 1 <= k < |states[i].history|
    ensures n <= 9 && InWindow(states[i].history, k, n)
    ensures states[i].history[k - 1] + Earned(n) <= states[i].history[k]
  {
    EveryReachableStateSatisfiesInvariant(states, events, i);
    EachHasWaited(states[i].history, k);
    n := WindowIsKept(states[i].history, k);
  }

  /** In such a stretch no ten minutes see an eleventh failure. */
  lemma AtMostTenFailuresInAnyWindow(states: seq<State>, events: seq<Event>, i: nat, a: nat, b: nat)
    requires IsRun(states, events) && i < |states| && states[i].intact && a <= b < |states[i].history|
    requires states[i].history[b] - states[i].history[a] < 600_000_000_000
    ensures b - a + 1 <= 10
  {
    EveryReachableStateSatisfiesInvariant(states, events, i);
    WaitedIsRestarted(states[i].history);
    NoWindowHoldsElevenFailures(states[i].history, a, b);
  }

  /** Only a failure schedules a restart: the exit of the current instance, or a scheduled
      restart that did not come up. */
  lemma OnlyAFailureSchedules(s: State, e: Event)
    requires DownInv(s) && Enabled(s, e) && Next(s, e).retry.Some? && Next(s, e).retry != s.retry
    ensures Next(s, e).history == s.history + [s.now]
    ensures e == Act(Reap) || (e == Late(Finish) && ScheduledRestart(s) && !s.activity.stage.ok)
  {
    match e
    case World(w) => WorldKeepsRetry(s, w);
    case Early(d) => EarlyKeepsRetry(s, d);
    case Late(l) => LateRetry(s, l);
    case Act(a) => ActorRetry(s, a);
    case Down(c) => DownHasNoRetry(s, c);
  }

  lemma WorldKeepsRetry(s: State, w: WorldStep)
    requires WorldEnabled(s, w)
    ensures NextWorld(s, w).retry == s.retry
  {}

  lemma DownHasNoRetry(s: State, c: DownStep)
    requires DownInv(s) && DownEnabled(s, c)
    ensures NextDown(s, c).retry.None?
  {}

  lemma EarlyKeepsRetry(s: State, d: EarlyStep)
    requires EarlyEnabled(s, d)
    ensures NextEarly(s, d).retry == s.retry
  {
    match d case CreateRow(_, _) => case _ =>
  }

  lemma LateRetry(s: State, l: LateStep)
    requires LateEnabled(s, l) && NextLate(s, l).retry.Some? && NextLate(s, l).retry != s.retry
    ensures l.Finish? && ScheduledRestart(s) && !s.activity.stage.ok && NextLate(s, l).history == s.history + [s.now]
  {
    match l case Finish => case _ =>
  }

  lemma ActorRetry(s: State, a: ActorStep)
    requires ActorEnabled(s, a) && NextActor(s, a).retry.Some? && NextActor(s, a).retry != s.retry
    ensures a.Reap? && NextActor(s, a).history == s.history + [s.now]
  {
    match a case Take(_, _) => case TimerFires(_) => case Reap => case _ =>
  }

  // -------------------------------------------------------------- crash loops

  /** A failure: the current instance has exited, or a scheduled restart did not come up. */
  predicate Fails(s: State, e: Event) {
    e == Act(Reap) || (e == Late(Finish) && ScheduledRestart(s) && s.activity.stage.Replied? && !s.activity.stage.ok)
  }

  /** What gives the app a new start: a manual restart that begins, a new release that goes
      live, a destroy or a crash. A reconcile restart that goes live after failures is one
      too, as far as waiting is concerned. */
  ghost predicate Resets(s: State, e: Event) {
    match e
    case World(_) => false
    case Early(_) => false
    case Late(l) =>
      l.Commit? && s.activity.Busy?
      && !(s.activity.cmd.Restart? && (s.activity.cmd.manual || s.activity.cmd.scheduled || s.history == []))
    case Act(a) => a.DestroyEnds? || (a.Take? && a.cmd.Restart? && a.cmd.manual
        && FirstStage(s, a.cmd, a.refused).Launching?)
    case Down(c) => c.Crash?
  }

  function Added(s: State, e: Event): seq<Time> { if Fails(s, e) then [s.now] else [] }

  /** How a history goes on without a reset. */
  ghost predicate GoesOn(s: State, e: Event, t: State) {
    t.history == s.history + Added(s, e) && (s.intact ==> t.intact)
  }

  lemma WorldGoesOn(s: State, w: WorldStep)
    requires WorldEnabled(s, w)
    ensures GoesOn(s, World(w), NextWorld(s, w))
  {}

  lemma EarlyGoesOn(s: State, d: EarlyStep)
    requires EarlyEnabled(s, d)
    ensures GoesOn(s, Early(d), NextEarly(s, d))
  {
    match d case CreateRow(_, _) => case BuildEnds(_) => case _ =>
  }

  lemma LateGoesOn(s: State, l: LateStep)
    requires LateEnabled(s, l) && !Resets(s, Late(l))
    ensures GoesOn(s, Late(l), NextLate(s, l))
  {
    match l case Finish => case Commit => case _ =>
  }

  lemma ActorGoesOn(s: State, a: ActorStep)
    requires ActorEnabled(s, a) && !Resets(s, Act(a))
    ensures GoesOn(s, Act(a), NextActor(s, a))
  {
    match a case Take(_, _) => case TimerFires(_) => case Reap => case _ =>
  }

  lemma StepGoesOn(s: State, e: Event)
    requires Enabled(s, e) && !Resets(s, e)
    ensures GoesOn(s, e, Next(s, e))
  {
    match e
    case World(w) => WorldGoesOn(s, w);
    case Early(d) => EarlyGoesOn(s, d);
    case Late(l) => LateGoesOn(s, l);
    case Act(a) => ActorGoesOn(s, a);
    case Down(c) =>
  }

  /** When the restart that the last failure earned is due. */
  function Due(s: State): Time
    requires s.history != [] && NextWait(s.failures).Some?
  {
    s.history[|s.history| - 1] + NextWait(s.failures).value
  }

  /** The moment a failure is counted, the restart it earned is scheduled, or there is none. */
  lemma FailureIsAnswered(s: State, e: Event)
    requires HistoryInv(s) && TimerInv(s) && Enabled(s, e) && Fails(s, e)
    ensures var t := Next(s, e);
      && t.history == s.history + [s.now] && t.now == s.now
      && t.retry == if NextWait(t.failures).Some? then Some(Timer(NextWait(t.failures).value, Due(t))) else None
  {
    if e.Act? { assert s.retry.None?; }
  }

  /** A failure is counted no earlier than its attempt was due, and there was an attempt due. */
  lemma FailureIsRested(s: State, e: Event)
    requires GiveUpInv(s) && Enabled(s, e) && Fails(s, e) && s.intact && s.history != []
    ensures Rested(s)
  {}

  /** An attempt of a crash loop: from the due time to the next failure at most `slack`. */
  predicate QuickStep(s: State, e: Event, slack: Time) {
    Fails(s, e) && s.history != [] && NextWait(s.failures).Some? ==> s.now <= Due(s) + slack
  }

  /** A quick loop has at most ten failures; nothing is tried after the tenth. */
  lemma CrashLoopIsGivenUp(s: State, slack: Time)
    requires HistoryInv(s) && TimerInv(s) && GiveUpInv(s) && s.intact
    requires s.history != [] && CrashLoop(s.history, slack) && Quick(slack)
    ensures |s.history| <= 10
    ensures NextWait(s.failures) == if |s.history| < 10 then Some(Earned(|s.history|)) else None
    ensures |s.history| == 10 ==> Idle(s) && s.retry.None? && !ScheduledRestart(s)
  {
    WaitedIsRestarted(s.history);
    CrashLoopHasNoEleventhFailure(s.history, slack);
    CrashLoopEndsAtTheTenthFailure(s.history, slack);
  }

  lemma LoopGrows(history: seq<Time>, now: Time, slack: Time)
    requires CrashLoop(history, slack) && history != []
    requires history[|history| - 1] <= now <= history[|history| - 1] + Backoff.Backoff(|history|) + slack
    ensures CrashLoop(history + [now], slack)
  {
    AscendingAppend(history, now);
    forall k | 1 <= k < |history + [now]| ensures LoopStep(history + [now], k, slack) {
      if k < |history| { assert LoopStep(history, k, slack); }
    }
  }

  lemma LoopContinues(s: State, e: Event, slack: Time)
    requires HistoryInv(s) && TimerInv(s) && GiveUpInv(s) && s.intact && Enabled(s, e) && Fails(s, e)
    requires CrashLoop(s.history, slack) && Quick(slack) && QuickStep(s, e, slack)
    ensures CrashLoop(s.history + [s.now], slack)
  {
    if s.history != [] {
      CrashLoopIsGivenUp(s, slack);
      FailureIsRested(s, e);
      BackoffIsEarned(|s.history|);
      LoopGrows(s.history, s.now, slack);
    }
  }

  /** The failures among the steps from `m` up to `i`. */
  function FailuresIn(states: seq<State>, events: seq<Event>, m: nat, i: nat): nat
    requires i <= |events| <= |states|
  {
    if i <= m then 0 else FailuresIn(states, events, m, i - 1) + |Added(states[i - 1], events[i - 1])|
  }

  /** A stretch of a run from a clean history on, with no reset, every attempt quick. */
  ghost predicate QuickLoop(states: seq<State>, events: seq<Event>, m: nat, i: nat, slack: Time) {
    && IsRun(states, events) && m <= i < |states| && states[m].history == [] && Quick(slack)
    && forall k | m <= k < i :: !Resets(states[k], events[k]) && QuickStep(states[k], events[k], slack)
  }

  lemma {:induction false} QuickLoopIsCrashLoop(states: seq<State>, events: seq<Event>, m: nat, i: nat, slack: Time)
    requires QuickLoop(states, events, m, i, slack)
    ensures states[i].intact && CrashLoop(states[i].history, slack)
    ensures |states[i].history| == FailuresIn(states, events, m, i)
  {
    if i == m {
      EveryReachableStateSatisfiesInvariant(states, events, i);
    } else {
      QuickLoopIsCrashLoop(states, events, m, i - 1, slack);
      QuickLoopStep(states, events, i - 1, slack);
    }
  }

  lemma QuickLoopStep(states: seq<State>, events: seq<Event>, i: nat, slack: Time)
    requires IsRun(states, events) && i < |events| && Quick(slack)
    requires !Resets(states[i], events[i]) && QuickStep(states[i], events[i], slack)
    requires states[i].intact && CrashLoop(states[i].history, slack)
    ensures states[i + 1].intact && CrashLoop(states[i + 1].history, slack)
    ensures states[i + 1].history == states[i].history + Added(states[i], events[i])
  {
    GoesOnAt(states, events, i);
    if Fails(states[i], events[i]) {
      LoopContinuesAt(states, events, i, slack);
    } else {
      assert states[i].history + [] == states[i].history;
    }
  }

  lemma GoesOnAt(states: seq<State>, events: seq<Event>, i: nat)
    requires IsRun(states, events) && i < |events| && !Resets(states[i], events[i])
    ensures GoesOn(states[i], events[i], states[i + 1])
  {
    assert StepAt(states, events, i);
    StepGoesOn(states[i], events[i]);
  }

  lemma LoopContinuesAt(states: seq<State>, events: seq<Event>, i: nat, slack: Time)
    requires IsRun(states, events) && i < |events| && Fails(states[i], events[i])
    requires Quick(slack) && QuickStep(states[i], events[i], slack)
    requires states[i].intact && CrashLoop(states[i].history, slack)
    ensures CrashLoop(states[i].history + [states[i].now], slack)
  {
    CrashRunStep(states, events, i);
    LoopContinues(states[i], events[i], slack);
  }

  /** A crash loop ends, whatever else happens around it. From a clean history on, with no
      reset and each attempt failing at most `slack` after it was due, the n-th failure is
      answered with a wait of backoff(n) for n up to nine and with none for the tenth; there
      is no eleventh, and nothing is pending or in progress for the app after the tenth. */
  lemma CrashLoopEndsAtTheTenth(states: seq<State>, events: seq<Event>, m: nat, i: nat, slack: Time)
    requires QuickLoop(states, events, m, i, slack)
    ensures var n := FailuresIn(states, events, m, i);
      && n <= 10
      && (n == 10 ==> Idle(states[i]) && states[i].retry.None? && !ScheduledRestart(states[i]))
      && (m < i && Fails(states[i - 1], events[i - 1]) ==> 1 <= n && states[i].retry == LoopTimer(n, states[i].now))
  {
    QuickLoopAt(states, events, m, i, slack);
    if m < i && Fails(states[i - 1], events[i - 1]) { AnsweredAt(states, events, i - 1); }
  }

  lemma QuickLoopAt(states: seq<State>, events: seq<Event>, m: nat, i: nat, slack: Time)
    requires QuickLoop(states, events, m, i, slack)
    ensures var (s, n) := (states[i], FailuresIn(states, events, m, i));
      && n == |s.history| <= 10
      && (n == 10 ==> Idle(s) && s.retry.None? && !ScheduledRestart(s))
      && (0 < n ==> NextWait(s.failures) == if n < 10 then Some(Earned(n)) else None)
  {
    QuickLoopIsCrashLoop(states, events, m, i, slack);
    EveryReachableStateSatisfiesInvariant(states, events, i);
    if states[i].history != [] { CrashLoopIsGivenUp(states[i], slack); }
  }

  /** The timer that the n-th failure of a crash loop is answered with. */
  function LoopTimer(n: nat, now: Time): Option<Timer>
    requires 1 <= n
  {
    if n < 10 then Some(Timer(Earned(n), now + Earned(n))) else None
  }

  lemma AnsweredAt(states: seq<State>, events: seq<Event>, i: nat)
    requires IsRun(states, events) && i < |events| && Fails(states[i], events[i])
    ensures var (t, wait) := (states[i + 1], NextWait(states[i + 1].failures));
      && t.history == states[i].history + [t.now] && t.retry == if wait.Some? then
           Some(Timer(wait.value, t.now + wait.value)) else None
  {
    CrashRunStep(states, events, i);
    FailureIsAnswered(states[i], events[i]);
  }

  /** The last failure is the n-th of its last ten minutes, and has the wait that n failures
      earn, or from the tenth on none. */
  predicate Answer(history: seq<Time>, n: nat, wait: Option<Time>) {
    InWindow(history, |history|, n) && wait == if n < 10 then Some(Earned(n)) else None
  }

  lemma AnswerAt(states: seq<State>, events: seq<Event>, i: nat)
    requires IsRun(states, events) && i < |states| && states[i].history != []
    ensures Answer(states[i].history, |states[i].failures|, NextWait(states[i].failures))
    ensures states[i].failures == states[i].history[|states[i].history| - |states[i].failures|..]
  {
    EveryReachableStateSatisfiesInvariant(states, events, i);
    WindowOfAll(states[i].history, states[i].failures);
  }

  /** Every failure of every run is answered at once. */
  lemma FailureEarnsItsWait(states: seq<State>, events: seq<Event>, i: nat) returns (n: nat, wait: Option<Time>)
    requires IsRun(states, events) && i < |events| && Fails(states[i], events[i])
    ensures var t := states[i + 1];
      && t.history == states[i].history + [t.now] && Answer(t.history, n, wait)
      && t.retry == if wait.Some? then Some(Timer(wait.value, t.now + wait.value)) else None
  {
    AnsweredAt(states, events, i);
    AnswerAt(states, events, i + 1);
    n, wait := |states[i + 1].failures|, NextWait(states[i + 1].failures);
  }

  // ------------------------------------------------------------- long uptimes

  /** What can make another instance current. */
  predicate TakesOver(e: Event) { e == Late(Commit) || (e.Down? && e.c.Recover?) }

  lemma SinceStays(s: State, e: Event)
    requires Enabled(s, e) && !TakesOver(e)
    ensures Next(s, e).since == s.since
  {
    match e
    case World(w) => WorldSinceStays(s, w);
    case Early(d) => EarlySinceStays(s, d);
    case Late(l) => LateSinceStays(s, l);
    case Act(a) => ActorSinceStays(s, a);
    case Down(c) =>
  }

  lemma WorldSinceStays(s: State, w: WorldStep)
    requires WorldEnabled(s, w)
    ensures NextWorld(s, w).since == s.since
  {}

  lemma LateSinceStays(s: State, l: LateStep)
    requires LateEnabled(s, l) && !l.Commit?
    ensures NextLate(s, l).since == s.since
  {}

  lemma EarlySinceStays(s: State, d: EarlyStep)
    requires EarlyEnabled(s, d)
    ensures NextEarly(s, d).since == s.since
  {
    match d case CreateRow(_, _) => case BuildEnds(_) => case _ =>
  }

  lemma ActorSinceStays(s: State, a: ActorStep)
    requires ActorEnabled(s, a)
    ensures NextActor(s, a).since == s.since
  {
    match a case Take(_, _) => case TimerFires(_) => case Reap => case _ =>
  }

  lemma {:induction false} SinceBefore(states: seq<State>, events: seq<Event>, k: nat, i: nat)
    requires IsRun(states, events) && k <= i < |states|
    requires forall m | k <= m < i :: !TakesOver(events[m])
    ensures states[i].since <= states[k].now
  {
    if i == k {
      EveryReachableStateSatisfiesInvariant(states, events, i);
    } else {
      SinceBefore(states, events, k, i - 1);
      assert StepAt(states, events, i - 1);
      SinceStays(states[i - 1], events[i - 1]);
    }
  }

  /** Failures as old as the window are forgotten by the next one. */
  lemma OldFailuresForgotten(s: State)
    requires HistoryInv(s) && SinceInv(s) && s.activity.Reaping? && s.current.Some?
        && 600_000_000_000 <= s.now - s.since
    ensures AddFailure(s.failures, s.now) == [s.now]
  {
    var (h, k) := (s.history, |s.history|);
    if h != [] {
      forall i | 0 <= i < k ensures CRASH_WINDOW <= s.now - h[i] { assert h[i] <= h[k - 1] <= s.since; }
      RecentIsASuffix(h, s.now, k);
      PrunedListIsTheWindow(h);
      RecentTwice(h, h[k - 1], s.now);
    }
  }

  lemma LongUptimeReap(s: State)
    requires HistoryInv(s) && SinceInv(s) && ActorEnabled(s, Reap) && 600_000_000_000 <= s.now - s.since
    ensures DoReap(s).retry == Some(Timer(1_000_000_000, s.now + 1_000_000_000))
  {
    OldFailuresForgotten(s);
    OneFailureReap(s);
  }

  lemma OneFailureReap(s: State)
    requires s.current.Some? && AddFailure(s.failures, s.now) == [s.now]
    ensures DoReap(s).retry == Some(Timer(1_000_000_000, s.now + 1_000_000_000))
  {
    FirstFailureWaits(s.now);
  }

  lemma FirstFailureWaits(now: Time)
    ensures NextWait([now]) == Some(1_000_000_000)
  {
    BackoffDoubles(1);
  }

  /** An app that was up for ten minutes is restarted after one second, whatever it did before:
      no instance has taken over since `k`, ten minutes or more before the exit counts at `i`. */
  lemma LongUptimeWaitsOneSecond(states: seq<State>, events: seq<Event>, k: nat, i: nat)
    requires IsRun(states, events) && k <= i < |events| && events[i] == Act(Reap)
    requires 600_000_000_000 <= states[i].now - states[k].now && forall m | k <= m < i :: !TakesOver(events[m])
    ensures states[i + 1].retry == Some(Timer(1_000_000_000, states[i].now + 1_000_000_000))
  {
    SinceBefore(states, events, k, i);
    ReapAt(states, events, i);
    LongUptimeReap(states[i]);
  }

  lemma ReapAt(states: seq<State>, events: seq<Event>, i: nat)
    requires IsRun(states, events) && i < |events| && events[i] == Act(Reap)
    ensures HistoryInv(states[i]) && SinceInv(states[i]) && ActorEnabled(states[i], Reap)
    ensures states[i + 1] == DoReap(states[i])
  {
    CrashRunStep(states, events, i);
  }

  // ---------------------------------------------------------------- giving up

  /** Given up: the instance is gone, nothing is scheduled and nothing is in progress. */
  predicate Dormant(s: State) { s.up && s.activity.Waiting? && Idle(s) && s.retry.None? }

  /** In any run, once the last ten failures lie within ten minutes, with no reset and no
      reconcile restart after any of them. */
  lemma GivenUpAtTheThreshold(states: seq<State>, events: seq<Event>, i: nat)
    requires IsRun(states, events) && i < |states| && states[i].up && states[i].activity.Waiting? && states[i].intact
    requires var (h, k) := (states[i].history, |states[i].history|);
      10 <= k && h[k - 1] - h[k - 10] < 600_000_000_000
    ensures Dormant(states[i])
  {
    EveryReachableStateSatisfiesInvariant(states, events, i);
    TenAreKept(states[i].history, states[i].failures);
  }

  lemma TenAreKept(h: seq<Time>, failures: seq<Time>)
    requires Ascending(h) && 10 <= |h| && h[|h| - 1] - h[|h| - 10] < 600_000_000_000 && failures == After(h)
    ensures NextWait(failures).None?
  {
    WindowOfAll(h, failures);
    TenInWindow(h, |failures|);
  }

  lemma TenInWindow(h: seq<Time>, n: nat)
    requires Ascending(h) && 10 <= |h| && h[|h| - 1] - h[|h| - 10] < 600_000_000_000 && InWindow(h, |h|, n)
    ensures 10 <= n
  {
    forall i | |h| - 10 <= i < |h| ensures h[|h| - 1] - h[i] < 600_000_000_000 { assert h[|h| - 10] <= h[i]; }
  }

  lemma DormantStep(s: State, e: Event)
    requires Dormant(s) && Enabled(s, e) && !(e.Act? && (e.a.Take? || e.a.DestroyBegins?)) && e != Down(Crash)
    ensures Dormant(Next(s, e)) && Starts(e) == {}
  {
    match e
    case World(w) => WorldDormant(s, w);
    case Early(d) => assert false;
    case Late(l) => assert false;
    case Act(a) => assert a.ExitReport? && !Matters(s, a.id);
    case Down(c) => assert false;
  }

  lemma WorldDormant(s: State, w: WorldStep)
    requires Dormant(s) && WorldEnabled(s, w)
    ensures Dormant(NextWorld(s, w))
  {}

  /** After giving up nothing is started or scheduled until a command arrives. */
  lemma {:induction false} GivenUpUntilACommand(states: seq<State>, events: seq<Event>, i: nat, j: nat)
    requires IsRun(states, events) && i <= j < |states| && Dormant(states[i])
    requires forall k | i <= k < j ::
      !(events[k].Act? && (events[k].a.Take? || events[k].a.DestroyBegins?)) && events[k] != Down(Crash)
    ensures Dormant(states[j])
    ensures forall k | i <= k < j :: Starts(events[k]) == {}
  {
    if i < j {
      GivenUpUntilACommand(states, events, i, j - 1);
      assert StepAt(states, events, j - 1);
      DormantStep(states[j - 1], events[j - 1]);
    }
  }

  // ------------------------------------------------------------- exit reports

  /** An instance whose exit has been counted, or that is not the current one and never
      will be again: a report about it says nothing. */
  predicate Spent(s: State, id: InstanceId) {
    s.up && id in s.started && (s.current.Some? && s.current.value.id == id ==> s.current.value.exited)
        && id !in Candidate(s)
  }

  lemma WorldSpent(s: State, w: WorldStep, id: InstanceId)
    requires Spent(s, id) && WorldEnabled(s, w)
    ensures Spent(NextWorld(s, w), id)
  {
    assert Candidate(NextWorld(s, w)) == Candidate(s);
  }

  lemma EarlySpent(s: State, d: EarlyStep, id: InstanceId)
    requires Spent(s, id) && EarlyEnabled(s, d)
    ensures Spent(NextEarly(s, d), id)
  {
    EarlyFields(s, d);
    EarlyCandidate(s, d);
  }

  lemma LateSpent(s: State, l: LateStep, id: InstanceId)
    requires Spent(s, id) && LateEnabled(s, l)
    ensures Spent(NextLate(s, l), id)
  {
    match l
    case SwapRoute => assert Candidate(DoSwapRoute(s)) == Candidate(s);
    case Commit => assert Candidate(s) == {s.activity.stage.cand} && Candidate(DoCommit(s)) == {};
    case GoLive => assert Candidate(DoGoLive(s)) == {};
    case Finish => FinishSpent(s, id);
  }

  lemma FinishSpent(s: State, id: InstanceId)
    requires Spent(s, id) && s.activity.Busy? && s.activity.stage.Replied?
    ensures Spent(DoFinish(s), id)
  {
    assert Candidate(DoFinish(s)) == {} && DoFinish(s).current == s.current;
  }

  lemma ActorSpent(s: State, a: ActorStep, id: InstanceId)
    requires Spent(s, id) && ActorEnabled(s, a)
    ensures Spent(NextActor(s, a), id)
  {
    match a
    case Take(cmd, refused) => TakeSpent(s, cmd, refused, id);
    case TimerFires(refused) => TakeSpent(s.(retry := None), Restart(false, true), refused, id);
    case Reap => assert Candidate(DoReap(s)) == {} && DoReap(s).current == s.current;
    case _ =>
  }

  lemma TakeSpent(s: State, cmd: Command, refused: bool, id: InstanceId)
    requires Spent(s, id)
    ensures Spent(DoTake(s, cmd, refused), id)
  {
    assert Candidate(DoTake(s, cmd, refused)) == {};
  }

  lemma SpentStep(s: State, e: Event, id: InstanceId)
    requires Spent(s, id) && Enabled(s, e) && e != Down(Crash)
    ensures Spent(Next(s, e), id)
  {
    match e
    case World(w) => WorldSpent(s, w, id);
    case Early(d) => EarlySpent(s, d, id);
    case Late(l) => LateSpent(s, l, id);
    case Act(a) => ActorSpent(s, a, id);
    case Down(c) => assert false;
  }

  /** A report that counted, or one about an instance that was replaced, never counts
      again while the daemon lives, however often it is delivered. */
  lemma {:induction false} ExitCountsOnce(states: seq<State>, events: seq<Event>, i: nat, j: nat, id: InstanceId)
    requires IsRun(states, events) && i <= j < |states| && Spent(states[i], id)
    requires forall k | i <= k < j :: events[k] != Down(Crash)
    ensures Spent(states[j], id) && DoExitReport(states[j], id) == states[j]
  {
    if i < j {
      ExitCountsOnce(states, events, i, j - 1, id);
      assert StepAt(states, events, j - 1);
      SpentStep(states[j - 1], events[j - 1], id);
    }
  }

  lemma ReportedIsSpent(s: State, id: InstanceId)
    requires Inv(s) && s.up && s.activity.Waiting? && Matters(s, id)
    ensures Spent(DoExitReport(s, id), id) && DoExitReport(s, id).activity == Reaping
  {}

  lemma ReplacedIsSpent(s: State)
    requires OwnedInv(s) && s.up && s.activity.Busy? && s.activity.stage.Routed? && s.current.Some?
    ensures Spent(DoCommit(s), s.current.value.id)
  {
    CommitOwners(s);
    assert s.activity.stage.cand in s.instances;
    assert s.current.value.id != s.activity.stage.cand;
    CommitSpent(s, s.current.value.id);
  }

  lemma CommitSpent(s: State, id: InstanceId)
    requires s.up && s.activity.Busy? && s.activity.stage.Routed? && id in s.started && id != s.activity.stage.cand
    ensures Spent(DoCommit(s), id)
  {}

  // ---------------------------------------------------------------- recovery

  /** What reconcile may adopt. */
  predicate Adoptable(l: Listed, live: Release) { l.running && l.published && l.version == live.version }

  lemma {:induction false} KeepFindsTheFirst(listing: seq<Listed>, live: Release)
    ensures Keep(listing, Some(live)).None? <==> forall i | 0 <= i < |listing| :: !Adoptable(listing[i], live)
    ensures Keep(listing, Some(live)).Some? ==> exists i | 0 <= i < |listing| ::
              && listing[i].id == Keep(listing, Some(live)).value && Adoptable(listing[i], live)
              && forall k | 0 <= k < i :: !Adoptable(listing[k], live)
  {
    if listing != [] {
      if !Adoptable(listing[0], live) {
        var rest := listing[1..];
        KeepFindsTheFirst(rest, live);
        assert forall i | 1 <= i < |listing| :: listing[i] == rest[i - 1];
        if Keep(rest, Some(live)).Some? {
          var i :| 0 <= i < |rest| && rest[i].id == Keep(rest, Some(live)).value && Adoptable(rest[i], live)
                   && forall k | 0 <= k < i :: !Adoptable(rest[k], live);
          assert listing[i + 1] == rest[i];
          forall k | 0 <= k < i + 1 ensures !Adoptable(listing[k], live) {
            if k > 0 { assert listing[k] == rest[k - 1]; }
          }
        }
      }
    }
  }

  /** What a completed recovery leaves: no release is open; every container that was listed
      has been removed, except the one adopted, which carries the live release's label, was
      started from its row and is routed; and one is adopted if and only if one qualifies. */
  ghost predicate Recovered(s: State, listing: seq<Listed>, t: State) {
    && t.up && t.activity.Waiting?
    && (forall id | id in t.db.releases :: !Open(t.db.releases[id].status))
    && LiveId(t) == LiveId(s)
    && t.route == (if t.current.Some? then Some(t.current.value.id) else None)
    && t.instances.Keys == (if t.current.Some? then {t.current.value.id} else {})
    && (t.current.Some? ==> !t.current.value.exited && LiveId(t) == Some(t.current.value.row)
                            && t.instances[t.current.value.id].row == t.current.value.row)
    && (t.current.Some? <==> LiveRelease(s.db, s.app).Some?
                             && exists i | 0 <= i < |listing| :: Adoptable(listing[i], LiveRelease(s.db, s.app).value))
  }

  lemma RecoverLeaves(s: State, listing: seq<Listed>)
    requires DataInv(s) && DownInv(s) && !s.up && ListingOf(s, listing)
    ensures Recovered(s, listing, DoRecover(s, listing))
  {
    FailOpenRows(s.db, s.db.releases.Keys);
    var live := LiveRelease(s.db, s.app);
    if live.Some? { KeepFindsTheFirst(listing, live.value); }
    RecoveredFields(s, listing);
  }

  /** Every completed recovery of every run, wherever the daemon was killed and whatever
      recoveries were cut off before it, leaves nothing half done. */
  lemma RecoveryLeavesNothingHalfDone(states: seq<State>, events: seq<Event>, i: nat)
    requires IsRun(states, events) && i < |events| && events[i].Down? && events[i].c.Recover?
    ensures Recovered(states[i], events[i].c.listing, states[i + 1])
  {
    RunStep(states, events, i);
    RecoverLeaves(states[i], events[i].c.listing);
  }

  lemma RecoveredFields(s: State, listing: seq<Listed>)
    requires DataInv(s) && DownInv(s) && !s.up && ListingOf(s, listing)
    ensures var (t, keep) := (DoRecover(s, listing), Keep(listing, LiveRelease(s.db, s.app)));
      && t.up && t.activity.Waiting? && LiveId(t) == LiveId(s) && t.route == keep && (t.current.Some? <==> keep.Some?)
      && (keep.Some? ==> t.current == Some(Running(keep.value, LiveId(s).value, false)) && LiveId(s).Some?
                         && t.instances.Keys == {keep.value} && t.instances[keep.value].row == LiveId(s).value)
      && (keep.None? ==> t.instances.Keys == {})
  {
    if Keep(listing, LiveRelease(s.db, s.app)).Some? { KeptIsLive(s, listing); }
  }
}
