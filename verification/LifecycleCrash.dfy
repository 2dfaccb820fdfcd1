/**
  The last third of the invariant: failures, the pending restart and the drains, step
  by step.
 */
module LifecycleCrash {
  import opened Wrappers
  import opened Releases
  import opened Backoff
  import opened Lifecycle
  import opened LifecycleInvariant

  predicate SameActor(s: State, t: State) {
    && t.failures == s.failures && t.history == s.history && t.retry == s.retry && t.intact == s.intact
    && t.current == s.current && t.since == s.since
  }

  predicate OkReplied(s: State) { s.activity.Busy? && s.activity.stage.Replied? && s.activity.stage.ok }

  /** A step that neither fails, restarts nor resets anything. */
  lemma CrashFrame(s: State, t: State)
    requires CrashInv(s) && SameActor(s, t) && s.now <= t.now && t.drainGrace == s.drainGrace
    requires forall id | id in t.draining :: id in s.draining && t.draining[id] == s.draining[id]
    requires t.activity.Reaping? == s.activity.Reaping?
    requires t.activity.Busy? ==> s.activity.Busy? && t.activity.cmd == s.activity.cmd && OkReplied(t) == OkReplied(s)
                                   && (Refused(s.activity.stage) ==> Refused(t.activity.stage))
    requires DownInv(t)
    ensures CrashInv(t)
  {}

  lemma CountFailureFields(s: State)
    ensures var t := CountFailure(s);
      t.failures == AddFailure(s.failures, s.now) && t.history == s.history + [s.now] && t.now == s.now
  {}

  lemma HistoryGrows(s: State, t: State)
    requires HistoryInv(s) && t.failures == AddFailure(s.failures, s.now) && t.history == s.history + [s.now]
        && t.now == s.now
    ensures HistoryInv(t)
  {
    HistoryAppend(s.history, s.now);
  }

  lemma CountFailureHistory(s: State)
    requires HistoryInv(s)
    ensures HistoryInv(CountFailure(s))
  {
    CountFailureFields(s);
    HistoryGrows(s, CountFailure(s));
  }

  lemma CountFailureDrain(s: State)
    requires DrainInv(s) && s.up
    ensures DrainInv(CountFailure(s)) && DownInv(CountFailure(s))
  {}

  lemma CountFailureTimer(s: State)
    requires s.activity.Waiting? && Idle(s) && s.retry.None?
    ensures TimerInv(CountFailure(s))
  {}

  /** The wait before this failure, if it was not the first, was over. */
  ghost predicate InTime(s: State) { s.intact ==> Waited(s.history) && (s.history != [] ==> Rested(s)) }

  lemma CountFailureGiveUp(s: State)
    requires HistoryInv(s) && InTime(s) && s.activity.Waiting? && Idle(s)
    ensures GiveUpInv(CountFailure(s))
  {
    CountFailureFields(s);
    CountFailureIdle(s);
    if s.intact { WaitedAppend(s.history, s.now); }
  }

  lemma CountFailureIdle(s: State)
    requires s.activity.Waiting? && Idle(s)
    ensures var t := CountFailure(s);
      Idle(t) && !ScheduledRestart(t) && t.intact == s.intact && t.since == s.since
  {}

  /** One failure of an instance that is gone, with no restart pending. */
  lemma CountFailureCrash(s: State)
    requires HistoryInv(s) && DrainInv(s) && s.up && s.activity.Waiting? && Idle(s) && s.retry.None?
    requires InTime(s) && s.since <= s.now
    ensures CrashInv(CountFailure(s))
  {
    CountFailureHistory(s);
    CountFailureTimer(s);
    CountFailureGiveUp(s);
    CountFailureDrain(s);
    CountFailureIdle(s);
    CrashParts(CountFailure(s));
  }

  lemma CrashParts(s: State)
    requires HistoryInv(s) && TimerInv(s) && GiveUpInv(s) && SinceInv(s) && DrainInv(s) && DownInv(s)
    ensures CrashInv(s)
  {}

  /** A failure that came after the wait before it was over. */
  lemma WaitedAppend(history: seq<Time>, now: Time)
    requires Waited(history)
    requires history != [] ==>
      NextWait(After(history)).Some? && history[|history| - 1] + NextWait(After(history)).value <= now
    ensures Waited(history + [now])
  {
    assert (history + [now])[..|history|] == history;
  }

  /** A pending restart that is due leaves the last failure rested. */
  lemma DueIsRested(s: State)
    requires HistoryInv(s) && TimerInv(s) && s.retry.Some? && s.retry.value.due <= s.now
    ensures s.history != [] && Rested(s)
  {}

  lemma TakeCrash(s: State, cmd: Command, refused: bool)
    requires CrashInv(s) && s.up && s.activity.Waiting? && (cmd.Restart? ==> !cmd.scheduled)
    requires Early0(FirstStage(s, cmd, refused))
    ensures CrashInv(DoTake(s, cmd, refused))
  {
    var stage := FirstStage(s, cmd, refused);
    if cmd.Restart? && cmd.manual && stage.Launching? {
      TakeClears(s, cmd, stage);
    } else {
      TakeKeeps(s, cmd, stage);
    }
  }

  /** A manual restart that begins. */
  lemma TakeClears(s: State, cmd: Command, stage: Stage)
    requires CrashInv(s) && s.up && s.activity.Waiting? && cmd.Restart? && !cmd.scheduled && stage.Launching?
    ensures CrashInv(s.(activity := Busy(cmd, Snap(s), stage), retry := None, failures := [], history := [],
                        intact := true))
  {}

  lemma TakeKeeps(s: State, cmd: Command, stage: Stage)
    requires CrashInv(s) && s.up && s.activity.Waiting? && (cmd.Restart? ==> !cmd.scheduled) && Early0(stage)
    requires cmd.Restart? && cmd.manual ==> !stage.Launching? && !stage.Prepared?
    ensures CrashInv(s.(activity := Busy(cmd, Snap(s), stage)))
  {}

  lemma TimerFiresCrash(s: State, refused: bool)
    requires CrashInv(s) && s.up && s.activity.Waiting? && s.retry.Some? && s.retry.value.due <= s.now
    requires Early0(FirstStage(s.(retry := None), Restart(false, true), refused))
    ensures CrashInv(DoTimer(s, refused))
  {
    DueIsRested(s);
  }

  predicate Early0(stage: Stage) {
    stage.Prepared? || stage.Launching? || (stage.Replied? && !stage.ok && stage.done.None?)
  }

  lemma CommitCrash(s: State)
    requires CrashInv(s) && s.up && s.activity.Busy? && s.activity.stage.Routed?
    ensures CrashInv(DoCommit(s))
  {
    var t := DoCommit(s);
    forall id | id in t.draining ensures t.draining[id] <= t.now {}
  }

  lemma FinishCrash(s: State)
    requires CrashInv(s) && s.up && s.activity.Busy? && s.activity.stage.Replied?
    ensures CrashInv(DoFinish(s))
  {
    var t := s.(activity := Waiting);
    CrashFrame(s, t);
    if ScheduledRestart(s) && !s.activity.stage.ok { CountFailureCrash(t); }
  }

  lemma ExitReportCrash(s: State, id: InstanceId)
    requires CrashInv(s) && s.up && s.activity.Waiting?
    ensures CrashInv(DoExitReport(s, id))
  {}

  lemma ReapCrash(s: State)
    requires CrashInv(s) && s.up && s.activity.Reaping? && s.current.Some? && s.current.value.exited
    ensures CrashInv(DoReap(s))
  {
    var t := s.(instances := s.instances - {s.current.value.id}, activity := Waiting);
    CountFailureCrash(t);
  }

  lemma DestroyBeginsCrash(s: State)
    requires CrashInv(s) && s.up && s.activity.Waiting?
    ensures CrashInv(DoDestroyBegins(s))
  {}

  lemma DestroyEndsCrash(s: State)
    requires CrashInv(s) && s.up && s.activity.Destroying?
    ensures CrashInv(DoDestroyEnds(s))
  {}

  lemma DownCrash(s: State)
    requires DrainInv(s) && SinceInv(s)
    ensures CrashInv(DoCrash(s))
  {}

  lemma RecoverCrash(s: State, listing: seq<Listed>)
    requires CrashInv(s) && !s.up && (LiveRelease(s.db, s.app).Some? ==> LiveId(s).Some?)
    ensures CrashInv(DoRecover(s, listing))
  {}
}
