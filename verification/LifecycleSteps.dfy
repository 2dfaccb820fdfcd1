/**
  Every step keeps the invariant, so every reachable state has it.
 */
module LifecycleSteps {
  import opened Wrappers
  import opened Releases
  import opened Lifecycle
  import opened LifecycleInvariant
  import opened LifecycleData
  import opened LifecycleDeploy
  import opened LifecycleCrash

  lemma Assemble(s: State)
    requires DataInv(s) && DeployInv(s) && CrashInv(s)
    ensures Inv(s)
  {}

  lemma WorldKeepsData(s: State, w: WorldStep)
    requires DataInv(s) && WorldEnabled(s, w)
    ensures DataInv(NextWorld(s, w))
  {
    match w
    case OtherApps(db) => OtherAppsData(s, db);
    case InstanceExits(id) => ExitData(s, id);
    case _ => DataFrame(s, NextWorld(s, w));
  }

  lemma ExitData(s: State, id: InstanceId)
    requires DataInv(s) && id in s.instances
    ensures DataInv(s.(instances := s.instances[id := s.instances[id].(running := false)]))
  {
    DataFrame(s, s.(instances := s.instances[id := s.instances[id].(running := false)]));
  }

  lemma OtherAppsSameRows(s: State, db: Tables)
    requires OnlyOtherApps(s, db)
    ensures SameRows(s, s.(db := db))
  {}

  lemma WorldKeepsDeploy(s: State, w: WorldStep)
    requires DeployInv(s) && DownInv(s) && WorldEnabled(s, w)
    ensures DeployInv(NextWorld(s, w))
  {
    if w.DrainEnds? {
      assert s.up;
      DrainEndsDeploy(s, w.id);
    } else if w.RouteRemoved? {
      RouteRemovedDeploy(s);
    } else {
      WorldIsAround(s, w);
      DeployFrame(s, NextWorld(s, w));
    }
  }

  lemma WorldIsAround(s: State, w: WorldStep)
    requires WorldEnabled(s, w) && !w.DrainEnds? && !w.RouteRemoved?
    ensures OnlyAround(s, NextWorld(s, w))
  {
    match w
    case InstanceExits(id) => ExitIsAround(s, id);
    case OtherApps(db) => OtherAppsAround(s, db);
    case _ =>
  }

  lemma ExitIsAround(s: State, id: InstanceId)
    requires id in s.instances
    ensures OnlyAround(s, s.(instances := s.instances[id := s.instances[id].(running := false)]))
  {}

  lemma OtherAppsAround(s: State, db: Tables)
    requires OnlyOtherApps(s, db)
    ensures OnlyAround(s, s.(db := db))
  {
    OtherAppsSameRows(s, db);
  }

  lemma WorldKeepsCrash(s: State, w: WorldStep)
    requires CrashInv(s) && WorldEnabled(s, w)
    ensures CrashInv(NextWorld(s, w))
  {
    CrashFrame(s, NextWorld(s, w));
  }

  lemma EarlyKeepsData(s: State, d: EarlyStep)
    requires DataInv(s) && StageInv(s) && EarlyEnabled(s, d)
    ensures DataInv(NextEarly(s, d))
  {
    match d
    case CreateRow(id, written) => CreateRowData(s, id, written);
    case BuildEnds(image) => BuildEndsData(s, image);
    case Launch(id, published) => LaunchData(s, id, published);
    case RecordFailure => RecordFailureData(s);
    case ProbeEnds(passed) => DataFrame(s, DoProbeEnds(s, passed));
    case Withdraw => DataFrame(s, DoWithdraw(s));
    case StopCandidate => DataFrame(s, DoStopCandidate(s));
  }

  lemma EarlyKeepsDeploy(s: State, d: EarlyStep)
    requires DataInv(s) && DeployInv(s) && EarlyEnabled(s, d)
    ensures DeployInv(NextEarly(s, d))
  {
    match d
    case CreateRow(id, written) => CreateRowDeploy(s, id, written);
    case BuildEnds(image) => BuildEndsDeploy(s, image);
    case Launch(id, published) => LaunchDeploy(s, id, published);
    case ProbeEnds(passed) => ProbeEndsDeploy(s, passed);
    case Withdraw => WithdrawDeploy(s);
    case StopCandidate => StopCandidateDeploy(s);
    case RecordFailure => RecordFailureDeploy(s);
  }

  /** Inside a deploy the actor's failure bookkeeping stands still. */
  predicate Quiet(s: State, t: State) {
    && SameActor(s, t) && s.now == t.now && t.drainGrace == s.drainGrace && t.draining == s.draining && t.up == s.up
    && s.activity.Busy? && t.activity.Busy? && t.activity.cmd == s.activity.cmd
    && !s.activity.stage.Replied? && !OkReplied(t)
  }

  lemma StageCrash(s: State, t: State)
    requires CrashInv(s) && s.up && Quiet(s, t)
    ensures CrashInv(t)
  {
    CrashFrame(s, t);
  }

  lemma CreateRowQuiet(s: State, id: nat, written: bool)
    requires s.activity.Busy? && s.activity.stage.Prepared?
    ensures Quiet(s, DoCreateRow(s, id, written))
  {}

  lemma BuildEndsQuiet(s: State, image: Option<string>)
    requires s.activity.Busy? && s.activity.stage.Created?
    ensures Quiet(s, DoBuildEnds(s, image))
  {}

  lemma CreateRowCrash(s: State, id: nat, written: bool)
    requires CrashInv(s) && s.up && s.activity.Busy? && s.activity.stage.Prepared?
    ensures CrashInv(DoCreateRow(s, id, written))
  {
    CreateRowQuiet(s, id, written);
    StageCrash(s, DoCreateRow(s, id, written));
  }

  lemma BuildEndsCrash(s: State, image: Option<string>)
    requires CrashInv(s) && s.up && s.activity.Busy? && s.activity.stage.Created?
    ensures CrashInv(DoBuildEnds(s, image))
  {
    BuildEndsQuiet(s, image);
    StageCrash(s, DoBuildEnds(s, image));
  }

  lemma LaunchCrash(s: State, id: Option<InstanceId>, published: bool)
    requires CrashInv(s) && s.up && s.activity.Busy? && s.activity.stage.Launching?
    ensures CrashInv(DoLaunch(s, id, published))
  {
    StageCrash(s, DoLaunch(s, id, published));
  }

  lemma ProbeEndsCrash(s: State, passed: bool)
    requires CrashInv(s) && s.up && s.activity.Busy? && s.activity.stage.Probing?
    ensures CrashInv(DoProbeEnds(s, passed))
  {
    StageCrash(s, DoProbeEnds(s, passed));
  }

  lemma WithdrawCrash(s: State)
    requires CrashInv(s) && s.up && s.activity.Busy? && s.activity.stage.Healthy?
    ensures CrashInv(DoWithdraw(s))
  {
    StageCrash(s, DoWithdraw(s));
  }

  lemma StopCandidateCrash(s: State)
    requires CrashInv(s) && s.up && s.activity.Busy? && s.activity.stage.Dropping?
    ensures CrashInv(DoStopCandidate(s))
  {
    StageCrash(s, DoStopCandidate(s));
  }

  lemma RecordFailureCrash(s: State)
    requires CrashInv(s) && s.up && s.activity.Busy? && s.activity.stage.Failing?
    ensures CrashInv(DoRecordFailure(s))
  {
    StageCrash(s, DoRecordFailure(s));
  }

  lemma EarlyKeepsCrash(s: State, d: EarlyStep)
    requires CrashInv(s) && EarlyEnabled(s, d)
    ensures CrashInv(NextEarly(s, d))
  {
    match d
    case CreateRow(id, written) => CreateRowCrash(s, id, written);
    case BuildEnds(image) => BuildEndsCrash(s, image);
    case Launch(id, published) => LaunchCrash(s, id, published);
    case ProbeEnds(passed) => ProbeEndsCrash(s, passed);
    case Withdraw => WithdrawCrash(s);
    case StopCandidate => StopCandidateCrash(s);
    case RecordFailure => RecordFailureCrash(s);
  }

  lemma LateKeepsData(s: State, l: LateStep)
    requires DataInv(s) && StageInv(s) && LateEnabled(s, l)
    ensures DataInv(NextLate(s, l))
  {
    match l
    case SwapRoute => DataFrame(s, DoSwapRoute(s));
    case Commit => CommitData(s);
    case GoLive => GoLiveData(s);
    case Finish => FinishData(s);
  }

  lemma CommitData(s: State)
    requires DataInv(s) && s.activity.Busy? && s.activity.stage.Routed?
    ensures DataInv(DoCommit(s))
  {
    DataFrame(s, DoCommit(s));
  }

  lemma FailureData(s: State, t: State)
    requires DataInv(s) && t == s.(failures := t.failures, history := t.history, retry := t.retry)
    ensures DataInv(t)
  {
    DataFrame(s, t);
  }

  lemma FinishData(s: State)
    requires DataInv(s) && s.activity.Busy? && s.activity.stage.Replied?
    ensures DataInv(DoFinish(s))
  {
    var t := s.(activity := Waiting);
    DataFrame(s, t);
    CountFailureData(t);
  }

  lemma CountFailureData(s: State)
    requires DataInv(s)
    ensures DataInv(CountFailure(s))
  {
    FailureData(s, CountFailure(s));
  }

  lemma ReapData(s: State)
    requires DataInv(s) && s.current.Some?
    ensures DataInv(DoReap(s))
  {
    var t := s.(instances := s.instances - {s.current.value.id}, activity := Waiting);
    DataFrame(s, t);
    CountFailureData(t);
  }

  lemma DestroyEndsData(s: State)
    requires DataInv(s)
    ensures DataInv(DoDestroyEnds(s))
  {
    DataFrame(s, DoDestroyEnds(s));
  }

  lemma LateKeepsDeploy(s: State, l: LateStep)
    requires DataInv(s) && DeployInv(s) && LateEnabled(s, l)
    ensures DeployInv(NextLate(s, l))
  {
    match l
    case SwapRoute => SwapRouteDeploy(s);
    case Commit => CommitDeploy(s);
    case GoLive => GoLiveDeploy(s);
    case Finish => FinishDeploy(s);
  }

  lemma LateKeepsCrash(s: State, l: LateStep)
    requires CrashInv(s) && StageInv(s) && LateEnabled(s, l)
    ensures CrashInv(NextLate(s, l))
  {
    match l
    case SwapRoute => CrashFrame(s, DoSwapRoute(s));
    case Commit => CommitCrash(s);
    case GoLive => GoLiveCrash(s);
    case Finish => FinishCrash(s);
  }

  lemma GoLiveCrash(s: State)
    requires CrashInv(s) && s.up && s.activity.Busy? && s.activity.stage.Committed? && StageOk(s)
    ensures CrashInv(DoGoLive(s))
  {}

  lemma ExitReportData(s: State, id: InstanceId)
    requires DataInv(s)
    ensures DataInv(DoExitReport(s, id))
  {
    DataFrame(s, DoExitReport(s, id));
  }

  lemma DestroyBeginsData(s: State)
    requires DataInv(s)
    ensures DataInv(DoDestroyBegins(s))
  {
    DataFrame(s, DoDestroyBegins(s));
  }

  lemma TimerData(s: State, refused: bool)
    requires DataInv(s)
    ensures DataInv(DoTimer(s, refused))
  {
    DataFrame(s, s.(retry := None));
    TakeData(s.(retry := None), Restart(false, true), refused);
  }

  lemma ActorKeepsData(s: State, a: ActorStep)
    requires DataInv(s) && ActorEnabled(s, a)
    ensures DataInv(NextActor(s, a))
  {
    match a
    case Take(cmd, refused) => TakeData(s, cmd, refused);
    case TimerFires(refused) => TimerData(s, refused);
    case ExitReport(id) => ExitReportData(s, id);
    case Reap => ReapData(s);
    case DestroyBegins => DestroyBeginsData(s);
    case DestroyEnds => DestroyEndsData(s);
  }

  lemma ActorKeepsDeploy(s: State, a: ActorStep)
    requires RowsInv(s) && DeployInv(s) && ActorEnabled(s, a)
    ensures DeployInv(NextActor(s, a))
  {
    assert AppOk(s.db, s.app);
    match a
    case Take(cmd, refused) => TakeDeploy(s, cmd, refused);
    case TimerFires(refused) =>
      FailureDeploy(s, s.(retry := None));
      TakeDeploy(s.(retry := None), Restart(false, true), refused);
    case ExitReport(id) => ExitReportDeploy(s, id);
    case Reap => ReapDeploy(s);
    case DestroyBegins => DestroyBeginsDeploy(s);
    case DestroyEnds => DestroyEndsDeploy(s);
  }

  lemma ActorKeepsCrash(s: State, a: ActorStep)
    requires RowsOk(s.db) && s.app in s.db.apps && AppOk(s.db, s.app)
    requires RouteInv(s) && CrashInv(s) && ActorEnabled(s, a)
    ensures CrashInv(NextActor(s, a))
  {
    match a
    case Take(cmd, refused) =>
      FirstStageFacts(s, cmd, refused);
      TakeCrash(s, cmd, refused);
    case TimerFires(refused) =>
      FirstStageFacts(s.(retry := None), Restart(false, true), refused);
      TimerFiresCrash(s, refused);
    case ExitReport(id) => ExitReportCrash(s, id);
    case Reap => ReapCrash(s);
    case DestroyBegins => DestroyBeginsCrash(s);
    case DestroyEnds => DestroyEndsCrash(s);
  }

  /** A crash and what follows it. */
  lemma CrashKeeps(s: State)
    requires Inv(s)
    ensures Inv(DoCrash(s))
  {
    DataFrame(s, DoCrash(s));
    DownDeploy(DoCrash(s));
    DownCrash(s);
    Assemble(DoCrash(s));
  }

  lemma RecoveryCutOffKeeps(s: State, removed: set<InstanceId>, failed: set<nat>)
    requires Inv(s) && !s.up
    ensures Inv(s.(instances := s.instances - removed, db := FailOpen(s.db, failed)))
  {
    var t := s.(instances := s.instances - removed, db := FailOpen(s.db, failed));
    FailOpenData(s, t, failed);
    assert s == DoCrash(s);
    DownDeploy(t);
    DownCrash(t);
    assert t == DoCrash(t);
    Assemble(t);
  }

  lemma RecoverKeeps(s: State, listing: seq<Listed>)
    requires Inv(s) && !s.up && ListingOf(s, listing)
    ensures Inv(DoRecover(s, listing))
  {
    var t := DoRecover(s, listing);
    FailOpenData(s, t, s.db.releases.Keys);
    assert s == DoCrash(s);
    RecoverDeploy(s, listing);
    assert AppOk(s.db, s.app);
    RecoverCrash(s, listing);
    Assemble(t);
  }

  lemma StepKeepsInvariant(s: State, e: Event)
    requires Inv(s) && Enabled(s, e)
    ensures Inv(Next(s, e))
  {
    match e
    case World(w) =>
      WorldKeepsData(s, w);
      WorldKeepsDeploy(s, w);
      WorldKeepsCrash(s, w);
      Assemble(NextWorld(s, w));
    case Early(d) =>
      EarlyKeepsData(s, d);
      EarlyKeepsDeploy(s, d);
      EarlyKeepsCrash(s, d);
      Assemble(NextEarly(s, d));
    case Late(l) =>
      LateKeepsData(s, l);
      LateKeepsDeploy(s, l);
      LateKeepsCrash(s, l);
      Assemble(NextLate(s, l));
    case Act(a) =>
      assert AppOk(s.db, s.app);
      ActorKeepsData(s, a);
      ActorKeepsDeploy(s, a);
      ActorKeepsCrash(s, a);
      Assemble(NextActor(s, a));
    case Down(c) => DownKeeps(s, c);
  }

  lemma DownKeeps(s: State, c: DownStep)
    requires Inv(s) && DownEnabled(s, c)
    ensures Inv(NextDown(s, c))
  {
    match c
    case Crash => CrashKeeps(s);
    case RecoveryCutOff(removed, failed) => RecoveryCutOffKeeps(s, removed, failed);
    case Recover(listing) => RecoverKeeps(s, listing);
  }

  lemma InitHolds(s: State)
    requires Init(s)
    ensures Inv(s)
  {
    assert AppOk(s.db, s.app);
    InitDeploy(s);
    assert CrashInv(s);
  }

  lemma InitDeploy(s: State)
    requires Init(s) && AppOk(s.db, s.app)
    ensures DeployInv(s)
  {}

  /** Every state of every run satisfies the invariant. */
  lemma {:induction false} EveryReachableStateSatisfiesInvariant(states: seq<State>, events: seq<Event>, i: nat)
    requires IsRun(states, events) && i < |states|
    ensures Inv(states[i])
  {
    if i == 0 {
      InitHolds(states[0]);
    } else {
      EveryReachableStateSatisfiesInvariant(states, events, i - 1);
      assert StepAt(states, events, i - 1);
      StepKeepsInvariant(states[i - 1], events[i - 1]);
    }
  }
}
