/**
  The second third of the invariant: the deploy in progress, who owns which instance,
  and the agreement of route, actor and rows, step by step.
 */
module LifecycleDeploy {
  import opened Wrappers
  import opened Releases
  import opened Lifecycle
  import opened LifecycleInvariant

  ghost predicate SameRows(s: State, t: State) {
    && t.app == s.app
    && LiveId(t) == LiveId(s)
    && (forall id | id in s.db.releases && s.db.releases[id].app == s.app :: id in t.db.releases
         && t.db.releases[id] == s.db.releases[id])
  }

  /** Nothing the deploy looks at changes. */
  ghost predicate OnlyAround(s: State, t: State) {
    && SameRows(s, t) && t.up == s.up && t.started >= s.started && t.approved == s.approved
    && t.activity == s.activity && t.current == s.current && t.draining.Keys == s.draining.Keys
    && t.route == s.route && t.dropped == s.dropped
    && t.instances.Keys == s.instances.Keys
    && (forall id | id in t.instances :: t.instances[id].(running := s.instances[id].running) == s.instances[id])
  }

  /** Steps of the world around the actor. */
  lemma DeployFrame(s: State, t: State)
    requires DeployInv(s) && OnlyAround(s, t)
    ensures DeployInv(t)
  {
    if s.activity.Busy? { StageFrame(s, t); }
  }

  lemma StageFrame(s: State, t: State)
    requires s.activity.Busy? && t.activity == s.activity && StageOk(s) && SameRows(s, t)
    requires forall id | id in Candidate(s) && id in s.instances ::
               id in t.instances && t.instances[id].row == s.instances[id].row
                   && t.instances[id].content == s.instances[id].content
    ensures StageOk(t)
  {}

  lemma DrainEndsDeploy(s: State, id: InstanceId)
    requires DeployInv(s) && s.up && id in s.draining
    ensures DeployInv(s.(instances := s.instances - {id}, draining := s.draining - {id}))
  {
    var t := s.(instances := s.instances - {id}, draining := s.draining - {id});
    assert Candidate(t) == Candidate(s) && Serving(t) == Serving(s);
    assert t.draining.Keys == s.draining.Keys - {id};
    if s.activity.Busy? { StageFrame(s, t); }
  }

  lemma RouteRemovedDeploy(s: State)
    requires DeployInv(s) && s.up && s.strays > 0
    ensures DeployInv(NextWorld(s, RouteRemoved))
  {
    var t := NextWorld(s, RouteRemoved);
    assert Candidate(t) == Candidate(s) && Serving(t) == Serving(s);
    if s.activity.Busy? { StageFrame(s, t); }
  }

  predicate EarlyStage(stage: Stage) {
    !stage.Routed? && !stage.Committed? && (stage.Replied? ==> !stage.ok)
  }

  /** A step before the swap: route, actor and live release stay, and every instance
      but the candidate. */
  lemma EarlyMove(s: State, t: State)
    requires DeployInv(s) && s.activity.Busy? && t.activity.Busy? && s.up && t.up
    requires t.app == s.app && LiveId(t) == LiveId(s) && t.draining == s.draining && t.started >= s.started
    requires t.current == s.current && t.route == s.route && t.dropped == s.dropped && t.approved >= s.approved
    requires t.activity.pre == s.activity.pre && t.activity.cmd == s.activity.cmd
    requires EarlyStage(s.activity.stage) && EarlyStage(t.activity.stage) && !s.activity.stage.Replied?
    requires t.instances.Keys == s.instances.Keys - Candidate(s) + Candidate(t)
    requires Candidate(t) !! Serving(s) && Candidate(t) !! s.draining.Keys
    requires forall id | id in s.instances && id !in Candidate(s) ::
      id in t.instances && t.instances[id] == s.instances[id]
    requires forall id | id in t.instances && id !in s.instances :: id !in s.started
    requires t.activity.stage.Healthy? ==> t.activity.stage.cand in t.approved
    requires StageOk(t)
    ensures DeployInv(t)
  {
    assert Serving(t) == Serving(s);
  }

  lemma FirstStageFacts(s: State, cmd: Command, refused: bool)
    requires RowsOk(s.db) && s.app in s.db.apps && AppOk(s.db, s.app)
    ensures match FirstStage(s, cmd, refused)
            case Prepared(_) => !cmd.Restart?
            case Launching(rel) => cmd.Restart? && RowIs(s, rel) && rel.status == Live && rel.content.image != ""
                && LiveId(s) == Some(rel.id)
            case Replied(ok, done) => !ok && done == None
            case _ => false
  {
    if LiveRelease(s.db, s.app).Some? { assert RowOk(s.db, s.db.apps[s.app].live.value); }
  }

  lemma TakeDeploy(s: State, cmd: Command, refused: bool)
    requires RowsOk(s.db) && s.app in s.db.apps && AppOk(s.db, s.app)
    requires DeployInv(s) && s.up && s.activity.Waiting?
    ensures DeployInv(DoTake(s, cmd, refused))
  {
    var stage := FirstStage(s, cmd, refused);
    FirstStageFacts(s, cmd, refused);
    BusyDeploy(s, cmd, stage);
    FailureDeploy(s.(activity := Busy(cmd, Snap(s), stage)), DoTake(s, cmd, refused));
  }

  lemma BusyDeploy(s: State, cmd: Command, stage: Stage)
    requires DeployInv(s) && s.up && s.activity.Waiting?
    requires match stage
             case Prepared(_) => !cmd.Restart?
             case Launching(rel) => cmd.Restart? && RowIs(s, rel) && rel.status == Live && rel.content.image != ""
                 && LiveId(s) == Some(rel.id)
             case Replied(ok, done) => !ok && done == None
             case _ => false
    ensures DeployInv(s.(activity := Busy(cmd, Snap(s), stage)))
  {
    var t := s.(activity := Busy(cmd, Snap(s), stage));
    assert Candidate(t) == {} && Serving(t) == Serving(s);
  }

  lemma CreateRowDeploy(s: State, id: nat, written: bool)
    requires RowsOk(s.db) && s.app in s.db.apps && DeployInv(s) && s.up && s.activity.Busy?
        && s.activity.stage.Prepared?
    requires id !in s.db.releases
    ensures DeployInv(DoCreateRow(s, id, written))
  {
    CreateRowStage(s, id, written);
    EarlyMove(s, DoCreateRow(s, id, written));
  }

  lemma CreateRowStage(s: State, id: nat, written: bool)
    requires RowsOk(s.db) && s.app in s.db.apps && StageInv(s) && s.activity.Busy? && s.activity.stage.Prepared?
    requires id !in s.db.releases
    ensures var t := DoCreateRow(s, id, written);
      StageOk(t) && (t.activity.stage.Replied? || t.activity.stage.Created? || t.activity.stage.Launching?)
      && (t.activity.stage.Replied? ==> t.activity.stage == Replied(false, None)) && LiveId(t) == LiveId(s)
      && t == s.(db := t.db, activity := s.activity.(stage := t.activity.stage))
  {
    CreateReleaseRow(s.db, s.app, s.activity.stage.n, id);
  }

  lemma BuildEndsDeploy(s: State, image: Option<string>)
    requires DeployInv(s) && s.up && s.activity.Busy? && s.activity.stage.Created?
    ensures DeployInv(DoBuildEnds(s, image))
  {
    var rel := s.activity.stage.rel;
    if image.None? || image.value == "" {
      EarlyMove(s, At(s, Failing(rel)));
    } else {
      BuiltDeploy(s, image.value);
    }
  }

  /** MarkBuilt is never refused: the row is still building. */
  lemma BuiltDeploy(s: State, image: string)
    requires DeployInv(s) && s.up && s.activity.Busy? && s.activity.stage.Created? && image != ""
    ensures MarkBuilt(s.db, s.activity.stage.rel.id, image).1 == None
    ensures DeployInv(DoBuildEnds(s, Some(image)))
  {
    EarlyMove(s, DoBuildEnds(s, Some(image)));
  }

  lemma LaunchDeploy(s: State, id: Option<InstanceId>, published: bool)
    requires DeployInv(s) && s.up && s.activity.Busy? && s.activity.stage.Launching?
    requires forall i | i in s.instances :: i in s.started
    requires id.Some? ==> id.value !in s.started
    ensures DeployInv(DoLaunch(s, id, published))
  {
    LaunchStage(s, id, published);
    if id.Some? { LaunchedIsNew(s, id.value, published); }
    EarlyMove(s, DoLaunch(s, id, published));
  }

  lemma LaunchedIsNew(s: State, id: InstanceId, published: bool)
    requires OwnedInv(s) && s.up && s.activity.Busy? && s.activity.stage.Launching?
    requires (forall i | i in s.instances :: i in s.started) && id !in s.started
    ensures var t := DoLaunch(s, Some(id), published);
      && t.instances.Keys == s.instances.Keys - Candidate(s) + Candidate(t)
      && Candidate(t) !! Serving(s) && Candidate(t) !! s.draining.Keys
  {
    assert Candidate(s) == {} && Candidate(DoLaunch(s, Some(id), published)) == {id};
  }

  lemma LaunchStage(s: State, id: Option<InstanceId>, published: bool)
    requires s.activity.Busy? && s.activity.stage.Launching? && StageOk(s)
    ensures var t := DoLaunch(s, id, published);
      && StageOk(t)
      && (if id.None? then t.activity.stage.Failing?
          else t.activity.stage.Probing? && t.activity.stage.cand == id.value)
  {}

  lemma ProbeEndsDeploy(s: State, passed: bool)
    requires DeployInv(s) && s.up && s.activity.Busy? && s.activity.stage.Probing?
    ensures DeployInv(DoProbeEnds(s, passed))
  {
    EarlyMove(s, DoProbeEnds(s, passed));
  }

  lemma WithdrawDeploy(s: State)
    requires DeployInv(s) && s.up && s.activity.Busy? && s.activity.stage.Healthy?
    ensures DeployInv(DoWithdraw(s))
  {
    EarlyMove(s, DoWithdraw(s));
  }

  lemma StopCandidateDeploy(s: State)
    requires DeployInv(s) && s.up && s.activity.Busy? && s.activity.stage.Dropping?
    ensures DeployInv(DoStopCandidate(s))
  {
    EarlyMove(s, DoStopCandidate(s));
  }

  lemma RecordFailureDeploy(s: State)
    requires DeployInv(s) && s.up && s.activity.Busy? && s.activity.stage.Failing?
    ensures DeployInv(DoRecordFailure(s))
  {
    RecordFailureStage(s);
    EarlyMove(s, DoRecordFailure(s));
  }

  lemma RecordFailureStage(s: State)
    requires s.activity.Busy? && s.activity.stage.Failing? && StageOk(s)
    ensures var t := DoRecordFailure(s);
      StageOk(t) && t.activity.stage.Replied? && !t.activity.stage.ok && LiveId(t) == LiveId(s)
      && t == s.(db := t.db, activity := s.activity.(stage := t.activity.stage))
  {}

  lemma SwapRouteDeploy(s: State)
    requires DeployInv(s) && s.up && s.activity.Busy? && s.activity.stage.Healthy?
    ensures DeployInv(DoSwapRoute(s))
  {
    var t := DoSwapRoute(s);
    assert Serving(t) == Serving(s) && Candidate(t) == Candidate(s);
  }

  lemma CommitOwned(s: State)
    requires OwnedInv(s) && s.up && s.activity.Busy? && s.activity.stage.Routed? && s.activity.stage.cand in s.started
    ensures OwnedInv(DoCommit(s))
  {
    CommitOwners(s);
    OwnedByParts(DoCommit(s));
  }

  lemma CommitOwners(s: State)
    requires s.up && s.activity.Busy? && s.activity.stage.Routed?
    ensures var (t, cand) := (DoCommit(s), s.activity.stage.cand);
      && Serving(t) == {cand} && Candidate(t) == {} && Candidate(s) == {cand}
           && t.draining.Keys == s.draining.Keys + Serving(s)
      && t.instances == s.instances && t.started == s.started
      && t.current == Some(Running(cand, s.activity.stage.rel.id, false))
  {}

  lemma OwnedByParts(t: State)
    requires t.instances.Keys == Serving(t) + Candidate(t) + t.draining.Keys
    requires Serving(t) !! Candidate(t) && Serving(t) !! t.draining.Keys && Candidate(t) !! t.draining.Keys
    requires t.current.Some? ==> t.current.value.id in t.started && t.current.value.id in Serving(t)
    ensures OwnedInv(t)
  {}

  lemma CommitStage(s: State)
    requires StageInv(s) && PreInv(s) && RouteInv(s) && s.activity.Busy? && s.activity.stage.Routed?
    requires s.activity.cmd.Restart? ==> LiveId(s) == Some(s.activity.stage.rel.id)
    ensures StageInv(DoCommit(s)) && PreInv(DoCommit(s))
  {}

  lemma CommitRoute(s: State)
    requires StageInv(s) && RouteInv(s) && s.activity.Busy? && s.activity.stage.Routed?
    requires s.activity.cmd.Restart? ==> LiveId(s) == Some(s.activity.stage.rel.id)
    ensures RouteInv(DoCommit(s))
  {}

  lemma CommitDeploy(s: State)
    requires DeployInv(s) && s.up && s.activity.Busy? && s.activity.stage.Routed?
    requires RowsOk(s.db) && forall i | i in s.instances :: i in s.started
    ensures DeployInv(DoCommit(s))
  {
    assert RowOk(s.db, s.activity.stage.rel.id);
    CommitOwned(s);
    CommitStage(s);
    CommitRoute(s);
  }

  lemma GoLiveDeploy(s: State)
    requires DeployInv(s) && s.up && s.activity.Busy? && s.activity.stage.Committed? && RowsOk(s.db) && AppsOk(s.db)
    ensures DeployInv(DoGoLive(s))
  {
    var t := DoGoLive(s);
    SetLiveRows(s.db, s.app, s.activity.stage.rel.id);
    assert RowOk(s.db, s.activity.stage.rel.id) && AppOk(s.db, s.app);
    assert Serving(t) == Serving(s) && Candidate(t) == Candidate(s);
  }

  /** Failures and the timer are no part of a deploy. */
  lemma FailureDeploy(s: State, t: State)
    requires DeployInv(s) && t == s.(failures := t.failures, history := t.history, retry := t.retry, intact := t.intact)
    ensures DeployInv(t)
  {
    assert Serving(t) == Serving(s) && Candidate(t) == Candidate(s);
    if s.activity.Busy? { StageFrame(s, t); }
  }

  lemma WaitingDeploy(s: State)
    requires DeployInv(s) && s.up && s.activity.Busy? && s.activity.stage.Replied?
    ensures DeployInv(s.(activity := Waiting))
  {
    var t := s.(activity := Waiting);
    assert Serving(t) == Serving(s) && Candidate(t) == Candidate(s);
  }

  lemma FinishDeploy(s: State)
    requires DeployInv(s) && s.up && s.activity.Busy? && s.activity.stage.Replied?
    ensures DeployInv(DoFinish(s))
  {
    WaitingDeploy(s);
    FinishFields(s);
    FailureDeploy(s.(activity := Waiting), DoFinish(s));
  }

  lemma FinishFields(s: State)
    requires s.activity.Busy? && s.activity.stage.Replied?
    ensures var (w, t) := (s.(activity := Waiting), DoFinish(s));
      t == w.(failures := t.failures, history := t.history, retry := t.retry, intact := t.intact)
  {}

  lemma ExitReportDeploy(s: State, id: InstanceId)
    requires DeployInv(s) && s.up && s.activity.Waiting?
    ensures DeployInv(DoExitReport(s, id))
  {
    var t := DoExitReport(s, id);
    assert Serving(t) == Serving(s) && Candidate(t) == Candidate(s);
  }

  lemma ReapDeploy(s: State)
    requires DeployInv(s) && s.up && s.activity.Reaping? && s.current.Some?
    ensures DeployInv(DoReap(s))
  {
    var t := s.(instances := s.instances - {s.current.value.id}, activity := Waiting);
    assert Serving(t) == {} && Candidate(t) == {} && Serving(s) == {s.current.value.id} && Candidate(s) == {};
    assert DeployInv(t);
    FailureDeploy(t, DoReap(s));
  }

  lemma DestroyBeginsDeploy(s: State)
    requires DeployInv(s) && s.up && s.activity.Waiting?
    ensures DeployInv(DoDestroyBegins(s))
  {
    var t := DoDestroyBegins(s);
    assert Serving(t) == Serving(s) && Candidate(t) == Candidate(s);
  }

  lemma DestroyEndsDeploy(s: State)
    requires DeployInv(s) && s.up && s.activity.Destroying?
    ensures DeployInv(DoDestroyEnds(s))
  {
    var t := DoDestroyEnds(s);
    assert Serving(t) == {} && Candidate(t) == {} && Candidate(s) == {};
    assert t.instances.Keys == s.instances.Keys - Serving(s);
  }

  lemma DownDeploy(s: State)
    requires !s.up && s == DoCrash(s)
    ensures DeployInv(s)
  {}

  lemma RecoverDeploy(s: State, listing: seq<Listed>)
    requires DataInv(s) && !s.up && s == DoCrash(s) && ListingOf(s, listing)
    ensures DeployInv(DoRecover(s, listing))
  {
    var t := DoRecover(s, listing);
    if Keep(listing, LiveRelease(s.db, s.app)).Some? {
      KeptIsLive(s, listing);
      RecoverOwns(s, listing);
    } else {
      assert t.instances == map[] && Candidate(t) == {} && t.draining.Keys == {};
    }
  }

  lemma RecoverOwns(s: State, listing: seq<Listed>)
    requires s == DoCrash(s)
    requires var keep := Keep(listing, LiveRelease(s.db, s.app));
      keep.Some? && LiveId(s).Some? && keep.value in s.instances && keep.value in s.started
    ensures OwnedInv(DoRecover(s, listing))
  {
    var t := DoRecover(s, listing);
    assert t.instances.Keys == {Keep(listing, LiveRelease(s.db, s.app)).value};
    assert Candidate(t) == {} && t.draining.Keys == {};
  }

  /** The label names the row: what reconcile keeps was started from the live release. */
  lemma KeptIsLive(s: State, listing: seq<Listed>)
    requires DataInv(s) && ListingOf(s, listing) && Keep(listing, LiveRelease(s.db, s.app)).Some?
    ensures var id := Keep(listing, LiveRelease(s.db, s.app)).value;
      id in s.instances && LiveId(s) == Some(s.instances[id].row) && id in s.started
  {
    var live := LiveRelease(s.db, s.app).value;
    var id := Keep(listing, LiveRelease(s.db, s.app)).value;
    var i :| 0 <= i < |listing| && listing[i].id == id && listing[i].running && listing[i].published
        && listing[i].version == live.version;
    assert AppOk(s.db, s.app) && RowOk(s.db, s.db.apps[s.app].live.value);
    assert RunsItsRow(s.db, s.app, s.instances[id]);
    assert s.db.releases[s.instances[id].row].version == s.db.releases[live.id].version;
  }
}
