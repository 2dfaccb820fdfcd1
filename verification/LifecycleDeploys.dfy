/**
  What the invariant buys, fifth part: a deploy is all or nothing, over whole runs.
 */
module LifecycleDeploys {
  import opened Wrappers
  import opened Releases
  import opened Lifecycle
  import opened LifecycleInvariant
  import opened LifecycleDeploy
  import opened LifecyclePlans
  import opened LifecycleSteps
  import opened LifecycleTheorems

  // ------------------------------------------------------------ all or nothing

  /** The app's rows are those there were at the start and the deploy's own. */
  ghost predicate RowsSince(start: State, s: State)
    requires s.activity.Busy?
  {
    && s.app == start.app
    && forall id | id in s.db.releases && s.db.releases[id].app == s.app ::
         (id in start.db.releases && start.db.releases[id].app == start.app) || OwnRow(s) == Some(id)
  }

  ghost predicate SinceTake(start: State, s: State) {
    s.activity.Busy? && s.activity.pre == Snap(start) && RowsSince(start, s)
  }

  lemma WorldSince(start: State, s: State, w: WorldStep)
    requires SinceTake(start, s) && WorldEnabled(s, w)
    ensures SinceTake(start, NextWorld(s, w))
  {
    var t := NextWorld(s, w);
    assert OwnRow(t) == OwnRow(s);
    if w.OtherApps? {
      forall id | id in t.db.releases && t.db.releases[id].app == t.app
        ensures (id in start.db.releases && start.db.releases[id].app == start.app) || OwnRow(t) == Some(id)
      {
        assert id in s.db.releases && s.db.releases[id].app == s.app;
      }
    }
  }

  /** Rows after a step that adds none. */
  lemma SameIdsSince(start: State, s: State, t: State)
    requires SinceTake(start, s) && t.activity.Busy? && t.activity.pre == s.activity.pre && t.app == s.app
    requires OwnRow(t) == OwnRow(s) && t.db.releases.Keys <= s.db.releases.Keys
    requires forall id | id in t.db.releases :: t.db.releases[id].app == s.db.releases[id].app
    ensures SinceTake(start, t)
  {}

  lemma EarlySince(start: State, s: State, d: EarlyStep)
    requires SinceTake(start, s) && StageInv(s) && EarlyEnabled(s, d)
    ensures SinceTake(start, NextEarly(s, d))
  {
    match d
    case CreateRow(id, written) => CreateRowSince(start, s, id, written);
    case BuildEnds(image) => BuildEndsSince(start, s, image);
    case RecordFailure => RecordFailureSince(start, s);
    case _ => SameIdsSince(start, s, NextEarly(s, d));
  }

  lemma BuildEndsSince(start: State, s: State, image: Option<string>)
    requires SinceTake(start, s) && s.activity.stage.Created?
    ensures SinceTake(start, DoBuildEnds(s, image))
  {
    SameIdsSince(start, s, DoBuildEnds(s, image));
  }

  lemma RecordFailureSince(start: State, s: State)
    requires SinceTake(start, s) && s.activity.stage.Failing?
    ensures SinceTake(start, DoRecordFailure(s))
  {
    SameIdsSince(start, s, DoRecordFailure(s));
  }

  lemma CreateRowSince(start: State, s: State, id: nat, written: bool)
    requires SinceTake(start, s) && StageInv(s) && EarlyEnabled(s, CreateRow(id, written))
    ensures SinceTake(start, DoCreateRow(s, id, written))
  {
    CreateReleaseRow(s.db, s.app, s.activity.stage.n, id);
  }

  lemma LateSince(start: State, s: State, l: LateStep)
    requires SinceTake(start, s) && StageInv(s) && LateEnabled(s, l) && !l.Finish?
    ensures SinceTake(start, NextLate(s, l))
  {
    match l
    case SwapRoute => SameIdsSince(start, s, DoSwapRoute(s));
    case Commit => SameIdsSince(start, s, DoCommit(s));
    case GoLive => SameIdsSince(start, s, DoGoLive(s));
  }

  lemma TakeSince(s: State, cmd: Command, refused: bool)
    ensures SinceTake(s, DoTake(s, cmd, refused))
  {}

  lemma TimerSince(s: State, refused: bool)
    ensures SinceTake(s, DoTimer(s, refused))
  {
    TakeSince(s.(retry := None), Restart(false, true), refused);
  }

  lemma BusyStep(start: State, s: State, e: Event)
    requires StageInv(s) && DownInv(s) && SinceTake(start, s) && Enabled(s, e) && Next(s, e).activity.Busy?
    ensures SinceTake(start, Next(s, e))
  {
    match e
    case World(w) => WorldSince(start, s, w);
    case Early(d) => EarlySince(start, s, d);
    case Late(l) => LateSince(start, s, l);
    case Act(a) => assert false;
    case Down(c) => assert false;
  }

  /** A deploy in progress: what it remembers and what it has made so far. */
  ghost predicate Deploying(start: State, s: State) { Sound(start.db) && SinceTake(start, s) && AsAsked(start, s) }

  lemma TakeDeploying(s: State, cmd: Command, refused: bool)
    requires RowsInv(s)
    ensures Deploying(s, DoTake(s, cmd, refused))
  {
    TakeSince(s, cmd, refused);
    TakeIsAsAsked(s, cmd, refused);
  }

  lemma TimerDeploying(s: State, refused: bool)
    requires RowsInv(s)
    ensures Deploying(s, DoTimer(s, refused))
  {
    TimerSince(s, refused);
    TimerIsAsAsked(s, refused);
  }

  lemma DeployingStep(start: State, s: State, e: Event)
    requires RowsInv(s) && StageInv(s) && DownInv(s) && Deploying(start, s) && Enabled(s, e)
    requires Next(s, e).activity.Busy?
    ensures Deploying(start, Next(s, e))
  {
    BusyIsUp(s);
    BusyStep(start, s, e);
    AsAskedStep(start, s, e);
  }

  lemma BusyStepAt(start: State, states: seq<State>, events: seq<Event>, i: nat)
    requires IsRun(states, events) && i < |events| && SinceTake(start, states[i]) && states[i + 1].activity.Busy?
    ensures SinceTake(start, states[i + 1])
  {
    RunStep(states, events, i);
    BusyStep(start, states[i], events[i]);
  }

  lemma TakeAt(states: seq<State>, events: seq<Event>, i: nat)
    requires IsRun(states, events) && i < |events| && BeginsDeploy(events[i])
    ensures SinceTake(states[i], states[i + 1])
  {
    RunStep(states, events, i);
    match events[i].a
    case Take(cmd, refused) => TakeSince(states[i], cmd, refused);
    case TimerFires(refused) => TimerSince(states[i], refused);
  }

  /** From the moment a command is taken, or the timer fires, until the verdict, the deploy
      remembers what it found and the app gets no row but the deploy's own. */
  lemma {:induction false} DeployRemembersItsStart(states: seq<State>, events: seq<Event>, i: nat, j: nat)
    requires IsRun(states, events) && i < j < |states| && BeginsDeploy(events[i])
    requires forall k | i < k <= j :: states[k].activity.Busy?
    ensures SinceTake(states[i], states[j])
  {
    if i + 1 == j {
      TakeAt(states, events, i);
    } else {
      DeployRemembersItsStart(states, events, i, j - 1);
      BusyStepAt(states[i], states, events, j - 1);
    }
  }

  /** What a verdict of no leaves behind: everything as it was, and any new row failed. (Here
      and below the route may have been removed meanwhile, by a Destroy that had found no actor.) */
  ghost predicate NothingHappened(start: State, s: State) {
    && (s.route == start.route || RouteMissing(s)) && s.current == start.current && LiveId(s) == LiveId(start)
    && forall id | id in s.db.releases && s.db.releases[id].app == s.app
                   && !(id in start.db.releases && start.db.releases[id].app == s.app) ::
                        s.db.releases[id].status == Failed
  }

  /** What a verdict of yes on a new release leaves behind. */
  ghost predicate AllHappened(start: State, s: State, rel: Release) {
    && LiveId(s) == Some(rel.id) && rel.id in s.db.releases && s.db.releases[rel.id].status == Live
    && (LiveId(start).Some? ==>
          LiveId(start).value in s.db.releases && s.db.releases[LiveId(start).value].status == Superseded)
    && s.current.Some? && !s.current.value.exited && s.current.value.row == rel.id
    && (s.route == Some(s.current.value.id) || RouteMissing(s))
    && s.current.value.id in s.instances && s.instances[s.current.value.id].content == s.db.releases[rel.id].content
  }

  /** What a restart that came up leaves behind: the live release as it was, with an
      instance of it current and routed. */
  ghost predicate RestartHappened(start: State, s: State) {
    && LiveId(s) == LiveId(start) && LiveId(s).Some?
    && s.current.Some? && !s.current.value.exited && LiveId(s) == Some(s.current.value.row)
    && (s.route == Some(s.current.value.id) || RouteMissing(s))
    && s.current.value.id in s.instances && s.current.value.row in s.db.releases
    && s.instances[s.current.value.id].content == s.db.releases[s.current.value.row].content
    && forall id | id in s.db.releases && s.db.releases[id].app == s.app :: id in start.db.releases
         && start.db.releases[id].app == s.app
  }

  /** The live row and the container that serves it hold what the command asked for at the
      start: its commit, manifest and config, or those of the release it goes back to. */
  ghost predicate HoldsWhatWasAsked(start: State, cmd: Command, s: State) {
    && LiveId(s).Some? && LiveId(s).value in s.db.releases && AskedRow(start, cmd, s.db.releases[LiveId(s).value])
    && s.current.Some? && s.current.value.id in s.instances
    && s.instances[s.current.value.id].content == s.db.releases[LiveId(s).value].content
  }

  lemma VerdictOfNo(start: State, s: State)
    requires Inv(s) && SinceTake(start, s) && s.activity.stage.Replied? && !s.activity.stage.ok
    ensures NothingHappened(start, s)
  {}

  lemma VerdictOfYes(start: State, s: State)
    requires Inv(s) && SinceTake(start, s) && s.activity.stage.Replied? && s.activity.stage.ok
        && !s.activity.cmd.Restart?
    ensures s.activity.stage.done.Some? && AllHappened(start, s, s.activity.stage.done.value)
  {
    var rel := s.activity.stage.done.value;
    assert s.up;
    assert s.current.value.id in Serving(s) && s.current.value.id in s.instances;
    assert RowOk(s.db, rel.id);
    assert RunsItsRow(s.db, s.app, s.instances[s.current.value.id]);
  }

  lemma YesHoldsWhatWasAsked(start: State, s: State)
    requires Inv(s) && Deploying(start, s) && s.activity.stage.Replied? && s.activity.stage.ok
    requires !s.activity.cmd.Restart?
    ensures HoldsWhatWasAsked(start, s.activity.cmd, s)
  {
    VerdictOfYes(start, s);
  }

  lemma VerdictOfAgain(start: State, s: State)
    requires Inv(s) && SinceTake(start, s) && s.activity.stage.Replied? && s.activity.stage.ok
        && s.activity.cmd.Restart?
    ensures RestartHappened(start, s)
  {
    var id := s.current.value.id;
    assert id in Serving(s) && id in s.instances;
    assert RunsItsRow(s.db, s.app, s.instances[id]);
    assert OwnRow(s) == None;
  }

  /** A deploy is all or nothing, whatever fails, exits, drains or is configured meanwhile:
      `i` takes the command, or is the timer's, and `j` is the state in which the verdict is out. */
  lemma DeployIsAllOrNothing(states: seq<State>, events: seq<Event>, i: nat, j: nat)
    requires IsRun(states, events) && i < j < |states| && BeginsDeploy(events[i])
    requires forall k | i < k <= j :: states[k].activity.Busy?
    requires states[j].activity.stage.Replied?
    ensures !states[j].activity.stage.ok ==> NothingHappened(states[i], states[j])
    ensures states[j].activity.stage.ok && states[j].activity.cmd.Restart? ==> RestartHappened(states[i], states[j])
    ensures states[j].activity.stage.ok && !states[j].activity.cmd.Restart? ==>
              && states[j].activity.stage.done.Some?
              && AllHappened(states[i], states[j], states[j].activity.stage.done.value)
              && HoldsWhatWasAsked(states[i], states[j].activity.cmd, states[j])
  {
    DeployRemembersItsStart(states, events, i, j);
    RowIsAsAsked(states, events, i, j);
    EveryReachableStateSatisfiesInvariant(states, events, i);
    EveryReachableStateSatisfiesInvariant(states, events, j);
    if states[j].activity.stage.ok {
      if states[j].activity.cmd.Restart? {
        VerdictOfAgain(states[i], states[j]);
      } else {
        VerdictOfYes(states[i], states[j]);
        YesHoldsWhatWasAsked(states[i], states[j]);
      }
    } else {
      VerdictOfNo(states[i], states[j]);
    }
  }

  // ------------------------------------------------------------- and the route

  /** The route as no removal has touched it: as it was before the swap, the candidate's after. */
  predicate RouteSince(start: State, s: State) {
    s.activity.Busy? && if EarlyStage(s.activity.stage) then s.route == start.route else !s.dropped
  }

  lemma EarlyRouteSince(start: State, s: State, d: EarlyStep)
    requires RouteSince(start, s) && EarlyEnabled(s, d)
    ensures RouteSince(start, NextEarly(s, d))
  {
    match d case CreateRow(_, _) => case BuildEnds(_) => case _ =>
  }

  lemma WorldRouteSince(start: State, s: State, w: WorldStep)
    requires RouteSince(start, s) && WorldEnabled(s, w) && !w.RouteRemoved?
    ensures RouteSince(start, NextWorld(s, w))
  {}

  lemma LateRouteSince(start: State, s: State, l: LateStep)
    requires RouteSince(start, s) && LateEnabled(s, l) && !l.Finish?
    ensures RouteSince(start, NextLate(s, l))
  {}

  lemma BusyRouteSince(start: State, s: State, e: Event)
    requires s.up && RouteSince(start, s) && Enabled(s, e) && Next(s, e).activity.Busy? && e != World(RouteRemoved)
    ensures RouteSince(start, Next(s, e))
  {
    match e
    case World(w) => WorldRouteSince(start, s, w);
    case Early(d) => EarlyRouteSince(start, s, d);
    case Late(l) => LateRouteSince(start, s, l);
    case Act(a) => assert false;
    case Down(c) => assert false;
  }

  lemma BusyRouteAt(start: State, states: seq<State>, events: seq<Event>, i: nat)
    requires IsRun(states, events) && i < |events| && RouteSince(start, states[i])
    requires states[i + 1].activity.Busy? && events[i] != World(RouteRemoved)
    ensures RouteSince(start, states[i + 1])
  {
    RunStep(states, events, i);
    BusyIsUp(states[i]);
    BusyRouteSince(start, states[i], events[i]);
  }

  lemma TakeRouteAt(states: seq<State>, events: seq<Event>, i: nat)
    requires IsRun(states, events) && i < |events| && BeginsDeploy(events[i])
    ensures RouteSince(states[i], states[i + 1])
  {
    RunStep(states, events, i);
    assert AppOk(states[i].db, states[i].app);
    match events[i].a
    case Take(cmd, refused) => TakeRoute(states[i], cmd, refused);
    case TimerFires(refused) => TakeRoute(states[i].(retry := None), Restart(false, true), refused);
  }

  lemma TakeRoute(s: State, cmd: Command, refused: bool)
    requires RowsOk(s.db) && s.app in s.db.apps && AppOk(s.db, s.app)
    ensures RouteSince(s, DoTake(s, cmd, refused))
  {
    FirstStageFacts(s, cmd, refused);
  }

  lemma {:induction false} UnremovedRoute(states: seq<State>, events: seq<Event>, i: nat, j: nat)
    requires IsRun(states, events) && i < j < |states| && BeginsDeploy(events[i])
    requires forall k | i < k <= j :: states[k].activity.Busy?
    requires forall k | i < k < j :: events[k] != World(RouteRemoved)
    ensures RouteSince(states[i], states[j])
  {
    if i + 1 == j {
      TakeRouteAt(states, events, i);
    } else {
      UnremovedRoute(states, events, i, j - 1);
      BusyRouteAt(states[i], states, events, j - 1);
    }
  }

  /** If no such removal comes between a command and its verdict, a verdict of no leaves the
      route where it was and a verdict of yes leaves it at the new instance. */
  lemma DeployMovesTheRoute(states: seq<State>, events: seq<Event>, i: nat, j: nat)
    requires IsRun(states, events) && i < j < |states| && BeginsDeploy(events[i])
    requires forall k | i < k <= j :: states[k].activity.Busy?
    requires forall k | i < k < j :: events[k] != World(RouteRemoved)
    requires states[j].activity.stage.Replied?
    ensures !states[j].activity.stage.ok ==> states[j].route == states[i].route
    ensures states[j].activity.stage.ok ==>
      states[j].current.Some? && states[j].route == Some(states[j].current.value.id)
  {
    UnremovedRoute(states, events, i, j);
    EveryReachableStateSatisfiesInvariant(states, events, j);
  }

  // --------------------------------------------------- and fails only for a cause

  /** Something outside the actor went wrong: a read or a write failed or the caller was gone,
      nothing was built, no instance started, the check was not passed, or the pusher hung up. */
  predicate IsCause(e: Event) {
    || (e.Act? && (e.a.Take? || e.a.TimerFires?) && e.a.refused)
    || (e.Early? && (e.d == Withdraw || e.d == ProbeEnds(false) || e.d == BuildEnds(None) || e.d == BuildEnds(Some(""))
                     || (e.d.CreateRow? && !e.d.written) || (e.d.Launch? && e.d.inst.None?)))
  }

  /** Nothing to redeploy or restart, or no built release of that version to go back to. */
  ghost predicate CannotBegin(s: State, cmd: Command) {
    match cmd
    case Push(_, _) => false
    case Rollback(version) => forall id: nat :: !CanRollBackTo(s.db, s.app, version, id)
    case _ => forall id: nat :: !IsLiveRow(s.db, s.app, id)
  }

  predicate GoesWell(s: State) {
    s.activity.Busy? &&
    match s.activity.stage
    case Dropping(_, _) => false
    case Failing(_) => false
    case Replied(ok, _) => ok
    case _ => true
  }

  lemma BuiltGoesWell(s: State, image: string)
    requires s.activity.Busy? && StageOk(s) && s.activity.stage.Created? && image != ""
    ensures GoesWell(DoBuildEnds(s, Some(image)))
  {}

  lemma WrittenGoesWell(s: State, id: nat)
    requires s.app in s.db.apps && s.activity.Busy? && s.activity.stage.Prepared? && id !in s.db.releases
    ensures GoesWell(DoCreateRow(s, id, true))
  {
    CreateReleaseRow(s.db, s.app, s.activity.stage.n, id);
  }

  lemma EarlyGoesWell(s: State, d: EarlyStep)
    requires RowsInv(s) && StageInv(s) && EarlyEnabled(s, d) && GoesWell(s) && !IsCause(Early(d))
    ensures GoesWell(NextEarly(s, d))
  {
    match d
    case CreateRow(id, _) => WrittenGoesWell(s, id);
    case BuildEnds(image) => BuiltGoesWell(s, image.value);
    case _ =>
  }

  lemma LateGoesWell(s: State, l: LateStep)
    requires LateEnabled(s, l) && GoesWell(s) && !l.Finish?
    ensures GoesWell(NextLate(s, l))
  {}

  lemma WorldGoesWell(s: State, w: WorldStep)
    requires WorldEnabled(s, w) && GoesWell(s)
    ensures GoesWell(NextWorld(s, w))
  {
    assert NextWorld(s, w).activity == s.activity;
  }

  lemma GoesWellStep(s: State, e: Event)
    requires RowsInv(s) && StageInv(s) && s.up && GoesWell(s) && Enabled(s, e) && Next(s, e).activity.Busy?
    requires !IsCause(e)
    ensures GoesWell(Next(s, e))
  {
    match e
    case World(w) => WorldGoesWell(s, w);
    case Early(d) => EarlyGoesWell(s, d);
    case Late(l) => LateGoesWell(s, l);
    case Act(a) => assert false;
    case Down(c) => assert false;
  }

  lemma BeginGoesWell(s: State, e: Event)
    requires RowsInv(s) && BeginsDeploy(e) && Enabled(s, e) && !IsCause(e)
    ensures Next(s, e).activity.Busy? && (GoesWell(Next(s, e)) || CannotBegin(s, Next(s, e).activity.cmd))
  {
    match e.a
    case Take(cmd, _) => FirstStageIsAsked(s, cmd, false);
    case TimerFires(_) => FirstStageIsAsked(s.(retry := None), Restart(false, true), false);
  }

  ghost predicate GoodStep(states: seq<State>, events: seq<Event>, k: nat)
    requires k < |events| < |states|
  {
    Inv(states[k]) && StepAt(states, events, k)
  }

  /** The same; the quantifier keeps the prover from looking inside. */
  ghost predicate Good(states: seq<State>, events: seq<Event>, k: nat)
    requires k < |events| < |states|
  {
    forall n: nat | n == k :: GoodStep(states, events, n)
  }

  /** The deploy that is in progress at `j` began at `i`. */
  ghost predicate Since(states: seq<State>, events: seq<Event>, i: nat, j: nat) {
    && i < j <= |events| < |states| && BeginsDeploy(events[i])
    && (forall k: nat {:trigger Good(states, events, k)} | i <= k < j :: Good(states, events, k))
    && (forall k: nat | i < k <= j :: states[k].activity.Busy?)
  }

  ghost predicate CauseIn(events: seq<Event>, i: nat, j: nat) {
    exists k: nat :: i <= k < j <= |events| && IsCause(events[k])
  }

  lemma {:induction false} WellUnlessCause(states: seq<State>, events: seq<Event>, i: nat, j: nat)
    requires Since(states, events, i, j) && !CauseIn(events, i, j)
    ensures WellSoFar(states[i], states[i + 1].activity.cmd, states[j])
  {
    if i + 1 == j {
      WellAtFirst(states, events, i);
    } else {
      NoCauseBefore(events, i, j);
      SinceBefore(states, events, i, j);
      WellUnlessCause(states, events, i, j - 1);
      WellAtLast(states, events, i, j);
    }
  }

  lemma SinceBefore(states: seq<State>, events: seq<Event>, i: nat, j: nat)
    requires Since(states, events, i, j) && i + 1 < j
    ensures Since(states, events, i, j - 1)
  {}

  lemma WellAtLast(states: seq<State>, events: seq<Event>, i: nat, j: nat)
    requires Since(states, events, i, j) && i + 1 < j && !IsCause(events[j - 1])
    requires WellSoFar(states[i], states[i + 1].activity.cmd, states[j - 1])
    ensures WellSoFar(states[i], states[i + 1].activity.cmd, states[j])
  {
    assert Good(states, events, j - 1) && states[j].activity.Busy?;
    WellAt(states, events, states[i], states[i + 1].activity.cmd, j - 1);
  }

  lemma WellAtFirst(states: seq<State>, events: seq<Event>, i: nat)
    requires Since(states, events, i, i + 1) && !CauseIn(events, i, i + 1)
    ensures WellSoFar(states[i], states[i + 1].activity.cmd, states[i + 1])
  {
    assert Good(states, events, i) && !IsCause(events[i]);
    assert GoodStep(states, events, i);
    BeginGoesWell(states[i], events[i]);
  }

  ghost predicate WellSoFar(start: State, cmd: Command, s: State) {
    s.activity.Busy? && s.activity.cmd == cmd && (GoesWell(s) || CannotBegin(start, cmd))
  }

  lemma NoCauseBefore(events: seq<Event>, i: nat, j: nat)
    requires i + 1 < j <= |events| && !CauseIn(events, i, j)
    ensures !CauseIn(events, i, j - 1) && !IsCause(events[j - 1])
  {}

  lemma WellAt(states: seq<State>, events: seq<Event>, start: State, cmd: Command, k: nat)
    requires k < |events| < |states| && Good(states, events, k) && !IsCause(events[k])
    requires WellSoFar(start, cmd, states[k]) && states[k + 1].activity.Busy?
    ensures WellSoFar(start, cmd, states[k + 1])
  {
    assert GoodStep(states, events, k);
    BusyIsUp(states[k]);
    CommandStays(states[k], events[k]);
    if GoesWell(states[k]) { GoesWellStep(states[k], events[k]); }
  }

  /** A verdict of no has a cause: the command could not begin, or since it was taken something
      outside the actor has gone wrong. */
  lemma FailureHasACause(states: seq<State>, events: seq<Event>, i: nat, j: nat)
    requires IsRun(states, events) && i < j < |states| && BeginsDeploy(events[i])
    requires forall k | i < k <= j :: states[k].activity.Busy?
    requires states[j].activity.stage.Replied? && !states[j].activity.stage.ok
    ensures CannotBegin(states[i], states[j].activity.cmd) || exists k: nat :: i <= k < j && IsCause(events[k])
  {
    forall k: nat | i <= k < j ensures Good(states, events, k) {
      EveryReachableStateSatisfiesInvariant(states, events, k);
      assert StepAt(states, events, k);
    }
    if !CauseIn(events, i, j) { WellUnlessCause(states, events, i, j); }
  }
}
