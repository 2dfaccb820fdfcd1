/**
  What the invariant buys, fourth part: what a command makes. The row of a deploy is what
  was asked for at the moment the command was taken, until its verdict.
 */
module LifecyclePlans {
  import opened Wrappers
  import opened Releases
  import opened Lifecycle
  import opened LifecycleInvariant
  import opened LifecycleRows
  import opened LifecycleSteps
  import opened LifecycleTheorems

  // ---------------------------------------------------------- what is asked for

  /** A row that is live, by its status. */
  ghost predicate IsLiveRow(t: Tables, app: nat, id: nat) {
    id in t.releases && t.releases[id].app == app && t.releases[id].status == Live
  }

  /** A release that was built and is not the live one. */
  ghost predicate CanRollBackTo(t: Tables, app: nat, version: nat, id: nat) {
    IsVersion(t, app, version, id) && t.releases[id].content.image != "" && t.releases[id].status != Live
  }

  /** What a new row is made of, and when the command is refused. A push has its commit and
      manifest, no image yet, and the config at that moment; a redeploy the live row's image,
      commit and manifest, and the config at that moment; a rollback all of an earlier row. */
  ghost predicate PlannedFrom(s: State, cmd: Command, n: Option<NewRelease>) {
    match cmd
    case Push(sha, manifest) => n == Some(NewRelease(Content("", sha, s.vars, manifest), Pushed(sha)))
    case Redeploy(why) =>
      && (n.None? <==> forall id: nat :: !IsLiveRow(s.db, s.app, id))
      && (n.Some? ==> exists id: nat :: IsLiveRow(s.db, s.app, id) && RedeployOf(s.db.releases[id], s.vars, why,
           n.value))
    case Rollback(version) =>
      && (n.None? <==> forall id: nat :: !CanRollBackTo(s.db, s.app, version, id))
      && (n.Some? ==> exists id: nat :: CanRollBackTo(s.db, s.app, version, id)
                                   && n.value == NewRelease(s.db.releases[id].content, RolledBack(version)))
    case Restart(_, _) => true
  }

  predicate RedeployOf(live: Release, vars: string, why: string, n: NewRelease) {
    n == NewRelease(Content(live.content.image, live.content.sha, vars, live.content.manifest), Redeployed(why))
  }

  lemma LiveRowIs(t: Tables, app: nat)
    requires Sound(t) && app in t.apps
    ensures LiveRelease(t, app).None? <==> forall id: nat :: !IsLiveRow(t, app, id)
    ensures LiveRelease(t, app).Some? ==>
      var id := LiveRelease(t, app).value.id; IsLiveRow(t, app, id) && t.releases[id] == LiveRelease(t, app).value
    ensures forall id: nat | IsLiveRow(t, app, id) :: t.apps[app].live == Some(id)
  {
    assert AppOk(t, app);
    if LiveRelease(t, app).Some? {
      assert RowOk(t, t.apps[app].live.value);
      assert IsLiveRow(t, app, t.apps[app].live.value);
    }
    forall id: nat | IsLiveRow(t, app, id) ensures t.apps[app].live == Some(id) { assert RowOk(t, id); }
  }

  lemma RedeployPlanned(s: State, why: string)
    requires RowsInv(s)
    ensures PlannedFrom(s, Redeploy(why), Plan(s, Redeploy(why)))
  {
    LiveRowIs(s.db, s.app);
  }

  lemma RollbackPlanned(s: State, version: nat)
    requires RowsInv(s)
    ensures PlannedFrom(s, Rollback(version), Plan(s, Rollback(version)))
  {
    assert AppOk(s.db, s.app);
    forall id: nat | CanRollBackTo(s.db, s.app, version, id) ensures Plan(s, Rollback(version)).Some? {
      SameVersionSameRow(s.db, s.app, version, id, ByVersion(s.db, s.app, version).value);
      assert RowOk(s.db, id);
    }
    if Plan(s, Rollback(version)).Some? {
      var target := ByVersion(s.db, s.app, version).value;
      var id: nat :| IsVersion(s.db, s.app, version, id) && s.db.releases[id] == target;
      assert RowOk(s.db, id);
      assert CanRollBackTo(s.db, s.app, version, id);
    }
  }

  /** A command that makes a new row, planned as the rows and the config are. */
  lemma PlanIsPlanned(s: State, cmd: Command)
    requires RowsInv(s) && !cmd.Restart?
    ensures PlannedFrom(s, cmd, Plan(s, cmd))
  {
    match cmd
    case Push(sha, manifest) =>
    case Redeploy(why) => RedeployPlanned(s, why);
    case Rollback(version) => RollbackPlanned(s, version);
  }

  /** Where a command leads: to a plan, to the live row of a restart, or to a refusal. */
  ghost predicate TakenAs(s: State, cmd: Command, refused: bool, stage: Stage) {
    if refused then stage == Replied(false, None)
    else if cmd.Restart? then
      if stage.Launching? then IsLiveRow(s.db, s.app, stage.rel.id) && stage.rel == s.db.releases[stage.rel.id]
      else stage == Replied(false, None) && forall id: nat :: !IsLiveRow(s.db, s.app, id)
    else
      if stage.Prepared? then PlannedFrom(s, cmd, Some(stage.n))
      else stage == Replied(false, None) && PlannedFrom(s, cmd, None)
  }

  lemma FirstStageIsAsked(s: State, cmd: Command, refused: bool)
    requires RowsInv(s)
    ensures TakenAs(s, cmd, refused, FirstStage(s, cmd, refused))
  {
    if cmd.Restart? { LiveRowIs(s.db, s.app); } else { PlanIsPlanned(s, cmd); }
  }

  /** In every run: what a command, when it is taken, will make, and when it is refused. */
  lemma CommandIsPlanned(states: seq<State>, events: seq<Event>, i: nat)
    requires IsRun(states, events) && i < |events| && events[i].Act? && events[i].a.Take?
    ensures states[i + 1].activity.Busy? && states[i + 1].activity.cmd == events[i].a.cmd
    ensures TakenAs(states[i], events[i].a.cmd, events[i].a.refused, states[i + 1].activity.stage)
  {
    RunStep(states, events, i);
    FirstStageIsAsked(states[i], events[i].a.cmd, events[i].a.refused);
  }

  // ------------------------------------------------------------- what is in the row

  /** The row a deploy in progress has written, if any. */
  function OwnRow(s: State): Option<nat>
    requires s.activity.Busy?
  {
    if s.activity.cmd.Restart? then None else
      match s.activity.stage
      case Prepared(_) => None
      case Created(rel) => Some(rel.id)
      case Launching(rel) => Some(rel.id)
      case Probing(rel, _) => Some(rel.id)
      case Healthy(rel, _) => Some(rel.id)
      case Dropping(rel, _) => Some(rel.id)
      case Failing(rel) => Some(rel.id)
      case Routed(rel, _) => Some(rel.id)
      case Committed(rel) => Some(rel.id)
      case Replied(_, done) => if done.Some? then Some(done.value.id) else None
  }

  /** The row holds what the command asked for when it was taken. */
  ghost predicate AskedRow(start: State, cmd: Command, row: Release) {
    match cmd
    case Push(sha, manifest) =>
      && row.content.sha == sha && Snapshots(start.vars, row.content.config)
      && Snapshots(manifest, row.content.manifest) && row.note == Pushed(sha)
    case Redeploy(why) =>
      exists id: nat :: IsLiveRow(start.db, start.app, id) && RedeployedRow(start.db.releases[id], start.vars, why, row)
    case Rollback(version) =>
      exists id: nat :: CanRollBackTo(start.db, start.app, version, id) && row.content == start.db.releases[id].content
                   && row.note == RolledBack(version)
    case Restart(_, _) => true
  }

  predicate RedeployedRow(live: Release, vars: string, why: string, row: Release) {
    && row.content.image == live.content.image != "" && row.content.sha == live.content.sha
    && Snapshots(vars, row.content.config) && row.content.manifest == live.content.manifest
         && row.note == Redeployed(why)
  }

  /** From the command to the verdict: first the plan, then the row is what was asked for. */
  ghost predicate AsAsked(start: State, s: State)
    requires s.activity.Busy?
  {
    var cmd := s.activity.cmd;
    && (s.activity.stage.Prepared? && !cmd.Restart? ==> PlannedFrom(start, cmd, Some(s.activity.stage.n)))
    && (OwnRow(s).Some? ==>
          && OwnRow(s).value in s.db.releases && s.db.releases[OwnRow(s).value].app == s.app
          && AskedRow(start, cmd, s.db.releases[OwnRow(s).value]))
  }

  lemma TakeIsAsAsked(s: State, cmd: Command, refused: bool)
    requires RowsInv(s)
    ensures AsAsked(s, DoTake(s, cmd, refused))
  {
    FirstStageIsAsked(s, cmd, refused);
    assert OwnRow(DoTake(s, cmd, refused)).None?;
  }

  lemma TimerIsAsAsked(s: State, refused: bool)
    requires RowsInv(s)
    ensures AsAsked(s, DoTimer(s, refused))
  {}

  /** A release that moves on stays what was asked for: only a missing image is filled in. */
  lemma AskedStays(start: State, cmd: Command, was: Release, now: Release)
    requires AskedRow(start, cmd, was) && SameRelease(was, now) && (was.status == Building ==> was.content.image == "")
    requires Sound(start.db)
    ensures AskedRow(start, cmd, now)
  {
    match cmd
    case Push(_, _) =>
    case Redeploy(why) =>
      var id: nat :| IsLiveRow(start.db, start.app, id) && RedeployedRow(start.db.releases[id], start.vars, why, was);
      assert RedeployedRow(start.db.releases[id], start.vars, why, now);
    case Rollback(version) =>
      var id: nat :| CanRollBackTo(start.db, start.app, version, id) && was.content == start.db.releases[id].content
                && was.note == RolledBack(version);
    case Restart(_, _) =>
  }

  /** The row that a plan becomes. */
  lemma PlannedRow(start: State, cmd: Command, n: NewRelease, row: Release)
    requires Sound(start.db) && !cmd.Restart? && PlannedFrom(start, cmd, Some(n))
    requires MadeOf(n, row)
    ensures AskedRow(start, cmd, row)
  {
    match cmd
    case Push(_, _) =>
    case Redeploy(why) =>
      var id: nat :| IsLiveRow(start.db, start.app, id) && RedeployOf(start.db.releases[id], start.vars, why, n);
      assert RowOk(start.db, id);
      assert RedeployedRow(start.db.releases[id], start.vars, why, row);
    case Rollback(version) =>
      var id: nat :| CanRollBackTo(start.db, start.app, version, id)
                && n == NewRelease(start.db.releases[id].content, RolledBack(version));
      assert RowOk(start.db, id);
  }

  lemma CreateRowAsAsked(start: State, s: State, id: nat, written: bool)
    requires Sound(start.db) && s.activity.Busy? && s.activity.stage.Prepared? && !s.activity.cmd.Restart?
    requires id !in s.db.releases && AsAsked(start, s)
    ensures AsAsked(start, DoCreateRow(s, id, written))
  {
    CreatedOwnRow(s, id, written);
    var (n, t) := (s.activity.stage.n, DoCreateRow(s, id, written));
    if OwnRow(t).Some? { PlannedRow(start, s.activity.cmd, n, t.db.releases[id]); }
  }

  lemma CreatedOwnRow(s: State, id: nat, written: bool)
    requires s.activity.Busy? && s.activity.stage.Prepared? && id !in s.db.releases
    ensures var (n, t) := (s.activity.stage.n, DoCreateRow(s, id, written));
      && t.activity.Busy? && t.activity.cmd == s.activity.cmd && !t.activity.stage.Prepared?
      && (OwnRow(t).Some? ==> OwnRow(t) == Some(id) && id in t.db.releases && t.db.releases[id].app == t.app
                              && MadeOf(n, t.db.releases[id]))
  {
    CreateReleaseRow(s.db, s.app, s.activity.stage.n, id);
  }

  /** Any other step of a deploy keeps its row's id. */
  lemma OwnRowStays(s: State, e: Event)
    requires s.activity.Busy? && !s.activity.stage.Prepared? && Enabled(s, e) && Next(s, e).activity.Busy? && s.up
    ensures OwnRow(Next(s, e)) == OwnRow(s) && Next(s, e).activity.cmd == s.activity.cmd
    ensures !Next(s, e).activity.stage.Prepared?
  {
    match e
    case World(w) => WorldOwnRow(s, w);
    case Early(d) => EarlyOwnRow(s, d);
    case Late(l) => LateOwnRow(s, l);
    case Act(a) => assert false;
    case Down(c) => assert false;
  }

  lemma WorldOwnRow(s: State, w: WorldStep)
    requires s.activity.Busy? && WorldEnabled(s, w)
    ensures NextWorld(s, w).activity == s.activity && OwnRow(NextWorld(s, w)) == OwnRow(s)
  {}

  lemma EarlyOwnRow(s: State, d: EarlyStep)
    requires EarlyEnabled(s, d) && !s.activity.stage.Prepared?
    ensures OwnRow(NextEarly(s, d)) == OwnRow(s) && NextEarly(s, d).activity.cmd == s.activity.cmd
    ensures !NextEarly(s, d).activity.stage.Prepared?
  {
    match d case BuildEnds(_) => case _ =>
  }

  lemma LateOwnRow(s: State, l: LateStep)
    requires LateEnabled(s, l) && !l.Finish?
    ensures OwnRow(NextLate(s, l)) == OwnRow(s) && NextLate(s, l).activity.cmd == s.activity.cmd
    ensures !NextLate(s, l).activity.stage.Prepared?
  {}

  lemma LaterAsAsked(start: State, s: State, t: State)
    requires Sound(start.db) && RowsOk(s.db) && s.activity.Busy? && t.activity.Busy? && AsAsked(start, s)
    requires RowsKept(s, t) && OwnRow(t) == OwnRow(s) && t.activity.cmd == s.activity.cmd && !t.activity.stage.Prepared?
    ensures AsAsked(start, t)
  {
    if OwnRow(s).Some? {
      var id := OwnRow(s).value;
      assert RowOk(s.db, id) && SameRelease(s.db.releases[id], t.db.releases[id]);
      AskedStays(start, s.activity.cmd, s.db.releases[id], t.db.releases[id]);
    }
  }

  lemma AsAskedStep(start: State, s: State, e: Event)
    requires Sound(start.db) && RowsInv(s) && StageInv(s) && s.up && s.activity.Busy? && AsAsked(start, s)
    requires Enabled(s, e) && Next(s, e).activity.Busy?
    ensures AsAsked(start, Next(s, e))
  {
    if s.activity.stage.Prepared? {
      PreparedStep(start, s, e);
    } else {
      RowsStep(s, e);
      OwnRowStays(s, e);
      LaterAsAsked(start, s, Next(s, e));
    }
  }

  lemma PreparedStep(start: State, s: State, e: Event)
    requires Sound(start.db) && StageInv(s) && s.up && s.activity.Busy? && s.activity.stage.Prepared?
        && AsAsked(start, s)
    requires Enabled(s, e) && Next(s, e).activity.Busy?
    ensures AsAsked(start, Next(s, e))
  {
    match e
    case World(w) => WorldOwnRow(s, w);
    case Early(d) => CreateRowAsAsked(start, s, d.id, d.written);
    case Late(l) => assert false;
    case Act(a) => assert false;
    case Down(c) => assert false;
  }

  /** A command is taken, or the actor's own timer starts a restart. */
  predicate BeginsDeploy(e: Event) { e.Act? && (e.a.Take? || e.a.TimerFires?) }

  lemma BeginIsAsAsked(states: seq<State>, events: seq<Event>, i: nat)
    requires IsRun(states, events) && i < |events| && BeginsDeploy(events[i])
    ensures states[i + 1].activity.Busy? && AsAsked(states[i], states[i + 1])
  {
    RunStep(states, events, i);
    match events[i].a
    case Take(cmd, refused) => TakeIsAsAsked(states[i], cmd, refused);
    case TimerFires(refused) => TimerIsAsAsked(states[i], refused);
  }

  lemma AsAskedAt(start: State, states: seq<State>, events: seq<Event>, i: nat)
    requires IsRun(states, events) && i < |events| && Sound(start.db)
    requires states[i].activity.Busy? && AsAsked(start, states[i]) && states[i + 1].activity.Busy?
    ensures AsAsked(start, states[i + 1])
  {
    RunStep(states, events, i);
    BusyIsUp(states[i]);
    AsAskedStep(start, states[i], events[i]);
  }

  lemma BusyIsUp(s: State)
    requires DownInv(s) && s.activity.Busy?
    ensures s.up
  {}

  /** From the moment a command is taken until its verdict the row of the deploy holds what
      was asked for: the commit, manifest, image and config as they were at that moment,
      whatever is configured meanwhile. */
  lemma {:induction false} RowIsAsAsked(states: seq<State>, events: seq<Event>, i: nat, j: nat)
    requires IsRun(states, events) && i < j < |states| && BeginsDeploy(events[i])
    requires forall k | i < k <= j :: states[k].activity.Busy?
    ensures AsAsked(states[i], states[j])
  {
    if i + 1 == j {
      BeginIsAsAsked(states, events, i);
    } else {
      RowIsAsAsked(states, events, i, j - 1);
      EveryReachableStateSatisfiesInvariant(states, events, i);
      AsAskedAt(states[i], states, events, j - 1);
    }
  }

  // --------------------------------------------------------------- what was built

  predicate BuiltAt(events: seq<Event>, image: string, k: int) {
    0 <= k < |events| && events[k] == Early(BuildEnds(Some(image)))
  }

  /** The builder has answered with this image after the command and before now. */
  ghost predicate WasBuilt(events: seq<Event>, i: nat, j: nat, image: string) {
    exists k :: i < k < j && BuiltAt(events, image, k)
  }

  lemma StillBuilt(events: seq<Event>, i: nat, j: nat, image: string)
    requires WasBuilt(events, i, j, image)
    ensures WasBuilt(events, i, j + 1, image)
  {
    var k :| i < k < j && BuiltAt(events, image, k);
    assert i < k < j + 1;
  }

  /** The image in the row of a deploy. */
  function OwnImage(s: State): string {
    if s.activity.Busy? && OwnRow(s).Some? && OwnRow(s).value in s.db.releases
    then s.db.releases[OwnRow(s).value].content.image else ""
  }

  lemma BuiltImage(s: State, image: Option<string>)
    requires s.activity.Busy? && s.activity.stage.Created? && !s.activity.cmd.Restart?
    ensures OwnImage(DoBuildEnds(s, image)) == OwnImage(s) || image == Some(OwnImage(DoBuildEnds(s, image)))
  {}

  lemma FailedImage(s: State)
    requires s.activity.Busy? && s.activity.stage.Failing?
    ensures OwnImage(DoRecordFailure(s)) == OwnImage(s)
  {}

  lemma GoLiveImage(s: State)
    requires s.activity.Busy? && s.activity.stage.Committed?
    ensures OwnImage(DoGoLive(s)) == OwnImage(s)
  {}

  lemma WorldImage(s: State, w: WorldStep)
    requires WorldEnabled(s, w) && s.activity.Busy?
    requires OwnRow(s).Some? ==> OwnRow(s).value in s.db.releases && s.db.releases[OwnRow(s).value].app == s.app
    ensures OwnImage(NextWorld(s, w)) == OwnImage(s)
  {
    WorldOwnRow(s, w);
  }

  lemma CreatedImage(s: State, id: nat, written: bool)
    requires s.activity.Busy? && s.activity.stage.Prepared? && id !in s.db.releases
    ensures OwnImage(DoCreateRow(s, id, written)) == "" || OwnImage(DoCreateRow(s, id, written)) ==
        s.activity.stage.n.content.image
  {
    CreatedOwnRow(s, id, written);
  }

  lemma EarlyImage(s: State, d: EarlyStep)
    requires EarlyEnabled(s, d) && s.activity.cmd.Push?
    requires s.activity.stage.Prepared? ==> s.activity.stage.n.content.image == ""
    ensures var now := OwnImage(NextEarly(s, d)); now == "" || now == OwnImage(s) || d == BuildEnds(Some(now))
  {
    match d
    case CreateRow(id, written) => CreatedImage(s, id, written);
    case BuildEnds(image) => BuiltImage(s, image);
    case RecordFailure => FailedImage(s);
    case _ =>
  }

  lemma LateImage(s: State, l: LateStep)
    requires LateEnabled(s, l) && !l.Finish?
    ensures OwnImage(NextLate(s, l)) == OwnImage(s)
  {
    match l case GoLive => GoLiveImage(s); case _ =>
  }

  lemma ImageStep(start: State, s: State, e: Event)
    requires s.up && s.activity.Busy? && s.activity.cmd.Push? && AsAsked(start, s)
    requires Enabled(s, e) && Next(s, e).activity.Busy?
    ensures var now := OwnImage(Next(s, e)); now == "" || now == OwnImage(s) || e == Early(BuildEnds(Some(now)))
  {
    match e
    case World(w) => WorldImage(s, w);
    case Early(d) => EarlyImage(s, d);
    case Late(l) => LateImage(s, l);
    case Act(a) => assert false;
    case Down(c) => assert false;
  }

  lemma ImageAt(start: State, states: seq<State>, events: seq<Event>, i: nat)
    requires IsRun(states, events) && i < |events| && states[i].activity.Busy? && states[i].activity.cmd.Push?
    requires AsAsked(start, states[i]) && states[i + 1].activity.Busy?
    ensures states[i + 1].activity.cmd == states[i].activity.cmd
    ensures var now := OwnImage(states[i + 1]);
      now == "" || now == OwnImage(states[i]) || events[i] == Early(BuildEnds(Some(now)))
  {
    RunStep(states, events, i);
    BusyIsUp(states[i]);
    ImageStep(start, states[i], events[i]);
    CommandStays(states[i], events[i]);
  }

  lemma CommandStays(s: State, e: Event)
    requires s.up && s.activity.Busy? && Enabled(s, e) && Next(s, e).activity.Busy?
    ensures Next(s, e).activity.cmd == s.activity.cmd
  {
    match e
    case World(w) => WorldOwnRow(s, w);
    case Early(d) => EarlyCommand(s, d);
    case Late(l) => LateCommand(s, l);
    case Act(a) => assert false;
    case Down(c) => assert false;
  }

  lemma LateCommand(s: State, l: LateStep)
    requires LateEnabled(s, l) && !l.Finish?
    ensures NextLate(s, l).activity.Busy? && NextLate(s, l).activity.cmd == s.activity.cmd
  {
    match l case SwapRoute => case Commit => case GoLive =>
  }

  lemma EarlyCommand(s: State, d: EarlyStep)
    requires EarlyEnabled(s, d)
    ensures NextEarly(s, d).activity.Busy? && NextEarly(s, d).activity.cmd == s.activity.cmd
  {
    match d case CreateRow(_, _) => case BuildEnds(_) => case _ =>
  }

  /** What a push runs is what was built for it: the image in its row is none, or one that the
      builder has answered with since the command was taken. */
  lemma {:induction false} PushRunsWhatWasBuilt(states: seq<State>, events: seq<Event>, i: nat, j: nat)
    requires IsRun(states, events) && i < j < |states|
    requires events[i].Act? && events[i].a.Take? && events[i].a.cmd.Push?
    requires forall k | i < k <= j :: states[k].activity.Busy?
    ensures states[j].activity.cmd == events[i].a.cmd
    ensures OwnImage(states[j]) == "" || WasBuilt(events, i, j, OwnImage(states[j]))
  {
    if i + 1 == j {
      RunStep(states, events, i);
    } else {
      PushRunsWhatWasBuilt(states, events, i, j - 1);
      ImageSince(states, events, i, j);
      BuiltSoFar(events, i, j, OwnImage(states[j - 1]), OwnImage(states[j]));
    }
  }

  lemma ImageSince(states: seq<State>, events: seq<Event>, i: nat, j: nat)
    requires IsRun(states, events) && i + 1 < j < |states| && BeginsDeploy(events[i])
    requires forall k | i < k <= j :: states[k].activity.Busy?
    requires states[j - 1].activity.cmd.Push?
    ensures states[j].activity.cmd == states[j - 1].activity.cmd
    ensures var now := OwnImage(states[j]);
      now == "" || now == OwnImage(states[j - 1]) || events[j - 1] == Early(BuildEnds(Some(now)))
  {
    RowIsAsAsked(states, events, i, j - 1);
    ImageAt(states[i], states, events, j - 1);
  }

  lemma BuiltSoFar(events: seq<Event>, i: nat, j: nat, was: string, now: string)
    requires i + 1 < j <= |events| && (was == "" || WasBuilt(events, i, j - 1, was))
    requires now == "" || now == was || events[j - 1] == Early(BuildEnds(Some(now)))
    ensures now == "" || WasBuilt(events, i, j, now)
  {
    if now != "" {
      if now == was { StillBuilt(events, i, j - 1, now); } else { assert BuiltAt(events, now, j - 1); }
    }
  }
}
