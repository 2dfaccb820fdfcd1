/**
  One app's release lifecycle as a step system: the release rows, the route, the
  app's actor with its deploy in progress, the runtime's instances and the detached
  goroutines that stop replaced ones. A step is one effect; between any two steps
  time may pass, an instance may exit, a drain may end, or the daemon may crash.

  An instance is known by its runtime id, which also stands for the address the
  router dials, and a release by its row id.
 */
module Lifecycle {
  import opened Wrappers
  import opened Releases
  import opened Backoff

  type InstanceId = nat

  /** A container the runtime has created and not yet removed. `version` is its release
      label and `content` what it was started with; `row` is the row that was. */
  datatype Instance = Instance(row: nat, version: nat, content: Content, published: bool, running: bool)

  /** The instance the route points at, as the actor remembers it. */
  datatype Running = Running(id: InstanceId, row: nat, exited: bool)

  datatype Timer = Timer(delay: Time, due: Time)

  /** What a deploy starts from. A restart is `manual` when an operator asked for it and
      `scheduled` when the actor's own timer did; reconcile's is neither. */
  datatype Command =
    | Push(sha: string, manifest: string)
    | Redeploy(why: string)
    | Rollback(version: nat)
    | Restart(manual: bool, scheduled: bool)

  /** How far a deploy has come. `rel` is the actor's own copy of the row and `cand` the
      instance it has started. */
  datatype Stage =
    | Prepared(n: NewRelease)
    | Created(rel: Release)
    | Launching(rel: Release)
    | Probing(rel: Release, cand: InstanceId)
    | Healthy(rel: Release, cand: InstanceId)
    | Dropping(rel: Release, cand: InstanceId)
    | Failing(rel: Release)
    | Routed(rel: Release, cand: InstanceId)
    | Committed(rel: Release)
    | Replied(ok: bool, done: Option<Release>)

  /** What the app served and what its rows called live when the command was taken. */
  datatype Snapshot = Snapshot(route: Option<InstanceId>, current: Option<Running>, live: Option<nat>)

  datatype Activity =
    | Waiting
    | Busy(cmd: Command, pre: Snapshot, stage: Stage)
    | Reaping      // the current instance's exit was reported; its container is about to be removed
    | Destroying   // the route is gone; the instance is about to be stopped

  datatype State = State(
    app: nat,
    drainGrace: Time,
    now: Time,
    db: Tables,
    vars: string,                          // the app's config vars at present
    instances: map<InstanceId, Instance>,  // created and not removed
    started: set<InstanceId>,              // every id the runtime ever handed out
    up: bool,                              // the daemon runs and has reconciled
    closing: bool,                         // the daemon is shutting down
    route: Option<InstanceId>,
    current: Option<Running>,
    retry: Option<Timer>,
    failures: seq<Time>,
    activity: Activity,
    draining: map<InstanceId, Time>,       // retire goroutines, and when each began
    strays: nat,                           // Destroy calls that found no actor and have yet to remove the route
    // history variables: nothing the daemon does depends on them
    approved: set<InstanceId>,             // passed a health check or was adopted
    history: seq<Time>,                    // every failure since the last reset
    intact: bool,                          // no reconcile restart has gone live after any of them
    since: Time,                           // when the current instance took over
    dropped: bool)                         // such a Destroy has removed the route of what is served

  /** An instance as a runtime list reported it. */
  datatype Listed = Listed(id: InstanceId, version: nat, published: bool, running: bool)

  /** The world around the actor. */
  datatype WorldStep =
    | Tick(d: nat)
    | InstanceExits(id: InstanceId)
    | SetVars(vars: string)
    | OtherApps(db: Tables)
    | DrainEnds(id: InstanceId)
    | Shutdown
    | DestroyFindsNoActor
    | RouteRemoved

  /** A deploy up to its swap. */
  datatype EarlyStep =
    | CreateRow(id: nat, written: bool)
    | BuildEnds(image: Option<string>)
    | Launch(inst: Option<InstanceId>, published: bool)
    | ProbeEnds(passed: bool)
    | Withdraw
    | StopCandidate
    | RecordFailure

  /** The swap and the rest of a deploy. */
  datatype LateStep = SwapRoute | Commit | GoLive | Finish

  /** Commands, timers, exits and destruction. */
  datatype ActorStep =
    | Take(cmd: Command, refused: bool)
    | TimerFires(refused: bool)
    | ExitReport(id: InstanceId)
    | Reap
    | DestroyBegins
    | DestroyEnds

  /** The daemon goes and comes back. A recovery may itself be cut off. */
  datatype DownStep =
    | Crash
    | RecoveryCutOff(removed: set<InstanceId>, failed: set<nat>)
    | Recover(listing: seq<Listed>)

  datatype Event = World(w: WorldStep) | Early(d: EarlyStep) | Late(l: LateStep) | Act(a: ActorStep) | Down(c: DownStep)

  // ------------------------------------------------------------------ readings

  ghost function LiveId(s: State): Option<nat> {
    if s.app in s.db.apps then s.db.apps[s.app].live else None
  }

  ghost function Snap(s: State): Snapshot { Snapshot(s.route, s.current, LiveId(s)) }

  function At(s: State, stage: Stage): State
    requires s.activity.Busy?
  {
    s.(activity := s.activity.(stage := stage))
  }

  /** The instance the app is served from: the candidate once the route has moved to it,
      the actor's current one otherwise. */
  function Served(s: State): Option<InstanceId> {
    if s.activity.Destroying? then None
    else if s.activity.Busy? && s.activity.stage.Routed? then Some(s.activity.stage.cand)
    else if s.current.Some? then Some(s.current.value.id)
    else None
  }

  ghost predicate IsVersion(t: Tables, app: nat, v: nat, id: nat) {
    id in t.releases && t.releases[id].app == app && t.releases[id].version == v
  }

  /** ReleaseByVersion. */
  ghost function ByVersion(t: Tables, app: nat, v: nat): (r: Option<Release>)
    ensures r.Some? ==> exists id :: IsVersion(t, app, v, id) && t.releases[id] == r.value
    ensures r.None? ==> forall id :: !IsVersion(t, app, v, id)
  {
    if id :| IsVersion(t, app, v, id) then Some(t.releases[id]) else None
  }

  /** What the row of a new release is made of; None when the command is refused
      before there is a row. */
  ghost function Plan(s: State, cmd: Command): Option<NewRelease>
    requires !cmd.Restart?
  {
    match cmd
    case Push(sha, manifest) => Some(NewRelease(Content("", sha, s.vars, manifest), Pushed(sha)))
    case Redeploy(why) =>
      (match LiveRelease(s.db, s.app)
       case None => None
       case Some(live) => Some(NewRelease(live.content.(config := s.vars), Redeployed(why))))
    case Rollback(version) =>
      (match ByVersion(s.db, s.app, version)
       case None => None
       case Some(target) =>
         if target.content.image == "" || LiveId(s) == Some(target.id) then None
         else Some(NewRelease(target.content, RolledBack(version))))
  }

  // ------------------------------------------------------------------- a deploy

  /** Where a command leads before anything is written. `refused` is a read that failed:
      no such app, a manifest with a mistake in it, a caller already gone. */
  ghost function FirstStage(s: State, cmd: Command, refused: bool): Stage {
    if refused then Replied(false, None)
    else if cmd.Restart? then
      var live := LiveRelease(s.db, s.app);
      if live.Some? then Launching(live.value) else Replied(false, None)
    else
      var plan := Plan(s, cmd);
      if plan.Some? then Prepared(plan.value) else Replied(false, None)
  }

  /** The actor takes a command. A manual restart that can begin clears the failure history. */
  ghost function DoTake(s: State, cmd: Command, refused: bool): State {
    var stage := FirstStage(s, cmd, refused);
    var clear := cmd.Restart? && cmd.manual && stage.Launching?;
    s.(activity := Busy(cmd, Snap(s), stage),
       retry := if clear then None else s.retry,
       failures := if clear then [] else s.failures,
       history := if clear then [] else s.history,
       intact := clear || s.intact)
  }

  /** The actor's timer: the pending restart is cleared and the live release started. */
  ghost function DoTimer(s: State, refused: bool): State {
    DoTake(s.(retry := None), Restart(false, true), refused)
  }

  /** The row is written, or the write is refused or no longer wanted. */
  ghost function DoCreateRow(s: State, id: nat, written: bool): State
    requires s.activity.Busy? && s.activity.stage.Prepared?
  {
    var (db, r) := CreateRelease(s.db, s.app, s.activity.stage.n, id);
    var ok := written && r.Ok?;
    s.(db := if ok then db else s.db,
       activity := s.activity.(stage := if !ok then Replied(false, None)
                                        else if r.value.content.image == "" then Created(r.value)
                                        else Launching(r.value)))
  }

  /** The build ends with an image or without; an image is written to the row first. */
  ghost function DoBuildEnds(s: State, image: Option<string>): State
    requires s.activity.Busy? && s.activity.stage.Created?
  {
    var rel := s.activity.stage.rel;
    var built := image.Some? && MarkBuilt(s.db, rel.id, image.value).1.None?;
    s.(db := if built then MarkBuilt(s.db, rel.id, image.value).0 else s.db,
       activity := s.activity.(stage :=
         if built then Launching(rel.(content := rel.content.(image := image.value), status := Starting))
             else Failing(rel)))
  }

  /** The runtime starts an instance from the actor's copy of the row, or fails to. */
  ghost function DoLaunch(s: State, id: Option<InstanceId>, published: bool): State
    requires s.activity.Busy? && s.activity.stage.Launching?
  {
    var rel := s.activity.stage.rel;
    if id.None? then At(s, Failing(rel)) else
      s.(instances := s.instances[id.value := Instance(rel.id, rel.version, rel.content, published, true)],
         started := s.started + {id.value},
         activity := s.activity.(stage := Probing(rel, id.value)))
  }

  ghost function DoProbeEnds(s: State, passed: bool): State
    requires s.activity.Busy? && s.activity.stage.Probing?
  {
    var (rel, cand) := (s.activity.stage.rel, s.activity.stage.cand);
    s.(approved := if passed then s.approved + {cand} else s.approved,
       activity := s.activity.(stage := if passed then Healthy(rel, cand) else Dropping(rel, cand)))
  }

  /** The pusher has gone: the healthy candidate is given up. */
  ghost function DoWithdraw(s: State): State
    requires s.activity.Busy? && s.activity.stage.Healthy?
  {
    At(s, Dropping(s.activity.stage.rel, s.activity.stage.cand))
  }

  ghost function DoStopCandidate(s: State): State
    requires s.activity.Busy? && s.activity.stage.Dropping?
  {
    s.(instances := s.instances - {s.activity.stage.cand},
        activity := s.activity.(stage := Failing(s.activity.stage.rel)))
  }

  /** Only a row that this deploy has written is ended: a restart's is the live one. */
  ghost function DoRecordFailure(s: State): State
    requires s.activity.Busy? && s.activity.stage.Failing?
  {
    var rel := s.activity.stage.rel;
    s.(db := if s.activity.cmd.Restart? then s.db else MarkFailed(s.db, rel.id).0,
       activity := s.activity.(stage := Replied(false, Some(rel))))
  }

  ghost function DoSwapRoute(s: State): State
    requires s.activity.Busy? && s.activity.stage.Healthy?
  {
    s.(route := Some(s.activity.stage.cand), dropped := false,
       activity := s.activity.(stage := Routed(s.activity.stage.rel, s.activity.stage.cand)))
  }

  /** The actor's own fields follow the route, and the instance it moved away from is
      handed to a retire goroutine. */
  ghost function DoCommit(s: State): State
    requires s.activity.Busy? && s.activity.stage.Routed?
  {
    var (rel, cand, cmd) := (s.activity.stage.rel, s.activity.stage.cand, s.activity.cmd);
    var again := cmd.Restart?;
    s.(current := Some(Running(cand, rel.id, false)),
       since := s.now,
       retry := None,
       failures := if again then s.failures else [],
       history := if again then s.history else [],
       intact := !again || s.history == [] || (s.intact && (cmd.manual || cmd.scheduled)),
       draining := if s.current.Some? && !s.current.value.exited then s.draining[s.current.value.id := s.now]
           else s.draining,
       activity := Busy(cmd, s.activity.pre, if again then Replied(true, Some(rel)) else Committed(rel)))
  }

  ghost function DoGoLive(s: State): State
    requires s.activity.Busy? && s.activity.stage.Committed?
  {
    var rel := s.activity.stage.rel;
    s.(db := SetLive(s.db, s.app, rel.id).0, activity := s.activity.(stage := Replied(true, Some(rel))))
  }

  /** One failure more: the list is pruned and either a restart is scheduled or not. */
  ghost function CountFailure(s: State): State {
    var failures := AddFailure(s.failures, s.now);
    var wait := NextWait(failures);
    s.(failures := failures, history := s.history + [s.now],
       retry := if wait.Some? then Some(Timer(wait.value, s.now + wait.value)) else s.retry)
  }

  /** The verdict is delivered; a scheduled restart that did not come up is a failure. */
  ghost function DoFinish(s: State): State
    requires s.activity.Busy? && s.activity.stage.Replied?
  {
    var t := s.(activity := Waiting);
    if s.activity.cmd.Restart? && s.activity.cmd.scheduled && !s.activity.stage.ok then CountFailure(t) else t
  }

  // --------------------------------------------------------- exits and destruction

  /** A watcher's report matters only for the current instance, and once. */
  predicate Matters(s: State, id: InstanceId) {
    s.current.Some? && s.current.value.id == id && !s.current.value.exited
  }

  ghost function DoExitReport(s: State, id: InstanceId): State {
    if Matters(s, id) then s.(current := Some(s.current.value.(exited := true)), activity := Reaping) else s
  }

  ghost function DoReap(s: State): State
    requires s.current.Some?
  {
    CountFailure(s.(instances := s.instances - {s.current.value.id}, activity := Waiting))
  }

  ghost function DoDestroyBegins(s: State): State {
    s.(retry := None, route := None, dropped := false, activity := Destroying)
  }

  /** The actor's last act; a later command meets a fresh one. */
  ghost function DoDestroyEnds(s: State): State {
    s.(current := None, activity := Waiting, retry := None, failures := [], history := [], intact := true,
       instances := if s.current.Some? && !s.current.value.exited then s.instances - {s.current.value.id}
           else s.instances)
  }

  // -------------------------------------------------------------- crash and recovery

  /** What a crash leaves: the rows and the containers. */
  function DoCrash(s: State): State {
    s.(up := false, closing := false, route := None, current := None, retry := None, failures := [],
       activity := Waiting, draining := map[], strays := 0, approved := {}, history := [], intact := true,
           dropped := false)
  }

  /** The instance reconcile adopts: the first that is listed running with the live
      release's label and an address. */
  function Keep(listing: seq<Listed>, live: Option<Release>): (k: Option<InstanceId>)
    ensures k.Some? ==> live.Some? && exists i | 0 <= i < |listing| ::
      listing[i].id == k.value && listing[i].running && listing[i].published && listing[i].version == live.value.version
  {
    if live.None? || listing == [] then None
    else if listing[0].running && listing[0].version == live.value.version && listing[0].published
    then Some(listing[0].id)
    else Keep(listing[1..], live)
  }

  /** Reconcile for this app: keep one instance of the live release, remove every other
      that was listed, end every open row. */
  ghost function DoRecover(s: State, listing: seq<Listed>): State {
    var keep := Keep(listing, LiveRelease(s.db, s.app));
    var t := s.(up := true, db := FailOpen(s.db, s.db.releases.Keys),
                instances := map id | id in s.instances && Some(id) == keep :: s.instances[id]);
    match keep
    case None => t
    case Some(id) =>
      t.(route := Some(id), current := Some(Running(id, LiveId(s).value, false)), since := s.now, approved := {id})
  }

  /** A listing agrees with the runtime, except that an instance listed as running may
      have exited since. */
  ghost predicate ListingOf(s: State, listing: seq<Listed>) {
    && (forall i, j | 0 <= i < j < |listing| :: listing[i].id != listing[j].id)
    && (forall id | id in s.instances :: exists i | 0 <= i < |listing| :: listing[i].id == id)
    && (forall i | 0 <= i < |listing| ::
          && listing[i].id in s.instances
          && var inst := s.instances[listing[i].id];
             listing[i].version == inst.version && listing[i].published == inst.published
                 && (inst.running ==> listing[i].running))
  }

  /** Another app's statement leaves this app's rows alone. */
  ghost predicate OnlyOtherApps(s: State, db: Tables) {
    && Sound(db) && s.app in s.db.apps && s.app in db.apps && db.apps[s.app] == s.db.apps[s.app]
    && (forall id | id in s.db.releases && s.db.releases[id].app == s.app :: id in db.releases
         && db.releases[id] == s.db.releases[id])
    && (forall id | id in db.releases && db.releases[id].app == s.app :: id in s.db.releases
         && db.releases[id] == s.db.releases[id])
  }

  // ------------------------------------------------------------------ the system

  /** A Destroy finds no actor before the first command and after a destroy; it finds one that
      has retired after a destroy and after the daemon has begun to shut down. */
  ghost predicate WorldEnabled(s: State, w: WorldStep) {
    match w
    case Tick(_) => true
    case InstanceExits(id) => id in s.instances
    case SetVars(_) => true
    case OtherApps(db) => OnlyOtherApps(s, db)
    case DrainEnds(id) => id in s.draining && (s.closing || s.draining[id] + s.drainGrace <= s.now)
    case Shutdown => s.up
    case DestroyFindsNoActor => s.up && s.activity.Waiting? && (s.closing || s.current.None?)
    case RouteRemoved => s.up && s.strays > 0
  }

  ghost function NextWorld(s: State, w: WorldStep): State
    requires WorldEnabled(s, w)
  {
    match w
    case Tick(d) => s.(now := s.now + d)
    case InstanceExits(id) => s.(instances := s.instances[id := s.instances[id].(running := false)])
    case SetVars(vars) => s.(vars := vars)
    case OtherApps(db) => s.(db := db)
    case DrainEnds(id) => s.(instances := s.instances - {id}, draining := s.draining - {id})
    case Shutdown => s.(closing := true)
    case DestroyFindsNoActor => s.(strays := s.strays + 1)
    case RouteRemoved => s.(route := None, strays := s.strays - 1, dropped := Served(s).Some?)
  }

  ghost predicate EarlyEnabled(s: State, d: EarlyStep) {
    s.up && s.activity.Busy? &&
    match d
    case CreateRow(id, _) => s.activity.stage.Prepared? && id !in s.db.releases
    case BuildEnds(_) => s.activity.stage.Created?
    case Launch(inst, _) => s.activity.stage.Launching? && (inst.Some? ==> inst.value !in s.started)
    case ProbeEnds(_) => s.activity.stage.Probing?
    case Withdraw => s.activity.stage.Healthy?
    case StopCandidate => s.activity.stage.Dropping?
    case RecordFailure => s.activity.stage.Failing?
  }

  ghost function NextEarly(s: State, d: EarlyStep): State
    requires EarlyEnabled(s, d)
  {
    match d
    case CreateRow(id, written) => DoCreateRow(s, id, written)
    case BuildEnds(image) => DoBuildEnds(s, image)
    case Launch(inst, published) => DoLaunch(s, inst, published)
    case ProbeEnds(passed) => DoProbeEnds(s, passed)
    case Withdraw => DoWithdraw(s)
    case StopCandidate => DoStopCandidate(s)
    case RecordFailure => DoRecordFailure(s)
  }

  predicate LateEnabled(s: State, l: LateStep) {
    s.up && s.activity.Busy? &&
    match l
    case SwapRoute => s.activity.stage.Healthy?
    case Commit => s.activity.stage.Routed?
    case GoLive => s.activity.stage.Committed?
    case Finish => s.activity.stage.Replied?
  }

  ghost function NextLate(s: State, l: LateStep): State
    requires LateEnabled(s, l)
  {
    match l
    case SwapRoute => DoSwapRoute(s)
    case Commit => DoCommit(s)
    case GoLive => DoGoLive(s)
    case Finish => DoFinish(s)
  }

  /** The actor reads its channels only between commands. */
  predicate ActorEnabled(s: State, a: ActorStep) {
    s.up &&
    match a
    case Take(cmd, _) => s.activity.Waiting? && (cmd.Restart? ==> !cmd.scheduled)
    case TimerFires(_) => s.activity.Waiting? && s.retry.Some? && s.retry.value.due <= s.now
    case ExitReport(_) => s.activity.Waiting?
    case Reap => s.activity.Reaping? && s.current.Some?
    case DestroyBegins => s.activity.Waiting?
    case DestroyEnds => s.activity.Destroying?
  }

  ghost function NextActor(s: State, a: ActorStep): State
    requires ActorEnabled(s, a)
  {
    match a
    case Take(cmd, refused) => DoTake(s, cmd, refused)
    case TimerFires(refused) => DoTimer(s, refused)
    case ExitReport(id) => DoExitReport(s, id)
    case Reap => DoReap(s)
    case DestroyBegins => DoDestroyBegins(s)
    case DestroyEnds => DoDestroyEnds(s)
  }

  ghost predicate DownEnabled(s: State, c: DownStep) {
    match c
    case Crash => true
    case RecoveryCutOff(_, _) => !s.up
    case Recover(listing) => !s.up && ListingOf(s, listing)
  }

  ghost function NextDown(s: State, c: DownStep): State
    requires DownEnabled(s, c)
  {
    match c
    case Crash => DoCrash(s)
    case RecoveryCutOff(removed, failed) => s.(instances := s.instances - removed, db := FailOpen(s.db, failed))
    case Recover(listing) => DoRecover(s, listing)
  }

  ghost predicate Enabled(s: State, e: Event) {
    match e
    case World(w) => WorldEnabled(s, w)
    case Early(d) => EarlyEnabled(s, d)
    case Late(l) => LateEnabled(s, l)
    case Act(a) => ActorEnabled(s, a)
    case Down(c) => DownEnabled(s, c)
  }

  ghost function Next(s: State, e: Event): State
    requires Enabled(s, e)
  {
    match e
    case World(w) => NextWorld(s, w)
    case Early(d) => NextEarly(s, d)
    case Late(l) => NextLate(s, l)
    case Act(a) => NextActor(s, a)
    case Down(c) => NextDown(s, c)
  }

  /** A freshly created app under a running daemon. */
  ghost predicate Init(s: State) {
    && Sound(s.db) && s.app in s.db.apps && (forall id | id in s.db.releases :: s.db.releases[id].app != s.app)
    && 0 <= s.drainGrace
    && s.instances == map[] && s.up && !s.closing && s.route.None? && s.current.None? && s.retry.None?
    && s.failures == [] && s.activity.Waiting? && s.draining == map[] && s.approved == {} && s.history == [] && s.intact
    && s.strays == 0 && s.since <= s.now && !s.dropped
  }

  ghost predicate StepAt(states: seq<State>, events: seq<Event>, i: nat)
    requires i + 1 < |states| && i < |events|
  {
    Enabled(states[i], events[i]) && states[i + 1] == Next(states[i], events[i])
  }

  /** A run: one more state than events, each reached by its event. */
  ghost predicate IsRun(states: seq<State>, events: seq<Event>) {
    && |states| == |events| + 1
    && Init(states[0])
    && forall i | 0 <= i < |events| :: StepAt(states, events, i)
  }
}
