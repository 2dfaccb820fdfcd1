/**
  What every reachable state of the lifecycle keeps, one predicate per store of truth,
  and the proof that each step keeps it.
 */
module LifecycleInvariant {
  import opened Wrappers
  import opened Releases
  import opened Backoff
  import opened Lifecycle

  // ------------------------------------------------------------------ the rows

  ghost predicate RowsInv(s: State) { Sound(s.db) && s.app in s.db.apps }

  /** What an instance runs is what its row says. */
  predicate RunsItsRow(db: Tables, app: nat, inst: Instance) {
    && inst.row in db.releases
    && var row := db.releases[inst.row];
       row.app == app && row.version == inst.version && row.content == inst.content && row.status != Building
  }

  ghost predicate InstancesInv(s: State) {
    forall id | id in s.instances :: id in s.started && RunsItsRow(s.db, s.app, s.instances[id])
  }

  /** A rollback's row has the content of the release it names, an older one. */
  ghost predicate RollbackOf(db: Tables, app: nat, content: Content, version: nat) {
    exists id :: IsVersion(db, app, version, id) && db.releases[id].content == content
        && db.releases[id].status != Building
                 && content.image != ""
  }

  // ---------------------------------------------------------------- the deploy

  /** The actor's copy of the row is the row. */
  predicate RowIs(s: State, rel: Release) {
    rel.id in s.db.releases && s.db.releases[rel.id] == rel && rel.app == s.app
  }

  predicate CanStart(s: State, rel: Release)
    requires s.activity.Busy?
  {
    && RowIs(s, rel) && rel.content.image != ""
    && rel.status == (if s.activity.cmd.Restart? then Live else Starting)
  }

  predicate CandidateOf(s: State, rel: Release, cand: InstanceId) {
    cand in s.instances && s.instances[cand].row == rel.id && s.instances[cand].content == rel.content
  }

  /** A verdict of no leaves the row failed; of yes, live, and the one before it superseded. */
  predicate VerdictOk(s: State, ok: bool, done: Option<Release>)
    requires s.activity.Busy?
  {
    var pre := s.activity.pre;
    && (ok ==> done.Some?)
    && (done.Some? ==> done.value.id in s.db.releases && s.db.releases[done.value.id].app == s.app)
    && (done.Some? && !s.activity.cmd.Restart? ==>
          s.db.releases[done.value.id].status == if ok then Live else Status.Failed)
    && (ok && !s.activity.cmd.Restart? && pre.live.Some? ==>
          pre.live.value in s.db.releases && s.db.releases[pre.live.value].app == s.app
          && s.db.releases[pre.live.value].status == Superseded)
    && (ok && s.activity.cmd.Restart? ==> pre.live == Some(done.value.id))
  }

  /** Every store call the deploy will make starts from a legal status. */
  predicate StageOk(s: State)
    requires s.activity.Busy?
  {
    match s.activity.stage
    case Prepared(_) => !s.activity.cmd.Restart?
    case Created(rel) => RowIs(s, rel) && rel.status == Building && !s.activity.cmd.Restart?
    case Launching(rel) => CanStart(s, rel)
    case Probing(rel, cand) => CanStart(s, rel) && CandidateOf(s, rel, cand)
    case Healthy(rel, cand) => CanStart(s, rel) && CandidateOf(s, rel, cand)
    case Dropping(rel, cand) => CanStart(s, rel) && CandidateOf(s, rel, cand)
    case Failing(rel) => RowIs(s, rel) && (if s.activity.cmd.Restart? then rel.status == Live else Open(rel.status))
    case Routed(rel, cand) => CanStart(s, rel) && CandidateOf(s, rel, cand)
    case Committed(rel) => CanStart(s, rel) && !s.activity.cmd.Restart?
    case Replied(ok, done) => VerdictOk(s, ok, done)
  }

  ghost predicate StageInv(s: State) { s.activity.Busy? ==> StageOk(s) }

  /** What the app was served with, except that a Destroy that had found no actor may have
      removed the route. */
  ghost predicate AsBefore(s: State, pre: Snapshot) {
    s.current == pre.current && LiveId(s) == pre.live && (s.route == pre.route || (s.dropped && s.route.None?))
  }

  /** Until the route moves nothing of what was served has changed. */
  ghost predicate PreInv(s: State) {
    s.activity.Busy? ==>
      match s.activity.stage
      case Routed(_, _) => s.current == s.activity.pre.current && LiveId(s) == s.activity.pre.live
      case Committed(_) => LiveId(s) == s.activity.pre.live
      case Replied(true, _) => true
      case _ => AsBefore(s, s.activity.pre)
  }

  // ------------------------------------------------------------- the instances

  /** The current instance counts until its container is removed. */
  function Serving(s: State): set<InstanceId> {
    if s.current.Some? && (!s.current.value.exited || s.activity.Reaping?) then {s.current.value.id} else {}
  }

  function Candidate(s: State): set<InstanceId> {
    if !s.activity.Busy? then {} else
      match s.activity.stage
      case Probing(_, cand) => {cand}
      case Healthy(_, cand) => {cand}
      case Dropping(_, cand) => {cand}
      case Routed(_, cand) => {cand}
      case _ => {}
  }

  /** Every container has exactly one owner: the current, the candidate, or a drain. */
  ghost predicate OwnedInv(s: State) {
    s.up ==>
      && s.instances.Keys == Serving(s) + Candidate(s) + s.draining.Keys
      && Serving(s) !! Candidate(s) && Serving(s) !! s.draining.Keys && Candidate(s) !! s.draining.Keys
      && (s.current.Some? ==> s.current.value.id in s.started
                              && (s.current.value.id in Serving(s) || s.current.value.id !in s.instances))
  }

  // ----------------------------------------------------- the route and the actor

  /** Route, actor and rows name the same release. */
  ghost predicate RouteInv(s: State) {
    && s.route == (if s.dropped then None else Served(s))
    && (s.dropped ==> Served(s).Some?)
    && (s.route.Some? ==> s.route.value in s.approved)
    && (s.activity.Busy? && (s.activity.stage.Healthy? || s.activity.stage.Routed?) ==>
         s.activity.stage.cand in s.approved)
    && (s.current.Some? ==>
          if s.activity.Busy? && s.activity.stage.Committed? then s.current.value.row == s.activity.stage.rel.id
          else LiveId(s) == Some(s.current.value.row))
    && (s.current.Some? && s.current.value.id in Serving(s) && s.current.value.id in s.instances ==>
          s.instances[s.current.value.id].row == s.current.value.row)
    && (s.activity.Reaping? ==> s.current.Some? && s.current.value.exited)
    && (s.activity.Busy? && s.activity.stage.Committed? ==> s.current.Some? && !s.current.value.exited)
    && (s.activity.Busy? && s.activity.stage.Replied? && s.activity.stage.ok && s.activity.stage.done.Some? ==>
          s.current.Some? && !s.current.value.exited && s.current.value.row == s.activity.stage.done.value.id)
  }

  // ---------------------------------------------------------------- crash handling

  predicate ScheduledRestart(s: State) {
    s.activity.Busy? && s.activity.cmd.Restart? && s.activity.cmd.scheduled
  }

  /** The pruned list is the window of the whole history. */
  ghost predicate HistoryInv(s: State) {
    && s.failures == After(s.history) && Ascending(s.history)
    && (s.history != [] ==> s.history[|s.history| - 1] <= s.now)
  }

  predicate Idle(s: State) { s.current.Some? && s.current.value.exited && !s.activity.Reaping? }

  /** The command ended before anything was written. */
  predicate Refused(stage: Stage) { stage.Replied? && stage.done.None? }

  /** A pending restart is for an instance that exited, after 1 to 9 failures. */
  predicate TimerInv(s: State) {
    && (s.retry.Some? ==>
          && Idle(s) && !ScheduledRestart(s) && s.failures != []
          && NextWait(s.failures) == Some(s.retry.value.delay)
          && s.retry.value.due == s.failures[|s.failures| - 1] + s.retry.value.delay)
    && (ScheduledRestart(s) ==>
          && s.current.Some?
          && ((s.activity.stage.Replied? && s.activity.stage.ok) || s.current.value.exited))
    && (s.activity.Busy? && s.activity.cmd.Restart? && s.activity.cmd.manual && !Refused(s.activity.stage) ==>
          s.history == [] && s.retry.None?)
  }

  /** The wait that the last failure earned is over. */
  predicate Rested(s: State)
    requires s.history != []
  {
    NextWait(s.failures).Some? && s.history[|s.history| - 1] + NextWait(s.failures).value <= s.now
  }

  /** Until a reset or a reconcile restart, no attempt is made before its wait is over, and
      none at all once the supervisor has given up. */
  ghost predicate GiveUpInv(s: State) {
    && (s.history == [] ==> s.intact)
    && (s.intact ==> Waited(s.history) && (s.history != [] && (!Idle(s) || ScheduledRestart(s)) ==> Rested(s)))
  }

  /** What is current and has not failed took over after the last failure. */
  predicate SinceInv(s: State) {
    s.since <= s.now && (s.current.Some? && !Idle(s) && s.history != [] ==> s.history[|s.history| - 1] <= s.since)
  }

  ghost predicate DrainInv(s: State) {
    0 <= s.drainGrace && forall id | id in s.draining :: s.draining[id] <= s.now
  }

  /** What a crash wipes out is empty until the daemon has recovered. */
  predicate DownInv(s: State) { !s.up ==> s == DoCrash(s) }

  ghost predicate PlanInv(s: State) {
    s.activity.Busy? && s.activity.stage.Prepared? && s.activity.stage.n.note.RolledBack? ==>
      RollbackOf(s.db, s.app, s.activity.stage.n.content, s.activity.stage.n.note.version)
  }

  ghost predicate RollbacksInv(s: State) {
    && (forall id | id in s.db.releases && s.db.releases[id].app == s.app && s.db.releases[id].note.RolledBack? ::
          RollbackOf(s.db, s.app, s.db.releases[id].content, s.db.releases[id].note.version)
          && s.db.releases[id].note.version < s.db.releases[id].version)
    && PlanInv(s)
  }

  ghost predicate DataInv(s: State) { RowsInv(s) && InstancesInv(s) && RollbacksInv(s) }

  ghost predicate DeployInv(s: State) { StageInv(s) && PreInv(s) && OwnedInv(s) && RouteInv(s) }

  ghost predicate CrashInv(s: State) {
    HistoryInv(s) && TimerInv(s) && GiveUpInv(s) && SinceInv(s) && DrainInv(s) && DownInv(s)
  }

  ghost predicate Inv(s: State) { DataInv(s) && DeployInv(s) && CrashInv(s) }
}
