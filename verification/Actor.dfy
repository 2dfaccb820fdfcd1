/**
  The actor as the program it is: one object per app that acts on
  the store, the router and the runtime, statement by statement. `Valid` says that every
  execution, whatever the rest of the daemon does between two statements, is a run of
  the step system; the promises of `Handle` are read off the system's theorems.
 */
module Actor {
  import opened Wrappers
  import opened Releases
  import opened Backoff
  import opened Lifecycle
  import opened LifecycleInvariant
  import opened LifecycleSteps
  import opened LifecycleDeploys
  import opened LifecyclePlans
  import opened LifecycleRows
  import Store

  /** The routing table: a map that is replaced whole, so a request keeps the one it loaded. */
  class Router {
    var table: map<string, InstanceId>

    method Set(host: string, id: InstanceId)
      modifies this
      ensures table == old(table)[host := id]
    {
      table := table[host := id];
    }

    method Remove(host: string)
      modifies this
      ensures table == old(table) - {host}
    {
      if host !in table { return; }
      table := table - {host};
    }
  }

  /** The runtime's contract: ids are never reused and Stop removes what is there. */
  class Runtime {
    var instances: map<InstanceId, Instance>
    var started: set<InstanceId>

    method Start(rel: Release) returns (inst: Option<InstanceId>, published: bool)
      modifies this
      ensures inst.None? ==> unchanged(this)
      ensures inst.Some? ==>
        && inst.value !in old(started) && started == old(started) + {inst.value}
        && instances == old(instances)[inst.value := Instance(rel.id, rel.version, rel.content, published, true)]
    {
      var fails: bool := *;
      published := *;
      if fails { return None, published; }
      var id := Store.NextId(started);
      instances := instances[id := Instance(rel.id, rel.version, rel.content, published, true)];
      started := started + {id};
      inst := Some(id);
    }

    method Stop(id: InstanceId)
      modifies this`instances
      ensures instances == old(instances) - {id}
    {
      instances := instances - {id};
    }
  }

  // What the actor has lived through: the states and, between them, the events.

  ghost predicate GoodAt(states: seq<State>, i: nat)
    requires i < |states|
  {
    Inv(states[i])
  }

  ghost predicate IsTrace(states: seq<State>, events: seq<Event>) {
    && |states| == |events| + 1
    && (forall i | 0 <= i < |states| :: GoodAt(states, i))
    && (forall i | 0 <= i < |events| :: StepAt(states, events, i))
  }

  lemma TraceStep(states: seq<State>, events: seq<Event>, e: Event)
    requires IsTrace(states, events) && Enabled(states[|events|], e)
    ensures IsTrace(states + [Next(states[|events|], e)], events + [e])
  {
    var n := |events|;
    var (states', events') := (states + [Next(states[n], e)], events + [e]);
    assert GoodAt(states, n);
    StepKeepsInvariant(states[n], e);
    forall i | 0 <= i < |states'| ensures GoodAt(states', i) {
      if i < |states| { assert GoodAt(states, i); }
    }
    forall i | 0 <= i < |events'| ensures StepAt(states', events', i) {
      if i < n { assert StepAt(states, events, i); }
    }
  }

  /** The deploy in progress in state n began in state m. */
  ghost predicate BeganAt(states: seq<State>, events: seq<Event>, begun: State, m: nat, n: nat) {
    && m < n <= |events| < |states| && states[m] == begun && BeginsDeploy(events[m])
    && forall k: nat | m < k <= n :: states[k].activity.Busy?
  }

  ghost predicate Began(states: seq<State>, events: seq<Event>, begun: State, n: nat) {
    exists m: nat :: BeganAt(states, events, begun, m, n)
  }

  /** Event k went wrong for the deploy that began in state m. */
  ghost predicate CauseAt(states: seq<State>, events: seq<Event>, begun: State, m: nat, k: nat) {
    && m <= k < |events| < |states| && states[m] == begun && BeginsDeploy(events[m])
    && (forall x: nat | m < x <= k :: states[x].activity.Busy?) && IsCause(events[k])
  }

  ghost predicate CauseSince(states: seq<State>, events: seq<Event>, begun: State) {
    exists m: nat, k: nat :: CauseAt(states, events, begun, m, k)
  }

  lemma CauseStays(states: seq<State>, events: seq<Event>, states': seq<State>, events': seq<Event>, begun: State)
    requires CauseSince(states, events, begun) && states <= states' && events <= events' && |events'| < |states'|
    ensures CauseSince(states', events', begun)
  {
    var m: nat, k: nat :| CauseAt(states, events, begun, m, k);
    assert CauseAt(states', events', begun, m, k);
  }

  /** `s` is where the trace has led, and a deploy in progress began at `begun`. */
  ghost predicate FollowsTo(states: seq<State>, events: seq<Event>, begun: State, s: State, n: nat) {
    && IsTrace(states, events) && n == |events| && states[n] == s
    && (s.activity.Busy? ==> Deploying(begun, s) && Began(states, events, begun, n))
  }

  /** The same; the quantifier keeps the prover from looking inside where it need not. */
  ghost predicate Follows(states: seq<State>, events: seq<Event>, begun: State, s: State) {
    forall n | n == |events| :: FollowsTo(states, events, begun, s, n)
  }

  lemma FollowsGood(states: seq<State>, events: seq<Event>, begun: State, s: State)
    requires Follows(states, events, begun, s)
    ensures Inv(s) && (s.activity.Busy? ==> Deploying(begun, s))
  {
    assert FollowsTo(states, events, begun, s, |events|);
    assert GoodAt(states, |events|);
  }

  lemma NoTimerWhileReaping(states: seq<State>, events: seq<Event>, begun: State, s: State)
    requires Follows(states, events, begun, s) && s.activity.Reaping?
    ensures s.retry.None?
  {
    FollowsGood(states, events, begun, s);
  }

  /** All that a push, redeploy or rollback was to do. */
  ghost predicate AllOfIt(start: State, cmd: Command, s: State) {
    (exists rel :: AllHappened(start, s, rel)) && HoldsWhatWasAsked(start, cmd, s)
  }

  /** A verdict is about rows, route and current, whatever else has moved. */
  predicate SameServed(s: State, t: State) {
    && t.app == s.app && t.db == s.db && t.route == s.route && t.current == s.current && t.instances == s.instances
    && Served(t) == Served(s)
  }

  lemma SameForTheApp(start: State, s: State, t: State)
    requires SameServed(s, t)
    ensures NothingHappened(start, s) ==> NothingHappened(start, t)
    ensures RestartHappened(start, s) ==> RestartHappened(start, t)
  {}

  lemma SameAllOfIt(start: State, cmd: Command, s: State, t: State)
    requires SameServed(s, t)
    ensures AllOfIt(start, cmd, s) ==> AllOfIt(start, cmd, t)
  {
    if AllOfIt(start, cmd, s) {
      var rel :| AllHappened(start, s, rel);
      SameAll(start, s, t, rel);
    }
  }

  lemma SameAll(start: State, s: State, t: State, rel: Release)
    requires SameServed(s, t) && AllHappened(start, s, rel)
    ensures AllHappened(start, t, rel)
  {}

  /** Between commands an app with nothing current has nothing but what drains. */
  lemma NothingLeft(states: seq<State>, events: seq<Event>, begun: State, s: State)
    requires Follows(states, events, begun, s) && s.up && s.activity.Waiting? && s.current.None?
    ensures s.route.None? && s.instances.Keys == s.draining.Keys
  {
    FollowsGood(states, events, begun, s);
    assert Serving(s) == {} && Candidate(s) == {};
  }

  lemma PlanAsAsked(states: seq<State>, events: seq<Event>, begun: State, s: State, cmd: Command)
    requires Follows(states, events, begun, s) && !cmd.Restart?
    ensures PlannedFrom(s, cmd, Plan(s, cmd))
  {
    FollowsGood(states, events, begun, s);
    PlanIsPlanned(s, cmd);
  }

  lemma FollowsSound(states: seq<State>, events: seq<Event>, begun: State, s: State)
    requires Follows(states, events, begun, s)
    ensures Sound(s.db)
  {
    FollowsGood(states, events, begun, s);
  }

  lemma ForeignRows(states: seq<State>, events: seq<Event>, begun: State, s: State, op: Store.Operation)
    requires Follows(states, events, begun, s) && Store.Possible(s.db, op) && Store.Foreign(s.db, s.app, op)
    ensures OnlyOtherApps(s, Store.Apply(s.db, op))
  {
    FollowsGood(states, events, begun, s);
    Store.OperationKeepsSound(s.db, op);
    Store.ForeignLeavesRows(s.db, s.app, op);
  }

  lemma FollowsStep(states: seq<State>, events: seq<Event>, begun: State, s: State, e: Event)
    requires Follows(states, events, begun, s) && Enabled(s, e) && (Next(s, e).activity.Busy? ==> s.activity.Busy?)
    ensures Follows(states + [Next(s, e)], events + [e], begun, Next(s, e))
  {
    assert FollowsTo(states, events, begun, s, |events|);
    TraceStep(states, events, e);
    if Next(s, e).activity.Busy? {
      BusyFollows(states, events, begun, s, e);
      BeganStays(states, events, begun, Next(s, e), e);
    }
    FollowsEnd(states, events, begun, Next(s, e), e);
  }

  lemma BeganStays(states: seq<State>, events: seq<Event>, begun: State, t: State, e: Event)
    requires |states| == |events| + 1 && Began(states, events, begun, |events|) && t.activity.Busy?
    ensures Began(states + [t], events + [e], begun, |events| + 1)
  {
    var m: nat :| BeganAt(states, events, begun, m, |events|);
    assert BeganAt(states + [t], events + [e], begun, m, |events| + 1);
  }

  lemma FollowsEnd(states: seq<State>, events: seq<Event>, begun: State, t: State, e: Event)
    requires IsTrace(states + [t], events + [e])
    requires t.activity.Busy? ==> Deploying(begun, t) && Began(states + [t], events + [e], begun, |events| + 1)
    ensures Follows(states + [t], events + [e], begun, t)
  {
    assert (states + [t])[|events| + 1] == t;
  }

  lemma BusyFollows(states: seq<State>, events: seq<Event>, begun: State, s: State, e: Event)
    requires Follows(states, events, begun, s) && Enabled(s, e) && s.activity.Busy? && Next(s, e).activity.Busy?
    ensures Deploying(begun, Next(s, e))
  {
    FollowsGood(states, events, begun, s);
    DeployingStep(begun, s, e);
  }

  lemma FollowsNothing(s: State)
    requires Inv(s) && !s.activity.Busy?
    ensures Follows([s], [], s, s)
  {
    assert GoodAt([s], 0);
  }

  lemma FollowsTake(states: seq<State>, events: seq<Event>, begun: State, s: State, cmd: Command, refused: bool)
    requires Follows(states, events, begun, s) && ActorEnabled(s, Take(cmd, refused))
    ensures var t := DoTake(s, cmd, refused); Follows(states + [t], events + [Act(Take(cmd, refused))], s, t)
  {
    FollowsGood(states, events, begun, s);
    TakeDeploying(s, cmd, refused);
    FollowsAnew(states, events, begun, s, Act(Take(cmd, refused)));
  }

  lemma FollowsTimer(states: seq<State>, events: seq<Event>, begun: State, s: State, refused: bool)
    requires Follows(states, events, begun, s) && ActorEnabled(s, TimerFires(refused))
    ensures var t := DoTimer(s, refused); Follows(states + [t], events + [Act(TimerFires(refused))], s, t)
  {
    FollowsGood(states, events, begun, s);
    TimerDeploying(s, refused);
    FollowsAnew(states, events, begun, s, Act(TimerFires(refused)));
  }

  lemma FollowsAnew(states: seq<State>, events: seq<Event>, begun: State, s: State, e: Event)
    requires Follows(states, events, begun, s) && Enabled(s, e) && Deploying(s, Next(s, e)) && BeginsDeploy(e)
    ensures Follows(states + [Next(s, e)], events + [e], s, Next(s, e))
  {
    assert FollowsTo(states, events, begun, s, |events|);
    TraceStep(states, events, e);
    assert BeganAt(states + [Next(s, e)], events + [e], s, |events|, |events| + 1);
    FollowsEnd(states, events, s, Next(s, e), e);
  }

  /** A verdict of no has a cause, after the deploy began. */
  lemma CauseOfNo(states: seq<State>, events: seq<Event>, begun: State, s: State)
    requires Follows(states, events, begun, s)
    requires s.activity.Busy? && s.activity.stage.Replied? && !s.activity.stage.ok
    ensures CannotBegin(begun, s.activity.cmd) || CauseSince(states, events, begun)
  {
    var n := |events|;
    assert FollowsTo(states, events, begun, s, n);
    var m: nat :| BeganAt(states, events, begun, m, n);
    TraceSince(states, events, m, n);
    if CauseIn(events, m, n) {
      var k: nat :| m <= k < n && IsCause(events[k]);
      assert CauseAt(states, events, begun, m, k);
    } else {
      WellUnlessCause(states, events, m, n);
    }
  }

  lemma TraceSince(states: seq<State>, events: seq<Event>, m: nat, n: nat)
    requires IsTrace(states, events) && m < n <= |events| && BeginsDeploy(events[m])
    requires forall k: nat | m < k <= n :: states[k].activity.Busy?
    ensures Since(states, events, m, n)
  {
    forall k: nat | m <= k < n ensures Good(states, events, k) {
      assert GoodAt(states, k) && StepAt(states, events, k);
    }
  }

  class Actor {
    const app: nat
    const host: string
    const drainGrace: Time
    const store: Store.Store
    const router: Router
    const runtime: Runtime

    var now: Time
    var vars: string
    var closing: bool
    var current: Option<Running>
    var retry: Option<Timer>
    var failures: seq<Time>
    var draining: map<InstanceId, Time>
    var strays: nat

    ghost var activity: Activity
    ghost var approved: set<InstanceId>
    ghost var history: seq<Time>
    ghost var intact: bool
    ghost var since: Time
    ghost var dropped: bool
    ghost var states: seq<State>
    ghost var events: seq<Event>
    ghost var begun: State

    ghost function Route(): Option<InstanceId>
      reads this, router
    {
      if host in router.table then Some(router.table[host]) else None
    }

    ghost function S(): State
      reads this, store, router, runtime
    {
      State(app, drainGrace, now, store.Rows(), vars, runtime.instances, runtime.started, true, closing, Route(),
            current, retry, failures, activity, draining, strays, approved, history, intact, since, dropped)
    }

    /** What the failure handling remembers. */
    ghost function Counted(): (seq<Time>, seq<Time>, bool)
      reads this
    {
      (failures, history, intact)
    }

    ghost predicate Valid()
      reads this, store, router, runtime
    {
      forall s | s == S() :: Follows(states, events, begun, s)
    }

    /** An actor for an app whose state a recovery, or the app's creation, has left. */
    constructor (begin: State, host: string, store: Store.Store, router: Router, runtime: Runtime)
      requires Inv(begin) && begin.up && begin.activity.Waiting?
      requires store.Rows() == begin.db && runtime.instances == begin.instances && runtime.started == begin.started
      requires begin.route == if host in router.table then Some(router.table[host]) else None
      ensures Valid() && S() == begin
      ensures this.store == store && this.router == router && this.runtime == runtime && this.host == host
    {
      FollowsNothing(begin);
      app, this.host, drainGrace := begin.app, host, begin.drainGrace;
      this.store, this.router, this.runtime := store, router, runtime;
      now, vars, closing := begin.now, begin.vars, begin.closing;
      current, retry, failures, draining := begin.current, begin.retry, begin.failures, begin.draining;
      activity, approved, history, intact := begin.activity, begin.approved, begin.history, begin.intact;
      strays, since, dropped := begin.strays, begin.since, begin.dropped;
      states, events, begun := [begin], [], begin;
    }

    /** Records that the statements since `s` were one step. */
    ghost method Note(s: State, e: Event)
      requires Follows(states, events, begun, s) && Enabled(s, e) && S() == Next(s, e)
          && (activity.Busy? ==> s.activity.Busy?)
      modifies this`states, this`events
      ensures Valid() && states == old(states) + [S()] && events == old(events) + [e]
    {
      FollowsStep(states, events, begun, s, e);
      states, events := states + [S()], events + [e];
    }

    ghost method NoteEarly(s: State, d: EarlyStep)
      requires Follows(states, events, begun, s) && EarlyEnabled(s, d) && S() == NextEarly(s, d)
      modifies this`states, this`events
      ensures Valid()
    {
      Note(s, Early(d));
    }

    ghost method NoteLate(s: State, l: LateStep)
      requires Follows(states, events, begun, s) && LateEnabled(s, l) && S() == NextLate(s, l)
      modifies this`states, this`events
      ensures Valid() && states == old(states) + [S()] && events == old(events) + [Late(l)]
    {
      Note(s, Late(l));
    }

    ghost method NoteActor(s: State, a: ActorStep)
      requires Follows(states, events, begun, s) && ActorEnabled(s, a) && S() == NextActor(s, a) && !activity.Busy?
      modifies this`states, this`events
      ensures Valid()
    {
      Note(s, Act(a));
    }

    /** Records that the statements since `s` took a command. */
    ghost method NoteTake(s: State, cmd: Command, refused: bool)
      requires Follows(states, events, begun, s) && s.up && s.activity.Waiting? && (cmd.Restart? ==> !cmd.scheduled)
      requires S() == DoTake(s, cmd, refused)
      modifies this`states, this`events, this`begun
      ensures Valid() && begun == s
    {
      FollowsTake(states, events, begun, s, cmd, refused);
      states, events, begun := states + [S()], events + [Act(Take(cmd, refused))], s;
    }

    /** Records that since `s` the timer has fired. */
    ghost method NoteTimer(s: State, refused: bool)
      requires Follows(states, events, begun, s) && ActorEnabled(s, TimerFires(refused)) && S() == DoTimer(s, refused)
      modifies this`states, this`events, this`begun
      ensures Valid() && begun == s
    {
      FollowsTimer(states, events, begun, s, refused);
      states, events, begun := states + [S()], events + [Act(TimerFires(refused))], s;
    }

    // ---------------------------------------------------------------- the world

    /** Between two statements the rest of the daemon runs: time passes, instances exit,
        drains end, other apps run any statement on their own rows, config changes, a shutdown
        begins, a Destroy that has found no actor removes the route, in any order and number.
        None of it touches the actor's own fields. */
    method Yield()
      requires Valid()
      modifies this`now, this`vars, this`closing, this`strays, this`dropped, this`draining, this`states, this`events,
               store, router, runtime`instances
      ensures Valid()
    {
      var turns: nat := *;
      while turns > 0
        invariant Valid()
      {
        var who: int := *;
        var id: InstanceId := *;
        if who == 0 {
          var d: nat := *;
          PassTime(d);
        } else if who == 1 {
          LetExit(id);
        } else if who == 2 {
          EndDrain(id);
        } else if who == 3 {
          var text: string := *;
          ChangeConfig(text);
        } else if who == 4 {
          BeginShutdown();
        } else if who == 5 {
          RemoveRoute();
        } else {
          var op: Store.Operation := *;
          OtherAppActs(op);
        }
        turns := turns - 1;
      }
    }

    ghost method NoteWorld(s: State, w: WorldStep)
      requires Follows(states, events, begun, s) && WorldEnabled(s, w) && S() == NextWorld(s, w)
          && activity == s.activity
      modifies this`states, this`events
      ensures Valid()
    {
      Note(s, World(w));
    }

    method PassTime(d: nat)
      requires Valid()
      modifies this`now, this`states, this`events
      ensures Valid() && now == old(now) + d
    {
      ghost var s := S();
      assert Follows(states, events, begun, s);
      now := now + d;
      NoteWorld(s, Tick(d));
    }

    method LetExit(id: InstanceId)
      requires Valid()
      modifies this`states, this`events, runtime`instances
      ensures Valid() && runtime.instances.Keys == old(runtime.instances.Keys)
    {
      if id !in runtime.instances { return; }
      ghost var s := S();
      assert Follows(states, events, begun, s);
      runtime.instances := runtime.instances[id := runtime.instances[id].(running := false)];
      NoteWorld(s, InstanceExits(id));
    }

    /** The detached half of retire: once the drain grace is over, or the daemon shuts down,
        the instance is stopped. */
    method EndDrain(id: InstanceId)
      requires Valid()
      modifies this`draining, this`states, this`events, runtime`instances
      ensures Valid()
      ensures if id in old(draining) && (closing || old(draining)[id] + drainGrace <= now)
              then draining == old(draining) - {id} && runtime.instances == old(runtime.instances) - {id}
              else draining == old(draining) && runtime.instances == old(runtime.instances)
    {
      if id !in draining || !(closing || draining[id] + drainGrace <= now) { return; }
      ghost var s := S();
      assert Follows(states, events, begun, s);
      runtime.Stop(id);
      draining := draining - {id};
      NoteWorld(s, DrainEnds(id));
    }

    method ChangeConfig(text: string)
      requires Valid()
      modifies this`vars, this`states, this`events
      ensures Valid() && vars == text
    {
      ghost var s := S();
      assert Follows(states, events, begun, s);
      vars := text;
      NoteWorld(s, SetVars(text));
    }

    method BeginShutdown()
      requires Valid()
      modifies this`closing, this`states, this`events
      ensures Valid() && closing
    {
      ghost var s := S();
      assert Follows(states, events, begun, s);
      closing := true;
      NoteWorld(s, Shutdown);
    }

    /** The first half of a Destroy that finds no actor for the app, or a retired one. */
    method LookForActor()
      requires Valid() && activity.Waiting? && (closing || current.None?)
      modifies this`strays, this`states, this`events
      ensures Valid() && strays == old(strays) + 1
    {
      ghost var s := S();
      assert Follows(states, events, begun, s);
      strays := strays + 1;
      NoteWorld(s, DestroyFindsNoActor);
    }

    /** Its second half, in the same goroutine at any later time: the route goes, whatever
        it names by now. */
    method RemoveRoute()
      requires Valid()
      modifies this`strays, this`dropped, this`states, this`events, router
      ensures Valid()
      ensures if old(strays) > 0 then strays == old(strays) - 1 && host !in router.table
              else strays == 0 && router.table == old(router.table)
    {
      if strays == 0 { return; }
      ghost var s := S();
      assert Follows(states, events, begun, s);
      router.Remove(host);
      strays := strays - 1;
      dropped := Served(s).Some?;
      NoteWorld(s, RouteRemoved);
    }

    /** Anything another app does to the tables the actor shares with it. */
    method OtherAppActs(op: Store.Operation)
      requires Valid()
      modifies this`states, this`events, store
      ensures Valid()
    {
      if !Store.Foreign(store.Rows(), app, op) { return; }
      ghost var s := S();
      assert Follows(states, events, begun, s);
      FollowsSound(states, events, begun, s);
      var ran := store.Run(op);
      ForeignRows(states, events, begun, s, ran);
      NoteWorld(s, OtherApps(store.Rows()));
    }

    // ------------------------------------------------------------------- deploy

    /** ReleaseByVersion: a look at every row. */
    method FindVersion(version: nat) returns (r: Option<Release>)
      requires Valid()
      ensures r == ByVersion(store.Rows(), app, version)
    {
      FollowsSound(states, events, begun, S());
      r := None;
      var todo := store.releases.Keys;
      while todo != {} && r.None?
        invariant todo <= store.releases.Keys
        invariant r.None? ==>
          forall id | id in store.releases && id !in todo :: !IsVersion(store.Rows(), app, version, id)
        invariant r.Some? ==> exists id :: IsVersion(store.Rows(), app, version, id) && store.releases[id] == r.value
      {
        var id :| id in todo;
        if store.releases[id].app == app && store.releases[id].version == version {
          assert IsVersion(store.Rows(), app, version, id);
          r := Some(store.releases[id]);
        }
        todo := todo - {id};
      }
      SameAnswer(store.Rows(), app, version, r);
    }

    /** What the row of a push, redeploy or rollback will be made of. */
    method MakePlan(cmd: Command) returns (n: Option<NewRelease>)
      requires Valid() && !cmd.Restart?
      ensures n == Plan(S(), cmd) && PlannedFrom(S(), cmd, n)
    {
      PlanAsAsked(states, events, begun, S(), cmd);
      match cmd {
        case Push(sha, manifest) =>
          n := Some(NewRelease(Content("", sha, vars, manifest), Pushed(sha)));
        case Redeploy(why) =>
          var live := LiveRelease(store.Rows(), app);
          if live.None? { return None; }
          n := Some(NewRelease(live.value.content.(config := vars), Redeployed(why)));
        case Rollback(version) =>
          n := MakeRollback(version);
      }
    }

    method MakeRollback(version: nat) returns (n: Option<NewRelease>)
      requires Valid()
      ensures n == Plan(S(), Rollback(version))
    {
      var target := FindVersion(version);
      if target.None? || target.value.content.image == "" { return None; }
      var live := LiveRelease(store.Rows(), app);
      FollowsSound(states, events, begun, S());
      LiveRowId(S());
      if live.Some? && live.value.id == target.value.id { return None; }
      n := Some(NewRelease(target.value.content, RolledBack(version)));
    }

    /** A command for a new release: everything up to its first write. A read may fail. */
    method TakeNew(cmd: Command) returns (n: Option<NewRelease>)
      requires Valid() && activity.Waiting? && !cmd.Restart?
      modifies this`activity, this`states, this`events, this`begun
      ensures Valid() && begun == old(S())
      ensures activity == Busy(cmd, Snap(old(S())), if n.Some? then Prepared(n.value) else Replied(false, None))
    {
      var refused: bool := *;
      n := MakePlan(cmd);
      if refused { n := None; }
      ghost var s := S();
      assert Follows(states, events, begun, s);
      activity := Busy(cmd, Snap(s), if n.Some? then Prepared(n.value) else Replied(false, None));
      NoteTake(s, cmd, refused);
    }

    /** An operator's or reconcile's restart. */
    method TakeRestart(manual: bool) returns (live: Option<Release>)
      requires Valid() && activity.Waiting?
      modifies this`activity, this`states, this`events, this`begun, this`retry, this`failures, this`history, this`intact
      ensures Valid() && begun == old(S())
      ensures activity == Busy(Restart(manual, false), Snap(old(S())), if live.Some? then Launching(live.value)
          else Replied(false, None))
      ensures !manual ==> failures == old(failures) && history == old(history)
      ensures manual && live.Some? ==> failures == [] && retry.None?
    {
      var refused: bool := *;
      ghost var (s, cmd) := (S(), Restart(manual, false));
      assert Follows(states, events, begun, s);
      live := FindLive(manual, refused);
      NoteTake(s, cmd, refused);
    }

    /** An operator's restart that can begin clears the failure history. */
    method FindLive(manual: bool, refused: bool) returns (live: Option<Release>)
      modifies this`activity, this`retry, this`failures, this`history, this`intact
      ensures S() == DoTake(old(S()), Restart(manual, false), refused)
      ensures live == if refused then None else LiveRelease(store.Rows(), app)
      ensures if manual && live.Some? then failures == [] && retry == None else failures == old(failures)
    {
      live := LiveRelease(store.Rows(), app);
      if refused { live := None; }
      activity := Busy(Restart(manual, false), Snap(S()), if live.Some? then Launching(live.value)
          else Replied(false, None));
      if manual && live.Some? { ForgetFailures(); }
    }

    method ForgetFailures()
      modifies this`retry, this`failures, this`history, this`intact
      ensures retry == None && failures == [] && history == [] && intact
    {
      retry, failures, history, intact := None, [], [], true;
    }

    /** The actor's own timer fires. */
    method TakeTimer() returns (live: Option<Release>)
      requires Valid() && activity.Waiting? && retry.Some? && retry.value.due <= now
      modifies this`activity, this`states, this`events, this`begun, this`retry
      ensures Valid() && begun == old(S())
      ensures retry.None?
      ensures activity == Busy(Restart(false, true), Snap(old(S())), if live.Some? then Launching(live.value)
          else Replied(false, None))
    {
      var refused: bool := *;
      live := LiveRelease(store.Rows(), app);
      if refused { live := None; }
      ghost var s := S();
      assert Follows(states, events, begun, s);
      retry := None;
      activity := Busy(Restart(false, true), Snap(s), if live.Some? then Launching(live.value)
          else Replied(false, None));
      NoteTimer(s, refused);
    }

    /** The release row, or a refusal if the caller has gone in the meantime. */
    method WriteRow(n: NewRelease) returns (rel: Option<Release>)
      requires Valid() && activity.Busy? && activity.stage == Prepared(n)
      modifies this`activity, this`states, this`events, store
      ensures Valid()
      ensures activity == old(activity).(stage := if rel.None? then Replied(false, None)
                                                  else if rel.value.content.image == "" then Created(rel.value)
                                                  else Launching(rel.value))
    {
      ghost var s := S();
      assert Follows(states, events, begun, s);
      FollowsSound(states, events, begun, S());
      var cancelled: bool := *;
      if cancelled {
        ghost var id := FreshId(store.releases.Keys);
        activity := activity.(stage := Replied(false, None));
        NoteEarly(s, CreateRow(id, false));
        return None;
      }
      ghost var id;
      rel, id := InsertRow(n);
      NoteEarly(s, CreateRow(id, true));
    }

    method InsertRow(n: NewRelease) returns (rel: Option<Release>, ghost id: nat)
      requires store.Valid() && activity.Busy? && activity.stage == Prepared(n)
      modifies this`activity, store
      ensures id !in old(store.releases) && S() == DoCreateRow(old(S()), id, true)
      ensures activity == old(activity).(stage := if rel.None? then Replied(false, None)
                                                  else if rel.value.content.image == "" then Created(rel.value)
                                                  else Launching(rel.value))
    {
      var rowid, r := store.CreateRelease(app, n);
      id := rowid;
      match r {
        case Err(_) =>
          activity := activity.(stage := Replied(false, None));
          rel := None;
        case Ok(row) =>
          activity := activity.(stage := if row.content.image == "" then Created(row) else Launching(row));
          rel := Some(row);
      }
    }

    /** The build, and its image in the row; the actor's copy of the row follows. */
    method Build(rel: Release, image: Option<string>) returns (built: Option<Release>)
      requires Valid() && activity.Busy? && activity.stage == Created(rel)
      modifies this`activity, this`states, this`events, store
      ensures Valid()
      ensures activity == old(activity).(stage := if built.None? then Failing(rel) else Launching(built.value))
    {
      ghost var s := S();
      assert Follows(states, events, begun, s);
      FollowsSound(states, events, begun, S());
      built := RecordImage(rel, image);
      NoteEarly(s, BuildEnds(image));
    }

    method RecordImage(rel: Release, image: Option<string>) returns (built: Option<Release>)
      requires store.Valid() && activity.Busy? && activity.stage == Created(rel)
      modifies this`activity, store
      ensures S() == DoBuildEnds(old(S()), image)
      ensures activity == old(activity).(stage := if built.None? then Failing(rel) else Launching(built.value))
    {
      built := None;
      if image.Some? {
        var error := store.MarkBuilt(rel.id, image.value);
        if error.None? { built := Some(rel.(content := rel.content.(image := image.value), status := Starting)); }
      }
      activity := activity.(stage := if built.None? then Failing(rel) else Launching(built.value));
    }

    method StartCandidate(rel: Release) returns (inst: Option<InstanceId>)
      requires Valid() && activity.Busy? && activity.stage == Launching(rel)
      modifies this`activity, this`states, this`events, runtime
      ensures Valid()
      ensures activity == old(activity).(stage := if inst.None? then Failing(rel) else Probing(rel, inst.value))
    {
      ghost var s := S();
      assert Follows(states, events, begun, s);
      var published: bool;
      inst, published := runtime.Start(rel);
      activity := activity.(stage := if inst.None? then Failing(rel) else Probing(rel, inst.value));
      NoteEarly(s, Launch(inst, published));
    }

    /** The health check, whatever it probes and however long it takes. */
    method AwaitHealth(rel: Release, cand: InstanceId) returns (passed: bool)
      requires Valid() && activity.Busy? && activity.stage == Probing(rel, cand)
      modifies this`activity, this`states, this`events, this`approved
      ensures Valid()
      ensures activity == old(activity).(stage := if passed then Healthy(rel, cand) else Dropping(rel, cand))
    {
      ghost var s := S();
      assert Follows(states, events, begun, s);
      passed := *;
      if passed { approved := approved + {cand}; }
      activity := activity.(stage := if passed then Healthy(rel, cand) else Dropping(rel, cand));
      assert S() == DoProbeEnds(s, passed);
      NoteEarly(s, ProbeEnds(passed));
    }

    /** Whether the pusher has hung up while the candidate was being checked. */
    method Withdrawn(rel: Release, cand: InstanceId) returns (gone: bool)
      requires Valid() && activity.Busy? && activity.stage == Healthy(rel, cand)
      modifies this`activity, this`states, this`events
      ensures Valid()
      ensures activity == old(activity).(stage := if gone then Dropping(rel, cand) else Healthy(rel, cand))
    {
      ghost var s := S();
      assert Follows(states, events, begun, s);
      gone := *;
      if gone {
        activity := activity.(stage := Dropping(rel, cand));
        NoteEarly(s, Withdraw);
      }
    }

    method StopCandidate(rel: Release, cand: InstanceId)
      requires Valid() && activity.Busy? && activity.stage == Dropping(rel, cand)
      modifies this`activity, this`states, this`events, runtime`instances
      ensures Valid() && activity == old(activity).(stage := Failing(rel))
    {
      ghost var s := S();
      assert Follows(states, events, begun, s);
      runtime.Stop(cand);
      activity := activity.(stage := Failing(rel));
      NoteEarly(s, EarlyStep.StopCandidate);
    }

    /** Ends the row of a deploy that has failed; a restart has written none. */
    method Fail(cmd: Command, rel: Release)
      requires Valid() && activity.Busy? && activity.cmd == cmd && activity.stage == Failing(rel)
      modifies this`activity, this`states, this`events, store
      ensures Valid() && activity == old(activity).(stage := Replied(false, Some(rel)))
    {
      ghost var s := S();
      assert Follows(states, events, begun, s);
      FollowsSound(states, events, begun, S());
      EndRow(cmd, rel);
      NoteEarly(s, RecordFailure);
    }

    method EndRow(cmd: Command, rel: Release)
      requires store.Valid() && activity.Busy? && activity.cmd == cmd && activity.stage == Failing(rel)
      modifies this`activity, store
      ensures S() == DoRecordFailure(old(S())) && activity == old(activity).(stage := Replied(false, Some(rel)))
    {
      if !cmd.Restart? {
        var error := store.MarkFailed(rel.id);
      }
      activity := activity.(stage := Replied(false, Some(rel)));
    }

    method SwapRoute(rel: Release, cand: InstanceId)
      requires Valid() && activity.Busy? && activity.stage == Healthy(rel, cand)
      modifies this`activity, this`states, this`events, this`dropped, router
      ensures Valid() && activity == old(activity).(stage := Routed(rel, cand))
    {
      ghost var s := S();
      assert Follows(states, events, begun, s);
      router.Set(host, cand);
      dropped := false;
      activity := activity.(stage := Routed(rel, cand));
      NoteLate(s, LateStep.SwapRoute);
    }

    method Commit(cmd: Command, rel: Release, cand: InstanceId)
      requires Valid() && activity.Busy? && activity.cmd == cmd && activity.stage == Routed(rel, cand)
      modifies this`current, this`retry, this`failures, this`draining, this`history, this`intact, this`since,
               this`activity, this`states, this`events
      ensures Valid()
      ensures activity == old(activity).(stage := if cmd.Restart? then Replied(true, Some(rel)) else Committed(rel))
      ensures retry.None? && failures == (if cmd.Restart? then old(failures) else [])
      ensures history == if cmd.Restart? then old(history) else []
    {
      ghost var s := S();
      assert Follows(states, events, begun, s);
      MoveOn(cmd, rel, cand);
      NoteLate(s, LateStep.Commit);
    }

    /** The fields follow the route: the candidate is current and nothing is pending; after a
        new release no failure counts any more; what it replaces is retired. */
    method MoveOn(cmd: Command, rel: Release, cand: InstanceId)
      requires activity.Busy? && activity.cmd == cmd && activity.stage == Routed(rel, cand)
      modifies this`current, this`retry, this`failures, this`draining, this`history, this`intact, this`since,
               this`activity
      ensures S() == DoCommit(old(S()))
    {
      var was := current;
      Become(cmd, rel, cand);
      Retire(was);
      activity := activity.(stage := if cmd.Restart? then Replied(true, Some(rel)) else Committed(rel));
    }

    method Become(cmd: Command, rel: Release, cand: InstanceId)
      modifies this`current, this`retry, this`since, this`failures, this`history, this`intact
      ensures current == Some(Running(cand, rel.id, false)) && retry == None && since == now
      ensures failures == (if cmd.Restart? then old(failures) else [])
          && history == (if cmd.Restart? then old(history) else [])
      ensures intact == (!cmd.Restart? || old(history) == [] || (old(intact) && (cmd.manual || cmd.scheduled)))
    {
      current, retry, since := Some(Running(cand, rel.id, false)), None, now;
      intact := !cmd.Restart? || history == [] || (intact && (cmd.manual || cmd.scheduled));
      if !cmd.Restart? { failures, history := [], []; }
    }

    /** Hands the instance, if it has not exited, to the drains; `EndDrain` will stop it. */
    method Retire(was: Option<Running>)
      modifies this`draining
      ensures draining == if was.Some? && !was.value.exited then old(draining)[was.value.id := now] else old(draining)
    {
      if was.Some? && !was.value.exited { draining := draining[was.value.id := now]; }
    }

    method GoLive(rel: Release)
      requires Valid() && activity.Busy? && activity.stage == Committed(rel)
      modifies this`activity, this`states, this`events, store
      ensures Valid() && activity == old(activity).(stage := Replied(true, Some(rel)))
    {
      ghost var s := S();
      assert Follows(states, events, begun, s);
      FollowsSound(states, events, begun, S());
      RecordLive(rel);
      NoteLate(s, LateStep.GoLive);
    }

    method RecordLive(rel: Release)
      requires store.Valid() && activity.Busy? && activity.stage == Committed(rel)
      modifies this`activity, store
      ensures S() == DoGoLive(old(S())) && activity == old(activity).(stage := Replied(true, Some(rel)))
    {
      var error := store.SetLive(app, rel.id);
      activity := activity.(stage := Replied(true, Some(rel)));
    }

    /** An instance of the release that passes its health check, or none left behind. */
    method Start(rel: Release) returns (cand: Option<InstanceId>)
      requires Valid() && activity.Busy? && activity.stage == Launching(rel)
      modifies this`now, this`vars, this`closing, this`strays, this`dropped, this`draining, this`states, this`events,
               this`activity, this`approved, store, router, runtime
      ensures Valid()
      ensures activity == old(activity).(stage := if cand.None? then Failing(rel) else Healthy(rel, cand.value))
    {
      cand := StartCandidate(rel);
      Yield();
      if cand.None? { return; }
      var passed := AwaitHealth(rel, cand.value);
      Yield();
      if passed { return; }
      StopCandidate(rel, cand.value);
      cand := None;
    }

    /** From a row with an image to an instance the router points at, or back. */
    method LaunchAndSwap(cmd: Command, rel: Release) returns (err: bool)
      requires Valid() && activity.Busy? && activity.cmd == cmd && activity.stage == Launching(rel)
      modifies this`now, this`vars, this`closing, this`strays, this`dropped, this`draining, this`states, this`events,
               this`activity, this`approved, this`current, this`retry, this`failures, this`history, this`intact,
               this`since, store, router, runtime
      ensures Valid() && activity == old(activity).(stage := Replied(!err, Some(rel)))
      ensures err ==> current == old(current) && retry == old(retry) && Counted() == old(Counted())
      ensures !err ==> retry.None? && failures == (if cmd.Restart? then old(failures) else [])
      ensures !err && cmd.Restart? ==> history == old(history)
    {
      var cand := Start(rel);
      Yield();
      if cand.Some? {
        var gone := Withdrawn(rel, cand.value);
        if gone {
          StopCandidate(rel, cand.value);
          cand := None;
        }
      }
      if cand.None? {
        Fail(cmd, rel);
        return true;
      }
      TakeOver(cmd, rel, cand.value);
      err := false;
    }

    /** The swap and what follows it; nothing here can fail the deploy. */
    method TakeOver(cmd: Command, rel: Release, cand: InstanceId)
      requires Valid() && activity.Busy? && activity.cmd == cmd && activity.stage == Healthy(rel, cand)
      modifies this`now, this`vars, this`closing, this`strays, this`dropped, this`draining, this`states, this`events,
               this`activity, this`current, this`retry, this`failures, this`history, this`intact, this`since, store,
               router, runtime
      ensures Valid() && activity == old(activity).(stage := Replied(true, Some(rel)))
      ensures retry.None? && failures == (if cmd.Restart? then old(failures) else [])
      ensures history == if cmd.Restart? then old(history) else []
    {
      SwapRoute(rel, cand);
      Yield();
      Commit(cmd, rel, cand);
      Yield();
      if !cmd.Restart? { GoLive(rel); }
    }

    /** A command of any kind from its first read to its verdict; `err` is the pusher's. */
    method Deploy(cmd: Command) returns (err: bool)
      requires Valid() && activity.Waiting?
      requires cmd.Restart? && cmd.scheduled ==> !cmd.manual && retry.Some? && retry.value.due <= now
      modifies this`now, this`vars, this`closing, this`strays, this`dropped, this`draining, this`states, this`events,
               this`begun, this`activity, this`approved, this`current, this`retry, this`failures, this`history,
               this`intact, this`since, store, router, runtime
      ensures Valid() && begun == old(S())
      ensures activity.Busy? && activity.cmd == cmd && activity.stage.Replied? && activity.stage.ok == !err
      ensures cmd.Restart? && !cmd.manual ==> failures == old(failures) && history == old(history)
      ensures !err ==> retry.None? && (!cmd.Restart? || cmd.manual ==> failures == [])
      ensures cmd.Restart? && cmd.scheduled ==> retry.None?
    {
      if cmd.Restart? { err := Again(cmd); } else { err := New(cmd); }
    }

    /** A push, a redeploy or a rollback. */
    method New(cmd: Command) returns (err: bool)
      requires Valid() && activity.Waiting? && !cmd.Restart?
      modifies this`now, this`vars, this`closing, this`strays, this`dropped, this`draining, this`states, this`events,
               this`begun, this`activity, this`approved, this`current, this`retry, this`failures, this`history,
               this`intact, this`since, store, router, runtime
      ensures Valid() && begun == old(S())
      ensures activity.Busy? && activity.cmd == cmd && activity.stage.Replied? && activity.stage.ok == !err
      ensures !err ==> retry.None? && failures == []
    {
      var row := NewRow(cmd);
      if row.None? { return true; }
      Yield();
      var rel := Image(cmd, row.value);
      if rel.None? { return true; }
      Yield();
      err := LaunchAndSwap(cmd, rel.value);
    }

    /** The row is there before any work starts, so that there is one to end after a failure. */
    method NewRow(cmd: Command) returns (row: Option<Release>)
      requires Valid() && activity.Waiting? && !cmd.Restart?
      modifies this`now, this`vars, this`closing, this`strays, this`dropped, this`draining, this`states, this`events,
               this`begun, this`activity, store, router, runtime
      ensures Valid() && begun == old(S()) && activity.Busy? && activity.cmd == cmd
      ensures activity.stage == if row.None? then Replied(false, None)
                                else if row.value.content.image == "" then Created(row.value)
                                else Launching(row.value)
    {
      var n := TakeNew(cmd);
      if n.None? { return None; }
      Yield();
      row := WriteRow(n.value);
    }

    /** The release with an image: the one it has, or what the builder answers. */
    method Image(cmd: Command, row: Release) returns (rel: Option<Release>)
      requires Valid() && activity.Busy? && activity.cmd == cmd
      requires activity.stage == if row.content.image == "" then Created(row) else Launching(row)
      modifies this`now, this`vars, this`closing, this`strays, this`dropped, this`draining, this`states, this`events,
               this`activity, store, router, runtime
      ensures Valid()
      ensures activity == old(activity).(stage := if rel.None? then Replied(false, Some(row)) else Launching(rel.value))
    {
      if row.content.image != "" { return Some(row); }
      var image: Option<string> := *;
      rel := Build(row, image);
      if rel.None? {
        Yield();
        Fail(cmd, row);
      }
    }

    method TakeAgain(cmd: Command) returns (live: Option<Release>)
      requires Valid() && activity.Waiting? && cmd.Restart?
      requires cmd.scheduled ==> !cmd.manual && retry.Some? && retry.value.due <= now
      modifies this`activity, this`states, this`events, this`begun, this`retry, this`failures, this`history, this`intact
      ensures Valid() && begun == old(S())
      ensures activity == Busy(cmd, Snap(old(S())), if live.Some? then Launching(live.value) else Replied(false, None))
      ensures !cmd.manual ==> failures == old(failures) && history == old(history)
      ensures cmd.manual && live.Some? ==> failures == [] && retry.None?
      ensures cmd.scheduled ==> retry.None?
    {
      if cmd.scheduled { live := TakeTimer(); } else { live := TakeRestart(cmd.manual); }
    }

    /** A restart of any kind: no row is written, the live one is used. */
    method Again(cmd: Command) returns (err: bool)
      requires Valid() && activity.Waiting? && cmd.Restart?
      requires cmd.scheduled ==> !cmd.manual && retry.Some? && retry.value.due <= now
      modifies this`now, this`vars, this`closing, this`strays, this`dropped, this`draining, this`states, this`events,
               this`begun, this`activity, this`approved, this`current, this`retry, this`failures, this`history,
               this`intact, this`since, store, router, runtime
      ensures Valid() && begun == old(S())
      ensures activity.Busy? && activity.cmd == cmd && activity.stage.Replied? && activity.stage.ok == !err
      ensures !cmd.manual ==> failures == old(failures) && history == old(history)
      ensures !err ==> retry.None? && (cmd.manual ==> failures == [])
      ensures cmd.scheduled ==> retry.None?
    {
      var live := TakeAgain(cmd);
      if live.None? { return true; }
      Yield();
      err := LaunchAndSwap(cmd, live.value);
    }

    /** A command from a pusher, an operator or reconcile, from its arrival to its verdict:
        all of it happens or, as far as the app can be seen, none of it. */
    method Handle(cmd: Command) returns (err: bool)
      requires Valid() && activity.Waiting? && (cmd.Restart? ==> !cmd.scheduled)
      modifies this`now, this`vars, this`closing, this`strays, this`dropped, this`draining, this`states, this`events,
               this`begun, this`activity, this`approved, this`current, this`retry, this`failures, this`history,
               this`intact, this`since, store, router, runtime
      ensures Valid() && activity.Waiting?
      ensures err ==> NothingHappened(old(S()), S())
      ensures err ==> CannotBegin(old(S()), cmd) || CauseSince(states, events, old(S()))
      ensures !err && !cmd.Restart? ==> AllOfIt(old(S()), cmd, S())
      ensures !err && cmd.Restart? ==> RestartHappened(old(S()), S())
      ensures !err ==> retry.None? && (!cmd.Restart? || cmd.manual ==> failures == [])
    {
      err := Deploy(cmd);
      ghost var s := S();
      Verdict(s, err);
      Answer();
      SameForTheApp(begun, s, S());
      SameAllOfIt(begun, cmd, s, S());
    }

    /** The verdict is delivered, and nothing else follows from it. */
    method Answer()
      requires Valid() && activity.Busy? && activity.stage.Replied?
      requires activity.cmd.Restart? ==> !activity.cmd.scheduled
      modifies this`states, this`events, this`activity
      ensures Valid() && S() == old(S()).(activity := Waiting)
      ensures CauseSince(old(states), old(events), begun) ==> CauseSince(states, events, begun)
    {
      ghost var s := S();
      assert Follows(states, events, begun, s);
      activity := Waiting;
      NoteLate(s, Finish);
      Kept(old(states), old(events));
    }

    /** What has gone wrong stays in the trace. */
    lemma Kept(was: seq<State>, wasEvents: seq<Event>)
      requires Valid() && was <= states && wasEvents <= events
      ensures CauseSince(was, wasEvents, begun) ==> CauseSince(states, events, begun)
    {
      assert Follows(states, events, begun, S());
      assert FollowsTo(states, events, begun, S(), |events|);
      if CauseSince(was, wasEvents, begun) { CauseStays(was, wasEvents, states, events, begun); }
    }

    // ------------------------------------------------------------ crash handling

    /** Counts one failure and schedules the next restart, or gives up. */
    method Failed()
      modifies this`failures, this`history, this`retry
      ensures S() == CountFailure(old(S()))
    {
      var kept: seq<Time> := [];
      for i := 0 to |failures|
        invariant kept == Recent(failures[..i], now)
      {
        assert failures[..i + 1][..i] == failures[..i];
        if now - failures[i] < CRASH_WINDOW { kept := kept + [failures[i]]; }
      }
      assert failures[..|failures|] == failures;
      failures := kept + [now];
      history := history + [now];
      if |failures| >= CRASH_THRESHOLD { return; }
      var wait := Backoff.Backoff(|failures|);
      retry := Some(Timer(wait, now + wait));
    }

    /** What the timer leads to. If no instance passes its check everything is as before but
        for one failure more, which is answered; if one does the failures are as before. */
    method ScheduledRestart() returns (err: bool)
      requires Valid() && activity.Waiting? && retry.Some? && retry.value.due <= now
      modifies this`now, this`vars, this`closing, this`strays, this`dropped, this`draining, this`states, this`events,
               this`begun, this`activity, this`approved, this`current, this`retry, this`failures, this`history,
               this`intact, this`since, store, router, runtime
      ensures Valid() && activity.Waiting?
      ensures err ==>
        NothingHappened(old(S()), S()) && history == old(history) + [now] && failures == AddFailure(old(failures), now)
      ensures err ==> retry == NextTimer(failures, now)
      ensures err ==> CannotBegin(old(S()), Restart(false, true)) || CauseSince(states, events, old(S()))
      ensures !err ==>
        RestartHappened(old(S()), S()) && history == old(history) && failures == old(failures) && retry.None?
    {
      err := Deploy(Restart(false, true));
      ghost var s := S();
      Verdict(s, err);
      Conclude(err);
      SameForTheApp(begun, s, S());
    }

    method Conclude(err: bool)
      requires Valid() && activity.Busy? && activity.cmd == Restart(false, true) && activity.stage.Replied?
          && activity.stage.ok == !err
      requires retry.None?
      modifies this`states, this`events, this`activity, this`retry, this`failures, this`history
      ensures Valid() && activity.Waiting?
      ensures err ==>
        && history == old(history) + [now] && failures == AddFailure(old(failures), now)
        && retry == NextTimer(failures, now)
      ensures !err ==> history == old(history) && failures == old(failures) && retry.None?
      ensures CauseSince(old(states), old(events), begun) ==> CauseSince(states, events, begun)
    {
      ghost var s := S();
      assert Follows(states, events, begun, s);
      CountIfFailed(err);
      NoteLate(s, Finish);
      Kept(old(states), old(events));
    }

    method CountIfFailed(err: bool)
      requires activity.Busy? && activity.cmd == Restart(false, true) && activity.stage.Replied?
          && activity.stage.ok == !err
      requires retry.None?
      modifies this`activity, this`retry, this`failures, this`history
      ensures S() == DoFinish(old(S()))
      ensures err ==>
        && history == old(history) + [now] && failures == AddFailure(old(failures), now)
        && retry == NextTimer(failures, now)
      ensures !err ==> history == old(history) && failures == old(failures) && retry.None?
    {
      activity := Waiting;
      if err { Failed(); }
    }

    /** What the verdict of a deploy means, while it is out. */
    lemma Verdict(s: State, err: bool)
      requires Valid() && s == S() && s.activity.Busy? && s.activity.stage.Replied? && s.activity.stage.ok == !err
      ensures err ==> NothingHappened(begun, s)
      ensures err ==> CannotBegin(begun, s.activity.cmd) || CauseSince(states, events, begun)
      ensures !err && s.activity.cmd.Restart? ==> RestartHappened(begun, s)
      ensures !err && !s.activity.cmd.Restart? ==> AllOfIt(begun, s.activity.cmd, s)
    {
      assert Follows(states, events, begun, s);
      FollowsGood(states, events, begun, s);
      if err {
        VerdictOfNo(begun, s);
        CauseOfNo(states, events, begun, s);
      } else if s.activity.cmd.Restart? {
        VerdictOfAgain(begun, s);
      } else {
        VerdictOfYes(begun, s);
        YesHoldsWhatWasAsked(begun, s);
      }
    }

    /** A watcher's report. Only the current instance's first one means anything. */
    method OnExit(id: InstanceId)
      requires Valid() && activity.Waiting?
      modifies this`now, this`vars, this`closing, this`strays, this`dropped, this`draining, this`states, this`events,
               this`activity, this`current, this`retry, this`failures, this`history, store, router, runtime
      ensures Valid() && activity.Waiting?
      ensures !Matters(old(S()), id) ==> S() == old(S())
      ensures Matters(old(S()), id) ==>
        && current == Some(old(current).value.(exited := true)) && id !in runtime.instances
        && history == old(history) + [now] && failures == AddFailure(old(failures), now)
        && retry == NextTimer(failures, now)
    {
      if current.None? || current.value.id != id || current.value.exited { return; }
      MarkExited();
      Yield();
      Reap();
    }

    method MarkExited()
      requires Valid() && activity.Waiting? && current.Some? && !current.value.exited
      modifies this`states, this`events, this`activity, this`current
      ensures Valid() && activity == Reaping && current == Some(old(current).value.(exited := true))
    {
      ghost var s := S();
      assert Follows(states, events, begun, s);
      current := Some(current.value.(exited := true));
      activity := Reaping;
      NoteActor(s, ExitReport(s.current.value.id));
    }

    method Reap()
      requires Valid() && activity.Reaping? && current.Some?
      modifies this`states, this`events, this`activity, this`retry, this`failures, this`history, runtime`instances
      ensures Valid() && activity.Waiting? && runtime.instances == old(runtime.instances) - {current.value.id}
      ensures history == old(history) + [now] && failures == AddFailure(old(failures), now)
      ensures retry == NextTimer(failures, now)
    {
      ghost var s := S();
      assert Follows(states, events, begun, s);
      NoTimerWhileReaping(states, events, begun, s);
      RemoveAndCount();
      NoteActor(s, ActorStep.Reap);
    }

    /** The dead container goes and the failure counts. */
    method RemoveAndCount()
      requires current.Some?
      modifies this`activity, this`retry, this`failures, this`history, runtime`instances
      ensures S() == DoReap(old(S()))
    {
      runtime.Stop(current.value.id);
      activity := Waiting;
      Failed();
    }

    // ------------------------------------------------------------------ destroy

    /** The actor's last act. What is still draining is stopped by its own goroutine. */
    method Destroy()
      requires Valid() && activity.Waiting?
      modifies this`now, this`vars, this`closing, this`strays, this`dropped, this`draining, this`states, this`events,
               this`activity, this`current, this`retry, this`failures, this`history, this`intact, this`since, store,
               router, runtime
      ensures Valid() && activity.Waiting?
      ensures current.None? && retry.None? && host !in router.table && runtime.instances.Keys == draining.Keys
    {
      DropRoute();
      Yield();
      StopCurrent();
      NothingLeft(states, events, begun, S());
    }

    method DropRoute()
      requires Valid() && activity.Waiting?
      modifies this`states, this`events, this`activity, this`retry, this`dropped, router
      ensures Valid() && activity == Destroying && retry.None? && host !in router.table
    {
      ghost var s := S();
      assert Follows(states, events, begun, s);
      retry := None;
      router.Remove(host);
      dropped := false;
      activity := Destroying;
      NoteActor(s, DestroyBegins);
    }

    method StopCurrent()
      requires Valid() && activity.Destroying? && retry.None?
      modifies this`states, this`events, this`activity, this`current, this`failures, this`history, this`intact,
               runtime`instances
      ensures Valid() && activity.Waiting? && current.None?
    {
      ghost var s := S();
      assert Follows(states, events, begun, s);
      Forget();
      NoteActor(s, DestroyEnds);
    }

    /** What is current is stopped at once, and the actor keeps nothing. */
    method Forget()
      requires retry.None?
      modifies this`activity, this`current, this`failures, this`history, this`intact, runtime`instances
      ensures S() == DoDestroyEnds(old(S()))
    {
      if current.Some? && !current.value.exited { runtime.Stop(current.value.id); }
      current, failures := None, [];
      history, intact, activity := [], true, Waiting;
    }
  }

  /** The restart a failure schedules, if any. */
  function NextTimer(failures: seq<Time>, now: Time): Option<Timer> {
    var wait := NextWait(failures);
    if wait.Some? then Some(Timer(wait.value, now + wait.value)) else None
  }

  ghost function FreshId(used: set<nat>): (id: nat)
    ensures id !in used
  {
    MaxOf(used) + 1
  }

  lemma LiveRowId(s: State)
    requires RowsOk(s.db)
    ensures LiveRelease(s.db, s.app).Some? ==> LiveId(s) == Some(LiveRelease(s.db, s.app).value.id)
  {
    if LiveRelease(s.db, s.app).Some? { assert RowOk(s.db, s.db.apps[s.app].live.value); }
  }

  lemma SameAnswer(t: Tables, app: nat, v: nat, r: Option<Release>)
    requires VersionsDistinct(t)
    requires r.Some? ==> exists id :: IsVersion(t, app, v, id) && t.releases[id] == r.value
    requires r.None? ==> forall id | id in t.releases :: !IsVersion(t, app, v, id)
    ensures r == ByVersion(t, app, v)
  {
    if r.Some? {
      var id :| IsVersion(t, app, v, id) && t.releases[id] == r.value;
      SameVersionSameRow(t, app, v, id, ByVersion(t, app, v).value);
    }
  }
}
