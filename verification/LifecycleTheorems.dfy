/**
  What the invariant buys, first part: the stores agree, containers are conserved and the
  route only leads to instances that passed their check, over whole runs.
 */
module LifecycleTheorems {
  import opened Wrappers
  import opened Releases
  import opened Lifecycle
  import opened LifecycleInvariant
  import opened LifecycleSteps

  lemma RunStep(states: seq<State>, events: seq<Event>, i: nat)
    requires IsRun(states, events) && i < |events|
    ensures Inv(states[i]) && Enabled(states[i], events[i]) && states[i + 1] == Next(states[i], events[i])
  {
    EveryReachableStateSatisfiesInvariant(states, events, i);
    assert StepAt(states, events, i);
  }

  // ---------------------------------------------------------------- agreement

  /** The route is missing: it should name what the app is served from, and names nothing. */
  predicate RouteMissing(s: State) { s.route.None? && Served(s).Some? }

  /** Route, actor, rows and runtime name the same instance, and nothing else of the app
      is left but instances being drained. */
  ghost predicate StoresAgree(s: State) {
    && s.route == (if s.current.Some? && !RouteMissing(s) then Some(s.current.value.id) else None)
    && (s.current.Some? ==> s.current.value.id in s.started && LiveId(s) == Some(s.current.value.row))
    && (s.route.Some? ==> s.route.value in s.approved)
    && (s.current.Some? && !s.current.value.exited ==>
          && s.current.value.id in s.instances && s.current.value.row in s.db.releases
          && s.instances[s.current.value.id].content == s.db.releases[s.current.value.row].content)
    && s.instances.Keys ==
       s.draining.Keys + if s.current.Some? && !s.current.value.exited then {s.current.value.id} else {}
  }

  lemma BetweenCommands(s: State)
    requires Inv(s) && s.up && s.activity.Waiting?
    ensures StoresAgree(s)
  {
    if s.current.Some? && !s.current.value.exited {
      assert s.current.value.id in Serving(s);
      assert RunsItsRow(s.db, s.app, s.instances[s.current.value.id]);
    }
  }

  /** Between commands the four stores agree, in every run: the actor's instance is of the
      live release and runs its row's image, commit, config and manifest; the route is that
      instance's, or nobody's if it is missing; no other container is left but draining
      ones. When the route can be missing is `LifecycleRoutes.RouteAgreesIff`. */
  lemma StoresAgreeBetweenCommands(states: seq<State>, events: seq<Event>, i: nat)
    requires IsRun(states, events) && i < |states| && states[i].up && states[i].activity.Waiting?
    ensures StoresAgree(states[i])
  {
    EveryReachableStateSatisfiesInvariant(states, events, i);
    BetweenCommands(states[i]);
  }

  // ------------------------------------------------------------- conservation

  /** The ids a step hands to the runtime's Stop. */
  ghost function Stops(s: State, e: Event): set<InstanceId>
    requires Enabled(s, e)
  {
    match e
    case World(w) => if w.DrainEnds? then {w.id} else {}
    case Early(d) => if d.StopCandidate? then {s.activity.stage.cand} else {}
    case Late(_) => {}
    case Act(a) =>
      if a.Reap? || (a.DestroyEnds? && s.current.Some? && !s.current.value.exited) then {s.current.value.id} else {}
    case Down(c) =>
      match c
      case Crash => {}
      case RecoveryCutOff(removed, _) => removed * s.instances.Keys
      case Recover(listing) =>
        var keep := Keep(listing, LiveRelease(s.db, s.app));
        s.instances.Keys - (if keep.Some? then {keep.value} else {})
  }

  function Starts(e: Event): set<InstanceId> {
    if e.Early? && e.d.Launch? && e.d.inst.Some? then {e.d.inst.value} else {}
  }

  /** Containers appear only by a start, with an id never used before, and disappear only
      by a stop, and only containers that exist are stopped. */
  ghost predicate Balanced(s: State, e: Event)
    requires Enabled(s, e)
  {
    var t := Next(s, e);
    && Stops(s, e) <= s.instances.Keys
    && t.instances.Keys == s.instances.Keys - Stops(s, e) + Starts(e)
    && t.started == s.started + Starts(e) && Starts(e) !! s.started
  }

  lemma WorldBalance(s: State, w: WorldStep)
    requires OwnedInv(s) && DownInv(s) && WorldEnabled(s, w)
    ensures Balanced(s, World(w))
  {}

  lemma EarlyBalance(s: State, d: EarlyStep)
    requires OwnedInv(s) && EarlyEnabled(s, d)
    ensures Balanced(s, Early(d))
  {
    match d
    case CreateRow(id, written) => CreateRowIsQuiet(s, id, written);
    case BuildEnds(image) => BuildEndsIsQuiet(s, image);
    case RecordFailure => assert DoRecordFailure(s).instances == s.instances && DoRecordFailure(s).started == s.started;
    case Launch(inst, published) => LaunchBalance(s, inst, published);
    case StopCandidate => StopCandidateBalance(s);
    case _ =>
  }

  lemma LaunchBalance(s: State, inst: Option<InstanceId>, published: bool)
    requires OwnedInv(s) && EarlyEnabled(s, Launch(inst, published))
    ensures Balanced(s, Early(Launch(inst, published)))
  {}

  lemma StopCandidateBalance(s: State)
    requires OwnedInv(s) && EarlyEnabled(s, StopCandidate)
    ensures Balanced(s, Early(StopCandidate))
  {
    assert Candidate(s) == {s.activity.stage.cand};
  }

  lemma CreateRowIsQuiet(s: State, id: nat, written: bool)
    requires s.activity.Busy? && s.activity.stage.Prepared?
    ensures DoCreateRow(s, id, written).instances == s.instances && DoCreateRow(s, id, written).started == s.started
  {}

  lemma BuildEndsIsQuiet(s: State, image: Option<string>)
    requires s.activity.Busy? && s.activity.stage.Created?
    ensures DoBuildEnds(s, image).instances == s.instances && DoBuildEnds(s, image).started == s.started
  {}

  /** Before the swap only the candidate and the row change. */
  lemma EarlyFields(s: State, d: EarlyStep)
    requires EarlyEnabled(s, d)
    ensures var t := NextEarly(s, d);
      t.up == s.up && t.now == s.now && t.started >= s.started && t.draining == s.draining && t.current == s.current
  {
    match d case CreateRow(_, _) => case BuildEnds(_) => case _ =>
  }

  lemma EarlyCandidate(s: State, d: EarlyStep)
    requires EarlyEnabled(s, d)
    ensures Candidate(NextEarly(s, d)) <= Candidate(s) + Starts(Early(d)) && Starts(Early(d)) !! s.started
  {
    match d case CreateRow(_, _) => case BuildEnds(_) => case _ =>
  }

  lemma LateBalance(s: State, l: LateStep)
    requires LateEnabled(s, l)
    ensures Balanced(s, Late(l))
  {
    match l
    case Finish => assert DoFinish(s).instances == s.instances && DoFinish(s).started == s.started;
    case _ =>
  }

  lemma ActorBalance(s: State, a: ActorStep)
    requires OwnedInv(s) && ActorEnabled(s, a) && (s.activity.Reaping? ==> s.current.Some? && s.current.value.exited)
    ensures Balanced(s, Act(a))
  {
    match a
    case Reap => assert s.current.value.id in Serving(s) && DoReap(s).instances == s.instances - {s.current.value.id};
    case DestroyEnds => if s.current.Some? && !s.current.value.exited { assert s.current.value.id in Serving(s); }
    case _ => assert NextActor(s, a).instances == s.instances;
  }

  lemma DownBalance(s: State, c: DownStep)
    requires DataInv(s) && DownEnabled(s, c)
    ensures Balanced(s, Down(c))
  {
    match c
    case Crash =>
    case RecoveryCutOff(removed, failed) => CutOffBalance(s, removed, failed);
    case Recover(listing) => RecoverBalance(s, listing);
  }

  lemma CutOffBalance(s: State, removed: set<InstanceId>, failed: set<nat>)
    requires !s.up
    ensures Balanced(s, Down(RecoveryCutOff(removed, failed)))
  {}

  lemma RecoverBalance(s: State, listing: seq<Listed>)
    requires !s.up && ListingOf(s, listing)
    ensures Balanced(s, Down(Recover(listing)))
  {
    RecoverInstances(s, listing);
    RecoverStops(s, listing);
  }

  lemma RecoverStops(s: State, listing: seq<Listed>)
    requires !s.up && ListingOf(s, listing)
    ensures var keep := Keep(listing, LiveRelease(s.db, s.app));
      Stops(s, Down(Recover(listing))) == s.instances.Keys - (if keep.Some? then {keep.value} else {})
  {}

  lemma RecoverInstances(s: State, listing: seq<Listed>)
    requires !s.up && ListingOf(s, listing)
    ensures var keep := Keep(listing, LiveRelease(s.db, s.app));
      && DoRecover(s, listing).instances.Keys == s.instances.Keys * (if keep.Some? then {keep.value} else {})
      && DoRecover(s, listing).started == s.started
  {}

  lemma InstancesBalance(s: State, e: Event)
    requires Inv(s) && Enabled(s, e)
    ensures Balanced(s, e)
  {
    match e
    case World(w) => WorldBalance(s, w);
    case Early(d) => EarlyBalance(s, d);
    case Late(l) => LateBalance(s, l);
    case Act(a) => ActorBalance(s, a);
    case Down(c) => DownBalance(s, c);
  }

  /** Each container of a running daemon is exactly one of three things, in every run: the
      current instance, the candidate of the deploy in progress, or draining. */
  lemma ExactlyOneOwner(states: seq<State>, events: seq<Event>, i: nat, id: InstanceId)
    requires IsRun(states, events) && i < |states| && states[i].up
    ensures var s := states[i];
      && (id in s.instances <==> id in Serving(s) || id in Candidate(s) || id in s.draining)
      && !(id in Serving(s) && id in Candidate(s)) && !(id in Serving(s) && id in s.draining)
      && !(id in Candidate(s) && id in s.draining)
  {
    EveryReachableStateSatisfiesInvariant(states, events, i);
  }

  lemma BalanceAt(states: seq<State>, events: seq<Event>, i: nat)
    requires IsRun(states, events) && i < |events|
    ensures Enabled(states[i], events[i])
    ensures Stops(states[i], events[i]) <= states[i].instances.Keys
    ensures states[i + 1].instances.Keys == states[i].instances.Keys - Stops(states[i], events[i]) + Starts(events[i])
    ensures states[i + 1].started == states[i].started + Starts(events[i]) && Starts(events[i]) !! states[i].started
    ensures states[i].instances.Keys <= states[i].started
  {
    RunStep(states, events, i);
    InstancesBalance(states[i], events[i]);
  }

  lemma OnlyNewIdsAppear(states: seq<State>, events: seq<Event>, i: nat)
    requires IsRun(states, events) && i < |events|
    ensures states[i].started <= states[i + 1].started
    ensures forall id | id in states[i].started && id in states[i + 1].instances :: id in states[i].instances
  {
    BalanceAt(states, events, i);
  }

  /** What has been removed never comes back. */
  lemma {:induction false} GoneForGood(states: seq<State>, events: seq<Event>, i: nat, j: nat, id: InstanceId)
    requires IsRun(states, events) && i <= j < |states| && id in states[i].started && id !in states[i].instances
    ensures id in states[j].started && id !in states[j].instances
  {
    if i < j {
      GoneForGood(states, events, i, j - 1, id);
      OnlyNewIdsAppear(states, events, j - 1);
    }
  }

  lemma EarlyDrains(s: State, d: EarlyStep)
    requires EarlyEnabled(s, d)
    ensures NextEarly(s, d).draining == s.draining
  {
    EarlyFields(s, d);
  }

  lemma DrainStays(s: State, e: Event, id: InstanceId)
    requires OwnedInv(s) && DownInv(s) && s.up && Enabled(s, e) && id in s.draining
    requires e != World(DrainEnds(id)) && e != Down(Crash)
    ensures Next(s, e).up && id in Next(s, e).draining && Next(s, e).draining[id] == s.draining[id]
  {
    match e
    case World(w) => WorldDrains(s, w, id);
    case Early(d) => EarlyDrains(s, d); EarlyFields(s, d);
    case Late(l) => LateDrains(s, l, id);
    case Act(a) => ActorDrains(s, a);
    case Down(c) => assert false;
  }

  lemma WorldDrains(s: State, w: WorldStep, id: InstanceId)
    requires WorldEnabled(s, w) && id in s.draining && w != DrainEnds(id)
    ensures NextWorld(s, w).up == s.up && id in NextWorld(s, w).draining
        && NextWorld(s, w).draining[id] == s.draining[id]
  {}

  lemma LateDrains(s: State, l: LateStep, id: InstanceId)
    requires OwnedInv(s) && s.up && LateEnabled(s, l) && id in s.draining
    ensures NextLate(s, l).up && id in NextLate(s, l).draining && NextLate(s, l).draining[id] == s.draining[id]
  {
    match l
    case Commit => if s.current.Some? && !s.current.value.exited { assert s.current.value.id in Serving(s); }
    case _ =>
  }

  lemma ActorDrains(s: State, a: ActorStep)
    requires ActorEnabled(s, a)
    ensures NextActor(s, a).up && NextActor(s, a).draining == s.draining
  {
    match a case Take(_, _) => case TimerFires(_) => case Reap => case _ =>
  }

  /** A draining instance stays, and keeps draining since the same moment, until its own
      drain stops it: nothing else does, short of a crash. */
  lemma {:induction false} DrainingUntilItsOwnStop(states: seq<State>, events: seq<Event>, i: nat, j: nat,
        id: InstanceId)
    requires IsRun(states, events) && i <= j < |states| && states[i].up && id in states[i].draining
    requires forall k | i <= k < j :: events[k] != World(DrainEnds(id)) && events[k] != Down(Crash)
    ensures states[j].up && id in states[j].draining && states[j].draining[id] == states[i].draining[id]
    ensures id in states[j].instances
  {
    EveryReachableStateSatisfiesInvariant(states, events, j);
    if i < j {
      DrainingUntilItsOwnStop(states, events, i, j - 1, id);
      RunStep(states, events, j - 1);
      DrainStays(states[j - 1], events[j - 1], id);
    }
  }

  /** Over a whole run, crashes and recoveries included, no instance is stopped twice. */
  lemma NoInstanceIsStoppedTwice(states: seq<State>, events: seq<Event>, i: nat, j: nat, id: InstanceId)
    requires IsRun(states, events) && i < j < |events|
    requires Enabled(states[i], events[i]) && Enabled(states[j], events[j])
    requires id in Stops(states[i], events[i])
    ensures id !in Stops(states[j], events[j]) && id !in states[j].instances
  {
    BalanceAt(states, events, i);
    assert id in states[i].started && id !in states[i + 1].instances;
    GoneForGood(states, events, i + 1, j, id);
    BalanceAt(states, events, j);
  }

  // ------------------------------------------------------------- zero downtime

  /** The route only ever points at an instance that passed its check or was adopted. */
  lemma RouteMovesToApproved(s: State, e: Event)
    requires Inv(s) && Enabled(s, e)
    ensures Next(s, e).route.Some? ==> Next(s, e).route.value in Next(s, e).approved
  {
    StepKeepsInvariant(s, e);
  }

  lemma ApprovedByCheckOrAdoption(s: State, e: Event, id: InstanceId)
    requires Enabled(s, e) && id in Next(s, e).approved && id !in s.approved
    ensures (e == Early(ProbeEnds(true)) && id == s.activity.stage.cand)
            || (e.Down? && e.c.Recover? && Next(s, e).current.Some? && id == Next(s, e).current.value.id)
  {
    match e
    case World(w) => WorldApprovesNothing(s, w);
    case Early(d) => EarlyApproves(s, d);
    case Late(l) => LateApprovesNothing(s, l);
    case Act(a) => ActorApprovesNothing(s, a);
    case Down(c) => DownApproves(s, c);
  }

  lemma WorldApprovesNothing(s: State, w: WorldStep)
    requires WorldEnabled(s, w)
    ensures NextWorld(s, w).approved == s.approved
  {}

  lemma EarlyApproves(s: State, d: EarlyStep)
    requires EarlyEnabled(s, d)
    ensures NextEarly(s, d).approved == s.approved + (if d == ProbeEnds(true) then {s.activity.stage.cand} else {})
  {
    match d case CreateRow(_, _) => case _ =>
  }

  lemma LateApprovesNothing(s: State, l: LateStep)
    requires LateEnabled(s, l)
    ensures NextLate(s, l).approved == s.approved
  {}

  lemma ActorApprovesNothing(s: State, a: ActorStep)
    requires ActorEnabled(s, a)
    ensures NextActor(s, a).approved == s.approved
  {}

  lemma DownApproves(s: State, c: DownStep)
    requires DownEnabled(s, c)
    ensures var t := NextDown(s, c);
      t.approved <= s.approved + (if c.Recover? && t.current.Some? then {t.current.value.id} else {})
  {}

  /** Once an app is served it is not left without a route, short of a destroy or a crash. */
  lemma RouteIsNeverDropped(s: State, e: Event)
    requires DownInv(s) && Enabled(s, e) && s.route.Some? && Next(s, e).route.None?
    ensures e == Act(DestroyBegins) || e == Down(Crash) || e == World(RouteRemoved)
  {
    match e
    case World(w) => WorldRoute(s, w);
    case Early(d) => EarlyKeepsRoute(s, d);
    case Late(l) => LateRoute(s, l);
    case Act(a) => ActorRoute(s, a);
    case Down(c) => DownRoute(s, c);
  }

  lemma WorldRoute(s: State, w: WorldStep)
    requires WorldEnabled(s, w)
    ensures NextWorld(s, w).route == if w.RouteRemoved? then None else s.route
  {}

  lemma DownRoute(s: State, c: DownStep)
    requires DownInv(s) && DownEnabled(s, c)
    ensures c.Crash? || s.route.None?
  {}

  lemma EarlyKeepsRoute(s: State, d: EarlyStep)
    requires EarlyEnabled(s, d)
    ensures NextEarly(s, d).route == s.route
  {
    match d case CreateRow(_, _) => case _ =>
  }

  lemma LateRoute(s: State, l: LateStep)
    requires LateEnabled(s, l)
    ensures NextLate(s, l).route == if l.SwapRoute? then Some(s.activity.stage.cand) else s.route
  {}

  lemma ActorRoute(s: State, a: ActorStep)
    requires ActorEnabled(s, a)
    ensures !a.DestroyBegins? ==> NextActor(s, a).route == s.route
  {}

  /** The routed instance is stopped only after its exit was reported. */
  lemma RoutedInstanceIsNotStopped(s: State, e: Event)
    requires OwnedInv(s) && RouteInv(s) && DownInv(s) && Enabled(s, e)
    requires s.route.Some? && s.route.value in Stops(s, e)
    ensures e == Act(Reap) && s.activity.Reaping? && s.current.Some? && s.current.value.exited
        && s.current.value.id == s.route.value
  {
    assert s.up;
    ServedOwner(s);
    match e
    case World(w) =>
    case Early(d) =>
    case Late(l) =>
    case Act(a) =>
    case Down(c) =>
  }

  lemma ServedOwner(s: State)
    requires OwnedInv(s) && RouteInv(s) && s.up && s.route.Some?
    ensures s.route.value !in s.draining && !s.activity.Destroying?
    ensures s.activity.Busy? && s.activity.stage.Dropping? ==> s.route.value != s.activity.stage.cand
    ensures s.current.Some? || (s.activity.Busy? && s.activity.stage.Routed?)
  {
    if s.route.value in s.draining { assert false; }
  }
}
