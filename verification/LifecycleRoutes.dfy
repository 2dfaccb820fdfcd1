/**
  What a Destroy that found no actor can do to the route. It looks the actor up in its own
  goroutine and removes the route later, and meanwhile a deploy may have gone live.
 */
module LifecycleRoutes {
  import opened Wrappers
  import opened Releases
  import opened Lifecycle
  import opened LifecycleInvariant
  import opened LifecycleSteps
  import opened LifecycleTheorems

  /** The app is unserved afterwards, or routed to what it is served from. */
  predicate Settles(e: Event) { e == Late(SwapRoute) || e == Act(DestroyBegins) || e == Down(Crash) }

  predicate Unserves(e: Event) { e == Act(DestroyBegins) || e == Down(Crash) }

  lemma WorldServed(s: State, w: WorldStep)
    requires WorldEnabled(s, w)
    ensures Served(NextWorld(s, w)) == Served(s)
    ensures NextWorld(s, w).route == if w.RouteRemoved? then None else s.route
  {}

  lemma EarlyServed(s: State, d: EarlyStep)
    requires EarlyEnabled(s, d)
    ensures Served(NextEarly(s, d)) == Served(s) && NextEarly(s, d).route == s.route
  {
    match d case CreateRow(_, _) => case BuildEnds(_) => case _ =>
  }

  lemma LateServed(s: State, l: LateStep)
    requires LateEnabled(s, l)
    ensures l.SwapRoute? ==> Served(NextLate(s, l)).Some? && NextLate(s, l).route == Served(NextLate(s, l))
    ensures !l.SwapRoute? ==> Served(NextLate(s, l)) == Served(s) && NextLate(s, l).route == s.route
  {
    match l case Finish => case _ =>
  }

  lemma ActorServed(s: State, a: ActorStep)
    requires ActorEnabled(s, a)
    ensures a.DestroyBegins? ==> Served(NextActor(s, a)).None? && NextActor(s, a).route.None?
    ensures !a.DestroyBegins? ==> Served(NextActor(s, a)) == Served(s) && NextActor(s, a).route == s.route
  {
    match a case Take(_, _) => case TimerFires(_) => case Reap => case _ =>
  }

  /** A daemon that is down routes nothing; what a recovery serves it routes. */
  lemma DownServed(s: State, c: DownStep)
    requires DownInv(s) && DownEnabled(s, c)
    ensures NextDown(s, c).route == Served(NextDown(s, c))
    ensures !c.Recover? ==> Served(NextDown(s, c)).None?
    ensures !c.Crash? ==> Served(s).None? && s.route.None?
  {}

  /** What makes and ends a missing route, step by step: only the late removal of the route
      of a served app; and a swap, a destroy or a crash. */
  lemma RouteMissingIff(s: State, e: Event)
    requires RouteInv(s) && DownInv(s) && Enabled(s, e)
    ensures RouteMissing(Next(s, e)) <==>
              (e == World(RouteRemoved) && Served(s).Some?) || (RouteMissing(s) && !Settles(e))
  {
    match e
    case World(w) => WorldServed(s, w);
    case Early(d) => EarlyServed(s, d);
    case Late(l) => LateServed(s, l);
    case Act(a) => ActorServed(s, a);
    case Down(c) => DownServed(s, c);
  }

  /** An app comes to be served by a swap or a recovery, and stays so until a destroy or a crash. */
  lemma ServedIff(s: State, e: Event)
    requires DownInv(s) && Enabled(s, e) && !(e.Down? && e.c.Recover?)
    ensures Served(Next(s, e)).Some? <==> e == Late(SwapRoute) || (Served(s).Some? && !Unserves(e))
  {
    match e
    case World(w) => WorldServed(s, w);
    case Early(d) => EarlyServed(s, d);
    case Late(l) => LateServed(s, l);
    case Act(a) => ActorServed(s, a);
    case Down(c) => DownServed(s, c);
  }

  // ------------------------------------------------------------------ whole runs

  /** At `k` a route was removed from under a served app, and nothing has settled it before `i`. */
  ghost predicate Unsettled(states: seq<State>, events: seq<Event>, k: nat, i: nat)
    requires k < i <= |events| && |states| == |events| + 1
  {
    events[k] == World(RouteRemoved) && Served(states[k]).Some? && forall m | k < m < i :: !Settles(events[m])
  }

  ghost predicate AnyUnsettled(states: seq<State>, events: seq<Event>, i: nat)
    requires i <= |events| && |states| == |events| + 1
  {
    exists k: nat :: k < i && Unsettled(states, events, k, i)
  }

  lemma AgreesUnlessMissing(states: seq<State>, events: seq<Event>, i: nat)
    requires IsRun(states, events) && i < |states|
    ensures states[i].route == Served(states[i]) <==> !RouteMissing(states[i])
    ensures i == 0 ==> !RouteMissing(states[i])
  {
    EveryReachableStateSatisfiesInvariant(states, events, i);
  }

  lemma MissingAt(states: seq<State>, events: seq<Event>, i: nat)
    requires IsRun(states, events) && i < |events|
    ensures RouteMissing(states[i + 1]) <==>
              || (events[i] == World(RouteRemoved) && Served(states[i]).Some?)
              || (RouteMissing(states[i]) && !Settles(events[i]))
  {
    RunStep(states, events, i);
    RouteMissingIff(states[i], events[i]);
  }

  lemma ServedAt(states: seq<State>, events: seq<Event>, i: nat)
    requires IsRun(states, events) && i < |events| && states[i].up && events[i] != Down(Crash)
    ensures states[i + 1].up
    ensures Served(states[i + 1]).Some? <==>
              events[i] == Late(SwapRoute) || (Served(states[i]).Some? && events[i] != Act(DestroyBegins))
  {
    RunStep(states, events, i);
    ServedIff(states[i], events[i]);
    UpUntilACrash(states[i], events[i]);
  }

  lemma LookupAt(states: seq<State>, events: seq<Event>, i: nat)
    requires IsRun(states, events) && i < |events| && events[i] == World(DestroyFindsNoActor) && !states[i].closing
    ensures states[i].up && Served(states[i]).None?
  {
    RunStep(states, events, i);
  }

  lemma RemovedAt(states: seq<State>, events: seq<Event>, i: nat)
    requires IsRun(states, events) && i < |events| && events[i] == World(RouteRemoved)
    ensures states[i + 1].route.None? && Served(states[i + 1]) == Served(states[i])
  {
    RunStep(states, events, i);
    WorldServed(states[i], RouteRemoved);
  }

  /** In every run, at every moment: the route is the served instance's unless a Destroy that
      had found no actor has removed it while the app was served, and no swap, destroy or
      crash has come since. */
  lemma {:induction false} RouteAgreesIff(states: seq<State>, events: seq<Event>, i: nat)
    requires IsRun(states, events) && i < |states|
    ensures states[i].route == Served(states[i]) <==> !AnyUnsettled(states, events, i)
  {
    AgreesUnlessMissing(states, events, i);
    if i > 0 {
      RouteAgreesIff(states, events, i - 1);
      AgreesUnlessMissing(states, events, i - 1);
      MissingAt(states, events, i - 1);
      UnsettledStep(states, events, i);
    }
  }

  lemma UnsettledStep(states: seq<State>, events: seq<Event>, i: nat)
    requires 0 < i <= |events| && |states| == |events| + 1
    ensures AnyUnsettled(states, events, i) <==>
              || (events[i - 1] == World(RouteRemoved) && Served(states[i - 1]).Some?)
              || (!Settles(events[i - 1]) && AnyUnsettled(states, events, i - 1))
  {
    if k: nat :| k < i && Unsettled(states, events, k, i) {
      if k < i - 1 { assert Unsettled(states, events, k, i - 1) && !Settles(events[i - 1]); }
    }
    if events[i - 1] == World(RouteRemoved) && Served(states[i - 1]).Some? {
      assert Unsettled(states, events, i - 1, i);
    }
    if !Settles(events[i - 1]) && AnyUnsettled(states, events, i - 1) {
      var k: nat :| k < i - 1 && Unsettled(states, events, k, i - 1);
      assert Unsettled(states, events, k, i);
    }
  }

  /** A deploy has swapped at `k` and no destroy has come since. */
  predicate SwappedAt(events: seq<Event>, k: nat, j: nat)
    requires k < j <= |events|
  {
    events[k] == Late(SwapRoute) && forall m | k < m < j :: events[m] != Act(DestroyBegins)
  }

  ghost predicate SwappedSince(events: seq<Event>, i: nat, j: nat)
    requires j <= |events|
  {
    exists k: nat :: i <= k < j && SwappedAt(events, k, j)
  }

  lemma {:induction false} ServedSinceLookup(states: seq<State>, events: seq<Event>, i: nat, j: nat)
    requires IsRun(states, events) && i <= j < |states| && states[i].up && Served(states[i]).None?
    requires forall k | i <= k < j :: events[k] != Down(Crash)
    ensures states[j].up
    ensures Served(states[j]).Some? <==> SwappedSince(events, i, j)
  {
    if i < j {
      ServedSinceLookup(states, events, i, j - 1);
      ServedAt(states, events, j - 1);
      SwappedStep(events, i, j);
    }
  }

  lemma UpUntilACrash(s: State, e: Event)
    requires Enabled(s, e) && s.up && e != Down(Crash)
    ensures Next(s, e).up
  {
    match e
    case Early(d) => EarlyFields(s, d);
    case Act(a) => ActorDrains(s, a);
    case _ =>
  }

  lemma SwappedStep(events: seq<Event>, i: nat, j: nat)
    requires i < j <= |events|
    ensures SwappedSince(events, i, j) <==>
              || events[j - 1] == Late(SwapRoute)
              || (events[j - 1] != Act(DestroyBegins) && SwappedSince(events, i, j - 1))
  {
    if k: nat :| i <= k < j && SwappedAt(events, k, j) {
      if k < j - 1 { assert SwappedAt(events, k, j - 1); }
    }
    if events[j - 1] == Late(SwapRoute) { assert SwappedAt(events, j - 1, j); }
    if events[j - 1] != Act(DestroyBegins) && SwappedSince(events, i, j - 1) {
      var k: nat :| i <= k < j - 1 && SwappedAt(events, k, j - 1);
      assert SwappedAt(events, k, j);
    }
  }

  /** A Destroy looked for the app's actor at `i`, found none, and removes the route at `j`.
      What it leaves agrees with what the app is served from if and only if no deploy has
      swapped since the lookup, or a destroy has come after the last one that did. */
  lemma LateRemovalIsHarmlessIff(states: seq<State>, events: seq<Event>, i: nat, j: nat)
    requires IsRun(states, events) && i < j < |events|
    requires events[i] == World(DestroyFindsNoActor) && !states[i].closing && events[j] == World(RouteRemoved)
    requires forall k | i <= k < j :: events[k] != Down(Crash)
    ensures states[j + 1].route == Served(states[j + 1]) <==> !SwappedSince(events, i, j)
  {
    LookupAt(states, events, i);
    RemovedAt(states, events, j);
    ServedSinceLookup(states, events, i, j);
  }

  // -------------------------------------------------------------- and it happens

  lemma Extended(states: seq<State>, events: seq<Event>, e: Event)
    requires IsRun(states, events) && Enabled(states[|events|], e)
    ensures IsRun(states + [Next(states[|events|], e)], events + [e])
  {
    var (states', events') := (states + [Next(states[|events|], e)], events + [e]);
    forall i | 0 <= i < |events'| ensures StepAt(states', events', i) {
      if i < |events| { assert StepAt(states, events, i); }
    }
  }

  /** A run that ends in `s`. */
  ghost predicate Reached(states: seq<State>, events: seq<Event>, s: State) {
    IsRun(states, events) && states[|events|] == s
  }

  lemma Step(states: seq<State>, events: seq<Event>, s: State, e: Event)
    requires Reached(states, events, s) && Enabled(s, e)
    ensures Reached(states + [Next(s, e)], events + [e], Next(s, e))
  {
    Extended(states, events, e);
  }

  /** From any new app: a lookup that finds no actor, and then a push up to its healthy candidate. */
  lemma PushAfterLookup(s: State) returns (states: seq<State>, events: seq<Event>, t: State)
    requires Init(s)
    ensures Reached(states, events, t) && states[0] == s && t.up && t.strays == 1
    ensures t.activity.Busy? && t.activity.cmd.Push? && t.activity.stage.Healthy?
  {
    var found := NextWorld(s, DestroyFindsNoActor);
    assert Reached([s], [], s);
    Step([s], [], s, World(DestroyFindsNoActor));
    var a, b, c := PushedRow([s, found], [World(DestroyFindsNoActor)], found);
    states, events, t := HealthyFrom(a, b, c);
  }

  ghost function Unused(ids: set<nat>): (id: nat)
    ensures id !in ids
  {
    MaxOf(ids) + 1
  }

  lemma PushedRow(states: seq<State>, events: seq<Event>, s: State)
    returns (states': seq<State>, events': seq<Event>, t: State)
    requires Reached(states, events, s) && s.up && s.activity.Waiting? && s.app in s.db.apps
    ensures Reached(states', events', t) && states'[0] == states[0] && t.up && t.strays == s.strays
    ensures t.activity.Busy? && t.activity.cmd.Push? && t.activity.stage.Created?
    ensures MarkBuilt(t.db, t.activity.stage.rel.id, "image").1.None?
  {
    var (take, id) := (Act(Take(Push("sha", "manifest"), false)), Unused(s.db.releases.Keys));
    var u := Next(s, take);
    Step(states, events, s, take);
    Step(states + [u], events + [take], u, Early(CreateRow(id, true)));
    t := NextEarly(u, CreateRow(id, true));
    states', events' := states + [u] + [t], events + [take] + [Early(CreateRow(id, true))];
    CreateReleaseRow(u.db, u.app, u.activity.stage.n, id);
  }

  lemma HealthyFrom(states: seq<State>, events: seq<Event>, s: State)
    returns (states': seq<State>, events': seq<Event>, t: State)
    requires Reached(states, events, s) && s.up && s.activity.Busy? && s.activity.cmd.Push? && s.activity.stage.Created?
    requires MarkBuilt(s.db, s.activity.stage.rel.id, "image").1.None?
    ensures Reached(states', events', t) && states'[0] == states[0] && t.up && t.strays == s.strays
    ensures t.activity.Busy? && t.activity.cmd.Push? && t.activity.stage.Healthy?
  {
    var (built, checked) := (Early(BuildEnds(Some("image"))), Early(ProbeEnds(true)));
    var u := Next(s, built);
    Step(states, events, s, built);
    var launched := Early(Launch(Some(Unused(u.started)), true));
    var v := Next(u, launched);
    Step(states + [u], events + [built], u, launched);
    Step(states + [u] + [v], events + [built] + [launched], v, checked);
    t := Next(v, checked);
    states', events' := states + [u] + [v] + [t], events + [built] + [launched] + [checked];
  }

  /** The swap, the commit, the row, the verdict; and then the route is removed. */
  lemma RemovedAfterSwap(states: seq<State>, events: seq<Event>, s: State)
    returns (states': seq<State>, events': seq<Event>, t: State)
    requires Reached(states, events, s) && s.up && s.strays == 1
    requires s.activity.Busy? && s.activity.cmd.Push? && s.activity.stage.Healthy?
    ensures Reached(states', events', t) && states'[0] == states[0]
    ensures t.up && t.activity.Waiting? && t.current.Some? && !t.current.value.exited && t.route.None?
  {
    var u := Next(s, Late(SwapRoute));
    Step(states, events, s, Late(SwapRoute));
    var v := Next(u, Late(Commit));
    Step(states + [u], events + [Late(SwapRoute)], u, Late(Commit));
    states', events', t := Concluded(states + [u] + [v], events + [Late(SwapRoute)] + [Late(Commit)], v);
  }

  lemma Concluded(states: seq<State>, events: seq<Event>, s: State)
    returns (states': seq<State>, events': seq<Event>, t: State)
    requires Reached(states, events, s) && s.up && s.strays == 1 && s.current.Some? && !s.current.value.exited
    requires s.activity.Busy? && s.activity.cmd.Push? && s.activity.stage.Committed?
    ensures Reached(states', events', t) && states'[0] == states[0]
    ensures t.up && t.activity.Waiting? && t.current.Some? && !t.current.value.exited && t.route.None?
  {
    var u := Next(s, Late(GoLive));
    Step(states, events, s, Late(GoLive));
    var v := Next(u, Late(Finish));
    Step(states + [u], events + [Late(GoLive)], u, Late(Finish));
    Step(states + [u] + [v], events + [Late(GoLive)] + [Late(Finish)], v, World(RouteRemoved));
    t := Next(v, World(RouteRemoved));
    states', events' := states + [u] + [v] + [t], events + [Late(GoLive)] + [Late(Finish)] + [World(RouteRemoved)];
  }

  /** From every new app there is a run that leaves it, between commands, with a current
      instance that is up and no route to it. */
  lemma AServedAppCanLoseItsRoute(s: State) returns (states: seq<State>, events: seq<Event>)
    requires Init(s)
    ensures IsRun(states, events) && states[0] == s
    ensures var t := states[|events|];
      t.up && t.activity.Waiting? && t.current.Some? && !t.current.value.exited && t.route.None?
  {
    var a, b, c := PushAfterLookup(s);
    var t;
    states, events, t := RemovedAfterSwap(a, b, c);
  }
}
