/**
  What the invariant buys, second part: the drain is long enough for every request that
  had loaded the old route.
 */
module LifecycleTimed {
  import opened Wrappers
  import opened Releases
  import opened Backoff
  import opened Lifecycle
  import opened LifecycleInvariant
  import opened LifecycleSteps
  import opened LifecycleTheorems

  /** `id` was routed at time `since`: whatever drains it began no earlier, and it can
      no longer be dropped as an unserved candidate. */
  ghost predicate ServedSince(s: State, id: InstanceId, since: Time) {
    && s.up && id in s.started && since <= s.now
    && (id in s.draining ==> since <= s.draining[id])
    && (s.activity.Busy? && Candidate(s) == {id} ==> s.activity.stage.Routed?)
  }

  lemma RoutedIsServed(s: State)
    requires Inv(s) && s.route.Some?
    ensures ServedSince(s, s.route.value, s.now)
  {
    ServedOwner(s);
    assert s.route.value in s.started by {
      if s.activity.Busy? && s.activity.stage.Routed? { assert s.activity.stage.cand in s.instances; }
    }
  }

  lemma WorldServes(s: State, w: WorldStep, id: InstanceId, since: Time)
    requires ServedSince(s, id, since) && WorldEnabled(s, w)
    ensures ServedSince(NextWorld(s, w), id, since)
  {
    assert Candidate(NextWorld(s, w)) == Candidate(s);
  }

  lemma EarlyServes(s: State, d: EarlyStep, id: InstanceId, since: Time)
    requires ServedSince(s, id, since) && EarlyEnabled(s, d)
    ensures ServedSince(NextEarly(s, d), id, since)
  {
    EarlyFields(s, d);
    EarlyCandidate(s, d);
    assert Candidate(NextEarly(s, d)) == Candidate(s) || id !in Candidate(NextEarly(s, d));
  }

  lemma LateServes(s: State, l: LateStep, id: InstanceId, since: Time)
    requires ServedSince(s, id, since) && LateEnabled(s, l)
    ensures ServedSince(NextLate(s, l), id, since)
  {
    match l
    case SwapRoute =>
    case Commit => assert Candidate(DoCommit(s)) == {};
    case GoLive => assert Candidate(DoGoLive(s)) == {};
    case Finish => assert Candidate(DoFinish(s)) == {};
  }

  lemma ActorServes(s: State, a: ActorStep, id: InstanceId, since: Time)
    requires ServedSince(s, id, since) && ActorEnabled(s, a) && RowsOk(s.db)
        && (s.app in s.db.apps ==> AppOk(s.db, s.app))
    ensures ServedSince(NextActor(s, a), id, since)
  {
    match a
    case Take(cmd, refused) => TakeHasNoCandidate(s, cmd, refused);
    case TimerFires(refused) => TakeHasNoCandidate(s.(retry := None), Restart(false, true), refused);
    case _ =>
  }

  lemma TakeHasNoCandidate(s: State, cmd: Command, refused: bool)
    ensures Candidate(DoTake(s, cmd, refused)) == {} && DoTake(s, cmd, refused).draining == s.draining
    ensures DoTake(s, cmd, refused).up == s.up && DoTake(s, cmd, refused).now == s.now
        && DoTake(s, cmd, refused).started == s.started
  {}

  lemma StepServes(s: State, e: Event, id: InstanceId, since: Time)
    requires Inv(s) && ServedSince(s, id, since) && Enabled(s, e) && e != Down(Crash)
    ensures ServedSince(Next(s, e), id, since)
  {
    match e
    case World(w) => WorldServes(s, w, id, since);
    case Early(d) => EarlyServes(s, d, id, since);
    case Late(l) => LateServes(s, l, id, since);
    case Act(a) =>
      assert AppOk(s.db, s.app);
      ActorServes(s, a, id, since);
    case Down(c) =>
  }

  lemma {:induction false} ServedFrom(states: seq<State>, events: seq<Event>, i: nat, j: nat, id: InstanceId)
    requires IsRun(states, events) && i <= j < |states| && states[i].route == Some(id)
    requires forall k | i <= k < j :: events[k] != Down(Crash)
    ensures ServedSince(states[j], id, states[i].now)
  {
    if i == j {
      EveryReachableStateSatisfiesInvariant(states, events, i);
      RoutedIsServed(states[i]);
    } else {
      ServedFrom(states, events, i, j - 1, id);
      RunStep(states, events, j - 1);
      StepServes(states[j - 1], events[j - 1], id, states[i].now);
    }
  }

  /** The timed promise of a drain. A request that loaded the table while it named `id`
      has the whole drain grace before `id` is stopped, unless the daemon crashes or shuts
      down, the instance itself exits, or the app is destroyed. */
  lemma RequestsOfTheOldRouteFinish(states: seq<State>, events: seq<Event>, i: nat, j: nat, id: InstanceId)
    requires IsRun(states, events) && i <= j < |events| && states[i].route == Some(id)
    requires forall k | i <= k < j :: events[k] != Down(Crash)
    requires Enabled(states[j], events[j]) && id in Stops(states[j], events[j])
    requires events[j] != Act(Reap) && events[j] != Act(DestroyEnds) && !states[j].closing
    ensures states[i].now + states[j].drainGrace <= states[j].now
  {
    ServedFrom(states, events, i, j, id);
    RunStep(states, events, j);
    OnlyADrainStopsIt(states[j], events[j], id, states[i].now);
  }

  lemma OnlyADrainStopsIt(s: State, e: Event, id: InstanceId, since: Time)
    requires ServedSince(s, id, since) && Enabled(s, e) && id in Stops(s, e)
    requires e != Act(Reap) && e != Act(DestroyEnds)
    ensures e == World(DrainEnds(id)) && since <= s.draining[id]
  {
    match e
    case World(w) =>
    case Early(d) => assert false;
    case Late(l) =>
    case Act(a) =>
    case Down(c) =>
  }
}
