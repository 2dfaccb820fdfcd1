/**
  What the invariant buys, third part: the rows tell what ran, over whole runs.
 */
module LifecycleRows {
  import opened Wrappers
  import opened Releases
  import opened Lifecycle
  import opened LifecycleInvariant
  import opened LifecycleSteps
  import opened LifecycleTheorems

  /** The store never refuses what a deploy asks of it. */
  lemma StoreCallsAreLegal(s: State, image: string)
    requires Inv(s) && s.activity.Busy?
    ensures s.activity.stage.Created? && image != "" ==> MarkBuilt(s.db, s.activity.stage.rel.id, image).1 == None
    ensures s.activity.stage.Failing? && !s.activity.cmd.Restart? ==>
        MarkFailed(s.db, s.activity.stage.rel.id).1 == None
    ensures s.activity.stage.Committed? ==> SetLive(s.db, s.app, s.activity.stage.rel.id).1 == None
  {}

  /** Every row of the app stays the same release; only its status moves on. */
  ghost predicate RowsKept(s: State, t: State) {
    t.app == s.app
    && forall id | id in s.db.releases && s.db.releases[id].app == s.app ::
         id in t.db.releases && SameRelease(s.db.releases[id], t.db.releases[id])
  }

  lemma {:induction false} HistoryIsNeverRewritten(states: seq<State>, events: seq<Event>, i: nat, j: nat)
    requires IsRun(states, events) && i <= j < |states|
    ensures RowsKept(states[i], states[j])
  {
    if i < j {
      HistoryIsNeverRewritten(states, events, i, j - 1);
      RowsKeptStep(states, events, j - 1);
      RowsKeptTransitive(states[i], states[j - 1], states[j]);
    }
  }

  lemma RowsKeptTransitive(s: State, t: State, u: State)
    requires RowsKept(s, t) && RowsKept(t, u)
    ensures RowsKept(s, u)
  {
    forall id | id in s.db.releases && s.db.releases[id].app == s.app
      ensures id in u.db.releases && SameRelease(s.db.releases[id], u.db.releases[id])
    {
      assert id in t.db.releases && SameRelease(s.db.releases[id], t.db.releases[id]);
    }
  }

  lemma RowsKeptStep(states: seq<State>, events: seq<Event>, i: nat)
    requires IsRun(states, events) && i < |events|
    ensures RowsKept(states[i], states[i + 1])
  {
    RunStep(states, events, i);
    RowsStep(states[i], events[i]);
  }

  lemma GrowsKeeps(s: State, t: State)
    requires t.app == s.app && Grows(s.db, t.db)
    ensures RowsKept(s, t)
  {}

  lemma RowsStep(s: State, e: Event)
    requires RowsOk(s.db) && AppsOk(s.db) && Enabled(s, e)
    ensures RowsKept(s, Next(s, e))
  {
    match e
    case World(w) => WorldRows(s, w);
    case Early(d) => EarlyRows(s, d);
    case Late(l) => LateRows(s, l);
    case Act(a) => ActorRows(s, a);
    case Down(c) => DownRows(s, c);
  }

  lemma ActorRows(s: State, a: ActorStep)
    requires ActorEnabled(s, a)
    ensures RowsKept(s, NextActor(s, a))
  {
    assert NextActor(s, a).db == s.db && NextActor(s, a).app == s.app;
  }

  lemma WorldRows(s: State, w: WorldStep)
    requires WorldEnabled(s, w)
    ensures RowsKept(s, NextWorld(s, w))
  {}

  lemma EarlyRows(s: State, d: EarlyStep)
    requires EarlyEnabled(s, d)
    ensures RowsKept(s, NextEarly(s, d))
  {
    match d
    case CreateRow(id, written) => CreateReleaseRow(s.db, s.app, s.activity.stage.n, id);
    case BuildEnds(image) => BuiltRows(s, image);
    case RecordFailure => FailedRows(s);
    case _ => assert NextEarly(s, d).db == s.db && NextEarly(s, d).app == s.app;
  }

  lemma FailedRows(s: State)
    requires s.activity.Busy? && s.activity.stage.Failing?
    ensures RowsKept(s, DoRecordFailure(s))
  {
    MarkFailedRows(s.db, s.activity.stage.rel.id);
    GrowsKeeps(s, DoRecordFailure(s));
  }

  lemma BuiltRows(s: State, image: Option<string>)
    requires s.activity.Busy? && s.activity.stage.Created?
    ensures RowsKept(s, DoBuildEnds(s, image))
  {
    if image.Some? && MarkBuilt(s.db, s.activity.stage.rel.id, image.value).1.None? {
      MarkBuiltRows(s.db, s.activity.stage.rel.id, image.value);
    }
  }

  lemma LateRows(s: State, l: LateStep)
    requires RowsOk(s.db) && AppsOk(s.db) && LateEnabled(s, l)
    ensures RowsKept(s, NextLate(s, l))
  {
    match l
    case GoLive =>
      SetLiveGrows(s.db, s.app, s.activity.stage.rel.id);
      GrowsKeeps(s, DoGoLive(s));
    case _ => assert NextLate(s, l).db == s.db && NextLate(s, l).app == s.app;
  }

  lemma DownRows(s: State, c: DownStep)
    requires DownEnabled(s, c)
    ensures RowsKept(s, NextDown(s, c))
  {
    match c
    case Crash =>
    case RecoveryCutOff(_, failed) => FailOpenRows(s.db, failed);
    case Recover(_) => FailOpenRows(s.db, s.db.releases.Keys);
  }

  /** Whatever runs, runs its row: the image, commit, config and manifest an instance was
      started with are those the row says, at every moment of every run. */
  lemma WhatRunsIsWhatTheRowSays(states: seq<State>, events: seq<Event>, i: nat, id: InstanceId)
    requires IsRun(states, events) && i < |states| && id in states[i].instances
    ensures RunsItsRow(states[i].db, states[i].app, states[i].instances[id])
  {
    EveryReachableStateSatisfiesInvariant(states, events, i);
  }

  // ------------------------------------------------------------------ rollbacks

  /** Where a chain of rollbacks began: the notes are followed back to a release that was
      not itself a rollback. */
  ghost function Origin(t: Tables, app: nat, v: nat): nat
    decreases v
  {
    var r := ByVersion(t, app, v);
    if r.Some? && r.value.note.RolledBack? && r.value.note.version < v then Origin(t, app, r.value.note.version) else v
  }

  /** The release `v` names has the content of the one its chain of rollbacks began with,
      which was not itself a rollback. */
  ghost predicate FromItsOrigin(s: State, v: nat) {
    var (r, origin) := (ByVersion(s.db, s.app, v), ByVersion(s.db, s.app, Origin(s.db, s.app, v)));
    r.Some? ==> origin.Some? && origin.value.content == r.value.content && !origin.value.note.RolledBack?
  }

  lemma {:induction false} ChainKeepsContent(s: State, v: nat)
    requires Inv(s)
    ensures FromItsOrigin(s, v)
    decreases v
  {
    if ByVersion(s.db, s.app, v).None? { return; }
    var r := ByVersion(s.db, s.app, v).value;
    if r.note.RolledBack? {
      var id :| IsVersion(s.db, s.app, v, id) && s.db.releases[id] == r;
      assert RollbackOf(s.db, s.app, r.content, r.note.version);
      var from :| IsVersion(s.db, s.app, r.note.version, from) && s.db.releases[from].content == r.content;
      var target := ByVersion(s.db, s.app, r.note.version).value;
      SameVersionSameRow(s.db, s.app, r.note.version, from, target);
      ChainKeepsContent(s, r.note.version);
    }
  }

  /** Any chain of rollbacks ends in a row with the image, commit, config and manifest of
      the release the chain began with, at every moment of every run. */
  lemma RollbackChainKeepsContent(states: seq<State>, events: seq<Event>, i: nat, v: nat)
    requires IsRun(states, events) && i < |states|
    ensures FromItsOrigin(states[i], v)
  {
    EveryReachableStateSatisfiesInvariant(states, events, i);
    ChainKeepsContent(states[i], v);
  }

  lemma SameVersionSameRow(t: Tables, app: nat, v: nat, id: nat, r: Release)
    requires VersionsDistinct(t) && IsVersion(t, app, v, id) && ByVersion(t, app, v) == Some(r)
    ensures t.releases[id] == r
  {
    var other :| IsVersion(t, app, v, other) && t.releases[other] == r;
    assert other == id;
  }
}
