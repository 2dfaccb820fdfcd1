/**
  The first third of the invariant: rows, instances and rollbacks, step by step.
 */
module LifecycleData {
  import opened Wrappers
  import opened Releases
  import opened Lifecycle
  import opened LifecycleInvariant

  /** Instances that survive a step are what they were. */
  ghost predicate InstancesShrink(s: State, t: State) {
    forall id | id in t.instances ::
      id in s.instances && t.instances[id].(running := s.instances[id].running) == s.instances[id]
  }

  predicate NoRollbackPrepared(s: State) {
    s.activity.Busy? && s.activity.stage.Prepared? ==> !s.activity.stage.n.note.RolledBack?
  }

  /** A step that writes no row and starts nothing. */
  lemma DataFrame(s: State, t: State)
    requires DataInv(s) && t.app == s.app && t.db == s.db && t.started >= s.started && InstancesShrink(s, t)
    requires t.activity == s.activity || PlanInv(t)
    ensures DataInv(t)
  {}

  // ------------------------------------------------------------ how rows carry over

  lemma RunsItsRowKept(db: Tables, dc: Tables, app: nat, inst: Instance)
    requires RunsItsRow(db, app, inst)
    requires inst.row in dc.releases && SameRelease(db.releases[inst.row], dc.releases[inst.row])
    ensures RunsItsRow(dc, app, inst)
  {}

  lemma RollbackOfKept(db: Tables, dc: Tables, app: nat, content: Content, version: nat)
    requires RollbackOf(db, app, content, version)
    requires forall id | id in db.releases && db.releases[id].app == app ::
      id in dc.releases && SameRelease(db.releases[id], dc.releases[id])
    ensures RollbackOf(dc, app, content, version)
  {
    var id :| IsVersion(db, app, version, id) && db.releases[id].content == content
        && db.releases[id].status != Building
              && content.image != "";
    assert IsVersion(dc, app, version, id);
  }

  /** Rows that only move keep instances and rollbacks true; a new row is looked at by the caller. */
  lemma DataMoved(s: State, t: State, added: set<nat>)
    requires DataInv(s) && RowsInv(t) && t.app == s.app && t.started >= s.started && InstancesShrink(s, t)
    requires forall id | id in s.db.releases && s.db.releases[id].app == s.app ::
               id in t.db.releases && SameRelease(s.db.releases[id], t.db.releases[id])
    requires forall id | id in t.db.releases && t.db.releases[id].app == s.app && id !in added ::
               id in s.db.releases && s.db.releases[id].app == s.app
    requires forall id | id in t.db.releases && id in added && t.db.releases[id].note.RolledBack? ::
               RollbackOf(s.db, s.app, t.db.releases[id].content, t.db.releases[id].note.version)
               && t.db.releases[id].note.version < t.db.releases[id].version
    requires NoRollbackPrepared(t) || t.activity == s.activity
    ensures DataInv(t)
  {
    forall id | id in t.instances ensures RunsItsRow(t.db, t.app, t.instances[id]) {
      RunsItsRowKept(s.db, t.db, s.app, s.instances[id]);
    }
    forall id | id in t.db.releases && t.db.releases[id].app == t.app && t.db.releases[id].note.RolledBack?
      ensures RollbackOf(t.db, t.app, t.db.releases[id].content, t.db.releases[id].note.version)
              && t.db.releases[id].note.version < t.db.releases[id].version
    {
      if id !in added {
        assert SameRelease(s.db.releases[id], t.db.releases[id]) && RowOk(s.db, id);
        assert RollbackOf(s.db, s.app, s.db.releases[id].content, s.db.releases[id].note.version);
      }
      RollbackOfKept(s.db, t.db, s.app, t.db.releases[id].content, t.db.releases[id].note.version);
    }
  }

  // ----------------------------------------------------------------- step by step

  lemma OtherAppsData(s: State, db: Tables)
    requires DataInv(s) && OnlyOtherApps(s, db)
    ensures DataInv(s.(db := db))
  {
    var t := s.(db := db);
    forall id | id in t.instances ensures RunsItsRow(t.db, t.app, t.instances[id]) {
      assert RunsItsRow(s.db, s.app, s.instances[id]);
    }
    forall content, version | RollbackOf(s.db, s.app, content, version)
      ensures RollbackOf(t.db, t.app, content, version)
    {
      RollbackOfKept(s.db, t.db, s.app, content, version);
    }
  }

  lemma FailOpenData(s: State, t: State, ids: set<nat>)
    requires DataInv(s) && t.app == s.app && t.db == FailOpen(s.db, ids) && t.started >= s.started
        && InstancesShrink(s, t)
    requires NoRollbackPrepared(t)
    ensures DataInv(t)
  {
    FailOpenRows(s.db, ids);
    FailOpenSound(s.db, ids);
    DataMoved(s, t, {});
  }

  /** A rollback's plan is the content of the release it names. */
  lemma RollbackPlan(s: State, version: nat)
    requires RowsInv(s) && Plan(s, Rollback(version)).Some?
    ensures RollbackOf(s.db, s.app, Plan(s, Rollback(version)).value.content, version)
  {
    var target := ByVersion(s.db, s.app, version).value;
    var id :| IsVersion(s.db, s.app, version, id) && s.db.releases[id] == target;
    assert RowOk(s.db, id);
  }

  lemma TakeData(s: State, cmd: Command, refused: bool)
    requires DataInv(s)
    ensures DataInv(DoTake(s, cmd, refused))
  {
    if cmd.Rollback? && Plan(s, cmd).Some? { RollbackPlan(s, cmd.version); }
    TakePlan(s, cmd, refused);
    DataFrame(s, DoTake(s, cmd, refused));
  }

  lemma TakePlan(s: State, cmd: Command, refused: bool)
    requires cmd.Rollback? && Plan(s, cmd).Some? ==> RollbackOf(s.db, s.app, Plan(s, cmd).value.content, cmd.version)
    ensures PlanInv(DoTake(s, cmd, refused))
  {}

  lemma CreateRowData(s: State, id: nat, written: bool)
    requires DataInv(s) && s.activity.Busy? && s.activity.stage.Prepared? && id !in s.db.releases
    ensures DataInv(DoCreateRow(s, id, written))
  {
    var t := DoCreateRow(s, id, written);
    var n := s.activity.stage.n;
    CreateReleaseRow(s.db, s.app, n, id);
    CreateReleaseSound(s.db, s.app, n, id);
    if !written {
      DataFrame(s, t);
    } else {
      if n.note.RolledBack? { CreatedRollback(s, n, t.db.releases[id]); }
      CreatedData(s, id);
    }
  }

  lemma CreatedData(s: State, id: nat)
    requires DataInv(s) && s.activity.Busy? && s.activity.stage.Prepared? && id !in s.db.releases
    requires var t := DoCreateRow(s, id, true);
      && Sound(t.db) && id in t.db.releases
      && (t.db.releases[id].note.RolledBack? ==>
            RollbackOf(s.db, s.app, t.db.releases[id].content, t.db.releases[id].note.version))
    ensures DataInv(DoCreateRow(s, id, true))
  {
    CreateReleaseRow(s.db, s.app, s.activity.stage.n, id);
    CreateReleaseSound(s.db, s.app, s.activity.stage.n, id);
    DataMoved(s, DoCreateRow(s, id, true), {id});
  }

  /** The row of a rollback: its snapshots are those of a row, so not empty. */
  lemma CreatedRollback(s: State, n: NewRelease, row: Release)
    requires RowsOk(s.db) && n.note.RolledBack? && RollbackOf(s.db, s.app, n.content, n.note.version) && MadeOf(n, row)
    ensures RollbackOf(s.db, s.app, row.content, row.note.version)
  {
    var id :| IsVersion(s.db, s.app, n.note.version, id) && s.db.releases[id].content == n.content
              && s.db.releases[id].status != Building && n.content.image != "";
    assert RowOk(s.db, id);
    assert row.content == n.content;
  }

  lemma BuildEndsData(s: State, image: Option<string>)
    requires DataInv(s) && s.activity.Busy? && s.activity.stage.Created? && StageOk(s)
    ensures DataInv(DoBuildEnds(s, image))
  {
    var t := DoBuildEnds(s, image);
    if image.None? || image.value == "" {
      DataFrame(s, t);
    } else {
      BuiltData(s, image.value);
    }
  }

  lemma BuiltData(s: State, image: string)
    requires DataInv(s) && s.activity.Busy? && s.activity.stage.Created? && StageOk(s) && image != ""
    ensures DataInv(DoBuildEnds(s, Some(image)))
  {
    MarkBuiltRows(s.db, s.activity.stage.rel.id, image);
    MarkBuiltSound(s.db, s.activity.stage.rel.id, image);
    DataMoved(s, DoBuildEnds(s, Some(image)), {});
  }

  lemma LaunchData(s: State, id: Option<InstanceId>, published: bool)
    requires DataInv(s) && s.activity.Busy? && s.activity.stage.Launching? && StageOk(s)
    ensures DataInv(DoLaunch(s, id, published))
  {
    var t := DoLaunch(s, id, published);
    DataFrame(s, At(s, Failing(s.activity.stage.rel)));
    if id.Some? {
      assert RowOk(s.db, s.activity.stage.rel.id);
    }
  }

  lemma RecordFailureData(s: State)
    requires DataInv(s) && s.activity.Busy? && s.activity.stage.Failing?
    ensures DataInv(DoRecordFailure(s))
  {
    var t := DoRecordFailure(s);
    if s.activity.cmd.Restart? {
      DataFrame(s, t);
    } else {
      RecordFailureRow(s);
      FailOpenData(s, t, {s.activity.stage.rel.id});
    }
  }

  lemma RecordFailureRow(s: State)
    requires s.activity.Busy? && s.activity.stage.Failing? && !s.activity.cmd.Restart?
    ensures var t := DoRecordFailure(s);
      && t.db == FailOpen(s.db, {s.activity.stage.rel.id}) && t.app == s.app && NoRollbackPrepared(t)
      && t.started == s.started && t.instances == s.instances
  {
    MarkFailedIsFailOpen(s.db, s.activity.stage.rel.id);
  }

  lemma GoLiveData(s: State)
    requires DataInv(s) && s.activity.Busy? && s.activity.stage.Committed? && StageOk(s)
    ensures DataInv(DoGoLive(s))
  {
    var id := s.activity.stage.rel.id;
    SetLiveRows(s.db, s.app, id);
    SetLiveGrows(s.db, s.app, id);
    SetLiveSound(s.db, s.app, id);
    DataMoved(s, DoGoLive(s), {});
  }
}
