/**
  The store's statements on mutable tables, and the table invariant over every sequence
  of operations.
 */
module Store {
  import opened Wrappers
  import opened Releases

  class Store {
    var apps: map<nat, App>
    var releases: map<nat, Release>

    constructor ()
      ensures apps == map[] && releases == map[] && Valid()
    {
      apps, releases := map[], map[];
    }

    function Rows(): Tables
      reads this
    {
      Tables(apps, releases)
    }

    ghost predicate Valid()
      reads this
    {
      Sound(Rows())
    }

    method CreateApp(name: string, host: string) returns (id: nat, error: Option<Error>)
      requires Valid()
      modifies this
      ensures Valid()
      ensures id !in old(apps) && (Rows(), error) == Releases.CreateApp(old(Rows()), name, host, id)
      ensures error == Some(InvalidName) <==>
        (|name| < 1 || 32 < |name| || exists c :: c in name && !('a' <= c <= 'z' || '0' <= c <= '9' || c == '-'))
      ensures error == Some(Exists) <==>
        (&& error != Some(InvalidName)
         && exists a :: a in old(apps) && (old(apps)[a].name == name || old(apps)[a].host == host))
      ensures error in {None, Some(InvalidName), Some(Exists)}
      ensures apps == (if error.None? then old(apps)[id := App(name, host, None)] else old(apps))
      ensures releases == old(releases)
    {
      id := NextId(apps.Keys);
      CreateAppSound(Rows(), name, host, id);
      if !ValidName(name) { return id, Some(InvalidName); }
      if exists a | a in apps :: apps[a].name == name || apps[a].host == host { return id, Some(Exists); }
      apps := apps[id := App(name, host, None)];
      error := None;
    }

    method DeleteApp(app: nat) returns (error: Option<Error>)
      requires Valid()
      modifies this
      ensures Valid()
      ensures (Rows(), error) == Releases.DeleteApp(old(Rows()), app)
      ensures error == if app in old(apps) then None else Some(NotFound)
      ensures error.Some? ==> apps == old(apps) && releases == old(releases)
      ensures error.None? ==>
        && apps.Keys == old(apps).Keys - {app}
        && (forall a | a in apps :: apps[a] == old(apps)[a])
        && (forall k :: k in releases <==> k in old(releases) && old(releases)[k].app != app)
        && (forall k | k in releases :: releases[k] == old(releases)[k])
    {
      DeleteAppSound(Rows(), app);
      if app !in apps { return Some(NotFound); }
      apps := apps - {app};
      releases := map k | k in releases && releases[k].app != app :: releases[k];
      error := None;
    }

    /** The version is one more than the highest of the app's rows, of which all are looked at. */
    method CreateRelease(app: nat, n: NewRelease) returns (id: nat, r: Result<Release, Error>)
      requires Valid()
      modifies this
      ensures Valid()
      ensures id !in old(releases) && (Rows(), r) == Releases.CreateRelease(old(Rows()), app, n, id)
      ensures app !in old(apps) ==> r == Err(NotFound) && releases == old(releases)
      ensures app in old(apps) ==>
        && r.Ok? && releases == old(releases)[id := r.value]
        && r.value.id == id && r.value.app == app && MadeOf(n, r.value)
        && r.value.status == (if n.content.image == "" then Building else Starting)
        && NextVersion(old(releases), app, r.value.version)
      ensures apps == old(apps)
    {
      id := NextId(releases.Keys);
      if app !in apps { return id, Err(NotFound); }
      var top := MaxVersion(app);
      var content := n.content.(config := OrEmptyDocument(n.content.config),
          manifest := OrEmptyDocument(n.content.manifest));
      var row := Release(id, app, top + 1, content, if content.image == "" then Building else Starting, n.note);
      CreatedBy(Rows(), app, n, id, row, top);
      releases := releases[id := row];
      r := Ok(row);
    }

    method MaxVersion(app: nat) returns (top: nat)
      ensures top == MaxOf(Versions(Rows(), app)) && NextVersion(releases, app, top + 1)
    {
      top := 0;
      var todo := releases.Keys;
      ghost var seen: set<nat> := {};
      while todo != {}
        invariant todo <= releases.Keys
        invariant forall id | id in releases && id !in todo && releases[id].app == app :: releases[id].version <= top
        invariant top == 0 || exists id :: id in releases && releases[id].app == app && releases[id].version == top
      {
        var id :| id in todo;
        if releases[id].app == app && releases[id].version > top { top := releases[id].version; }
        todo := todo - {id};
      }
      MaxIsUnique(Rows(), app, top);
    }

    method MarkBuilt(id: nat, image: string) returns (error: Option<Error>)
      requires Valid()
      modifies this
      ensures Valid()
      ensures (Rows(), error) == Releases.MarkBuilt(old(Rows()), id, image)
      ensures error ==
        if image == "" then Some(ImageRequired)
        else if id !in old(releases) then Some(NotFound)
        else if old(releases)[id].status != Building then Some(InvalidTransition(old(releases)[id].status, Starting))
        else None
      ensures apps == old(apps) && (error.Some? ==> releases == old(releases))
      ensures error.None? ==>
        releases == old(releases)[id := old(releases)[id].(status := Starting,
                                                           content := old(releases)[id].content.(image := image))]
    {
      MarkBuiltSound(Rows(), id, image);
      if image == "" { return Some(ImageRequired); }
      if !(id in releases && releases[id].status == Building) { return Some(NoChange(Rows(), None, id, Starting)); }
      var row := releases[id];
      releases := releases[id := row.(status := Starting, content := row.content.(image := image))];
      error := None;
    }

    method MarkFailed(id: nat) returns (error: Option<Error>)
      requires Valid()
      modifies this
      ensures Valid()
      ensures (Rows(), error) == Releases.MarkFailed(old(Rows()), id)
      ensures error ==
        if id !in old(releases) then Some(NotFound)
        else if old(releases)[id].status != Building && old(releases)[id].status != Starting
        then Some(InvalidTransition(old(releases)[id].status, Failed))
        else None
      ensures apps == old(apps) && (error.Some? ==> releases == old(releases))
      ensures error.None? ==> releases == old(releases)[id := old(releases)[id].(status := Failed)]
    {
      MarkFailedSound(Rows(), id);
      if !(id in releases && Open(releases[id].status)) { return Some(NoChange(Rows(), None, id, Failed)); }
      releases := releases[id := releases[id].(status := Failed)];
      error := None;
    }

    /** One transaction: the release goes live, the one it replaces is superseded, the app
        names it. */
    method SetLive(app: nat, id: nat) returns (error: Option<Error>)
      requires Valid()
      modifies this
      ensures Valid()
      ensures (Rows(), error) == Releases.SetLive(old(Rows()), app, id)
      ensures error ==
        if id !in old(releases) || old(releases)[id].app != app then Some(NotFound)
        else if old(releases)[id].status != Starting then Some(InvalidTransition(old(releases)[id].status, Live))
        else None
      ensures error.Some? ==> apps == old(apps) && releases == old(releases)
      ensures error.None? ==>
        && app in old(apps) && apps == old(apps)[app := old(apps)[app].(live := Some(id))]
        && releases.Keys == old(releases).Keys && releases[id] == old(releases)[id].(status := Live)
        && (forall k | k in releases && k != id ::
              releases[k] == if old(apps)[app].live == Some(k) then old(releases)[k].(status := Superseded)
                             else old(releases)[k])
    {
      SetLiveSound(Rows(), app, id);
      SetLiveByFields(Rows(), app, id);
      if !(id in releases && releases[id].app == app && releases[id].status == Starting) {
        return Some(NoChange(Rows(), Some(app), id, Live));
      }
      TwoUpdates(Rows(), app, id);
      releases := releases[id := releases[id].(status := Live)];
      releases := Supersede(releases, app, id);
      if app in apps { apps := apps[app := apps[app].(live := Some(id))]; }
      error := None;
    }

    /** Any one statement. `ran` is `op` with the id the database has handed out, if any. */
    method Run(op: Operation) returns (ran: Operation)
      requires Valid()
      modifies this
      ensures Valid()
      ensures Possible(old(Rows()), ran) && Rows() == Apply(old(Rows()), ran)
      ensures SameStatement(op, ran)
    {
      ran := op;
      match op {
        case OpCreateApp(name, host, _) =>
          var id, error := CreateApp(name, host);
          ran := OpCreateApp(name, host, id);
        case OpDeleteApp(app) =>
          var error := DeleteApp(app);
        case OpCreateRelease(app, n, _) =>
          var id, r := CreateRelease(app, n);
          ran := OpCreateRelease(app, n, id);
        case OpMarkBuilt(id, image) =>
          var error := MarkBuilt(id, image);
        case OpMarkFailed(id) =>
          var error := MarkFailed(id);
        case OpSetLive(app, id) =>
          var error := SetLive(app, id);
      }
    }
  }

  /** UPDATE ... SET status = superseded WHERE app_id = ? AND status = live AND id <> ?. */
  function Supersede(releases: map<nat, Release>, app: nat, id: nat): map<nat, Release> {
    map k | k in releases ::
      if releases[k].app == app && releases[k].status == Live && k != id then releases[k].(status := Superseded)
          else releases[k]
  }

  lemma CreatedBy(t: Tables, app: nat, n: NewRelease, id: nat, row: Release, top: nat)
    requires Sound(t) && id !in t.releases && app in t.apps && top == MaxOf(Versions(t, app))
    requires row.id == id && row.app == app && row.version == top + 1 && row.note == n.note
    requires row.status == if n.content.image == "" then Building else Starting
    requires row.content == n.content.(config := OrEmptyDocument(n.content.config),
                                       manifest := OrEmptyDocument(n.content.manifest))
    ensures Releases.CreateRelease(t, app, n, id) == (Tables(t.apps, t.releases[id := row]), Ok(row))
    ensures Sound(Tables(t.apps, t.releases[id := row])) && MadeOf(n, row)
  {
    CreateReleaseSound(t, app, n, id);
  }

  lemma SetLiveByFields(t: Tables, app: nat, id: nat)
    requires Sound(t)
    ensures var u := Releases.SetLive(t, app, id).0;
      Releases.SetLive(t, app, id).1.None? ==>
        && app in t.apps && u.apps == t.apps[app := t.apps[app].(live := Some(id))]
        && u.releases.Keys == t.releases.Keys && id in t.releases && u.releases[id] == t.releases[id].(status := Live)
        && (forall k | k in u.releases && k != id ::
              u.releases[k] == if t.apps[app].live == Some(k) then t.releases[k].(status := Superseded)
                               else t.releases[k])
  {
    if Releases.SetLive(t, app, id).1.None? { SetLiveRows(t, app, id); }
  }

  lemma TwoUpdates(t: Tables, app: nat, id: nat)
    requires RowsOk(t) && id in t.releases && t.releases[id].app == app && t.releases[id].status == Starting
    ensures Supersede(t.releases[id := t.releases[id].(status := Live)], app, id) ==
        Releases.SetLive(t, app, id).0.releases
  {
    var u := Supersede(t.releases[id := t.releases[id].(status := Live)], app, id);
    var w := Releases.SetLive(t, app, id).0.releases;
    assert u.Keys == w.Keys == t.releases.Keys;
    forall k | k in u ensures u[k] == w[k] { assert RowOk(t, k); }
  }

  /** One more than the highest version of the app's rows, 1 for the first. */
  ghost predicate NextVersion(releases: map<nat, Release>, app: nat, v: nat) {
    && 1 <= v
    && (forall k | k in releases && releases[k].app == app :: releases[k].version < v)
    && (1 < v ==> exists k :: k in releases && releases[k].app == app && releases[k].version == v - 1)
  }

  /** The row id the database hands out: one more than the largest in use. */
  method NextId(used: set<nat>) returns (id: nat)
    ensures id !in used && forall k | k in used :: k < id
  {
    id := 0;
    var todo := used;
    while todo != {}
      invariant forall k | k in used && k !in todo :: k < id
    {
      var k :| k in todo;
      if k >= id { id := k + 1; }
      todo := todo - {k};
    }
  }

  lemma MaxIsUnique(t: Tables, app: nat, top: nat)
    requires forall id | id in t.releases && t.releases[id].app == app :: t.releases[id].version <= top
    requires top == 0 || exists id :: id in t.releases && t.releases[id].app == app && t.releases[id].version == top
    ensures top == MaxOf(Versions(t, app))
  {
    if top > 0 {
      var id :| id in t.releases && t.releases[id].app == app && t.releases[id].version == top;
      VersionsOf(t, app, id);
    }
    var m := MaxOf(Versions(t, app));
    if m > 0 {
      var id :| id in t.releases && t.releases[id].app == app && t.releases[id].version == m;
    }
  }

  // --------------------------------------------------------- operation sequences

  datatype Operation =
    | OpCreateApp(name: string, host: string, id: nat)
    | OpDeleteApp(app: nat)
    | OpCreateRelease(app: nat, n: NewRelease, id: nat)
    | OpMarkBuilt(id: nat, image: string)
    | OpMarkFailed(id: nat)
    | OpSetLive(app: nat, id: nat)

  /** The same but for the id of a new row. */
  predicate SameStatement(op: Operation, ran: Operation) {
    match op
    case OpCreateApp(name, host, _) => ran.OpCreateApp? && ran.name == name && ran.host == host
    case OpCreateRelease(app, n, _) => ran.OpCreateRelease? && ran.app == app && ran.n == n
    case _ => ran == op
  }

  /** The database never hands out an id that is in use. */
  predicate Possible(t: Tables, op: Operation) {
    match op
    case OpCreateApp(_, _, id) => id !in t.apps
    case OpCreateRelease(_, _, id) => id !in t.releases
    case _ => true
  }

  ghost function Apply(t: Tables, op: Operation): Tables {
    match op
    case OpCreateApp(name, host, id) => Releases.CreateApp(t, name, host, id).0
    case OpDeleteApp(app) => Releases.DeleteApp(t, app).0
    case OpCreateRelease(app, n, id) => Releases.CreateRelease(t, app, n, id).0
    case OpMarkBuilt(id, image) => Releases.MarkBuilt(t, id, image).0
    case OpMarkFailed(id) => Releases.MarkFailed(t, id).0
    case OpSetLive(app, id) => Releases.SetLive(t, app, id).0
  }

  /** Whether the store refuses an operation. */
  ghost predicate Refused(t: Tables, op: Operation) {
    match op
    case OpCreateApp(name, host, id) => Releases.CreateApp(t, name, host, id).1.Some?
    case OpDeleteApp(app) => Releases.DeleteApp(t, app).1.Some?
    case OpCreateRelease(app, n, id) => Releases.CreateRelease(t, app, n, id).1.Err?
    case OpMarkBuilt(id, image) => Releases.MarkBuilt(t, id, image).1.Some?
    case OpMarkFailed(id) => Releases.MarkFailed(t, id).1.Some?
    case OpSetLive(app, id) => Releases.SetLive(t, app, id).1.Some?
  }

  lemma OperationKeepsSound(t: Tables, op: Operation)
    requires Sound(t) && Possible(t, op)
    ensures Sound(Apply(t, op))
  {
    match op
    case OpCreateApp(name, host, id) => CreateAppSound(t, name, host, id);
    case OpDeleteApp(app) => DeleteAppSound(t, app);
    case OpCreateRelease(app, n, id) => CreateReleaseSound(t, app, n, id);
    case OpMarkBuilt(id, image) => MarkBuiltSound(t, id, image);
    case OpMarkFailed(id) => MarkFailedSound(t, id);
    case OpSetLive(app, id) => SetLiveSound(t, app, id);
  }

  /** An operation of another app than `app`. */
  predicate Foreign(t: Tables, app: nat, op: Operation) {
    match op
    case OpCreateApp(_, _, _) => true
    case OpDeleteApp(other) => other != app
    case OpCreateRelease(other, _, _) => other != app
    case OpMarkBuilt(id, _) => id in t.releases ==> t.releases[id].app != app
    case OpMarkFailed(id) => id in t.releases ==> t.releases[id].app != app
    case OpSetLive(other, _) => other != app
  }

  /** Other apps' operations leave an app and its rows as they are, and add none to it. */
  lemma ForeignLeavesRows(t: Tables, app: nat, op: Operation)
    requires RowsOk(t) && app in t.apps && Possible(t, op) && Foreign(t, app, op)
    ensures var u := Apply(t, op);
      && app in u.apps && u.apps[app] == t.apps[app]
      && (forall k | k in t.releases && t.releases[k].app == app :: k in u.releases && u.releases[k] == t.releases[k])
      && (forall k | k in u.releases && u.releases[k].app == app :: k in t.releases && u.releases[k] == t.releases[k])
  {
    match op
    case OpCreateRelease(other, n, id) => CreateReleaseRow(t, other, n, id);
    case OpSetLive(other, id) => ForeignSetLive(t, app, other, id);
    case _ =>
  }

  lemma ForeignSetLive(t: Tables, app: nat, other: nat, id: nat)
    requires RowsOk(t) && app in t.apps && other != app
    ensures var u := Releases.SetLive(t, other, id).0;
      && app in u.apps && u.apps[app] == t.apps[app]
      && (forall k | k in t.releases && t.releases[k].app == app :: k in u.releases && u.releases[k] == t.releases[k])
      && (forall k | k in u.releases && u.releases[k].app == app :: k in t.releases && u.releases[k] == t.releases[k])
  {
    forall k | k in t.releases ensures t.releases[k].id == k { assert RowOk(t, k); }
  }

  lemma RefusalChangesNothing(t: Tables, op: Operation)
    requires Refused(t, op)
    ensures Apply(t, op) == t
  {}

  /** A release that is still there after an operation is the same release, further along. */
  lemma OperationKeepsReleases(t: Tables, op: Operation, k: nat)
    requires RowsOk(t) && AppsOk(t) && Possible(t, op) && k in t.releases && k in Apply(t, op).releases
    ensures SameRelease(t.releases[k], Apply(t, op).releases[k])
  {
    match op
    case OpCreateRelease(app, n, id) =>
    case OpMarkBuilt(id, image) =>
    case OpMarkFailed(id) =>
    case OpSetLive(app, id) => SetLiveGrows(t, app, id);
    case _ =>
  }

  /** One arrow of the diagram. */
  predicate Arrow(from: Status, to: Status) {
    || (from == Building && to == Starting)
    || (from == Starting && to == Live)
    || (from == Live && to == Superseded)
    || ((from == Building || from == Starting) && to == Failed)
  }

  /** One operation moves a release along one arrow at most, and only the operation for
      that arrow does. */
  lemma OperationMovesAlongOneArrow(t: Tables, op: Operation, k: nat)
    requires RowsOk(t) && Possible(t, op) && k in t.releases && k in Apply(t, op).releases
    requires Apply(t, op).releases[k].status != t.releases[k].status
    ensures var (from, to) := (t.releases[k].status, Apply(t, op).releases[k].status);
      && Arrow(from, to)
      && (to == Starting ==> op.OpMarkBuilt? && op.id == k)
      && (to == Failed ==> op == OpMarkFailed(k))
      && (to == Live ==> op == OpSetLive(t.releases[k].app, k))
      && (to == Superseded ==>
            op.OpSetLive? && op.app == t.releases[k].app && op.id != k && Apply(t, op).releases[op.id].status == Live)
  {
    match op
    case OpSetLive(app, id) => assert RowOk(t, k);
    case _ =>
  }

  /** Only deleting the app removes a release. */
  lemma OnlyDeleteAppRemoves(t: Tables, op: Operation, k: nat)
    requires k in t.releases && k !in Apply(t, op).releases
    ensures op == OpDeleteApp(t.releases[k].app)
  {}

  ghost predicate Trace(tables: seq<Tables>, ops: seq<Operation>) {
    && |tables| == |ops| + 1
    && forall i | 0 <= i < |ops| :: Possible(tables[i], ops[i]) && tables[i + 1] == Apply(tables[i], ops[i])
  }

  /** The table invariant over every sequence of operations, from empty tables on. */
  lemma {:induction false} EveryOperationSequenceIsSound(tables: seq<Tables>, ops: seq<Operation>, i: nat)
    requires Trace(tables, ops) && tables[0] == Tables(map[], map[]) && i < |tables|
    ensures Sound(tables[i])
  {
    if i > 0 {
      EveryOperationSequenceIsSound(tables, ops, i - 1);
      OperationKeepsSound(tables[i - 1], ops[i - 1]);
      assert tables[i - 1 + 1] == Apply(tables[i - 1], ops[i - 1]);
    }
  }

  /** No sequence of operations gets an app in whose name is not one: a name is also a label
      of the app's host and a directory. */
  lemma {:induction false} EveryNameIsValid(tables: seq<Tables>, ops: seq<Operation>, i: nat)
    requires Trace(tables, ops) && tables[0] == Tables(map[], map[]) && i < |tables|
    ensures forall a | a in tables[i].apps ::
      && 1 <= |tables[i].apps[a].name| <= 32
      && (forall c | c in tables[i].apps[a].name :: 'a' <= c <= 'z' || '0' <= c <= '9' || c == '-')
  {
    if i > 0 {
      EveryNameIsValid(tables, ops, i - 1);
      assert tables[i - 1 + 1] == Apply(tables[i - 1], ops[i - 1]);
    }
  }

  predicate NoReleases(t: Tables, app: nat) { forall k | k in t.releases :: t.releases[k].app != app }

  predicate Taken(t: Tables, name: string, host: string) {
    exists a :: a in t.apps && (t.apps[a].name == name || t.apps[a].host == host)
  }

  predicate Takes(op: Operation, name: string, host: string) {
    op.OpCreateApp? && (op.name == name || op.host == host)
  }

  lemma {:induction false} FreeUntilTaken(tables: seq<Tables>, ops: seq<Operation>, name: string, host: string,
                                          i: nat, j: nat)
    requires Trace(tables, ops) && i <= j < |tables| && !Taken(tables[i], name, host)
    requires forall k | i <= k < j :: !Takes(ops[k], name, host)
    ensures !Taken(tables[j], name, host)
  {
    if i < j {
      FreeUntilTaken(tables, ops, name, host, i, j - 1);
      assert tables[j - 1 + 1] == Apply(tables[j - 1], ops[j - 1]) && !Takes(ops[j - 1], name, host);
    }
  }

  /** The name and the host of a deleted app can be given to a new one, whatever else has
      happened in between, and the new app begins without a release. */
  lemma FreedByDelete(tables: seq<Tables>, ops: seq<Operation>, i: nat, j: nat)
    requires Trace(tables, ops) && tables[0] == Tables(map[], map[]) && i < j < |ops|
    requires ops[i].OpDeleteApp? && ops[i].app in tables[i].apps
    requires var gone := tables[i].apps[ops[i].app];
      && (forall k | i < k < j :: !Takes(ops[k], gone.name, gone.host))
      && ops[j].OpCreateApp? && ops[j].name == gone.name && ops[j].host == gone.host
    ensures var (gone, id) := (tables[i].apps[ops[i].app], ops[j].id);
      && tables[j + 1].apps == tables[j].apps[id := App(gone.name, gone.host, None)]
      && NoReleases(tables[j + 1], id)
  {
    var gone := tables[i].apps[ops[i].app];
    EveryOperationSequenceIsSound(tables, ops, i);
    EveryNameIsValid(tables, ops, i);
    assert tables[i + 1] == Apply(tables[i], ops[i]);
    assert !Taken(tables[i + 1], gone.name, gone.host);
    FreeUntilTaken(tables, ops, gone.name, gone.host, i + 1, j);
    EveryOperationSequenceIsSound(tables, ops, j);
    assert tables[j + 1] == Apply(tables[j], ops[j]);
    CreateAppSound(tables[j], gone.name, gone.host, ops[j].id);
  }

  /** What the invariant says of one app: its live row is the one it names and no other. */
  lemma AtMostOneLiveRow(t: Tables, app: nat, i: nat, j: nat)
    requires Sound(t) && app in t.apps && i in t.releases && t.releases[i].app == app
    ensures t.releases[i].status == Live <==> t.apps[app].live == Some(i)
    ensures j in t.releases && t.releases[j].app == app && t.releases[i].status == Live ==>
      t.releases[j].status == Live ==> i == j
  {
    assert RowOk(t, i) && AppOk(t, app);
    if j in t.releases { assert RowOk(t, j); }
  }
}
