/**
  The release table of the store: one row per release, numbered per app, whose
  status only moves along

      Building --> Starting --> Live --> Superseded
          |            |
          +------------+------> Failed

  Each statement of the store is a function on table values here; the class `Store` runs
  the same statements on its fields.
 */
module Releases {
  import opened Wrappers

  datatype Status = Building | Starting | Live | Failed | Superseded

  /** What a release is made of. `image` is "" until the build has produced one;
      the config and manifest snapshots are JSON texts nobody here looks into. */
  datatype Content = Content(image: string, sha: string, config: string, manifest: string)

  /** The release note, by the three kinds the daemon writes. */
  datatype Note = Pushed(sha: string) | RolledBack(version: nat) | Redeployed(why: string)

  datatype NewRelease = NewRelease(content: Content, note: Note)

  datatype Release = Release(id: nat, app: nat, version: nat, content: Content, status: Status, note: Note)

  datatype App = App(name: string, host: string, live: Option<nat>)

  datatype Tables = Tables(apps: map<nat, App>, releases: map<nat, Release>)

  datatype Error =
    | NotFound
    | Exists
    | InvalidTransition(from: Status, to: Status)
    | ImageRequired
    | InvalidName

  const EMPTY_DOCUMENT := "{}"

  predicate Open(s: Status) { s == Building || s == Starting }

  // ---------------------------------------------------------------- statements

  ghost function Versions(t: Tables, app: nat): set<nat> {
    set id | id in t.releases && t.releases[id].app == app :: t.releases[id].version
  }

  /** COALESCE(MAX(...), 0). */
  ghost function MaxOf(s: set<nat>): (m: nat)
    ensures forall x | x in s :: x <= m
    ensures if s == {} then m == 0 else m in s
  {
    if s == {} then 0 else
      var x :| x in s;
      var m := MaxOf(s - {x});
      assert s == (s - {x}) + {x};
      if m < x then x else m
  }

  function OrEmptyDocument(doc: string): string { if doc == "" then EMPTY_DOCUMENT else doc }

  /** CreateRelease: the row gets the next version of its app. `id` is the row id
      the database hands out. */
  ghost function CreateRelease(t: Tables, app: nat, n: NewRelease, id: nat): (r: (Tables, Result<Release, Error>)) {
    if app !in t.apps then (t, Err(NotFound)) else
      var content := n.content.(config := OrEmptyDocument(n.content.config),
          manifest := OrEmptyDocument(n.content.manifest));
      var row := Release(id, app, MaxOf(Versions(t, app)) + 1, content,
                         if content.image == "" then Building else Starting, n.note);
      (t.(releases := t.releases[id := row]), Ok(row))
  }

  /** Why a guarded update touched no row: `app` narrows the search when given. */
  function NoChange(t: Tables, app: Option<nat>, id: nat, to: Status): Error {
    if id in t.releases && (app.None? || t.releases[id].app == app.value)
    then InvalidTransition(t.releases[id].status, to)
    else NotFound
  }

  function MarkBuilt(t: Tables, id: nat, image: string): (Tables, Option<Error>) {
    if image == "" then (t, Some(ImageRequired))
    else if id in t.releases && t.releases[id].status == Building then
      var row := t.releases[id];
      (t.(releases := t.releases[id := row.(status := Starting, content := row.content.(image := image))]), None)
    else (t, Some(NoChange(t, None, id, Starting)))
  }

  function MarkFailed(t: Tables, id: nat): (Tables, Option<Error>) {
    if id in t.releases && Open(t.releases[id].status)
    then (t.(releases := t.releases[id := t.releases[id].(status := Failed)]), None)
    else (t, Some(NoChange(t, None, id, Failed)))
  }

  /** The row `SetLive(app, id)` leaves in place of `row`. */
  function LiveRow(row: Release, app: nat, id: nat): Release {
    if row.id == id then row.(status := Live)
    else if row.app == app && row.status == Live then row.(status := Superseded)
    else row
  }

  function SetLive(t: Tables, app: nat, id: nat): (Tables, Option<Error>) {
    if id in t.releases && t.releases[id].app == app && t.releases[id].status == Starting then
      (Tables(if app in t.apps then t.apps[app := t.apps[app].(live := Some(id))] else t.apps,
              map k | k in t.releases :: LiveRow(t.releases[k], app, id)),
       None)
    else (t, Some(NoChange(t, Some(app), id, Live)))
  }

  function LiveRelease(t: Tables, app: nat): Option<Release> {
    if app in t.apps && t.apps[app].live.Some? && t.apps[app].live.value in t.releases
    then Some(t.releases[t.apps[app].live.value]) else None
  }

  /** ^[a-z0-9-]{1,32}$ */
  predicate ValidName(name: string) {
    1 <= |name| <= 32 && forall c | c in name :: 'a' <= c <= 'z' || '0' <= c <= '9' || c == '-'
  }

  function CreateApp(t: Tables, name: string, host: string, id: nat): (Tables, Option<Error>) {
    if !ValidName(name) then (t, Some(InvalidName))
    else if exists a | a in t.apps :: t.apps[a].name == name || t.apps[a].host == host then (t, Some(Exists))
    else (t.(apps := t.apps[id := App(name, host, None)]), None)
  }

  /** DeleteApp with the cascade the schema declares on releases. */
  function DeleteApp(t: Tables, app: nat): (Tables, Option<Error>) {
    if app !in t.apps then (t, Some(NotFound))
    else (Tables(t.apps - {app}, map k | k in t.releases && t.releases[k].app != app :: t.releases[k]), None)
  }

  /** What a pass over OpenReleases with MarkFailed on each leaves. */
  function FailOpen(t: Tables, ids: set<nat>): Tables {
    t.(releases := map k | k in t.releases ::
      if k in ids && Open(t.releases[k].status) then t.releases[k].(status := Failed) else t.releases[k])
  }

  // ----------------------------------------------------------------- invariant

  ghost predicate HasVersion(t: Tables, app: nat, v: nat) {
    exists id :: id in t.releases && t.releases[id].app == app && t.releases[id].version == v
  }

  predicate RowOk(t: Tables, id: nat)
    requires id in t.releases
  {
    var r := t.releases[id];
    && r.id == id
    && r.app in t.apps
    && 1 <= r.version
    && r.content.config != "" && r.content.manifest != ""
    && (r.status == Building ==> r.content.image == "")
    && (r.status == Starting || r.status == Live || r.status == Superseded ==> r.content.image != "")
    && (r.status == Live ==> t.apps[r.app].live == Some(id))
  }

  predicate AppOk(t: Tables, app: nat)
    requires app in t.apps
  {
    var live := t.apps[app].live;
    live.Some? ==>
      live.value in t.releases && t.releases[live.value].app == app && t.releases[live.value].status == Live
  }

  ghost predicate RowsOk(t: Tables) { forall id | id in t.releases :: RowOk(t, id) }

  ghost predicate AppsOk(t: Tables) { forall app | app in t.apps :: AppOk(t, app) }

  ghost predicate VersionsDistinct(t: Tables) {
    forall i, j | i in t.releases && j in t.releases && t.releases[i].app == t.releases[j].app
                  && t.releases[i].version == t.releases[j].version :: i == j
  }

  ghost predicate VersionsDense(t: Tables) {
    forall id, v | id in t.releases && 1 <= v < t.releases[id].version :: HasVersion(t, t.releases[id].app, v)
  }

  ghost predicate NamesDistinct(t: Tables) {
    forall a, b | a in t.apps && b in t.apps && (t.apps[a].name == t.apps[b].name
        || t.apps[a].host == t.apps[b].host) :: a == b
  }

  /** At most one live row per app and the app row names exactly it; versions are
      1..k without holes or repeats; an image is there exactly once it has been built. */
  ghost predicate Sound(t: Tables) {
    RowsOk(t) && AppsOk(t) && VersionsDistinct(t) && VersionsDense(t) && NamesDistinct(t)
  }

  /** The moves of the diagram, in any number. */
  predicate Later(from: Status, to: Status) {
    || from == to
    || from == Building
    || (from == Starting && to != Building)
    || (from == Live && to == Superseded)
  }

  /** A row at a later time is the same release: only an unbuilt image is ever filled in. */
  predicate SameRelease(was: Release, now: Release) {
    && was.id == now.id && was.app == now.app && was.version == now.version && was.note == now.note
    && was.content.sha == now.content.sha && was.content.config == now.content.config
         && was.content.manifest == now.content.manifest
    && (was.status != Building ==> was.content == now.content)
    && Later(was.status, now.status)
  }

  /** No release is lost or rewritten. */
  ghost predicate Grows(t: Tables, u: Tables) {
    forall id | id in t.releases :: id in u.releases && SameRelease(t.releases[id], u.releases[id])
  }

  lemma VersionsOf(t: Tables, app: nat, id: nat)
    requires id in t.releases && t.releases[id].app == app
    ensures t.releases[id].version in Versions(t, app)
  {}

  /** A snapshot as the row has it: an empty one is the empty document. */
  predicate Snapshots(wanted: string, got: string) { got == if wanted == "" then "{}" else wanted }

  /** A new row and what it was made of. */
  predicate MadeOf(n: NewRelease, row: Release) {
    && row.note == n.note && row.content.image == n.content.image && row.content.sha == n.content.sha
    && Snapshots(n.content.config, row.content.config) && Snapshots(n.content.manifest, row.content.manifest)
  }

  lemma CreateReleaseRow(t: Tables, app: nat, n: NewRelease, id: nat)
    requires id !in t.releases
    ensures var (u, r) := CreateRelease(t, app, n, id);
      && (r.Ok? <==> app in t.apps) && (r.Err? ==> u == t) && Grows(t, u)
      && (r.Ok? ==> u == t.(releases := t.releases[id := r.value])
                    && r.value.id == id && r.value.app == app && r.value.version == MaxOf(Versions(t, app)) + 1
                    && MadeOf(n, r.value)
                    && (r.value.status == if n.content.image == "" then Building else Starting))
  {}

  lemma CreateReleaseSound(t: Tables, app: nat, n: NewRelease, id: nat)
    requires Sound(t) && id !in t.releases
    ensures Sound(CreateRelease(t, app, n, id).0)
    ensures CreateRelease(t, app, n, id).1.Ok? ==>
      forall k | k in t.releases && t.releases[k].app == app :: t.releases[k].version < CreateRelease(t, app, n,
          id).1.value.version
  {
    var (u, r) := CreateRelease(t, app, n, id);
    CreateReleaseRow(t, app, n, id);
    if r.Ok? {
      var top := MaxOf(Versions(t, app));
      forall k | k in t.releases && t.releases[k].app == app ensures t.releases[k].version <= top {
        VersionsOf(t, app, k);
      }
      CreatedRowsOk(t, app, id, r.value);
      CreatedDense(t, app, id, r.value, top);
    }
  }

  lemma CreatedRowsOk(t: Tables, app: nat, id: nat, row: Release)
    requires RowsOk(t) && AppsOk(t) && VersionsDistinct(t) && id !in t.releases && app in t.apps
    requires row.id == id && row.app == app && 1 <= row.version && row.content.config != ""
        && row.content.manifest != ""
    requires row.status == if row.content.image == "" then Building else Starting
    requires forall k | k in t.releases && t.releases[k].app == app :: t.releases[k].version < row.version
    ensures var u := t.(releases := t.releases[id := row]); RowsOk(u) && AppsOk(u) && VersionsDistinct(u)
  {
    var u := t.(releases := t.releases[id := row]);
    forall k | k in u.releases ensures RowOk(u, k) {
      if k != id { assert RowOk(t, k); }
    }
    forall a | a in u.apps ensures AppOk(u, a) { assert AppOk(t, a); }
  }

  lemma CreatedDense(t: Tables, app: nat, id: nat, row: Release, top: nat)
    requires VersionsDense(t) && id !in t.releases
    requires top == MaxOf(Versions(t, app)) && row.app == app && row.version == top + 1
    ensures VersionsDense(t.(releases := t.releases[id := row]))
  {
    var u := t.(releases := t.releases[id := row]);
    forall k, v | k in u.releases && 1 <= v < u.releases[k].version ensures HasVersion(u, u.releases[k].app, v) {
      var j := if k == id then TopRow(t, app, top) else k;
      if v == t.releases[j].version {
        assert u.releases[j] == t.releases[j];
      } else {
        assert HasVersion(t, t.releases[j].app, v);
        var h :| h in t.releases && t.releases[h].app == t.releases[j].app && t.releases[h].version == v;
        assert u.releases[h] == t.releases[h];
      }
    }
  }

  ghost function TopRow(t: Tables, app: nat, top: nat): (id: nat)
    requires top == MaxOf(Versions(t, app)) && top > 0
    ensures id in t.releases && t.releases[id].app == app && t.releases[id].version == top
  {
    assert top in Versions(t, app);
    var id :| id in t.releases && t.releases[id].app == app && t.releases[id].version == top; id
  }

  lemma HasVersionKept(t: Tables, u: Tables, app: nat, v: nat)
    requires HasVersion(t, app, v) && Grows(t, u)
    ensures HasVersion(u, app, v)
  {
    var id :| id in t.releases && t.releases[id].app == app && t.releases[id].version == v;
    assert id in u.releases && SameRelease(t.releases[id], u.releases[id]);
  }

  /** Rows keep their number, so whatever names the same releases has no holes either. */
  lemma DenseKept(t: Tables, u: Tables)
    requires Sound(t) && Grows(t, u) && u.releases.Keys == t.releases.Keys
    ensures VersionsDistinct(u) && VersionsDense(u)
  {
    forall id | id in u.releases ensures SameRelease(t.releases[id], u.releases[id]) {}
    forall id, v | id in u.releases && 1 <= v < u.releases[id].version ensures HasVersion(u, u.releases[id].app, v) {
      HasVersionKept(t, u, t.releases[id].app, v);
    }
  }

  /** A statement that leaves the apps alone and moves rows without touching a live
      one keeps the table sound. */
  lemma RowMoveSound(t: Tables, u: Tables)
    requires Sound(t) && Grows(t, u) && u.apps == t.apps && u.releases.Keys == t.releases.Keys
    requires forall k | k in t.releases ::
      (|| u.releases[k] == t.releases[k]
       || (u.releases[k].status == Failed && Open(t.releases[k].status))
       || (u.releases[k].status == Starting && u.releases[k].content.image != "" && t.releases[k].status == Building))
    ensures Sound(u)
  {
    DenseKept(t, u);
    forall k | k in u.releases ensures RowOk(u, k) { assert RowOk(t, k) && SameRelease(t.releases[k], u.releases[k]); }
    forall a | a in u.apps ensures AppOk(u, a) { assert AppOk(t, a); }
  }

  lemma MarkBuiltRows(t: Tables, id: nat, image: string)
    requires MarkBuilt(t, id, image).1.None?
    ensures var u := MarkBuilt(t, id, image).0;
      && id in t.releases && t.releases[id].status == Building && image != ""
      && Grows(t, u) && u.apps == t.apps && u.releases.Keys == t.releases.Keys
      && u.releases[id].status == Starting && u.releases[id].content.image == image
      && (forall k | k in t.releases && k != id :: u.releases[k] == t.releases[k])
  {
    var u := MarkBuilt(t, id, image).0;
    forall k | k in t.releases ensures k in u.releases && SameRelease(t.releases[k], u.releases[k]) {}
  }

  lemma MarkBuiltSound(t: Tables, id: nat, image: string)
    requires Sound(t)
    ensures Sound(MarkBuilt(t, id, image).0)
    ensures MarkBuilt(t, id, image).1.None? <==> image != "" && id in t.releases && t.releases[id].status == Building
  {
    if MarkBuilt(t, id, image).1.None? {
      MarkBuiltRows(t, id, image);
      RowMoveSound(t, MarkBuilt(t, id, image).0);
    }
  }

  lemma FailOpenRows(t: Tables, ids: set<nat>)
    ensures var u := FailOpen(t, ids);
      && Grows(t, u) && u.apps == t.apps && u.releases.Keys == t.releases.Keys
      && (forall id | id in ids && id in u.releases :: !Open(u.releases[id].status))
      && (forall id | id in u.releases && u.releases[id] != t.releases[id] ::
            id in ids && Open(t.releases[id].status) && u.releases[id].status == Failed)
  {
    var u := FailOpen(t, ids);
    forall k | k in t.releases ensures SameRelease(t.releases[k], u.releases[k]) {}
  }

  lemma FailOpenSound(t: Tables, ids: set<nat>)
    requires Sound(t)
    ensures Sound(FailOpen(t, ids))
  {
    FailOpenRows(t, ids);
    RowMoveSound(t, FailOpen(t, ids));
  }

  lemma MarkFailedIsFailOpen(t: Tables, id: nat)
    ensures MarkFailed(t, id).0 == FailOpen(t, {id})
  {
    assert MarkFailed(t, id).0.releases == FailOpen(t, {id}).releases;
  }

  lemma MarkFailedRows(t: Tables, id: nat)
    ensures Grows(t, MarkFailed(t, id).0)
  {
    MarkFailedIsFailOpen(t, id);
    FailOpenRows(t, {id});
  }

  lemma MarkFailedSound(t: Tables, id: nat)
    requires Sound(t)
    ensures var (u, e) := MarkFailed(t, id);
      && Sound(u) && Grows(t, u) && u.apps == t.apps && u.releases.Keys == t.releases.Keys && (e.Some? ==> u == t)
      && (e.None? <==> id in t.releases && Open(t.releases[id].status))
      && (e.None? ==> u.releases[id] == t.releases[id].(status := Failed))
      && (forall k | k in t.releases && k != id :: u.releases[k] == t.releases[k])
  {
    MarkFailedIsFailOpen(t, id);
    FailOpenRows(t, {id});
    FailOpenSound(t, {id});
  }

  /** Which rows SetLive touches: the one it makes live and the one that was. */
  lemma SetLiveRows(t: Tables, app: nat, id: nat)
    requires RowsOk(t) && AppsOk(t) && SetLive(t, app, id).1.None?
    ensures var u := SetLive(t, app, id).0;
      && app in t.apps && u.releases.Keys == t.releases.Keys
      && u.apps == t.apps[app := t.apps[app].(live := Some(id))]
      && id in t.releases && t.releases[id].app == app && t.releases[id].status == Starting
      && u.releases[id] == t.releases[id].(status := Live)
      && (forall k | k in t.releases && k != id && t.apps[app].live != Some(k) :: u.releases[k] == t.releases[k])
      && (t.apps[app].live.Some? ==>
            && t.apps[app].live.value in t.releases && t.apps[app].live != Some(id)
            && t.releases[t.apps[app].live.value].status == Live
            && u.releases[t.apps[app].live.value] == t.releases[t.apps[app].live.value].(status := Superseded))
  {
    assert RowOk(t, id) && AppOk(t, app);
    forall k | k in t.releases ensures RowOk(t, k) && t.releases[k].id == k {}
  }

  lemma SetLiveGrows(t: Tables, app: nat, id: nat)
    requires RowsOk(t) && AppsOk(t)
    ensures Grows(t, SetLive(t, app, id).0)
  {
    var u := SetLive(t, app, id).0;
    if SetLive(t, app, id).1.None? {
      SetLiveRows(t, app, id);
    }
    forall k | k in t.releases ensures k in u.releases && SameRelease(t.releases[k], u.releases[k]) {}
  }

  lemma SetLiveRowsOk(t: Tables, app: nat, id: nat)
    requires RowsOk(t) && AppsOk(t) && SetLive(t, app, id).1.None?
    ensures RowsOk(SetLive(t, app, id).0)
  {
    var u := SetLive(t, app, id).0;
    SetLiveRows(t, app, id);
    forall k | k in u.releases ensures RowOk(u, k) {
      assert RowOk(t, k);
      if k != id && t.releases[k].app == app && t.apps[app].live != Some(k) { assert u.releases[k].status != Live; }
    }
  }

  lemma SetLiveAppsOk(t: Tables, app: nat, id: nat)
    requires RowsOk(t) && AppsOk(t) && SetLive(t, app, id).1.None?
    ensures AppsOk(SetLive(t, app, id).0)
  {
    var u := SetLive(t, app, id).0;
    SetLiveRows(t, app, id);
    forall a | a in u.apps ensures AppOk(u, a) {
      assert AppOk(t, a) && AppOk(t, app);
      if a != app && t.apps[a].live.Some? {
        assert u.releases[t.apps[a].live.value] == t.releases[t.apps[a].live.value];
      }
    }
  }

  lemma SetLiveSound(t: Tables, app: nat, id: nat)
    requires Sound(t)
    ensures Sound(SetLive(t, app, id).0)
    ensures SetLive(t, app, id).1.None? <==>
      id in t.releases && t.releases[id].app == app && t.releases[id].status == Starting
  {
    if SetLive(t, app, id).1.None? {
      var u := SetLive(t, app, id).0;
      SetLiveRows(t, app, id);
      SetLiveGrows(t, app, id);
      SetLiveRowsOk(t, app, id);
      SetLiveAppsOk(t, app, id);
      DenseKept(t, u);
      NamesKept(t, u);
    }
  }

  lemma NamesKept(t: Tables, u: Tables)
    requires NamesDistinct(t) && u.apps.Keys <= t.apps.Keys
    requires forall a | a in u.apps :: u.apps[a].name == t.apps[a].name && u.apps[a].host == t.apps[a].host
    ensures NamesDistinct(u)
  {}

  lemma CreateAppSound(t: Tables, name: string, host: string, id: nat)
    requires Sound(t) && id !in t.apps
    ensures var (u, e) := CreateApp(t, name, host, id);
      && Sound(u) && Grows(t, u) && u.releases == t.releases && (e.Some? ==> u == t)
      && (e.None? ==> id in u.apps && u.apps[id].live == None && forall k | k in t.releases :: t.releases[k].app != id)
  {
    var (u, e) := CreateApp(t, name, host, id);
    forall k | k in u.releases ensures RowOk(u, k) { assert RowOk(t, k); }
    forall a | a in u.apps ensures AppOk(u, a) { if a in t.apps { assert AppOk(t, a); } }
    CreatedAppDense(t, u);
  }

  lemma CreatedAppDense(t: Tables, u: Tables)
    requires VersionsDense(t) && VersionsDistinct(t) && u.releases == t.releases
    ensures VersionsDense(u) && VersionsDistinct(u)
  {
    forall k, v | k in u.releases && 1 <= v < u.releases[k].version ensures HasVersion(u, u.releases[k].app, v) {
      assert HasVersion(t, t.releases[k].app, v);
    }
  }

  lemma DeleteAppSound(t: Tables, app: nat)
    requires Sound(t)
    ensures var (u, e) := DeleteApp(t, app);
      && Sound(u) && (e.Some? ==> u == t)
      && (forall k | k in u.releases :: k in t.releases && u.releases[k] == t.releases[k] && u.releases[k].app != app)
      && (forall k | k in t.releases && t.releases[k].app != app :: k in u.releases)
  {
    var (u, e) := DeleteApp(t, app);
    if e.None? {
      forall k | k in u.releases ensures RowOk(u, k) { assert RowOk(t, k); }
      forall a | a in u.apps ensures AppOk(u, a) { assert AppOk(t, a); }
      forall k, v | k in u.releases && 1 <= v < u.releases[k].version ensures HasVersion(u, u.releases[k].app, v) {
        assert HasVersion(t, t.releases[k].app, v);
        var id :| id in t.releases && t.releases[id].app == t.releases[k].app && t.releases[id].version == v;
        assert id in u.releases;
      }
    }
  }
}
