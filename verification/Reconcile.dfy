/**
  Reconcile as the loops it is, over every app of the store and every container of the
  runtime. What it decides for one app is `Keep`, the same choice that `DoRecover` makes
  in the lifecycle, and what it leaves of the app is what `DoRecover` leaves.
 */
module Reconcile {
  import opened Wrappers
  import opened Releases
  import opened Lifecycle
  import opened LifecycleCrashes
  import Store

  /** A container with the labels the runtime put on it. */
  datatype Found = Found(app: string, inst: Listed)

  datatype Report = Report(adopted: nat, restarted: nat, orphans: nat, removed: nat, failed: nat)

  // -------------------------------------------------------------- what was found

  /** The instances listed for an app, in the order of the listing. */
  function ForApp(listing: seq<Found>, app: string): seq<Listed> {
    if listing == [] then []
    else
      var n := |listing| - 1;
      ForApp(listing[..n], app) + (if listing[n].app == app then [listing[n].inst] else [])
  }

  lemma {:induction false} ForAppIsTheFilter(listing: seq<Found>, app: string, l: Listed)
    ensures l in ForApp(listing, app) <==> Found(app, l) in listing
  {
    if listing != [] {
      var n := |listing| - 1;
      ForAppIsTheFilter(listing[..n], app, l);
      assert listing == listing[..n] + [listing[n]];
    }
  }

  ghost predicate GroupIs(listing: seq<Found>, byApp: map<string, seq<Listed>>, app: string) {
    ForApp(listing, app) == if app in byApp then byApp[app] else []
  }

  ghost predicate Groups(listing: seq<Found>, byApp: map<string, seq<Listed>>) {
    && (forall app :: GroupIs(listing, byApp, app))
    && (forall f | f in listing :: f.app in byApp)
  }

  lemma GroupOne(seen: seq<Found>, byApp: map<string, seq<Listed>>, f: Found)
    requires Groups(seen, byApp)
    ensures Groups(seen + [f], byApp[f.app := (if f.app in byApp then byApp[f.app] else []) + [f.inst]])
  {
    var (all, more) := (seen + [f], byApp[f.app := (if f.app in byApp then byApp[f.app] else []) + [f.inst]]);
    forall app ensures GroupIs(all, more, app) {
      assert GroupIs(seen, byApp, app);
      ForOneMore(seen, f, app);
    }
  }

  lemma ForOneMore(seen: seq<Found>, f: Found, app: string)
    ensures ForApp(seen + [f], app) == ForApp(seen, app) + if f.app == app then [f.inst] else []
  {
    assert (seen + [f])[..|seen|] == seen;
  }

  /** How many were listed for the apps in `names`. */
  function CountIn(listing: seq<Found>, names: set<string>): nat {
    if listing == [] then 0
    else
      var n := |listing| - 1;
      CountIn(listing[..n], names) + (if listing[n].app in names then 1 else 0)
  }

  lemma {:induction false} CountSplits(listing: seq<Found>, names: set<string>, app: string)
    requires app in names
    ensures CountIn(listing, names) == CountIn(listing, names - {app}) + |ForApp(listing, app)|
  {
    if listing != [] { CountSplits(listing[..|listing| - 1], names, app); }
  }

  lemma {:induction false} CountNone(listing: seq<Found>)
    ensures CountIn(listing, {}) == 0
  {
    if listing != [] { CountNone(listing[..|listing| - 1]); }
  }

  lemma {:induction false} CountAll(listing: seq<Found>, names: set<string>)
    requires forall f | f in listing :: f.app in names
    ensures CountIn(listing, names) == |listing|
  {
    if listing != [] {
      var n := |listing| - 1;
      assert listing[n] in listing;
      assert forall f | f in listing[..n] :: f in listing;
      CountAll(listing[..n], names);
    }
  }

  function Ids(insts: seq<Listed>): set<InstanceId> { set l | l in insts :: l.id }

  /** All but the one that is kept. */
  function Rejected(insts: seq<Listed>, keep: Option<InstanceId>): set<InstanceId> {
    Ids(insts) - (if keep.Some? then {keep.value} else {})
  }

  lemma RejectOne(insts: seq<Listed>, l: Listed, live: Option<Release>)
    requires forall k | 0 <= k < |insts| :: insts[k].id != l.id
    ensures var keep := Keep(insts, live);
      && Rejected(insts + [l], keep) == Rejected(insts, keep) + {l.id}
      && (keep.None? ==> Rejected(insts + [l], Some(l.id)) == Rejected(insts, keep))
  {
    assert Ids(insts + [l]) == Ids(insts) + {l.id};
  }

  lemma MinusTwice<V>(m: map<InstanceId, V>, a: set<InstanceId>, id: InstanceId)
    ensures (m - a) - {id} == m - (a + {id})
  {}

  lemma ExitedAppend(insts: seq<Listed>, l: Listed)
    ensures Exited(insts + [l]) == Exited(insts) + if l.running then 0 else 1
  {
    assert (insts + [l])[..|insts|] == insts;
  }

  /** How many have exited. */
  function Exited(insts: seq<Listed>): nat {
    if insts == [] then 0
    else
      var n := |insts| - 1;
      Exited(insts[..n]) + (if insts[n].running then 0 else 1)
  }

  /** How many run and are not the one kept. */
  function Orphaned(insts: seq<Listed>, keep: Option<InstanceId>): nat {
    if insts == [] then 0
    else
      var n := |insts| - 1;
      Orphaned(insts[..n], keep) + (if insts[n].running && keep != Some(insts[n].id) then 1 else 0)
  }

  lemma OrphanedAppend(insts: seq<Listed>, l: Listed, keep: Option<InstanceId>)
    ensures Orphaned(insts + [l], keep) ==
            Orphaned(insts, keep) + if l.running && keep != Some(l.id) then 1 else 0
  {
    assert (insts + [l])[..|insts|] == insts;
  }

  lemma {:induction false} KeptLater(insts: seq<Listed>, id: InstanceId)
    requires forall k | 0 <= k < |insts| :: insts[k].id != id
    ensures Orphaned(insts, Some(id)) == Orphaned(insts, None)
  {
    if insts != [] { KeptLater(insts[..|insts| - 1], id); }
  }

  predicate DistinctIds(listing: seq<Found>) {
    forall i, j | 0 <= i < j < |listing| :: listing[i].inst.id != listing[j].inst.id
  }

  predicate DistinctInstances(insts: seq<Listed>) {
    forall i, j | 0 <= i < j < |insts| :: insts[i].id != insts[j].id
  }

  lemma {:induction false} ForAppDistinct(listing: seq<Found>, app: string)
    requires DistinctIds(listing)
    ensures DistinctInstances(ForApp(listing, app))
  {
    if listing != [] {
      var n := |listing| - 1;
      var (before, insts) := (listing[..n], ForApp(listing[..n], app));
      ForAppDistinct(before, app);
      forall i | 0 <= i < |insts| ensures insts[i].id != listing[n].inst.id {
        ForAppIsTheFilter(before, app, insts[i]);
        var k :| 0 <= k < n && before[k] == Found(app, insts[i]);
        assert listing[k] == before[k];
      }
    }
  }

  lemma {:induction false} KeepAppend(insts: seq<Listed>, l: Listed, live: Option<Release>)
    ensures Keep(insts + [l], live) ==
            if Keep(insts, live).Some? then Keep(insts, live)
            else if live.Some? && Adoptable(l, live.value) then Some(l.id) else None
  {
    if insts == [] {
      assert (insts + [l])[1..] == [];
    } else {
      assert (insts + [l])[1..] == insts[1..] + [l];
      KeepAppend(insts[1..], l, live);
    }
  }

  /** What is adopted for an app of the store. */
  function KeptFor(t: Tables, listing: seq<Found>, a: nat): Option<InstanceId>
    requires a in t.apps
  {
    Keep(ForApp(listing, t.apps[a].name), LiveRelease(t, a))
  }

  /** Whether a listed container is the one adopted for its app. */
  predicate IsKept(t: Tables, listing: seq<Found>, f: Found) {
    exists a :: a in t.apps && t.apps[a].name == f.app && KeptFor(t, listing, a) == Some(f.inst.id)
  }

  /** The apps that should be running. */
  function Wanted(t: Tables): set<nat> { set a | a in t.apps && LiveRelease(t, a).Some? }

  function OpenRows(t: Tables): set<nat> { set id | id in t.releases && Open(t.releases[id].status) }

  lemma FailOneMore(t: Tables, done: set<nat>, id: nat)
    requires id in OpenRows(t) && id !in done
    ensures MarkFailed(FailOpen(t, done), id) == (FailOpen(t, done + {id}), None)
  {
    assert MarkFailed(FailOpen(t, done), id).0.releases == FailOpen(t, done + {id}).releases;
  }

  lemma FailAll(t: Tables)
    ensures FailOpen(t, OpenRows(t)) == FailOpen(t, t.releases.Keys)
  {
    assert FailOpen(t, OpenRows(t)).releases == FailOpen(t, t.releases.Keys).releases;
  }

  lemma FailNone(t: Tables)
    ensures FailOpen(t, {}) == t
  {
    assert FailOpen(t, {}).releases == t.releases;
  }

  // --------------------------------------------------------- exited and orphaned

  /** A label that is the name of an app of the store. */
  predicate Known(t: Tables, app: string) { exists a :: a in t.apps && t.apps[a].name == app }

  /** An instance of an app of the store that had exited. */
  predicate WasExited(t: Tables, f: Found) { Known(t, f.app) && !f.inst.running }

  /** An instance out of place: one of no app of the store, or one that ran and
      is not among those `left`. */
  predicate WasOrphan(t: Tables, left: set<InstanceId>, f: Found) {
    !Known(t, f.app) || (f.inst.running && f.inst.id !in left)
  }

  ghost function ExitedOf(t: Tables, listing: seq<Found>): nat {
    if listing == [] then 0
    else
      var n := |listing| - 1;
      ExitedOf(t, listing[..n]) + (if WasExited(t, listing[n]) then 1 else 0)
  }

  ghost function OrphansOf(t: Tables, left: set<InstanceId>, listing: seq<Found>): nat {
    if listing == [] then 0
    else
      var n := |listing| - 1;
      OrphansOf(t, left, listing[..n]) + (if WasOrphan(t, left, listing[n]) then 1 else 0)
  }

  /** The same, but only for the apps in `names`. */
  function ExitedIn(listing: seq<Found>, names: set<string>): nat {
    if listing == [] then 0
    else
      var n := |listing| - 1;
      ExitedIn(listing[..n], names) + (if listing[n].app in names && !listing[n].inst.running then 1 else 0)
  }

  ghost function OrphanedIn(t: Tables, all: seq<Found>, listing: seq<Found>, names: set<string>): nat {
    if listing == [] then 0
    else
      var (n, f) := (|listing| - 1, listing[|listing| - 1]);
      OrphanedIn(t, all, listing[..n], names)
      + (if f.app in names && f.inst.running && !IsKept(t, all, f) then 1 else 0)
  }

  lemma {:induction false} ExitedSplits(listing: seq<Found>, names: set<string>, app: string)
    ensures ExitedIn(listing, names) ==
            ExitedIn(listing, names - {app}) + if app in names then Exited(ForApp(listing, app)) else 0
  {
    if listing != [] {
      var (before, f) := (listing[..|listing| - 1], listing[|listing| - 1]);
      ExitedSplits(before, names, app);
      ExitedInGrows(before, f, names);
      ExitedInGrows(before, f, names - {app});
      ExitedForApp(before, f, app);
      assert listing == before + [f];
    }
  }

  lemma ExitedInGrows(before: seq<Found>, f: Found, names: set<string>)
    ensures ExitedIn(before + [f], names) ==
            ExitedIn(before, names) + if f.app in names && !f.inst.running then 1 else 0
  {
    assert (before + [f])[..|before|] == before;
  }

  lemma ExitedForApp(before: seq<Found>, f: Found, app: string)
    ensures Exited(ForApp(before + [f], app)) ==
            Exited(ForApp(before, app)) + if f.app == app && !f.inst.running then 1 else 0
  {
    assert (before + [f])[..|before|] == before;
    if f.app == app {
      ExitedAppend(ForApp(before, app), f.inst);
    } else {
      assert ForApp(before, app) + [] == ForApp(before, app);
    }
  }

  lemma {:induction false} OrphanedSplits(t: Tables, all: seq<Found>, listing: seq<Found>, names: set<string>, a: nat)
    requires NamesDistinct(t) && a in t.apps
    ensures var app := t.apps[a].name;
      OrphanedIn(t, all, listing, names) ==
      OrphanedIn(t, all, listing, names - {app})
      + if app in names then Orphaned(ForApp(listing, app), KeptFor(t, all, a)) else 0
  {
    if listing != [] {
      var (n, app) := (|listing| - 1, t.apps[a].name);
      var f := listing[n];
      OrphanedSplits(t, all, listing[..n], names, a);
      if f.app == app {
        OrphanedAppend(ForApp(listing[..n], app), f.inst, KeptFor(t, all, a));
        KeptForIt(t, all, a, f);
      } else {
        assert ForApp(listing[..n], app) + [] == ForApp(listing[..n], app);
      }
    }
  }

  /** With the groups of the known apps gone, what was counted is what is to be counted. */
  lemma {:induction false} ExitedCounted(t: Tables, listing: seq<Found>, names: set<string>, strangers: set<string>)
    requires forall f | f in listing :: f.app in names && (f.app in strangers <==> !Known(t, f.app))
    ensures ExitedIn(listing, names) == ExitedIn(listing, strangers) + ExitedOf(t, listing)
  {
    if listing != [] {
      var n := |listing| - 1;
      assert listing[n] in listing && forall f | f in listing[..n] :: f in listing;
      ExitedCounted(t, listing[..n], names, strangers);
    }
  }

  lemma {:induction false} OrphansCounted(t: Tables, all: seq<Found>, listing: seq<Found>, names: set<string>,
                                          strangers: set<string>, left: set<InstanceId>)
    requires forall f | f in listing :: f.app in names && (f.app in strangers <==> !Known(t, f.app))
    requires forall f | f in listing :: f.inst.id in left <==> IsKept(t, all, f)
    ensures OrphanedIn(t, all, listing, names) + CountIn(listing, strangers) ==
            OrphanedIn(t, all, listing, strangers) + OrphansOf(t, left, listing)
  {
    if listing != [] {
      var n := |listing| - 1;
      assert listing[n] in listing && forall f | f in listing[..n] :: f in listing;
      OrphansCounted(t, all, listing[..n], names, strangers, left);
    }
  }

  // ------------------------------------------------------ what is left of a listing

  /** Of the listed containers, those still present are those of the apps not yet looked
      at and those that were kept. */
  ghost predicate Placed(t: Tables, listing: seq<Found>, left: set<string>, present: set<InstanceId>) {
    forall i | 0 <= i < |listing| ::
      listing[i].inst.id in present <==> listing[i].app in left || IsKept(t, listing, listing[i])
  }

  lemma OtherAppsIds(listing: seq<Found>, app: string, i: nat)
    requires DistinctIds(listing) && i < |listing| && listing[i].app != app
    ensures listing[i].inst.id !in Ids(ForApp(listing, app))
  {
    forall l | l in ForApp(listing, app) ensures l.id != listing[i].inst.id {
      ForAppIsTheFilter(listing, app, l);
      var k :| 0 <= k < |listing| && listing[k] == Found(app, l);
    }
  }

  lemma KeptForIt(t: Tables, listing: seq<Found>, a: nat, f: Found)
    requires NamesDistinct(t) && a in t.apps && f.app == t.apps[a].name
    ensures IsKept(t, listing, f) <==> KeptFor(t, listing, a) == Some(f.inst.id)
  {}

  /** One app of the store dealt with. */
  lemma AppPlaced(t: Tables, listing: seq<Found>, left: set<string>, a: nat, present: set<InstanceId>)
    requires NamesDistinct(t) && a in t.apps && DistinctIds(listing) && Placed(t, listing, left, present)
    requires t.apps[a].name !in left ==> ForApp(listing, t.apps[a].name) == []
    ensures var app := t.apps[a].name;
      Placed(t, listing, left - {app}, present - Rejected(ForApp(listing, app), KeptFor(t, listing, a)))
  {
    var app := t.apps[a].name;
    forall i | 0 <= i < |listing|
      ensures listing[i].inst.id in present - Rejected(ForApp(listing, app), KeptFor(t, listing, a))
              <==> listing[i].app in left - {app} || IsKept(t, listing, listing[i])
    {
      if listing[i].app == app {
        ForAppIsTheFilter(listing, app, listing[i].inst);
        KeptForIt(t, listing, a, listing[i]);
      } else {
        OtherAppsIds(listing, app, i);
      }
    }
  }

  /** An app label the store does not know dealt with. */
  lemma StrangerPlaced(t: Tables, listing: seq<Found>, left: set<string>, app: string, present: set<InstanceId>)
    requires DistinctIds(listing) && Placed(t, listing, left, present) && app in left
    requires forall a | a in t.apps :: t.apps[a].name != app
    ensures Placed(t, listing, left - {app}, present - Ids(ForApp(listing, app)))
  {
    forall i | 0 <= i < |listing|
      ensures listing[i].inst.id in present - Ids(ForApp(listing, app))
              <==> listing[i].app in left - {app} || IsKept(t, listing, listing[i])
    {
      if listing[i].app == app {
        ForAppIsTheFilter(listing, app, listing[i].inst);
      } else {
        OtherAppsIds(listing, app, i);
      }
    }
  }

  /** The app's adoptable instance is adopted; failing one, its live release is sent a restart. */
  predicate SettledApp(t: Tables, listing: seq<Found>, currents: map<nat, InstanceId>, restarts: set<nat>, a: nat)
    requires a in t.apps
  {
    && (if a in currents then KeptFor(t, listing, a) == Some(currents[a]) else KeptFor(t, listing, a).None?)
    && (a in restarts <==> LiveRelease(t, a).Some? && KeptFor(t, listing, a).None?)
  }

  ghost predicate Settled(t: Tables, listing: seq<Found>, done: set<nat>, currents: map<nat, InstanceId>,
        restarts: set<nat>) {
    && done <= t.apps.Keys && currents.Keys <= done && restarts <= done
    && (forall a {:trigger SettledApp(t, listing, currents, restarts, a)} | a in done ::
         SettledApp(t, listing, currents, restarts, a))
  }

  lemma SettledAdopted(t: Tables, listing: seq<Found>, done: set<nat>, currents: map<nat, InstanceId>,
        restarts: set<nat>,
                       a: nat, id: InstanceId)
    requires Settled(t, listing, done, currents, restarts) && a in t.apps && a !in done
        && KeptFor(t, listing, a) == Some(id)
    ensures Settled(t, listing, done + {a}, currents[a := id], restarts)
    ensures |currents[a := id].Keys| == |currents.Keys| + 1
  {
    assert currents[a := id].Keys == currents.Keys + {a};
    forall b | b in done + {a} ensures SettledApp(t, listing, currents[a := id], restarts, b) {
      if b != a { assert SettledApp(t, listing, currents, restarts, b); }
    }
  }

  lemma SettledOtherwise(t: Tables, listing: seq<Found>, done: set<nat>, currents: map<nat, InstanceId>,
        restarts: set<nat>, a: nat)
    requires Settled(t, listing, done, currents, restarts) && a in t.apps && a !in done && KeptFor(t, listing, a).None?
    ensures Settled(t, listing, done + {a}, currents, if LiveRelease(t, a).Some? then restarts + {a} else restarts)
    ensures |restarts + {a}| == |restarts| + 1
  {
    var more := if LiveRelease(t, a).Some? then restarts + {a} else restarts;
    forall b | b in done + {a} ensures SettledApp(t, listing, currents, more, b) {
      if b != a { assert SettledApp(t, listing, currents, restarts, b); }
    }
  }

  predicate Points(t: Tables, currents: map<nat, InstanceId>, routes: map<string, InstanceId>, a: nat)
    requires a in currents
  {
    a in t.apps && t.apps[a].host in routes && routes[t.apps[a].host] == currents[a]
  }

  predicate Owned(t: Tables, currents: map<nat, InstanceId>, h: string) {
    exists a :: a in currents && a in t.apps && t.apps[a].host == h
  }

  /** The routes are those of the adopted instances, and no others. */
  ghost predicate RoutesAre(t: Tables, currents: map<nat, InstanceId>, routes: map<string, InstanceId>) {
    && (forall a {:trigger Points(t, currents, routes, a)} | a in currents :: Points(t, currents, routes, a))
    && (forall h {:trigger Owned(t, currents, h)} | h in routes :: Owned(t, currents, h))
  }

  lemma RoutesAdopted(t: Tables, currents: map<nat, InstanceId>, routes: map<string, InstanceId>, a: nat,
        id: InstanceId)
    requires RoutesAre(t, currents, routes) && NamesDistinct(t) && a in t.apps
    ensures RoutesAre(t, currents[a := id], routes[t.apps[a].host := id])
  {
    var (c, r) := (currents[a := id], routes[t.apps[a].host := id]);
    forall b | b in c ensures Points(t, c, r, b) {
      if b != a { assert Points(t, currents, routes, b); }
    }
    forall h | h in r ensures Owned(t, c, h) {
      if h == t.apps[a].host { assert a in c; } else {
        assert Owned(t, currents, h);
        var b :| b in currents && b in t.apps && t.apps[b].host == h;
        assert b in c;
      }
    }
  }

  lemma SettledCounts(t: Tables, listing: seq<Found>, currents: map<nat, InstanceId>, restarts: set<nat>)
    requires Settled(t, listing, t.apps.Keys, currents, restarts)
    ensures |currents.Keys| + |restarts| == |Wanted(t)|
  {
    forall a | a in t.apps ensures a in Wanted(t) <==> a in currents.Keys + restarts {
      assert SettledApp(t, listing, currents, restarts, a);
    }
    forall a | a in currents ensures a !in restarts { assert SettledApp(t, listing, currents, restarts, a); }
    assert currents.Keys + restarts == Wanted(t) && currents.Keys !! restarts;
  }

  /** Every building or starting row has failed and nothing else has changed. */
  ghost predicate OpenRowsFailed(t: Tables, u: Tables) {
    && u.apps == t.apps && u.releases.Keys == t.releases.Keys
    && (forall id | id in t.releases ::
          var row := t.releases[id];
          u.releases[id] == if row.status == Building || row.status == Starting then row.(status := Status.Failed)
              else row)
  }

  // ------------------------------------------------------------------ the daemon

  /** A daemon that has just started: nothing is routed and no actor exists. */
  class Daemon {
    const store: Store.Store
    var containers: map<InstanceId, string>   // what the runtime has, with the app label
    var routes: map<string, InstanceId>
    var currents: map<nat, InstanceId>        // by app, what its actor has adopted
    var restarts: set<nat>                    // the apps sent a restart command

    constructor (store: Store.Store, containers: map<InstanceId, string>)
      ensures this.store == store && this.containers == containers
      ensures routes == map[] && currents == map[] && restarts == {}
    {
      this.store, this.containers := store, containers;
      routes, currents, restarts := map[], map[], {};
    }

    /** The runtime's list is all of it. */
    ghost predicate Lists(listing: seq<Found>)
      reads this
    {
      && DistinctIds(listing)
      && (forall i | 0 <= i < |listing| :: listing[i].inst.id in containers
           && containers[listing[i].inst.id] == listing[i].app)
      && (forall id | id in containers :: exists i | 0 <= i < |listing| :: listing[i].inst.id == id)
    }

    method Remove(id: InstanceId)
      modifies this`containers
      ensures containers == old(containers) - {id}
    {
      containers := containers - {id};
    }

    /** The listing by app label. */
    method Group(listing: seq<Found>) returns (byApp: map<string, seq<Listed>>)
      ensures Groups(listing, byApp)
    {
      byApp := map[];
      ghost var seen: seq<Found> := [];
      for i := 0 to |listing|
        invariant seen == listing[..i] && Groups(seen, byApp)
      {
        var f := listing[i];
        GroupOne(seen, byApp, f);
        assert listing[..i + 1] == listing[..i] + [f];
        byApp := byApp[f.app := (if f.app in byApp then byApp[f.app] else []) + [f.inst]];
        seen := seen + [f];
      }
      assert seen == listing;
    }

    /** The instances of one app: at most one is kept. */
    method Sift(insts: seq<Listed>, live: Option<Release>) returns (keep: Option<InstanceId>, orphans: nat,
          removed: nat)
      requires DistinctInstances(insts)
      modifies this`containers
      ensures keep == Keep(insts, live) && removed == Exited(insts)
      ensures orphans == Orphaned(insts, keep) && orphans + removed + (if keep.Some? then 1 else 0) == |insts|
      ensures containers == old(containers) - Rejected(insts, keep)
    {
      keep, orphans, removed := None, 0, 0;
      ghost var (seen, gone) := ([], {});
      for i := 0 to |insts|
        invariant seen == insts[..i] && gone == Rejected(seen, keep)
        invariant keep == Keep(seen, live) && removed == Exited(seen) && orphans == Orphaned(seen, keep)
        invariant orphans + removed + (if keep.Some? then 1 else 0) == i
        invariant containers == old(containers) - gone
      {
        var inst := insts[i];
        RejectOne(seen, inst, live);
        ExitedAppend(seen, inst);
        OrphanedAppend(seen, inst, keep);
        KeepAppend(seen, inst, live);
        MinusTwice(old(containers), gone, inst.id);
        if !inst.running {
          Remove(inst.id);
          gone, removed := gone + {inst.id}, removed + 1;
        } else if live.Some? && inst.version == live.value.version && inst.published && keep.None? {
          OrphanedAppend(seen, inst, Some(inst.id));
          KeptLater(seen, inst.id);
          keep := Some(inst.id);
        } else {
          Remove(inst.id);
          gone, orphans := gone + {inst.id}, orphans + 1;
        }
        seen := seen + [inst];
      }
      assert seen == insts;
    }

    /** What is kept is adopted: it becomes the actor's current and is routed. */
    method Adopt(a: nat, id: InstanceId)
      requires a in store.apps && NamesDistinct(store.Rows()) && RoutesAre(store.Rows(), currents, routes)
      modifies this`currents, this`routes
      ensures currents == old(currents)[a := id] && RoutesAre(store.Rows(), currents, routes)
    {
      RoutesAdopted(store.Rows(), currents, routes, a, id);
      currents := currents[a := id];
      routes := routes[store.apps[a].host := id];
    }

    /** One app: sift its instances, then adopt the one kept or ask for a restart. */
    method Settle(a: nat, insts: seq<Listed>, rep: Report, ghost listing: seq<Found>, ghost done: set<nat>)
          returns (r: Report)
      requires a in store.apps && NamesDistinct(store.Rows()) && DistinctInstances(insts)
      requires insts == ForApp(listing, store.apps[a].name) && a !in done
      requires rep.adopted == |currents.Keys| && rep.restarted == |restarts|
      requires Settled(store.Rows(), listing, done, currents, restarts) && RoutesAre(store.Rows(), currents, routes)
      modifies this
      ensures Settled(store.Rows(), listing, done + {a}, currents, restarts)
          && RoutesAre(store.Rows(), currents, routes)
      ensures containers == old(containers) - Rejected(insts, KeptFor(store.Rows(), listing, a))
      ensures r.removed == rep.removed + Exited(insts)
      ensures r.orphans == rep.orphans + Orphaned(insts, KeptFor(store.Rows(), listing, a))
      ensures r.adopted + r.orphans + r.removed == rep.adopted + rep.orphans + rep.removed + |insts|
      ensures r.adopted == |currents.Keys| && r.restarted == |restarts| && r.failed == rep.failed
    {
      var live := LiveRelease(store.Rows(), a);
      var keep, orphans, removed := Sift(insts, live);
      r := Serve(a, keep, live, rep, listing, done);
      r := r.(orphans := rep.orphans + orphans, removed := rep.removed + removed);
    }

    method Serve(a: nat, keep: Option<InstanceId>, live: Option<Release>, rep: Report, ghost listing: seq<Found>,
          ghost done: set<nat>)
      returns (r: Report)
      requires a in store.apps && NamesDistinct(store.Rows()) && a !in done
      requires live == LiveRelease(store.Rows(), a) && keep == KeptFor(store.Rows(), listing, a)
      requires rep.adopted == |currents.Keys| && rep.restarted == |restarts|
      requires Settled(store.Rows(), listing, done, currents, restarts) && RoutesAre(store.Rows(), currents, routes)
      modifies this`currents, this`routes, this`restarts
      ensures Settled(store.Rows(), listing, done + {a}, currents, restarts)
          && RoutesAre(store.Rows(), currents, routes)
      ensures r == rep.(adopted := if keep.Some? then rep.adopted + 1 else rep.adopted, restarted := |restarts|)
      ensures r.adopted == |currents.Keys|
    {
      if live.None? {
        SettledOtherwise(store.Rows(), listing, done, currents, restarts, a);
        return rep;
      }
      if keep.Some? {
        SettledAdopted(store.Rows(), listing, done, currents, restarts, a, keep.value);
        Adopt(a, keep.value);
        return rep.(adopted := rep.adopted + 1);
      }
      SettledOtherwise(store.Rows(), listing, done, currents, restarts, a);
      restarts := restarts + {a};
      r := rep.(restarted := rep.restarted + 1);
    }

    /** Every app of the store. What is left of `byApp` is for names it does not know. */
    method SettleApps(listing: seq<Found>, groups: map<string, seq<Listed>>)
          returns (rep: Report, byApp: map<string, seq<Listed>>)
      requires NamesDistinct(store.Rows()) && DistinctIds(listing) && Placed(store.Rows(), listing, groups.Keys,
          containers.Keys)
      requires currents == map[] && routes == map[] && restarts == {}
      requires Groups(listing, groups)
      modifies this
      ensures Settled(store.Rows(), listing, store.apps.Keys, currents, restarts)
          && RoutesAre(store.Rows(), currents, routes)
      ensures Placed(store.Rows(), listing, byApp.Keys, containers.Keys) && Submap(containers, old(containers))
      ensures byApp.Keys <= groups.Keys && forall app | app in byApp :: byApp[app] == ForApp(listing, app)
      ensures forall a | a in store.apps :: store.apps[a].name !in byApp
      ensures Tallied(store.Rows(), listing, groups.Keys, byApp.Keys, rep)
      ensures rep.adopted == |currents.Keys| && rep.restarted == |restarts| && rep.failed == 0
    {
      rep, byApp := Report(0, 0, 0, 0, 0), groups;
      ghost var t := store.Rows();
      Regrouped(t, listing, groups);
      var todo := store.apps.Keys;
      ghost var done: set<nat> := {};
      while todo != {}
        decreases |todo|
        invariant done == t.apps.Keys - todo && todo <= t.apps.Keys && store.Rows() == t
        invariant Settled(t, listing, done, currents, restarts) && RoutesAre(t, currents, routes)
        invariant Placed(t, listing, byApp.Keys, containers.Keys) && Submap(containers, old(containers))
        invariant Remaining(t, listing, todo, byApp) && byApp.Keys <= groups.Keys
        invariant Tallied(t, listing, groups.Keys, byApp.Keys, rep)
        invariant rep.adopted == |currents.Keys| && rep.restarted == |restarts| && rep.failed == 0
      {
        var a :| a in todo;
        OneLess(t.apps.Keys, todo, done, a);
        var app := store.apps[a].name;
        var insts := if app in byApp then byApp[app] else [];
        ForAppDistinct(listing, app);
        AppPlaced(t, listing, byApp.Keys, a, containers.Keys);
        Taken(t, listing, todo, byApp, a);
        ghost var was := rep;
        rep := Settle(a, insts, rep, listing, done);
        TallyOne(t, listing, groups.Keys, byApp, a, was, rep);
        byApp := byApp - {app};
        todo, done := todo - {a}, done + {a};
      }
      assert done == t.apps.Keys;
    }

    /** Containers whose app label the store does not know. */
    method RemoveStrangers(listing: seq<Found>, byApp: map<string, seq<Listed>>, orphans: nat) returns (n: nat)
      requires DistinctIds(listing) && Placed(store.Rows(), listing, byApp.Keys, containers.Keys)
      requires forall app | app in byApp :: byApp[app] == ForApp(listing, app)
      requires forall a | a in store.apps :: store.apps[a].name !in byApp
      modifies this`containers
      ensures Placed(store.Rows(), listing, {}, containers.Keys) && Submap(containers, old(containers))
      ensures n == orphans + CountIn(listing, byApp.Keys)
    {
      n := orphans;
      var left := byApp.Keys;
      while left != {}
        invariant left <= byApp.Keys
        invariant Placed(store.Rows(), listing, left, containers.Keys) && Submap(containers, old(containers))
        invariant n + CountIn(listing, left) == orphans + CountIn(listing, byApp.Keys)
      {
        var app :| app in left;
        StrangerPlaced(store.Rows(), listing, left, app, containers.Keys);
        CountSplits(listing, left, app);
        RemoveAll(byApp[app]);
        n := n + |byApp[app]|;
        left := left - {app};
      }
      CountNone(listing);
    }

    method RemoveAll(insts: seq<Listed>)
      modifies this`containers
      ensures containers == old(containers) - Ids(insts)
    {
      ghost var gone: set<InstanceId> := {};
      for i := 0 to |insts|
        invariant gone == Ids(insts[..i]) && containers == old(containers) - gone
      {
        assert insts[..i + 1] == insts[..i] + [insts[i]];
        MinusTwice(old(containers), gone, insts[i].id);
        Remove(insts[i].id);
        gone := gone + {insts[i].id};
      }
      assert insts[..|insts|] == insts;
    }

    method FailRow(id: nat, failed: nat, ghost t: Tables, ghost done: set<nat>) returns (n: nat)
      requires Sound(t) && store.Rows() == FailOpen(t, done) && id in OpenRows(t) && id !in done
      modifies store
      ensures store.Rows() == FailOpen(t, done + {id}) && n == failed + 1
    {
      FailOpenSound(t, done);
      FailOneMore(t, done, id);
      var error := store.MarkFailed(id);
      n := failed;
      if error.None? { n := n + 1; }
    }

    /** Rows a cut-off deploy left open. */
    method FailOpenReleases() returns (n: nat)
      requires store.Valid()
      modifies store
      ensures store.Rows() == FailOpen(old(store.Rows()), old(store.releases).Keys)
      ensures OpenRowsFailed(old(store.Rows()), store.Rows())
      ensures n == |OpenRows(old(store.Rows()))|
    {
      ghost var t := store.Rows();
      var open := OpenRows(store.Rows());
      n := FailRows(open, t);
      FailAll(t);
    }

    method FailRows(open: set<nat>, ghost t: Tables) returns (n: nat)
      requires Sound(t) && store.Rows() == t && open <= OpenRows(t)
      modifies store
      ensures store.Rows() == FailOpen(t, open) && n == |open|
    {
      var todo := open;
      ghost var done: set<nat> := {};
      n := 0;
      FailNone(t);
      while todo != {}
        decreases |todo|
        invariant done == open - todo && todo <= open && n == |done|
        invariant store.Rows() == FailOpen(t, done)
      {
        var id :| id in todo;
        OneLess(open, todo, done, id);
        n := FailRow(id, n, t, done);
        todo, done := todo - {id}, done + {id};
      }
      assert done == open;
    }

    /** Every container that was listed. */
    method SettleAll(listing: seq<Found>) returns (rep: Report)
      requires store.Valid() && Lists(listing) && currents == map[] && routes == map[] && restarts == {}
      modifies this
      ensures Settled(store.Rows(), listing, store.apps.Keys, currents, restarts)
      ensures RoutesAre(store.Rows(), currents, routes) && Submap(containers, old(containers))
      ensures forall f | f in listing :: f.inst.id in containers <==> IsKept(store.Rows(), listing, f)
      ensures rep.removed == ExitedOf(store.Rows(), listing)
      ensures rep.orphans == OrphansOf(store.Rows(), containers.Keys, listing)
      ensures rep.adopted + rep.orphans + rep.removed == |listing|
      ensures rep.adopted + rep.restarted == |Wanted(store.Rows())| && rep.adopted == |currents.Keys|
    {
      ghost var t := store.Rows();
      var groups := Group(listing);
      AllPlaced(t, listing, groups.Keys, containers.Keys);
      var byApp;
      rep, byApp := SettleApps(listing, groups);
      CountAll(listing, groups.Keys);
      SettledCounts(t, listing, currents, restarts);
      var orphans := RemoveStrangers(listing, byApp, rep.orphans);
      NonePlaced(t, listing, containers.Keys);
      Counted(t, listing, groups.Keys, byApp.Keys, containers.Keys, rep);
      rep := rep.(orphans := orphans);
    }

    /** Reconcile. Afterwards no row is open; of the containers that were listed only the
        adopted are left, one for each app whose live release has one that qualifies, and
        exactly they are routed; every other app that has a live release is restarted; and
        everything that was listed and every app that should run is counted once. */
    method Run(listing: seq<Found>) returns (rep: Report)
      requires store.Valid() && Lists(listing) && currents == map[] && routes == map[] && restarts == {}
      modifies this, store
      ensures store.Rows() == FailOpen(old(store.Rows()), old(store.releases).Keys)
      ensures OpenRowsFailed(old(store.Rows()), store.Rows())
      ensures Settled(old(store.Rows()), listing, old(store.apps).Keys, currents, restarts)
      ensures RoutesAre(old(store.Rows()), currents, routes)
      ensures Submap(containers, old(containers))
      ensures forall f | f in listing :: f.inst.id in containers <==> IsKept(old(store.Rows()), listing, f)
      ensures rep.removed == ExitedOf(old(store.Rows()), listing)
      ensures rep.orphans == OrphansOf(old(store.Rows()), containers.Keys, listing)
      ensures rep.adopted + rep.orphans + rep.removed == |listing|
      ensures rep.adopted + rep.restarted == |Wanted(old(store.Rows()))| && rep.adopted == |currents.Keys|
      ensures rep.failed == |OpenRows(old(store.Rows()))|
      ensures forall s: State | Sees(s, old(store.Rows()), old(containers), listing) ::
                Projects(Recovery(s, listing), store.Rows(), containers, routes, currents)
    {
      ghost var (t, was) := (store.Rows(), containers);
      rep := SettleAll(listing);
      var failed := FailOpenReleases();
      rep := rep.(failed := failed);
      forall s: State | Sees(s, t, was, listing)
        ensures Projects(Recovery(s, listing), store.Rows(), containers, routes, currents)
      {
        RunIsRecover(s, t, was, listing, containers, routes, currents, restarts);
      }
    }
  }

  // --------------------------------------------------- one app's part of it all

  /** The state of one app as a daemon that is down has left it: these rows, and of these
      containers those with the app's label. All of them are listed. */
  ghost predicate Sees(s: State, t: Tables, containers: map<InstanceId, string>, listing: seq<Found>) {
    && s.db == t && s.app in t.apps && !s.up && s == DoCrash(s) && NamesDistinct(t)
    && (forall id :: id in s.instances <==> id in containers && containers[id] == t.apps[s.app].name)
    && (forall i | 0 <= i < |listing| :: listing[i].inst.id in containers
         && containers[listing[i].inst.id] == listing[i].app)
    && (forall id | id in containers :: exists i | 0 <= i < |listing| :: listing[i].inst.id == id)
  }

  /** The lifecycle's recovery of the app, with the app's part of the listing. */
  ghost function Recovery(s: State, listing: seq<Found>): State
    requires s.app in s.db.apps
  {
    DoRecover(s, ForApp(listing, s.db.apps[s.app].name))
  }

  /** What the daemon has is, as far as the app can see, what the app's state says. */
  ghost predicate Projects(u: State, t: Tables, containers: map<InstanceId, string>, routes: map<string, InstanceId>,
                           currents: map<nat, InstanceId>)
  {
    && u.db == t && u.app in t.apps
    && (forall id :: id in u.instances <==> id in containers && containers[id] == t.apps[u.app].name)
    && u.route == (if t.apps[u.app].host in routes then Some(routes[t.apps[u.app].host]) else None)
    && (u.current.Some? <==> u.app in currents)
    && (u.current.Some? ==>
          u.current.value.id == currents[u.app] && !u.current.value.exited && LiveId(u) == Some(u.current.value.row))
  }

  /** For every app of the store, what `Run` leaves is what the lifecycle's one-step recovery
      of that app leaves. */
  lemma RunIsRecover(s: State, t: Tables, was: map<InstanceId, string>, listing: seq<Found>, containers: map<InstanceId,
        string>,
                     routes: map<string, InstanceId>, currents: map<nat, InstanceId>, restarts: set<nat>)
    requires Sees(s, t, was, listing) && Submap(containers, was)
    requires forall f | f in listing :: f.inst.id in containers <==> IsKept(t, listing, f)
    requires Settled(t, listing, t.apps.Keys, currents, restarts) && RoutesAre(t, currents, routes)
    ensures Projects(Recovery(s, listing), FailOpen(t, t.releases.Keys), containers, routes, currents)
  {
    assert SettledApp(t, listing, currents, restarts, s.app);
    RouteFollows(t, currents, routes, s.app);
    RecoveryFields(s, listing);
    var u := Recovery(s, listing);
    forall id ensures id in u.instances <==> id in containers && containers[id] == t.apps[s.app].name {
      if id in s.instances { LeftIffKept(s, t, was, listing, containers, id); }
    }
  }

  lemma RecoveryFields(s: State, listing: seq<Found>)
    requires s.app in s.db.apps && !s.up && s == DoCrash(s)
    ensures var (u, keep) := (Recovery(s, listing), KeptFor(s.db, listing, s.app));
      && u.db == FailOpen(s.db, s.db.releases.Keys) && u.app == s.app && u.route == keep
      && (u.current.Some? <==> keep.Some?)
      && (keep.Some? ==> LiveId(u).Some? && u.current.value == Running(keep.value, LiveId(u).value, false))
      && (forall id :: id in u.instances <==> id in s.instances && keep == Some(id))
  {}

  lemma RouteFollows(t: Tables, currents: map<nat, InstanceId>, routes: map<string, InstanceId>, a: nat)
    requires NamesDistinct(t) && a in t.apps && RoutesAre(t, currents, routes)
    ensures var h := t.apps[a].host;
      if a in currents then h in routes && routes[h] == currents[a] else h !in routes
  {
    assert a in currents ==> Points(t, currents, routes, a);
    assert t.apps[a].host in routes ==> Owned(t, currents, t.apps[a].host);
  }

  lemma LeftIffKept(s: State, t: Tables, was: map<InstanceId, string>, listing: seq<Found>, containers: map<InstanceId,
        string>,
                    id: InstanceId)
    requires Sees(s, t, was, listing) && Submap(containers, was) && id in s.instances
    requires forall f | f in listing :: f.inst.id in containers <==> IsKept(t, listing, f)
    ensures id in containers <==> KeptFor(t, listing, s.app) == Some(id)
  {
    var i :| 0 <= i < |listing| && listing[i].inst.id == id;
    KeptForIt(t, listing, s.app, listing[i]);
    assert listing[i] in listing;
  }

  predicate ServesApp(t: Tables, currents: map<nat, InstanceId>, routes: map<string, InstanceId>, f: Found, a: nat) {
    && a in t.apps && t.apps[a].name == f.app
    && LiveRelease(t, a).Some? && f.inst.running && f.inst.published && f.inst.version ==
         LiveRelease(t, a).value.version
    && a in currents && currents[a] == f.inst.id
    && t.apps[a].host in routes && routes[t.apps[a].host] == f.inst.id
  }

  /** What `Run` leaves of a listing: an instance that was running under the label of its
      app's live release, adopted by that app and routed. */
  lemma WhatIsLeftServes(t: Tables, listing: seq<Found>, currents: map<nat, InstanceId>, routes: map<string,
        InstanceId>,
                         restarts: set<nat>, f: Found)
    requires DistinctIds(listing) && f in listing && IsKept(t, listing, f)
    requires Settled(t, listing, t.apps.Keys, currents, restarts) && RoutesAre(t, currents, routes)
    ensures exists a :: ServesApp(t, currents, routes, f, a)
  {
    var a :| a in t.apps && t.apps[a].name == f.app && KeptFor(t, listing, a) == Some(f.inst.id);
    var (insts, live) := (ForApp(listing, f.app), LiveRelease(t, a));
    KeepFindsTheFirst(insts, live.value);
    var i :| 0 <= i < |insts| && insts[i].id == f.inst.id && Adoptable(insts[i], live.value);
    ForAppIsTheFilter(listing, f.app, insts[i]);
    var k, j :| 0 <= k < |listing| && 0 <= j < |listing| && listing[k] == Found(f.app, insts[i]) && listing[j] == f;
    assert k == j;
    assert SettledApp(t, listing, currents, restarts, a) && Points(t, currents, routes, a);
    assert ServesApp(t, currents, routes, f, a);
  }

  ghost predicate Submap<K, V>(m: map<K, V>, n: map<K, V>) {
    m.Keys <= n.Keys && forall k | k in m :: m[k] == n[k]
  }

  lemma OneLess(all: set<nat>, todo: set<nat>, done: set<nat>, x: nat)
    requires todo <= all && x in todo && done == all - todo
    ensures done + {x} == all - (todo - {x}) && todo - {x} <= all && x !in done && |done + {x}| == |done| + 1
    ensures |todo - {x}| < |todo|
  {}

  lemma AllPlaced(t: Tables, listing: seq<Found>, names: set<string>, present: set<InstanceId>)
    requires forall f | f in listing :: f.app in names
    requires forall i | 0 <= i < |listing| :: listing[i].inst.id in present
    ensures Placed(t, listing, names, present)
  {
    forall i | 0 <= i < |listing| ensures listing[i].app in names { assert listing[i] in listing; }
  }

  lemma NonePlaced(t: Tables, listing: seq<Found>, present: set<InstanceId>)
    requires Placed(t, listing, {}, present)
    ensures forall f | f in listing :: f.inst.id in present <==> IsKept(t, listing, f)
  {}

  /** The part of the grouping that belongs to apps still to be looked at or to none. */
  ghost predicate Remaining(t: Tables, listing: seq<Found>, todo: set<nat>, byApp: map<string, seq<Listed>>)
    requires todo <= t.apps.Keys
  {
    && (forall app | app in byApp :: byApp[app] == ForApp(listing, app))
    && (forall a | a in t.apps && a !in todo :: t.apps[a].name !in byApp)
    && (forall a | a in todo && t.apps[a].name !in byApp :: ForApp(listing, t.apps[a].name) == [])
  }

  /** What the report says so far: the groups of the names not `left` are counted. */
  ghost predicate Tallied(t: Tables, listing: seq<Found>, names: set<string>, left: set<string>, rep: Report) {
    && (forall n | n in names && n !in left :: Known(t, n))
    && CountIn(listing, left) + rep.adopted + rep.orphans + rep.removed == CountIn(listing, names)
    && ExitedIn(listing, left) + rep.removed == ExitedIn(listing, names)
    && OrphanedIn(t, listing, listing, left) + rep.orphans == OrphanedIn(t, listing, listing, names)
  }

  lemma TallyOne(t: Tables, listing: seq<Found>, names: set<string>, byApp: map<string, seq<Listed>>, a: nat,
                 was: Report, rep: Report)
    requires NamesDistinct(t) && a in t.apps && Tallied(t, listing, names, byApp.Keys, was)
    requires t.apps[a].name !in byApp ==> ForApp(listing, t.apps[a].name) == []
    requires var insts := ForApp(listing, t.apps[a].name);
      && rep.removed == was.removed + Exited(insts)
      && rep.orphans == was.orphans + Orphaned(insts, KeptFor(t, listing, a))
      && rep.adopted + rep.orphans + rep.removed == was.adopted + was.orphans + was.removed + |insts|
    ensures Tallied(t, listing, names, (byApp - {t.apps[a].name}).Keys, rep)
  {
    var app := t.apps[a].name;
    assert (byApp - {app}).Keys == byApp.Keys - {app};
    if app in byApp { CountSplits(listing, byApp.Keys, app); } else { assert byApp.Keys - {app} == byApp.Keys; }
    ExitedSplits(listing, byApp.Keys, app);
    OrphanedSplits(t, listing, listing, byApp.Keys, a);
    assert Known(t, app);
  }

  lemma Counted(t: Tables, listing: seq<Found>, names: set<string>, strangers: set<string>, left: set<InstanceId>,
                rep: Report)
    requires strangers <= names && forall f | f in listing :: f.app in names
    requires Tallied(t, listing, names, strangers, rep)
    requires forall a | a in t.apps :: t.apps[a].name !in strangers
    requires forall f | f in listing :: f.inst.id in left <==> IsKept(t, listing, f)
    ensures rep.removed == ExitedOf(t, listing)
    ensures rep.orphans + CountIn(listing, strangers) == OrphansOf(t, left, listing)
  {
    ExitedCounted(t, listing, names, strangers);
    OrphansCounted(t, listing, listing, names, strangers, left);
  }

  lemma Taken(t: Tables, listing: seq<Found>, todo: set<nat>, byApp: map<string, seq<Listed>>, a: nat)
    requires todo <= t.apps.Keys && a in todo && NamesDistinct(t) && Remaining(t, listing, todo, byApp)
    ensures var (app, rest) := (t.apps[a].name, byApp - {t.apps[a].name});
      && Remaining(t, listing, todo - {a}, rest) && rest.Keys == byApp.Keys - {app}
      && (if app in byApp then byApp[app] else []) == ForApp(listing, app)
      && CountIn(listing, byApp.Keys) == CountIn(listing, rest.Keys) + |ForApp(listing, app)|
  {
    var app := t.apps[a].name;
    assert (byApp - {app}).Keys == byApp.Keys - {app};
    if app in byApp { CountSplits(listing, byApp.Keys, app); } else { assert byApp.Keys - {app} == byApp.Keys; }
  }

  lemma Regrouped(t: Tables, listing: seq<Found>, groups: map<string, seq<Listed>>)
    requires Groups(listing, groups)
    ensures Remaining(t, listing, t.apps.Keys, groups)
  {
    forall app | app in groups ensures groups[app] == ForApp(listing, app) { assert GroupIs(listing, groups, app); }
    forall a | a in t.apps && t.apps[a].name !in groups ensures ForApp(listing, t.apps[a].name) == [] {
      assert GroupIs(listing, groups, t.apps[a].name);
    }
  }
}
