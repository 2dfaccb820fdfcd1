/**
  One actor per app name: who is started, found, and forgotten, under the supervisor's
  mutex. The methods may be called in any order by any goroutine.
 */
module Registry {
  import opened Wrappers
  import Store

  type ActorId = nat

  /** An actor serves commands until it takes a destroy or the supervisor ends; it is then
      leaving until it has forgotten itself, and touches nothing of the app any more. */
  datatype Phase = Serving | Leaving | Gone

  class Supervisor {
    var closing: bool
    var apps: map<string, ActorId>
    var names: map<ActorId, string>     // every actor ever started
    var phases: map<ActorId, Phase>

    /** The map holds exactly the actors that are not gone, each under its own name. */
    ghost predicate Valid()
      reads this
    {
      && names.Keys == phases.Keys
      && (forall n | n in apps :: apps[n] in names && names[apps[n]] == n && phases[apps[n]] != Gone)
      && (forall id | id in phases && phases[id] != Gone :: names[id] in apps && apps[names[id]] == id)
    }

    constructor ()
      ensures Valid() && !closing && apps == map[] && names == map[]
    {
      closing, apps, names, phases := false, map[], map[], map[];
    }

    /** The app's actor, started on first use; none once the supervisor is ending. */
    method ActorFor(name: string) returns (a: Option<ActorId>)
      requires Valid()
      modifies this`apps, this`names, this`phases
      ensures Valid() && (a.None? <==> closing)
      ensures a.Some? ==> name in apps && apps[name] == a.value && phases[a.value] != Gone
      ensures a.Some? && name in old(apps) ==> unchanged(this)
      ensures a.Some? && name !in old(apps) ==> a.value !in old(names) && phases == old(phases)[a.value := Serving]
      ensures forall n | n != name :: (n in apps <==> n in old(apps)) && (n in apps ==> apps[n] == old(apps)[n])
    {
      if closing { return None; }
      if name !in apps {
        var id := Store.NextId(names.Keys);
        apps := apps[name := id];
        names := names[id := name];
        phases := phases[id := Serving];
      }
      a := Some(apps[name]);
    }

    /** The lookup of a Destroy: none is found if and only if every actor the name ever had
        is gone. The answer is about now; by the time the route is removed it may be old. */
    method Lookup(name: string) returns (a: Option<ActorId>)
      requires Valid()
      ensures a.None? <==> forall id | id in names && names[id] == name :: phases[id] == Gone
      ensures a.Some? ==> a.value in names && names[a.value] == name
    {
      a := if name in apps then Some(apps[name]) else None;
      assert name in apps ==> phases[apps[name]] != Gone;
    }

    /** Whether the actor takes a command offered to it: it may, while it serves. One that
        is leaving or gone closes its channel and the offer fails. */
    method Offer(id: ActorId) returns (taken: bool)
      requires Valid() && id in names
      ensures taken ==> phases[id] == Serving && names[id] in apps && apps[names[id]] == id
    {
      taken := *;
      if phases[id] != Serving { taken := false; }
    }

    /** The actor's loop ends: it took a destroy, or the supervisor is ending. */
    method Leave(id: ActorId)
      requires Valid() && id in names && phases[id] == Serving
      modifies this`phases
      ensures Valid() && phases == old(phases)[id := Leaving]
    {
      phases := phases[id := Leaving];
    }

    /** The actor drops out of the map. It deletes whatever is there under its name; that
        is always itself. */
    method Forget(id: ActorId)
      requires Valid() && id in names && phases[id] == Leaving
      modifies this`apps, this`phases
      ensures Valid() && phases == old(phases)[id := Gone]
      ensures names[id] in old(apps) && old(apps)[names[id]] == id && apps == old(apps) - {names[id]}
    {
      apps := apps - {names[id]};
      phases := phases[id := Gone];
    }

    method Shutdown()
      requires Valid()
      modifies this`closing
      ensures Valid() && closing
    {
      closing := true;
    }
  }

  /** Never two actors at work for one app: a command runs only in an actor that serves. */
  lemma OneActorPerName(s: Supervisor, a: ActorId, b: ActorId)
    requires s.Valid() && a in s.names && b in s.names && s.names[a] == s.names[b]
    requires s.phases[a] != Gone && s.phases[b] != Gone
    ensures a == b
  {
    assert s.apps[s.names[a]] == a && s.apps[s.names[b]] == b;
  }
}
