/**
 The registry of the apps: an unordered map from the app to its name and its handler, filled once at
 start-up and searched by key when a message is built and by name when one arrives.
 */
module Dispatcher {
  import opened Basics
  import opened Json

  datatype AppId = Main | Echo | Serial | Monitor | TcpServer | TcpClient | UdpClient | UdpServer

  datatype App = App(app: AppId, name: CString, handles: bool)

  type Registry = map<AppId, App>

  /** Every app is registered under itself. */
  predicate WellKeyed(apps: Registry) {
    forall a :: a in apps ==> apps[a].app == a
  }

  predicate DistinctNames(apps: Registry) {
    forall a, b :: a in apps && b in apps && apps[a].name == apps[b].name ==> a == b
  }

  predicate Named(apps: Registry, name: CString) {
    exists a :: a in apps && apps[a].name == name
  }

  function Registered(apps: Registry, app: App): Registry {
    if app.app in apps then apps else apps[app.app := app]
  }

  function RegisterAll(apps: Registry, list: seq<App>): Registry
    decreases |list|
  {
    if list == [] then apps else RegisterAll(Registered(apps, list[0]), list[1..])
  }

  function First(list: seq<App>, app: AppId): Option<App> {
    if list == [] then None else if list[0].app == app then Some(list[0]) else First(list[1..], app)
  }

  function Get(apps: Registry, app: AppId): Option<App> {
    if app in apps then Some(apps[app]) else None
  }

  /** The first registration of an app stands, whatever is registered later. */
  lemma {:induction false} FirstRegistrationStands(apps: Registry, list: seq<App>, app: AppId)
    ensures Get(RegisterAll(apps, list), app) == if app in apps then Get(apps, app) else First(list, app)
    decreases |list|
  {
    if list != [] {
      FirstRegistrationStands(Registered(apps, list[0]), list[1..], app);
    }
  }

  /** The registry itself, static in the program. */
  class Apps {
    var apps: Registry

    constructor ()
      ensures apps == map[]
    {
      apps := map[];
    }

    /** Registering an app again changes nothing. */
    method Register(app: App)
      requires WellKeyed(apps)
      modifies this
      ensures apps == Registered(old(apps), app) && WellKeyed(apps)
    {
      if app.app in apps {
        return;
      }
      apps := apps[app.app := app];
    }

    method Find(app: AppId) returns (r: Option<App>)
      ensures r == Get(apps, app)
    {
      if app !in apps {
        return None;
      }
      r := Some(apps[app]);
    }

    /** The map is gone through in no particular order, so of several apps with the name any may be
        found. */
    method FindName(name: CString) returns (r: Option<App>)
      requires WellKeyed(apps)
      ensures r.Some? ==> r.value.app in apps && apps[r.value.app] == r.value && r.value.name == name
      ensures r.None? ==> !Named(apps, name)
    {
      var todo := apps.Keys;
      while todo != {}
        invariant todo <= apps.Keys
        invariant forall a :: a in apps && a !in todo ==> apps[a].name != name
        decreases todo
      {
        var a :| a in todo;
        if apps[a].name == name {
          return Some(apps[a]);
        }
        todo := todo - {a};
      }
      r := None;
    }

    /** Whether the app is known, and whose handler runs. */
    method Exec(app: AppId) returns (known: bool, ran: Option<AppId>)
      requires WellKeyed(apps)
      ensures known <==> app in apps
      ensures ran == if app in apps && apps[app].handles then Some(app) else None
    {
      if app !in apps {
        return false, None;
      }
      var found := apps[app];
      ran := if found.handles then Some(found.app) else None;
      known := true;
    }
  }
}
