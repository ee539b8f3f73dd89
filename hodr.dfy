/**
 * The `Hodr` registry of core/src/hodr.ts: the origins (function modules and
 * routers) and destinations by name, the trackers by their own name, and the
 * validators in the order they were registered.
 */
module Registry {
  import opened Wrappers
  import opened Types
  import Steps
  import Context
  import Destinations
  import Builder
  import Origin
  import Routing = Router
  import Tracker
  import Execution

  /** `HodrOptions`: both names optional. */
  datatype HodrOptions = HodrOptions(appId: Option<string>, appName: Option<string>)

  const DefaultAppId := "hodr-app"
  const DefaultAppName := "Hodr Application"

  /** `opts?.appId ?? 'hodr-app'`. */
  function AppIdOf(opts: Option<HodrOptions>): (appId: string)
    ensures opts.Some? && opts.value.appId.Some? ==> appId == opts.value.appId.value
    ensures opts.None? || opts.value.appId.None? ==> appId == DefaultAppId
  {
    if opts.Some? && opts.value.appId.Some? then opts.value.appId.value else DefaultAppId
  }

  /** `opts?.appName ?? 'Hodr Application'`. */
  function AppNameOf(opts: Option<HodrOptions>): (appName: string)
    ensures opts.Some? && opts.value.appName.Some? ==> appName == opts.value.appName.value
    ensures opts.None? || opts.value.appName.None? ==> appName == DefaultAppName
  {
    if opts.Some? && opts.value.appName.Some? then opts.value.appName.value else DefaultAppName
  }

  /** An origin is a function module or a router; both share one namespace. */
  datatype OriginEntry = ModuleEntry(origin: Origin.ModuleOrigin) | RouterEntry(router: Routing.DefaultHodrRouter)

  /** What `use` is handed, told apart by its `__type` tag; a recorder has none that `use` knows. */
  datatype Feature =
    | TrackerFeature(tracker: Tracker.MemoryTracker)
    | ValidatorFeature(validator: Steps.Validator)
    | OtherFeature

  /** The name of `<name>-module`, the module `function(name)` registers in. */
  function ModuleNameOf(name: string): (m: string)
    ensures m == name + "-module" && |m| == |name| + 7
  {
    name + "-module"
  }

  /** Calling `function` on a router that `module` handed out as a module. */
  function NotAModule(name: string): Thrown
  {
    ThrowNative("TypeError", "this.module(...).function is not a function")
  }

  /** The trackers at the given names, in that order. */
  function TrackersAt(trackers: map<string, Tracker.MemoryTracker>, names: seq<string>): (r: seq<Tracker.MemoryTracker>)
    requires forall k :: k in names ==> k in trackers
    ensures |r| == |names| && forall i :: 0 <= i < |names| ==> r[i] == trackers[names[i]]
  {
    if names == [] then [] else [trackers[names[0]]] + TrackersAt(trackers, names[1..])
  }

  /** Trackers keyed by their own name, listed once each, are distinct objects. */
  lemma TrackersDistinct(trackers: map<string, Tracker.MemoryTracker>, names: seq<string>)
    requires forall k :: k in names ==> k in trackers
    requires forall k :: k in trackers ==> trackers[k].name == k
    requires forall i, j :: 0 <= i < j < |names| ==> names[i] != names[j]
    ensures Tracker.Distinct(TrackersAt(trackers, names))
  {
    var r := TrackersAt(trackers, names);
    forall i, j | 0 <= i < j < |r|
      ensures r[i] != r[j]
    {
      assert r[i].name == names[i] && r[j].name == names[j];
    }
  }

  /** The function modules among the origins. */
  ghost function ModulesOf(origins: map<string, OriginEntry>): set<Origin.ModuleOrigin>
  {
    set k | k in origins && origins[k].ModuleEntry? :: origins[k].origin
  }

  lemma ModulesOfUpdate(origins: map<string, OriginEntry>, name: string, e: OriginEntry)
    ensures ModulesOf(origins[name := e]) <= ModulesOf(origins) + (if e.ModuleEntry? then {e.origin} else {})
    ensures e.ModuleEntry? ==> e.origin in ModulesOf(origins[name := e])
  {
    var updated := origins[name := e];
    forall m | m in ModulesOf(updated)
      ensures m in ModulesOf(origins) + (if e.ModuleEntry? then {e.origin} else {})
    {
      var k :| k in updated && updated[k].ModuleEntry? && updated[k].origin == m;
      if k != name {
        assert origins[k].origin == m;
      }
    }
    if e.ModuleEntry? {
      assert updated[name].origin == e.origin;
    }
  }

  class Hodr {
    const appId: string
    const appName: string
    var origins: map<string, OriginEntry>
    var destinations: map<string, Destinations.HodrDestination>
    var trackers: map<string, Tracker.MemoryTracker>
    /** The tracker names in the order `Object.values` lists them: that of their first registration. */
    var trackerNames: seq<string>
    var validators: seq<Steps.Validator>

    /** The function modules among the origins. */
    ghost function Modules(): set<Origin.ModuleOrigin>
      reads this
    {
      ModulesOf(origins)
    }

    /** Each tracker is listed once, under its own name. */
    ghost predicate TrackersValid()
      reads this
    {
      && (forall k :: k in trackerNames <==> k in trackers)
      && (forall i, j :: 0 <= i < j < |trackerNames| ==> trackerNames[i] != trackerNames[j])
      && (forall k :: k in trackers ==> trackers[k].name == k)
    }

    ghost predicate Valid()
      reads this, Modules()
    {
      && TrackersValid()
      && (forall m :: m in Modules() ==> m.Valid())
    }

    /** makeHodr(opts): an empty registry. */
    constructor(opts: Option<HodrOptions>)
      ensures appId == AppIdOf(opts) && appName == AppNameOf(opts)
      ensures origins == map[] && destinations == map[] && trackers == map[] && validators == []
      ensures Valid()
    {
      appId := AppIdOf(opts);
      appName := AppNameOf(opts);
      origins := map[];
      destinations := map[];
      trackers := map[];
      trackerNames := [];
      validators := [];
    }

    /** Object.values(this.trackers): each registered tracker once. */
    function Trackers(): (r: seq<Tracker.MemoryTracker>)
      reads this
      requires TrackersValid()
      ensures Tracker.Distinct(r)
      ensures |r| == |trackerNames| && forall i :: 0 <= i < |r| ==> r[i] == trackers[trackerNames[i]]
      ensures Tracker.Objects(r) == trackers.Values
    {
      TrackersDistinct(trackers, trackerNames);
      var r := TrackersAt(trackers, trackerNames);
      forall t | t in trackers.Values
        ensures t in Tracker.Objects(r)
      {
        var k :| k in trackers && trackers[k] == t;
        var i :| 0 <= i < |trackerNames| && trackerNames[i] == k;
        assert r[i] == t;
      }
      r
    }

    /** What a lane's steps see of the registry. */
    function Root(): (root: Execution.Root)
      reads this
      ensures root.destinations == destinations && root.validators == validators
    {
      Execution.Root(destinations, validators)
    }

    /**
     * module(name): the origin already registered under the name, whatever
     * it is, or else a new function module registered under it.
     */
    method Module(name: string) returns (entry: OriginEntry)
      requires Valid()
      modifies this
      ensures Valid()
      ensures name in origins && entry == origins[name]
      ensures name in old(origins) ==> origins == old(origins)
      ensures name !in old(origins) ==>
        && entry.ModuleEntry? && fresh(entry.origin)
        && entry.origin.name == name && entry.origin.functions == map[]
        && origins == old(origins)[name := entry]
      ensures destinations == old(destinations) && trackers == old(trackers)
      ensures trackerNames == old(trackerNames) && validators == old(validators)
    {
      if name in origins {
        entry := origins[name];
      } else {
        var m := new Origin.ModuleOrigin(name);
        entry := ModuleEntry(m);
        origins := origins[name := entry];
        ModulesOfUpdate(old(origins), name, entry);
      }
    }

    /**
     * function(name): the function registered in the module `<name>-module`,
     * and a builder for its lane; a router under that name has no `function`.
     */
    method Function(name: string) returns (r: Result<Builder.LaneBuilder, Thrown>)
      requires Valid()
      modifies this, Modules()
      ensures Valid()
      ensures ModuleNameOf(name) in origins
      ensures old(ModuleNameOf(name) in origins && origins[ModuleNameOf(name)].RouterEntry?) ==>
        r == Err(NotAModule(name)) && origins == old(origins)
      ensures origins[ModuleNameOf(name)].ModuleEntry? ==>
        var m := origins[ModuleNameOf(name)].origin;
        && r.Ok? && name in m.functions && m.functions[name].name == name
        && m.functions[name].lane.steps == [] && r.value.lane == m.functions[name].lane
      ensures destinations == old(destinations) && trackers == old(trackers) && validators == old(validators)
    {
      var entry := Module(ModuleNameOf(name));
      match entry {
        case RouterEntry(_) =>
          r := Err(NotAModule(name));
        case ModuleEntry(m) =>
          assert m in Modules() by {
            assert origins[ModuleNameOf(name) := entry] == origins;
            ModulesOfUpdate(origins, ModuleNameOf(name), entry);
          }
          var b := m.Function(name);
          r := Ok(b);
      }
    }

    /** router(name): a new router under the name, replacing any origin registered under it. */
    method Router(name: string) returns (router: Routing.DefaultHodrRouter)
      requires Valid()
      modifies this
      ensures Valid()
      ensures fresh(router) && router.name == name && router.routes == [] && router.Valid()
      ensures origins == old(origins)[name := RouterEntry(router)]
      ensures destinations == old(destinations) && trackers == old(trackers) && validators == old(validators)
    {
      router := new Routing.DefaultHodrRouter(name);
      origins := origins[name := RouterEntry(router)];
      ModulesOfUpdate(old(origins), name, RouterEntry(router));
    }

    /** destination(name): a new destination, without an adapter, under the name; and its builder. */
    method Destination(name: string) returns (b: Builder.DestinationBuilder)
      requires Valid()
      modifies this
      ensures Valid()
      ensures fresh(b) && fresh(b.destination)
      ensures b.destination.name == Some(name) && b.destination.adapter.None?
      ensures destinations == old(destinations)[name := b.destination]
      ensures origins == old(origins) && trackers == old(trackers) && validators == old(validators)
    {
      var destination := new Destinations.HodrDestination(Some(name));
      destinations := destinations[name := destination];
      b := new Builder.DestinationBuilder(destination);
    }

    /**
     * use(feature): a tracker under its name, replacing one of the same
     * name; a validator after the others; anything else ignored.
     */
    method Use(feature: Feature) returns (self: Hodr)
      requires Valid()
      modifies this
      ensures Valid() && self == this
      ensures feature.TrackerFeature? ==>
        && trackers == old(trackers)[feature.tracker.name := feature.tracker]
        && trackerNames == (if feature.tracker.name in old(trackers) then old(trackerNames) else old(trackerNames) + [feature.tracker.name])
        && validators == old(validators)
      ensures feature.ValidatorFeature? ==>
        validators == old(validators) + [feature.validator] && trackers == old(trackers) && trackerNames == old(trackerNames)
      ensures feature.OtherFeature? ==>
        validators == old(validators) && trackers == old(trackers) && trackerNames == old(trackerNames)
      ensures origins == old(origins) && destinations == old(destinations)
    {
      match feature {
        case TrackerFeature(t) =>
          if t.name !in trackers {
            trackerNames := trackerNames + [t.name];
          }
          trackers := trackers[t.name := t];
        case ValidatorFeature(v) =>
          validators := validators + [v];
        case OtherFeature =>
      }
      self := this;
    }

    /** record(ctx): every registered tracker records the context once. */
    method Record(ctx: Context.HodrContext)
      requires Valid()
      modifies trackers.Values
      ensures forall t :: t in old(trackers.Values) ==> t.contexts == old(t.contexts) + [ctx]
    {
      var list := Trackers();
      Tracker.RecordAll(list, ctx);
    }
  }
}
