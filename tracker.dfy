/**
 * The in-memory tracker and recorder of core/src/engine/tracker.ts and
 * core/src/engine/recorder.ts: both keep every context handed to them, in
 * order, without bound; the limit they are configured with is stored and
 * never consulted.
 */
module Tracker {
  import opened Wrappers
  import Context

  /** `MemoryTrackerConfig` and `MemoryRecorderConfig`: an optional name and limit. */
  datatype MemoryConfig = MemoryConfig(name: Option<string>, limit: Option<int>)

  const DefaultLimit := 100

  /** `config.limit || 100`: a missing or zero limit is the default one. */
  function LimitOf(config: MemoryConfig): (limit: int)
    ensures config.limit.Some? && config.limit.value != 0 ==> limit == config.limit.value
    ensures config.limit.None? || config.limit == Some(0) ==> limit == DefaultLimit
  {
    if config.limit.Some? && config.limit.value != 0 then config.limit.value else DefaultLimit
  }

  /** `config.name ?? fallback`. */
  function NameOf(config: MemoryConfig, fallback: string): (name: string)
    ensures config.name.Some? ==> name == config.name.value
    ensures config.name.None? ==> name == fallback
  {
    if config.name.Some? then config.name.value else fallback
  }

  /** The factories spread the configuration over a default name, so the name defaults the same way. */
  function FactoryConfig(config: MemoryConfig, fallback: string): (c: MemoryConfig)
    ensures NameOf(c, fallback) == NameOf(config, fallback) && LimitOf(c) == LimitOf(config)
  {
    MemoryConfig(Some(NameOf(config, fallback)), config.limit)
  }

  /** A tracker: registered with `use`, it is handed every execution context when its lane starts. */
  class MemoryTracker {
    const name: string
    const limit: int
    var contexts: seq<Context.HodrContext>

    constructor(config: MemoryConfig)
      ensures name == NameOf(config, "memory-tracker") && limit == LimitOf(config)
      ensures contexts == []
    {
      name := NameOf(config, "memory-tracker");
      limit := LimitOf(config);
      contexts := [];
    }

    /** getRecorded(): every context recorded, oldest first. */
    method GetRecorded() returns (r: seq<Context.HodrContext>)
      ensures r == contexts
    {
      r := contexts;
    }

    /** record(ctx): appended, whatever the limit. */
    method Record(ctx: Context.HodrContext)
      modifies this
      ensures contexts == old(contexts) + [ctx]
    {
      contexts := contexts + [ctx];
    }
  }

  /** memoryTracker(config). */
  method NewMemoryTracker(config: MemoryConfig) returns (t: MemoryTracker)
    ensures fresh(t) && t.contexts == []
    ensures t.name == NameOf(config, "memory-tracker") && t.limit == LimitOf(config)
  {
    t := new MemoryTracker(FactoryConfig(config, "memory-tracker"));
  }

  /** A recorder: the same store, but without the tag `use` looks for, so registering one does nothing. */
  class MemoryRecorder {
    const name: string
    const limit: int
    var contexts: seq<Context.HodrContext>

    constructor(config: MemoryConfig)
      ensures name == NameOf(config, "memory-recorder") && limit == LimitOf(config)
      ensures contexts == []
    {
      name := NameOf(config, "memory-recorder");
      limit := LimitOf(config);
      contexts := [];
    }

    /** getRecorded(). */
    method GetRecorded() returns (r: seq<Context.HodrContext>)
      ensures r == contexts
    {
      r := contexts;
    }

    /** record(ctx). */
    method Record(ctx: Context.HodrContext)
      modifies this
      ensures contexts == old(contexts) + [ctx]
    {
      contexts := contexts + [ctx];
    }
  }

  /** memoryRecorder(config). */
  method NewMemoryRecorder(config: MemoryConfig) returns (r: MemoryRecorder)
    ensures fresh(r) && r.contexts == []
    ensures r.name == NameOf(config, "memory-recorder") && r.limit == LimitOf(config)
  {
    r := new MemoryRecorder(FactoryConfig(config, "memory-recorder"));
  }

  /** No tracker occurs twice: the root keys its trackers by name. */
  predicate Distinct(trackers: seq<MemoryTracker>)
  {
    forall i, j :: 0 <= i < j < |trackers| ==> trackers[i] != trackers[j]
  }

  /** The trackers as a set of objects, for frames. */
  function Objects(trackers: seq<MemoryTracker>): set<MemoryTracker>
  {
    set t | t in trackers
  }

  /** Hodr.record(ctx): every tracker, in order, records the context once. */
  method RecordAll(trackers: seq<MemoryTracker>, ctx: Context.HodrContext)
    requires Distinct(trackers)
    modifies Objects(trackers)
    ensures forall t :: t in trackers ==> t.contexts == old(t.contexts) + [ctx]
  {
    var i := 0;
    while i < |trackers|
      invariant 0 <= i <= |trackers|
      invariant forall j :: 0 <= j < i ==> trackers[j].contexts == old(trackers[j].contexts) + [ctx]
      invariant forall j :: i <= j < |trackers| ==> trackers[j].contexts == old(trackers[j].contexts)
    {
      trackers[i].Record(ctx);
      i := i + 1;
    }
  }

  /** Hodr.record for each context in turn: every tracker ends with all of them appended, in order. */
  method RecordEach(trackers: seq<MemoryTracker>, contexts: seq<Context.HodrContext>)
    requires Distinct(trackers)
    modifies Objects(trackers)
    ensures forall t :: t in trackers ==> t.contexts == old(t.contexts) + contexts
  {
    var i := 0;
    while i < |contexts|
      invariant 0 <= i <= |contexts|
      invariant forall t :: t in trackers ==> t.contexts == old(t.contexts) + contexts[..i]
    {
      RecordAll(trackers, contexts[i]);
      assert contexts[..i + 1] == contexts[..i] + [contexts[i]];
      i := i + 1;
    }
  }
}
