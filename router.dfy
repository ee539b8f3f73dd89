/**
 * `DefaultHodrRouter` of core/src/router/router.ts: a collector of HTTP
 * routes, each a lane for one method and path, which captures the router's
 * payload finalizer and error formatter as they are when the route is added.
 */
module Router {
  import Builder
  import Route

  const Get := "GET"
  const Post := "POST"
  const Put := "PUT"
  const Patch := "PATCH"
  const Delete := "DELETE"

  class DefaultHodrRouter {
    const name: string
    var routes: seq<Route.HodrRoute>
    var finalizePayload: Route.PayloadFinalizer
    var formatError: Route.ErrorFormatter

    /** Every route was added by this router, so it names the router as its origin. */
    ghost predicate Valid()
      reads this
    {
      forall i :: 0 <= i < |routes| ==> routes[i].router == name
    }

    /** A router starts with no routes, passing payloads through and formatting an error as itself. */
    constructor(name: string)
      ensures this.name == name && routes == [] && Valid()
      ensures finalizePayload == Route.PayloadAsIs && formatError == Route.ErrorAsIs
    {
      this.name := name;
      routes := [];
      finalizePayload := Route.PayloadAsIs;
      formatError := Route.ErrorAsIs;
    }

    /** inputs(): the routes in the order they were added, each of this router. */
    function Inputs(): (r: seq<Route.HodrRoute>)
      reads this
      requires Valid()
      ensures r == routes
      ensures forall i :: 0 <= i < |r| ==> r[i].router == name
    {
      routes
    }

    /** finalizePayload(fn): routes added from now on use fn; those already added keep theirs. */
    method SetFinalizePayload(fn: Route.PayloadFinalizer) returns (self: DefaultHodrRouter)
      modifies this
      ensures self == this && finalizePayload == fn
      ensures routes == old(routes) && formatError == old(formatError)
      ensures forall i :: 0 <= i < |routes| ==> routes[i].finalizePayload == old(routes[i].finalizePayload)
    {
      finalizePayload := fn;
      self := this;
    }

    /** formatError(fn): routes added from now on use fn; those already added keep theirs. */
    method SetFormatError(fn: Route.ErrorFormatter) returns (self: DefaultHodrRouter)
      modifies this
      ensures self == this && formatError == fn
      ensures routes == old(routes) && finalizePayload == old(finalizePayload)
      ensures forall i :: 0 <= i < |routes| ==> routes[i].formatError == old(routes[i].formatError)
    {
      formatError := fn;
      self := this;
    }

    /**
     * _addRoute(method, path): one route appended, on a new empty lane, with
     * the router's current finalizer and formatter; the builder returned
     * registers steps on that lane.
     */
    method AddRoute(verb: string, path: string) returns (b: Builder.LaneBuilder)
      requires Valid()
      modifies this
      ensures Valid()
      ensures |routes| == |old(routes)| + 1 && routes[..|old(routes)|] == old(routes)
      ensures var route := routes[|routes| - 1];
        && fresh(route) && fresh(route.lane) && route.lane.steps == []
        && route.router == name && route.verb == verb && route.path == path
        && route.finalizePayload == finalizePayload && route.formatError == formatError
        && fresh(b) && b.lane == route.lane
      ensures finalizePayload == old(finalizePayload) && formatError == old(formatError)
    {
      var lane := new Builder.Lane([]);
      var route := new Route.HodrRoute(name, verb, path, lane, finalizePayload, formatError);
      routes := routes + [route];
      b := new Builder.LaneBuilder(lane);
    }

    /** get(path). */
    method GetRoute(path: string) returns (b: Builder.LaneBuilder)
      requires Valid()
      modifies this
      ensures Valid()
      ensures |routes| == |old(routes)| + 1 && routes[..|old(routes)|] == old(routes)
      ensures var route := routes[|routes| - 1];
        && fresh(route) && fresh(route.lane) && route.lane.steps == []
        && route.verb == Get && route.path == path
        && route.finalizePayload == finalizePayload && route.formatError == formatError
        && fresh(b) && b.lane == route.lane
      ensures finalizePayload == old(finalizePayload) && formatError == old(formatError)
    {
      b := AddRoute(Get, path);
    }

    /** post(path). */
    method PostRoute(path: string) returns (b: Builder.LaneBuilder)
      requires Valid()
      modifies this
      ensures Valid()
      ensures |routes| == |old(routes)| + 1 && routes[..|old(routes)|] == old(routes)
      ensures var route := routes[|routes| - 1];
        && fresh(route) && fresh(route.lane) && route.lane.steps == []
        && route.verb == Post && route.path == path
        && route.finalizePayload == finalizePayload && route.formatError == formatError
        && fresh(b) && b.lane == route.lane
      ensures finalizePayload == old(finalizePayload) && formatError == old(formatError)
    {
      b := AddRoute(Post, path);
    }

    /** put(path). */
    method PutRoute(path: string) returns (b: Builder.LaneBuilder)
      requires Valid()
      modifies this
      ensures Valid()
      ensures |routes| == |old(routes)| + 1 && routes[..|old(routes)|] == old(routes)
      ensures var route := routes[|routes| - 1];
        && fresh(route) && fresh(route.lane) && route.lane.steps == []
        && route.verb == Put && route.path == path
        && route.finalizePayload == finalizePayload && route.formatError == formatError
        && fresh(b) && b.lane == route.lane
      ensures finalizePayload == old(finalizePayload) && formatError == old(formatError)
    {
      b := AddRoute(Put, path);
    }

    /** patch(path). */
    method PatchRoute(path: string) returns (b: Builder.LaneBuilder)
      requires Valid()
      modifies this
      ensures Valid()
      ensures |routes| == |old(routes)| + 1 && routes[..|old(routes)|] == old(routes)
      ensures var route := routes[|routes| - 1];
        && fresh(route) && fresh(route.lane) && route.lane.steps == []
        && route.verb == Patch && route.path == path
        && route.finalizePayload == finalizePayload && route.formatError == formatError
        && fresh(b) && b.lane == route.lane
      ensures finalizePayload == old(finalizePayload) && formatError == old(formatError)
    {
      b := AddRoute(Patch, path);
    }

    /** delete(path). */
    method DeleteRoute(path: string) returns (b: Builder.LaneBuilder)
      requires Valid()
      modifies this
      ensures Valid()
      ensures |routes| == |old(routes)| + 1 && routes[..|old(routes)|] == old(routes)
      ensures var route := routes[|routes| - 1];
        && fresh(route) && fresh(route.lane) && route.lane.steps == []
        && route.verb == Delete && route.path == path
        && route.finalizePayload == finalizePayload && route.formatError == formatError
        && fresh(b) && b.lane == route.lane
      ensures finalizePayload == old(finalizePayload) && formatError == old(formatError)
    {
      b := AddRoute(Delete, path);
    }
  }
}
