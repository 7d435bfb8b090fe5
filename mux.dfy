// The api generation's router (api/server/mux.go): routes are tried in
// registration order; the first whose pattern matches the path and whose
// method is the request's wins and gets the pattern's submatches. A path no
// pattern matches is 404 Not Found; a path some pattern matches under another
// method only is 405 Method Not Allowed (sections 6.5.4 and 6.5.5 of RFC 7231).
// The regular expression engine is a parameter: `find(pattern, path)` is
// FindStringSubmatch, None when the pattern does not match.

module Mux {
  import opened Common
  import opened Http

  /** A route; the handler is named by an index into the server's handlers. */
  datatype Route = Route(verb: string, pattern: string, handler: nat)

  /** What ServeHTTP does with a request. */
  datatype Dispatch = Handle(handler: nat, groups: seq<string>) | Reject(status: int)

  /** The routing decision on `routes`, given whether an earlier route
    * already matched the path. */
  function Select(routes: seq<Route>, r: Request, find: (string, string) -> Option<seq<string>>, hasmatch: bool): Dispatch
  {
    if routes == [] then Reject(if hasmatch then StatusMethodNotAllowed else StatusNotFound)
    else
      match find(routes[0].pattern, r.path)
      case None => Select(routes[1..], r, find, hasmatch)
      case Some(m) =>
        if routes[0].verb == r.verb then Handle(routes[0].handler, m)
        else Select(routes[1..], r, find, true)
  }

  /** Route i serves the request: its pattern matches and its method is the
    * request's. */
  predicate Serves(route: Route, r: Request, find: (string, string) -> Option<seq<string>>)
  {
    find(route.pattern, r.path).Some? && route.verb == r.verb
  }

  /** The context value the handler receives; nil when none was stored. */
  function ContextMatch(ctx: Option<seq<string>>): (groups: seq<string>)
    ensures ctx.None? ==> groups == []
    ensures ctx.Some? ==> groups == ctx.value
  {
    if ctx.Some? then ctx.value else []
  }

  class Mux {
    var routes: seq<Route>

    constructor ()
      ensures routes == []
    {
      routes := [];
    }

    /** HandleFunc appends the route; a duplicate is not rejected. */
    method HandleFunc(verb: string, pattern: string, handler: nat)
      modifies this
      ensures routes == old(routes) + [Route(verb, pattern, handler)]
    {
      routes := routes + [Route(verb, pattern, handler)];
    }

    /** ServeHTTP: a rejected request gets http.Error with the status text;
      * a dispatched one is left to its handler with the submatches. */
    method ServeHTTP(w: Writer, r: Request, find: (string, string) -> Option<seq<string>>) returns (d: Dispatch)
      modifies w
      ensures d == Select(routes, r, find, false)
      ensures d.Handle? ==> w.response == old(w.response)
      ensures d.Reject? ==> w.response == ApplyAll(old(w.response), ErrorOps(StatusText(d.status), d.status))
    {
      var found := false;
      var handler := 0;
      var groups: seq<string> := [];
      var hasmatch := false;
      var i := 0;
      while i < |routes|
        invariant 0 <= i <= |routes|
        invariant !found ==> Select(routes[i..], r, find, hasmatch) == Select(routes, r, find, false)
        invariant found ==> Select(routes, r, find, false) == Handle(handler, groups)
        decreases |routes| - i, !found
      {
        assert routes[i..][0] == routes[i] && routes[i..][1..] == routes[i + 1..];
        var m := find(routes[i].pattern, r.path);
        if m.None? {
          i := i + 1;
          continue;
        }
        hasmatch := true;
        if routes[i].verb != r.verb {
          i := i + 1;
          continue;
        }
        found, handler, groups := true, routes[i].handler, m.value;
        break;
      }
      if !found {
        var status := StatusNotFound;
        if hasmatch {
          status := StatusMethodNotAllowed;
        }
        w.Error(StatusText(status), status);
        return Reject(status);
      }
      d := Handle(handler, ContextMatch(Some(groups)));
    }
  }

  /** A request is handled by the first route that serves it, with that
    * route's submatches. */
  lemma {:induction false} FirstServingRouteWins(routes: seq<Route>, r: Request, find: (string, string) -> Option<seq<string>>,
                                                hasmatch: bool, i: nat)
    requires i < |routes| && Serves(routes[i], r, find)
    requires forall j :: 0 <= j < i ==> !Serves(routes[j], r, find)
    ensures Select(routes, r, find, hasmatch) == Handle(routes[i].handler, find(routes[i].pattern, r.path).value)
  {
    if i > 0 {
      assert !Serves(routes[0], r, find);
      forall j | 0 <= j < i - 1
        ensures !Serves(routes[1..][j], r, find)
      {
        assert routes[1..][j] == routes[j + 1];
      }
      FirstServingRouteWins(routes[1..], r, find, hasmatch || find(routes[0].pattern, r.path).Some?, i - 1);
    }
  }

  /** A request no route serves is rejected: 405 when some pattern matched
    * its path, 404 when none did. */
  lemma {:induction false} UnservedIsRejected(routes: seq<Route>, r: Request, find: (string, string) -> Option<seq<string>>,
                                             hasmatch: bool)
    requires forall j :: 0 <= j < |routes| ==> !Serves(routes[j], r, find)
    ensures Select(routes, r, find, hasmatch)
      == Reject(if hasmatch || exists j :: 0 <= j < |routes| && find(routes[j].pattern, r.path).Some?
                then StatusMethodNotAllowed else StatusNotFound)
  {
    if routes != [] {
      assert !Serves(routes[0], r, find);
      forall j | 0 <= j < |routes| - 1
        ensures !Serves(routes[1..][j], r, find)
      {
        assert routes[1..][j] == routes[j + 1];
      }
      UnservedIsRejected(routes[1..], r, find, hasmatch || find(routes[0].pattern, r.path).Some?);
      if exists j :: 0 <= j < |routes| - 1 && find(routes[1..][j].pattern, r.path).Some? {
        var j :| 0 <= j < |routes| - 1 && find(routes[1..][j].pattern, r.path).Some?;
        assert routes[1..][j] == routes[j + 1];
      }
      if exists j :: 0 <= j < |routes| && find(routes[j].pattern, r.path).Some? {
        var j :| 0 <= j < |routes| && find(routes[j].pattern, r.path).Some?;
        if j > 0 {
          assert routes[1..][j - 1] == routes[j];
        }
      }
    }
  }

  /** A dispatched handler is the handler of a route that serves the request,
    * and no earlier route serves it. */
  lemma {:induction false} HandledOnlyByServingRoute(routes: seq<Route>, r: Request, find: (string, string) -> Option<seq<string>>,
                                                    hasmatch: bool)
    requires Select(routes, r, find, hasmatch).Handle?
    ensures exists i :: (0 <= i < |routes| && Serves(routes[i], r, find)
      && Select(routes, r, find, hasmatch) == Handle(routes[i].handler, find(routes[i].pattern, r.path).value)
      && forall j :: 0 <= j < i ==> !Serves(routes[j], r, find))
  {
    if !Serves(routes[0], r, find) {
      HandledOnlyByServingRoute(routes[1..], r, find, hasmatch || find(routes[0].pattern, r.path).Some?);
      var i :| 0 <= i < |routes| - 1 && Serves(routes[1..][i], r, find)
        && Select(routes[1..], r, find, hasmatch || find(routes[0].pattern, r.path).Some?)
           == Handle(routes[1..][i].handler, find(routes[1..][i].pattern, r.path).value)
        && forall j :: 0 <= j < i ==> !Serves(routes[1..][j], r, find);
      assert routes[1..][i] == routes[i + 1];
      forall j | 0 <= j < i + 1
        ensures !Serves(routes[j], r, find)
      {
        if j > 0 {
          assert routes[1..][j - 1] == routes[j];
        }
      }
    }
  }

  /** A route registered after one that serves the request never runs:
    * duplicates are shadowed by the first registration. */
  lemma LaterRouteShadowed(routes: seq<Route>, extra: Route, r: Request, find: (string, string) -> Option<seq<string>>)
    requires exists i :: 0 <= i < |routes| && Serves(routes[i], r, find)
    ensures Select(routes + [extra], r, find, false) == Select(routes, r, find, false)
  {
    var i :| 0 <= i < |routes| && Serves(routes[i], r, find);
    var k := 0;
    while !Serves(routes[k], r, find)
      invariant 0 <= k <= i
      invariant forall j :: 0 <= j < k ==> !Serves(routes[j], r, find)
      decreases i - k
    {
      k := k + 1;
    }
    var all := routes + [extra];
    assert forall j :: 0 <= j <= k ==> all[j] == routes[j];
    FirstServingRouteWins(routes, r, find, false, k);
    FirstServingRouteWins(all, r, find, false, k);
  }
}
