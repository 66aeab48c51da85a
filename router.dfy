/**
 * The router of delivery/http: an ordered table of routes, each a method, an anchored
 * pattern, a handler and an action name, and the dispatch loop that serves a request.
 * The package-level variables (`routes`, `Action`, `Endpoint`, `IPAddress`,
 * `BodyRequest`) are the fields of one `Router` object. The regular-expression engine is
 * a parameter `matcher(regex, path)`, which returns the submatches as
 * `FindStringSubmatch` does: empty for no match, otherwise the whole match followed by
 * the capture groups.
 */
module Router {
  import opened Wrappers
  import Strings
  import Headers

  datatype RouteEntry<H> = RouteEntry(verb: string, regex: string, handler: H, actionName: string)

  /** How a request is served: by a handler with its path parameters, with 405, or with 404. */
  datatype Dispatch<H> =
    | Dispatched(index: nat, handler: H, params: seq<string>, body: string)
    | MethodNotAllowed(allow: string)
    | NotFound

  /** A scan's outcome and the action name of the last route whose pattern matched, if any. */
  datatype Scan<H> = Scan(dispatch: Dispatch<H>, lastAction: Option<string>)

  /** The pattern a route is compiled from: the service prefix, anchored at both ends. */
  function RoutePattern(pattern: string): (regex: string)
    ensures |regex| == |pattern| + 9
    ensures regex[..8] == "^/minder" && regex[8..|regex| - 1] == pattern && regex[|regex| - 1] == '$'
  {
    "^/minder" + pattern + "$"
  }

  predicate PathMatches<H>(r: RouteEntry<H>, path: string, matcher: (string, string) -> seq<string>)
  {
    |matcher(r.regex, path)| > 0
  }

  /** A route that serves the request: its pattern matches and its method is the request's. */
  predicate Serves<H>(r: RouteEntry<H>, reqMethod: string, path: string, matcher: (string, string) -> seq<string>)
  {
    PathMatches(r, path, matcher) && r.verb == reqMethod
  }

  /** The methods, in route order from `i` on, of the routes whose pattern matches `path`. */
  function AllowFrom<H>(routes: seq<RouteEntry<H>>, i: nat, path: string, matcher: (string, string) -> seq<string>): seq<string>
    requires i <= |routes|
    decreases |routes| - i
  {
    if i == |routes| then []
    else (if PathMatches(routes[i], path, matcher) then [routes[i].verb] else [])
         + AllowFrom(routes, i + 1, path, matcher)
  }

  /**
   * The dispatch loop from route `i` on, with the methods `allow` collected so far and the
   * last matched action `last`: the first serving route is dispatched; a matching route with
   * another method only adds its method; after the last route, a non-empty `allow` gives
   * 405 with the methods joined by ", ", and otherwise the answer is 404.
   */
  function ScanRoutes<H>(routes: seq<RouteEntry<H>>, i: nat, reqMethod: string, path: string, body: string,
                         matcher: (string, string) -> seq<string>, allow: seq<string>, last: Option<string>): Scan<H>
    requires i <= |routes|
    decreases |routes| - i
  {
    if i == |routes| then
      Scan(if |allow| > 0 then MethodNotAllowed(Strings.Join(allow, ", ")) else NotFound, last)
    else
      var r := routes[i];
      var m := matcher(r.regex, path);
      if |m| > 0 && r.verb == reqMethod then Scan(Dispatched(i, r.handler, m[1..], body), Some(r.actionName))
      else if |m| > 0 then ScanRoutes(routes, i + 1, reqMethod, path, body, matcher, allow + [r.verb], Some(r.actionName))
      else ScanRoutes(routes, i + 1, reqMethod, path, body, matcher, allow, last)
  }

  /** `GetIPAddress`: X-Real-Ip when set, else X-Forwarded-For when set, else the peer address. */
  function GetIPAddress(h: Headers.Header, remoteAddr: string): (ip: string)
    ensures Headers.Get(h, "X-Real-Ip") != "" ==> ip == Headers.Get(h, "X-Real-Ip")
    ensures Headers.Get(h, "X-Real-Ip") == "" && Headers.Get(h, "X-Forwarded-For") != "" ==>
              ip == Headers.Get(h, "X-Forwarded-For")
    ensures Headers.Get(h, "X-Real-Ip") == "" && Headers.Get(h, "X-Forwarded-For") == "" ==> ip == remoteAddr
  {
    var realIp := Headers.Get(h, "X-Real-Ip");
    if realIp != "" then realIp
    else
      var forwarded := Headers.Get(h, "X-Forwarded-For");
      if forwarded != "" then forwarded else remoteAddr
  }

  /**
   * `Param(r, index)`: the stored path parameter, or "" when the request carries none.
   * Indexing past the stored parameters panics in Go, so the caller must stay within them.
   */
  function Param(params: Option<seq<string>>, index: nat): (p: string)
    requires params.Some? ==> index < |params.value|
    ensures params.None? ==> p == ""
    ensures params.Some? ==> p == params.value[index]
  {
    match params
    case None => ""
    case Some(ps) => ps[index]
  }

  /** The router's package state. */
  class Router<H> {
    var routes: seq<RouteEntry<H>>
    var action: string
    var endpoint: string
    var ipAddress: string
    var bodyRequest: string

    constructor ()
      ensures routes == [] && action == "" && endpoint == "" && ipAddress == "" && bodyRequest == ""
    {
      routes, action, endpoint, ipAddress, bodyRequest := [], "", "", "", "";
    }

    /** `Route`: register a route after all earlier ones. */
    method Route(reqMethod: string, pattern: string, handler: H, actionName: string)
      modifies this`routes
      ensures routes == old(routes) + [RouteEntry(reqMethod, RoutePattern(pattern), handler, actionName)]
    {
      routes := routes + [RouteEntry(reqMethod, RoutePattern(pattern), handler, actionName)];
    }

    /**
     * `Serve`: record the client address and the body, then scan the routes in order. The
     * body handed to the handler is the body that was read.
     */
    method Serve(reqMethod: string, path: string, header: Headers.Header, remoteAddr: string, body: string,
                 matcher: (string, string) -> seq<string>) returns (d: Dispatch<H>)
      modifies this`action, this`endpoint, this`ipAddress, this`bodyRequest
      ensures var s := ScanRoutes(routes, 0, reqMethod, path, body, matcher, [], None);
        d == s.dispatch
        && action == (if s.lastAction.Some? then s.lastAction.value else old(action))
        && endpoint == (if s.lastAction.Some? then path else old(endpoint))
      ensures ipAddress == GetIPAddress(header, remoteAddr) && bodyRequest == body
    {
      ipAddress := GetIPAddress(header, remoteAddr);
      bodyRequest := body;
      var allow: seq<string> := [];
      ghost var last: Option<string> := None;
      var i := 0;
      while i < |routes|
        invariant 0 <= i <= |routes|
        invariant ScanRoutes(routes, 0, reqMethod, path, body, matcher, [], None)
               == ScanRoutes(routes, i, reqMethod, path, body, matcher, allow, last)
        invariant last.Some? ==> action == last.value && endpoint == path
        invariant last.None? ==> action == old(action) && endpoint == old(endpoint)
        invariant ipAddress == GetIPAddress(header, remoteAddr) && bodyRequest == body
      {
        var route := routes[i];
        var matches := matcher(route.regex, path);
        if |matches| > 0 {
          action := route.actionName;
          endpoint := path;
          last := Some(route.actionName);
          if reqMethod != route.verb {
            allow := allow + [route.verb];
            i := i + 1;
            continue;
          }
          return Dispatched(i, route.handler, matches[1..], body);
        }
        i := i + 1;
      }
      if |allow| > 0 {
        return MethodNotAllowed(Strings.Join(allow, ", "));
      }
      return NotFound;
    }
  }

  // ------------------------------------------------------------------ properties of dispatch

  /**
   * From route `i` on, the scan dispatches the first serving route, when there is one, with
   * its capture groups; when there is none, it answers 405 with every matching route's
   * method (collected and still to come) or, when there are none, 404.
   */
  lemma ScanOutcome<H>(routes: seq<RouteEntry<H>>, i: nat, reqMethod: string, path: string, body: string,
                       matcher: (string, string) -> seq<string>, allow: seq<string>, last: Option<string>)
    requires i <= |routes|
    ensures var d := ScanRoutes(routes, i, reqMethod, path, body, matcher, allow, last).dispatch;
      (d.Dispatched? <==> exists k :: i <= k < |routes| && Serves(routes[k], reqMethod, path, matcher))
      && (d.Dispatched? ==>
            (i <= d.index < |routes| && Serves(routes[d.index], reqMethod, path, matcher)
             && (forall j :: i <= j < d.index ==> !Serves(routes[j], reqMethod, path, matcher))
             && d.handler == routes[d.index].handler && d.params == matcher(routes[d.index].regex, path)[1..]
             && d.body == body))
      && (!d.Dispatched? ==>
            var methods := allow + AllowFrom(routes, i, path, matcher);
            d == if |methods| > 0 then MethodNotAllowed(Strings.Join(methods, ", ")) else NotFound)
  {
    ScanDispatches(routes, i, reqMethod, path, body, matcher, allow, last);
    ScanRefuses(routes, i, reqMethod, path, body, matcher, allow, last);
  }

  /** The dispatching half of `ScanOutcome`. */
  lemma {:induction false} ScanDispatches<H>(routes: seq<RouteEntry<H>>, i: nat, reqMethod: string, path: string, body: string,
                                             matcher: (string, string) -> seq<string>, allow: seq<string>, last: Option<string>)
    requires i <= |routes|
    ensures var d := ScanRoutes(routes, i, reqMethod, path, body, matcher, allow, last).dispatch;
      (d.Dispatched? <==> exists k :: i <= k < |routes| && Serves(routes[k], reqMethod, path, matcher))
      && (d.Dispatched? ==>
            (i <= d.index < |routes| && Serves(routes[d.index], reqMethod, path, matcher)
             && (forall j :: i <= j < d.index ==> !Serves(routes[j], reqMethod, path, matcher))
             && d.handler == routes[d.index].handler && d.params == matcher(routes[d.index].regex, path)[1..]
             && d.body == body))
    decreases |routes| - i
  {
    if i < |routes| {
      var r := routes[i];
      var m := matcher(r.regex, path);
      if |m| > 0 && r.verb == reqMethod {
      } else if |m| > 0 {
        ScanDispatches(routes, i + 1, reqMethod, path, body, matcher, allow + [r.verb], Some(r.actionName));
      } else {
        ScanDispatches(routes, i + 1, reqMethod, path, body, matcher, allow, last);
      }
    }
  }

  /** Appending method lists regroups freely. */
  lemma AppendAssoc(a: seq<string>, b: seq<string>, c: seq<string>)
    ensures a + (b + c) == (a + b) + c
  {
  }

  /** The refusing half of `ScanOutcome`: 405 with the collected methods, or 404. */
  lemma {:induction false} ScanRefuses<H>(routes: seq<RouteEntry<H>>, i: nat, reqMethod: string, path: string, body: string,
                                          matcher: (string, string) -> seq<string>, allow: seq<string>, last: Option<string>)
    requires i <= |routes|
    ensures var d := ScanRoutes(routes, i, reqMethod, path, body, matcher, allow, last).dispatch;
      !d.Dispatched? ==>
        var methods := allow + AllowFrom(routes, i, path, matcher);
        d == if |methods| > 0 then MethodNotAllowed(Strings.Join(methods, ", ")) else NotFound
    decreases |routes| - i
  {
    if i < |routes| {
      var r := routes[i];
      var m := matcher(r.regex, path);
      if |m| > 0 && r.verb == reqMethod {
      } else if |m| > 0 {
        ScanRefuses(routes, i + 1, reqMethod, path, body, matcher, allow + [r.verb], Some(r.actionName));
        var rest := AllowFrom(routes, i + 1, path, matcher);
        assert AllowFrom(routes, i, path, matcher) == [r.verb] + rest;
        AppendAssoc(allow, [r.verb], rest);
      } else {
        ScanRefuses(routes, i + 1, reqMethod, path, body, matcher, allow, last);
        var rest := AllowFrom(routes, i + 1, path, matcher);
        assert AllowFrom(routes, i, path, matcher) == [] + rest;
        assert [] + rest == rest;
      }
    } else {
      assert allow + AllowFrom(routes, i, path, matcher) == allow;
    }
  }

  lemma {:induction false} AllowFromEmpty<H>(routes: seq<RouteEntry<H>>, i: nat, path: string, matcher: (string, string) -> seq<string>)
    requires i <= |routes|
    ensures AllowFrom(routes, i, path, matcher) == [] <==> forall k :: i <= k < |routes| ==> !PathMatches(routes[k], path, matcher)
    decreases |routes| - i
  {
    if i < |routes| {
      AllowFromEmpty(routes, i + 1, path, matcher);
    }
  }

  /** A request is answered 404 exactly when no route's pattern matches its path. */
  lemma NotFoundExactly<H>(routes: seq<RouteEntry<H>>, reqMethod: string, path: string, body: string,
                           matcher: (string, string) -> seq<string>)
    ensures ScanRoutes(routes, 0, reqMethod, path, body, matcher, [], None).dispatch == NotFound
        <==> forall k :: 0 <= k < |routes| ==> !PathMatches(routes[k], path, matcher)
  {
    ScanOutcome(routes, 0, reqMethod, path, body, matcher, [], None);
    AllowFromEmpty(routes, 0, path, matcher);
    assert [] + AllowFrom(routes, 0, path, matcher) == AllowFrom(routes, 0, path, matcher);
    if forall k :: 0 <= k < |routes| ==> !PathMatches(routes[k], path, matcher) {
      assert forall k :: 0 <= k < |routes| ==> !Serves(routes[k], reqMethod, path, matcher);
    }
  }

  /**
   * A route whose pattern matches but whose method differs does not stop the scan: a later
   * serving route is still dispatched.
   */
  lemma LaterExactMatchWins<H>(routes: seq<RouteEntry<H>>, reqMethod: string, path: string, body: string,
                               matcher: (string, string) -> seq<string>, j: nat, k: nat)
    requires j < k < |routes|
    requires PathMatches(routes[j], path, matcher) && routes[j].verb != reqMethod
    requires Serves(routes[k], reqMethod, path, matcher)
    requires forall i :: 0 <= i < k ==> !Serves(routes[i], reqMethod, path, matcher)
    ensures ScanRoutes(routes, 0, reqMethod, path, body, matcher, [], None).dispatch.Dispatched?
    ensures ScanRoutes(routes, 0, reqMethod, path, body, matcher, [], None).dispatch.index == k
  {
    ScanOutcome(routes, 0, reqMethod, path, body, matcher, [], None);
  }
}
