/** What the web server learned from a request URI (InvocationBaratine):
    its path, path info, parameters and the routes that may serve it. */
module Invocation {
  import opened Wrappers
  import RequestBaratine

  /** The statuses a request is halted with when no route serves it. */
  datatype HttpStatus = MethodNotAllowed | NotFound
  {
    function Code(): (c: int)
      ensures c == (if this == MethodNotAllowed then 405 else 404)
    {
      if this == MethodNotAllowed then 405 else 404
    }
  }

  /** The index of the first route that serves the request, if any. */
  function FirstHandler<R>(routes: seq<R>, handles: R -> bool): (r: Option<nat>)
    ensures r.None? <==> forall j :: 0 <= j < |routes| ==> !handles(routes[j])
    ensures r.Some? ==>
              r.value < |routes| && handles(routes[r.value])
              && forall j :: 0 <= j < r.value ==> !handles(routes[j])
  {
    if routes == [] then None
    else if handles(routes[0]) then Some(0)
    else
      var r := FirstHandler(routes[1..], handles);
      assert forall j :: 0 < j < |routes| ==> routes[j] == routes[1..][j - 1];
      if r.None? then None else Some(r.value + 1)
  }

  /** An invocation; a Java null handed to a setter is None. */
  class InvocationBaratine<R, P, Q, W> {
    /** getURI() of the underlying invocation. */
    const uri: string
    var path: Option<string>
    var pathInfo: string
    var params: Option<P>
    var queryMap: Option<Q>
    var routes: seq<R>
    var webApp: Option<W>

    /** A new invocation: no path, empty path info and no routes. */
    constructor (uri: string)
      ensures this.uri == uri && path == None && pathInfo == "" && routes == []
      ensures params == None && queryMap == None && webApp == None
    {
      this.uri := uri;
      path := None;
      pathInfo := "";
      params := None;
      queryMap := None;
      routes := [];
      webApp := None;
    }

    /** path(): the path that was set, or the URI when none was. */
    function Path(): (r: string)
      reads this
      ensures path.Some? ==> r == path.value
      ensures path.None? ==> r == uri
    {
      if path.Some? then path.value else uri
    }

    /** path(String): rejects null. */
    method SetPath(p: Option<string>) returns (o: Outcome<Exception>)
      modifies this`path
      ensures p.None? ==> o == Fail(NullPointer) && path == old(path)
      ensures p.Some? ==> o == Pass && path == p && Path() == p.value
      ensures pathInfo == old(pathInfo) && routes == old(routes)
    {
      if p.None? {
        return Fail(NullPointer);
      }
      path := p;
      o := Pass;
    }

    /** pathInfo(String): rejects null. */
    method SetPathInfo(p: Option<string>) returns (o: Outcome<Exception>)
      modifies this`pathInfo
      ensures p.None? ==> o == Fail(NullPointer) && pathInfo == old(pathInfo)
      ensures p.Some? ==> o == Pass && pathInfo == p.value
      ensures path == old(path) && routes == old(routes)
    {
      if p.None? {
        return Fail(NullPointer);
      }
      pathInfo := p.value;
      o := Pass;
    }

    /** params(Map): rejects null. */
    method SetParams(p: Option<P>) returns (o: Outcome<Exception>)
      modifies this`params
      ensures p.None? ==> o == Fail(NullPointer) && params == old(params)
      ensures p.Some? ==> o == Pass && params == p
      ensures path == old(path) && pathInfo == old(pathInfo) && routes == old(routes)
    {
      if p.None? {
        return Fail(NullPointer);
      }
      params := p;
      o := Pass;
    }

    /** queryMap(MultiMap): rejects null. */
    method SetQueryMap(q: Option<Q>) returns (o: Outcome<Exception>)
      modifies this`queryMap
      ensures q.None? ==> o == Fail(NullPointer) && queryMap == old(queryMap)
      ensures q.Some? ==> o == Pass && queryMap == q
      ensures path == old(path) && pathInfo == old(pathInfo) && routes == old(routes)
    {
      if q.None? {
        return Fail(NullPointer);
      }
      queryMap := q;
      o := Pass;
    }

    /** routes(RouteBaratine[]): rejects null. */
    method SetRoutes(rs: Option<seq<R>>) returns (o: Outcome<Exception>)
      modifies this`routes
      ensures rs.None? ==> o == Fail(NullPointer) && routes == old(routes)
      ensures rs.Some? ==> o == Pass && routes == rs.value
      ensures path == old(path) && pathInfo == old(pathInfo)
    {
      if rs.None? {
        return Fail(NullPointer);
      }
      routes := rs.value;
      o := Pass;
    }

    /** webApp(WebApp): rejects null. */
    method SetWebApp(w: Option<W>) returns (o: Outcome<Exception>)
      modifies this`webApp
      ensures w.None? ==> o == Fail(NullPointer) && webApp == old(webApp)
      ensures w.Some? ==> o == Pass && webApp == w
      ensures path == old(path) && pathInfo == old(pathInfo) && routes == old(routes)
    {
      if w.None? {
        return Fail(NullPointer);
      }
      webApp := w;
      o := Pass;
    }

    /**
     * service: offers the request to the routes in order and stops at the
     * first that serves it (`handles` is each route's answer); when none
     * does, halts with 405 if there are routes and 404 if there are none.
     * Always answers CLOSE.
     */
    method Service(handles: R -> bool)
      returns (r: RequestBaratine.StateConnection, called: seq<R>, halt: Option<HttpStatus>)
      ensures r == RequestBaratine.CloseConn
      ensures halt.None? <==> FirstHandler(routes, handles).Some?
      ensures halt.None? ==> called == routes[..FirstHandler(routes, handles).value + 1]
      ensures halt.Some? ==> called == routes
      ensures halt.Some? ==> halt.value == (if |routes| > 0 then MethodNotAllowed else NotFound)
    {
      r := RequestBaratine.CloseConn;
      called := [];
      var i := 0;
      while i < |routes|
        invariant 0 <= i <= |routes|
        invariant called == routes[..i]
        invariant forall j :: 0 <= j < i ==> !handles(routes[j])
      {
        called := called + [routes[i]];
        if handles(routes[i]) {
          assert FirstHandler(routes, handles) == Some(i);
          return r, called, None;
        }
        i := i + 1;
      }
      assert called == routes;
      halt := Some(if |routes| > 0 then MethodNotAllowed else NotFound);
    }
  }
}
