/** The request facade of the web server (RequestBaratineImpl): the close
    state machine of a request, the request body collected chunk by chunk,
    cookie lookup and session addresses. */
module RequestBaratine {
  import opened Wrappers

  /** StateRequest. */
  datatype StateRequest = Accept | Active | Upgrade | CloseRead | CloseWrite | Close

  /** The connection states this class hands back to the connection. */
  datatype StateConnection = Read | CloseReadS | CloseReadA | CloseConn

  /** toCloseRead: a request whose write side is closed becomes closed;
      a closed one stays closed; every other state only closes reading. */
  function ToCloseRead(s: StateRequest): (r: StateRequest)
    ensures r == Close <==> s == CloseWrite || s == Close
    ensures r != Close ==> r == CloseRead
  {
    match s
    case CloseWrite => Close
    case Close => Close
    case _ => CloseRead
  }

  /** toCloseWrite: the mirror image of ToCloseRead. */
  function ToCloseWrite(s: StateRequest): (r: StateRequest)
    ensures r == Close <==> s == CloseRead || s == Close
    ensures r != Close ==> r == CloseWrite
  {
    match s
    case CloseRead => Close
    case Close => Close
    case _ => CloseWrite
  }

  /** Closing both sides, in either order, closes the request, from any state. */
  lemma BothSidesClose(s: StateRequest)
    ensures ToCloseWrite(ToCloseRead(s)) == Close
    ensures ToCloseRead(ToCloseWrite(s)) == Close
  {
  }

  /** Closing the same side twice changes nothing the second time, and a
      closed request stays closed. */
  lemma CloseIsIdempotent(s: StateRequest)
    ensures ToCloseRead(ToCloseRead(s)) == ToCloseRead(s)
    ensures ToCloseWrite(ToCloseWrite(s)) == ToCloseWrite(s)
    ensures ToCloseRead(Close) == Close && ToCloseWrite(Close) == Close
  {
  }

  /**
   * service(): what the request's state answers.  ACCEPT answers null; ACTIVE
   * reads the body; every other state throws IllegalStateException, which
   * service turns into CLOSE_READ_A.  readBody answers READ while the body
   * is incomplete, then hands the request on (`proxyThrows` says whether
   * that throws, which gives CLOSE) and answers READ for a keepalive
   * connection and CLOSE_READ_A otherwise.
   */
  function Service(s: StateRequest, bodyComplete: bool, keepalive: bool, proxyThrows: bool)
    : (r: Option<StateConnection>)
    ensures s == Accept <==> r.None?
    ensures s != Accept && s != Active ==> r == Some(CloseReadA)
    ensures s == Active && !bodyComplete ==> r == Some(Read)
    ensures s == Active && bodyComplete && proxyThrows ==> r == Some(CloseConn)
    ensures s == Active && bodyComplete && !proxyThrows ==>
              r == Some(if keepalive then Read else CloseReadA)
  {
    match s
    case Accept => None
    case Active =>
      if !bodyComplete then Some(Read)
      else if proxyThrows then Some(CloseConn)
      else if keepalive then Some(Read)
      else Some(CloseReadA)
    case _ => Some(CloseReadA)
  }

  /** A request cookie. */
  datatype Cookie = Cookie(name: string, value: string)

  /** A cookie the response sets: always HttpOnly with path "/", and Secure
      when the request came in over a secure channel. */
  datatype SetCookie = SetCookie(name: string, value: string, secure: bool, httpOnly: bool, path: string)

  const SESSION_COOKIE := "JSESSIONID"

  /** The first cookie of the request called `key`. */
  function FirstCookie(cookies: seq<Cookie>, key: string): (r: Option<string>)
    ensures r.Some? <==> exists i :: 0 <= i < |cookies| && cookies[i].name == key
    ensures r.Some? ==>
              (exists i :: 0 <= i < |cookies| && cookies[i].name == key && cookies[i].value == r.value
                 && forall j :: 0 <= j < i ==> cookies[j].name != key)
  {
    if cookies == [] then None
    else if cookies[0].name == key then Some(cookies[0].value)
    else
      assert forall i :: 0 < i < |cookies| ==> cookies[i] == cookies[1..][i - 1];
      FirstCookie(cookies[1..], key)
  }

  /** The address "session:///" + name + "/" + id. */
  function SessionAddress(name: string, id: string): (r: string)
    ensures |r| == 11 + |name| + 1 + |id|
  {
    "session:///" + name + "/" + id
  }

  /** The session name read back out of a session address: the text after
      "session:///" up to the next '/'. */
  function SessionNameOf(address: string): string
  {
    if |address| < 11 || address[..11] != "session:///" then ""
    else UpToSlash(address[11..])
  }

  function UpToSlash(s: string): (r: string)
    ensures |r| <= |s| && r == s[..|r|] && '/' !in r
  {
    if s == [] || s[0] == '/' then [] else [s[0]] + UpToSlash(s[1..])
  }

  lemma {:induction false} UpToSlashOf(name: string, rest: string)
    requires '/' !in name
    ensures UpToSlash(name + "/" + rest) == name
  {
    if name != [] {
      assert (name + "/" + rest)[1..] == name[1..] + "/" + rest;
      UpToSlashOf(name[1..], rest);
    }
  }

  /** A session name without '/' is recovered from the address it names. */
  lemma SessionNameRoundTrip(name: string, id: string)
    requires '/' !in name
    ensures SessionNameOf(SessionAddress(name, id)) == name
  {
    var a := SessionAddress(name, id);
    assert a[..11] == "session:///";
    assert a[11..] == name + "/" + id;
    UpToSlashOf(name, id);
  }

  predicate StartsWith(s: string, prefix: string)
  {
    |prefix| <= |s| && s[..|prefix|] == prefix
  }

  predicate EndsWith(s: string, suffix: string)
  {
    |suffix| <= |s| && s[|s| - |suffix|..] == suffix
  }

  class RequestBaratineImpl<B, T, V> {
    var state: StateRequest
    /** The body chunks (TempBuffer) received so far, in arrival order. */
    var chunks: seq<B>
    var bodyComplete: bool
    /** The body, once it has been resolved. */
    var bodyValue: Option<V>
    /** The body type and callback of a `body(type, result)` call that came
        in before the body was complete. */
    var waiter: Option<T>
    /** Bodies handed to callbacks, each with the type that was asked for. */
    var delivered: seq<(T, V)>
    /** Cookies the response sets. */
    var setCookies: seq<SetCookie>
    /** Calls of the connection's onCloseWrite. */
    var connCloseWrites: nat
    /** Wake requests made on the connection. */
    var wakes: nat

    constructor ()
      ensures state == Accept && chunks == [] && !bodyComplete && bodyValue == None
      ensures waiter == None && delivered == [] && setCookies == []
      ensures connCloseWrites == 0 && wakes == 0
    {
      state := Accept;
      chunks := [];
      bodyComplete := false;
      bodyValue := None;
      waiter := None;
      delivered := [];
      setCookies := [];
      connCloseWrites := 0;
      wakes := 0;
    }

    /** onCloseRead: CLOSE_READ_S while the write side is still open, CLOSE
        once both sides are closed. */
    method OnCloseRead() returns (r: StateConnection)
      modifies this`state
      ensures state == ToCloseRead(old(state))
      ensures r == (if state == CloseRead then CloseReadS else CloseConn)
      ensures chunks == old(chunks) && wakes == old(wakes) && connCloseWrites == old(connCloseWrites)
    {
      state := ToCloseRead(state);
      match state {
        case CloseRead => r := CloseReadS;
        case Close => r := CloseConn;
        case _ => r := CloseConn;
      }
    }

    /** onCloseWrite: closes the write side, tells the connection, and asks
        for a wake only when the read side was the one already closed. */
    method OnCloseWrite()
      modifies this`state, this`connCloseWrites, this`wakes
      ensures state == ToCloseWrite(old(state))
      ensures connCloseWrites == old(connCloseWrites) + 1
      ensures wakes == old(wakes) + (if old(state) == CloseRead then 1 else 0)
      ensures chunks == old(chunks) && bodyComplete == old(bodyComplete)
    {
      var prev := state;
      state := ToCloseWrite(prev);
      connCloseWrites := connCloseWrites + 1;
      if prev == CloseRead {
        wakes := wakes + 1;
      }
    }

    /** bodyChunk: appends a chunk after those already received. */
    method BodyChunk(chunk: B)
      modifies this`chunks
      ensures chunks == old(chunks) + [chunk]
      ensures state == old(state) && bodyComplete == old(bodyComplete)
      ensures bodyValue == old(bodyValue) && waiter == old(waiter) && delivered == old(delivered)
    {
      chunks := chunks + [chunk];
    }

    /** inputStream: the collected chunks, which the request then forgets;
        IllegalStateException while the body is incomplete. */
    method InputStream() returns (r: Result<seq<B>, Exception>)
      modifies this`chunks
      ensures !old(bodyComplete) ==> r == Err(IllegalState) && chunks == old(chunks)
      ensures old(bodyComplete) ==> r == Ok(old(chunks)) && chunks == []
      ensures bodyComplete == old(bodyComplete) && state == old(state)
    {
      if !bodyComplete {
        return Err(IllegalState);
      }
      r := Ok(chunks);
      chunks := [];
    }

    /**
     * body(type): the body, resolved at most once (`resolved` is what the
     * body resolver makes of the request); IllegalStateException while the
     * body is incomplete and not yet resolved.
     */
    method Body(resolved: V) returns (r: Result<V, Exception>)
      modifies this`bodyValue
      ensures old(bodyValue).Some? ==> r == Ok(old(bodyValue).value) && bodyValue == old(bodyValue)
      ensures old(bodyValue).None? && !bodyComplete ==> r == Err(IllegalState) && bodyValue == None
      ensures old(bodyValue).None? && bodyComplete ==> r == Ok(resolved) && bodyValue == Some(resolved)
      ensures r.Ok? ==> bodyValue == Some(r.value)
      ensures chunks == old(chunks) && bodyComplete == old(bodyComplete)
      ensures waiter == old(waiter) && delivered == old(delivered) && state == old(state)
    {
      if bodyValue.None? {
        if !bodyComplete {
          return Err(IllegalState);
        }
        bodyValue := Some(resolved);
      }
      r := Ok(bodyValue.value);
    }

    /** body(type, result): answers at once when the body is complete;
        otherwise remembers the callback, replacing any earlier one. */
    method BodyAsync(t: T, resolved: V)
      modifies this`bodyValue, this`waiter, this`delivered
      ensures old(bodyComplete) ==>
                waiter == old(waiter)
                && bodyValue == Some(if old(bodyValue).Some? then old(bodyValue).value else resolved)
                && delivered == old(delivered) + [(t, bodyValue.value)]
      ensures !old(bodyComplete) ==>
                waiter == Some(t) && delivered == old(delivered) && bodyValue == old(bodyValue)
      ensures chunks == old(chunks) && bodyComplete == old(bodyComplete) && state == old(state)
    {
      if bodyComplete {
        var b := Body(resolved);
        delivered := delivered + [(t, b.value)];
      } else {
        waiter := Some(t);
      }
    }

    /** bodyComplete: marks the body complete and answers a waiting callback. */
    method BodyComplete(resolved: V)
      modifies this`bodyComplete, this`bodyValue, this`delivered
      ensures bodyComplete
      ensures old(waiter).None? ==> delivered == old(delivered) && bodyValue == old(bodyValue)
      ensures old(waiter).Some? ==>
                bodyValue == Some(if old(bodyValue).Some? then old(bodyValue).value else resolved)
                && delivered == old(delivered) + [(old(waiter).value, bodyValue.value)]
      ensures waiter == old(waiter) && chunks == old(chunks) && state == old(state)
    {
      bodyComplete := true;
      if waiter.Some? {
        var b := Body(resolved);
        delivered := delivered + [(waiter.value, b.value)];
      }
    }

    /** cookie(key, value): sets a response cookie, HttpOnly with path "/". */
    method SetResponseCookie(key: string, value: string, secure: bool)
      modifies this`setCookies
      ensures setCookies == old(setCookies) + [SetCookie(key, value, secure, true, "/")]
    {
      setCookies := setCookies + [SetCookie(key, value, secure, true, "/")];
    }

    /** The session id: the request's JSESSIONID cookie or, when there is
        none, `generated`, which is then set as the response's cookie. */
    method SessionId(cookies: seq<Cookie>, generated: string, secure: bool) returns (id: string)
      modifies this`setCookies
      ensures FirstCookie(cookies, SESSION_COOKIE).Some? ==>
                id == FirstCookie(cookies, SESSION_COOKIE).value && setCookies == old(setCookies)
      ensures FirstCookie(cookies, SESSION_COOKIE).None? ==>
                id == generated
                && setCookies == old(setCookies) + [SetCookie(SESSION_COOKIE, generated, secure, true, "/")]
    {
      var c := LookupCookie(cookies, SESSION_COOKIE);
      if c.None? {
        id := generated;
        SetResponseCookie(SESSION_COOKIE, id, secure);
      } else {
        id := c.value;
      }
    }

    /**
     * session(name): the address of the named session service for this
     * request's session; names containing '/' are rejected.
     */
    method Session(name: string, cookies: seq<Cookie>, generated: string, secure: bool)
      returns (r: Result<string, Exception>)
      modifies this`setCookies
      ensures '/' in name ==> r == Err(IllegalArgument) && setCookies == old(setCookies)
      ensures '/' !in name ==> r.Ok? && SessionNameOf(r.value) == name
      ensures '/' !in name && FirstCookie(cookies, SESSION_COOKIE).Some? ==>
                r == Ok(SessionAddress(name, FirstCookie(cookies, SESSION_COOKIE).value))
                && setCookies == old(setCookies)
      ensures '/' !in name && FirstCookie(cookies, SESSION_COOKIE).None? ==>
                r == Ok(SessionAddress(name, generated))
                && setCookies == old(setCookies) + [SetCookie(SESSION_COOKIE, generated, secure, true, "/")]
    {
      if '/' in name {
        return Err(IllegalArgument);
      }
      var id := SessionId(cookies, generated, secure);
      SessionNameRoundTrip(name, id);
      r := Ok(SessionAddress(name, id));
    }

    /** sessionImpl: the session address must start with "session:" and end
        with "/"; the session id is appended to it. */
    method SessionImpl(address: string, cookies: seq<Cookie>, generated: string, secure: bool)
      returns (r: Result<string, Exception>)
      modifies this`setCookies
      ensures !(StartsWith(address, "session:") && EndsWith(address, "/")) ==>
                r == Err(IllegalArgument) && setCookies == old(setCookies)
      ensures StartsWith(address, "session:") && EndsWith(address, "/") ==>
                r.Ok? && StartsWith(r.value, address)
      ensures StartsWith(address, "session:") && EndsWith(address, "/") && FirstCookie(cookies, SESSION_COOKIE).Some? ==>
                r == Ok(address + FirstCookie(cookies, SESSION_COOKIE).value)
                && setCookies == old(setCookies)
      ensures StartsWith(address, "session:") && EndsWith(address, "/") && FirstCookie(cookies, SESSION_COOKIE).None? ==>
                r == Ok(address + generated)
                && setCookies == old(setCookies) + [SetCookie(SESSION_COOKIE, generated, secure, true, "/")]
    {
      if !StartsWith(address, "session:") || !EndsWith(address, "/") {
        return Err(IllegalArgument);
      }
      var id := SessionId(cookies, generated, secure);
      r := Ok(address + id);
      assert r.value[..|address|] == address;
    }

    /** session(type): the type's service address with "/" appended goes
        through sessionImpl, so only the "session:" prefix can fail. */
    method SessionOfType(typeAddress: string, cookies: seq<Cookie>, generated: string, secure: bool)
      returns (r: Result<string, Exception>)
      modifies this`setCookies
      ensures r.Err? <==> !StartsWith(typeAddress, "session:")
      ensures r.Err? ==> r.error == IllegalArgument && setCookies == old(setCookies)
      ensures r.Ok? ==> StartsWith(r.value, typeAddress + "/")
      ensures StartsWith(typeAddress, "session:") && FirstCookie(cookies, SESSION_COOKIE).Some? ==>
                r == Ok(typeAddress + "/" + FirstCookie(cookies, SESSION_COOKIE).value)
                && setCookies == old(setCookies)
      ensures StartsWith(typeAddress, "session:") && FirstCookie(cookies, SESSION_COOKIE).None? ==>
                r == Ok(typeAddress + "/" + generated)
                && setCookies == old(setCookies) + [SetCookie(SESSION_COOKIE, generated, secure, true, "/")]
    {
      var a := typeAddress + "/";
      assert StartsWith(typeAddress, "session:") <==> StartsWith(a, "session:") by {
        if |typeAddress| >= 8 {
          assert a[..8] == typeAddress[..8];
        } else if |typeAddress| == 7 {
          assert a[7] == '/';
        }
      }
      assert EndsWith(a, "/");
      r := SessionImpl(a, cookies, generated, secure);
    }

    /** cookie(key): the search loop over the request's cookies. */
    method LookupCookie(cookies: seq<Cookie>, key: string) returns (r: Option<string>)
      ensures r == FirstCookie(cookies, key)
    {
      var i := 0;
      while i < |cookies|
        invariant 0 <= i <= |cookies|
        invariant FirstCookie(cookies, key) == FirstCookie(cookies[i..], key)
      {
        if cookies[i].name == key {
          return Some(cookies[i].value);
        }
        assert cookies[i..][1..] == cookies[i + 1..];
        i := i + 1;
      }
      return None;
    }
  }
}
