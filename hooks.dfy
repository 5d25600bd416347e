/**
 * The server hooks run on every request, in sequence: the first installs the store client, starts
 * the change feed and provides the session lookup; the second records the session and user in
 * `locals` and guards the protected and the auth routes.
 */
module Hooks {
  import opened Types
  import Realtime

  // ---------------------------------------------------------------------------------------------
  // The route guard

  /** Path prefixes that need a session. */
  const PROTECTED_ROUTES: seq<string> := ["/account", "/dashboard", "/edit"]

  /** The prefix of the sign-in pages. */
  const AUTH_ROUTE := "/auth"

  /** Whether any of `routes` is a prefix of `path`, scanning them in order. */
  function AnyPrefix(routes: seq<string>, path: string): (b: bool)
    ensures b <==> exists i :: 0 <= i < |routes| && StartsWith(path, routes[i])
  {
    if routes == [] then false
    else StartsWith(path, routes[0]) || AnyPrefix(routes[1..], path)
  }

  /** Whether `path` starts with one of the protected routes. */
  predicate IsProtected(path: string)
    ensures IsProtected(path) <==> exists i :: 0 <= i < |PROTECTED_ROUTES| && StartsWith(path, PROTECTED_ROUTES[i])
  {
    AnyPrefix(PROTECTED_ROUTES, path)
  }

  /** How the guard ends a request: a redirect, or resolving the request as asked. */
  datatype Decision = Redirect(status: int, location: string) | Resolve

  /**
   * Without a session, a protected path is sent to the sign-in page; with one, the sign-in pages
   * are sent to the home page; everything else is resolved.
   */
  function AuthGuard(hasSession: bool, path: string): (d: Decision)
    ensures d == Redirect(303, AUTH_ROUTE) <==> !hasSession && IsProtected(path)
    ensures d == Redirect(303, "/") <==> hasSession && StartsWith(path, AUTH_ROUTE)
    ensures d == Resolve <==> !(!hasSession && IsProtected(path)) && !(hasSession && StartsWith(path, AUTH_ROUTE))
    ensures d.Redirect? ==> d.status == 303
  {
    if !hasSession && IsProtected(path) then Redirect(303, AUTH_ROUTE)
    else if hasSession && StartsWith(path, AUTH_ROUTE) then Redirect(303, "/")
    else Resolve
  }

  /** A path that differs from a route at some position inside both does not start with it. */
  lemma DiffersAt(path: string, route: string, k: nat)
    requires k < |path| && k < |route| && path[k] != route[k]
    ensures !StartsWith(path, route)
  {
    if |route| <= |path| {
      assert path[..|route|][k] != route[k];
    }
  }

  /** A path that no protected route is a prefix of is not protected. */
  lemma NotProtected(path: string)
    requires forall i :: 0 <= i < |PROTECTED_ROUTES| ==> !StartsWith(path, PROTECTED_ROUTES[i])
    ensures !IsProtected(path)
  {
  }

  /**
   * The check is by prefix, not by path segment: `/editor` and `/accounts/x` are protected too,
   * while `/`, the sign-in page and the simulation endpoint are not.
   */
  lemma {:induction false} ProtectedByPrefix()
    ensures IsProtected("/editor") && IsProtected("/accounts/x") && IsProtected("/dashboard")
    ensures !IsProtected("/") && !IsProtected("/auth") && !IsProtected("/api/simulate")
  {
    assert StartsWith("/editor", PROTECTED_ROUTES[2]);
    assert StartsWith("/accounts/x", PROTECTED_ROUTES[0]);
    assert StartsWith("/dashboard", PROTECTED_ROUTES[1]);
    NotProtected("/");
    DiffersAt("/auth", PROTECTED_ROUTES[1], 1);
    DiffersAt("/auth", PROTECTED_ROUTES[2], 1);
    NotProtected("/auth");
    DiffersAt("/api/simulate", PROTECTED_ROUTES[0], 2);
    DiffersAt("/api/simulate", PROTECTED_ROUTES[1], 1);
    DiffersAt("/api/simulate", PROTECTED_ROUTES[2], 1);
    NotProtected("/api/simulate");
  }

  /** No request is redirected to the page it is redirected from, so the guard cannot loop. */
  lemma NoRedirectLoop(hasSession: bool)
    ensures AuthGuard(hasSession, AUTH_ROUTE) != Redirect(303, AUTH_ROUTE)
    ensures AuthGuard(hasSession, "/") == Resolve
  {
    ProtectedByPrefix();
    assert !StartsWith("/", AUTH_ROUTE);
  }

  // ---------------------------------------------------------------------------------------------
  // The session lookup

  /** What an auth-helper call resolves to: its data, or an error. */
  datatype Lookup<T> = Lookup(data: Option<T>, error: Option<string>)

  /**
   * The session and the user after asking for the session and then, if there is one, for its
   * user; any error, or no session, collapses both to nothing.
   */
  function SafeGetSession(session: Lookup<Session>, user: Lookup<User>): (r: (Option<Session>, Option<User>))
    ensures r.1.Some? ==> r.0.Some?
    ensures r.0.Some? <==> session.error.None? && session.data.Some? && user.error.None?
    ensures r.0.Some? ==> r == (session.data, user.data)
    ensures r.0.None? ==> r == (None, None)
  {
    if session.error.Some? then (None, None)
    else if session.data.None? then (None, None)
    else if user.error.Some? then (None, None)
    else (session.data, user.data)
  }

  /**
   * The only response headers passed through to the page's serialized fetches; the names are
   * compared exactly.
   */
  function FilterSerializedResponseHeaders(name: string): (keep: bool)
    ensures keep <==> name in {"content-range", "x-supabase-api-version"}
  {
    name == "content-range" || name == "x-supabase-api-version"
  }

  /** A failed lookup leaves the request signed out: protected paths go to the sign-in page. */
  lemma LookupErrorSignsOut(session: Lookup<Session>, user: Lookup<User>, path: string)
    requires session.error.Some? || user.error.Some? || session.data.None?
    ensures SafeGetSession(session, user) == (None, None)
    ensures AuthGuard(SafeGetSession(session, user).0.Some?, path)
            == if IsProtected(path) then Redirect(303, AUTH_ROUTE) else Resolve
  {
  }

  lemma HeaderNamesAreExact()
    ensures FilterSerializedResponseHeaders("content-range")
    ensures !FilterSerializedResponseHeaders("Content-Range")
    ensures !FilterSerializedResponseHeaders("content-type")
  {
  }

  // ---------------------------------------------------------------------------------------------
  // The two hooks in sequence

  /**
   * One request through both hooks: the client `client` goes into `locals` and the change feed
   * is started with it (once per process), the looked-up session and user go into `locals`, and
   * the guard decides on the path. `session` and `user` are what the two auth calls resolve to.
   */
  method Handle(feed: Realtime.Feed, locals: Locals, client: Client, path: string,
                session: Lookup<Session>, user: Lookup<User>) returns (d: Decision)
    requires feed.Valid()
    modifies feed, locals
    ensures feed.Valid()
    ensures feed.channel == Some(Realtime.FEED_CHANNEL) && feed.openedFeeds == 1
    ensures locals.supabase == Some(client)
    ensures (locals.session, locals.user) == SafeGetSession(session, user)
    ensures d == AuthGuard(locals.session.Some?, path)
  {
    locals.supabase := Some(client);
    feed.SetupRealtimeStream(client);
    var found := SafeGetSession(session, user);
    locals.session := found.0;
    locals.user := found.1;
    d := AuthGuard(found.0.Some?, path);
  }
}
