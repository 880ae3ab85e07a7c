/**
 * The route guard (middleware.ts): `/chat` needs a session, and a signed-in user
 * asking for `/login` is sent to `/chat`. The session lookup is an input here.
 */
module RouteGuard {
  import opened Strings

  /** The middleware's answer: let the request through, or redirect to a path. */
  datatype Decision = Next | Redirect(location: string)

  /** `middleware(req)` for a request to `pathname`, given whether a session exists. */
  function Middleware(pathname: string, hasSession: bool): (d: Decision)
    ensures d == Redirect("/login") <==> StartsWith(pathname, "/chat") && !hasSession
    ensures d == Redirect("/chat") <==> pathname == "/login" && hasSession
    ensures d == Next <==> !(StartsWith(pathname, "/chat") && !hasSession) && !(pathname == "/login" && hasSession)
  {
    if StartsWith(pathname, "/chat") && !hasSession then Redirect("/login")
    else if pathname == "/login" && hasSession then Redirect("/chat")
    else Next
  }

  /** `config.matcher`: `/chat/:path*` (that is `/chat` and everything under it) and `/login`. */
  predicate Matched(pathname: string)
    ensures Matched(pathname) <==>
      pathname == "/login" || (StartsWith(pathname, "/chat") && (|pathname| == 5 || pathname[5] == '/'))
  {
    pathname == "/chat" || StartsWith(pathname, "/chat/") || pathname == "/login"
  }

  /** What a request meets: the middleware on matched paths, nothing elsewhere. */
  function Guard(pathname: string, hasSession: bool): (d: Decision)
    ensures Matched(pathname) ==> d == Middleware(pathname, hasSession)
    ensures !Matched(pathname) ==> d == Next
    ensures d.Redirect? ==> Matched(d.location)
  {
    if Matched(pathname) then Middleware(pathname, hasSession) else Next
  }

  /** The two redirect tests never both hold, so their order in the source does not matter. */
  lemma RedirectsExclusive(pathname: string, hasSession: bool)
    ensures !(StartsWith(pathname, "/chat") && !hasSession && pathname == "/login" && hasSession)
    ensures Middleware(pathname, hasSession) ==
      (if pathname == "/login" && hasSession then Redirect("/chat")
       else if StartsWith(pathname, "/chat") && !hasSession then Redirect("/login")
       else Next)
  {
  }

  /** No redirect loop: following a redirect with the same session lands on a page that is served. */
  lemma NoRedirectLoop(pathname: string, hasSession: bool)
    ensures Guard(pathname, hasSession).Redirect? ==> Guard(Guard(pathname, hasSession).location, hasSession) == Next
  {
    assert !StartsWith("/login", "/chat") by { assert "/login"[1] != "/chat"[1]; }
  }

  /** A signed-in visitor asking for `/login` is sent to `/chat`; without a session, `/login` is served. */
  lemma SignedInLoginGoesToChat()
    ensures Guard("/login", true) == Redirect("/chat")
    ensures Guard("/login", false) == Next
  {
    assert !StartsWith("/login", "/chat") by { assert "/login"[1] != "/chat"[1]; }
  }

  /** Every page under `/chat` is refused to a visitor without a session. */
  lemma ChatNeedsSession(pathname: string)
    requires pathname == "/chat" || StartsWith(pathname, "/chat/")
    ensures Guard(pathname, false) == Redirect("/login")
  {
    assert "/chat/"[..5] == "/chat";
  }

  /** A path that merely starts with the letters "/chat" (`/chatroom`) is outside the matcher and is served. */
  lemma MatcherNarrowerThanPrefixTest()
    ensures StartsWith("/chatroom", "/chat") && Guard("/chatroom", false) == Next
  {
    assert "/chatroom"[..5] == "/chat";
    assert "/chatroom"[..6] != "/chat/" by { assert "/chatroom"[5] == 'r'; }
  }
}
