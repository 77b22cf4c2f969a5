// The session table of the CSRF demo server and the handlers that change it.
// The HTTP server is abstracted away: each handler receives the request's
// Cookie header (if any), its form parameters and, for login, the random
// draws of its two generate_token calls, and returns what it responds.

module CsrfSessions {
  import opened Wrappers
  import opened CsrfCookies
  import opened CsrfTokens

  datatype Session = Session(username: string, email: string, csrfToken: string)

  /** What a handler sends back, without its HTML. */
  datatype Response =
    | Redirect(location: string, setCookie: Option<string>)
    | LoginFailed
    | ProfilePage(username: string, email: string, csrfToken: string)
    | Forbidden
    | EmailUpdated(email: string)

  const AdminUser: string := "admin"
  const AdminPassword: string := "admin"
  const AdminEmail: string := "admin@example.com"

  /** Every session id was generated at login, and so was its CSRF token. */
  ghost predicate WellFormedTable(sessions: map<string, Session>) {
    forall sid :: sid in sessions ==>
      IsToken(sid, SessionIdLength) && IsToken(sessions[sid].csrfToken, CsrfTokenLength)
  }

  /** The server's global session map, as an object the handlers update. */
  class SessionStore {
    var sessions: map<string, Session>

    ghost predicate Valid()
      reads this
    {
      WellFormedTable(sessions)
    }

    constructor ()
      ensures Valid() && sessions == map[]
    {
      sessions := map[];
    }

    /**
     * POST /login: only admin/admin gets a session, stored under a fresh
     * 32-character id with the admin's email and a 16-character CSRF token.
     * A colliding id would replace the session stored under it.
     */
    method Login(username: string, password: string, idDraws: seq<int>, tokenDraws: seq<int>)
      returns (response: Response, sessionId: string)
      requires Valid()
      requires SessionIdLength <= |idDraws| && ValidDraws(idDraws)
      requires CsrfTokenLength <= |tokenDraws| && ValidDraws(tokenDraws)
      modifies this
      ensures Valid()
      ensures !(username == AdminUser && password == AdminPassword) ==>
        response == LoginFailed && sessions == old(sessions)
      ensures username == AdminUser && password == AdminPassword ==>
        && IsToken(sessionId, SessionIdLength)
        && (forall k :: 0 <= k < |sessionId| ==> sessionId[k] == Charset[idDraws[k]])
        && response == Redirect("/profile", Some("SESSION_ID=" + sessionId + "; HttpOnly"))
        && sessionId in sessions
        && sessions[sessionId].username == AdminUser
        && sessions[sessionId].email == AdminEmail
        && IsToken(sessions[sessionId].csrfToken, CsrfTokenLength)
        && (forall k :: 0 <= k < CsrfTokenLength ==> sessions[sessionId].csrfToken[k] == Charset[tokenDraws[k]])
        && sessions.Keys == old(sessions).Keys + {sessionId}
        && (forall sid :: sid in old(sessions) && sid != sessionId ==> sessions[sid] == old(sessions)[sid])
    {
      sessionId := "";
      if username == AdminUser && password == AdminPassword {
        sessionId := GenerateToken(SessionIdLength, idDraws);
        var csrfToken := GenerateToken(CsrfTokenLength, tokenDraws);
        sessions := sessions[sessionId := Session(username, AdminEmail, csrfToken)];
        response := Redirect("/profile", Some("SESSION_ID=" + sessionId + "; HttpOnly"));
      } else {
        response := LoginFailed;
      }
    }

    /** GET /profile: the page shows the session's email and embeds its CSRF token. */
    method Profile(cookieHeader: Option<string>) returns (response: Response)
      requires cookieHeader.Some? ==> |cookieHeader.value| < NPOS
      ensures GetSessionId(cookieHeader) !in sessions ==> response == Redirect("/", None)
      ensures GetSessionId(cookieHeader) in sessions ==>
        var s := sessions[GetSessionId(cookieHeader)];
        response == ProfilePage(s.username, s.email, s.csrfToken)
    {
      var sessionId := GetSessionId(cookieHeader);
      if sessionId !in sessions {
        return Redirect("/", None);
      }
      var session := sessions[sessionId];
      response := ProfilePage(session.username, session.email, session.csrfToken);
    }

    /**
     * POST /change_email2: the email changes only when the session exists
     * and the submitted token equals the one stored with it.
     */
    method ChangeEmailChecked(cookieHeader: Option<string>, newEmail: string, submittedToken: string)
      returns (response: Response)
      requires Valid()
      requires cookieHeader.Some? ==> |cookieHeader.value| < NPOS
      modifies this
      ensures Valid()
      ensures var sid := GetSessionId(cookieHeader);
        if sid !in old(sessions) then
          response == Redirect("/", None) && sessions == old(sessions)
        else if submittedToken != old(sessions)[sid].csrfToken then
          response == Forbidden && sessions == old(sessions)
        else
          response == EmailUpdated(newEmail) &&
          sessions == old(sessions)[sid := old(sessions)[sid].(email := newEmail)]
    {
      var sessionId := GetSessionId(cookieHeader);
      if sessionId !in sessions {
        return Redirect("/", None);
      }
      var session := sessions[sessionId];
      if submittedToken != session.csrfToken {
        return Forbidden;
      }
      sessions := sessions[sessionId := session.(email := newEmail)];
      response := EmailUpdated(newEmail);
    }

    /**
     * POST /change_email: any request carrying a known session id changes
     * that session's email; no token is compared.
     */
    method ChangeEmail(cookieHeader: Option<string>, newEmail: string) returns (response: Response)
      requires Valid()
      requires cookieHeader.Some? ==> |cookieHeader.value| < NPOS
      modifies this
      ensures Valid()
      ensures var sid := GetSessionId(cookieHeader);
        if sid !in old(sessions) then
          response == Redirect("/", None) && sessions == old(sessions)
        else
          response == EmailUpdated(newEmail) &&
          sessions == old(sessions)[sid := old(sessions)[sid].(email := newEmail)]
    {
      var sessionId := GetSessionId(cookieHeader);
      if sessionId !in sessions {
        return Redirect("/", None);
      }
      var session := sessions[sessionId];
      sessions := sessions[sessionId := session.(email := newEmail)];
      response := EmailUpdated(newEmail);
    }

    /** GET /logout: erases the session named by the cookie, if there is one. */
    method Logout(cookieHeader: Option<string>) returns (response: Response)
      requires Valid()
      requires cookieHeader.Some? ==> |cookieHeader.value| < NPOS
      modifies this
      ensures Valid()
      ensures sessions == old(sessions) - {GetSessionId(cookieHeader)}
      ensures response == Redirect("/", Some("SESSION_ID=deleted; Max-Age=0"))
    {
      var sessionId := GetSessionId(cookieHeader);
      sessions := sessions - {sessionId};
      response := Redirect("/", Some("SESSION_ID=deleted; Max-Age=0"));
    }
  }

  /**
   * A request without a Cookie header, or whose header names no session,
   * finds no session in a table built by login: it is redirected and
   * changes nothing.
   */
  lemma NoCookieNoSession(sessions: map<string, Session>, cookieHeader: Option<string>)
    requires WellFormedTable(sessions)
    requires cookieHeader.Some? ==> |cookieHeader.value| < NPOS
    requires cookieHeader.None? || !Contains(cookieHeader.value, SessionPrefix)
    ensures GetSessionId(cookieHeader) !in sessions
  {
  }

  /**
   * After the admin logs in, a cross-site form that carries the victim's
   * cookie but no csrf_token field (an absent parameter reads as "") is
   * refused by change_email2 and accepted by change_email.
   */
  method ForgedRequest(idDraws: seq<int>, tokenDraws: seq<int>)
    returns (checked: Response, unchecked: Response, finalEmail: string)
    requires SessionIdLength <= |idDraws| && ValidDraws(idDraws)
    requires CsrfTokenLength <= |tokenDraws| && ValidDraws(tokenDraws)
    ensures checked == Forbidden
    ensures unchecked == EmailUpdated("attacker@example.com")
    ensures finalEmail == "attacker@example.com"
  {
    var store := new SessionStore();
    var login, sessionId := store.Login(AdminUser, AdminPassword, idDraws, tokenDraws);
    var cookie := "SESSION_ID=" + sessionId;
    assert cookie[0..|SessionPrefix|] == SessionPrefix;
    SessionIdAfterFirstPrefix(cookie, 0);
    assert cookie[|SessionPrefix|..] == sessionId;
    UpToSemicolonIsPrefix(sessionId, |sessionId|);
    assert GetSessionId(Some(cookie)) == sessionId;
    checked := store.ChangeEmailChecked(Some(cookie), "attacker@example.com", "");
    unchecked := store.ChangeEmail(Some(cookie), "attacker@example.com");
    finalEmail := store.sessions[sessionId].email;
  }
}
