/** When the token endpoint answers and with what, and what a revocation comes
    to, written out in the fields of the stored records. */
module AuthAnswers {
  import opened Common
  import opened AuthModels
  import opened TokenProtocol
  import opened TokenInvariants
  import opened TokenSteps
  import opened TokenTheorems
  import opened TokenTerms
  import opened AuthRuns

  // ----- the validators -----

  /** Why a credential is refused, and that nothing else refuses it: a code for
      another redirect URI, then anything past its expiry, then anything used. */
  lemma ConsumeRefusal(code: AuthorizationCode, token: RefreshToken, uri: string, now: Time)
    ensures var err := code.ValidateForConsume(uri, now);
            && (err == Some(RedirectMismatch) <==> code.redirectUri != uri)
            && (err == Some(Expired) <==> code.redirectUri == uri && now > code.expiresAt)
            && (err == Some(AlreadyUsed) <==> code.redirectUri == uri && now <= code.expiresAt && code.used)
            && (err == None <==> code.redirectUri == uri && now <= code.expiresAt && !code.used)
    ensures var err := token.ValidateForConsume(now);
            && (err == Some(Expired) <==> now > token.expiresAt)
            && (err == Some(AlreadyUsed) <==> now <= token.expiresAt && token.used)
            && (err == None <==> now <= token.expiresAt && !token.used)
  {
  }

  /** Why a session refuses a step: another client, then a revocation, then a
      pending session where that is not allowed, then the session's end. */
  lemma AdvanceRefusal(sess: Session, client: ClientId, at: Time, pending: bool)
    ensures var err, mine := sess.ValidateForAdvance(client, at, pending), sess.client == client;
            && (err == Some(ClientMismatch) <==> !mine)
            && (err == Some(SessionRevoked) <==> mine && sess.status.Revoked?)
            && (err == Some(InvalidState) <==> mine && sess.status.PendingConsent? && !pending)
            && (err == Some(SessionExpired) <==>
                  mine && (sess.status.Active? || (sess.status.PendingConsent? && pending)) && at > sess.expiresAt)
            && (err == None <==>
                  mine && (sess.status.Active? || (sess.status.PendingConsent? && pending)) && at <= sess.expiresAt)
  {
  }

  // ----- when -----

  // The credential is stored and not past its expiry, and a code comes with its own redirect URI.
  predicate Presentable(s: State, req: TokenRequest) {
    match req.cred
    case CodeCred(k) =>
      k in s.codes && s.codes[k].redirectUri == req.redirectUri && req.now <= s.codes[k].expiresAt
    case TokenCred(t) => t in s.tokens && req.now <= s.tokens[t].expiresAt
  }

  predicate AlreadySpent(s: State, cred: Credential) {
    match cred
    case CodeCred(k) => k in s.codes && s.codes[k].used
    case TokenCred(t) => t in s.tokens && s.tokens[t].used
  }

  predicate BelongsTo(s: State, cred: Credential, sid: SessionId) {
    match cred
    case CodeCred(k) => k in s.codes && s.codes[k].session == sid
    case TokenCred(t) => t in s.tokens && s.tokens[t].session == sid
  }

  // Client and tenant are the session's, its user is stored and active, and there are scopes to grant.
  predicate Serves(c: Config, s: State, sid: SessionId, ctx: TokenContext, active: bool) {
    && sid in s.sessions && active && c.refreshTtl >= 0
    && s.sessions[sid].client == ctx.client && s.sessions[sid].tenant == ctx.tenant && s.sessions[sid].scopes != []
    && s.sessions[sid].user in s.users && s.users[s.sessions[sid].user].active
  }

  // The session has not ended and is active; for a code it may still be pending.
  predicate Ready(s: State, sid: SessionId, req: TokenRequest) {
    && sid in s.sessions && req.now <= s.sessions[sid].expiresAt
    && (s.sessions[sid].status.Active? || (req.cred.CodeCred? && s.sessions[sid].status.PendingConsent?))
  }

  /** When a token request is answered, when it is a replay, and when it uses its
      credential up without an answer. */
  lemma CourseIff(c: Config, s: State, req: TokenRequest, ctx: TokenContext, active: bool, w: TokenWorld,
                  sid: SessionId)
    ensures var course := CourseOf(c, s, req, ctx, active, w);
            var heard := && BelongsTo(s, req.cred, sid) && Serves(c, s, sid, ctx, active)
                         && Presentable(s, req) && w.consumes;
            var spent := AlreadySpent(s, req.cred);
            && (course == Answered(sid) <==> heard && !spent && Ready(s, sid, req) && w.advances && w.stores)
            && (course == Unanswered(sid) <==> heard && !spent && Ready(s, sid, req) && w.advances && !w.stores)
            && (course == Burnt(sid) <==> heard && !spent && !(Ready(s, sid, req) && w.advances))
            && (course == Course.Replay(sid) <==> heard && spent)
  {
  }

  // Everything a request needs to be answered for the session.
  predicate Answerable(c: Config, s: State, req: TokenRequest, ctx: TokenContext, active: bool, w: TokenWorld,
                       sid: SessionId)
  {
    && BelongsTo(s, req.cred, sid) && Serves(c, s, sid, ctx, active) && Presentable(s, req)
    && !AlreadySpent(s, req.cred) && Ready(s, sid, req) && w.consumes && w.advances && w.stores
  }

  lemma AnsweredIff(c: Config, s: State, req: TokenRequest, ctx: TokenContext, active: bool, w: TokenWorld)
    ensures CourseOf(c, s, req, ctx, active, w).Answered? <==>
              exists sid :: Answerable(c, s, req, ctx, active, w, sid)
  {
    var course := CourseOf(c, s, req, ctx, active, w);
    if course.Answered? {
      CourseIff(c, s, req, ctx, active, w, course.sid);
      assert Answerable(c, s, req, ctx, active, w, course.sid);
    }
    if sid :| Answerable(c, s, req, ctx, active, w, sid) {
      CourseIff(c, s, req, ctx, active, w, sid);
    }
  }

  // ----- the cleanup worker -----

  function CleanedAt(k: CleanupAction): Option<Time> {
    match k
    case CleanCodes(now) => Some(now)
    case CleanTokens(now) => Some(now)
    case CleanUsedTokens => None
    case CleanSessions(now) => Some(now)
  }

  /** Cleaning up takes no answer from anybody: a request no earlier than the
      cleanup is answered after it exactly when it would have been before. */
  lemma CleanupKeepsAnswers(c: Config, s: State, k: CleanupAction, req: TokenRequest, ctx: TokenContext, active: bool,
                            w: TokenWorld, sid: SessionId)
    requires CleanedAt(k).Some? ==> CleanedAt(k).value <= req.now
    ensures Answerable(c, s, req, ctx, active, w, sid) <==>
              Answerable(c, StepCleanup(c, s, k), req, ctx, active, w, sid)
  {
  }

  /** And it removes everything it is there for: what is over, and nothing else. */
  lemma CleanupComplete(c: Config, s: State, now: Time)
    ensures var left := StepCleanup(c, s, CleanCodes(now)).codes;
            forall k :: k in left <==> k in s.codes && now <= s.codes[k].expiresAt
    ensures var left := StepCleanup(c, s, CleanTokens(now)).tokens;
            forall t :: t in left <==> t in s.tokens && now <= s.tokens[t].expiresAt
    ensures var left := StepCleanup(c, s, CleanUsedTokens).tokens;
            forall t :: t in left <==> t in s.tokens && !s.tokens[t].used
    ensures var left := StepCleanup(c, s, CleanSessions(now)).sessions;
            forall sid :: sid in left <==> sid in s.sessions && now <= s.sessions[sid].expiresAt
  {
  }

  // ----- with what -----

  // The session after a step of this request.
  function Stepped(c: Config, sess: Session, req: TokenRequest, jti: Jti): Session {
    sess.(status := Active, lastJti := Some(jti),
          lastSeenAt := if req.now > sess.lastSeenAt then req.now else sess.lastSeenAt,
          lastRefreshedAt := if req.cred.CodeCred? then sess.lastRefreshedAt
                             else if sess.lastRefreshedAt.Some? && sess.lastRefreshedAt.value >= req.now
                             then sess.lastRefreshedAt else Some(req.now),
          fingerprint := if c.deviceBinding && req.fingerprint != "" then req.fingerprint else sess.fingerprint)
  }

  lemma AdvancedFields(c: Config, req: TokenRequest, sid: SessionId, sess: Session, ctx: TokenContext, token: TokenId,
                       jti: Jti)
    requires sess.deviceId != "" && (sess.status.Active? || (req.cred.CodeCred? && sess.status.PendingConsent?))
    ensures Advanced(c, StepOf(c, req, sid, sess, ctx, token, jti), sess) == Stepped(c, sess, req, jti)
  {
  }

  // The device of a session after its step: the one of the copy read before, or else one the request attaches.
  lemma AdvancedDevice(c: Config, f: Flow, sess: Session)
    requires f.TokAdvance?
    ensures Advanced(c, f, sess).deviceId ==
              if f.snap.deviceId != "" then f.snap.deviceId
              else if c.deviceBinding && f.req.cookie != "" then f.req.cookie
              else sess.deviceId
  {
  }

  lemma DeviceBound(c: Config, s: State, sid: SessionId)
    requires Reachable(c, s) && sid in s.sessions
    ensures s.sessions[sid].deviceId != ""
  {
    ReachableInv(c, s);
    assert LogOk(s.h, sid, s.h.logs[sid]);
  }

  // The credential is used up, a refresh token with the time of the request, and no other one changes.
  predicate Spends(s: State, s': State, req: TokenRequest, made: map<TokenId, RefreshToken>) {
    match req.cred
    case CodeCred(k) =>
      k in s.codes && s'.codes == s.codes[k := s.codes[k].(used := true)] && s'.tokens == s.tokens + made
    case TokenCred(t) =>
      && t in s.tokens && s'.codes == s.codes
      && s'.tokens == s.tokens[t := s.tokens[t].(used := true, lastRefreshedAt := Some(req.now))] + made
  }

  lemma SpendsOne(c: Config, s: State, s': State, req: TokenRequest, made: map<TokenId, RefreshToken>)
    requires Reachable(c, s) && s'.codes == SpentCodes(s.codes, req.cred)
    requires s'.tokens == SpentTokens(s.tokens, req.cred, req.now) + made
    requires (exists sid :: BelongsTo(s, req.cred, sid)) && !AlreadySpent(s, req.cred)
    ensures Spends(s, s', req, made)
  {
    if req.cred.TokenCred? {
      UseIsDated(c, s, req.cred.token, req.now);
    }
  }

  /** What an answered request hands out and leaves: an access token of exactly the
      session's user, client, tenant and scopes for the token lifetime; one new
      unused refresh token for the refresh lifetime; the credential used up; the
      session active with the new token's identifier; nothing else changed. */
  lemma AnswerGives(c: Config, s: State, s': State, rid: RequestId, req: TokenRequest, ctx: TokenContext, active: bool,
                    token: TokenId, jti: Jti, w: TokenWorld, r: Option<TokenResult>, sid: SessionId)
    requires Reachable(c, s) && CourseOf(c, s, req, ctx, active, w) == Answered(sid)
    requires Served(c, s, s', rid, req, ctx, token, jti, w, Answered(sid), r)
    ensures sid in s.sessions
    ensures var sess := s.sessions[sid];
            var claims := Claims(sess.user, sid, sess.client, sess.tenant, sess.scopes, req.now + c.tokenTtl);
            && r == Some(TokenResult(token, jti, claims, sess.scopes))
            && s'.sessions == s.sessions[sid := Stepped(c, sess, req, jti)]
            && Spends(s, s', req, map[token := RefreshToken(sid, req.now + c.refreshTtl, false, None, req.now)])
            && s'.users == s.users && s'.trl == s.trl
  {
    CourseIff(c, s, req, ctx, active, w, sid);
    DeviceBound(c, s, sid);
    AdvancedFields(c, req, sid, s.sessions[sid], ctx, token, jti);
    var made := map[token := RefreshToken(sid, req.now + c.refreshTtl, false, None, req.now)];
    assert s'.tokens == SpentTokens(s.tokens, req.cred, req.now) + made;
    SpendsOne(c, s, s', req, made);
  }

  /** What the other courses leave: a replay only revokes; a used-up credential
      without a session step changes nothing but that credential; without an
      answer the session has made its step all the same. */
  lemma OthersLeave(c: Config, s: State, s': State, rid: RequestId, req: TokenRequest, ctx: TokenContext, active: bool,
                    token: TokenId, jti: Jti, w: TokenWorld, r: Option<TokenResult>, sid: SessionId)
    requires Reachable(c, s) && Served(c, s, s', rid, req, ctx, token, jti, w, CourseOf(c, s, req, ctx, active, w), r)
    ensures var course := CourseOf(c, s, req, ctx, active, w);
            && (course == Burnt(sid) ==> r.None? && s'.sessions == s.sessions && Spends(s, s', req, map[]))
            && (course == Unanswered(sid) ==>
                  && r.None? && sid in s.sessions && Spends(s, s', req, map[])
                  && s'.sessions == s.sessions[sid := Stepped(c, s.sessions[sid], req, jti)])
            && (course == Course.Replay(sid) ==>
                  && r.None? && s'.codes == s.codes && s'.tokens == s.tokens && sid in s.sessions && sid in s'.sessions
                  && (w.revokes ==> s'.sessions[sid].status.Revoked?)
                  && forall x | x != sid && x in s.sessions :: x in s'.sessions && s'.sessions[x] == s.sessions[x])
  {
    CourseIff(c, s, req, ctx, active, w, sid);
    var course := CourseOf(c, s, req, ctx, active, w);
    if course == Burnt(sid) || course == Unanswered(sid) {
      assert s'.tokens == SpentTokens(s.tokens, req.cred, req.now) + map[];
      SpendsOne(c, s, s', req, map[]);
    }
    if course == Unanswered(sid) {
      DeviceBound(c, s, sid);
      AdvancedFields(c, req, sid, s.sessions[sid], ctx, token, jti);
    }
  }

  // ----- revoking -----

  // The text reads as an access token of a stored session.
  predicate NamesAccess(sessions: map<SessionId, Session>, text: TokenText, sid: SessionId, jti: Option<Jti>) {
    text.claims.Some? && text.claims.value.0 == sid && sid in sessions && jti == Some(text.claims.value.1)
  }

  // The text is a stored refresh token of a stored session; the access token to list is that session's last one.
  predicate NamesRefresh(sessions: map<SessionId, Session>, tokens: map<TokenId, RefreshToken>, text: TokenText,
                         sid: SessionId, jti: Option<Jti>)
  {
    text.refresh in tokens && tokens[text.refresh].session == sid && sid in sessions && jti == sessions[sid].lastJti
  }

  /** Which session a token handed in for revocation belongs to: an access token's
      unless the hint says refresh token; otherwise a refresh token's unless the
      hint says access token. */
  lemma ResolutionIff(sessions: map<SessionId, Session>, tokens: map<TokenId, RefreshToken>, text: TokenText,
                      hint: Hint, sid: SessionId, jti: Option<Jti>)
    ensures Resolution(sessions, tokens, text, hint) == Some((sid, jti)) <==>
              || (hint != RefreshHint && NamesAccess(sessions, text, sid, jti))
              || (&& hint != AccessHint && NamesRefresh(sessions, tokens, text, sid, jti)
                  && (hint == RefreshHint || !exists x, j :: NamesAccess(sessions, text, x, j)))
  {
    if hint != RefreshHint && text.claims.Some? && text.claims.value.0 in sessions {
      assert NamesAccess(sessions, text, text.claims.value.0, Some(text.claims.value.1));
    }
  }

  /** What a revocation comes to: an error exactly when the session is not found,
      its revocation cannot be written, or listing its token fails fatally; and
      without an error the session is revoked afterwards. */
  lemma OutcomeIff(c: Config, sessions: map<SessionId, Session>, sid: SessionId, jti: Option<Jti>, now: Time,
                   w: RevokeWorld)
    ensures var outcome, after := OutcomeOf(c, sessions, sid, jti, w), RevokedAfter(sessions, sid, now, w);
            && (outcome.AlreadyRevoked? <==> w.findOk && sid in sessions && sessions[sid].status.Revoked?)
            && (outcome.NowRevoked? <==>
                  && w.findOk && w.revokeOk && sid in sessions && !sessions[sid].status.Revoked?
                  && (jti.None? || w.trlOk || !c.failOnTrlError))
            && (!outcome.RevokeFailed? ==> sid in after && after[sid].status.Revoked?)
  {
  }
}
