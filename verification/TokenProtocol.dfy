/** The token protocol as a step machine. Every call into a store is one atomic
    step; requests are interleaved freely; the mutex of authTx.RunInTx is a lock
    in the state. An action that is not enabled leaves the state as it is, so
    every sequence of actions is a run. */
module TokenProtocol {
  import opened Common
  import opened AuthModels

  type RequestId = nat

  datatype Config = Config(
    sessionTtl: int,
    tokenTtl: int,
    refreshTtl: int,
    deviceBinding: bool,
    failOnTrlError: bool,
    // one server process, so that RunInTx excludes every other transaction;
    // false models several processes over common stores
    mutex: bool,
    // the stores enforce the foreign keys of the SQL schema: a row is refused when the row it refers
    // to is missing, and deleting a row deletes the rows that refer to it
    foreignKeys: bool)

  const CODE_TTL := 600

  datatype Credential = CodeCred(code: CodeId) | TokenCred(token: TokenId)

  datatype TokenRequest = TokenRequest(
    cred: Credential, redirectUri: string, now: Time, cookie: string, fingerprint: string)

  datatype TokenContext = TokenContext(client: ClientId, tenant: TenantId)

  // The claims an access token carries.
  datatype Claims = Claims(
    user: UserId, session: SessionId, client: ClientId, tenant: TenantId, scopes: seq<string>, expiresAt: Time)

  datatype Artifacts = Artifacts(token: TokenId, jti: Jti, claims: Claims, record: RefreshToken)

  datatype AuthorizeParams = AuthorizeParams(
    email: string, scopes: seq<string>, allowedScopes: seq<string>, redirectUri: string, now: Time,
    deviceId: string, fingerprint: string, client: ClientId, tenant: TenantId)

  // Where a revocation takes the access token it lists from: the token it was
  // given, a session read before revoking, or the session as it was revoked.
  datatype Origin = Given | ReadBefore | ReadAtRevoke

  /** One session a revocation is about to hit, with the access token it will
      list. seen is the number of advances the session had when jti was read. */
  datatype Target = Target(session: SessionId, jti: Option<Jti>, origin: Origin, seen: nat)

  // Where a request stands: one constructor per program point between two store calls.
  datatype Flow =
    // token endpoint
    | TokStart(req: TokenRequest)
    | TokFound(req: TokenRequest, sid: SessionId)
    | TokSnapshot(req: TokenRequest, sid: SessionId, snap: Session)
    | TokReady(req: TokenRequest, sid: SessionId, snap: Session, ctx: TokenContext, art: Artifacts)
    | TokConsume(req: TokenRequest, sid: SessionId, snap: Session, ctx: TokenContext, art: Artifacts)
    | TokReplay(req: TokenRequest, sid: SessionId)
    | TokAdvance(req: TokenRequest, sid: SessionId, snap: Session, ctx: TokenContext, art: Artifacts)
    | TokCreate(req: TokenRequest, sid: SessionId, grant: Grant, record: RefreshToken)
    // authorization endpoint
    | AuthReady(params: AuthorizeParams)
    | AuthUser(params: AuthorizeParams)
    | AuthSession(params: AuthorizeParams, user: UserId)
    | AuthCode(params: AuthorizeParams, sid: SessionId)
    // user deletion
    | DelReady(user: UserId)
    | DelSessions(user: UserId)
    | DelRow(user: UserId)
    // revocation
    | RevExecute(user: UserId, sid: SessionId, now: Time)
    | RevFound(sid: SessionId, now: Time)
    | RevNext(todo: seq<Target>, now: Time)
    | RevTrl(target: Target, todo: seq<Target>, now: Time)
    | RevDelete(sid: SessionId, todo: seq<Target>, now: Time)
    | Done

  // The session step of one token request, and the response it leads to.
  datatype Grant = Grant(
    request: RequestId, session: SessionId, parent: Credential, token: TokenId, jti: Jti,
    claims: Claims, scope: seq<string>, activated: bool, at: Time, fingerprint: string, redirectUri: string)

  // What happened to one session so far: how it was created and for which redirect URI,
  // every committed session step, and every token response (recorded when its refresh
  // token is stored).
  datatype Log = Log(
    born: Session, redirectUri: string, allowedScopes: seq<string>, advances: seq<Grant>, responses: seq<Grant>)

  datatype Minted = Minted(session: SessionId, request: RequestId)

  // History: it never influences a store, only what is proved mentions it.
  datatype History = History(
    logs: map<SessionId, Log>,
    codeOf: map<CodeId, SessionId>,
    tokenOf: map<TokenId, Minted>,
    jtiOf: map<Jti, RequestId>)

  datatype State = State(
    users: map<UserId, User>,
    sessions: map<SessionId, Session>,
    codes: map<CodeId, AuthorizationCode>,
    tokens: map<TokenId, RefreshToken>,
    trl: map<Jti, Time>,
    lock: Option<RequestId>,
    flows: map<RequestId, Flow>,
    h: History,
    everUsers: set<UserId>)

  // One action is one store call of one request (or a read or write between
  // two of them); what the source takes from outside is a parameter: the
  // resolved client, fresh identifiers, clocks, and whether a store call failed.
  datatype TokenAction =
    | BeginToken(req: TokenRequest)
    | FindCredential
    | FindSession
    | Prepare(ctx: TokenContext, clientActive: bool, token: TokenId, jti: Jti)
    | Consume
    | ReplayRevoke
    | AdvanceSession
    | CreateToken

  datatype AccountAction =
    | BeginAuthorize(params: AuthorizeParams)
    | FindOrCreateUser(pick: UserId)
    | CreateSession(sid: SessionId)
    | CreateCode(code: CodeId)
    | BeginDelete(user: UserId)
    | DeleteSessions
    | DeleteUserRow

  datatype RevokeAction =
    | BeginRevoke(user: UserId, sid: SessionId, now: Time)
    | ExecuteRevoke
    | BeginLogoutAll(user: UserId, keep: Option<SessionId>, order: seq<SessionId>, now: Time)
    | ResolveAccess(sid: SessionId, jti: Jti, now: Time)
    | ResolveRefresh(token: TokenId, now: Time)
    | ResolveSession
    | RevokeTarget(ok: bool)
    | WriteTrl(clock: Time, ok: bool)
    | DeleteTokens(ok: bool)

  datatype TxAction = Acquire | Release | Fail

  datatype CleanupAction = CleanCodes(now: Time) | CleanTokens(now: Time) | CleanUsedTokens | CleanSessions(now: Time)

  datatype Action =
    | OnToken(rid: RequestId, t: TokenAction)
    | OnAccount(rid: RequestId, u: AccountAction)
    | OnRevoke(rid: RequestId, v: RevokeAction)
    | OnTx(rid: RequestId, x: TxAction)
    | OnCleanup(k: CleanupAction)

  // ----- helpers -----

  function Goto(s: State, rid: RequestId, f: Flow): State {
    s.(flows := s.flows[rid := f])
  }

  // Starting a request: its identifier is new, its time is fixed from here on.
  function Begin(s: State, rid: RequestId, f: Flow): State {
    if rid in s.flows then s else Goto(s, rid, f)
  }

  function AdvancesOf(h: History, sid: SessionId): seq<Grant> {
    if sid in h.logs then h.logs[sid].advances else []
  }

  function ResponsesOf(h: History, sid: SessionId): seq<Grant> {
    if sid in h.logs then h.logs[sid].responses else []
  }

  // ----- the token endpoint: token_exchange.go, token_refresh.go, token_flow.go -----

  // Pre-read of the code or refresh token, outside the transaction.
  function StepFindCredential(s: State, rid: RequestId): State {
    if rid in s.flows && s.flows[rid].TokStart? then
      var req := s.flows[rid].req;
      match req.cred
      case CodeCred(k) => if k in s.codes then Goto(s, rid, TokFound(req, s.codes[k].session)) else Goto(s, rid, Done)
      case TokenCred(t) => if t in s.tokens then Goto(s, rid, TokFound(req, s.tokens[t].session))
        else Goto(s, rid, Done)
    else s
  }

  // Pre-read of the session: the snapshot the tokens are generated from.
  function StepFindSession(s: State, rid: RequestId): State {
    if rid in s.flows && s.flows[rid].TokFound? then
      var f := s.flows[rid];
      if f.sid in s.sessions then Goto(s, rid, TokSnapshot(f.req, f.sid, s.sessions[f.sid])) else Goto(s, rid, Done)
    else s
  }

  // prepareTokenFlow: resolved client and tenant are checked against the
  // snapshot, the user is looked up, and the tokens are generated.
  predicate ContextAccepted(c: Config, s: State, snap: Session, ctx: TokenContext, clientActive: bool) {
    && ctx.client == snap.client
    && ctx.tenant == snap.tenant
    && snap.user in s.users
    && s.users[snap.user].active
    && clientActive
    && snap.scopes != []
    && c.refreshTtl >= 0
  }

  function Generate(c: Config, req: TokenRequest, sid: SessionId, snap: Session, token: TokenId, jti: Jti): Artifacts {
    Artifacts(token, jti,
              Claims(snap.user, sid, snap.client, snap.tenant, snap.scopes, req.now + c.tokenTtl),
              RefreshToken(sid, req.now + c.refreshTtl, false, None, req.now))
  }

  function StepPrepare(c: Config, s: State, rid: RequestId, ctx: TokenContext, clientActive: bool,
                       token: TokenId, jti: Jti): State
  {
    if rid in s.flows && s.flows[rid].TokSnapshot? && token !in s.h.tokenOf && jti !in s.h.jtiOf then
      var f := s.flows[rid];
      if !ContextAccepted(c, s, f.snap, ctx, clientActive) then Goto(s, rid, Done)
      else
        Goto(s, rid, TokReady(f.req, f.sid, f.snap, ctx, Generate(c, f.req, f.sid, f.snap, token, jti)))
        .(h := s.h.(tokenOf := s.h.tokenOf[token := Minted(f.sid, rid)], jtiOf := s.h.jtiOf[jti := rid]))
    else s
  }

  predicate WaitsForMutex(f: Flow) {
    f.TokReady? || f.AuthReady? || f.DelReady?
  }

  // The program point a waiting request moves to when it gets the mutex.
  function Entered(f: Flow): Flow {
    if f.TokReady? then TokConsume(f.req, f.sid, f.snap, f.ctx, f.art)
    else if f.AuthReady? then AuthUser(f.params)
    else if f.DelReady? then DelSessions(f.user)
    else f
  }

  // RunInTx: the mutex is taken before the body runs and released after it returns.
  function StepAcquire(c: Config, s: State, rid: RequestId): State {
    if rid in s.flows && WaitsForMutex(s.flows[rid]) && (c.mutex ==> s.lock.None?) then
      Goto(s, rid, Entered(s.flows[rid])).(lock := if c.mutex then Some(rid) else s.lock)
    else s
  }

  function StepRelease(s: State, rid: RequestId): State {
    if rid in s.flows && s.flows[rid].Done? && s.lock == Some(rid) then s.(lock := None) else s
  }

  // A store error, a timeout or a cancelled context: the request stops where it is. Nothing is rolled back.
  function StepFail(s: State, rid: RequestId): State {
    if rid in s.flows then Goto(s, rid, Done) else s
  }

  // Consumption of the credential under the store's own lock. A used credential is a replay.
  function StepConsumeCode(s: State, rid: RequestId, f: Flow, k: CodeId): State
    requires f.TokConsume?
  {
    if k !in s.codes then Goto(s, rid, Done)
    else
      match s.codes[k].ValidateForConsume(f.req.redirectUri, f.req.now)
      case None =>
        // the exchange also writes the resolved tenant into its snapshot
        Goto(s, rid, TokAdvance(f.req, f.sid, f.snap.(tenant := f.ctx.tenant), f.ctx, f.art))
        .(codes := s.codes[k := s.codes[k].MarkUsed()])
      case Some(err) =>
        if err.AlreadyUsed? then Goto(s, rid, TokReplay(f.req, s.codes[k].session)) else Goto(s, rid, Done)
  }

  function StepConsumeRefresh(s: State, rid: RequestId, f: Flow, t: TokenId): State
    requires f.TokConsume?
  {
    if t !in s.tokens then Goto(s, rid, Done)
    else
      match s.tokens[t].ValidateForConsume(f.req.now)
      case None =>
        Goto(s, rid, TokAdvance(f.req, f.sid, f.snap, f.ctx, f.art))
        .(tokens := s.tokens[t := s.tokens[t].MarkUsed(f.req.now)])
      case Some(err) =>
        if err.AlreadyUsed? then Goto(s, rid, TokReplay(f.req, s.tokens[t].session)) else Goto(s, rid, Done)
  }

  function StepConsume(s: State, rid: RequestId): State {
    if rid in s.flows && s.flows[rid].TokConsume? then
      match s.flows[rid].req.cred
      case CodeCred(k) => StepConsumeCode(s, rid, s.flows[rid], k)
      case TokenCred(t) => StepConsumeRefresh(s, rid, s.flows[rid], t)
    else s
  }

  // RevokeSessionIfActive
  function RevokeIfActive(sessions: map<SessionId, Session>, sid: SessionId, now: Time): map<SessionId, Session> {
    if sid in sessions && sessions[sid].CanRevoke() then sessions[sid := sessions[sid].ApplyRevocation(now)]
    else sessions
  }

  function StepReplayRevoke(s: State, rid: RequestId): State {
    if rid in s.flows && s.flows[rid].TokReplay? then
      var f := s.flows[rid];
      Goto(s, rid, Done).(sessions := RevokeIfActive(s.sessions, f.sid, f.req.now))
    else s
  }

  // The mutation callback of executeTokenFlowTx.
  function Advanced(c: Config, f: Flow, sess: Session): Session
    requires f.TokAdvance?
  {
    var device := ApplyDeviceBinding(c.deviceBinding, f.snap, f.req.cookie, f.req.fingerprint);
    var touched := if f.req.cred.CodeCred?
                   then (var seen := sess.RecordActivity(f.req.now);
                         if seen.status.PendingConsent? then seen.ApplyActivation() else seen)
                   else sess.RecordRefresh(f.req.now);
    touched.ApplyTokenJti(f.art.jti).ApplyDeviceInfo(device.deviceId, device.fingerprint)
  }

  function GrantOf(rid: RequestId, f: Flow, sess: Session): Grant
    requires f.TokAdvance?
  {
    Grant(rid, f.sid, f.req.cred, f.art.token, f.art.jti, f.art.claims, sess.scopes,
          f.req.cred.CodeCred? && sess.status.PendingConsent?, f.req.now, f.req.fingerprint, f.req.redirectUri)
  }

  function LogAdvance(h: History, sid: SessionId, g: Grant): History {
    if sid in h.logs then h.(logs := h.logs[sid := h.logs[sid].(advances := h.logs[sid].advances + [g])]) else h
  }

  function LogResponse(h: History, sid: SessionId, g: Grant): History {
    if sid in h.logs then h.(logs := h.logs[sid := h.logs[sid].(responses := h.logs[sid].responses + [g])]) else h
  }

  // The session step: validated and mutated atomically.
  function StepAdvanceSession(c: Config, s: State, rid: RequestId): State {
    if rid in s.flows && s.flows[rid].TokAdvance? then
      var f := s.flows[rid];
      if f.sid !in s.sessions then Goto(s, rid, Done)
      else
        var sess := s.sessions[f.sid];
        if sess.ValidateForAdvance(f.ctx.client, f.req.now, f.req.cred.CodeCred?).Some? then Goto(s, rid, Done)
        else
          var g := GrantOf(rid, f, sess);
          Goto(s, rid, TokCreate(f.req, f.sid, g, f.art.record))
          .(sessions := s.sessions[f.sid := Advanced(c, f, sess)],
            h := LogAdvance(s.h, f.sid, g))
    else s
  }

  // The next refresh token is stored; nothing after this can fail, so the response is recorded here.
  function StoreToken(s: State, rid: RequestId): State {
    if rid in s.flows && s.flows[rid].TokCreate? then
      var f := s.flows[rid];
      Goto(s, rid, Done).(tokens := s.tokens[f.grant.token := f.record],
                          h := LogResponse(s.h, f.sid, f.grant))
    else s
  }

  // A store call that fails ends the request like any other failure.
  function StepCreateToken(c: Config, s: State, rid: RequestId): State {
    if rid in s.flows && s.flows[rid].TokCreate? && c.foreignKeys && s.flows[rid].sid !in s.sessions
    then StepFail(s, rid) else StoreToken(s, rid)
  }

  // ----- authorize.go -----

  function StepBeginAuthorize(s: State, rid: RequestId, p: AuthorizeParams): State {
    if ScopesAllowed(p.scopes, p.allowedScopes) && p.deviceId != "" then Begin(s, rid, AuthReady(p)) else s
  }

  predicate Matches(u: User, p: AuthorizeParams) {
    u.email == p.email && u.tenant == p.tenant
  }

  // FindOrCreateByTenantAndEmail, then the active check.
  function StepFindOrCreateUser(s: State, rid: RequestId, pick: UserId): State {
    if rid in s.flows && s.flows[rid].AuthUser? then
      var p := s.flows[rid].params;
      if p.email == "" then Goto(s, rid, Done)
      else if exists u :: u in s.users && Matches(s.users[u], p) then
        if pick in s.users && Matches(s.users[pick], p) then
          if s.users[pick].active then Goto(s, rid, AuthSession(p, pick)) else Goto(s, rid, Done)
        else s
      else if pick in s.everUsers then s
      else
        Goto(s, rid, AuthSession(p, pick))
        .(users := s.users[pick := User(p.tenant, p.email, true)], everUsers := s.everUsers + {pick})
    else s
  }

  function StoreSession(c: Config, s: State, rid: RequestId, sid: SessionId): State {
    if rid in s.flows && s.flows[rid].AuthSession? && sid !in s.h.logs then
      var p := s.flows[rid].params;
      match NewSession(s.flows[rid].user, p.client, p.tenant, p.scopes, p.now, p.now + c.sessionTtl, p.deviceId,
                       p.fingerprint)
      case None => Goto(s, rid, Done)
      case Some(sess) =>
        Goto(s, rid, AuthCode(p, sid))
        .(sessions := s.sessions[sid := sess],
          h := s.h.(logs := s.h.logs[sid := Log(sess, p.redirectUri, p.allowedScopes, [], [])]))
    else s
  }

  function StepCreateSession(c: Config, s: State, rid: RequestId, sid: SessionId): State {
    if rid in s.flows && s.flows[rid].AuthSession? && c.foreignKeys && s.flows[rid].user !in s.users
    then StepFail(s, rid) else StoreSession(c, s, rid, sid)
  }

  function StoreCode(s: State, rid: RequestId, code: CodeId): State {
    if rid in s.flows && s.flows[rid].AuthCode? && code !in s.h.codeOf then
      var f := s.flows[rid];
      if f.params.redirectUri == "" then Goto(s, rid, Done)
      else
        Goto(s, rid, Done)
        .(codes := s.codes[code := AuthorizationCode(f.sid, f.params.redirectUri, f.params.now + CODE_TTL, false,
            f.params.now)],
          h := s.h.(codeOf := s.h.codeOf[code := f.sid]))
    else s
  }

  function StepCreateCode(c: Config, s: State, rid: RequestId, code: CodeId): State {
    if rid in s.flows && s.flows[rid].AuthCode? && c.foreignKeys && s.flows[rid].sid !in s.sessions
    then StepFail(s, rid) else StoreCode(s, rid, code)
  }

  // ----- admin_delete_user.go -----

  function StepBeginDelete(s: State, rid: RequestId, user: UserId): State {
    if user in s.users then Begin(s, rid, DelReady(user)) else s
  }

  function RemoveSessions(c: Config, s: State, gone: set<SessionId>): State {
    s.(sessions := s.sessions - gone,
       codes := if c.foreignKeys then map k | k in s.codes && s.codes[k].session !in gone :: s.codes[k] else s.codes,
       tokens := if c.foreignKeys then map t | t in s.tokens && s.tokens[t].session !in gone :: s.tokens[t]
           else s.tokens)
  }

  function SessionsOfUser(s: State, user: UserId): set<SessionId> {
    set sid | sid in s.sessions && s.sessions[sid].user == user
  }

  function StepDeleteSessions(c: Config, s: State, rid: RequestId): State {
    if rid in s.flows && s.flows[rid].DelSessions? then
      var u := s.flows[rid].user;
      RemoveSessions(c, Goto(s, rid, DelRow(u)), SessionsOfUser(s, u))
    else s
  }

  function RemoveUser(c: Config, s: State, user: UserId): State {
    var s1 := s.(users := s.users - {user});
    if c.foreignKeys then RemoveSessions(c, s1, SessionsOfUser(s, user)) else s1
  }

  function StepDeleteUserRow(c: Config, s: State, rid: RequestId): State {
    if rid in s.flows && s.flows[rid].DelRow? then RemoveUser(c, Goto(s, rid, Done), s.flows[rid].user) else s
  }

  // ----- session_revoke.go, token_revocation.go -----

  function SnapshotTarget(s: State, sid: SessionId, origin: Origin): Target
    requires sid in s.sessions
  {
    Target(sid, s.sessions[sid].lastJti, origin, |AdvancesOf(s.h, sid)|)
  }

  predicate RevocableBy(s: State, user: UserId, sid: SessionId) {
    sid in s.sessions && s.sessions[sid].user == user && s.sessions[sid].CanRevoke()
  }

  // RevokeSession: ownership and state are checked under the session's lock,
  // and the access token listed afterwards is the one read there.
  function StepExecuteRevoke(s: State, rid: RequestId): State {
    if rid in s.flows && s.flows[rid].RevExecute? then
      var f := s.flows[rid];
      if !RevocableBy(s, f.user, f.sid) then Goto(s, rid, Done)
      else
        Goto(s, rid, RevTrl(SnapshotTarget(s, f.sid, ReadAtRevoke), [], f.now))
        .(sessions := RevokeIfActive(s.sessions, f.sid, f.now))
    else s
  }

  // ListByUser returns the user's sessions in some order; LogoutAll may keep the current one.
  predicate Lists(s: State, user: UserId, keep: Option<SessionId>, order: seq<SessionId>) {
    && (forall i, j :: 0 <= i < j < |order| ==> order[i] != order[j])
    && (forall sid :: sid in order ==> sid in s.sessions && s.sessions[sid].user == user && keep != Some(sid))
    && (forall sid :: sid in s.sessions && s.sessions[sid].user == user && keep != Some(sid) ==> sid in order)
  }

  function StepBeginLogoutAll(s: State, rid: RequestId, user: UserId, keep: Option<SessionId>,
                              order: seq<SessionId>, now: Time): State
  {
    if Lists(s, user, keep, order) then
      Begin(s, rid, RevNext(seq(|order|, i requires 0 <= i < |order| => SnapshotTarget(s, order[i], ReadBefore)), now))
    else s
  }

  // An access token names its session and its own identifier.
  function StepResolveAccess(s: State, rid: RequestId, sid: SessionId, jti: Jti, now: Time): State {
    if sid in s.sessions then Begin(s, rid, RevNext([Target(sid, Some(jti), Given, 0)], now)) else s
  }

  function StepResolveRefresh(s: State, rid: RequestId, token: TokenId, now: Time): State {
    if token in s.tokens then Begin(s, rid, RevFound(s.tokens[token].session, now)) else s
  }

  function StepResolveSession(s: State, rid: RequestId): State {
    if rid in s.flows && s.flows[rid].RevFound? then
      var f := s.flows[rid];
      if f.sid in s.sessions then Goto(s, rid, RevNext([SnapshotTarget(s, f.sid, ReadBefore)], f.now))
          else Goto(s, rid, Done)
    else s
  }

  // revokeSessionInternal: a missing or already revoked session is skipped.
  function StepRevokeTarget(s: State, rid: RequestId, ok: bool): State {
    if rid in s.flows && s.flows[rid].RevNext? then
      var f := s.flows[rid];
      if f.todo == [] then Goto(s, rid, Done)
      else
        var t := f.todo[0];
        if !ok || t.session !in s.sessions || !s.sessions[t.session].CanRevoke()
        then Goto(s, rid, RevNext(f.todo[1..], f.now))
        else
          Goto(s, rid, RevTrl(t, f.todo[1..], f.now))
          .(sessions := RevokeIfActive(s.sessions, t.session, f.now))
    else s
  }

  function StepWriteTrl(c: Config, s: State, rid: RequestId, clock: Time, ok: bool): State {
    if rid in s.flows && s.flows[rid].RevTrl? then
      var f := s.flows[rid];
      if f.target.jti.None? then Goto(s, rid, RevDelete(f.target.session, f.todo, f.now))
      else if ok then
        Goto(s, rid, RevDelete(f.target.session, f.todo, f.now))
        .(trl := s.trl[f.target.jti.value := clock + c.tokenTtl])
      else if c.failOnTrlError then Goto(s, rid, RevNext(f.todo, f.now))
      else Goto(s, rid, RevDelete(f.target.session, f.todo, f.now))
    else s
  }

  function StepDeleteTokens(s: State, rid: RequestId, ok: bool): State {
    if rid in s.flows && s.flows[rid].RevDelete? then
      var f := s.flows[rid];
      var s1 := Goto(s, rid, RevNext(f.todo, f.now));
      if ok then s1.(tokens := map t | t in s.tokens && s.tokens[t].session != f.sid :: s.tokens[t]) else s1
    else s
  }

  // ----- the cleanup worker -----

  function StepCleanCodes(s: State, now: Time): State {
    s.(codes := map k | k in s.codes && s.codes[k].expiresAt >= now :: s.codes[k])
  }

  function StepCleanTokens(s: State, now: Time): State {
    s.(tokens := map t | t in s.tokens && s.tokens[t].expiresAt >= now :: s.tokens[t])
  }

  function StepCleanUsedTokens(s: State): State {
    s.(tokens := map t | t in s.tokens && !s.tokens[t].used :: s.tokens[t])
  }

  function StepCleanSessions(c: Config, s: State, now: Time): State {
    RemoveSessions(c, s, set sid | sid in s.sessions && s.sessions[sid].expiresAt < now)
  }

  // ----- runs -----

  function StepToken(c: Config, s: State, rid: RequestId, t: TokenAction): State {
    match t
    case BeginToken(req) => Begin(s, rid, TokStart(req))
    case FindCredential => StepFindCredential(s, rid)
    case FindSession => StepFindSession(s, rid)
    case Prepare(ctx, clientActive, token, jti) => StepPrepare(c, s, rid, ctx, clientActive, token, jti)
    case Consume => StepConsume(s, rid)
    case ReplayRevoke => StepReplayRevoke(s, rid)
    case AdvanceSession => StepAdvanceSession(c, s, rid)
    case CreateToken => StepCreateToken(c, s, rid)
  }

  function StepAccount(c: Config, s: State, rid: RequestId, u: AccountAction): State {
    match u
    case BeginAuthorize(p) => StepBeginAuthorize(s, rid, p)
    case FindOrCreateUser(pick) => StepFindOrCreateUser(s, rid, pick)
    case CreateSession(sid) => StepCreateSession(c, s, rid, sid)
    case CreateCode(code) => StepCreateCode(c, s, rid, code)
    case BeginDelete(user) => StepBeginDelete(s, rid, user)
    case DeleteSessions => StepDeleteSessions(c, s, rid)
    case DeleteUserRow => StepDeleteUserRow(c, s, rid)
  }

  function StepRevoke(c: Config, s: State, rid: RequestId, v: RevokeAction): State {
    match v
    case BeginRevoke(user, sid, now) => Begin(s, rid, RevExecute(user, sid, now))
    case ExecuteRevoke => StepExecuteRevoke(s, rid)
    case BeginLogoutAll(user, keep, order, now) => StepBeginLogoutAll(s, rid, user, keep, order, now)
    case ResolveAccess(sid, jti, now) => StepResolveAccess(s, rid, sid, jti, now)
    case ResolveRefresh(token, now) => StepResolveRefresh(s, rid, token, now)
    case ResolveSession => StepResolveSession(s, rid)
    case RevokeTarget(ok) => StepRevokeTarget(s, rid, ok)
    case WriteTrl(clock, ok) => StepWriteTrl(c, s, rid, clock, ok)
    case DeleteTokens(ok) => StepDeleteTokens(s, rid, ok)
  }

  function StepTx(c: Config, s: State, rid: RequestId, x: TxAction): State {
    match x
    case Acquire => StepAcquire(c, s, rid)
    case Release => StepRelease(s, rid)
    case Fail => StepFail(s, rid)
  }

  function StepCleanup(c: Config, s: State, k: CleanupAction): State {
    match k
    case CleanCodes(now) => StepCleanCodes(s, now)
    case CleanTokens(now) => StepCleanTokens(s, now)
    case CleanUsedTokens => StepCleanUsedTokens(s)
    case CleanSessions(now) => StepCleanSessions(c, s, now)
  }

  function Step(c: Config, s: State, a: Action): State {
    match a
    case OnToken(rid, t) => StepToken(c, s, rid, t)
    case OnAccount(rid, u) => StepAccount(c, s, rid, u)
    case OnRevoke(rid, v) => StepRevoke(c, s, rid, v)
    case OnTx(rid, x) => StepTx(c, s, rid, x)
    case OnCleanup(k) => StepCleanup(c, s, k)
  }

  function Run(c: Config, s: State, acts: seq<Action>): State
    decreases |acts|
  {
    if acts == [] then s else Run(c, Step(c, s, acts[0]), acts[1..])
  }

  // The service starts with some users and nothing else.
  function Init(users: map<UserId, User>): State {
    State(users, map[], map[], map[], map[], None, map[], History(map[], map[], map[], map[]), users.Keys)
  }

  ghost predicate Reachable(c: Config, s: State) {
    exists users, acts :: s == Run(c, Init(users), acts)
  }
}
