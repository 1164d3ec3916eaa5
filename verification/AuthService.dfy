/** The auth service as an object over its stores, one call at a time. Its ghost
    state m is the step machine's: every call is proved to be a run of the
    machine's steps, so what holds of all runs holds of the service. */
module AuthService {
  import opened Common
  import opened AuthModels
  import opened TokenProtocol
  import opened AuthRuns
  import opened AuthAnswers

  class Service {
    const c: Config
    var users: map<UserId, User>
    var sessions: map<SessionId, Session>
    var codes: map<CodeId, AuthorizationCode>
    var tokens: map<TokenId, RefreshToken>
    var trl: map<Jti, Time>
    ghost var m: State

    constructor (c: Config, users: map<UserId, User>)
      ensures Valid() && this.c == c && m == Init(users)
    {
      this.c := c;
      this.users := users;
      sessions, codes, tokens, trl := map[], map[], map[], map[];
      m := Init(users);
      new;
      assert Run(c, Init(users), []) == Init(users);
    }

    ghost predicate Linked()
      reads this
    {
      m.users == users && m.sessions == sessions && m.codes == codes && m.tokens == tokens && m.trl == trl
    }

    ghost predicate Valid()
      reads this
    {
      Linked() && m.lock.None? && Reachable(c, m)
    }

    // The stores and the logs are still those of s0.
    ghost predicate Untouched(s0: State)
      reads this
    {
      && users == s0.users && sessions == s0.sessions && codes == s0.codes && tokens == s0.tokens && trl == s0.trl
      && m.h.logs == s0.h.logs
    }

    ghost predicate At(rid: RequestId, f: Flow)
      reads this
    {
      rid in m.flows && m.flows[rid] == f
    }

    // ----- before the transaction -----

    method ReadCredential(ghost rid: RequestId, req: TokenRequest) returns (sid: Option<SessionId>)
      requires Linked() && At(rid, TokStart(req))
      modifies this`m
      ensures Linked() && Reaches(c, old(m), m) && m.lock == old(m).lock && m.h == old(m).h
      ensures sid == CredentialSession(old(m), req.cred)
      ensures At(rid, if sid.Some? then TokFound(req, sid.value) else Done)
    {
      TokenReaches(c, m, rid, FindCredential);
      match req.cred {
        case CodeCred(k) => sid := if k in codes then Some(codes[k].session) else None;
        case TokenCred(t) => sid := if t in tokens then Some(tokens[t].session) else None;
      }
      m := StepFindCredential(m, rid);
    }

    method ReadSession(ghost rid: RequestId, req: TokenRequest, sid: SessionId) returns (snap: Option<Session>)
      requires Linked() && At(rid, TokFound(req, sid))
      modifies this`m
      ensures Linked() && Reaches(c, old(m), m) && m.lock == old(m).lock && m.h == old(m).h
      ensures snap == if sid in sessions then Some(sessions[sid]) else None
      ensures At(rid, if snap.Some? then TokSnapshot(req, sid, snap.value) else Done)
    {
      TokenReaches(c, m, rid, FindSession);
      snap := if sid in sessions then Some(sessions[sid]) else None;
      m := StepFindSession(m, rid);
    }

    // resolveTokenContext, the client check, generateTokenArtifacts
    method PrepareTokenFlow(ghost rid: RequestId, req: TokenRequest, sid: SessionId, snap: Session,
                            ctx: TokenContext, active: bool, token: TokenId, jti: Jti) returns (art: Option<Artifacts>)
      requires Linked() && At(rid, TokSnapshot(req, sid, snap)) && token !in m.h.tokenOf && jti !in m.h.jtiOf
      modifies this`m
      ensures Linked() && Reaches(c, old(m), m) && m.lock == old(m).lock && m.h.logs == old(m).h.logs
      ensures art == if ContextAccepted(c, old(m), snap, ctx, active)
                then Some(Generate(c, req, sid, snap, token, jti)) else None
      ensures At(rid, if art.Some? then TokReady(req, sid, snap, ctx, art.value) else Done)
    {
      TokenReaches(c, m, rid, Prepare(ctx, active, token, jti));
      art := None;
      if ctx.client == snap.client && ctx.tenant == snap.tenant && snap.user in users && users[snap.user].active
          && active
         && snap.scopes != [] && c.refreshTtl >= 0
      {
        art := Some(Generate(c, req, sid, snap, token, jti));
      }
      m := StepPrepare(c, m, rid, ctx, active, token, jti);
    }

    method BeginRequest(ghost rid: RequestId, req: TokenRequest)
      requires Linked() && rid !in m.flows
      modifies this`m
      ensures Linked() && Reaches(c, old(m), m) && m.lock == old(m).lock && m.h == old(m).h && At(rid, TokStart(req))
    {
      TokenReaches(c, m, rid, BeginToken(req));
      m := Begin(m, rid, TokStart(req));
    }

    method PreRead(ghost rid: RequestId, req: TokenRequest) returns (r: Option<(SessionId, Session)>)
      requires Linked() && rid !in m.flows
      modifies this`m
      ensures Linked() && Reaches(c, old(m), m) && m.lock == old(m).lock && m.h == old(m).h
      ensures r == match CredentialSession(old(m), req.cred)
                   case None => None
                   case Some(sid) => if sid in sessions then Some((sid, sessions[sid])) else None
      ensures At(rid, if r.Some? then TokSnapshot(req, r.value.0, r.value.1) else Done)
    {
      ghost var s0 := m;
      BeginRequest(rid, req);
      ghost var s1 := m;
      var sid := ReadCredential(rid, req);
      ReachesTrans(c, s0, s1, m);
      if sid.None? {
        return None;
      }
      ghost var s2 := m;
      var snap := ReadSession(rid, req, sid.value);
      ReachesTrans(c, s0, s2, m);
      r := if snap.Some? then Some((sid.value, snap.value)) else None;
    }

    // The reads before the transaction, and what they are checked for.
    method PrepareRequest(ghost rid: RequestId, req: TokenRequest, ctx: TokenContext, active: bool, token: TokenId,
                          jti: Jti)
      returns (r: Option<Prepared>)
      requires Linked() && rid !in m.flows && token !in m.h.tokenOf && jti !in m.h.jtiOf
      modifies this`m
      ensures Linked() && Reaches(c, old(m), m) && m.lock == old(m).lock && m.h.logs == old(m).h.logs
      ensures r.Some? <==> Prepares(c, old(m), req, ctx, active)
      ensures r.Some? ==> && CredentialSession(old(m), req.cred) == Some(r.value.sid)
                          && r.value.sid in sessions && r.value.snap == sessions[r.value.sid]
                          && r.value.art == Generate(c, req, r.value.sid, r.value.snap, token, jti)
      ensures At(rid, if r.Some? then TokReady(req, r.value.sid, r.value.snap, ctx, r.value.art) else Done)
    {
      ghost var s0 := m;
      var found := PreRead(rid, req);
      if found.None? {
        return None;
      }
      ghost var s1 := m;
      var art := PrepareTokenFlow(rid, req, found.value.0, found.value.1, ctx, active, token, jti);
      ReachesTrans(c, s0, s1, m);
      r := if art.Some? then Some(Prepared(found.value.0, found.value.1, art.value)) else None;
    }

    // ----- inside the transaction -----

    // A write that fails: the request stops and nothing is undone.
    method Fail(ghost rid: RequestId)
      requires Linked() && rid in m.flows
      modifies this`m
      ensures Linked() && Reaches(c, old(m), m) && m.lock == old(m).lock && m.h == old(m).h && At(rid, Done)
    {
      TxReaches(c, m, rid, TxAction.Fail);
      m := StepFail(m, rid);
    }

    // The exchange then writes the resolved tenant into its copy of the session, which has it already.
    method ConsumeCode(ghost rid: RequestId, k: CodeId, req: TokenRequest, sid: SessionId, snap: Session,
                       ctx: TokenContext, art: Artifacts) returns (res: Consumption)
      requires Linked() && req.cred == CodeCred(k) && At(rid, TokConsume(req, sid, snap, ctx, art))
      requires snap.tenant == ctx.tenant
      modifies this`m, this`codes
      ensures Linked() && Reaches(c, old(m), m) && m.lock == old(m).lock && m.h == old(m).h
      ensures res == ConsumptionOf(old(m), req)
      ensures codes == if res.Consumed? then SpentCodes(old(codes), req.cred) else old(codes)
      ensures At(rid, match res
                      case Consumed => TokAdvance(req, sid, snap, ctx, art)
                      case Replayed(session) => TokReplay(req, session)
                      case Refused => Done)
    {
      ghost var f := m.flows[rid];
      assert snap.(tenant := ctx.tenant) == snap;
      TokenReaches(c, m, rid, Consume);
      m := StepConsumeCode(m, rid, f, k);
      if k !in codes {
        return Refused;
      }
      var record := codes[k];
      match record.ValidateForConsume(req.redirectUri, req.now) {
        case None =>
          codes := codes[k := record.MarkUsed()];
          res := Consumed;
        case Some(err) => res := if err.AlreadyUsed? then Replayed(record.session) else Refused;
      }
    }

    method ConsumeRefreshToken(ghost rid: RequestId, t: TokenId, req: TokenRequest, sid: SessionId, snap: Session,
                               ctx: TokenContext, art: Artifacts) returns (res: Consumption)
      requires Linked() && req.cred == TokenCred(t) && At(rid, TokConsume(req, sid, snap, ctx, art))
      modifies this`m, this`tokens
      ensures Linked() && Reaches(c, old(m), m) && m.lock == old(m).lock && m.h == old(m).h
      ensures res == ConsumptionOf(old(m), req)
      ensures tokens == if res.Consumed? then SpentTokens(old(tokens), req.cred, req.now) else old(tokens)
      ensures At(rid, match res
                      case Consumed => TokAdvance(req, sid, snap, ctx, art)
                      case Replayed(session) => TokReplay(req, session)
                      case Refused => Done)
    {
      ghost var f := m.flows[rid];
      TokenReaches(c, m, rid, Consume);
      m := StepConsumeRefresh(m, rid, f, t);
      if t !in tokens {
        return Refused;
      }
      var record := tokens[t];
      match record.ValidateForConsume(req.now) {
        case None =>
          tokens := tokens[t := record.MarkUsed(req.now)];
          res := Consumed;
        case Some(err) => res := if err.AlreadyUsed? then Replayed(record.session) else Refused;
      }
    }

    method RevokeSessionIfActive(sid: SessionId, now: Time, findOk: bool, writeOk: bool) returns (answer: RevokeAnswer)
      modifies this`sessions
      ensures sessions == if answer.Written? then RevokeIfActive(old(sessions), sid, now) else old(sessions)
      ensures answer.Written? <==> findOk && writeOk && sid in old(sessions) && old(sessions)[sid].CanRevoke()
      ensures answer.WasRevoked? <==> findOk && sid in old(sessions) && !old(sessions)[sid].CanRevoke()
      ensures answer.NotFound? <==> findOk && sid !in old(sessions)
    {
      if !findOk {
        return StoreError;
      }
      if sid !in sessions {
        return NotFound;
      }
      if !sessions[sid].CanRevoke() {
        return WasRevoked;
      }
      if !writeOk {
        return StoreError;
      }
      sessions := sessions[sid := sessions[sid].ApplyRevocation(now)];
      answer := Written;
    }

    method RevokeSessionOnReplay(ghost rid: RequestId, req: TokenRequest, sid: SessionId, ok: bool)
      requires Linked() && At(rid, TokReplay(req, sid))
      modifies this`m, this`sessions
      ensures Linked() && Reaches(c, old(m), m) && At(rid, Done) && m.lock == old(m).lock && m.h == old(m).h
      ensures sessions == if ok then RevokeIfActive(old(sessions), sid, req.now) else old(sessions)
    {
      if !ok {
        Fail(rid);
        return;
      }
      TokenReaches(c, m, rid, ReplayRevoke);
      var _ := RevokeSessionIfActive(sid, req.now, true, true);
      m := StepReplayRevoke(m, rid);
    }

    // The Execute call of executeTokenFlowTx; ok says whether its write succeeds.
    method AdvanceSessionTx(ghost rid: RequestId, req: TokenRequest, sid: SessionId, snap: Session,
                            ctx: TokenContext, art: Artifacts, ok: bool) returns (scope: Option<seq<string>>)
      requires Linked() && At(rid, TokAdvance(req, sid, snap, ctx, art))
      modifies this`m, this`sessions
      ensures Linked() && Reaches(c, old(m), m) && m.lock == old(m).lock
      ensures scope.Some? <==> Advances(old(sessions), req, sid, ctx) && ok
      ensures if scope.None? then At(rid, Done) && m.h == old(m).h && sessions == old(sessions)
              else var f, sess := TokAdvance(req, sid, snap, ctx, art), old(sessions)[sid];
                   var g := GrantOf(rid, f, sess);
                   && g.scope == scope.value && At(rid, TokCreate(req, sid, g, art.record))
                       && m.h == LogAdvance(old(m).h, sid, g)
                   && sessions == old(sessions)[sid := Advanced(c, f, sess)]
    {
      if !ok {
        Fail(rid);
        return None;
      }
      TokenReaches(c, m, rid, AdvanceSession);
      m := StepAdvanceSession(c, m, rid);
      if sid !in sessions {
        return None;
      }
      var sess := sessions[sid];
      if sess.ValidateForAdvance(ctx.client, req.now, req.cred.CodeCred?).Some? {
        return None;
      }
      // the mutation callback, on the session as it is stored
      var device := ApplyDeviceBinding(c.deviceBinding, snap, req.cookie, req.fingerprint);
      var updated := sess;
      if req.cred.CodeCred? {
        updated := updated.RecordActivity(req.now);
        if updated.status.PendingConsent? {
          updated := updated.ApplyActivation();
        }
      } else {
        updated := updated.RecordRefresh(req.now);
      }
      updated := updated.ApplyTokenJti(art.jti).ApplyDeviceInfo(device.deviceId, device.fingerprint);
      sessions := sessions[sid := updated];
      scope := Some(sess.scopes);
    }

    method CreateRefreshToken(ghost rid: RequestId, req: TokenRequest, sid: SessionId, ghost g: Grant,
                              token: TokenId, record: RefreshToken, ok: bool)
      requires Linked() && At(rid, TokCreate(req, sid, g, record)) && g.token == token && sid in sessions
      modifies this`m, this`tokens
      ensures Linked() && Reaches(c, old(m), m) && At(rid, Done) && m.lock == old(m).lock
      ensures tokens == if ok then old(tokens)[token := record] else old(tokens)
      ensures m.h == if ok then LogResponse(old(m).h, sid, g) else old(m).h
    {
      if !ok {
        Fail(rid);
        return;
      }
      TokenReaches(c, m, rid, CreateToken);
      tokens := tokens[token := record];
      m := StepCreateToken(c, m, rid);
    }

    /** executeTokenFlowTx: nothing is undone when storing the refresh token
        fails, so the session step stays and there is no answer. */
    method ExecuteTokenFlowTx(ghost rid: RequestId, req: TokenRequest, sid: SessionId, snap: Session,
                              ctx: TokenContext, art: Artifacts, w: TokenWorld)
      returns (r: Option<TokenResult>)
      requires Linked() && At(rid, TokAdvance(req, sid, snap, ctx, art))
      modifies this`m, this`sessions, this`tokens
      ensures Linked() && Reaches(c, old(m), m) && At(rid, Done) && m.lock == old(m).lock
      ensures r.Some? <==> Advances(old(sessions), req, sid, ctx) && w.advances && w.stores
      ensures if !(Advances(old(sessions), req, sid, ctx) && w.advances)
              then m.h == old(m).h && sessions == old(sessions) && tokens == old(tokens)
              else var f, sess := TokAdvance(req, sid, snap, ctx, art), old(sessions)[sid];
                   var g := GrantOf(rid, f, sess);
                   && sessions == old(sessions)[sid := Advanced(c, f, sess)]
                   && (if w.stores
                       then && r == Some(ResultOf(g)) && tokens == old(tokens)[art.token := art.record]
                            && m.h == LogResponse(LogAdvance(old(m).h, sid, g), sid, g)
                       else tokens == old(tokens) && m.h == LogAdvance(old(m).h, sid, g))
    {
      ghost var s0, before := m, sessions;
      var scope := AdvanceSessionTx(rid, req, sid, snap, ctx, art, w.advances);
      if scope.None? {
        return None;
      }
      ghost var s1 := m;
      ghost var g := GrantOf(rid, TokAdvance(req, sid, snap, ctx, art), before[sid]);
      CreateRefreshToken(rid, req, sid, g, art.token, art.record, w.stores);
      ReachesTrans(c, s0, s1, m);
      r := if w.stores then Some(TokenResult(art.token, art.jti, art.claims, scope.value)) else None;
    }

    // What the body of the transaction does once its credential has been looked at.
    method FinishTx(ghost rid: RequestId, res: Consumption, req: TokenRequest, sid: SessionId, snap: Session,
                    ctx: TokenContext, art: Artifacts, w: TokenWorld)
      returns (r: Option<TokenResult>)
      requires Linked() && rid in m.flows
      requires At(rid, match res
                       case Consumed => TokAdvance(req, sid, snap, ctx, art)
                       case Replayed(session) => TokReplay(req, session)
                       case Refused => Done)
      modifies this`m, this`sessions, this`tokens
      ensures Linked() && Reaches(c, old(m), m) && At(rid, Done) && m.lock == old(m).lock
      ensures users == old(users) && codes == old(codes) && trl == old(trl)
      ensures Ends(c, old(m), m, rid, req, sid, TokAdvance(req, sid, snap, ctx, art), w, res, r)
    {
      r := None;
      match res {
        case Refused => ReachesSelf(c, m);
        case Replayed(session) => RevokeSessionOnReplay(rid, req, session, w.revokes);
        case Consumed => r := ExecuteTokenFlowTx(rid, req, sid, snap, ctx, art, w);
      }
    }

    // RunInTx, around the body.
    method EnterTx(ghost rid: RequestId, ghost f: Flow)
      requires Linked() && At(rid, f) && WaitsForMutex(f) && m.lock.None?
      modifies this`m
      ensures Linked() && Reaches(c, old(m), m) && At(rid, Entered(f)) && m.h == old(m).h
      ensures m.everUsers == old(m).everUsers
      ensures m.lock == if c.mutex then Some(rid) else None
    {
      TxReaches(c, m, rid, Acquire);
      m := StepAcquire(c, m, rid);
    }

    method LeaveTx(ghost rid: RequestId)
      requires Linked() && At(rid, Done) && m.lock == if c.mutex then Some(rid) else None
      modifies this`m
      ensures Linked() && m.lock.None? && m.h == old(m).h && Reaches(c, old(m), m)
    {
      TxReaches(c, m, rid, Release);
      m := StepRelease(m, rid);
    }

    // The body of the transaction of an exchange; s0 is the state before the request.
    method ExchangeBody(ghost rid: RequestId, code: CodeId, req: TokenRequest, ctx: TokenContext, p: Prepared,
                        w: TokenWorld, ghost s0: State, ghost jti: Jti) returns (r: Option<TokenResult>)
      requires Linked() && req.cred == CodeCred(code) && At(rid, TokConsume(req, p.sid, p.snap, ctx, p.art))
      requires Untouched(s0)
      requires p.sid in s0.sessions && p.sid in s0.h.logs && p.snap == s0.sessions[p.sid] && p.snap.tenant == ctx.tenant
      requires CredentialSession(s0, req.cred) == Some(p.sid)
      requires p.art == Generate(c, req, p.sid, p.snap, p.art.token, jti)
      requires w.consumes
      modifies this`m, this`sessions, this`codes, this`tokens
      ensures Linked() && Reaches(c, old(m), m) && At(rid, Done) && m.lock == old(m).lock
      ensures Finished(c, s0, m, rid, req, ctx, p.sid, p.art.token, jti, w, r)
    {
      ghost var s1 := m;
      assert ConsumptionOf(s1, req) == ConsumptionOf(s0, req);
      assert TokAdvance(req, p.sid, p.snap, ctx, p.art) ==
          StepOf(c, req, p.sid, s0.sessions[p.sid], ctx, p.art.token, jti);
      assert SpentTokens(s0.tokens, req.cred, req.now) == s0.tokens;
      var res := ConsumeCode(rid, code, req, p.sid, p.snap, ctx, p.art);
      ghost var s2 := m;
      r := FinishTx(rid, res, req, p.sid, p.snap, ctx, p.art, w);
      ReachesTrans(c, s1, s2, m);
      EndsFinished(c, s0, s2, m, rid, req, ctx, p.sid, p.art.token, jti, w, res, r);
    }

    method ExchangeTx(ghost rid: RequestId, code: CodeId, req: TokenRequest, ctx: TokenContext, p: Prepared,
                      w: TokenWorld, ghost s0: State, ghost jti: Jti) returns (r: Option<TokenResult>)
      requires Linked() && req.cred == CodeCred(code) && At(rid, TokReady(req, p.sid, p.snap, ctx, p.art))
      requires Untouched(s0) && m.lock.None?
      requires p.sid in s0.sessions && p.sid in s0.h.logs && p.snap == s0.sessions[p.sid] && p.snap.tenant == ctx.tenant
      requires CredentialSession(s0, req.cred) == Some(p.sid)
      requires p.art == Generate(c, req, p.sid, p.snap, p.art.token, jti)
      modifies this`m, this`sessions, this`codes, this`tokens
      ensures Linked() && Reaches(c, old(m), m) && m.lock.None?
      ensures Finished(c, s0, m, rid, req, ctx, p.sid, p.art.token, jti, w, r)
    {
      ghost var s1 := m;
      EnterTx(rid, TokReady(req, p.sid, p.snap, ctx, p.art));
      ghost var s2 := m;
      if w.consumes {
        r := ExchangeBody(rid, code, req, ctx, p, w, s0, jti);
      } else {
        Fail(rid);
        r := None;
      }
      ReachesTrans(c, s1, s2, m);
      ghost var s3 := m;
      LeaveTx(rid);
      ReachesTrans(c, s1, s3, m);
    }

    /** exchangeAuthorizationCode: a run of the machine's steps that takes exactly
        the course told from the state before it, and leaves and answers what
        that course says: tokens when credential, session and all writes are
        good; a step without an answer when only storing the refresh token fails. */
    method ExchangeAuthorizationCode(ghost rid: RequestId, code: CodeId, req: TokenRequest, ctx: TokenContext,
                                     active: bool, token: TokenId, jti: Jti, w: TokenWorld)
      returns (r: Option<TokenResult>)
      requires Valid() && req.cred == CodeCred(code) && rid !in m.flows && token !in m.h.tokenOf && jti !in m.h.jtiOf
      modifies this
      ensures Valid() && Reaches(c, old(m), m)
      ensures Served(c, old(m), m, rid, req, ctx, token, jti, w, CourseOf(c, old(m), req, ctx, active, w), r)
      ensures r.Some? <==> exists sid :: Answerable(c, old(m), req, ctx, active, w, sid)
    {
      ghost var s0 := m;
      var p := PrepareRequest(rid, req, ctx, active, token, jti);
      if p.Some? {
        CredentialLogged(c, s0, req.cred);
        ghost var s1 := m;
        r := ExchangeTx(rid, code, req, ctx, p.value, w, s0, jti);
        ReachesTrans(c, s0, s1, m);
        FinishedServed(c, s0, m, rid, req, ctx, active, token, jti, w, r);
      } else {
        r := None;
      }
      AnsweredIff(c, s0, req, ctx, active, w);
      ReachesReachable(c, s0, m);
    }

    // The body of the transaction of a refresh; s0 is the state before the request.
    method RefreshBody(ghost rid: RequestId, refresh: TokenId, req: TokenRequest, ctx: TokenContext, p: Prepared,
                       w: TokenWorld, ghost s0: State, ghost jti: Jti) returns (r: Option<TokenResult>)
      requires Linked() && req.cred == TokenCred(refresh) && At(rid, TokConsume(req, p.sid, p.snap, ctx, p.art))
      requires Untouched(s0)
      requires p.sid in s0.sessions && p.sid in s0.h.logs && p.snap == s0.sessions[p.sid] && p.snap.tenant == ctx.tenant
      requires CredentialSession(s0, req.cred) == Some(p.sid)
      requires p.art == Generate(c, req, p.sid, p.snap, p.art.token, jti)
      requires w.consumes
      modifies this`m, this`sessions, this`codes, this`tokens
      ensures Linked() && Reaches(c, old(m), m) && At(rid, Done) && m.lock == old(m).lock
      ensures Finished(c, s0, m, rid, req, ctx, p.sid, p.art.token, jti, w, r)
    {
      ghost var s1 := m;
      assert ConsumptionOf(s1, req) == ConsumptionOf(s0, req);
      assert TokAdvance(req, p.sid, p.snap, ctx, p.art) ==
          StepOf(c, req, p.sid, s0.sessions[p.sid], ctx, p.art.token, jti);
      var res := ConsumeRefreshToken(rid, refresh, req, p.sid, p.snap, ctx, p.art);
      ghost var s2 := m;
      r := FinishTx(rid, res, req, p.sid, p.snap, ctx, p.art, w);
      ReachesTrans(c, s1, s2, m);
      EndsFinished(c, s0, s2, m, rid, req, ctx, p.sid, p.art.token, jti, w, res, r);
    }

    method RefreshTx(ghost rid: RequestId, refresh: TokenId, req: TokenRequest, ctx: TokenContext, p: Prepared,
                     w: TokenWorld, ghost s0: State, ghost jti: Jti) returns (r: Option<TokenResult>)
      requires Linked() && req.cred == TokenCred(refresh) && At(rid, TokReady(req, p.sid, p.snap, ctx, p.art))
      requires Untouched(s0) && m.lock.None?
      requires p.sid in s0.sessions && p.sid in s0.h.logs && p.snap == s0.sessions[p.sid] && p.snap.tenant == ctx.tenant
      requires CredentialSession(s0, req.cred) == Some(p.sid)
      requires p.art == Generate(c, req, p.sid, p.snap, p.art.token, jti)
      modifies this`m, this`sessions, this`codes, this`tokens
      ensures Linked() && Reaches(c, old(m), m) && m.lock.None?
      ensures Finished(c, s0, m, rid, req, ctx, p.sid, p.art.token, jti, w, r)
    {
      ghost var s1 := m;
      EnterTx(rid, TokReady(req, p.sid, p.snap, ctx, p.art));
      ghost var s2 := m;
      if w.consumes {
        r := RefreshBody(rid, refresh, req, ctx, p, w, s0, jti);
      } else {
        Fail(rid);
        r := None;
      }
      ReachesTrans(c, s1, s2, m);
      ghost var s3 := m;
      LeaveTx(rid);
      ReachesTrans(c, s1, s3, m);
    }

    /** refreshWithRefreshToken: the same for a refresh token. */
    method RefreshWithRefreshToken(ghost rid: RequestId, refresh: TokenId, req: TokenRequest, ctx: TokenContext,
                                   active: bool, token: TokenId, jti: Jti, w: TokenWorld)
      returns (r: Option<TokenResult>)
      requires Valid() && req.cred == TokenCred(refresh) && rid !in m.flows && token !in m.h.tokenOf
      requires jti !in m.h.jtiOf
      modifies this
      ensures Valid() && Reaches(c, old(m), m)
      ensures Served(c, old(m), m, rid, req, ctx, token, jti, w, CourseOf(c, old(m), req, ctx, active, w), r)
      ensures r.Some? <==> exists sid :: Answerable(c, old(m), req, ctx, active, w, sid)
    {
      ghost var s0 := m;
      var p := PrepareRequest(rid, req, ctx, active, token, jti);
      if p.Some? {
        CredentialLogged(c, s0, req.cred);
        ghost var s1 := m;
        r := RefreshTx(rid, refresh, req, ctx, p.value, w, s0, jti);
        ReachesTrans(c, s0, s1, m);
        FinishedServed(c, s0, m, rid, req, ctx, active, token, jti, w, r);
      } else {
        r := None;
      }
      AnsweredIff(c, s0, req, ctx, active, w);
      ReachesReachable(c, s0, m);
    }

    // ----- revocation -----

    // The write to the revocation list; false when its failure is fatal.
    method ListRevokedToken(ghost rid: RequestId, jti: Option<Jti>, ghost target: Target, ghost todo: seq<Target>,
                            ghost now: Time, clock: Time, ok: bool) returns (go: bool)
      requires Linked() && At(rid, RevTrl(target, todo, now)) && target.jti == jti
      modifies this`m, this`trl
      ensures Linked() && Reaches(c, old(m), m) && m.lock == old(m).lock
      ensures At(rid, if go then RevDelete(target.session, todo, now) else RevNext(todo, now))
      ensures !go <==> jti.Some? && !ok && c.failOnTrlError
      ensures trl == if jti.Some? && ok then old(trl)[jti.value := clock + c.tokenTtl] else old(trl)
    {
      RevokeReaches(c, m, rid, WriteTrl(clock, ok));
      m := StepWriteTrl(c, m, rid, clock, ok);
      go := true;
      if jti.Some? {
        if ok {
          trl := trl[jti.value := clock + c.tokenTtl];
        } else if c.failOnTrlError {
          go := false;
        }
      }
    }

    method DeleteBySessionID(sid: SessionId)
      modifies this`tokens
      ensures tokens == WithoutSession(old(tokens), sid)
    {
      var todo := tokens.Keys;
      while todo != {}
        invariant todo <= old(tokens).Keys
        invariant tokens == map t | t in old(tokens) && (t in todo || old(tokens)[t].session != sid) :: old(tokens)[t]
      {
        var t :| t in todo;
        todo := todo - {t};
        if tokens[t].session == sid {
          tokens := tokens - {t};
        }
      }
    }

    // A failure to delete the refresh tokens is only logged.
    method DeleteRefreshTokens(ghost rid: RequestId, sid: SessionId, ghost todo: seq<Target>, ghost now: Time, ok: bool)
      requires Linked() && At(rid, RevDelete(sid, todo, now))
      modifies this`m, this`tokens
      ensures Linked() && Reaches(c, old(m), m) && m.lock == old(m).lock && At(rid, RevNext(todo, now))
      ensures tokens == if ok then WithoutSession(old(tokens), sid) else old(tokens)
    {
      RevokeReaches(c, m, rid, DeleteTokens(ok));
      if ok {
        DeleteBySessionID(sid);
      }
      m := StepDeleteTokens(m, rid, ok);
    }

    // What follows a revoking write on the sessions before: the access token is listed and the refresh tokens are
    // deleted.
    method FinishRevocation(ghost rid: RequestId, sid: SessionId, jti: Option<Jti>, ghost target: Target,
                            ghost todo: seq<Target>, ghost now: Time, world: RevokeWorld,
                            ghost before: map<SessionId, Session>) returns (go: bool)
      requires Linked() && At(rid, RevTrl(target, todo, now)) && target.session == sid && target.jti == jti
      requires Revokes(before, sid, world)
      modifies this`m, this`trl, this`tokens
      ensures Linked() && Reaches(c, old(m), m) && m.lock == old(m).lock && At(rid, RevNext(todo, now))
      ensures OutcomeOf(c, before, sid, jti, world) == if go then NowRevoked else RevokeFailed
      ensures trl == ListedAfter(c, old(trl), before, sid, jti, world)
      ensures tokens == DeletedAfter(c, old(tokens), before, sid, jti, world)
    {
      ghost var s0 := m;
      go := ListRevokedToken(rid, jti, target, todo, now, world.clock, world.trlOk);
      if go {
        ghost var s1 := m;
        DeleteRefreshTokens(rid, sid, todo, now, world.deleteOk);
        ReachesTrans(c, s0, s1, m);
      }
    }

    method RevokeFirst(ghost rid: RequestId, sid: SessionId, ghost target: Target, ghost todo: seq<Target>, now: Time,
                       world: RevokeWorld) returns (answer: RevokeAnswer)
      requires Linked() && At(rid, RevNext([target] + todo, now)) && target.session == sid
      modifies this`m, this`sessions
      ensures Linked() && Reaches(c, old(m), m) && m.lock == old(m).lock
      ensures At(rid, if answer.Written? then RevTrl(target, todo, now) else RevNext(todo, now))
      ensures sessions == RevokedAfter(old(sessions), sid, now, world)
      ensures answer.Written? <==> Revokes(old(sessions), sid, world)
      ensures answer.WasRevoked? <==> world.findOk && sid in old(sessions) && !old(sessions)[sid].CanRevoke()
    {
      ghost var ok := world.findOk && world.revokeOk;
      assert ([target] + todo)[1..] == todo;
      RevokeReaches(c, m, rid, RevokeTarget(ok));
      answer := RevokeSessionIfActive(sid, now, world.findOk, world.revokeOk);
      m := StepRevokeTarget(m, rid, ok);
    }

    /** revokeSessionInternal on the first of the sessions to revoke: one that is
        already revoked is skipped; a missing one and a failing store call are errors. */
    method RevokeSessionInternal(ghost rid: RequestId, sid: SessionId, jti: Option<Jti>, ghost target: Target,
                                 ghost todo: seq<Target>, now: Time, world: RevokeWorld)
      returns (outcome: RevokeOutcome)
      requires Linked() && At(rid, RevNext([target] + todo, now)) && target.session == sid && target.jti == jti
      modifies this`m, this`sessions, this`trl, this`tokens
      ensures Linked() && At(rid, RevNext(todo, now)) && Reaches(c, old(m), m) && m.lock == old(m).lock
      ensures outcome == OutcomeOf(c, old(sessions), sid, jti, world)
      ensures sessions == RevokedAfter(old(sessions), sid, now, world)
      ensures trl == ListedAfter(c, old(trl), old(sessions), sid, jti, world)
      ensures tokens == DeletedAfter(c, old(tokens), old(sessions), sid, jti, world)
    {
      ghost var s0, before := m, sessions;
      var answer := RevokeFirst(rid, sid, target, todo, now, world);
      if answer.WasRevoked? {
        return AlreadyRevoked;
      }
      if !answer.Written? {
        return RevokeFailed;
      }
      ghost var s1 := m;
      var go := FinishRevocation(rid, sid, jti, target, todo, now, world, before);
      ReachesTrans(c, s0, s1, m);
      outcome := if go then NowRevoked else RevokeFailed;
    }

    // The end of a revocation: nothing is left to revoke.
    method EndRevocation(ghost rid: RequestId, ghost now: Time)
      requires Linked() && At(rid, RevNext([], now))
      modifies this`m
      ensures Linked() && At(rid, Done) && m.lock == old(m).lock && Reaches(c, old(m), m)
    {
      RevokeReaches(c, m, rid, RevokeTarget(true));
      m := StepRevokeTarget(m, rid, true);
    }

    // The Execute call of RevokeSession: ownership and state are checked under the session's lock.
    method ExecuteRevocation(ghost rid: RequestId, user: UserId, sid: SessionId, now: Time, world: RevokeWorld)
      returns (outcome: OwnedOutcome, jti: Option<Jti>, ghost target: Target)
      requires Linked() && At(rid, RevExecute(user, sid, now))
      modifies this`m, this`sessions
      ensures Linked() && Reaches(c, old(m), m) && m.lock == old(m).lock
      ensures outcome == OwnedOutcomeOf(old(sessions), user, sid, world)
      ensures sessions == if outcome.Revoking? then RevokedAfter(old(sessions), sid, now, world) else old(sessions)
      ensures if outcome.Revoking? then && sid in old(sessions) && jti == old(sessions)[sid].lastJti
                                        && target.session == sid && target.jti == jti
                                        && At(rid, RevTrl(target, [], now))
              else At(rid, Done)
    {
      jti := None;
      target := Target(sid, None, ReadAtRevoke, 0);
      if !world.findOk || (sid in sessions && sessions[sid].user == user && !world.revokeOk) {
        Fail(rid);
        outcome := ExecuteFailed;
        return;
      }
      RevokeReaches(c, m, rid, ExecuteRevoke);
      if sid !in sessions {
        outcome := SessionNotFound;
      } else if sessions[sid].user != user {
        outcome := Forbidden;
      } else if sessions[sid].status.Revoked? {
        outcome := NothingToRevoke;
      } else {
        outcome, jti := Revoking, sessions[sid].lastJti;
        target := SnapshotTarget(m, sid, ReadAtRevoke);
        sessions := sessions[sid := sessions[sid].ApplyRevocation(now)];
      }
      m := StepExecuteRevoke(m, rid);
    }

    method BeginOwnedRevocation(ghost rid: RequestId, user: UserId, sid: SessionId, now: Time)
      requires Linked() && rid !in m.flows
      modifies this`m
      ensures Linked() && Reaches(c, old(m), m) && m.lock == old(m).lock && At(rid, RevExecute(user, sid, now))
    {
      RevokeReaches(c, m, rid, BeginRevoke(user, sid, now));
      m := Begin(m, rid, RevExecute(user, sid, now));
    }

    method FinishOwnedRevocation(ghost rid: RequestId, sid: SessionId, jti: Option<Jti>, ghost target: Target,
                                 ghost now: Time, world: RevokeWorld, ghost before: map<SessionId, Session>)
      returns (ok: bool)
      requires Linked() && At(rid, RevTrl(target, [], now)) && target.session == sid && target.jti == jti
      requires Revokes(before, sid, world)
      modifies this`m, this`trl, this`tokens
      ensures Linked() && Reaches(c, old(m), m) && m.lock == old(m).lock
      ensures ok == OutcomeOf(c, before, sid, jti, world).NowRevoked?
      ensures trl == ListedAfter(c, old(trl), before, sid, jti, world)
      ensures tokens == DeletedAfter(c, old(tokens), before, sid, jti, world)
    {
      ghost var s0 := m;
      ok := FinishRevocation(rid, sid, jti, target, [], now, world, before);
      ghost var s1 := m;
      EndRevocation(rid, now);
      ReachesTrans(c, s0, s1, m);
    }

    method OwnedRevocation(ghost rid: RequestId, user: UserId, sid: SessionId, now: Time, world: RevokeWorld)
      returns (outcome: OwnedOutcome, ok: bool)
      requires Linked() && At(rid, RevExecute(user, sid, now))
      modifies this`m, this`sessions, this`trl, this`tokens
      ensures Linked() && Reaches(c, old(m), m) && m.lock == old(m).lock
      ensures outcome == OwnedOutcomeOf(old(sessions), user, sid, world)
      ensures if !outcome.Revoking?
              then && ok == outcome.NothingToRevoke?
                   && sessions == old(sessions) && trl == old(trl) && tokens == old(tokens)
              else var jti := old(sessions)[sid].lastJti;
                   && ok == OutcomeOf(c, old(sessions), sid, jti, world).NowRevoked?
                   && sessions == RevokedAfter(old(sessions), sid, now, world)
                   && trl == ListedAfter(c, old(trl), old(sessions), sid, jti, world)
                   && tokens == DeletedAfter(c, old(tokens), old(sessions), sid, jti, world)
    {
      ghost var s0, before := m, sessions;
      var jti;
      ghost var target;
      outcome, jti, target := ExecuteRevocation(rid, user, sid, now, world);
      ok := outcome.NothingToRevoke?;
      if outcome.Revoking? {
        ghost var s1 := m;
        ok := FinishOwnedRevocation(rid, sid, jti, target, now, world, before);
        ReachesTrans(c, s0, s1, m);
      }
    }

    /** RevokeSession: only the owner's call revokes, and then the access token
        listed is the one the session had when it was revoked and the session's
        refresh tokens are deleted. A session already revoked is no error. What
        success means to the caller: the session is theirs, and it is revoked. */
    method RevokeSession(ghost rid: RequestId, user: UserId, sid: SessionId, now: Time, world: RevokeWorld)
      returns (outcome: OwnedOutcome, ok: bool)
      requires Valid() && rid !in m.flows
      modifies this
      ensures Valid() && Reaches(c, old(m), m)
      ensures ok ==> sid in sessions && sessions[sid].user == user && sessions[sid].status.Revoked?
      ensures outcome.SessionNotFound? <==> world.findOk && sid !in old(sessions)
      ensures outcome.Forbidden? <==> world.findOk && sid in old(sessions) && old(sessions)[sid].user != user
      ensures outcome.NothingToRevoke? <==>
                && world.findOk && world.revokeOk && sid in old(sessions)
                && old(sessions)[sid].user == user && old(sessions)[sid].status.Revoked?
      ensures outcome.Revoking? <==>
                && world.findOk && world.revokeOk && sid in old(sessions)
                && old(sessions)[sid].user == user && !old(sessions)[sid].status.Revoked?
      ensures if !outcome.Revoking?
              then && ok == outcome.NothingToRevoke?
                   && sessions == old(sessions) && trl == old(trl) && tokens == old(tokens)
              else var jti := old(sessions)[sid].lastJti;
                   && ok == OutcomeOf(c, old(sessions), sid, jti, world).NowRevoked?
                   && sessions == RevokedAfter(old(sessions), sid, now, world)
                   && trl == ListedAfter(c, old(trl), old(sessions), sid, jti, world)
                   && tokens == DeletedAfter(c, old(tokens), old(sessions), sid, jti, world)
    {
      ghost var s0 := m;
      BeginOwnedRevocation(rid, user, sid, now);
      ghost var s1 := m;
      outcome, ok := OwnedRevocation(rid, user, sid, now, world);
      OwnedOutcomeIff(s0.sessions, user, sid, world);
      ReachesTrans(c, s0, s1, m);
      ReachesReachable(c, s0, m);
    }

    // The request is about to revoke this one session and list this access token.
    ghost predicate Targets(rid: RequestId, sid: SessionId, jti: Option<Jti>, now: Time)
      reads this
    {
      && rid in m.flows && m.flows[rid].RevNext? && |m.flows[rid].todo| == 1 && m.flows[rid].now == now
      && m.flows[rid].todo[0].session == sid && m.flows[rid].todo[0].jti == jti
    }

    method ResolveByAccessToken(ghost rid: RequestId, sid: SessionId, jti: Jti, now: Time)
      requires Linked() && rid !in m.flows && sid in sessions
      modifies this`m
      ensures Linked() && m.lock == old(m).lock && Reaches(c, old(m), m) && Targets(rid, sid, Some(jti), now)
    {
      RevokeReaches(c, m, rid, ResolveAccess(sid, jti, now));
      m := StepResolveAccess(m, rid, sid, jti, now);
    }

    method FindRefreshToken(ghost rid: RequestId, t: TokenId, now: Time)
      requires Linked() && rid !in m.flows && t in tokens
      modifies this`m
      ensures Linked() && m.lock == old(m).lock && Reaches(c, old(m), m) && At(rid, RevFound(tokens[t].session, now))
    {
      RevokeReaches(c, m, rid, ResolveRefresh(t, now));
      m := StepResolveRefresh(m, rid, t, now);
    }

    method FindItsSession(ghost rid: RequestId, sid: SessionId, now: Time)
      requires Linked() && At(rid, RevFound(sid, now)) && sid in sessions
      modifies this`m
      ensures Linked() && m.lock == old(m).lock && Reaches(c, old(m), m)
      ensures Targets(rid, sid, sessions[sid].lastJti, now)
    {
      RevokeReaches(c, m, rid, ResolveSession);
      m := StepResolveSession(m, rid);
    }

    // resolveTokenToSession: the session a token belongs to, and the access token to list.
    method ResolveToken(ghost rid: RequestId, text: TokenText, hint: Hint, now: Time)
      returns (found: Option<(SessionId, Option<Jti>)>)
      requires Linked() && rid !in m.flows
      modifies this`m
      ensures Linked() && m.lock == old(m).lock && Reaches(c, old(m), m)
      ensures found == Resolution(sessions, tokens, text, hint)
      ensures found.Some? ==> Targets(rid, found.value.0, found.value.1, now)
    {
      ghost var s0 := m;
      if !hint.RefreshHint? && text.claims.Some? {
        var (sid, jti) := text.claims.value;
        if sid in sessions {
          ResolveByAccessToken(rid, sid, jti, now);
          return Some((sid, Some(jti)));
        }
      }
      if !hint.AccessHint? && text.refresh in tokens && tokens[text.refresh].session in sessions {
        var sid := tokens[text.refresh].session;
        FindRefreshToken(rid, text.refresh, now);
        ghost var s1 := m;
        FindItsSession(rid, sid, now);
        ReachesTrans(c, s0, s1, m);
        return Some((sid, sessions[sid].lastJti));
      }
      ReachesSelf(c, m);
      found := None;
    }

    method RevokeResolved(ghost rid: RequestId, sid: SessionId, jti: Option<Jti>, now: Time, world: RevokeWorld)
      returns (outcome: RevokeOutcome)
      requires Linked() && Targets(rid, sid, jti, now)
      modifies this`m, this`sessions, this`trl, this`tokens
      ensures Linked() && m.lock == old(m).lock && Reaches(c, old(m), m)
      ensures outcome == OutcomeOf(c, old(sessions), sid, jti, world)
      ensures sessions == RevokedAfter(old(sessions), sid, now, world)
      ensures trl == ListedAfter(c, old(trl), old(sessions), sid, jti, world)
      ensures tokens == DeletedAfter(c, old(tokens), old(sessions), sid, jti, world)
    {
      ghost var s0, todo := m, m.flows[rid].todo;
      assert todo == [todo[0]] + [];
      outcome := RevokeSessionInternal(rid, sid, jti, todo[0], [], now, world);
      ghost var s1 := m;
      EndRevocation(rid, now);
      ReachesTrans(c, s0, s1, m);
    }

    /** RevokeToken: revokes the session the token resolves to, lists the access
        token that was handed in or else the session's last one, and deletes the
        session's refresh tokens; an unknown token is not an error and changes nothing. */
    method RevokeToken(ghost rid: RequestId, text: TokenText, hint: Hint, now: Time, world: RevokeWorld)
      returns (outcome: Option<RevokeOutcome>)
      requires Valid() && rid !in m.flows
      modifies this
      ensures Valid() && Reaches(c, old(m), m)
      ensures match Resolution(old(sessions), old(tokens), text, hint)
              case None => outcome.None? && sessions == old(sessions) && tokens == old(tokens) && trl == old(trl)
              case Some(found) =>
                && outcome == Some(OutcomeOf(c, old(sessions), found.0, found.1, world))
                && sessions == RevokedAfter(old(sessions), found.0, now, world)
                && trl == ListedAfter(c, old(trl), old(sessions), found.0, found.1, world)
                && tokens == DeletedAfter(c, old(tokens), old(sessions), found.0, found.1, world)
    {
      ghost var s0 := m;
      var found := ResolveToken(rid, text, hint, now);
      outcome := None;
      if found.Some? {
        ghost var s1 := m;
        var one := RevokeResolved(rid, found.value.0, found.value.1, now, world);
        ReachesTrans(c, s0, s1, m);
        outcome := Some(one);
      }
      ReachesReachable(c, s0, m);
    }

    method ListByUser(user: UserId, keep: Option<SessionId>) returns (order: seq<SessionId>)
      requires Linked()
      ensures Lists(m, user, keep, order)
    {
      var todo := sessions.Keys;
      order := [];
      while todo != {}
        invariant todo <= sessions.Keys
        invariant forall i, j :: 0 <= i < j < |order| ==> order[i] != order[j]
        invariant forall sid :: sid in order ==>
                    sid in sessions && sid !in todo && sessions[sid].user == user && keep != Some(sid)
        invariant forall sid :: sid in sessions && sid !in todo && sessions[sid].user == user && keep != Some(sid) ==>
                    sid in order
      {
        var sid :| sid in todo;
        todo := todo - {sid};
        if sessions[sid].user == user && keep != Some(sid) {
          order := order + [sid];
        }
      }
    }

    // The listing of LogoutAll.
    method BeginLogout(ghost rid: RequestId, user: UserId, keep: Option<SessionId>, now: Time)
      returns (order: seq<SessionId>, ghost targets: seq<Target>)
      requires Linked() && rid !in m.flows
      modifies this`m
      ensures Linked() && m.lock == old(m).lock && Reaches(c, old(m), m)
      ensures At(rid, RevNext(targets, now)) && Targeted(sessions, order, targets)
      ensures SetOf(order) == Chosen(sessions, user, keep)
    {
      order := ListByUser(user, keep);
      targets := TargetsOf(m, order);
      RevokeReaches(c, m, rid, BeginLogoutAll(user, keep, order, now));
      m := StepBeginLogoutAll(m, rid, user, keep, order, now);
    }

    // One session of LogoutAll, from the listing made before.
    method LogoutOne(ghost rid: RequestId, sid: SessionId, jti: Option<Jti>, ghost todo: seq<Target>, now: Time,
                     world: RevokeWorld)
      returns (outcome: RevokeOutcome)
      requires Linked() && At(rid, RevNext(todo, now)) && todo != [] && todo[0].session == sid && todo[0].jti == jti
      modifies this`m, this`sessions, this`trl, this`tokens
      ensures Linked() && At(rid, RevNext(todo[1..], now)) && Reaches(c, old(m), m) && m.lock == old(m).lock
      ensures outcome == OutcomeOf(c, old(sessions), sid, jti, world)
      ensures sessions == RevokedAfter(old(sessions), sid, now, world)
      ensures trl == ListedAfter(c, old(trl), old(sessions), sid, jti, world)
      ensures tokens == DeletedAfter(c, old(tokens), old(sessions), sid, jti, world)
    {
      assert todo == [todo[0]] + todo[1..];
      outcome := RevokeSessionInternal(rid, sid, jti, todo[0], todo[1..], now, world);
    }

    // The i-th turn of the loop; s0 is the state at the listing.
    method LogoutNext(ghost rid: RequestId, order: seq<SessionId>, listed: map<SessionId, Session>, i: nat,
                      ghost targets: seq<Target>, now: Time, worlds: Worlds, ghost s0: State, r: LogoutResult)
      returns (r': LogoutResult)
      requires Linked() && i < |order| && listed == s0.sessions && Targeted(listed, order, targets)
      requires At(rid, RevNext(targets[i..], now)) && Reaches(c, s0, m)
      requires LogsOut(c, s0, m, SetOf(order[..i]), worlds, now, r)
      modifies this`m, this`sessions, this`trl, this`tokens
      ensures Linked() && At(rid, RevNext(targets[i + 1..], now)) && Reaches(c, s0, m) && m.lock == old(m).lock
      ensures LogsOut(c, s0, m, SetOf(order[..i + 1]), worlds, now, r')
    {
      ghost var s1 := m;
      SetOfNext(order, i);
      assert targets[i..][1..] == targets[i + 1..];
      var outcome := LogoutOne(rid, order[i], listed[order[i]].lastJti, targets[i..], now, worlds(order[i]));
      ReachesTrans(c, s0, s1, m);
      LogsOutOne(c, s0, s1, m, SetOf(order[..i]), worlds, now, r, order[i], outcome);
      r' := LogoutResult(r.revokedCount + (if outcome.NowRevoked? then 1 else 0),
                         r.failedCount + (if outcome.RevokeFailed? then 1 else 0));
    }

    // An error of one revocation is counted, and the loop goes on.
    method LogoutEach(ghost rid: RequestId, order: seq<SessionId>, ghost targets: seq<Target>, now: Time,
                      worlds: Worlds) returns (r: LogoutResult)
      requires Linked() && At(rid, RevNext(targets, now)) && Targeted(sessions, order, targets)
      modifies this`m, this`sessions, this`trl, this`tokens
      ensures Linked() && At(rid, RevNext([], now)) && m.lock == old(m).lock && Reaches(c, old(m), m)
      ensures LogsOut(c, old(m), m, SetOf(order), worlds, now, r)
    {
      var listed := sessions;
      r := LogoutResult(0, 0);
      ReachesSelf(c, m);
      NobodyLogsOut(c, m, m, worlds, now);
      assert order[..0] == [] && targets[0..] == targets;
      for i := 0 to |order|
        invariant Linked() && At(rid, RevNext(targets[i..], now)) && m.lock == old(m).lock && Reaches(c, old(m), m)
        invariant LogsOut(c, old(m), m, SetOf(order[..i]), worlds, now, r)
      {
        r := LogoutNext(rid, order, listed, i, targets, now, worlds, old(m), r);
      }
      assert order[..|order|] == order && targets[|order|..] == [];
    }

    /** LogoutAll: of the user's sessions but the kept one, exactly those end
        revoked whose revoking write takes place; the others are left as they are
        and the loop goes on. Both counts, the revocation list and the refresh
        tokens are what the single revocations make them. */
    method LogoutAll(ghost rid: RequestId, user: UserId, keep: Option<SessionId>, now: Time, listOk: bool,
                     worlds: Worlds) returns (r: Option<LogoutResult>)
      requires Valid() && rid !in m.flows
      modifies this
      ensures Valid() && Reaches(c, old(m), m)
      ensures r.Some? <==> listOk
      ensures if r.None? then SameStores(old(m), m)
              else LogsOut(c, old(m), m, Chosen(old(sessions), user, keep), worlds, now, r.value)
    {
      ghost var s0 := m;
      if !listOk {
        ReachesSelf(c, m);
        return None;
      }
      var order, targets := BeginLogout(rid, user, keep, now);
      ghost var s1 := m;
      var counts := LogoutEach(rid, order, targets, now, worlds);
      ReachesTrans(c, s0, s1, m);
      ghost var s2 := m;
      EndRevocation(rid, now);
      LogsOutOfStores(c, s0, s1, s2, m, SetOf(order), worlds, now, counts);
      ReachesTrans(c, s0, s2, m);
      ReachesReachable(c, s0, m);
      r := Some(counts);
    }

    // ----- authorization -----

    method UseUser(ghost rid: RequestId, p: AuthorizeParams, u: UserId)
      requires Linked() && At(rid, AuthUser(p)) && p.email != "" && u in users && Matches(users[u], p)
      modifies this`m
      ensures Linked() && Reaches(c, old(m), m) && m.lock == old(m).lock && m.h == old(m).h
      ensures At(rid, if users[u].active then AuthSession(p, u) else Done)
    {
      UserFound(c, m, rid, p, u);
      m := Goto(m, rid, if users[u].active then AuthSession(p, u) else Done);
    }

    method MakeUser(ghost rid: RequestId, p: AuthorizeParams, u: UserId)
      requires Linked() && At(rid, AuthUser(p)) && p.email != "" && u !in m.everUsers
      requires forall v :: v in users ==> !Matches(users[v], p)
      modifies this`m, this`users
      ensures Linked() && Reaches(c, old(m), m) && m.lock == old(m).lock && m.h == old(m).h
      ensures At(rid, AuthSession(p, u)) && users == old(users)[u := User(p.tenant, p.email, true)]
    {
      UserCreated(c, m, rid, p, u);
      users := users[u := User(p.tenant, p.email, true)];
      m := UserMade(m, rid, p, u);
    }

    /** findOrCreateUser: which user the store answers with, when a new one is
        stored, and when there is none to go on with. */
    method FindOrCreateUser(ghost rid: RequestId, p: AuthorizeParams, newUser: UserId, ok: bool)
      returns (user: Option<UserId>, ghost pick: UserId)
      requires Linked() && At(rid, AuthUser(p)) && newUser !in m.everUsers
      modifies this`m, this`users
      ensures Linked() && Reaches(c, old(m), m) && m.lock == old(m).lock && m.h == old(m).h
      ensures At(rid, if user.Some? then AuthSession(p, user.value) else Done)
      ensures Picks(old(users), p, newUser, pick)
      ensures users == if p.email != "" && ok then UsersAfter(old(users), p, pick) else old(users)
      ensures user == if p.email != "" && ok && UsersAfter(old(users), p, pick)[pick].active then Some(pick) else None
    {
      user := None;
      if p.email == "" || !ok {
        pick := SomePick(users, p, newUser);
        Fail(rid);
      } else if u :| u in users && Matches(users[u], p) {
        pick := u;
        UseUser(rid, p, u);
        user := if users[u].active then Some(u) else None;
      } else {
        pick := newUser;
        MakeUser(rid, p, newUser);
        user := Some(newUser);
      }
    }

    method CreatePendingSession(ghost rid: RequestId, p: AuthorizeParams, user: UserId, sid: SessionId, stored: bool)
      returns (ok: bool)
      requires Linked() && At(rid, AuthSession(p, user)) && sid !in m.h.logs && user in users
      modifies this`m, this`sessions
      ensures Linked() && Reaches(c, old(m), m) && m.lock == old(m).lock && m.h.codeOf == old(m).h.codeOf
      ensures At(rid, if ok then AuthCode(p, sid) else Done)
      ensures ok <==> p.scopes != [] && c.sessionTtl >= 0 && stored
      ensures !ok ==> sessions == old(sessions)
      ensures ok ==> && sid in sessions && sessions == old(sessions)[sid := sessions[sid]]
                     && IsPending(c, sessions[sid], p, user)
    {
      var made := NewSession(user, p.client, p.tenant, p.scopes, p.now, p.now + c.sessionTtl, p.deviceId,
                             p.fingerprint);
      ok := made.Some? && stored;
      if !ok {
        Fail(rid);
        return;
      }
      sessions := sessions[sid := made.value];
      AccountReaches(c, m, rid, CreateSession(sid));
      m := StepCreateSession(c, m, rid, sid);
    }

    method CreateAuthorizationCode(ghost rid: RequestId, p: AuthorizeParams, sid: SessionId, code: CodeId, stored: bool)
      returns (ok: bool)
      requires Linked() && At(rid, AuthCode(p, sid)) && code !in m.h.codeOf && sid in sessions
      modifies this`m, this`codes
      ensures Linked() && Reaches(c, old(m), m) && m.lock == old(m).lock && At(rid, Done)
      ensures ok <==> p.redirectUri != "" && stored
      ensures codes == if ok then old(codes)[code := AuthorizationCode(sid, p.redirectUri, p.now + CODE_TTL, false,
                p.now)] else old(codes)
    {
      ok := p.redirectUri != "" && stored;
      if !ok {
        Fail(rid);
        return;
      }
      codes := codes[code := AuthorizationCode(sid, p.redirectUri, p.now + CODE_TTL, false, p.now)];
      AccountReaches(c, m, rid, CreateCode(code));
      m := StepCreateCode(c, m, rid, code);
    }

    // The request is accepted and waits for the transaction.
    method BeginTx(ghost rid: RequestId, ghost f: Flow)
      requires Linked() && m.lock.None? && rid !in m.flows && WaitsForMutex(f) && Reaches(c, m, Begin(m, rid, f))
      modifies this`m
      ensures Linked() && Reaches(c, old(m), m) && At(rid, Entered(f)) && m.h == old(m).h
      ensures m.everUsers == old(m).everUsers
      ensures m.lock == if c.mutex then Some(rid) else None
    {
      ghost var s0 := m;
      m := Begin(m, rid, f);
      EnterTx(rid, f);
      ReachesTrans(c, s0, Begin(s0, rid, f), m);
    }

    // Leaves the transaction; with what came before it is one run.
    method EndTx(ghost rid: RequestId, ghost s0: State)
      requires Linked() && At(rid, Done) && m.lock == (if c.mutex then Some(rid) else None) && Reaches(c, s0, m)
      requires Reachable(c, s0)
      modifies this`m
      ensures Valid() && Reaches(c, s0, m) && m.h == old(m).h
    {
      ghost var s1 := m;
      LeaveTx(rid);
      ReachesTrans(c, s0, s1, m);
      ReachesReachable(c, s0, m);
    }

    // Session and code, for a user that is accepted.
    method StoreAuthorization(ghost rid: RequestId, p: AuthorizeParams, user: UserId, sid: SessionId, code: CodeId,
                              w: AuthorizeWorld) returns (ok: bool)
      requires Linked() && At(rid, AuthSession(p, user)) && user in users && sid !in m.h.logs && code !in m.h.codeOf
      modifies this`m, this`sessions, this`codes
      ensures Linked() && Reaches(c, old(m), m) && m.lock == old(m).lock && At(rid, Done)
      ensures ok <==> StoresSession(c, p, w) && StoresCode(p, w)
      ensures if StoresSession(c, p, w)
              then && sid in sessions && sessions == old(sessions)[sid := sessions[sid]]
                   && IsPending(c, sessions[sid], p, user)
              else sessions == old(sessions)
      ensures codes == if !ok then old(codes)
                       else old(codes)[code := AuthorizationCode(sid, p.redirectUri, p.now + CODE_TTL, false, p.now)]
    {
      ghost var s0 := m;
      ok := CreatePendingSession(rid, p, user, sid, w.sessionOk);
      if ok {
        ghost var s1 := m;
        ok := CreateAuthorizationCode(rid, p, sid, code, w.codeOk);
        ReachesTrans(c, s0, s1, m);
      }
    }

    // The body of authorizeInTx, with the scopes allowed.
    method AuthorizeBody(ghost rid: RequestId, p: AuthorizeParams, newUser: UserId, sid: SessionId, code: CodeId,
                         w: AuthorizeWorld) returns (ok: bool, ghost pick: UserId)
      requires Linked() && At(rid, AuthUser(p)) && newUser !in m.everUsers && sid !in m.h.logs && code !in m.h.codeOf
      requires ScopesAllowed(p.scopes, p.allowedScopes)
      modifies this`m, this`users, this`sessions, this`codes
      ensures Linked() && Reaches(c, old(m), m) && m.lock == old(m).lock && At(rid, Done)
      ensures Picks(old(users), p, newUser, pick)
      ensures var course := AuthorizeCourseOf(c, old(users), p, pick, w);
              ok == course.Granted? && Authorizes(c, old(m), m, p, pick, sid, code, course)
    {
      ghost var s0 := m;
      var user;
      user, pick := FindOrCreateUser(rid, p, newUser, w.userOk);
      if user.None? {
        AuthorizesNobody(c, s0, m, p, pick, sid, code, w);
        return false, pick;
      }
      ghost var s1 := m;
      ok := StoreAuthorization(rid, p, user.value, sid, code, w);
      ReachesTrans(c, s0, s1, m);
      AuthorizesUser(c, s0, s1, m, p, pick, sid, code, w, ok);
    }

    method AuthorizeInTx(ghost rid: RequestId, p: AuthorizeParams, newUser: UserId, sid: SessionId, code: CodeId,
                         w: AuthorizeWorld) returns (ok: bool, ghost pick: UserId)
      requires Linked() && m.lock.None? && ScopesAllowed(p.scopes, p.allowedScopes) && p.deviceId != ""
      requires rid !in m.flows && newUser !in m.everUsers && sid !in m.h.logs && code !in m.h.codeOf
      modifies this`m, this`users, this`sessions, this`codes
      ensures Linked() && Reaches(c, old(m), m) && At(rid, Done) && m.lock == if c.mutex then Some(rid) else None
      ensures Picks(old(users), p, newUser, pick)
      ensures var course := AuthorizeCourseOf(c, old(users), p, pick, w);
              ok == course.Granted? && Authorizes(c, old(m), m, p, pick, sid, code, course)
    {
      ghost var s0 := m;
      AuthorizeBegins(c, m, rid, p);
      BeginTx(rid, AuthReady(p));
      ghost var s1 := m;
      ok, pick := AuthorizeBody(rid, p, newUser, sid, code, w);
      ReachesTrans(c, s0, s1, m);
    }

    /** Authorize: succeeds exactly when scopes, user, session and code are
        accepted and stored, and leaves exactly what its course says: nothing is
        undone, so a new user stays without a session and a session without a code. */
    method Authorize(ghost rid: RequestId, p: AuthorizeParams, newUser: UserId, sid: SessionId, code: CodeId,
                     w: AuthorizeWorld) returns (ok: bool, ghost pick: UserId)
      requires Valid() && rid !in m.flows && newUser !in m.everUsers && sid !in m.h.logs && code !in m.h.codeOf
      requires p.deviceId != ""
      modifies this
      ensures Valid() && Reaches(c, old(m), m)
      ensures Picks(old(users), p, newUser, pick)
      ensures var course := AuthorizeCourseOf(c, old(users), p, pick, w);
              ok == course.Granted? && Authorizes(c, old(m), m, p, pick, sid, code, course)
    {
      ghost var s0 := m;
      var allowed := ValidateRequestedScopes(p.scopes, p.allowedScopes);
      if !allowed {
        ReachesSelf(c, m);
        pick := SomePick(users, p, newUser);
        return false, pick;
      }
      ok, pick := AuthorizeInTx(rid, p, newUser, sid, code, w);
      EndTx(rid, s0);
    }

    // ----- deleting a user -----

    method RemoveSessionsOf(user: UserId) returns (gone: set<SessionId>)
      modifies this`sessions
      ensures gone == set sid | sid in old(sessions) && old(sessions)[sid].user == user
      ensures sessions == old(sessions) - gone
    {
      var todo := sessions.Keys;
      gone := {};
      while todo != {}
        invariant todo <= old(sessions).Keys
        invariant gone == set sid | sid in old(sessions) && sid !in todo && old(sessions)[sid].user == user
        invariant sessions == old(sessions) - gone
      {
        var sid :| sid in todo;
        todo := todo - {sid};
        if sessions[sid].user == user {
          sessions := sessions - {sid};
          gone := gone + {sid};
        }
      }
    }

    // The schema of the SQL store also removes the codes and refresh tokens of the sessions.
    method DeleteSessionsByUser(ghost rid: RequestId, user: UserId)
      requires Linked() && At(rid, DelSessions(user))
      modifies this`m, this`sessions, this`codes, this`tokens
      ensures Linked() && Reaches(c, old(m), m) && m.lock == old(m).lock && At(rid, DelRow(user))
      ensures SameStores(RemoveSessions(c, old(m), SessionsOfUser(old(m), user)), m)
    {
      SessionsDeleted(c, m, rid);
      var gone := RemoveSessionsOf(user);
      Cascade(gone);
      m := StepDeleteSessions(c, m, rid);
    }

    method Cascade(gone: set<SessionId>)
      modifies this`codes, this`tokens
      ensures codes == if c.foreignKeys then map k | k in old(codes) && old(codes)[k].session !in gone :: old(codes)[k]
                else old(codes)
      ensures tokens == if c.foreignKeys
                then map t | t in old(tokens) && old(tokens)[t].session !in gone :: old(tokens)[t] else old(tokens)
    {
      if c.foreignKeys {
        codes := map k | k in codes && codes[k].session !in gone :: codes[k];
        tokens := map t | t in tokens && tokens[t].session !in gone :: tokens[t];
      }
    }

    // No session refers to the row any more, so with foreign keys nothing else goes with it.
    method DeleteRow(ghost rid: RequestId, user: UserId)
      requires Linked() && At(rid, DelRow(user)) && forall sid | sid in sessions :: sessions[sid].user != user
      modifies this`m, this`users
      ensures Linked() && Reaches(c, old(m), m) && m.lock == old(m).lock && At(rid, Done)
      ensures users == old(users) - {user}
    {
      AccountReaches(c, m, rid, DeleteUserRow);
      users := users - {user};
      RemovesUserOnly(c, Goto(m, rid, Done), user);
      m := StepDeleteUserRow(c, m, rid);
    }

    // The body of the transaction, with the user found.
    method DeleteBody(ghost rid: RequestId, user: UserId, w: DeleteWorld)
      requires Linked() && At(rid, DelSessions(user)) && user in users && w.findOk
      modifies this`m, this`users, this`sessions, this`codes, this`tokens
      ensures Linked() && Reaches(c, old(m), m) && m.lock == old(m).lock && At(rid, Done)
      ensures SameStores(Deletion(c, old(m), user, w), m)
    {
      ghost var s0 := m;
      if !w.sessionsOk {
        Fail(rid);
        return;
      }
      DeleteSessionsByUser(rid, user);
      ghost var s1 := m;
      if w.rowOk {
        DeleteRow(rid, user);
      } else {
        Fail(rid);
      }
      ReachesTrans(c, s0, s1, m);
    }

    method DeleteInTx(ghost rid: RequestId, user: UserId, w: DeleteWorld)
      requires Linked() && m.lock.None? && rid !in m.flows && user in users && w.findOk
      modifies this`m, this`users, this`sessions, this`codes, this`tokens
      ensures Linked() && Reaches(c, old(m), m) && At(rid, Done) && m.lock == if c.mutex then Some(rid) else None
      ensures SameStores(Deletion(c, old(m), user, w), m)
    {
      ghost var s0 := m;
      DeleteBegins(c, m, rid, user);
      BeginTx(rid, DelReady(user));
      ghost var s1 := m;
      DeletionOfStores(c, s0, s1, user, w);
      DeleteBody(rid, user, w);
      ReachesTrans(c, s0, s1, m);
    }

    /** DeleteUser: user and sessions are gone, or nothing changed, or, when only
        the user's row cannot be deleted, the sessions are gone and the user stays. */
    method DeleteUser(ghost rid: RequestId, user: UserId, w: DeleteWorld) returns (ok: bool)
      requires Valid() && rid !in m.flows
      modifies this
      ensures Valid() && Reaches(c, old(m), m)
      ensures ok <==> w.findOk && user in old(users) && w.sessionsOk && w.rowOk
      ensures SameStores(Deletion(c, old(m), user, w), m)
    {
      ghost var s0 := m;
      if !w.findOk || user !in users {
        ReachesSelf(c, m);
        return false;
      }
      DeleteInTx(rid, user, w);
      EndTx(rid, s0);
      ok := w.sessionsOk && w.rowOk;
    }
  }
}
