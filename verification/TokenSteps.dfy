/** Every step of the token protocol keeps the invariant. */
module TokenSteps {
  import opened Common
  import opened AuthModels
  import opened TokenProtocol
  import opened TokenInvariants

  // ----- steps that mint and log nothing -----

  predicate At(s: State, rid: RequestId) {
    rid in s.flows ==> FlowOk(s.h, rid, s.flows[rid])
  }

  lemma QuietSame(s: State, rid: RequestId)
    ensures Quiet(s, s, rid)
  {
  }

  lemma QuietGoto(s: State, s': State, rid: RequestId, f: Flow)
    requires QuietFlow(s, rid, f)
    requires s' == Goto(s, rid, f).(lock := s'.lock, users := s'.users, trl := s'.trl, everUsers := s'.everUsers)
    ensures Quiet(s, s', rid)
  {
  }

  lemma QuietBegin(s: State, rid: RequestId, f: Flow)
    requires FlowOk(s.h, rid, f) && !Carries(f)
    ensures Quiet(s, Begin(s, rid, f), rid)
  {
    if rid in s.flows {
      QuietSame(s, rid);
    } else {
      QuietGoto(s, Goto(s, rid, f), rid, f);
    }
  }

  lemma QuietFindCredential(s: State, rid: RequestId)
    requires StoresOk(s) && At(s, rid)
    ensures Quiet(s, StepFindCredential(s, rid), rid)
  {
    var s' := StepFindCredential(s, rid);
    if rid in s.flows && s.flows[rid].TokStart? {
      var req := s.flows[rid].req;
      if req.cred.CodeCred? && req.cred.code in s.codes {
        QuietGoto(s, s', rid, TokFound(req, s.codes[req.cred.code].session));
      } else if req.cred.TokenCred? && req.cred.token in s.tokens {
        assert TokenOk(s, req.cred.token);
        QuietGoto(s, s', rid, TokFound(req, s.tokens[req.cred.token].session));
      } else {
        QuietGoto(s, s', rid, Done);
      }
    } else {
      QuietSame(s, rid);
    }
  }

  lemma QuietFindSession(s: State, rid: RequestId)
    requires StoresOk(s) && At(s, rid)
    ensures Quiet(s, StepFindSession(s, rid), rid)
  {
    var s' := StepFindSession(s, rid);
    if rid in s.flows && s.flows[rid].TokFound? {
      var f := s.flows[rid];
      if f.sid in s.sessions {
        QuietGoto(s, s', rid, TokSnapshot(f.req, f.sid, s.sessions[f.sid]));
      } else {
        QuietGoto(s, s', rid, Done);
      }
    } else {
      QuietSame(s, rid);
    }
  }

  lemma EnteredOk(h: History, rid: RequestId, f: Flow)
    requires FlowOk(h, rid, f)
    ensures FlowOk(h, rid, Entered(f))
  {
  }

  lemma QuietAcquire(c: Config, s: State, rid: RequestId)
    requires At(s, rid)
    ensures Quiet(s, StepAcquire(c, s, rid), rid)
  {
    if rid in s.flows && WaitsForMutex(s.flows[rid]) && (c.mutex ==> s.lock.None?) {
      EnteredOk(s.h, rid, s.flows[rid]);
      QuietGoto(s, StepAcquire(c, s, rid), rid, Entered(s.flows[rid]));
    } else {
      QuietSame(s, rid);
    }
  }

  lemma QuietRelease(s: State, rid: RequestId)
    ensures Quiet(s, StepRelease(s, rid), rid)
  {
  }

  lemma QuietFail(s: State, rid: RequestId)
    ensures Quiet(s, StepFail(s, rid), rid)
  {
  }

  lemma QuietFindOrCreateUser(s: State, rid: RequestId, pick: UserId)
    requires At(s, rid)
    ensures Quiet(s, StepFindOrCreateUser(s, rid, pick), rid)
  {
    var s' := StepFindOrCreateUser(s, rid, pick);
    if rid in s.flows && s.flows[rid].AuthUser? {
      var p := s.flows[rid].params;
      if p.email == "" {
        QuietGoto(s, s', rid, Done);
      } else if exists u :: u in s.users && Matches(s.users[u], p) {
        if pick in s.users && Matches(s.users[pick], p) {
          if s.users[pick].active {
            QuietGoto(s, s', rid, AuthSession(p, pick));
          } else {
            QuietGoto(s, s', rid, Done);
          }
        } else {
          QuietSame(s, rid);
        }
      } else if pick in s.everUsers {
        QuietSame(s, rid);
      } else {
        QuietGoto(s, s', rid, AuthSession(p, pick));
      }
    } else {
      QuietSame(s, rid);
    }
  }

  lemma QuietDeleteSessions(c: Config, s: State, rid: RequestId)
    ensures Quiet(s, StepDeleteSessions(c, s, rid), rid)
  {
  }

  lemma QuietRemoval(c: Config, s: State, s': State, rid: RequestId, gone: set<SessionId>)
    requires Quiet(s, s', rid)
    ensures Quiet(s, RemoveSessions(c, s', gone), rid)
  {
  }

  lemma QuietDeleteUserRow(c: Config, s: State, rid: RequestId)
    ensures Quiet(s, StepDeleteUserRow(c, s, rid), rid)
  {
    if rid in s.flows && s.flows[rid].DelRow? {
      var u, s1 := s.flows[rid].user, Goto(s, rid, Done);
      QuietRemoval(c, s, s1.(users := s.users - {u}), rid, SessionsOfUser(s1, u));
    }
  }

  // ----- revocation -----

  lemma QuietRevoked(s: State, s': State, rid: RequestId, f: Flow, sid: SessionId, now: Time)
    requires QuietFlow(s, rid, f)
    requires s' == Goto(s, rid, f).(sessions := RevokeIfActive(s.sessions, sid, now))
    ensures Quiet(s, s', rid)
  {
  }

  lemma QuietReplayRevoke(s: State, rid: RequestId)
    ensures Quiet(s, StepReplayRevoke(s, rid), rid)
  {
    if rid in s.flows && s.flows[rid].TokReplay? {
      QuietRevoked(s, StepReplayRevoke(s, rid), rid, Done, s.flows[rid].sid, s.flows[rid].req.now);
    } else {
      QuietSame(s, rid);
    }
  }

  lemma SnapshotTargetOk(s: State, sid: SessionId, origin: Origin)
    requires StoresOk(s) && sid in s.sessions
    ensures TargetOk(s.h, SnapshotTarget(s, sid, origin))
  {
    var adv := s.h.logs[sid].advances;
    assert adv[..|adv|] == adv;
  }

  lemma QuietExecuteRevoke(s: State, rid: RequestId)
    requires StoresOk(s)
    ensures Quiet(s, StepExecuteRevoke(s, rid), rid)
  {
    if rid in s.flows && s.flows[rid].RevExecute? {
      var f := s.flows[rid];
      if RevocableBy(s, f.user, f.sid) {
        SnapshotTargetOk(s, f.sid, ReadAtRevoke);
        var f' := RevTrl(SnapshotTarget(s, f.sid, ReadAtRevoke), [], f.now);
        assert QuietFlow(s, rid, f');
        QuietRevoked(s, StepExecuteRevoke(s, rid), rid, f', f.sid, f.now);
      } else {
        QuietGoto(s, StepExecuteRevoke(s, rid), rid, Done);
      }
    } else {
      QuietSame(s, rid);
    }
  }

  lemma QuietLogoutAll(s: State, rid: RequestId, user: UserId, keep: Option<SessionId>, order: seq<SessionId>,
                       now: Time)
    requires StoresOk(s)
    ensures Quiet(s, StepBeginLogoutAll(s, rid, user, keep, order, now), rid)
  {
    if Lists(s, user, keep, order) {
      var todo := seq(|order|, i requires 0 <= i < |order| => SnapshotTarget(s, order[i], ReadBefore));
      forall i | 0 <= i < |todo| ensures TargetOk(s.h, todo[i]) {
        SnapshotTargetOk(s, order[i], ReadBefore);
      }
      QuietBegin(s, rid, RevNext(todo, now));
    } else {
      QuietSame(s, rid);
    }
  }

  lemma QuietResolveAccess(s: State, rid: RequestId, sid: SessionId, jti: Jti, now: Time)
    requires StoresOk(s)
    ensures Quiet(s, StepResolveAccess(s, rid, sid, jti, now), rid)
  {
    if sid in s.sessions {
      QuietBegin(s, rid, RevNext([Target(sid, Some(jti), Given, 0)], now));
    } else {
      QuietSame(s, rid);
    }
  }

  lemma QuietResolveRefresh(s: State, rid: RequestId, token: TokenId, now: Time)
    requires StoresOk(s)
    ensures Quiet(s, StepResolveRefresh(s, rid, token, now), rid)
  {
    if token in s.tokens {
      assert TokenOk(s, token);
      QuietBegin(s, rid, RevFound(s.tokens[token].session, now));
    } else {
      QuietSame(s, rid);
    }
  }

  lemma QuietResolveSession(s: State, rid: RequestId)
    requires StoresOk(s)
    ensures Quiet(s, StepResolveSession(s, rid), rid)
  {
    var s' := StepResolveSession(s, rid);
    if rid in s.flows && s.flows[rid].RevFound? {
      var f := s.flows[rid];
      if f.sid in s.sessions {
        SnapshotTargetOk(s, f.sid, ReadBefore);
        QuietGoto(s, s', rid, RevNext([SnapshotTarget(s, f.sid, ReadBefore)], f.now));
      } else {
        QuietGoto(s, s', rid, Done);
      }
    } else {
      QuietSame(s, rid);
    }
  }

  lemma QuietRevokeTarget(s: State, rid: RequestId, ok: bool)
    requires At(s, rid)
    ensures Quiet(s, StepRevokeTarget(s, rid, ok), rid)
  {
    var s' := StepRevokeTarget(s, rid, ok);
    if rid in s.flows && s.flows[rid].RevNext? {
      var f := s.flows[rid];
      if f.todo == [] {
        QuietGoto(s, s', rid, Done);
      } else if !ok || f.todo[0].session !in s.sessions || !s.sessions[f.todo[0].session].CanRevoke() {
        QuietGoto(s, s', rid, RevNext(f.todo[1..], f.now));
      } else {
        QuietRevoked(s, s', rid, RevTrl(f.todo[0], f.todo[1..], f.now), f.todo[0].session, f.now);
      }
    } else {
      QuietSame(s, rid);
    }
  }

  lemma QuietWriteTrl(c: Config, s: State, rid: RequestId, clock: Time, ok: bool)
    requires At(s, rid)
    ensures Quiet(s, StepWriteTrl(c, s, rid, clock, ok), rid)
  {
    var s' := StepWriteTrl(c, s, rid, clock, ok);
    if rid in s.flows && s.flows[rid].RevTrl? {
      var f := s.flows[rid];
      if f.target.jti.Some? && !ok && c.failOnTrlError {
        QuietGoto(s, s', rid, RevNext(f.todo, f.now));
      } else {
        QuietGoto(s, s', rid, RevDelete(f.target.session, f.todo, f.now));
      }
    } else {
      QuietSame(s, rid);
    }
  }

  lemma QuietDeleteTokens(s: State, rid: RequestId, ok: bool)
    requires At(s, rid)
    ensures Quiet(s, StepDeleteTokens(s, rid, ok), rid)
  {
  }

  lemma QuietCleanCodes(s: State, now: Time, rid: RequestId)
    ensures Quiet(s, StepCleanCodes(s, now), rid)
  {
  }

  lemma QuietCleanTokens(s: State, now: Time, rid: RequestId)
    ensures Quiet(s, StepCleanTokens(s, now), rid)
  {
  }

  lemma QuietCleanUsedTokens(s: State, rid: RequestId)
    ensures Quiet(s, StepCleanUsedTokens(s), rid)
  {
  }

  lemma QuietCleanSessions(c: Config, s: State, now: Time, rid: RequestId)
    ensures Quiet(s, StepCleanSessions(c, s, now), rid)
  {
  }

  // ----- steps that mint, consume or log -----

  lemma GrowsSame(h: History)
    ensures Grows(h, h)
  {
  }

  lemma GrowsMinted(h: History, token: TokenId, m: Minted, jti: Jti, rid: RequestId)
    requires token !in h.tokenOf && jti !in h.jtiOf
    ensures Grows(h, h.(tokenOf := h.tokenOf[token := m], jtiOf := h.jtiOf[jti := rid]))
  {
  }

  lemma FlowsAfter(s: State, s': State, rid: RequestId, f: Flow)
    requires FlowsOk(s) && Grows(s.h, s'.h)
    requires s'.flows == s.flows[rid := f] && FlowOk(s'.h, rid, f)
    ensures FlowsOk(s')
  {
    forall r | r in s'.flows ensures FlowOk(s'.h, r, s'.flows[r]) {
      if r != rid {
        FlowOkGrows(s.h, s'.h, r, s.flows[r]);
      }
    }
  }

  lemma LogsAfter(s: State, s': State)
    requires LogsOk(s) && Grows(s.h, s'.h) && s'.h.logs == s.h.logs
    ensures LogsOk(s')
  {
    forall sid | sid in s'.h.logs ensures LogOk(s'.h, sid, s'.h.logs[sid]) {
      var log := s.h.logs[sid];
      assert LogOk(s.h, sid, log);
      forall k | 0 <= k < |log.advances| ensures GrantOk(s'.h, sid, log, k) {
        GrantOkGrows(s.h, s'.h, sid, log, k);
      }
    }
  }

  // Nothing logged changes, and the moving request has made no session step.
  lemma RequestsAfter(s: State, s': State, rid: RequestId, f: Flow)
    requires RequestsOk(s) && s'.h.logs == s.h.logs
    requires s'.flows == s.flows[rid := f]
    requires rid in s.flows && (s.flows[rid].Done? || s.flows[rid].TokCreate? ==> f.Done?)
    ensures RequestsOk(s')
  {
    forall sid, k | sid in s'.h.logs && 0 <= k < |s'.h.logs[sid].advances|
      ensures StepOver(s', s'.h.logs[sid].advances[k])
    {
      assert StepOver(s, s.h.logs[sid].advances[k]);
    }
  }

  // One holder of sid hands its credit to another.
  lemma Handover(s: State, s': State, x: Holder, y: Holder, sid: SessionId)
    requires AtMostOneHolder(s) && CreditMoves(s, s', x, y, sid)
    ensures AtMostOneHolder(s')
  {
  }

  // --- generating tokens ---

  lemma PrepareStores(s: State, s': State, rid: RequestId, f: Flow, token: TokenId, jti: Jti)
    requires StoresOk(s) && rid in s.flows && s.flows[rid].TokSnapshot? && s.flows[rid].sid in s.h.logs
    requires token !in s.h.tokenOf
    requires s' == Goto(s, rid, f).(h := s.h.(tokenOf := s.h.tokenOf[token := Minted(s.flows[rid].sid, rid)],
                                             jtiOf := s.h.jtiOf[jti := rid]))
    ensures StoresOk(s')
  {
    forall t | t in s'.tokens ensures TokenOk(s', t) {
      assert TokenOk(s, t);
    }
  }

  lemma PrepareHolders(s: State, s': State, rid: RequestId, f: Flow)
    requires AtMostOneHolder(s) && TailsOk(s) && rid in s.flows && s.flows[rid].TokSnapshot? && f.TokReady?
    requires s' == Goto(s, rid, f).(h := s'.h) && s'.h.logs == s.h.logs
    ensures AtMostOneHolder(s') && TailsOk(s')
  {
    forall x, sid | Holds(s', x, sid) ensures Holds(s, x, sid) && sid in s'.h.logs && TailOk(s', x, sid) {
      assert Holds(s, x, sid);
      assert TailOk(s, x, sid);
    }
  }

  lemma PreserveGenerate(s: State, s': State, rid: RequestId, f: Flow, token: TokenId, jti: Jti)
    requires Inv(s) && rid in s.flows && s.flows[rid].TokSnapshot? && s.flows[rid].sid in s.h.logs && f.TokReady?
    requires token !in s.h.tokenOf && jti !in s.h.jtiOf
    requires s' == Goto(s, rid, f).(h := s.h.(tokenOf := s.h.tokenOf[token := Minted(s.flows[rid].sid, rid)],
                                             jtiOf := s.h.jtiOf[jti := rid]))
    requires FlowOk(s'.h, rid, f)
    ensures Inv(s')
  {
    GrowsMinted(s.h, token, Minted(s.flows[rid].sid, rid), jti, rid);
    PrepareStores(s, s', rid, f, token, jti);
    FlowsAfter(s, s', rid, f);
    LogsAfter(s, s');
    RequestsAfter(s, s', rid, f);
    PrepareHolders(s, s', rid, f);
  }

  lemma PreservePrepare(c: Config, s: State, rid: RequestId, ctx: TokenContext, clientActive: bool, token: TokenId,
                        jti: Jti)
    requires Inv(s)
    ensures Inv(StepPrepare(c, s, rid, ctx, clientActive, token, jti))
  {
    if rid in s.flows && s.flows[rid].TokSnapshot? && token !in s.h.tokenOf && jti !in s.h.jtiOf {
      var s' := StepPrepare(c, s, rid, ctx, clientActive, token, jti);
      var f := s.flows[rid];
      assert FlowOk(s.h, rid, f);
      if !ContextAccepted(c, s, f.snap, ctx, clientActive) {
        QuietGoto(s, s', rid, Done);
        QuietPreserves(s, s', rid);
      } else {
        PreserveGenerate(s, s', rid, TokReady(f.req, f.sid, f.snap, ctx, Generate(c, f.req, f.sid, f.snap, token, jti)),
            token, jti);
      }
    }
  }

  // --- consuming the credential ---

  predicate Spends(cred: Credential, x: Holder) {
    match x
    case ByCode(k) => cred == CodeCred(k)
    case ByToken(t) => cred == TokenCred(t)
    case ByFlow(_) => false
  }

  // The credential's credit passes to the request that consumed it.
  lemma ConsumeHolders(s: State, s': State, rid: RequestId, f: Flow, x: Holder)
    requires AtMostOneHolder(s) && TailsOk(s) && rid in s.flows && s.flows[rid].TokConsume? && f.TokAdvance?
    requires s' == Goto(s, rid, f).(codes := s'.codes, tokens := s'.tokens)
    requires Spends(f.req.cred, x) && CreditMoves(s, s', x, ByFlow(rid), f.sid)
    ensures AtMostOneHolder(s') && TailsOk(s')
  {
    Handover(s, s', x, ByFlow(rid), f.sid);
    assert TailOk(s, x, f.sid);
    forall z, sid | Holds(s', z, sid) ensures sid in s'.h.logs && TailOk(s', z, sid) {
      if z != ByFlow(rid) {
        assert Holds(s, z, sid);
        assert TailOk(s, z, sid);
      }
    }
  }

  lemma ConsumeStores(s: State, s': State, rid: RequestId, f: Flow)
    requires StoresOk(s) && rid in s.flows && s.flows[rid].TokConsume?
    requires s' == Goto(s, rid, f).(codes := s'.codes, tokens := s'.tokens)
    requires SameRecords(s, s')
    ensures StoresOk(s')
  {
    forall t | t in s'.tokens ensures TokenOk(s', t) {
      assert t in s.tokens && TokenOk(s, t);
    }
  }

  // What consuming leaves of a store: the same records, some of them now used.
  ghost predicate SameRecords(s: State, s': State) {
    && s'.codes.Keys == s.codes.Keys && (forall k :: k in s.codes ==> s'.codes[k].session == s.codes[k].session)
    && s'.tokens.Keys == s.tokens.Keys && (forall t :: t in s.tokens ==> s'.tokens[t].session == s.tokens[t].session)
  }

  ghost predicate CreditMoves(s: State, s': State, x: Holder, y: Holder, sid: SessionId) {
    && Holds(s, x, sid) && (x == y || !Holds(s', x, sid))
    && (forall z, i :: Holds(s', z, i) ==> Holds(s, z, i) || (z == y && i == sid))
  }

  lemma PreserveConsumed(s: State, s': State, rid: RequestId, f: Flow, x: Holder)
    requires Inv(s) && rid in s.flows && s.flows[rid].TokConsume? && f.TokAdvance? && FlowOk(s.h, rid, f)
    requires s' == Goto(s, rid, f).(codes := s'.codes, tokens := s'.tokens)
    requires SameRecords(s, s') && Spends(f.req.cred, x) && CreditMoves(s, s', x, ByFlow(rid), f.sid)
    ensures Inv(s')
  {
    GrowsSame(s.h);
    ConsumeStores(s, s', rid, f);
    FlowsAfter(s, s', rid, f);
    LogsAfter(s, s');
    RequestsAfter(s, s', rid, f);
    ConsumeHolders(s, s', rid, f, x);
  }

  lemma ConsumeCode(s: State, s': State, rid: RequestId, f: Flow, k: CodeId)
    requires rid in s.flows && s.flows[rid].TokConsume? && f.TokAdvance?
    requires k in s.codes && !s.codes[k].used && s.codes[k].session == f.sid
    requires s' == Goto(s, rid, f).(codes := s.codes[k := s.codes[k].MarkUsed()])
    ensures SameRecords(s, s') && CreditMoves(s, s', ByCode(k), ByFlow(rid), f.sid)
  {
  }

  lemma ConsumeRefresh(s: State, s': State, rid: RequestId, f: Flow, t: TokenId)
    requires rid in s.flows && s.flows[rid].TokConsume? && f.TokAdvance?
    requires t in s.tokens && !s.tokens[t].used && s.tokens[t].session == f.sid
    requires s' == Goto(s, rid, f).(tokens := s.tokens[t := s.tokens[t].MarkUsed(f.req.now)])
    ensures SameRecords(s, s') && CreditMoves(s, s', ByToken(t), ByFlow(rid), f.sid)
  {
  }

  // A failed validation changes no store; a used credential sends the request to the replay step.
  lemma QuietRefused(s: State, s': State, rid: RequestId, sid: SessionId, err: ConsumeError)
    requires rid in s.flows && s.flows[rid].TokConsume? && FlowOk(s.h, rid, s.flows[rid]) && sid == s.flows[rid].sid
    requires s' == Goto(s, rid, if err.AlreadyUsed? then TokReplay(s.flows[rid].req, sid) else Done)
    ensures Quiet(s, s', rid)
  {
    if err.AlreadyUsed? {
      QuietGoto(s, s', rid, TokReplay(s.flows[rid].req, sid));
    } else {
      QuietGoto(s, s', rid, Done);
    }
  }

  // The credential a request consumes belongs to the session it took its snapshot of.
  lemma SessionOfCredential(s: State, rid: RequestId)
    requires StoresOk(s) && rid in s.flows && s.flows[rid].TokConsume? && FlowOk(s.h, rid, s.flows[rid])
    ensures var f := s.flows[rid];
            && FlowOk(s.h, rid, TokAdvance(f.req, f.sid, f.snap, f.ctx, f.art))
            && f.snap.(tenant := f.ctx.tenant) == f.snap
            && (f.req.cred.CodeCred? && f.req.cred.code in s.codes ==> s.codes[f.req.cred.code].session == f.sid)
            && (f.req.cred.TokenCred? && f.req.cred.token in s.tokens ==> s.tokens[f.req.cred.token].session == f.sid)
  {
    var f := s.flows[rid];
    if f.req.cred.TokenCred? && f.req.cred.token in s.tokens {
      assert TokenOk(s, f.req.cred.token);
    }
  }

  lemma PreserveConsumeCode(s: State, rid: RequestId, k: CodeId)
    requires Inv(s) && rid in s.flows && s.flows[rid].TokConsume?
    requires s.flows[rid].req.cred == CodeCred(k) && k in s.codes
    ensures Inv(StepConsume(s, rid))
  {
    var s', f := StepConsume(s, rid), s.flows[rid];
    SessionOfCredential(s, rid);
    var err := s.codes[k].ValidateForConsume(f.req.redirectUri, f.req.now);
    if err.None? {
      var f' := TokAdvance(f.req, f.sid, f.snap, f.ctx, f.art);
      ConsumeCode(s, s', rid, f', k);
      PreserveConsumed(s, s', rid, f', ByCode(k));
    } else {
      QuietRefused(s, s', rid, f.sid, err.value);
      QuietPreserves(s, s', rid);
    }
  }

  lemma PreserveConsumeRefresh(s: State, rid: RequestId, t: TokenId)
    requires Inv(s) && rid in s.flows && s.flows[rid].TokConsume?
    requires s.flows[rid].req.cred == TokenCred(t) && t in s.tokens
    ensures Inv(StepConsume(s, rid))
  {
    var s', f := StepConsume(s, rid), s.flows[rid];
    SessionOfCredential(s, rid);
    var err := s.tokens[t].ValidateForConsume(f.req.now);
    if err.None? {
      var f' := TokAdvance(f.req, f.sid, f.snap, f.ctx, f.art);
      ConsumeRefresh(s, s', rid, f', t);
      PreserveConsumed(s, s', rid, f', ByToken(t));
    } else {
      QuietRefused(s, s', rid, f.sid, err.value);
      QuietPreserves(s, s', rid);
    }
  }

  lemma PreserveConsume(s: State, rid: RequestId)
    requires Inv(s)
    ensures Inv(StepConsume(s, rid))
  {
    if rid in s.flows && s.flows[rid].TokConsume? {
      match s.flows[rid].req.cred
      case CodeCred(k) =>
        if k in s.codes {
          PreserveConsumeCode(s, rid, k);
        } else {
          QuietFail(s, rid);
          QuietPreserves(s, StepFail(s, rid), rid);
        }
      case TokenCred(t) =>
        if t in s.tokens {
          PreserveConsumeRefresh(s, rid, t);
        } else {
          QuietFail(s, rid);
          QuietPreserves(s, StepFail(s, rid), rid);
        }
    }
  }

  // --- the session step ---

  // What a committed session step meets: an exchange finds a pending session
  // and no earlier step, a refresh an active one whose last step issued the
  // token it spent.
  lemma AdvanceMeets(s: State, rid: RequestId)
    requires StoresOk(s) && LogsOk(s) && FlowsOk(s) && TailsOk(s)
    requires rid in s.flows && s.flows[rid].TokAdvance? && s.flows[rid].sid in s.sessions
    ensures var f := s.flows[rid]; var sess := s.sessions[f.sid];
            f.sid in s.h.logs && (
            var log := s.h.logs[f.sid];
            && log.responses == log.advances
            && (f.req.cred.CodeCred? ==> log.advances == [] && !sess.status.Active?)
            && (f.req.cred.TokenCred? ==>
                  && log.advances != [] && f.req.cred.token == log.advances[|log.advances| - 1].token
                  && !sess.status.PendingConsent?))
  {
    var f := s.flows[rid];
    assert Holds(s, ByFlow(rid), f.sid);
    assert TailOk(s, ByFlow(rid), f.sid);
    assert LogOk(s.h, f.sid, s.h.logs[f.sid]);
  }

  // The device signals taken from the snapshot never change the device a session is bound to.
  lemma AdvancedSession(c: Config, f: Flow, sess: Session, born: Session)
    requires f.TokAdvance? && SameIdentity(sess, born) && SameIdentity(f.snap, born) && born.deviceId != ""
    requires sess.ValidateForAdvance(f.ctx.client, f.req.now, f.req.cred.CodeCred?).None?
    ensures SameIdentity(Advanced(c, f, sess), born)
    ensures Advanced(c, f, sess).status.Active?
    ensures Advanced(c, f, sess).lastJti == Some(f.art.jti)
  {
  }

  // The new entry of the log continues the chain.
  lemma NewGrantOk(s: State, rid: RequestId, f: Flow, g: Grant, log: Log)
    requires rid in s.flows && s.flows[rid] == f && f.TokAdvance? && FlowOk(s.h, rid, f) && s.h.logs[f.sid] == log
    requires f.sid in s.sessions && SessionOk(s.sessions[f.sid], log)
    requires s.sessions[f.sid].ValidateForAdvance(f.ctx.client, f.req.now, f.req.cred.CodeCred?).None?
    requires g == GrantOf(rid, f, s.sessions[f.sid])
    requires f.req.cred.CodeCred? ==> log.advances == []
    requires f.req.cred.TokenCred? ==> log.advances != [] && f.req.cred.token == log.advances[|log.advances| - 1].token
    requires forall j :: 0 <= j < |log.advances| ==> log.advances[j].request != rid
    ensures GrantOk(s.h, f.sid, log.(advances := log.advances + [g]), |log.advances|)
  {
  }

  lemma RequestIsNew(s: State, rid: RequestId, log: Log, sid: SessionId)
    requires RequestsOk(s) && rid in s.flows && s.flows[rid].TokAdvance? && sid in s.h.logs && s.h.logs[sid] == log
    ensures forall j :: 0 <= j < |log.advances| ==> log.advances[j].request != rid
  {
    forall j | 0 <= j < |log.advances| ensures log.advances[j].request != rid {
      assert StepOver(s, s.h.logs[sid].advances[j]);
    }
  }

  lemma ExtendLog(h: History, h': History, sid: SessionId, log: Log, g: Grant)
    requires Grows(h, h') && LogOk(h, sid, log) && log.responses == log.advances
    requires GrantOk(h, sid, log.(advances := log.advances + [g]), |log.advances|)
    ensures LogOk(h', sid, log.(advances := log.advances + [g]))
  {
    var log' := log.(advances := log.advances + [g]);
    forall k | 0 <= k < |log'.advances| ensures GrantOk(h', sid, log', k) {
      if k < |log.advances| {
        assert GrantOk(h, sid, log, k);
      } else {
        GrantOkGrows(h, h', sid, log', k);
      }
    }
  }

  lemma AdvanceLog(s: State, rid: RequestId, f: Flow, g: Grant)
    requires StoresOk(s) && LogsOk(s) && FlowsOk(s) && TailsOk(s) && RequestsOk(s)
    requires rid in s.flows && s.flows[rid] == f && f.TokAdvance? && f.sid in s.sessions && f.sid in s.h.logs
    requires s.sessions[f.sid].ValidateForAdvance(f.ctx.client, f.req.now, f.req.cred.CodeCred?).None?
    requires g == GrantOf(rid, f, s.sessions[f.sid])
    ensures LogOk(LogAdvance(s.h, f.sid, g), f.sid, LogAdvance(s.h, f.sid, g).logs[f.sid])
  {
    var log := s.h.logs[f.sid];
    AdvanceMeets(s, rid);
    RequestIsNew(s, rid, log, f.sid);
    NewGrantOk(s, rid, f, g, log);
    GrowsAdvance(s.h, f.sid, g);
    ExtendLog(s.h, LogAdvance(s.h, f.sid, g), f.sid, log, g);
  }

  lemma GrowsAdvance(h: History, sid: SessionId, g: Grant)
    requires sid in h.logs
    ensures Grows(h, LogAdvance(h, sid, g))
  {
  }

  lemma GrowsResponse(h: History, sid: SessionId, g: Grant)
    requires sid in h.logs
    ensures Grows(h, LogResponse(h, sid, g))
  {
  }

  // Only one session's log changes, and it is known to be in order.
  lemma LogsAfterOne(s: State, s': State, sid: SessionId)
    requires LogsOk(s) && Grows(s.h, s'.h) && sid in s'.h.logs && LogOk(s'.h, sid, s'.h.logs[sid])
    requires s'.h.logs == s.h.logs[sid := s'.h.logs[sid]]
    ensures LogsOk(s')
  {
    forall i | i in s'.h.logs && i != sid ensures LogOk(s'.h, i, s'.h.logs[i]) {
      var log := s.h.logs[i];
      assert LogOk(s.h, i, log);
      forall k | 0 <= k < |log.advances| ensures GrantOk(s'.h, i, log, k) {
        GrantOkGrows(s.h, s'.h, i, log, k);
      }
    }
  }

  lemma AdvanceStores(s: State, s': State, rid: RequestId, f: Flow, sess: Session)
    requires StoresOk(s) && rid in s.flows && s.flows[rid].TokAdvance? && f.TokCreate? && f.sid in s.sessions
    requires s' == Goto(s, rid, f).(sessions := s.sessions[f.sid := sess], h := LogAdvance(s.h, f.sid, f.grant))
    requires SameIdentity(sess, s.sessions[f.sid]) && sess.status.Active? && sess.lastJti == Some(f.grant.jti)
    ensures StoresOk(s')
  {
    forall t | t in s'.tokens ensures TokenOk(s', t) {
      assert TokenOk(s, t);
    }
    forall sid | sid in s'.sessions ensures sid in s'.h.logs && SessionOk(s'.sessions[sid], s'.h.logs[sid]) {
      assert sid in s.sessions && SessionOk(s.sessions[sid], s.h.logs[sid]);
    }
  }

  lemma AdvanceRequests(s: State, s': State, rid: RequestId, f: Flow)
    requires RequestsOk(s) && rid in s.flows && s.flows[rid].TokAdvance? && f.TokCreate? && f.sid in s.h.logs
    requires f.grant.request == rid
    requires s'.flows == s.flows[rid := f] && s'.h == LogAdvance(s.h, f.sid, f.grant)
    ensures RequestsOk(s')
  {
    forall sid, k | sid in s'.h.logs && 0 <= k < |s'.h.logs[sid].advances|
      ensures StepOver(s', s'.h.logs[sid].advances[k])
    {
      if k < |s.h.logs[sid].advances| {
        assert StepOver(s, s.h.logs[sid].advances[k]);
      }
    }
  }

  lemma AdvanceHolders(s: State, s': State, rid: RequestId, f: Flow)
    requires AtMostOneHolder(s) && TailsOk(s) && rid in s.flows && s.flows[rid].TokAdvance? && f.TokCreate?
    requires s.flows[rid].sid == f.sid && f.sid in s.h.logs && s.h.logs[f.sid].advances == s.h.logs[f.sid].responses
    requires s' == Goto(s, rid, f).(sessions := s'.sessions, h := LogAdvance(s.h, f.sid, f.grant))
    ensures AtMostOneHolder(s') && TailsOk(s')
  {
    assert Holds(s, ByFlow(rid), f.sid);
    forall x, sid | Holds(s', x, sid) ensures Holds(s, x, sid) {
    }
    forall x, sid | Holds(s', x, sid) ensures sid in s'.h.logs && TailOk(s', x, sid) {
      assert Holds(s, x, sid) && TailOk(s, x, sid);
      if x == ByFlow(rid) {
      } else {
        assert sid != f.sid;
      }
    }
  }

  lemma PreserveAdvanced(s: State, s': State, rid: RequestId, f: Flow, sess: Session)
    requires Inv(s) && rid in s.flows && s.flows[rid].TokAdvance? && f.TokCreate? && f.sid in s.sessions
    requires f.sid in s.h.logs
    requires s.flows[rid].sid == f.sid && f.grant.request == rid && FlowOk(s.h, rid, f)
    requires s.h.logs[f.sid].advances == s.h.logs[f.sid].responses
    requires SameIdentity(sess, s.sessions[f.sid]) && sess.status.Active? && sess.lastJti == Some(f.grant.jti)
    requires LogOk(LogAdvance(s.h, f.sid, f.grant), f.sid, LogAdvance(s.h, f.sid, f.grant).logs[f.sid])
    requires s' == Goto(s, rid, f).(sessions := s.sessions[f.sid := sess], h := LogAdvance(s.h, f.sid, f.grant))
    ensures Inv(s')
  {
    GrowsAdvance(s.h, f.sid, f.grant);
    AdvanceStores(s, s', rid, f, sess);
    FlowOkGrows(s.h, s'.h, rid, f);
    FlowsAfter(s, s', rid, f);
    LogsAfterOne(s, s', f.sid);
    AdvanceRequests(s, s', rid, f);
    AdvanceHolders(s, s', rid, f);
  }

  lemma AdvanceReady(c: Config, s: State, rid: RequestId, f: Flow, sess: Session, g: Grant)
    requires StoresOk(s) && LogsOk(s) && rid in s.flows && s.flows[rid] == f && f.TokAdvance? && FlowOk(s.h, rid, f)
    requires f.sid in s.sessions && s.sessions[f.sid] == sess
    requires sess.ValidateForAdvance(f.ctx.client, f.req.now, f.req.cred.CodeCred?).None?
    requires g == GrantOf(rid, f, sess)
    ensures FlowOk(s.h, rid, TokCreate(f.req, f.sid, g, f.art.record))
    ensures SameIdentity(Advanced(c, f, sess), sess)
    ensures Advanced(c, f, sess).status.Active? && Advanced(c, f, sess).lastJti == Some(g.jti)
  {
    assert LogOk(s.h, f.sid, s.h.logs[f.sid]);
    AdvancedSession(c, f, sess, s.h.logs[f.sid].born);
  }

  lemma PreserveAdvance(c: Config, s: State, rid: RequestId)
    requires Inv(s)
    ensures Inv(StepAdvanceSession(c, s, rid))
  {
    if rid in s.flows && s.flows[rid].TokAdvance? {
      var f := s.flows[rid];
      if f.sid !in s.sessions ||
         s.sessions[f.sid].ValidateForAdvance(f.ctx.client, f.req.now, f.req.cred.CodeCred?).Some? {
        QuietFail(s, rid);
        QuietPreserves(s, StepFail(s, rid), rid);
      } else {
        var sess := s.sessions[f.sid];
        var g := GrantOf(rid, f, sess);
        AdvanceReady(c, s, rid, f, sess, g);
        AdvanceMeets(s, rid);
        AdvanceLog(s, rid, f, g);
        PreserveAdvanced(s, StepAdvanceSession(c, s, rid), rid, TokCreate(f.req, f.sid, g, f.art.record),
            Advanced(c, f, sess));
      }
    }
  }

  // --- storing the next refresh token ---

  lemma CreateStores(s: State, s': State, rid: RequestId, f: Flow)
    requires StoresOk(s) && rid in s.flows && s.flows[rid] == f && f.TokCreate? && FlowOk(s.h, rid, f)
    requires AdvancesOf(s.h, f.sid) != []
    requires s' == Goto(s, rid, Done).(tokens := s.tokens[f.grant.token := f.record],
               h := LogResponse(s.h, f.sid, f.grant))
    ensures StoresOk(s') && f.grant.token !in s.tokens
  {
    assert f.grant.token in s.tokens ==> TokenOk(s, f.grant.token);
    forall t | t in s'.tokens ensures TokenOk(s', t) {
      assert t in s.tokens ==> TokenOk(s, t);
    }
    forall sid | sid in s'.sessions ensures sid in s'.h.logs && SessionOk(s'.sessions[sid], s'.h.logs[sid]) {
      assert sid in s.sessions && SessionOk(s.sessions[sid], s.h.logs[sid]);
    }
  }

  lemma CreateRequests(s: State, s': State, rid: RequestId, f: Flow)
    requires RequestsOk(s) && rid in s.flows && f.TokCreate?
    requires s'.flows == s.flows[rid := Done] && s'.h == LogResponse(s.h, f.sid, f.grant)
    ensures RequestsOk(s')
  {
    forall sid, k | sid in s'.h.logs && 0 <= k < |s'.h.logs[sid].advances|
      ensures StepOver(s', s'.h.logs[sid].advances[k])
    {
      assert s'.h.logs[sid].advances == s.h.logs[sid].advances;
      assert StepOver(s, s.h.logs[sid].advances[k]);
    }
  }

  lemma CreateHolders(s: State, s': State, rid: RequestId, f: Flow)
    requires AtMostOneHolder(s) && TailsOk(s) && rid in s.flows && s.flows[rid] == f && f.TokCreate?
    requires f.record.session == f.sid && f.grant.token !in s.tokens && f.sid in s.h.logs
    requires s' == Goto(s, rid, Done).(tokens := s.tokens[f.grant.token := f.record],
               h := LogResponse(s.h, f.sid, f.grant))
    ensures AtMostOneHolder(s') && TailsOk(s')
  {
    assert Holds(s, ByFlow(rid), f.sid);
    assert TailOk(s, ByFlow(rid), f.sid);
    assert CreditMoves(s, s', ByFlow(rid), ByToken(f.grant.token), f.sid);
    Handover(s, s', ByFlow(rid), ByToken(f.grant.token), f.sid);
    forall x, sid | Holds(s', x, sid) ensures sid in s'.h.logs && TailOk(s', x, sid) {
      if x != ByToken(f.grant.token) {
        assert Holds(s, x, sid) && TailOk(s, x, sid);
        assert sid != f.sid;
      }
    }
  }

  lemma CreateLog(s: State, rid: RequestId, f: Flow)
    requires LogsOk(s) && TailsOk(s) && rid in s.flows && s.flows[rid] == f && f.TokCreate? && FlowOk(s.h, rid, f)
    ensures AdvancesOf(s.h, f.sid) != []
    ensures LogOk(LogResponse(s.h, f.sid, f.grant), f.sid, LogResponse(s.h, f.sid, f.grant).logs[f.sid])
  {
    assert Holds(s, ByFlow(rid), f.sid);
    assert TailOk(s, ByFlow(rid), f.sid);
    var log, h' := s.h.logs[f.sid], LogResponse(s.h, f.sid, f.grant);
    assert LogOk(s.h, f.sid, log);
    forall k | 0 <= k < |log.advances| ensures GrantOk(h', f.sid, h'.logs[f.sid], k) {
      assert GrantOk(s.h, f.sid, log, k);
    }
  }

  lemma PreserveCreated(s: State, s': State, rid: RequestId, f: Flow)
    requires Inv(s) && rid in s.flows && s.flows[rid] == f && f.TokCreate? && FlowOk(s.h, rid, f)
    requires s' == Goto(s, rid, Done).(tokens := s.tokens[f.grant.token := f.record],
               h := LogResponse(s.h, f.sid, f.grant))
    requires Grows(s.h, s'.h) && LogsOk(s') && AdvancesOf(s.h, f.sid) != []
    ensures Inv(s')
  {
    CreateStores(s, s', rid, f);
    FlowsAfter(s, s', rid, Done);
    CreateRequests(s, s', rid, f);
    CreateHolders(s, s', rid, f);
  }

  lemma CreateLogs(s: State, s': State, rid: RequestId, f: Flow)
    requires LogsOk(s) && TailsOk(s) && rid in s.flows && s.flows[rid] == f && f.TokCreate? && FlowOk(s.h, rid, f)
    requires s'.h == LogResponse(s.h, f.sid, f.grant)
    ensures Grows(s.h, s'.h) && LogsOk(s') && AdvancesOf(s.h, f.sid) != []
  {
    CreateLog(s, rid, f);
    GrowsResponse(s.h, f.sid, f.grant);
    LogsAfterOne(s, s', f.sid);
  }

  lemma PreserveStoreToken(s: State, rid: RequestId)
    requires Inv(s)
    ensures Inv(StoreToken(s, rid))
  {
    if rid in s.flows && s.flows[rid].TokCreate? {
      CreateLogs(s, StoreToken(s, rid), rid, s.flows[rid]);
      PreserveCreated(s, StoreToken(s, rid), rid, s.flows[rid]);
    }
  }

  lemma PreserveFail(s: State, rid: RequestId)
    requires Inv(s)
    ensures Inv(StepFail(s, rid))
  {
    QuietFail(s, rid);
    QuietPreserves(s, StepFail(s, rid), rid);
  }

  lemma PreserveCreate(c: Config, s: State, rid: RequestId)
    requires Inv(s)
    ensures Inv(StepCreateToken(c, s, rid))
  {
    PreserveFail(s, rid);
    PreserveStoreToken(s, rid);
  }

  // --- authorization: a new session, then its code ---

  lemma NewSessionLogs(s: State, s': State, sid: SessionId, log: Log)
    requires StoresOk(s) && LogsOk(s) && sid !in s.h.logs
    requires log.advances == [] && log.responses == [] && log.born.deviceId != "" && log.born.scopes != []
    requires ScopesAllowed(log.born.scopes, log.allowedScopes)
    requires s'.h == s.h.(logs := s.h.logs[sid := log])
    ensures Grows(s.h, s'.h) && LogsOk(s')
  {
    LogsAfterOne(s, s', sid);
  }

  lemma NewSessionStores(s: State, s': State, rid: RequestId, sid: SessionId, sess: Session, log: Log)
    requires StoresOk(s) && rid in s.flows && sid !in s.h.logs && s.flows[rid].AuthSession?
    requires log.born == sess && log.advances == [] && sess.status.PendingConsent? && sess.lastJti.None?
    requires s'.sessions == s.sessions[sid := sess] && s'.h == s.h.(logs := s.h.logs[sid := log])
    requires s'.codes == s.codes && s'.tokens == s.tokens && rid in s'.flows
    requires s'.flows == s.flows[rid := s'.flows[rid]]
    ensures StoresOk(s')
  {
    forall t | t in s'.tokens ensures TokenOk(s', t) {
      assert TokenOk(s, t);
    }
  }

  lemma NewSessionHolders(s: State, s': State, rid: RequestId, sid: SessionId, log: Log)
    requires AtMostOneHolder(s) && TailsOk(s) && rid in s.flows && sid !in s.h.logs && s.flows[rid].AuthSession?
    requires log.advances == [] && s'.h == s.h.(logs := s.h.logs[sid := log])
    requires s'.codes == s.codes && s'.tokens == s.tokens
    requires rid in s'.flows && s'.flows == s.flows[rid := s'.flows[rid]] && s'.flows[rid].AuthCode?
    requires s'.flows[rid].sid == sid
    ensures AtMostOneHolder(s') && TailsOk(s')
  {
    forall x, i | Holds(s', x, i) ensures (x == ByFlow(rid) && i == sid) || (Holds(s, x, i) && i != sid) {
      if x != ByFlow(rid) {
        assert Holds(s, x, i);
      }
    }
    forall x, i | Holds(s', x, i) ensures i in s'.h.logs && TailOk(s', x, i) {
      if x != ByFlow(rid) {
        assert Holds(s, x, i) && TailOk(s, x, i);
      }
    }
  }

  lemma NewSessionRequests(s: State, s': State, rid: RequestId, sid: SessionId, log: Log)
    requires RequestsOk(s) && rid in s.flows && s.flows[rid].AuthSession? && sid !in s.h.logs && log.advances == []
    requires s'.h == s.h.(logs := s.h.logs[sid := log])
    requires rid in s'.flows && s'.flows == s.flows[rid := s'.flows[rid]]
    ensures RequestsOk(s')
  {
    forall i, k | i in s'.h.logs && 0 <= k < |s'.h.logs[i].advances| ensures StepOver(s', s'.h.logs[i].advances[k]) {
      assert StepOver(s, s.h.logs[i].advances[k]);
    }
  }

  lemma PreserveNewSession(s: State, s': State, rid: RequestId, sid: SessionId, sess: Session, f: Flow, log: Log)
    requires Inv(s) && rid in s.flows && s.flows[rid].AuthSession? && sid !in s.h.logs
    requires f.AuthCode? && f.sid == sid && log.born == sess && log.advances == [] && log.responses == []
    requires sess.status.PendingConsent? && sess.lastJti.None? && sess.deviceId != "" && sess.scopes != []
    requires ScopesAllowed(sess.scopes, log.allowedScopes)
    requires s' == Goto(s, rid, f).(sessions := s.sessions[sid := sess], h := s.h.(logs := s.h.logs[sid := log]))
    ensures Inv(s')
  {
    NewSessionLogs(s, s', sid, log);
    NewSessionStores(s, s', rid, sid, sess, log);
    NewSessionRequests(s, s', rid, sid, log);
    NewSessionHolders(s, s', rid, sid, log);
    FlowsAfter(s, s', rid, f);
  }

  lemma PreserveStoreSession(c: Config, s: State, rid: RequestId, sid: SessionId)
    requires Inv(s)
    ensures Inv(StoreSession(c, s, rid, sid))
  {
    if rid in s.flows && s.flows[rid].AuthSession? && sid !in s.h.logs {
      var p, s' := s.flows[rid].params, StoreSession(c, s, rid, sid);
      assert FlowOk(s.h, rid, s.flows[rid]);
      var made := NewSession(s.flows[rid].user, p.client, p.tenant, p.scopes, p.now, p.now + c.sessionTtl, p.deviceId,
                             p.fingerprint);
      if made.None? {
        QuietFail(s, rid);
        QuietPreserves(s, s', rid);
      } else {
        PreserveNewSession(s, s', rid, sid, made.value, AuthCode(p, sid),
                           Log(made.value, p.redirectUri, p.allowedScopes, [], []));
      }
    }
  }

  lemma PreserveCreateSession(c: Config, s: State, rid: RequestId, sid: SessionId)
    requires Inv(s)
    ensures Inv(StepCreateSession(c, s, rid, sid))
  {
    PreserveFail(s, rid);
    PreserveStoreSession(c, s, rid, sid);
  }

  lemma NewCodeStores(s: State, s': State, rid: RequestId, code: CodeId, rec: AuthorizationCode)
    requires StoresOk(s) && rid in s.flows && s.flows[rid].AuthCode? && code !in s.h.codeOf && rec.session in s.h.logs
    requires s' == Goto(s, rid, Done).(codes := s.codes[code := rec],
               h := s.h.(codeOf := s.h.codeOf[code := rec.session]))
    ensures StoresOk(s') && Grows(s.h, s'.h) && code !in s.codes
  {
    forall t | t in s'.tokens ensures TokenOk(s', t) {
      assert TokenOk(s, t);
    }
  }

  lemma NewCodeHolders(s: State, s': State, rid: RequestId, code: CodeId, rec: AuthorizationCode)
    requires AtMostOneHolder(s) && TailsOk(s) && rid in s.flows && s.flows[rid].AuthCode? && code !in s.codes
    requires rec.session == s.flows[rid].sid
    requires s' == Goto(s, rid, Done).(codes := s.codes[code := rec],
               h := s.h.(codeOf := s.h.codeOf[code := rec.session]))
    ensures AtMostOneHolder(s') && TailsOk(s')
  {
    var sid := rec.session;
    assert Holds(s, ByFlow(rid), sid);
    assert TailOk(s, ByFlow(rid), sid);
    assert CreditMoves(s, s', ByFlow(rid), ByCode(code), sid);
    Handover(s, s', ByFlow(rid), ByCode(code), sid);
    forall x, i | Holds(s', x, i) ensures i in s'.h.logs && TailOk(s', x, i) {
      if x != ByCode(code) {
        assert Holds(s, x, i) && TailOk(s, x, i);
      }
    }
  }

  lemma PreserveNewCode(s: State, s': State, rid: RequestId, code: CodeId, rec: AuthorizationCode)
    requires Inv(s) && rid in s.flows && s.flows[rid].AuthCode? && code !in s.h.codeOf
    requires rec.session == s.flows[rid].sid && rec.session in s.h.logs
    requires s' == Goto(s, rid, Done).(codes := s.codes[code := rec],
               h := s.h.(codeOf := s.h.codeOf[code := rec.session]))
    ensures Inv(s')
  {
    NewCodeStores(s, s', rid, code, rec);
    LogsAfter(s, s');
    RequestsAfter(s, s', rid, Done);
    NewCodeHolders(s, s', rid, code, rec);
    FlowsAfter(s, s', rid, Done);
  }

  lemma PreserveCreateCode(c: Config, s: State, rid: RequestId, code: CodeId)
    requires Inv(s)
    ensures Inv(StepCreateCode(c, s, rid, code))
  {
    PreserveFail(s, rid);
    PreserveStoreCode(s, rid, code);
  }

  lemma PreserveStoreCode(s: State, rid: RequestId, code: CodeId)
    requires Inv(s)
    ensures Inv(StoreCode(s, rid, code))
  {
    if rid in s.flows && s.flows[rid].AuthCode? && code !in s.h.codeOf {
      var f, s' := s.flows[rid], StoreCode(s, rid, code);
      assert FlowOk(s.h, rid, f);
      if f.params.redirectUri == "" {
        QuietFail(s, rid);
        QuietPreserves(s, s', rid);
      } else {
        PreserveNewCode(s, s', rid, code,
          AuthorizationCode(f.sid, f.params.redirectUri, f.params.now + CODE_TTL, false, f.params.now));
      }
    }
  }

  // ----- every step -----

  lemma QuietBeginAuthorize(s: State, rid: RequestId, p: AuthorizeParams)
    ensures Quiet(s, StepBeginAuthorize(s, rid, p), rid)
  {
    if ScopesAllowed(p.scopes, p.allowedScopes) && p.deviceId != "" {
      QuietBegin(s, rid, AuthReady(p));
    } else {
      QuietSame(s, rid);
    }
  }

  lemma QuietBeginDelete(s: State, rid: RequestId, user: UserId)
    ensures Quiet(s, StepBeginDelete(s, rid, user), rid)
  {
    if user in s.users {
      QuietBegin(s, rid, DelReady(user));
    } else {
      QuietSame(s, rid);
    }
  }

  lemma PreserveToken(c: Config, s: State, rid: RequestId, t: TokenAction)
    requires Inv(s)
    ensures Inv(StepToken(c, s, rid, t))
  {
    match t
    case BeginToken(req) => QuietBegin(s, rid, TokStart(req)); QuietPreserves(s, Begin(s, rid, TokStart(req)), rid);
    case FindCredential => QuietFindCredential(s, rid); QuietPreserves(s, StepFindCredential(s, rid), rid);
    case FindSession => QuietFindSession(s, rid); QuietPreserves(s, StepFindSession(s, rid), rid);
    case Prepare(ctx, active, token, jti) => PreservePrepare(c, s, rid, ctx, active, token, jti);
    case Consume => PreserveConsume(s, rid);
    case ReplayRevoke => QuietReplayRevoke(s, rid); QuietPreserves(s, StepReplayRevoke(s, rid), rid);
    case AdvanceSession => PreserveAdvance(c, s, rid);
    case CreateToken => PreserveCreate(c, s, rid);
  }

  lemma PreserveAccount(c: Config, s: State, rid: RequestId, u: AccountAction)
    requires Inv(s)
    ensures Inv(StepAccount(c, s, rid, u))
  {
    match u
    case BeginAuthorize(p) => QuietBeginAuthorize(s, rid, p); QuietPreserves(s, StepBeginAuthorize(s, rid, p), rid);
    case FindOrCreateUser(pick) => QuietFindOrCreateUser(s, rid, pick);
      QuietPreserves(s, StepFindOrCreateUser(s, rid, pick), rid);
    case CreateSession(sid) => PreserveCreateSession(c, s, rid, sid);
    case CreateCode(code) => PreserveCreateCode(c, s, rid, code);
    case BeginDelete(user) => QuietBeginDelete(s, rid, user); QuietPreserves(s, StepBeginDelete(s, rid, user), rid);
    case DeleteSessions => QuietDeleteSessions(c, s, rid); QuietPreserves(s, StepDeleteSessions(c, s, rid), rid);
    case DeleteUserRow => QuietDeleteUserRow(c, s, rid); QuietPreserves(s, StepDeleteUserRow(c, s, rid), rid);
  }

  lemma QuietRevocation(c: Config, s: State, rid: RequestId, v: RevokeAction)
    requires StoresOk(s) && At(s, rid)
    ensures Quiet(s, StepRevoke(c, s, rid, v), rid)
  {
    match v
    case BeginRevoke(user, sid, now) => QuietBegin(s, rid, RevExecute(user, sid, now));
    case ExecuteRevoke => QuietExecuteRevoke(s, rid);
    case BeginLogoutAll(user, keep, order, now) => QuietLogoutAll(s, rid, user, keep, order, now);
    case ResolveAccess(sid, jti, now) => QuietResolveAccess(s, rid, sid, jti, now);
    case ResolveRefresh(token, now) => QuietResolveRefresh(s, rid, token, now);
    case ResolveSession => QuietResolveSession(s, rid);
    case RevokeTarget(ok) => QuietRevokeTarget(s, rid, ok);
    case WriteTrl(clock, ok) => QuietWriteTrl(c, s, rid, clock, ok);
    case DeleteTokens(ok) => QuietDeleteTokens(s, rid, ok);
  }

  lemma QuietTx(c: Config, s: State, rid: RequestId, x: TxAction)
    requires At(s, rid)
    ensures Quiet(s, StepTx(c, s, rid, x), rid)
  {
    match x
    case Acquire => QuietAcquire(c, s, rid);
    case Release => QuietRelease(s, rid);
    case Fail => QuietFail(s, rid);
  }

  lemma QuietCleanup(c: Config, s: State, k: CleanupAction, rid: RequestId)
    ensures Quiet(s, StepCleanup(c, s, k), rid)
  {
    match k
    case CleanCodes(now) => QuietCleanCodes(s, now, rid);
    case CleanTokens(now) => QuietCleanTokens(s, now, rid);
    case CleanUsedTokens => QuietCleanUsedTokens(s, rid);
    case CleanSessions(now) => QuietCleanSessions(c, s, now, rid);
  }

  lemma PreserveStep(c: Config, s: State, a: Action)
    requires Inv(s)
    ensures Inv(Step(c, s, a))
  {
    match a
    case OnToken(rid, t) => PreserveToken(c, s, rid, t);
    case OnAccount(rid, u) => PreserveAccount(c, s, rid, u);
    case OnRevoke(rid, v) => QuietRevocation(c, s, rid, v); QuietPreserves(s, StepRevoke(c, s, rid, v), rid);
    case OnTx(rid, x) => QuietTx(c, s, rid, x); QuietPreserves(s, StepTx(c, s, rid, x), rid);
    case OnCleanup(k) => QuietCleanup(c, s, k, 0); QuietPreserves(s, StepCleanup(c, s, k), 0);
  }

  lemma InitInv(users: map<UserId, User>)
    ensures Inv(Init(users))
  {
  }

  lemma {:induction false} PreserveRun(c: Config, s: State, acts: seq<Action>)
    requires Inv(s)
    ensures Inv(Run(c, s, acts))
    decreases |acts|
  {
    if acts != [] {
      PreserveStep(c, s, acts[0]);
      PreserveRun(c, Step(c, s, acts[0]), acts[1..]);
    }
  }

  lemma ReachableInv(c: Config, s: State)
    requires Reachable(c, s)
    ensures Inv(s)
  {
    var users, acts :| s == Run(c, Init(users), acts);
    InitInv(users);
    PreserveRun(c, Init(users), acts);
  }
}
