/** On which terms sessions go on: every step of a session was made in time, the
    first one for the redirect URI the session was authorized for. */
module TokenTerms {
  import opened Common
  import opened AuthModels
  import opened TokenProtocol
  import opened TokenInvariants
  import opened TokenSteps
  import opened TokenControl
  import opened TokenTheorems
  import opened TokenGuarantees
  import opened TokenLifetimes

  // The k-th step was made before the session's end: the first within the code's lifetime after the authorization
  // and for its redirect URI, each later one within a refresh token's lifetime after the step before.
  predicate StepInTime(c: Config, log: Log, k: nat)
    requires k < |log.advances|
  {
    var g := log.advances[k];
    && g.at <= log.born.expiresAt
    && (k == 0 ==> g.at <= log.born.createdAt + CODE_TTL && g.redirectUri == log.redirectUri)
    && (k > 0 ==> g.at <= log.advances[k - 1].at + c.refreshTtl)
  }

  predicate StepsInTime(c: Config, log: Log) {
    forall k | 0 <= k < |log.advances| :: StepInTime(c, log, k)
  }

  predicate CodeTerms(h: History, code: AuthorizationCode) {
    && code.session in h.logs
    && code.createdAt == h.logs[code.session].born.createdAt
    && code.redirectUri == h.logs[code.session].redirectUri
  }

  // An unused refresh token dates from the session's last step; a used one has the time of its use.
  predicate TokenTerms(h: History, token: RefreshToken) {
    if token.used then token.lastRefreshedAt.Some?
    else
      var adv := AdvancesOf(h, token.session);
      adv != [] && token.createdAt == adv[|adv| - 1].at && token.lastRefreshedAt.None?
  }

  // A request about to make a session step has presented its credential in time.
  predicate FlowTerms(c: Config, h: History, f: Flow) {
    match f
    case AuthCode(p, sid) =>
      sid in h.logs && h.logs[sid].born.createdAt == p.now && h.logs[sid].redirectUri == p.redirectUri
    case TokAdvance(req, sid, _, _, _) =>
      && sid in h.logs
      && (match req.cred
          case CodeCred(_) =>
            req.now <= h.logs[sid].born.createdAt + CODE_TTL && req.redirectUri == h.logs[sid].redirectUri
          case TokenCred(_) =>
            var adv := AdvancesOf(h, sid); adv != [] && req.now <= adv[|adv| - 1].at + c.refreshTtl)
    case _ => true
  }

  ghost predicate Terms(c: Config, s: State) {
    && (forall sid :: sid in s.h.logs ==> StepsInTime(c, s.h.logs[sid]))
    && (forall k :: k in s.codes ==> CodeTerms(s.h, s.codes[k]))
    && (forall t :: t in s.tokens ==> TokenTerms(s.h, s.tokens[t]))
    && (forall r :: r in s.flows ==> FlowTerms(c, s.h, s.flows[r]))
  }

  // ----- step by step -----

  lemma QuietTerms(c: Config, s: State, s': State, rid: RequestId)
    requires Quiet(s, s', rid) && Terms(c, s)
    ensures Terms(c, s')
  {
  }

  lemma PrepareTerms(c: Config, s: State, rid: RequestId, ctx: TokenContext, active: bool, token: TokenId, jti: Jti)
    requires Terms(c, s)
    ensures Terms(c, StepPrepare(c, s, rid, ctx, active, token, jti))
  {
  }

  // A code that passes the check was presented in time and for its redirect URI.
  lemma CodeInTime(c: Config, s: State, f: Flow, k: CodeId)
    requires f.TokConsume? && f.req.cred == CodeCred(k) && k in s.codes && CodeTerms(s.h, s.codes[k])
    requires s.codes[k].session == f.sid && s.codes[k].expiresAt == s.codes[k].createdAt + CODE_TTL
    requires s.codes[k].ValidateForConsume(f.req.redirectUri, f.req.now).None?
    ensures FlowTerms(c, s.h, TokAdvance(f.req, f.sid, f.snap.(tenant := f.ctx.tenant), f.ctx, f.art))
  {
  }

  lemma TokenInTime(c: Config, s: State, f: Flow, t: TokenId)
    requires f.TokConsume? && f.req.cred == TokenCred(t) && t in s.tokens && TokenTerms(s.h, s.tokens[t])
    requires f.sid in s.h.logs && s.tokens[t].session == f.sid
    requires s.tokens[t].expiresAt == s.tokens[t].createdAt + c.refreshTtl
    requires s.tokens[t].ValidateForConsume(f.req.now).None?
    ensures FlowTerms(c, s.h, TokAdvance(f.req, f.sid, f.snap, f.ctx, f.art))
  {
  }

  // A step that moves one request and uses up at most one code.
  lemma SpentCodeTerms(c: Config, s: State, s': State, rid: RequestId, f: Flow, k: CodeId)
    requires Terms(c, s) && s'.h == s.h && s'.tokens == s.tokens
    requires s'.flows == s.flows[rid := f] && FlowTerms(c, s.h, f)
    requires s'.codes == s.codes || (k in s.codes && s'.codes == s.codes[k := s.codes[k].MarkUsed()])
    ensures Terms(c, s')
  {
  }

  lemma SpentTokenTerms(c: Config, s: State, s': State, rid: RequestId, f: Flow, t: TokenId, at: Time)
    requires Terms(c, s) && s'.h == s.h && s'.codes == s.codes
    requires s'.flows == s.flows[rid := f] && FlowTerms(c, s.h, f)
    requires s'.tokens == s.tokens || (t in s.tokens && s'.tokens == s.tokens[t := s.tokens[t].MarkUsed(at)])
    ensures Terms(c, s')
  {
  }

  lemma CodeConsumed(c: Config, s: State, rid: RequestId, f: Flow, k: CodeId)
    requires f.TokConsume? && f.req.cred == CodeCred(k)
    requires k in s.codes ==> CodeTerms(s.h, s.codes[k]) && s.codes[k].session == f.sid
                              && s.codes[k].expiresAt == s.codes[k].createdAt + CODE_TTL
    ensures var s' := StepConsumeCode(s, rid, f, k);
            rid in s'.flows && s'.flows == s.flows[rid := s'.flows[rid]] && FlowTerms(c, s.h, s'.flows[rid])
  {
    if k in s.codes && s.codes[k].ValidateForConsume(f.req.redirectUri, f.req.now).None? {
      CodeInTime(c, s, f, k);
    }
  }

  lemma TokenConsumed(c: Config, s: State, rid: RequestId, f: Flow, t: TokenId)
    requires f.TokConsume? && f.req.cred == TokenCred(t) && f.sid in s.h.logs
    requires t in s.tokens ==> TokenTerms(s.h, s.tokens[t]) && s.tokens[t].session == f.sid
                               && s.tokens[t].expiresAt == s.tokens[t].createdAt + c.refreshTtl
    ensures var s' := StepConsumeRefresh(s, rid, f, t);
            rid in s'.flows && s'.flows == s.flows[rid := s'.flows[rid]] && FlowTerms(c, s.h, s'.flows[rid])
  {
    if t in s.tokens && s.tokens[t].ValidateForConsume(f.req.now).None? {
      TokenInTime(c, s, f, t);
    }
  }

  lemma ConsumeCodeTerms(c: Config, s: State, rid: RequestId, f: Flow, k: CodeId)
    requires StoresOk(s) && Terms(c, s) && Lifetimes(c, s) && rid in s.flows && s.flows[rid] == f
    requires f.TokConsume? && f.req.cred == CodeCred(k) && FlowOk(s.h, rid, f)
    ensures Terms(c, StepConsumeCode(s, rid, f, k))
  {
    var s' := StepConsumeCode(s, rid, f, k);
    CodeConsumed(c, s, rid, f, k);
    ConsumeCodeShape(s, rid, f, k);
    SpentCodeTerms(c, s, s', rid, s'.flows[rid], k);
  }

  lemma ConsumeRefreshTerms(c: Config, s: State, rid: RequestId, f: Flow, t: TokenId)
    requires StoresOk(s) && Terms(c, s) && Lifetimes(c, s) && rid in s.flows && s.flows[rid] == f
    requires f.TokConsume? && f.req.cred == TokenCred(t) && FlowOk(s.h, rid, f)
    ensures Terms(c, StepConsumeRefresh(s, rid, f, t))
  {
    var s' := StepConsumeRefresh(s, rid, f, t);
    assert t in s.tokens ==> TokenOk(s, t);
    TokenConsumed(c, s, rid, f, t);
    ConsumeRefreshShape(s, rid, f, t);
    SpentTokenTerms(c, s, s', rid, s'.flows[rid], t, f.req.now);
  }

  lemma ConsumeTerms(c: Config, s: State, rid: RequestId)
    requires Inv(s) && Terms(c, s) && Lifetimes(c, s)
    ensures Terms(c, StepConsume(s, rid))
  {
    if rid in s.flows && s.flows[rid].TokConsume? {
      assert FlowOk(s.h, rid, s.flows[rid]);
      match s.flows[rid].req.cred
      case CodeCred(k) => ConsumeCodeTerms(c, s, rid, s.flows[rid], k);
      case TokenCred(t) => ConsumeRefreshTerms(c, s, rid, s.flows[rid], t);
    }
  }

  // The step added to the log is in time.
  lemma GrantInTime(c: Config, s: State, rid: RequestId, f: Flow)
    requires rid in s.flows && s.flows[rid] == f && f.TokAdvance? && f.sid in s.sessions && f.sid in s.h.logs
    requires SessionOk(s.sessions[f.sid], s.h.logs[f.sid]) && TailOk(s, ByFlow(rid), f.sid)
    requires StepsInTime(c, s.h.logs[f.sid]) && FlowTerms(c, s.h, f)
    requires s.sessions[f.sid].ValidateForAdvance(f.ctx.client, f.req.now, f.req.cred.CodeCred?).None?
    ensures StepsInTime(c, LogAdvance(s.h, f.sid, GrantOf(rid, f, s.sessions[f.sid])).logs[f.sid])
  {
    var log, log' := s.h.logs[f.sid], LogAdvance(s.h, f.sid, GrantOf(rid, f, s.sessions[f.sid])).logs[f.sid];
    forall k | 0 <= k < |log'.advances| ensures StepInTime(c, log', k) {
      if k < |log.advances| {
        assert StepInTime(c, log, k);
      }
    }
  }

  // No other request and no unused token depends on the session's last step.
  lemma CommitTerms(c: Config, s: State, s': State, rid: RequestId, f: Flow, g: Grant)
    requires AtMostOneHolder(s) && Terms(c, s) && rid in s.flows && s.flows[rid] == f && f.TokAdvance?
    requires f.sid in s.h.logs && StepsInTime(c, LogAdvance(s.h, f.sid, g).logs[f.sid])
    requires s'.flows == s.flows[rid := TokCreate(f.req, f.sid, g, f.art.record)]
    requires s'.h == LogAdvance(s.h, f.sid, g) && s'.codes == s.codes && s'.tokens == s.tokens
    ensures Terms(c, s')
  {
    assert Holds(s, ByFlow(rid), f.sid);
    forall t | t in s.tokens ensures TokenTerms(s'.h, s.tokens[t]) {
      assert TokenTerms(s.h, s.tokens[t]);
      assert !Holds(s, ByToken(t), f.sid);
    }
    forall r | r in s'.flows && r != rid ensures FlowTerms(c, s'.h, s'.flows[r]) {
      assert FlowTerms(c, s.h, s.flows[r]);
      assert !Holds(s, ByFlow(r), f.sid);
    }
  }

  lemma AdvanceTerms(c: Config, s: State, rid: RequestId)
    requires Inv(s) && Terms(c, s)
    ensures Terms(c, StepAdvanceSession(c, s, rid))
  {
    var s' := StepAdvanceSession(c, s, rid);
    if s' == s || s' == Goto(s, rid, Done) {
    } else {
      var f := s.flows[rid];
      assert Holds(s, ByFlow(rid), f.sid);
      GrantInTime(c, s, rid, f);
      CommitTerms(c, s, s', rid, f, GrantOf(rid, f, s.sessions[f.sid]));
    }
  }

  lemma StoreTokenTerms(c: Config, s: State, rid: RequestId, f: Flow)
    requires Terms(c, s) && rid in s.flows && s.flows[rid] == f && f.TokCreate? && f.sid in s.h.logs
    requires TailOk(s, ByFlow(rid), f.sid) && FlowOk(s.h, rid, f) && ExpiryOk(c, f)
    ensures Terms(c, StoreToken(s, rid))
  {
    var s' := StoreToken(s, rid);
    assert forall sid :: AdvancesOf(s'.h, sid) == AdvancesOf(s.h, sid);
    forall sid | sid in s'.h.logs ensures StepsInTime(c, s'.h.logs[sid]) {
      assert StepsInTime(c, s.h.logs[sid]);
      forall k | 0 <= k < |s'.h.logs[sid].advances| ensures StepInTime(c, s'.h.logs[sid], k) {
        assert StepInTime(c, s.h.logs[sid], k);
      }
    }
  }

  lemma CreatingHolds(s: State, rid: RequestId)
    requires Inv(s) && rid in s.flows && s.flows[rid].TokCreate?
    ensures s.flows[rid].sid in s.h.logs && TailOk(s, ByFlow(rid), s.flows[rid].sid) && FlowOk(s.h, rid, s.flows[rid])
  {
    assert Holds(s, ByFlow(rid), s.flows[rid].sid);
  }

  lemma StoredOrStopped(c: Config, s: State, rid: RequestId)
    ensures StepCreateToken(c, s, rid) in {s, Goto(s, rid, Done), StoreToken(s, rid)}
  {
  }

  lemma CreateTokenTerms(c: Config, s: State, rid: RequestId)
    requires Inv(s) && Terms(c, s) && ExpiriesOk(c, s)
    ensures Terms(c, StepCreateToken(c, s, rid))
  {
    StoredOrStopped(c, s, rid);
    StoppedTerms(c, s, rid);
    if rid in s.flows && s.flows[rid].TokCreate? {
      CreatingHolds(s, rid);
      StoreTokenTerms(c, s, rid, s.flows[rid]);
    }
  }

  lemma StoppedTerms(c: Config, s: State, rid: RequestId)
    requires Terms(c, s)
    ensures Terms(c, Goto(s, rid, Done))
  {
  }

  // A session without steps yet, and nothing that refers to it.
  lemma NewSessionTerms(c: Config, s: State, s': State, rid: RequestId, p: AuthorizeParams, sid: SessionId, log: Log)
    requires Terms(c, s) && sid !in s.h.logs && s'.codes == s.codes && s'.tokens == s.tokens
    requires log.advances == [] && log.born.createdAt == p.now && log.redirectUri == p.redirectUri
    requires s'.h == s.h.(logs := s.h.logs[sid := log]) && s'.flows == s.flows[rid := AuthCode(p, sid)]
    ensures Terms(c, s')
  {
    forall t | t in s.tokens ensures TokenTerms(s'.h, s.tokens[t]) {
      assert TokenTerms(s.h, s.tokens[t]);
    }
    forall r | r in s'.flows ensures FlowTerms(c, s'.h, s'.flows[r]) {
      assert r == rid || FlowTerms(c, s.h, s.flows[r]);
    }
  }

  lemma CreateSessionTerms(c: Config, s: State, rid: RequestId, sid: SessionId)
    requires Terms(c, s)
    ensures Terms(c, StepCreateSession(c, s, rid, sid))
  {
    var s' := StepCreateSession(c, s, rid, sid);
    StoppedTerms(c, s, rid);
    if s' != s && s' != Goto(s, rid, Done) {
      NewSessionTerms(c, s, s', rid, s.flows[rid].params, sid, s'.h.logs[sid]);
    }
  }

  lemma NewCodeTerms(c: Config, s: State, s': State, rid: RequestId, code: CodeId, record: AuthorizationCode)
    requires Terms(c, s) && CodeTerms(s.h, record) && s'.codes == s.codes[code := record] && s'.tokens == s.tokens
    requires s'.h.logs == s.h.logs && s'.flows == s.flows[rid := Done]
    ensures Terms(c, s')
  {
  }

  lemma CreateCodeTerms(c: Config, s: State, rid: RequestId, code: CodeId)
    requires Terms(c, s)
    ensures Terms(c, StepCreateCode(c, s, rid, code))
  {
    var s' := StepCreateCode(c, s, rid, code);
    StoppedTerms(c, s, rid);
    if s' != s && s' != Goto(s, rid, Done) {
      assert FlowTerms(c, s.h, s.flows[rid]);
      NewCodeTerms(c, s, s', rid, code, s'.codes[code]);
    }
  }

  lemma TermsToken(c: Config, s: State, rid: RequestId, t: TokenAction)
    requires Inv(s) && Terms(c, s) && Lifetimes(c, s) && ExpiriesOk(c, s)
    ensures Terms(c, StepToken(c, s, rid, t))
  {
    match t
    case BeginToken(req) => QuietBegin(s, rid, TokStart(req)); QuietTerms(c, s, Begin(s, rid, TokStart(req)), rid);
    case FindCredential => QuietFindCredential(s, rid); QuietTerms(c, s, StepFindCredential(s, rid), rid);
    case FindSession => QuietFindSession(s, rid); QuietTerms(c, s, StepFindSession(s, rid), rid);
    case Prepare(ctx, active, token, jti) => PrepareTerms(c, s, rid, ctx, active, token, jti);
    case Consume => ConsumeTerms(c, s, rid);
    case ReplayRevoke => QuietReplayRevoke(s, rid); QuietTerms(c, s, StepReplayRevoke(s, rid), rid);
    case AdvanceSession => AdvanceTerms(c, s, rid);
    case CreateToken => CreateTokenTerms(c, s, rid);
  }

  lemma TermsAccount(c: Config, s: State, rid: RequestId, u: AccountAction)
    requires Inv(s) && Terms(c, s)
    ensures Terms(c, StepAccount(c, s, rid, u))
  {
    match u
    case BeginAuthorize(p) => QuietBeginAuthorize(s, rid, p); QuietTerms(c, s, StepBeginAuthorize(s, rid, p), rid);
    case FindOrCreateUser(pick) => QuietFindOrCreateUser(s, rid, pick);
      QuietTerms(c, s, StepFindOrCreateUser(s, rid, pick), rid);
    case CreateSession(sid) => CreateSessionTerms(c, s, rid, sid);
    case CreateCode(code) => CreateCodeTerms(c, s, rid, code);
    case BeginDelete(user) => QuietBeginDelete(s, rid, user); QuietTerms(c, s, StepBeginDelete(s, rid, user), rid);
    case DeleteSessions => QuietDeleteSessions(c, s, rid); QuietTerms(c, s, StepDeleteSessions(c, s, rid), rid);
    case DeleteUserRow => QuietDeleteUserRow(c, s, rid); QuietTerms(c, s, StepDeleteUserRow(c, s, rid), rid);
  }

  lemma TermsStep(c: Config, s: State, a: Action)
    requires Inv(s) && Terms(c, s) && Lifetimes(c, s) && ExpiriesOk(c, s)
    ensures Terms(c, Step(c, s, a))
  {
    match a
    case OnToken(rid, t) => TermsToken(c, s, rid, t);
    case OnAccount(rid, u) => TermsAccount(c, s, rid, u);
    case OnRevoke(rid, v) => QuietRevocation(c, s, rid, v); QuietTerms(c, s, Step(c, s, a), rid);
    case OnTx(rid, x) => QuietTx(c, s, rid, x); QuietTerms(c, s, Step(c, s, a), rid);
    case OnCleanup(k) => QuietCleanup(c, s, k, 0); QuietTerms(c, s, Step(c, s, a), 0);
  }

  lemma {:induction false} TermsRun(c: Config, s: State, acts: seq<Action>)
    requires Inv(s) && Terms(c, s) && Lifetimes(c, s) && ExpiriesOk(c, s)
    ensures Terms(c, Run(c, s, acts))
    decreases |acts|
  {
    if acts != [] {
      PreserveStep(c, s, acts[0]);
      ExpiriesStep(c, s, acts[0]);
      LifetimesStep(c, s, acts[0]);
      TermsStep(c, s, acts[0]);
      TermsRun(c, Step(c, s, acts[0]), acts[1..]);
    }
  }

  lemma ReachableTerms(c: Config, s: State)
    requires Reachable(c, s)
    ensures Terms(c, s)
  {
    var users, acts :| s == Run(c, Init(users), acts);
    InitInv(users);
    TermsRun(c, Init(users), acts);
  }

  // ----- the results -----

  /** In every reachable state, however requests interleave and in whatever order
      their times come: no step of a session was made after the session's end;
      the first was made within ten minutes of the authorization and for the
      redirect URI it was authorized for; each later one within the refresh
      lifetime after the one before. */
  lemma EveryStepInTime(c: Config, s: State, sid: SessionId, k: nat)
    requires Reachable(c, s) && sid in s.h.logs && k < |AdvancesOf(s.h, sid)|
    ensures var log, adv := s.h.logs[sid], AdvancesOf(s.h, sid);
            && adv[k].at <= log.born.expiresAt
            && (k == 0 ==> adv[k].at <= log.born.createdAt + 600 && adv[k].redirectUri == log.redirectUri)
            && (k > 0 ==> adv[k].at <= adv[k - 1].at + c.refreshTtl)
  {
    ReachableTerms(c, s);
    assert StepInTime(c, s.h.logs[sid], k);
  }

  /** So a chain of k refreshes ends at most k refresh lifetimes after the
      first ten minutes, and with the session at the latest. */
  lemma {:induction false} ChainInTime(c: Config, s: State, sid: SessionId, k: nat)
    requires Reachable(c, s) && sid in s.h.logs && k < |AdvancesOf(s.h, sid)|
    ensures AdvancesOf(s.h, sid)[k].at <= s.h.logs[sid].born.createdAt + 600 + k * c.refreshTtl
    ensures AdvancesOf(s.h, sid)[k].at <= s.h.logs[sid].born.createdAt + c.sessionTtl
    decreases k
  {
    EveryStepInTime(c, s, sid, k);
    ReachableLifetimes(c, s);
    if k > 0 {
      ChainInTime(c, s, sid, k - 1);
      assert (k - 1) * c.refreshTtl + c.refreshTtl == k * c.refreshTtl;
    }
  }

  /** A refresh token says when it was used, and only then: using it up records
      the time of the request. */
  lemma UseIsDated(c: Config, s: State, t: TokenId, now: Time)
    requires Reachable(c, s) && t in s.tokens
    ensures s.tokens[t].used <==> s.tokens[t].lastRefreshedAt.Some?
    ensures !s.tokens[t].used ==>
              s.tokens[t].MarkUsed(now) == s.tokens[t].(used := true, lastRefreshedAt := Some(now))
  {
    ReachableTerms(c, s);
    assert TokenTerms(s.h, s.tokens[t]);
  }
}
