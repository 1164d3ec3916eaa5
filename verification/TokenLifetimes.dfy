/** Sessions, codes and tokens live exactly as long as the configuration says,
    counted from the time of the request that made them. */
module TokenLifetimes {
  import opened Common
  import opened AuthModels
  import opened TokenProtocol
  import opened TokenInvariants
  import opened TokenSteps
  import opened TokenControl
  import opened TokenTheorems
  import opened TokenGuarantees

  predicate Lifetimes(c: Config, s: State) {
    && (forall sid :: sid in s.h.logs ==> s.h.logs[sid].born.expiresAt == s.h.logs[sid].born.createdAt + c.sessionTtl)
    && (forall k :: k in s.codes ==> s.codes[k].expiresAt == s.codes[k].createdAt + CODE_TTL)
    && (forall t :: t in s.tokens ==> s.tokens[t].expiresAt == s.tokens[t].createdAt + c.refreshTtl)
  }

  lemma QuietLives(c: Config, s: State, s': State, rid: RequestId)
    requires Quiet(s, s', rid) && Lifetimes(c, s)
    ensures Lifetimes(c, s')
  {
  }

  lemma PrepareLives(c: Config, s: State, rid: RequestId, ctx: TokenContext, active: bool, token: TokenId, jti: Jti)
    requires Lifetimes(c, s)
    ensures Lifetimes(c, StepPrepare(c, s, rid, ctx, active, token, jti))
  {
  }

  // A consume step changes at most the one credential, and that only by using it up.
  lemma ConsumeCodeShape(s: State, rid: RequestId, f: Flow, k: CodeId)
    requires f.TokConsume?
    ensures var s' := StepConsumeCode(s, rid, f, k);
            && s'.h == s.h && s'.tokens == s.tokens
            && (s'.codes == s.codes || (k in s.codes && s'.codes == s.codes[k := s.codes[k].MarkUsed()]))
  {
  }

  lemma ConsumeRefreshShape(s: State, rid: RequestId, f: Flow, t: TokenId)
    requires f.TokConsume?
    ensures var s' := StepConsumeRefresh(s, rid, f, t);
            && s'.h == s.h && s'.codes == s.codes
            && (s'.tokens == s.tokens || (t in s.tokens && s'.tokens == s.tokens[t := s.tokens[t].MarkUsed(f.req.now)]))
  {
  }

  lemma UsedCodeLives(c: Config, s: State, s': State, k: CodeId)
    requires Lifetimes(c, s) && s'.h == s.h && s'.tokens == s.tokens
    requires s'.codes == s.codes || (k in s.codes && s'.codes == s.codes[k := s.codes[k].MarkUsed()])
    ensures Lifetimes(c, s')
  {
  }

  lemma UsedTokenLives(c: Config, s: State, s': State, t: TokenId, at: Time)
    requires Lifetimes(c, s) && s'.h == s.h && s'.codes == s.codes
    requires s'.tokens == s.tokens || (t in s.tokens && s'.tokens == s.tokens[t := s.tokens[t].MarkUsed(at)])
    ensures Lifetimes(c, s')
  {
  }

  lemma ConsumeLives(c: Config, s: State, rid: RequestId)
    requires Lifetimes(c, s)
    ensures Lifetimes(c, StepConsume(s, rid))
  {
    if rid in s.flows && s.flows[rid].TokConsume? {
      match s.flows[rid].req.cred
      case CodeCred(k) =>
        ConsumeCodeShape(s, rid, s.flows[rid], k);
        UsedCodeLives(c, s, StepConsume(s, rid), k);
      case TokenCred(t) =>
        ConsumeRefreshShape(s, rid, s.flows[rid], t);
        UsedTokenLives(c, s, StepConsume(s, rid), t, s.flows[rid].req.now);
    }
  }

  lemma AdvanceLives(c: Config, s: State, rid: RequestId)
    requires Lifetimes(c, s)
    ensures Lifetimes(c, StepAdvanceSession(c, s, rid))
  {
  }

  lemma CreateTokenLives(c: Config, s: State, rid: RequestId)
    requires Lifetimes(c, s) && (rid in s.flows ==> ExpiryOk(c, s.flows[rid]))
    ensures Lifetimes(c, StepCreateToken(c, s, rid))
  {
  }

  lemma CreateSessionLives(c: Config, s: State, rid: RequestId, sid: SessionId)
    requires Lifetimes(c, s)
    ensures Lifetimes(c, StepCreateSession(c, s, rid, sid))
  {
  }

  lemma CreateCodeLives(c: Config, s: State, rid: RequestId, code: CodeId)
    requires Lifetimes(c, s)
    ensures Lifetimes(c, StepCreateCode(c, s, rid, code))
  {
  }

  lemma TokenLives(c: Config, s: State, rid: RequestId, t: TokenAction)
    requires Inv(s) && Lifetimes(c, s) && ExpiriesOk(c, s)
    ensures Lifetimes(c, StepToken(c, s, rid, t))
  {
    match t
    case BeginToken(req) => QuietBegin(s, rid, TokStart(req)); QuietLives(c, s, Begin(s, rid, TokStart(req)), rid);
    case FindCredential => QuietFindCredential(s, rid); QuietLives(c, s, StepFindCredential(s, rid), rid);
    case FindSession => QuietFindSession(s, rid); QuietLives(c, s, StepFindSession(s, rid), rid);
    case Prepare(ctx, active, token, jti) => PrepareLives(c, s, rid, ctx, active, token, jti);
    case Consume => ConsumeLives(c, s, rid);
    case ReplayRevoke => QuietReplayRevoke(s, rid); QuietLives(c, s, StepReplayRevoke(s, rid), rid);
    case AdvanceSession => AdvanceLives(c, s, rid);
    case CreateToken => CreateTokenLives(c, s, rid);
  }

  lemma AccountLives(c: Config, s: State, rid: RequestId, u: AccountAction)
    requires Inv(s) && Lifetimes(c, s)
    ensures Lifetimes(c, StepAccount(c, s, rid, u))
  {
    match u
    case BeginAuthorize(p) => QuietBeginAuthorize(s, rid, p); QuietLives(c, s, StepBeginAuthorize(s, rid, p), rid);
    case FindOrCreateUser(pick) => QuietFindOrCreateUser(s, rid, pick);
      QuietLives(c, s, StepFindOrCreateUser(s, rid, pick), rid);
    case CreateSession(sid) => CreateSessionLives(c, s, rid, sid);
    case CreateCode(code) => CreateCodeLives(c, s, rid, code);
    case BeginDelete(user) => QuietBeginDelete(s, rid, user); QuietLives(c, s, StepBeginDelete(s, rid, user), rid);
    case DeleteSessions => QuietDeleteSessions(c, s, rid); QuietLives(c, s, StepDeleteSessions(c, s, rid), rid);
    case DeleteUserRow => QuietDeleteUserRow(c, s, rid); QuietLives(c, s, StepDeleteUserRow(c, s, rid), rid);
  }

  lemma LifetimesStep(c: Config, s: State, a: Action)
    requires Inv(s) && Lifetimes(c, s) && ExpiriesOk(c, s)
    ensures Lifetimes(c, Step(c, s, a))
  {
    match a
    case OnToken(rid, t) => TokenLives(c, s, rid, t);
    case OnAccount(rid, u) => AccountLives(c, s, rid, u);
    case OnRevoke(rid, v) => QuietRevocation(c, s, rid, v); QuietLives(c, s, Step(c, s, a), rid);
    case OnTx(rid, x) => QuietTx(c, s, rid, x); QuietLives(c, s, Step(c, s, a), rid);
    case OnCleanup(k) => QuietCleanup(c, s, k, 0); QuietLives(c, s, Step(c, s, a), 0);
  }

  lemma {:induction false} LifetimesRun(c: Config, s: State, acts: seq<Action>)
    requires Inv(s) && Lifetimes(c, s) && ExpiriesOk(c, s)
    ensures Lifetimes(c, Run(c, s, acts))
    decreases |acts|
  {
    if acts != [] {
      PreserveStep(c, s, acts[0]);
      ExpiriesStep(c, s, acts[0]);
      LifetimesStep(c, s, acts[0]);
      LifetimesRun(c, Step(c, s, acts[0]), acts[1..]);
    }
  }

  lemma ReachableLifetimes(c: Config, s: State)
    requires Reachable(c, s)
    ensures Lifetimes(c, s)
  {
    var users, acts :| s == Run(c, Init(users), acts);
    InitInv(users);
    LifetimesRun(c, Init(users), acts);
  }

  /** In every reachable state every stored session, code and refresh token
      expires exactly its time after the request that made it, also when it was
      used or refreshed meanwhile: no operation extends any of them. The time is
      configured for sessions and refresh tokens, and ten minutes for codes. */
  lemma NothingIsExtended(c: Config, s: State, sid: SessionId, k: CodeId, t: TokenId)
    requires Reachable(c, s)
    ensures sid in s.sessions ==> s.sessions[sid].expiresAt == s.sessions[sid].createdAt + c.sessionTtl
    ensures k in s.codes ==> s.codes[k].expiresAt == s.codes[k].createdAt + 600
    ensures t in s.tokens ==> s.tokens[t].expiresAt == s.tokens[t].createdAt + c.refreshTtl
  {
    ReachableLifetimes(c, s);
    ReachableInv(c, s);
  }
}
