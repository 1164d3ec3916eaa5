/** A code or refresh token that was used is never good again. */
module TokenSpent {
  import opened Common
  import opened AuthModels
  import opened TokenProtocol
  import opened TokenInvariants
  import opened TokenSteps
  import opened TokenTheorems
  import opened TokenLifetimes
  import opened AuthRuns

  // The credential of this session is used or no longer stored, and nobody is about to store it.
  predicate UsedUp(s: State, cred: Credential, sid: SessionId) {
    && CredentialOf(s.h, cred, sid)
    && match cred
       case CodeCred(k) => k in s.codes ==> s.codes[k].used
       case TokenCred(t) =>
         && s.h.tokenOf[t].request in s.flows && s.flows[s.h.tokenOf[t].request].Done?
         && (t in s.tokens ==> s.tokens[t].used)
  }

  lemma QuietUsed(s: State, s': State, rid: RequestId, cred: Credential, sid: SessionId)
    requires Quiet(s, s', rid) && UsedUp(s, cred, sid)
    ensures UsedUp(s', cred, sid)
  {
  }

  lemma PrepareUsed(c: Config, s: State, rid: RequestId, ctx: TokenContext, active: bool, token: TokenId, jti: Jti,
                    cred: Credential, sid: SessionId)
    requires UsedUp(s, cred, sid)
    ensures UsedUp(StepPrepare(c, s, rid, ctx, active, token, jti), cred, sid)
  {
  }

  lemma ConsumeUsed(s: State, rid: RequestId, cred: Credential, sid: SessionId)
    requires UsedUp(s, cred, sid)
    ensures UsedUp(StepConsume(s, rid), cred, sid)
  {
    if rid in s.flows && s.flows[rid].TokConsume? {
      match s.flows[rid].req.cred
      case CodeCred(k) => ConsumeCodeShape(s, rid, s.flows[rid], k);
      case TokenCred(t) => ConsumeRefreshShape(s, rid, s.flows[rid], t);
    }
  }

  lemma AdvanceUsed(c: Config, s: State, rid: RequestId, cred: Credential, sid: SessionId)
    requires UsedUp(s, cred, sid)
    ensures UsedUp(StepAdvanceSession(c, s, rid), cred, sid)
  {
  }

  // Only the request that made a refresh token stores it, and that one is done.
  lemma CreateTokenUsed(c: Config, s: State, rid: RequestId, cred: Credential, sid: SessionId)
    requires UsedUp(s, cred, sid) && (rid in s.flows ==> FlowOk(s.h, rid, s.flows[rid]))
    ensures UsedUp(StepCreateToken(c, s, rid), cred, sid)
  {
  }

  lemma CreateSessionUsed(c: Config, s: State, rid: RequestId, made: SessionId, cred: Credential, sid: SessionId)
    requires UsedUp(s, cred, sid)
    ensures UsedUp(StepCreateSession(c, s, rid, made), cred, sid)
  {
  }

  lemma CreateCodeUsed(c: Config, s: State, rid: RequestId, code: CodeId, cred: Credential, sid: SessionId)
    requires UsedUp(s, cred, sid)
    ensures UsedUp(StepCreateCode(c, s, rid, code), cred, sid)
  {
  }

  lemma TokenUsed(c: Config, s: State, rid: RequestId, t: TokenAction, cred: Credential, sid: SessionId)
    requires Inv(s) && UsedUp(s, cred, sid)
    ensures UsedUp(StepToken(c, s, rid, t), cred, sid)
  {
    match t
    case BeginToken(req) => QuietBegin(s, rid, TokStart(req));
      QuietUsed(s, Begin(s, rid, TokStart(req)), rid, cred, sid);
    case FindCredential => QuietFindCredential(s, rid); QuietUsed(s, StepFindCredential(s, rid), rid, cred, sid);
    case FindSession => QuietFindSession(s, rid); QuietUsed(s, StepFindSession(s, rid), rid, cred, sid);
    case Prepare(ctx, active, token, jti) => PrepareUsed(c, s, rid, ctx, active, token, jti, cred, sid);
    case Consume => ConsumeUsed(s, rid, cred, sid);
    case ReplayRevoke => QuietReplayRevoke(s, rid); QuietUsed(s, StepReplayRevoke(s, rid), rid, cred, sid);
    case AdvanceSession => AdvanceUsed(c, s, rid, cred, sid);
    case CreateToken => CreateTokenUsed(c, s, rid, cred, sid);
  }

  lemma AccountUsed(c: Config, s: State, rid: RequestId, u: AccountAction, cred: Credential, sid: SessionId)
    requires Inv(s) && UsedUp(s, cred, sid)
    ensures UsedUp(StepAccount(c, s, rid, u), cred, sid)
  {
    match u
    case BeginAuthorize(p) => QuietBeginAuthorize(s, rid, p);
      QuietUsed(s, StepBeginAuthorize(s, rid, p), rid, cred, sid);
    case FindOrCreateUser(pick) => QuietFindOrCreateUser(s, rid, pick);
      QuietUsed(s, StepFindOrCreateUser(s, rid, pick), rid, cred, sid);
    case CreateSession(made) => CreateSessionUsed(c, s, rid, made, cred, sid);
    case CreateCode(code) => CreateCodeUsed(c, s, rid, code, cred, sid);
    case BeginDelete(user) => QuietBeginDelete(s, rid, user);
      QuietUsed(s, StepBeginDelete(s, rid, user), rid, cred, sid);
    case DeleteSessions => QuietDeleteSessions(c, s, rid);
      QuietUsed(s, StepDeleteSessions(c, s, rid), rid, cred, sid);
    case DeleteUserRow => QuietDeleteUserRow(c, s, rid); QuietUsed(s, StepDeleteUserRow(c, s, rid), rid, cred, sid);
  }

  lemma UsedStep(c: Config, s: State, a: Action, cred: Credential, sid: SessionId)
    requires Inv(s) && UsedUp(s, cred, sid)
    ensures UsedUp(Step(c, s, a), cred, sid)
  {
    match a
    case OnToken(rid, t) => TokenUsed(c, s, rid, t, cred, sid);
    case OnAccount(rid, u) => AccountUsed(c, s, rid, u, cred, sid);
    case OnRevoke(rid, v) => QuietRevocation(c, s, rid, v); QuietUsed(s, Step(c, s, a), rid, cred, sid);
    case OnTx(rid, x) => QuietTx(c, s, rid, x); QuietUsed(s, Step(c, s, a), rid, cred, sid);
    case OnCleanup(k) => QuietCleanup(c, s, k, 0); QuietUsed(s, Step(c, s, a), 0, cred, sid);
  }

  lemma {:induction false} UsedRun(c: Config, s: State, acts: seq<Action>, cred: Credential, sid: SessionId)
    requires Inv(s) && UsedUp(s, cred, sid)
    ensures UsedUp(Run(c, s, acts), cred, sid)
    decreases |acts|
  {
    if acts != [] {
      PreserveStep(c, s, acts[0]);
      UsedStep(c, s, acts[0], cred, sid);
      UsedRun(c, Step(c, s, acts[0]), acts[1..], cred, sid);
    }
  }

  predicate Used(s: State, cred: Credential) {
    match cred
    case CodeCred(k) => k in s.codes && s.codes[k].used
    case TokenCred(t) => t in s.tokens && s.tokens[t].used
  }

  /** Once a code or a refresh token is used, it stays used in every run until it
      is removed, and then it is never stored again. */
  lemma UsedForGood(c: Config, s: State, cred: Credential, after: seq<Action>)
    requires Reachable(c, s) && Used(s, cred)
    ensures CredentialSession(s, cred).Some? && UsedUp(Run(c, s, after), cred, CredentialSession(s, cred).value)
  {
    ReachableInv(c, s);
    if cred.TokenCred? {
      assert TokenOk(s, cred.token);
    }
    UsedRun(c, s, after, cred, CredentialSession(s, cred).value);
  }

  // The request got past the check of its credential.
  predicate Spends(course: Course) {
    course.Burnt? || course.Unanswered? || course.Answered?
  }

  lemma StoredIsIssued(c: Config, s: State, cred: Credential)
    requires Reachable(c, s)
    ensures cred.TokenCred? && cred.token in s.tokens ==> cred.token in s.h.tokenOf
  {
    ReachableInv(c, s);
    assert cred.TokenCred? && cred.token in s.tokens ==> TokenOk(s, cred.token);
  }

  lemma ServedUses(c: Config, s: State, s': State, rid: RequestId, req: TokenRequest, ctx: TokenContext, active: bool,
                   token: TokenId, jti: Jti, w: TokenWorld, r: Option<TokenResult>)
    requires Reachable(c, s) && token !in s.h.tokenOf && Spends(CourseOf(c, s, req, ctx, active, w))
    requires Served(c, s, s', rid, req, ctx, token, jti, w, CourseOf(c, s, req, ctx, active, w), r)
    ensures Used(s', req.cred)
    ensures CredentialSession(s', req.cred) == Some(CourseOf(c, s, req, ctx, active, w).sid)
  {
    StoredIsIssued(c, s, req.cred);
  }

  // A used-up credential passes no check.
  lemma UsedUpCourse(c: Config, s: State, req: TokenRequest, ctx: TokenContext, active: bool, w: TokenWorld,
                     sid: SessionId)
    requires StoresOk(s) && UsedUp(s, req.cred, sid)
    ensures var course := CourseOf(c, s, req, ctx, active, w); course == NoEffect || course == Replay(sid)
  {
    if req.cred.TokenCred? && req.cred.token in s.tokens {
      assert TokenOk(s, req.cred.token);
    }
  }

  /** A credential serves one request: after one that used it up, whether it was
      answered or stopped later, and after anything that happens then, every
      request with the same credential is a replay of that session or has no
      effect at all. */
  lemma ServedOnce(c: Config, s: State, s': State, later: State, rid: RequestId, req: TokenRequest, ctx: TokenContext,
                   active: bool, token: TokenId, jti: Jti, w: TokenWorld, r: Option<TokenResult>, again: TokenRequest,
                   ctx': TokenContext, active': bool, w': TokenWorld)
    requires Reachable(c, s) && token !in s.h.tokenOf && Spends(CourseOf(c, s, req, ctx, active, w))
    requires Served(c, s, s', rid, req, ctx, token, jti, w, CourseOf(c, s, req, ctx, active, w), r)
    requires Reaches(c, s, s') && Reaches(c, s', later) && again.cred == req.cred
    ensures var course := CourseOf(c, later, again, ctx', active', w');
            course == NoEffect || course == Replay(CourseOf(c, s, req, ctx, active, w).sid)
  {
    ServedUses(c, s, s', rid, req, ctx, active, token, jti, w, r);
    ReachesReachable(c, s, s');
    ReachesReachable(c, s', later);
    var acts :| later == Run(c, s', acts);
    UsedForGood(c, s', req.cred, acts);
    ReachableInv(c, later);
    UsedUpCourse(c, later, again, ctx', active', w', CourseOf(c, s, req, ctx, active, w).sid);
  }
}
