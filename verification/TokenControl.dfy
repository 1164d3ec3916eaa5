/** The control flow of requests: a step moves one request along its program,
    and with the mutex at most one request is inside a transaction. */
module TokenControl {
  import opened Common
  import opened AuthModels
  import opened TokenProtocol

  // The program points a request can move to, and what it carries along.
  predicate Follows(f: Flow, f': Flow) {
    f'.Done? || f' == f ||
    match f
    case TokStart(req) => f'.TokFound? && f'.req == req
    case TokFound(req, sid) => f'.TokSnapshot? && f'.req == req && f'.sid == sid
    case TokSnapshot(req, sid, snap) => f'.TokReady? && f'.req == req && f'.sid == sid && f'.snap == snap
    case TokReady(req, sid, snap, ctx, art) => f' == TokConsume(req, sid, snap, ctx, art)
    case TokConsume(req, sid, snap, ctx, art) =>
      || (f'.TokReplay? && f'.req == req)
      || (f'.TokAdvance? && f'.req == req && f'.sid == sid && f'.art == art
            && (f'.snap == snap || f'.snap == snap.(tenant := ctx.tenant)))
    case TokAdvance(req, sid, snap, ctx, art) =>
      && f'.TokCreate? && f'.req == req && f'.sid == sid
      && f'.grant.claims == art.claims && f'.grant.at == req.now && f'.record == art.record
    case AuthReady(p) => f' == AuthUser(p)
    case AuthUser(p) => f'.AuthSession? && f'.params == p
    case AuthSession(p, _) => f'.AuthCode? && f'.params == p
    case DelReady(u) => f' == DelSessions(u)
    case DelSessions(u) => f' == DelRow(u)
    case RevExecute(_, sid, _) => f'.RevTrl? && f'.target.session == sid && f'.target.origin.ReadAtRevoke?
    case RevFound(_, _) => f'.RevNext?
    case RevNext(todo, _) => f'.RevNext? || (f'.RevTrl? && todo != [] && f'.target == todo[0])
    case RevTrl(_, _, _) => f'.RevNext? || f'.RevDelete?
    case RevDelete(_, _, _) => f'.RevNext?
    case _ => false
  }

  predicate Starts(f: Flow) {
    f.TokStart? || f.AuthReady? || f.DelReady? || f.RevExecute? || f.RevFound? || f.RevNext?
  }

  // The credential is stored, or stored and not used up.
  predicate Stored(s: State, cred: Credential) {
    match cred
    case CodeCred(k) => k in s.codes
    case TokenCred(t) => t in s.tokens
  }

  predicate Unused(s: State, cred: Credential) {
    match cred
    case CodeCred(k) => k in s.codes && !s.codes[k].used
    case TokenCred(t) => t in s.tokens && !s.tokens[t].used
  }

  // What a token request reads in its steps before the session step.
  predicate Reads(s: State, f: Flow, f': Flow) {
    && (f.TokStart? && f'.TokFound? ==> Stored(s, f.req.cred))
    && (f.TokFound? && f'.TokSnapshot? ==> f.sid in s.sessions && f'.snap == s.sessions[f.sid])
    && (f.TokConsume? && f'.TokAdvance? ==> Unused(s, f.req.cred))
  }

  // Only request rid moves.
  ghost predicate Moves(c: Config, s: State, s': State, rid: RequestId) {
    s'.flows == s.flows ||
    (&& rid in s'.flows
     && s'.flows == s.flows[rid := s'.flows[rid]]
     && (if rid in s.flows then Follows(s.flows[rid], s'.flows[rid]) else Starts(s'.flows[rid]))
     && (rid in s.flows ==> Reads(s, s.flows[rid], s'.flows[rid]))
     && (rid in s.flows && s.flows[rid].TokSnapshot? && s'.flows[rid].TokReady? ==>
           && s'.flows[rid].art.claims.expiresAt == s.flows[rid].req.now + c.tokenTtl
           && s'.flows[rid].art.record.createdAt == s.flows[rid].req.now
           && s'.flows[rid].art.record.expiresAt == s.flows[rid].req.now + c.refreshTtl
           && s'.flows[rid].art.record.lastRefreshedAt.None?)
     && (rid in s.flows && s.flows[rid].TokAdvance? && s'.flows[rid].TokCreate? ==> Alive(s, s.flows[rid].sid))
     && (rid in s.flows && !s.flows[rid].RevTrl? && s'.flows[rid].RevTrl? ==>
           && RevokesTarget(s, s', s'.flows[rid].target)
           && (s.flows[rid].RevExecute? ==> s'.flows[rid].target == SnapshotTarget(s, s.flows[rid].sid, ReadAtRevoke))))
  }

  // The session of a target is revoked in this very step.
  predicate RevokesTarget(s: State, s': State, t: Target) {
    && Alive(s, t.session)
    && t.session in s'.sessions && s'.sessions[t.session].status.Revoked?
    && s'.h == s.h
  }

  predicate Alive(s: State, sid: SessionId) {
    sid in s.sessions && !s.sessions[sid].status.Revoked?
  }

  lemma MovesConsumeCode(c: Config, s: State, rid: RequestId, k: CodeId)
    requires rid in s.flows && s.flows[rid].TokConsume? && s.flows[rid].req.cred == CodeCred(k)
    ensures Moves(c, s, StepConsumeCode(s, rid, s.flows[rid], k), rid)
    ensures StepConsumeCode(s, rid, s.flows[rid], k).lock == s.lock
  {
  }

  lemma MovesConsumeRefresh(c: Config, s: State, rid: RequestId, t: TokenId)
    requires rid in s.flows && s.flows[rid].TokConsume? && s.flows[rid].req.cred == TokenCred(t)
    ensures Moves(c, s, StepConsumeRefresh(s, rid, s.flows[rid], t), rid)
    ensures StepConsumeRefresh(s, rid, s.flows[rid], t).lock == s.lock
  {
  }

  lemma MovesConsume(c: Config, s: State, rid: RequestId)
    ensures Moves(c, s, StepConsume(s, rid), rid)
    ensures StepConsume(s, rid).lock == s.lock
  {
    if rid in s.flows && s.flows[rid].TokConsume? {
      match s.flows[rid].req.cred
      case CodeCred(k) => MovesConsumeCode(c, s, rid, k);
      case TokenCred(t) => MovesConsumeRefresh(c, s, rid, t);
    }
  }

  lemma MovesFindCredential(c: Config, s: State, rid: RequestId)
    ensures Moves(c, s, StepFindCredential(s, rid), rid)
    ensures StepFindCredential(s, rid).lock == s.lock
  {
  }

  lemma MovesPrepare(c: Config, s: State, rid: RequestId, ctx: TokenContext, active: bool, token: TokenId, jti: Jti)
    ensures Moves(c, s, StepPrepare(c, s, rid, ctx, active, token, jti), rid)
    ensures StepPrepare(c, s, rid, ctx, active, token, jti).lock == s.lock
  {
  }

  lemma MovesAdvance(c: Config, s: State, rid: RequestId)
    ensures Moves(c, s, StepAdvanceSession(c, s, rid), rid)
    ensures StepAdvanceSession(c, s, rid).lock == s.lock
  {
  }

  lemma MovesToken(c: Config, s: State, rid: RequestId, t: TokenAction)
    ensures Moves(c, s, StepToken(c, s, rid, t), rid)
    ensures StepToken(c, s, rid, t).lock == s.lock
  {
    match t
    case BeginToken(req) =>
    case FindCredential => MovesFindCredential(c, s, rid);
    case FindSession =>
    case Prepare(ctx, active, token, jti) => MovesPrepare(c, s, rid, ctx, active, token, jti);
    case Consume => MovesConsume(c, s, rid);
    case ReplayRevoke =>
    case AdvanceSession => MovesAdvance(c, s, rid);
    case CreateToken =>
  }

  lemma MovesFindOrCreateUser(c: Config, s: State, rid: RequestId, pick: UserId)
    ensures Moves(c, s, StepFindOrCreateUser(s, rid, pick), rid)
    ensures StepFindOrCreateUser(s, rid, pick).lock == s.lock
  {
  }

  lemma MovesCreateSession(c: Config, s: State, rid: RequestId, sid: SessionId)
    ensures Moves(c, s, StepCreateSession(c, s, rid, sid), rid)
    ensures StepCreateSession(c, s, rid, sid).lock == s.lock
  {
  }

  lemma MovesBegin(c: Config, s: State, rid: RequestId, f: Flow)
    requires Starts(f)
    ensures Moves(c, s, Begin(s, rid, f), rid)
    ensures Begin(s, rid, f).lock == s.lock
  {
  }

  lemma MovesDelete(c: Config, s: State, rid: RequestId)
    ensures Moves(c, s, StepDeleteSessions(c, s, rid), rid)
    ensures StepDeleteSessions(c, s, rid).lock == s.lock
  {
  }

  lemma MovesAccount(c: Config, s: State, rid: RequestId, u: AccountAction)
    ensures Moves(c, s, StepAccount(c, s, rid, u), rid)
    ensures StepAccount(c, s, rid, u).lock == s.lock
  {
    match u
    case BeginAuthorize(p) => MovesBegin(c, s, rid, AuthReady(p));
    case FindOrCreateUser(pick) => MovesFindOrCreateUser(c, s, rid, pick);
    case CreateSession(sid) => MovesCreateSession(c, s, rid, sid);
    case CreateCode(code) =>
    case BeginDelete(user) => MovesBegin(c, s, rid, DelReady(user));
    case DeleteSessions => MovesDelete(c, s, rid);
    case DeleteUserRow =>
  }

  lemma MovesRevokeTarget(c: Config, s: State, rid: RequestId, ok: bool)
    ensures Moves(c, s, StepRevokeTarget(s, rid, ok), rid)
    ensures StepRevokeTarget(s, rid, ok).lock == s.lock
  {
  }

  lemma MovesWriteTrl(c: Config, s: State, rid: RequestId, clock: Time, ok: bool)
    ensures Moves(c, s, StepWriteTrl(c, s, rid, clock, ok), rid)
    ensures StepWriteTrl(c, s, rid, clock, ok).lock == s.lock
  {
  }

  lemma MovesExecuteRevoke(c: Config, s: State, rid: RequestId)
    ensures Moves(c, s, StepExecuteRevoke(s, rid), rid)
    ensures StepExecuteRevoke(s, rid).lock == s.lock
  {
  }

  lemma MovesResolveSession(c: Config, s: State, rid: RequestId)
    ensures Moves(c, s, StepResolveSession(s, rid), rid)
    ensures StepResolveSession(s, rid).lock == s.lock
  {
  }

  lemma MovesDeleteTokens(c: Config, s: State, rid: RequestId, ok: bool)
    ensures Moves(c, s, StepDeleteTokens(s, rid, ok), rid)
    ensures StepDeleteTokens(s, rid, ok).lock == s.lock
  {
  }

  lemma MovesRevoke(c: Config, s: State, rid: RequestId, v: RevokeAction)
    ensures Moves(c, s, StepRevoke(c, s, rid, v), rid)
    ensures StepRevoke(c, s, rid, v).lock == s.lock
  {
    match v
    case BeginRevoke(user, sid, now) =>
    case ExecuteRevoke => MovesExecuteRevoke(c, s, rid);
    case BeginLogoutAll(user, keep, order, now) =>
    case ResolveAccess(sid, jti, now) =>
    case ResolveRefresh(token, now) =>
    case ResolveSession => MovesResolveSession(c, s, rid);
    case RevokeTarget(ok) => MovesRevokeTarget(c, s, rid, ok);
    case WriteTrl(clock, ok) => MovesWriteTrl(c, s, rid, clock, ok);
    case DeleteTokens(ok) => MovesDeleteTokens(c, s, rid, ok);
  }

  lemma MovesTx(c: Config, s: State, rid: RequestId, x: TxAction)
    ensures Moves(c, s, StepTx(c, s, rid, x), rid)
  {
  }

  function Mover(a: Action): RequestId {
    if a.OnCleanup? then 0 else a.rid
  }

  lemma StepMoves(c: Config, s: State, a: Action)
    ensures Moves(c, s, Step(c, s, a), Mover(a))
  {
    match a
    case OnToken(rid, t) => MovesToken(c, s, rid, t);
    case OnAccount(rid, u) => MovesAccount(c, s, rid, u);
    case OnRevoke(rid, v) => MovesRevoke(c, s, rid, v);
    case OnTx(rid, x) => MovesTx(c, s, rid, x);
    case OnCleanup(k) =>
  }

  // ----- the mutex -----

  // Inside the function RunInTx runs.
  predicate InTx(f: Flow) {
    || f.TokConsume? || f.TokReplay? || f.TokAdvance? || f.TokCreate?
    || f.AuthUser? || f.AuthSession? || f.AuthCode? || f.DelSessions? || f.DelRow?
  }

  predicate Inside(s: State, r: RequestId) {
    r in s.flows && InTx(s.flows[r])
  }

  ghost predicate Exclusive(c: Config, s: State) {
    c.mutex ==> forall r: RequestId :: Inside(s, r) ==> s.lock == Some(r)
  }

  // Who holds the lock after a step.
  lemma LockStep(c: Config, s: State, a: Action)
    ensures var s' := Step(c, s, a);
            || s'.lock == s.lock
            || (a.OnTx? && a.x.Acquire? && c.mutex && s.lock.None? && s'.lock == Some(a.rid))
            || (a.OnTx? && a.x.Release? && s.lock == Some(a.rid) && s'.flows == s.flows && a.rid in s.flows
                  && s.flows[a.rid].Done?)
  {
    match a
    case OnToken(rid, t) => MovesToken(c, s, rid, t);
    case OnAccount(rid, u) => MovesAccount(c, s, rid, u);
    case OnRevoke(rid, v) => MovesRevoke(c, s, rid, v);
    case OnTx(rid, x) =>
    case OnCleanup(k) =>
  }

  // A request that waits for the lock is moved by nothing but the lock and a failure.
  lemma WaitingStays(c: Config, s: State, a: Action)
    requires !a.OnTx? && Mover(a) in s.flows && WaitsForMutex(s.flows[Mover(a)])
    ensures Step(c, s, a).flows == s.flows
  {
  }

  lemma EnterByMove(c: Config, s: State, s': State, r: RequestId)
    requires Moves(c, s, s', r) && Inside(s', r) && !Inside(s, r)
    ensures r in s.flows && WaitsForMutex(s.flows[r]) && s'.flows != s.flows
  {
  }

  // Only by getting the lock does a request enter a transaction.
  lemma EnterStep(c: Config, s: State, a: Action)
    requires Inside(Step(c, s, a), Mover(a)) && !Inside(s, Mover(a))
    ensures a.OnTx? && a.x.Acquire? && (c.mutex ==> s.lock.None? && Step(c, s, a).lock == Some(a.rid))
  {
    StepMoves(c, s, a);
    EnterByMove(c, s, Step(c, s, a), Mover(a));
    if !a.OnTx? {
      WaitingStays(c, s, a);
    }
  }

  lemma ExclusiveStep(c: Config, s: State, a: Action)
    requires Exclusive(c, s)
    ensures Exclusive(c, Step(c, s, a))
  {
    var s', rid := Step(c, s, a), Mover(a);
    StepMoves(c, s, a);
    LockStep(c, s, a);
    if c.mutex {
      forall r: RequestId | Inside(s', r) ensures s'.lock == Some(r) {
        if !Inside(s, r) {
          assert r == rid;
          EnterStep(c, s, a);
        }
      }
    }
  }

  lemma {:induction false} ExclusiveRun(c: Config, s: State, acts: seq<Action>)
    requires Exclusive(c, s)
    ensures Exclusive(c, Run(c, s, acts))
    decreases |acts|
  {
    if acts != [] {
      ExclusiveStep(c, s, acts[0]);
      ExclusiveRun(c, Step(c, s, acts[0]), acts[1..]);
    }
  }

  /** The transactions of one server process never overlap. */
  lemma OneTransactionAtATime(c: Config, s: State, r1: RequestId, r2: RequestId)
    requires Reachable(c, s) && c.mutex
    requires Inside(s, r1) && Inside(s, r2)
    ensures r1 == r2 && s.lock == Some(r1)
  {
    var users, acts :| s == Run(c, Init(users), acts);
    ExclusiveRun(c, Init(users), acts);
  }
}
