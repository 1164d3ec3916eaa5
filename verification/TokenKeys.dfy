/** What the foreign keys of the SQL schema keep, with any number of processes:
    every row a row refers to exists. */
module TokenKeys {
  import opened Common
  import opened AuthModels
  import opened TokenProtocol
  import opened TokenInvariants
  import opened TokenSteps
  import opened TokenControl
  import opened TokenTheorems

  // ----- how users and sessions change -----

  // The same users, and no session that was not there.
  ghost predicate Narrows(s: State, s': State) {
    && s'.users == s.users && s'.everUsers == s.everUsers
    && (forall sid :: sid in s'.sessions ==>
          && sid in s.sessions && s'.sessions[sid].user == s.sessions[sid].user
          && s'.sessions[sid].tenant == s.sessions[sid].tenant)
  }

  lemma NarrowsConsume(s: State, rid: RequestId)
    ensures Narrows(s, StepConsume(s, rid))
  {
  }

  lemma AdvancedKeepsOwner(c: Config, f: Flow, sess: Session)
    requires f.TokAdvance?
    ensures Advanced(c, f, sess).user == sess.user && Advanced(c, f, sess).tenant == sess.tenant
  {
  }

  lemma NarrowsAdvance(c: Config, s: State, rid: RequestId)
    ensures Narrows(s, StepAdvanceSession(c, s, rid))
  {
    if rid in s.flows && s.flows[rid].TokAdvance? && s.flows[rid].sid in s.sessions {
      AdvancedKeepsOwner(c, s.flows[rid], s.sessions[s.flows[rid].sid]);
    }
  }

  lemma NarrowsFindCredential(s: State, rid: RequestId)
    ensures Narrows(s, StepFindCredential(s, rid))
  {
  }

  lemma NarrowsPrepare(c: Config, s: State, rid: RequestId, ctx: TokenContext, active: bool, token: TokenId, jti: Jti)
    ensures Narrows(s, StepPrepare(c, s, rid, ctx, active, token, jti))
  {
  }

  lemma NarrowsReplayRevoke(s: State, rid: RequestId)
    ensures Narrows(s, StepReplayRevoke(s, rid))
  {
  }

  lemma NarrowsToken(c: Config, s: State, rid: RequestId, t: TokenAction)
    ensures Narrows(s, StepToken(c, s, rid, t))
  {
    match t
    case FindCredential => NarrowsFindCredential(s, rid);
    case Prepare(ctx, active, token, jti) => NarrowsPrepare(c, s, rid, ctx, active, token, jti);
    case Consume => NarrowsConsume(s, rid);
    case ReplayRevoke => NarrowsReplayRevoke(s, rid);
    case AdvanceSession => NarrowsAdvance(c, s, rid);
    case _ =>
  }

  lemma NarrowsExecuteRevoke(s: State, rid: RequestId)
    ensures Narrows(s, StepExecuteRevoke(s, rid))
  {
  }

  lemma NarrowsRevokeTarget(s: State, rid: RequestId, ok: bool)
    ensures Narrows(s, StepRevokeTarget(s, rid, ok))
  {
  }

  lemma NarrowsLogoutAll(s: State, rid: RequestId, user: UserId, keep: Option<SessionId>, order: seq<SessionId>,
                         now: Time)
    ensures Narrows(s, StepBeginLogoutAll(s, rid, user, keep, order, now))
  {
  }

  lemma NarrowsWriteTrl(c: Config, s: State, rid: RequestId, clock: Time, ok: bool)
    ensures Narrows(s, StepWriteTrl(c, s, rid, clock, ok))
  {
  }

  lemma NarrowsRevoke(c: Config, s: State, rid: RequestId, v: RevokeAction)
    ensures Narrows(s, StepRevoke(c, s, rid, v))
  {
    match v
    case ExecuteRevoke => NarrowsExecuteRevoke(s, rid);
    case BeginLogoutAll(user, keep, order, now) => NarrowsLogoutAll(s, rid, user, keep, order, now);
    case RevokeTarget(ok) => NarrowsRevokeTarget(s, rid, ok);
    case WriteTrl(clock, ok) => NarrowsWriteTrl(c, s, rid, clock, ok);
    case _ =>
  }

  lemma NarrowsCleanup(c: Config, s: State, k: CleanupAction)
    ensures Narrows(s, StepCleanup(c, s, k))
  {
  }

  lemma NarrowsTx(c: Config, s: State, rid: RequestId, x: TxAction)
    ensures Narrows(s, StepTx(c, s, rid, x))
  {
  }

  lemma NarrowsCreateCode(c: Config, s: State, rid: RequestId, code: CodeId)
    ensures Narrows(s, StepCreateCode(c, s, rid, code))
  {
  }

  lemma NarrowsDeleteSessions(c: Config, s: State, rid: RequestId)
    ensures Narrows(s, StepDeleteSessions(c, s, rid))
  {
  }

  // A user was found or made: nothing else about users or sessions changed.
  ghost predicate FindsUser(s: State, s': State, rid: RequestId, pick: UserId) {
    && rid in s.flows && s.flows[rid].AuthUser?
    && s'.flows == s.flows[rid := AuthSession(s.flows[rid].params, pick)] && s'.sessions == s.sessions
    && s'.users.Keys == s.users.Keys + {pick}
    && s.everUsers <= s'.everUsers && (pick in s.users || pick in s'.everUsers)
  }

  lemma FindOrCreateShape(s: State, rid: RequestId, pick: UserId)
    ensures var s' := StepFindOrCreateUser(s, rid, pick);
            s' == s || s' == Goto(s, rid, Done) || FindsUser(s, s', rid, pick)
  {
  }

  // ----- every session has its user -----

  predicate UserKeys(s: State) {
    forall sid :: sid in s.sessions ==> s.sessions[sid].user in s.users
  }

  lemma NarrowsKeys(s: State, s': State)
    requires UserKeys(s) && Narrows(s, s')
    ensures UserKeys(s')
  {
  }

  lemma FindUserKeys(s: State, rid: RequestId, pick: UserId)
    requires UserKeys(s)
    ensures UserKeys(StepFindOrCreateUser(s, rid, pick))
  {
    FindOrCreateShape(s, rid, pick);
  }

  // The insert is refused when the user is gone.
  lemma CreateSessionKeys(c: Config, s: State, rid: RequestId, sid: SessionId)
    requires c.foreignKeys && UserKeys(s)
    ensures UserKeys(StepCreateSession(c, s, rid, sid))
  {
  }

  // The row goes with every session that refers to it.
  lemma DeleteRowKeys(c: Config, s: State, rid: RequestId)
    requires c.foreignKeys && UserKeys(s)
    ensures UserKeys(StepDeleteUserRow(c, s, rid))
  {
  }

  lemma UserKeysAccount(c: Config, s: State, rid: RequestId, u: AccountAction)
    requires c.foreignKeys && UserKeys(s)
    ensures UserKeys(StepAccount(c, s, rid, u))
  {
    match u
    case BeginAuthorize(p) =>
    case FindOrCreateUser(pick) => FindUserKeys(s, rid, pick);
    case CreateSession(i) => CreateSessionKeys(c, s, rid, i);
    case CreateCode(code) => NarrowsCreateCode(c, s, rid, code); NarrowsKeys(s, StepCreateCode(c, s, rid, code));
    case BeginDelete(user) =>
    case DeleteSessions => NarrowsDeleteSessions(c, s, rid); NarrowsKeys(s, StepDeleteSessions(c, s, rid));
    case DeleteUserRow => DeleteRowKeys(c, s, rid);
  }

  lemma UserKeysStep(c: Config, s: State, a: Action)
    requires c.foreignKeys && UserKeys(s)
    ensures UserKeys(Step(c, s, a))
  {
    match a
    case OnToken(rid, t) => NarrowsToken(c, s, rid, t); NarrowsKeys(s, StepToken(c, s, rid, t));
    case OnAccount(rid, u) => UserKeysAccount(c, s, rid, u);
    case OnRevoke(rid, v) => NarrowsRevoke(c, s, rid, v); NarrowsKeys(s, StepRevoke(c, s, rid, v));
    case OnTx(rid, x) => NarrowsTx(c, s, rid, x); NarrowsKeys(s, StepTx(c, s, rid, x));
    case OnCleanup(k) => NarrowsCleanup(c, s, k); NarrowsKeys(s, StepCleanup(c, s, k));
  }

  // ----- every code and every refresh token has its session -----

  predicate SessionKeys(s: State) {
    && (forall k :: k in s.codes ==> s.codes[k].session in s.sessions)
    && (forall t :: t in s.tokens ==> s.tokens[t].session in s.sessions)
  }

  // No session is removed, and only rows with their session are added.
  ghost predicate Refers(s: State, s': State) {
    && (forall sid :: sid in s.sessions ==> sid in s'.sessions)
    && (forall k :: k in s'.codes ==>
          (k in s.codes && s'.codes[k].session == s.codes[k].session) || s'.codes[k].session in s'.sessions)
    && (forall t :: t in s'.tokens ==>
          (t in s.tokens && s'.tokens[t].session == s.tokens[t].session) || s'.tokens[t].session in s'.sessions)
  }

  lemma RefersKeys(s: State, s': State)
    requires SessionKeys(s) && Refers(s, s')
    ensures SessionKeys(s')
  {
  }

  lemma RemovalKeys(c: Config, s: State, gone: set<SessionId>)
    requires c.foreignKeys && SessionKeys(s)
    ensures SessionKeys(RemoveSessions(c, s, gone))
  {
  }

  lemma RefersConsumeCode(s: State, rid: RequestId, f: Flow, k: CodeId)
    requires f.TokConsume?
    ensures Refers(s, StepConsumeCode(s, rid, f, k))
  {
  }

  lemma RefersConsumeRefresh(s: State, rid: RequestId, f: Flow, t: TokenId)
    requires f.TokConsume?
    ensures Refers(s, StepConsumeRefresh(s, rid, f, t))
  {
  }

  lemma RefersConsume(s: State, rid: RequestId)
    ensures Refers(s, StepConsume(s, rid))
  {
    if rid in s.flows && s.flows[rid].TokConsume? {
      match s.flows[rid].req.cred
      case CodeCred(k) => RefersConsumeCode(s, rid, s.flows[rid], k);
      case TokenCred(t) => RefersConsumeRefresh(s, rid, s.flows[rid], t);
    }
  }

  // The insert is refused when the session is gone.
  lemma RefersCreateToken(c: Config, s: State, rid: RequestId)
    requires c.foreignKeys && (rid in s.flows ==> FlowOk(s.h, rid, s.flows[rid]))
    ensures Refers(s, StepCreateToken(c, s, rid))
  {
  }

  lemma RefersPrepare(c: Config, s: State, rid: RequestId, ctx: TokenContext, active: bool, token: TokenId, jti: Jti)
    ensures Refers(s, StepPrepare(c, s, rid, ctx, active, token, jti))
  {
  }

  lemma RefersAdvance(c: Config, s: State, rid: RequestId)
    ensures Refers(s, StepAdvanceSession(c, s, rid))
  {
  }

  lemma RefersFindCredential(s: State, rid: RequestId)
    ensures Refers(s, StepFindCredential(s, rid))
  {
  }

  lemma RefersToken(c: Config, s: State, rid: RequestId, t: TokenAction)
    requires c.foreignKeys && (rid in s.flows ==> FlowOk(s.h, rid, s.flows[rid]))
    ensures Refers(s, StepToken(c, s, rid, t))
  {
    match t
    case BeginToken(req) =>
    case FindCredential => RefersFindCredential(s, rid);
    case FindSession =>
    case Prepare(ctx, active, token, jti) => RefersPrepare(c, s, rid, ctx, active, token, jti);
    case Consume => RefersConsume(s, rid);
    case ReplayRevoke =>
    case AdvanceSession => RefersAdvance(c, s, rid);
    case CreateToken => RefersCreateToken(c, s, rid);
  }

  lemma RefersExecuteRevoke(s: State, rid: RequestId)
    ensures Refers(s, StepExecuteRevoke(s, rid))
  {
  }

  lemma RefersRevokeTarget(s: State, rid: RequestId, ok: bool)
    ensures Refers(s, StepRevokeTarget(s, rid, ok))
  {
  }

  lemma RefersWriteTrl(c: Config, s: State, rid: RequestId, clock: Time, ok: bool)
    ensures Refers(s, StepWriteTrl(c, s, rid, clock, ok))
  {
  }

  lemma RefersLogoutAll(s: State, rid: RequestId, user: UserId, keep: Option<SessionId>, order: seq<SessionId>,
                        now: Time)
    ensures Refers(s, StepBeginLogoutAll(s, rid, user, keep, order, now))
  {
  }

  lemma RefersRevoke(c: Config, s: State, rid: RequestId, v: RevokeAction)
    ensures Refers(s, StepRevoke(c, s, rid, v))
  {
    match v
    case ExecuteRevoke => RefersExecuteRevoke(s, rid);
    case BeginLogoutAll(user, keep, order, now) => RefersLogoutAll(s, rid, user, keep, order, now);
    case RevokeTarget(ok) => RefersRevokeTarget(s, rid, ok);
    case WriteTrl(clock, ok) => RefersWriteTrl(c, s, rid, clock, ok);
    case _ =>
  }

  lemma RefersFindUser(s: State, rid: RequestId, pick: UserId)
    ensures Refers(s, StepFindOrCreateUser(s, rid, pick))
  {
  }

  lemma RefersCreateSession(c: Config, s: State, rid: RequestId, sid: SessionId)
    ensures Refers(s, StepCreateSession(c, s, rid, sid))
  {
  }

  lemma RefersCreateCode(c: Config, s: State, rid: RequestId, code: CodeId)
    requires c.foreignKeys
    ensures Refers(s, StepCreateCode(c, s, rid, code))
  {
  }

  lemma SessionKeysAccount(c: Config, s: State, rid: RequestId, u: AccountAction)
    requires c.foreignKeys && SessionKeys(s)
    ensures SessionKeys(StepAccount(c, s, rid, u))
  {
    match u
    case BeginAuthorize(p) =>
    case FindOrCreateUser(pick) => RefersFindUser(s, rid, pick); RefersKeys(s, StepFindOrCreateUser(s, rid, pick));
    case CreateSession(i) => RefersCreateSession(c, s, rid, i); RefersKeys(s, StepCreateSession(c, s, rid, i));
    case CreateCode(code) => RefersCreateCode(c, s, rid, code); RefersKeys(s, StepCreateCode(c, s, rid, code));
    case BeginDelete(user) =>
    case DeleteSessions =>
      if rid in s.flows && s.flows[rid].DelSessions? {
        RemovalKeys(c, Goto(s, rid, DelRow(s.flows[rid].user)), SessionsOfUser(s, s.flows[rid].user));
      }
    case DeleteUserRow =>
      if rid in s.flows && s.flows[rid].DelRow? {
        RemovedUserKeys(c, Goto(s, rid, Done), s.flows[rid].user);
      }
  }

  lemma RemovedUserKeys(c: Config, s: State, user: UserId)
    requires c.foreignKeys && SessionKeys(s)
    ensures SessionKeys(RemoveUser(c, s, user))
  {
    RemovalKeys(c, s.(users := s.users - {user}), SessionsOfUser(s, user));
  }

  lemma SessionKeysCleanup(c: Config, s: State, k: CleanupAction)
    requires c.foreignKeys && SessionKeys(s)
    ensures SessionKeys(StepCleanup(c, s, k))
  {
    if k.CleanSessions? {
      RemovalKeys(c, s, set sid | sid in s.sessions && s.sessions[sid].expiresAt < k.now);
    }
  }

  lemma SessionKeysStep(c: Config, s: State, a: Action)
    requires c.foreignKeys && FlowsOk(s) && SessionKeys(s)
    ensures SessionKeys(Step(c, s, a))
  {
    match a
    case OnToken(rid, t) => RefersToken(c, s, rid, t); RefersKeys(s, StepToken(c, s, rid, t));
    case OnAccount(rid, u) => SessionKeysAccount(c, s, rid, u);
    case OnRevoke(rid, v) => RefersRevoke(c, s, rid, v); RefersKeys(s, StepRevoke(c, s, rid, v));
    case OnTx(rid, x) =>
    case OnCleanup(k) => SessionKeysCleanup(c, s, k);
  }

  // ----- over runs -----

  lemma {:induction false} KeysRun(c: Config, s: State, acts: seq<Action>)
    requires c.foreignKeys && Inv(s) && UserKeys(s) && SessionKeys(s)
    ensures UserKeys(Run(c, s, acts)) && SessionKeys(Run(c, s, acts))
    decreases |acts|
  {
    if acts != [] {
      PreserveStep(c, s, acts[0]);
      UserKeysStep(c, s, acts[0]);
      SessionKeysStep(c, s, acts[0]);
      KeysRun(c, Step(c, s, acts[0]), acts[1..]);
    }
  }

  /** With foreign keys, in every reachable state of any number of processes:
      every session's user, every code's session and every refresh token's
      session exists. */
  lemma ReferencesWhole(c: Config, s: State)
    requires Reachable(c, s) && c.foreignKeys
    ensures forall sid :: sid in s.sessions ==> s.sessions[sid].user in s.users
    ensures forall k :: k in s.codes ==> s.codes[k].session in s.sessions
    ensures forall t :: t in s.tokens ==> s.tokens[t].session in s.sessions
  {
    var users, acts :| s == Run(c, Init(users), acts);
    InitInv(users);
    KeysRun(c, Init(users), acts);
  }
}
