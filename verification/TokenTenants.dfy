/** Tenants are kept apart: a session belongs to the tenant of its user. */
module TokenTenants {
  import opened Common
  import opened AuthModels
  import opened TokenProtocol
  import opened TokenInvariants
  import opened TokenSteps
  import opened TokenControl
  import opened TokenTheorems
  import opened TokenKeys
  import opened TokenDeletion

  // The user has existed, and while stored is of this tenant.
  predicate OfTenant(s: State, u: UserId, tenant: TenantId) {
    u in s.everUsers && (u in s.users ==> s.users[u].tenant == tenant)
  }

  predicate Tenants(s: State) {
    && (forall u :: u in s.users ==> u in s.everUsers)
    && (forall sid :: sid in s.sessions ==> OfTenant(s, s.sessions[sid].user, s.sessions[sid].tenant))
    && (forall r :: r in s.flows && s.flows[r].AuthSession? ==> OfTenant(s, s.flows[r].user, s.flows[r].params.tenant))
  }

  // The same users, and no request has learnt its user.
  lemma NarrowsTenants(c: Config, s: State, s': State, rid: RequestId)
    requires Tenants(s) && Narrows(s, s') && Moves(c, s, s', rid)
    requires AtUserStep(s, rid) ==> s'.flows == s.flows || s'.flows[rid].Done? || s'.flows[rid].DelRow?
    ensures Tenants(s')
  {
  }

  lemma StoppedTenants(s: State, rid: RequestId)
    requires Tenants(s)
    ensures Tenants(Goto(s, rid, Done))
  {
  }

  // An existing user of the tenant, or a new one made for it: nobody referred to that one before.
  lemma FoundTenants(s: State, s': State, rid: RequestId, p: AuthorizeParams, pick: UserId)
    requires Tenants(s) && s'.flows == s.flows[rid := AuthSession(p, pick)] && s'.sessions == s.sessions
    requires || (&& pick in s.users && s.users[pick].tenant == p.tenant
                 && s'.users == s.users && s'.everUsers == s.everUsers)
             || (&& pick !in s.everUsers && s'.everUsers == s.everUsers + {pick}
                 && s'.users == s.users[pick := User(p.tenant, p.email, true)])
    ensures Tenants(s')
  {
  }

  lemma FindOrCreateTenants(s: State, rid: RequestId, pick: UserId)
    requires Tenants(s)
    ensures Tenants(StepFindOrCreateUser(s, rid, pick))
  {
    var s' := StepFindOrCreateUser(s, rid, pick);
    StoppedTenants(s, rid);
    if s' != s && s' != Goto(s, rid, Done) {
      FoundTenants(s, s', rid, s.flows[rid].params, pick);
    }
  }

  lemma NewSessionTenants(s: State, s': State, rid: RequestId, sid: SessionId, sess: Session, f: Flow)
    requires Tenants(s) && OfTenant(s, sess.user, sess.tenant) && f.AuthCode?
    requires s'.users == s.users && s'.everUsers == s.everUsers
    requires s'.sessions == s.sessions[sid := sess] && s'.flows == s.flows[rid := f]
    ensures Tenants(s')
  {
  }

  lemma CreateSessionTenants(c: Config, s: State, rid: RequestId, sid: SessionId)
    requires Tenants(s)
    ensures Tenants(StepCreateSession(c, s, rid, sid))
  {
    var s' := StepCreateSession(c, s, rid, sid);
    StoppedTenants(s, rid);
    if s' != s && s' != Goto(s, rid, Done) {
      NewSessionTenants(s, s', rid, sid, s'.sessions[sid], s'.flows[rid]);
    }
  }

  lemma DeleteUserRowTenants(c: Config, s: State, rid: RequestId)
    requires Tenants(s)
    ensures Tenants(StepDeleteUserRow(c, s, rid))
  {
  }

  lemma BeginTenants(c: Config, s: State, rid: RequestId, f: Flow)
    requires Tenants(s) && Starts(f)
    ensures Tenants(Begin(s, rid, f))
  {
    MovesBegin(c, s, rid, f);
    NarrowsTenants(c, s, Begin(s, rid, f), rid);
  }

  lemma AccountTenants(c: Config, s: State, rid: RequestId, u: AccountAction)
    requires Tenants(s)
    ensures Tenants(StepAccount(c, s, rid, u))
  {
    MovesAccount(c, s, rid, u);
    match u
    case BeginAuthorize(p) => BeginTenants(c, s, rid, AuthReady(p));
    case FindOrCreateUser(pick) => FindOrCreateTenants(s, rid, pick);
    case CreateSession(sid) => CreateSessionTenants(c, s, rid, sid);
    case CreateCode(code) =>
      NarrowsCreateCode(c, s, rid, code);
      NarrowsTenants(c, s, StepCreateCode(c, s, rid, code), rid);
    case BeginDelete(user) => BeginTenants(c, s, rid, DelReady(user));
    case DeleteSessions =>
      NarrowsDeleteSessions(c, s, rid);
      NarrowsTenants(c, s, StepDeleteSessions(c, s, rid), rid);
    case DeleteUserRow => DeleteUserRowTenants(c, s, rid);
  }

  lemma TokenTenant(c: Config, s: State, rid: RequestId, t: TokenAction)
    requires Tenants(s)
    ensures Tenants(StepToken(c, s, rid, t))
  {
    MovesToken(c, s, rid, t);
    NarrowsToken(c, s, rid, t);
    if AtUserStep(s, rid) {
      UserStepStays(c, s, rid, t, ResolveSession);
    }
    NarrowsTenants(c, s, StepToken(c, s, rid, t), rid);
  }

  lemma RevokeTenants(c: Config, s: State, rid: RequestId, v: RevokeAction)
    requires Tenants(s)
    ensures Tenants(StepRevoke(c, s, rid, v))
  {
    MovesRevoke(c, s, rid, v);
    NarrowsRevoke(c, s, rid, v);
    if AtUserStep(s, rid) {
      UserStepStays(c, s, rid, Consume, v);
    }
    NarrowsTenants(c, s, StepRevoke(c, s, rid, v), rid);
  }

  lemma TxTenants(c: Config, s: State, rid: RequestId, x: TxAction)
    requires Tenants(s)
    ensures Tenants(StepTx(c, s, rid, x))
  {
    MovesTx(c, s, rid, x);
    NarrowsTx(c, s, rid, x);
    NarrowsTenants(c, s, StepTx(c, s, rid, x), rid);
  }

  lemma CleanupTenants(c: Config, s: State, k: CleanupAction)
    requires Tenants(s)
    ensures Tenants(StepCleanup(c, s, k))
  {
    NarrowsCleanup(c, s, k);
    NarrowsTenants(c, s, StepCleanup(c, s, k), 0);
  }

  lemma TenantsStep(c: Config, s: State, a: Action)
    requires Tenants(s)
    ensures Tenants(Step(c, s, a))
  {
    match a
    case OnToken(rid, t) => TokenTenant(c, s, rid, t);
    case OnAccount(rid, u) => AccountTenants(c, s, rid, u);
    case OnRevoke(rid, v) => RevokeTenants(c, s, rid, v);
    case OnTx(rid, x) => TxTenants(c, s, rid, x);
    case OnCleanup(k) => CleanupTenants(c, s, k);
  }

  lemma {:induction false} TenantsRun(c: Config, s: State, acts: seq<Action>)
    requires Tenants(s)
    ensures Tenants(Run(c, s, acts))
    decreases |acts|
  {
    if acts != [] {
      TenantsStep(c, s, acts[0]);
      TenantsRun(c, Step(c, s, acts[0]), acts[1..]);
    }
  }

  /** In every reachable state, with or without the mutex: a session is of its
      user's tenant, and so is every step it ever made. */
  lemma TenantsApart(c: Config, s: State, sid: SessionId)
    requires Reachable(c, s) && sid in s.sessions && s.sessions[sid].user in s.users
    ensures s.users[s.sessions[sid].user].tenant == s.sessions[sid].tenant
    ensures sid in s.h.logs && forall k | 0 <= k < |AdvancesOf(s.h, sid)| ::
              AdvancesOf(s.h, sid)[k].claims.tenant == s.users[s.sessions[sid].user].tenant
  {
    var users, acts :| s == Run(c, Init(users), acts);
    TenantsRun(c, Init(users), acts);
    ReachableInv(c, s);
    assert LogOk(s.h, sid, s.h.logs[sid]);
    forall k | 0 <= k < |AdvancesOf(s.h, sid)|
      ensures AdvancesOf(s.h, sid)[k].claims.tenant == s.users[s.sessions[sid].user].tenant
    {
      assert GrantOk(s.h, sid, s.h.logs[sid], k);
    }
  }
}
