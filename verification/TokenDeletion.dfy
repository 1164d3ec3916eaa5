/** Deleting a user: with one mutex for all requests, or with foreign keys, no
    session outlives its user, and what the deletion leaves behind can no longer
    be used. */
module TokenDeletion {
  import opened Common
  import opened AuthModels
  import opened TokenProtocol
  import opened TokenInvariants
  import opened TokenSteps
  import opened TokenControl
  import opened TokenTheorems
  import opened TokenKeys

  // ----- with the mutex -----

  predicate NoSessions(s: State, u: UserId) {
    forall sid :: sid in s.sessions ==> s.sessions[sid].user != u
  }

  // What a request inside an authorization or a deletion has established about its user.
  predicate UserFlowOk(s: State, f: Flow) {
    && (f.AuthSession? ==> f.user in s.users)
    && (f.DelRow? ==> NoSessions(s, f.user))
  }

  predicate UsersOk(s: State) {
    && (forall sid :: sid in s.sessions ==> s.sessions[sid].user in s.users)
    && (forall r :: r in s.flows ==> UserFlowOk(s, s.flows[r]))
    && (forall u :: u in s.users ==> u in s.everUsers)
  }

  // Only from these two points does a request learn something about its user.
  predicate AtUserStep(s: State, r: RequestId) {
    r in s.flows && (s.flows[r].AuthUser? || s.flows[r].DelSessions?)
  }

  lemma NarrowsFlow(c: Config, s: State, s': State, rid: RequestId, r: RequestId)
    requires Narrows(s, s') && Moves(c, s, s', rid) && r in s'.flows
    requires AtUserStep(s, rid) ==> s'.flows == s.flows || s'.flows[rid].Done?
    requires r in s.flows ==> UserFlowOk(s, s.flows[r])
    ensures UserFlowOk(s', s'.flows[r])
  {
  }

  lemma NarrowsKeeps(c: Config, s: State, s': State, rid: RequestId)
    requires UsersOk(s) && Narrows(s, s') && Moves(c, s, s', rid)
    requires AtUserStep(s, rid) ==> s'.flows == s.flows || s'.flows[rid].Done?
    ensures UsersOk(s')
  {
    forall r | r in s'.flows ensures UserFlowOk(s', s'.flows[r]) {
      NarrowsFlow(c, s, s', rid, r);
    }
  }

  // The token endpoint and the revocations move no request that is at such a point.
  lemma UserStepStays(c: Config, s: State, rid: RequestId, t: TokenAction, v: RevokeAction)
    requires AtUserStep(s, rid)
    ensures StepToken(c, s, rid, t).flows == s.flows
    ensures StepRevoke(c, s, rid, v).flows == s.flows
  {
  }

  lemma FoundUserKeeps(s: State, s': State, rid: RequestId, pick: UserId)
    requires UsersOk(s) && FindsUser(s, s', rid, pick)
    ensures UsersOk(s')
  {
  }

  lemma StoppedKeeps(s: State, rid: RequestId)
    requires UsersOk(s)
    ensures UsersOk(Goto(s, rid, Done))
  {
  }

  lemma FindOrCreateUserKeeps(s: State, rid: RequestId, pick: UserId)
    requires UsersOk(s)
    ensures UsersOk(StepFindOrCreateUser(s, rid, pick))
  {
    var s' := StepFindOrCreateUser(s, rid, pick);
    FindOrCreateShape(s, rid, pick);
    if FindsUser(s, s', rid, pick) {
      FoundUserKeeps(s, s', rid, pick);
    } else {
      StoppedKeeps(s, rid);
    }
  }

  lemma NewSessionKeeps(s: State, s': State, rid: RequestId, sid: SessionId, sess: Session, f: Flow)
    requires UsersOk(s) && sess.user in s.users && !f.AuthSession? && !f.DelRow?
    requires forall r :: r in s.flows && r != rid ==> !s.flows[r].DelRow?
    requires s'.users == s.users && s'.everUsers == s.everUsers
    requires s'.sessions == s.sessions[sid := sess] && s'.flows == s.flows[rid := f]
    ensures UsersOk(s')
  {
    forall r | r in s'.flows && r != rid ensures UserFlowOk(s', s'.flows[r]) {
      assert UserFlowOk(s, s.flows[r]);
    }
  }

  // The mutex is what keeps a session from being created between the two halves of a deletion.
  lemma CreateSessionKeeps(c: Config, s: State, rid: RequestId, sid: SessionId)
    requires UsersOk(s) && c.mutex && Exclusive(c, s)
    ensures UsersOk(StepCreateSession(c, s, rid, sid))
  {
    var s' := StepCreateSession(c, s, rid, sid);
    if s' == s {
    } else if s' == Goto(s, rid, Done) {
      StoppedKeeps(s, rid);
    } else {
      assert UserFlowOk(s, s.flows[rid]) && Inside(s, rid);
      assert forall r :: r in s.flows && r != rid ==> !Inside(s, r);
      NewSessionKeeps(s, s', rid, sid, s'.sessions[sid], AuthCode(s.flows[rid].params, sid));
    }
  }

  lemma DeleteSessionsKeeps(c: Config, s: State, rid: RequestId)
    requires UsersOk(s)
    ensures UsersOk(StepDeleteSessions(c, s, rid))
  {
    var s' := StepDeleteSessions(c, s, rid);
    forall r | r in s'.flows ensures UserFlowOk(s', s'.flows[r]) {
      if r in s.flows {
        assert UserFlowOk(s, s.flows[r]);
      }
    }
  }

  // The user goes, with no session left and no other transaction inside.
  lemma RemovedUserKeeps(s: State, s': State, rid: RequestId, u: UserId)
    requires UsersOk(s) && NoSessions(s, u)
    requires forall r :: r in s.flows && r != rid ==> !s.flows[r].AuthSession?
    requires s'.flows == s.flows[rid := Done] && s'.users == s.users - {u} && s'.everUsers == s.everUsers
    requires forall sid :: sid in s'.sessions ==> sid in s.sessions && s'.sessions[sid] == s.sessions[sid]
    ensures UsersOk(s')
  {
    forall r | r in s'.flows && r != rid ensures UserFlowOk(s', s'.flows[r]) {
      assert UserFlowOk(s, s.flows[r]);
    }
  }

  lemma DeleteUserRowKeeps(c: Config, s: State, rid: RequestId)
    requires UsersOk(s) && c.mutex && Exclusive(c, s)
    ensures UsersOk(StepDeleteUserRow(c, s, rid))
  {
    if rid in s.flows && s.flows[rid].DelRow? {
      assert UserFlowOk(s, s.flows[rid]) && Inside(s, rid);
      assert forall r :: r in s.flows && r != rid ==> !Inside(s, r);
      RemovedUserKeeps(s, StepDeleteUserRow(c, s, rid), rid, s.flows[rid].user);
    }
  }

  lemma BeginKeeps(c: Config, s: State, rid: RequestId, f: Flow)
    requires UsersOk(s) && Starts(f)
    ensures UsersOk(Begin(s, rid, f))
  {
    MovesBegin(c, s, rid, f);
    NarrowsKeeps(c, s, Begin(s, rid, f), rid);
  }

  lemma CreateCodeKeeps(c: Config, s: State, rid: RequestId, code: CodeId)
    requires UsersOk(s)
    ensures UsersOk(StepCreateCode(c, s, rid, code))
  {
    MovesAccount(c, s, rid, CreateCode(code));
    NarrowsCreateCode(c, s, rid, code);
    NarrowsKeeps(c, s, StepCreateCode(c, s, rid, code), rid);
  }

  lemma AccountKeeps(c: Config, s: State, rid: RequestId, u: AccountAction)
    requires UsersOk(s) && c.mutex && Exclusive(c, s)
    ensures UsersOk(StepAccount(c, s, rid, u))
  {
    match u
    case BeginAuthorize(p) => BeginKeeps(c, s, rid, AuthReady(p));
    case FindOrCreateUser(pick) => FindOrCreateUserKeeps(s, rid, pick);
    case CreateSession(i) => CreateSessionKeeps(c, s, rid, i);
    case CreateCode(code) => CreateCodeKeeps(c, s, rid, code);
    case BeginDelete(user) => BeginKeeps(c, s, rid, DelReady(user));
    case DeleteSessions => DeleteSessionsKeeps(c, s, rid);
    case DeleteUserRow => DeleteUserRowKeeps(c, s, rid);
  }

  lemma TokenKeeps(c: Config, s: State, rid: RequestId, t: TokenAction)
    requires UsersOk(s)
    ensures UsersOk(StepToken(c, s, rid, t))
  {
    MovesToken(c, s, rid, t);
    NarrowsToken(c, s, rid, t);
    if AtUserStep(s, rid) {
      UserStepStays(c, s, rid, t, ResolveSession);
    }
    NarrowsKeeps(c, s, StepToken(c, s, rid, t), rid);
  }

  lemma RevokeKeeps(c: Config, s: State, rid: RequestId, v: RevokeAction)
    requires UsersOk(s)
    ensures UsersOk(StepRevoke(c, s, rid, v))
  {
    MovesRevoke(c, s, rid, v);
    NarrowsRevoke(c, s, rid, v);
    if AtUserStep(s, rid) {
      UserStepStays(c, s, rid, Consume, v);
    }
    NarrowsKeeps(c, s, StepRevoke(c, s, rid, v), rid);
  }

  lemma TxKeeps(c: Config, s: State, rid: RequestId, x: TxAction)
    requires UsersOk(s)
    ensures UsersOk(StepTx(c, s, rid, x))
  {
    MovesTx(c, s, rid, x);
    NarrowsKeeps(c, s, StepTx(c, s, rid, x), rid);
  }

  lemma CleanupKeeps(c: Config, s: State, k: CleanupAction)
    requires UsersOk(s)
    ensures UsersOk(StepCleanup(c, s, k))
  {
    NarrowsKeeps(c, s, StepCleanup(c, s, k), 0);
  }

  lemma UsersStep(c: Config, s: State, a: Action)
    requires UsersOk(s) && c.mutex && Exclusive(c, s)
    ensures UsersOk(Step(c, s, a))
  {
    match a
    case OnToken(rid, t) => TokenKeeps(c, s, rid, t);
    case OnAccount(rid, u) => AccountKeeps(c, s, rid, u);
    case OnRevoke(rid, v) => RevokeKeeps(c, s, rid, v);
    case OnTx(rid, x) => TxKeeps(c, s, rid, x);
    case OnCleanup(k) => CleanupKeeps(c, s, k);
  }

  lemma {:induction false} UsersRun(c: Config, s: State, acts: seq<Action>)
    requires UsersOk(s) && c.mutex && Exclusive(c, s)
    ensures UsersOk(Run(c, s, acts))
    decreases |acts|
  {
    if acts != [] {
      UsersStep(c, s, acts[0]);
      ExclusiveStep(c, s, acts[0]);
      UsersRun(c, Step(c, s, acts[0]), acts[1..]);
    }
  }

  lemma ReachableUsers(c: Config, s: State)
    requires Reachable(c, s) && c.mutex
    ensures UsersOk(s)
  {
    var users, acts :| s == Run(c, Init(users), acts);
    UsersRun(c, Init(users), acts);
  }

  // ----- either way -----

  /** With the mutex or with foreign keys the user of every stored session
      exists, in the middle of every transaction as well as between them. */
  lemma SessionsHaveUsers(c: Config, s: State, sid: SessionId)
    requires Reachable(c, s) && (c.mutex || c.foreignKeys) && sid in s.sessions
    ensures s.sessions[sid].user in s.users
  {
    if c.mutex {
      ReachableUsers(c, s);
    } else {
      ReferencesWhole(c, s);
    }
  }

  // A user that is gone stays gone: a later registration gets a new identifier.
  predicate Gone(s: State, u: UserId) {
    u in s.everUsers && u !in s.users
  }

  lemma GoneAccount(c: Config, s: State, rid: RequestId, act: AccountAction, u: UserId)
    requires Gone(s, u)
    ensures Gone(StepAccount(c, s, rid, act), u)
  {
  }

  lemma GoneStep(c: Config, s: State, a: Action, u: UserId)
    requires Gone(s, u)
    ensures Gone(Step(c, s, a), u)
  {
    match a
    case OnToken(rid, t) => NarrowsToken(c, s, rid, t);
    case OnAccount(rid, act) => GoneAccount(c, s, rid, act, u);
    case OnRevoke(rid, v) => NarrowsRevoke(c, s, rid, v);
    case OnTx(rid, x) => NarrowsTx(c, s, rid, x);
    case OnCleanup(k) => NarrowsCleanup(c, s, k);
  }

  lemma {:induction false} GoneRun(c: Config, s: State, acts: seq<Action>, u: UserId)
    requires Gone(s, u)
    ensures Gone(Run(c, s, acts), u)
    decreases |acts|
  {
    if acts != [] {
      GoneStep(c, s, acts[0], u);
      GoneRun(c, Step(c, s, acts[0]), acts[1..], u);
    }
  }

  // With the mutex the sessions are gone before the row is deleted; with foreign keys they go with it.
  lemma NoSessionLeft(c: Config, s: State, rid: RequestId, sid: SessionId)
    requires Reachable(c, s) && (c.mutex || c.foreignKeys) && rid in s.flows && s.flows[rid].DelRow?
    requires sid in s.h.logs && s.h.logs[sid].born.user == s.flows[rid].user
    ensures sid !in StepDeleteUserRow(c, s, rid).sessions
  {
    ReachableInv(c, s);
    if !c.foreignKeys {
      ReachableUsers(c, s);
      assert UserFlowOk(s, s.flows[rid]);
    }
  }

  // A session that is gone never returns and never advances.
  lemma GoneForGood(c: Config, s: State, after: seq<Action>, sid: SessionId)
    requires Inv(s) && sid in s.h.logs && sid !in s.sessions
    ensures sid !in Run(c, s, after).sessions && AdvancesOf(Run(c, s, after).h, sid) == AdvancesOf(s.h, sid)
  {
    OverRun(c, s, after, sid);
    StatusRun(c, s, after, sid);
  }

  lemma {:induction false} ReachableAfter(c: Config, s: State, acts: seq<Action>)
    requires Reachable(c, s)
    ensures Reachable(c, Run(c, s, acts))
    decreases |acts|
  {
    if acts != [] {
      ReachableStep(c, s, acts[0]);
      ReachableAfter(c, Step(c, s, acts[0]), acts[1..]);
    }
  }

  /** When a user's row is deleted, the user never comes back, no session of
      theirs is ever stored again, and no session that was ever created for them
      passes a session step again, whatever codes and refresh tokens of those
      sessions are still stored or in flight. */
  lemma DeletionIsFinal(c: Config, s: State, rid: RequestId, after: seq<Action>, sid: SessionId)
    requires Reachable(c, s) && (c.mutex || c.foreignKeys)
    requires rid in s.flows && s.flows[rid].DelRow? && s.flows[rid].user in s.users
    ensures var s', u := Run(c, StepDeleteUserRow(c, s, rid), after), s.flows[rid].user;
            && u !in s'.users
            && (sid in s'.sessions ==> s'.sessions[sid].user != u)
            && (sid in s.h.logs && s.h.logs[sid].born.user == u ==>
                  sid !in s'.sessions && AdvancesOf(s'.h, sid) == AdvancesOf(s.h, sid))
  {
    var s1, u := StepDeleteUserRow(c, s, rid), s.flows[rid].user;
    DeletedUserGone(c, s, rid, after);
    ReachableStep(c, s, OnAccount(rid, DeleteUserRow));
    ReachableAfter(c, s1, after);
    if sid in Run(c, s1, after).sessions {
      SessionsHaveUsers(c, Run(c, s1, after), sid);
    }
    if sid in s.h.logs && s.h.logs[sid].born.user == u {
      DeletedSessionGone(c, s, rid, after, sid);
    }
  }

  lemma EverUsers(c: Config, s: State, u: UserId)
    requires Reachable(c, s) && u in s.users
    ensures u in s.everUsers
  {
    var users, acts :| s == Run(c, Init(users), acts);
    KnownRun(c, Init(users), acts);
  }

  predicate Known(s: State) {
    forall u :: u in s.users ==> u in s.everUsers
  }

  lemma KnownAccount(c: Config, s: State, rid: RequestId, act: AccountAction)
    requires Known(s)
    ensures Known(StepAccount(c, s, rid, act))
  {
  }

  lemma KnownStep(c: Config, s: State, a: Action)
    requires Known(s)
    ensures Known(Step(c, s, a))
  {
    match a
    case OnToken(rid, t) => NarrowsToken(c, s, rid, t);
    case OnAccount(rid, act) => KnownAccount(c, s, rid, act);
    case OnRevoke(rid, v) => NarrowsRevoke(c, s, rid, v);
    case OnTx(rid, x) => NarrowsTx(c, s, rid, x);
    case OnCleanup(k) => NarrowsCleanup(c, s, k);
  }

  lemma {:induction false} KnownRun(c: Config, s: State, acts: seq<Action>)
    requires Known(s)
    ensures Known(Run(c, s, acts))
    decreases |acts|
  {
    if acts != [] {
      KnownStep(c, s, acts[0]);
      KnownRun(c, Step(c, s, acts[0]), acts[1..]);
    }
  }

  lemma DeletedUserGone(c: Config, s: State, rid: RequestId, after: seq<Action>)
    requires Reachable(c, s) && rid in s.flows && s.flows[rid].DelRow? && s.flows[rid].user in s.users
    ensures s.flows[rid].user !in Run(c, StepDeleteUserRow(c, s, rid), after).users
  {
    EverUsers(c, s, s.flows[rid].user);
    GoneRun(c, StepDeleteUserRow(c, s, rid), after, s.flows[rid].user);
  }

  lemma DeletedSessionGone(c: Config, s: State, rid: RequestId, after: seq<Action>, sid: SessionId)
    requires Reachable(c, s) && (c.mutex || c.foreignKeys) && rid in s.flows && s.flows[rid].DelRow?
    requires sid in s.h.logs && s.h.logs[sid].born.user == s.flows[rid].user
    ensures var s' := Run(c, StepDeleteUserRow(c, s, rid), after);
            sid !in s'.sessions && AdvancesOf(s'.h, sid) == AdvancesOf(s.h, sid)
  {
    NoSessionLeft(c, s, rid, sid);
    ReachableStep(c, s, OnAccount(rid, DeleteUserRow));
    ReachableInv(c, StepDeleteUserRow(c, s, rid));
    GoneForGood(c, StepDeleteUserRow(c, s, rid), after, sid);
  }

  // ----- with neither -----

  // An authorization has found its user.
  lemma RaceAuthorizes(c: Config, p: AuthorizeParams, users: map<UserId, User>)
    requires !c.mutex && ScopesAllowed(p.scopes, p.allowedScopes) && p.deviceId != "" && p.email != ""
    requires users == map[0 := User(p.tenant, p.email, true)]
    ensures var s := Init(users).(flows := map[0 := AuthSession(p, 0)]); Reachable(c, s)
  {
    var s0 := Init(users);
    assert Run(c, s0, []) == s0;
    ReachableStep(c, s0, OnAccount(0, BeginAuthorize(p)));
    var s1 := Step(c, s0, OnAccount(0, BeginAuthorize(p)));
    assert s1 == s0.(flows := map[0 := AuthReady(p)]);
    ReachableStep(c, s1, OnTx(0, Acquire));
    var s2 := Step(c, s1, OnTx(0, Acquire));
    assert s2 == s0.(flows := map[0 := AuthUser(p)]);
    assert Matches(users[0], p);
    ReachableStep(c, s2, OnAccount(0, FindOrCreateUser(0)));
    assert Step(c, s2, OnAccount(0, FindOrCreateUser(0))) == s0.(flows := map[0 := AuthSession(p, 0)]);
  }

  lemma RaceBegins(c: Config, s: State, r: RequestId, u: UserId)
    requires Reachable(c, s) && r !in s.flows && u in s.users
    ensures Reachable(c, Goto(s, r, DelReady(u)))
  {
    ReachableStep(c, s, OnAccount(r, BeginDelete(u)));
  }

  lemma RaceEnters(c: Config, s: State, r: RequestId, u: UserId)
    requires Reachable(c, s) && !c.mutex && r in s.flows && s.flows[r] == DelReady(u)
    ensures Reachable(c, Goto(s, r, DelSessions(u)))
  {
    assert StepAcquire(c, s, r) == Goto(s, r, DelSessions(u));
    ReachableStep(c, s, OnTx(r, Acquire));
  }

  lemma RaceDeleteSessions(c: Config, s: State, r: RequestId, u: UserId)
    requires Reachable(c, s) && r in s.flows && s.flows[r] == DelSessions(u)
    requires s.sessions == map[] && s.codes == map[] && s.tokens == map[]
    ensures Reachable(c, Goto(s, r, DelRow(u)))
  {
    assert StepDeleteSessions(c, s, r) == Goto(s, r, DelRow(u));
    ReachableStep(c, s, OnAccount(r, DeleteSessions));
  }

  lemma GotoTwice(s: State, r: RequestId, f: Flow, g: Flow)
    ensures Goto(Goto(s, r, f), r, g) == Goto(s, r, g)
  {
  }

  // A deletion of that user gets as far as having deleted the sessions.
  lemma RaceDeletes(c: Config, s: State, r: RequestId, u: UserId)
    requires Reachable(c, s) && !c.mutex && r !in s.flows && u in s.users
    requires s.sessions == map[] && s.codes == map[] && s.tokens == map[]
    ensures Reachable(c, Goto(s, r, DelRow(u)))
  {
    RaceBegins(c, s, r, u);
    RaceEnters(c, Goto(s, r, DelReady(u)), r, u);
    GotoTwice(s, r, DelReady(u), DelSessions(u));
    RaceDeleteSessions(c, Goto(s, r, DelSessions(u)), r, u);
    GotoTwice(s, r, DelSessions(u), DelRow(u));
  }

  lemma RaceCreates(c: Config, s: State, p: AuthorizeParams, r: RequestId, u: UserId, sid: SessionId)
    requires !c.foreignKeys && r in s.flows && s.flows[r] == AuthSession(p, u)
    requires sid !in s.h.logs && p.scopes != [] && c.sessionTtl >= 0
    ensures var s' := StepCreateSession(c, s, r, sid);
            s'.flows == s.flows[r := AuthCode(p, sid)] && sid in s'.sessions && s'.sessions[sid].user == u
  {
  }

  lemma RaceDeletesRow(c: Config, s: State, r: RequestId, u: UserId, sid: SessionId)
    requires Reachable(c, s) && !c.foreignKeys && r in s.flows && s.flows[r] == DelRow(u)
    requires sid in s.sessions && s.sessions[sid].user == u
    ensures exists s' :: Reachable(c, s') && sid in s'.sessions && s'.sessions[sid].user !in s'.users
  {
    ReachableStep(c, s, OnAccount(r, DeleteUserRow));
    assert u !in StepDeleteUserRow(c, s, r).users;
  }

  // The session is created after the deletion of the sessions, and the row deleted after that.
  lemma RaceOrphans(c: Config, s: State, p: AuthorizeParams, r1: RequestId, r2: RequestId, u: UserId, sid: SessionId)
    requires Reachable(c, s) && r1 in s.flows && s.flows[r1] == AuthSession(p, u) && r2 in s.flows
    requires s.flows[r2] == DelRow(u)
    requires !c.foreignKeys && sid !in s.h.logs && p.scopes != [] && c.sessionTtl >= 0
    ensures exists s' :: Reachable(c, s') && sid in s'.sessions && s'.sessions[sid].user !in s'.users
  {
    var s1 := StepCreateSession(c, s, r1, sid);
    RaceCreates(c, s, p, r1, u, sid);
    ReachableStep(c, s, OnAccount(r1, CreateSession(sid)));
    RaceDeletesRow(c, s1, r2, u, sid);
  }

  lemma SessionOutlivesUser(c: Config)
    requires !c.mutex && !c.foreignKeys && c.sessionTtl >= 0
    ensures exists s :: Reachable(c, s) && 0 in s.sessions && s.sessions[0].user !in s.users
  {
    var p := AuthorizeParams("a", ["openid"], [], "uri", 0, "device", "", 0, 0);
    var users: map<UserId, User> := map[0 := User(0, "a", true)];
    RaceAuthorizes(c, p, users);
    var s0 := Init(users).(flows := map[0 := AuthSession(p, 0)]);
    RaceDeletes(c, s0, 1, 0);
    RaceOrphans(c, Goto(s0, 1, DelRow(0)), p, 0, 1, 0, 0);
  }

  ghost predicate NoOrphans(c: Config) {
    forall s, sid :: Reachable(c, s) && sid in s.sessions ==> s.sessions[sid].user in s.users
  }

  /** No session ever outlives its user exactly when all requests share the mutex
      or the stores enforce foreign keys; with neither, an authorization and a
      deletion can interleave so that one does. */
  lemma NoOrphansIff(c: Config)
    requires c.sessionTtl >= 0
    ensures NoOrphans(c) <==> c.mutex || c.foreignKeys
  {
    if c.mutex || c.foreignKeys {
      forall s, sid | Reachable(c, s) && sid in s.sessions ensures s.sessions[sid].user in s.users {
        SessionsHaveUsers(c, s, sid);
      }
    } else {
      SessionOutlivesUser(c);
    }
  }
}
