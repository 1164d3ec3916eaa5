/** What the partial outcomes of the auth service mean to its callers: when a
    logout is complete, what a retry does, and which user an authorization is for. */
module AuthOutcomes {
  import opened Common
  import opened AuthModels
  import opened TokenProtocol
  import opened TokenTheorems
  import opened TokenKeys
  import opened AuthRuns

  // ----- logging out everywhere -----

  // The revocation of the session meets no error.
  predicate Unhindered(c: Config, sess: Session, w: RevokeWorld) {
    w.findOk && (sess.CanRevoke() ==> w.revokeOk && (w.trlOk || sess.lastJti.None? || !c.failOnTrlError))
  }

  lemma EndingsPartition(c: Config, sessions: map<SessionId, Session>, chosen: set<SessionId>, worlds: Worlds)
    requires chosen <= sessions.Keys
    ensures |Ending(c, sessions, chosen, worlds, NowRevoked)| + |Ending(c, sessions, chosen, worlds, RevokeFailed)|
              + |Ending(c, sessions, chosen, worlds, AlreadyRevoked)| == |chosen|
  {
    var now := Ending(c, sessions, chosen, worlds, NowRevoked);
    var failed := Ending(c, sessions, chosen, worlds, RevokeFailed);
    var already := Ending(c, sessions, chosen, worlds, AlreadyRevoked);
    assert now !! failed && (now + failed) !! already && now + failed + already == chosen;
  }

  /** When a logout is complete: every chosen session ends revoked exactly when no
      store call failed that had a session to revoke. The failures are zero exactly
      when nothing at all went wrong, which is more; and every chosen session is
      counted once, as revoked, failed or already revoked. */
  lemma LogoutComplete(c: Config, s: State, s': State, chosen: set<SessionId>, worlds: Worlds, now: Time,
                       r: LogoutResult)
    requires LogsOut(c, s, s', chosen, worlds, now, r) && chosen <= s.sessions.Keys
    ensures (forall sid | sid in chosen :: sid in s'.sessions && !s'.sessions[sid].CanRevoke()) <==>
              forall sid | sid in chosen && s.sessions[sid].CanRevoke() :: worlds(sid).findOk && worlds(sid).revokeOk
    ensures r.failedCount == 0 <==> forall sid | sid in chosen :: Unhindered(c, s.sessions[sid], worlds(sid))
    ensures r.revokedCount + r.failedCount + |Ending(c, s.sessions, chosen, worlds, AlreadyRevoked)| == |chosen|
  {
    EndingsPartition(c, s.sessions, chosen, worlds);
    forall sid | sid in chosen
      ensures sid in s'.sessions
      ensures s'.sessions[sid].CanRevoke() <==>
                s.sessions[sid].CanRevoke() && !(worlds(sid).findOk && worlds(sid).revokeOk)
      ensures sid in Ending(c, s.sessions, chosen, worlds, RevokeFailed) <==>
                !Unhindered(c, s.sessions[sid], worlds(sid))
    {
    }
  }

  /** A second logout that meets no failing store call revokes exactly what the
      first one missed: then every chosen session is revoked, and those that the
      first had revoked keep their time. */
  lemma LogoutRetried(c: Config, s: State, s1: State, s2: State, user: UserId, keep: Option<SessionId>,
                      worlds: Worlds, worlds': Worlds, now: Time, now': Time, r: LogoutResult, r': LogoutResult,
                      sid: SessionId)
    requires LogsOut(c, s, s1, Chosen(s.sessions, user, keep), worlds, now, r)
    requires LogsOut(c, s1, s2, Chosen(s1.sessions, user, keep), worlds', now', r')
    requires forall x :: worlds'(x).findOk && worlds'(x).revokeOk
    requires sid in Chosen(s.sessions, user, keep)
    ensures sid in s1.sessions && sid in s2.sessions && !s2.sessions[sid].CanRevoke()
    ensures s2.sessions[sid] == if s1.sessions[sid].CanRevoke() then s1.sessions[sid].ApplyRevocation(now')
                                else s1.sessions[sid]
  {
    assert s1.sessions[sid].user == user;
    assert sid in Chosen(s1.sessions, user, keep);
  }

  // ----- deleting a user -----

  const ALL_GOOD := DeleteWorld(true, true, true)

  /** A deletion that stopped halfway can be repeated: the second call ends where
      one that met no failure would have ended. */
  lemma DeletionRetried(c: Config, s: State, user: UserId, w: DeleteWorld)
    ensures Deletion(c, Deletion(c, s, user, w), user, ALL_GOOD) == Deletion(c, s, user, ALL_GOOD)
  {
    var s1 := Deletion(c, s, user, w);
    if w.findOk && user in s.users && w.sessionsOk && !w.rowOk {
      assert SessionsOfUser(s1, user) == {};
      assert s1.sessions - {} == s1.sessions;
      assert c.foreignKeys ==> RemoveSessions(c, s1, {}).codes == s1.codes;
      assert c.foreignKeys ==> RemoveSessions(c, s1, {}).tokens == s1.tokens;
      assert RemoveSessions(c, s1, {}) == s1;
    }
  }

  // ----- one user for each tenant and email -----

  predicate Distinct(users: map<UserId, User>) {
    forall u, v :: u in users && v in users && users[u].email == users[v].email && users[u].tenant == users[v].tenant
                   ==> u == v
  }

  // A user is made only when there is none of that tenant and email.
  lemma FindKeepsDistinct(s: State, rid: RequestId, pick: UserId)
    requires Distinct(s.users)
    ensures Distinct(StepFindOrCreateUser(s, rid, pick).users)
  {
    if rid in s.flows && s.flows[rid].AuthUser? {
      var p := s.flows[rid].params;
      assert (exists u :: u in s.users && Matches(s.users[u], p)) || forall u | u in s.users :: !Matches(s.users[u], p);
    }
  }

  lemma DeleteKeepsDistinct(c: Config, s: State, rid: RequestId)
    requires Distinct(s.users)
    ensures Distinct(StepDeleteUserRow(c, s, rid).users)
  {
  }

  lemma AccountKeepsDistinct(c: Config, s: State, rid: RequestId, u: AccountAction)
    requires Distinct(s.users)
    ensures Distinct(StepAccount(c, s, rid, u).users)
  {
    match u
    case BeginAuthorize(p) =>
    case FindOrCreateUser(pick) => FindKeepsDistinct(s, rid, pick);
    case CreateSession(sid) => CreateSessionUsers(c, s, rid, sid);
    case CreateCode(code) => NarrowsCreateCode(c, s, rid, code);
    case BeginDelete(user) =>
    case DeleteSessions => NarrowsDeleteSessions(c, s, rid);
    case DeleteUserRow => DeleteKeepsDistinct(c, s, rid);
  }

  lemma CreateSessionUsers(c: Config, s: State, rid: RequestId, sid: SessionId)
    ensures StepCreateSession(c, s, rid, sid).users == s.users
  {
  }

  lemma StepKeepsDistinct(c: Config, s: State, a: Action)
    requires Distinct(s.users)
    ensures Distinct(Step(c, s, a).users)
  {
    match a
    case OnToken(rid, t) => NarrowsToken(c, s, rid, t);
    case OnAccount(rid, u) => AccountKeepsDistinct(c, s, rid, u);
    case OnRevoke(rid, v) => NarrowsRevoke(c, s, rid, v);
    case OnTx(rid, x) => NarrowsTx(c, s, rid, x);
    case OnCleanup(k) => NarrowsCleanup(c, s, k);
  }

  /** However authorizations and deletions interleave, there is never more than
      one user of a tenant and email. */
  lemma {:induction false} OneUserPerEmail(c: Config, s: State, acts: seq<Action>)
    requires Distinct(s.users)
    ensures Distinct(Run(c, s, acts).users)
    decreases |acts|
  {
    if acts != [] {
      StepKeepsDistinct(c, s, acts[0]);
      OneUserPerEmail(c, Step(c, s, acts[0]), acts[1..]);
    }
  }

  /** So the user of an authorization is determined by the users there are. */
  lemma PickDetermined(c: Config, users: map<UserId, User>, acts: seq<Action>, p: AuthorizeParams, newUser: UserId,
                       pick: UserId, pick': UserId)
    requires Distinct(users)
    requires var now := Run(c, Init(users), acts).users; Picks(now, p, newUser, pick) && Picks(now, p, newUser, pick')
    ensures pick == pick'
  {
    OneUserPerEmail(c, Init(users), acts);
  }
}
