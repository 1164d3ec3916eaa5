/** A revocation is recorded once: with the time of the request that made it,
    and a revoked session does not change any more. */
module TokenRevocations {
  import opened Common
  import opened AuthModels
  import opened TokenProtocol
  import opened TokenInvariants
  import opened TokenSteps
  import opened TokenControl
  import opened TokenTheorems
  import opened TokenReplay

  // The time of a request that is about to revoke a session.
  function RevokingAt(f: Flow): Option<Time> {
    match f
    case TokReplay(req, _) => Some(req.now)
    case RevExecute(_, _, now) => Some(now)
    case RevNext(_, now) => Some(now)
    case _ => None
  }

  // A revoked session stays as it is, and one revoked by request rid is only given that request's time.
  ghost predicate Dated(s: State, s': State, rid: RequestId) {
    forall sid :: sid in s.sessions && sid in s'.sessions && s'.sessions[sid].status.Revoked? ==>
      if s.sessions[sid].status.Revoked? then s'.sessions[sid] == s.sessions[sid]
      else rid in s.flows && RevokingAt(s.flows[rid]).Some?
           && s'.sessions[sid] == s.sessions[sid].ApplyRevocation(RevokingAt(s.flows[rid]).value)
  }

  lemma SameDated(s: State, s': State, rid: RequestId)
    requires forall sid :: sid in s'.sessions && sid in s.sessions ==> s'.sessions[sid] == s.sessions[sid]
    ensures Dated(s, s', rid)
  {
  }

  lemma FindCredentialDated(s: State, rid: RequestId)
    ensures Dated(s, StepFindCredential(s, rid), rid)
  {
  }

  lemma PrepareDated(c: Config, s: State, rid: RequestId, ctx: TokenContext, active: bool, token: TokenId, jti: Jti)
    ensures Dated(s, StepPrepare(c, s, rid, ctx, active, token, jti), rid)
  {
  }

  lemma ConsumeDated(s: State, rid: RequestId)
    ensures Dated(s, StepConsume(s, rid), rid)
  {
  }

  lemma ReplayRevokeDated(s: State, rid: RequestId)
    ensures Dated(s, StepReplayRevoke(s, rid), rid)
  {
  }

  // A session step is refused on a revoked session and does not revoke one.
  lemma AdvanceDated(c: Config, s: State, rid: RequestId)
    ensures Dated(s, StepAdvanceSession(c, s, rid), rid)
  {
  }

  lemma TokenDated(c: Config, s: State, rid: RequestId, t: TokenAction)
    ensures Dated(s, StepToken(c, s, rid, t), rid)
  {
    match t
    case FindCredential => FindCredentialDated(s, rid);
    case Prepare(ctx, active, token, jti) => PrepareDated(c, s, rid, ctx, active, token, jti);
    case Consume => ConsumeDated(s, rid);
    case ReplayRevoke => ReplayRevokeDated(s, rid);
    case AdvanceSession => AdvanceDated(c, s, rid);
    case _ => SameDated(s, StepToken(c, s, rid, t), rid);
  }

  lemma FindOrCreateDated(s: State, rid: RequestId, pick: UserId)
    ensures Dated(s, StepFindOrCreateUser(s, rid, pick), rid)
  {
  }

  // A new session has a new identifier.
  lemma CreateSessionDated(c: Config, s: State, rid: RequestId, made: SessionId)
    requires SessionsLogged(s)
    ensures Dated(s, StepCreateSession(c, s, rid, made), rid)
  {
  }

  lemma CreateCodeDated(c: Config, s: State, rid: RequestId, code: CodeId)
    ensures Dated(s, StepCreateCode(c, s, rid, code), rid)
  {
  }

  lemma DeleteSessionsDated(c: Config, s: State, rid: RequestId)
    ensures Dated(s, StepDeleteSessions(c, s, rid), rid)
  {
  }

  lemma DeleteUserRowDated(c: Config, s: State, rid: RequestId)
    ensures Dated(s, StepDeleteUserRow(c, s, rid), rid)
  {
  }

  lemma AccountDated(c: Config, s: State, rid: RequestId, u: AccountAction)
    requires SessionsLogged(s)
    ensures Dated(s, StepAccount(c, s, rid, u), rid)
  {
    match u
    case FindOrCreateUser(pick) => FindOrCreateDated(s, rid, pick);
    case CreateSession(sid) => CreateSessionDated(c, s, rid, sid);
    case CreateCode(code) => CreateCodeDated(c, s, rid, code);
    case DeleteSessions => DeleteSessionsDated(c, s, rid);
    case DeleteUserRow => DeleteUserRowDated(c, s, rid);
    case _ => SameDated(s, StepAccount(c, s, rid, u), rid);
  }

  lemma ExecuteRevokeDated(s: State, rid: RequestId)
    ensures Dated(s, StepExecuteRevoke(s, rid), rid)
  {
  }

  lemma RevokeTargetDated(s: State, rid: RequestId, ok: bool)
    ensures Dated(s, StepRevokeTarget(s, rid, ok), rid)
  {
  }

  lemma BeginLogoutDated(s: State, rid: RequestId, user: UserId, keep: Option<SessionId>, order: seq<SessionId>,
                         now: Time)
    ensures Dated(s, StepBeginLogoutAll(s, rid, user, keep, order, now), rid)
  {
  }

  lemma WriteTrlDated(c: Config, s: State, rid: RequestId, clock: Time, ok: bool)
    ensures Dated(s, StepWriteTrl(c, s, rid, clock, ok), rid)
  {
  }

  lemma RevokeDated(c: Config, s: State, rid: RequestId, v: RevokeAction)
    ensures Dated(s, StepRevoke(c, s, rid, v), rid)
  {
    match v
    case ExecuteRevoke => ExecuteRevokeDated(s, rid);
    case BeginLogoutAll(user, keep, order, now) => BeginLogoutDated(s, rid, user, keep, order, now);
    case RevokeTarget(ok) => RevokeTargetDated(s, rid, ok);
    case WriteTrl(clock, ok) => WriteTrlDated(c, s, rid, clock, ok);
    case _ => SameDated(s, StepRevoke(c, s, rid, v), rid);
  }

  lemma TxDated(c: Config, s: State, rid: RequestId, x: TxAction)
    ensures Dated(s, StepTx(c, s, rid, x), rid)
  {
  }

  lemma CleanupDated(c: Config, s: State, k: CleanupAction, rid: RequestId)
    ensures Dated(s, StepCleanup(c, s, k), rid)
  {
  }

  lemma StepDated(c: Config, s: State, a: Action)
    requires SessionsLogged(s)
    ensures Dated(s, Step(c, s, a), Mover(a))
  {
    match a
    case OnToken(rid, t) => TokenDated(c, s, rid, t);
    case OnAccount(rid, u) => AccountDated(c, s, rid, u);
    case OnRevoke(rid, v) => RevokeDated(c, s, rid, v);
    case OnTx(rid, x) => TxDated(c, s, rid, x);
    case OnCleanup(k) => CleanupDated(c, s, k, 0);
  }

  // ----- over runs -----

  /** A revoked session does not change any more, in any run, until it is removed. */
  lemma {:induction false} RevokedIsFrozen(c: Config, s: State, acts: seq<Action>, sid: SessionId)
    requires Inv(s) && sid in s.sessions && s.sessions[sid].status.Revoked?
    ensures sid in Run(c, s, acts).sessions ==> Run(c, s, acts).sessions[sid] == s.sessions[sid]
    decreases |acts|
  {
    if acts != [] {
      var s' := Step(c, s, acts[0]);
      PreserveStep(c, s, acts[0]);
      StepDated(c, s, acts[0]);
      StepEvolves(c, s, acts[0], sid);
      if sid in s'.sessions {
        RevokedIsFrozen(c, s', acts[1..], sid);
      } else {
        GoneForGood(c, s', acts[1..], sid);
      }
    }
  }

  lemma {:induction false} GoneForGood(c: Config, s: State, acts: seq<Action>, sid: SessionId)
    requires Inv(s) && sid in s.h.logs && sid !in s.sessions
    ensures sid !in Run(c, s, acts).sessions
    decreases |acts|
  {
    if acts != [] {
      PreserveStep(c, s, acts[0]);
      StepEvolves(c, s, acts[0], sid);
      GoneForGood(c, Step(c, s, acts[0]), acts[1..], sid);
    }
  }

  /** Whatever action revokes a session, in any interleaving: it records exactly
      the time of the request that makes it and changes nothing else of the
      session, and from then on the record stays as it is, in every run. */
  lemma RevokedOnce(c: Config, s: State, a: Action, after: seq<Action>, sid: SessionId)
    requires Reachable(c, s) && sid in s.sessions && !s.sessions[sid].status.Revoked?
    requires var s' := Step(c, s, a); sid in s'.sessions && s'.sessions[sid].status.Revoked?
    ensures Mover(a) in s.flows && RevokingAt(s.flows[Mover(a)]).Some?
    ensures var revoked := s.sessions[sid].(status := Revoked, revokedAt := RevokingAt(s.flows[Mover(a)]));
            var later := Run(c, Step(c, s, a), after).sessions;
            Step(c, s, a).sessions[sid] == revoked && (sid in later ==> later[sid] == revoked)
  {
    ReachableInv(c, s);
    SessionIsReplayOfLog(c, s, sid);
    StepDated(c, s, a);
    PreserveStep(c, s, a);
    RevokedIsFrozen(c, Step(c, s, a), after, sid);
  }
}
