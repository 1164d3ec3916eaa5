/** A session is the replay of its log: whatever was read before a transaction,
    a committed step acts on the session as it is, and every stored session is
    what its creation and its steps make of it. */
module TokenReplay {
  import opened Common
  import opened AuthModels
  import opened TokenProtocol
  import opened TokenInvariants
  import opened TokenSteps
  import opened TokenControl
  import opened TokenTheorems
  import opened TokenGuarantees

  // A session apart from whether and when it was revoked.
  function Content(sess: Session): Session {
    sess.(status := Active, revokedAt := None)
  }

  predicate SameRecord(a: Session, b: Session) {
    Content(a) == Content(b)
  }

  // ----- how stores change in one step -----

  predicate AdvancedNow(s: State, s': State, sid: SessionId) {
    exists r | r in s.flows :: s.flows[r].TokAdvance? && s.flows[r].sid == sid && r in s'.flows
        && s'.flows[r].TokCreate?
  }

  ghost predicate Changes(s: State, s': State) {
    && (forall k :: k in s'.codes && !s'.codes[k].used ==> (k in s.codes && !s.codes[k].used) || k !in s.h.codeOf)
    && (forall t :: t in s'.tokens && !s'.tokens[t].used ==> (t in s.tokens && !s.tokens[t].used) || Minting(s, t))
    && (forall sid :: sid in s'.sessions && sid in s.h.logs ==>
          sid in s.sessions && (SameOrRevoked(s.sessions[sid], s'.sessions[sid]) || AdvancedNow(s, s', sid)))
    && (forall sid :: sid in s'.sessions && sid !in s.h.logs ==> BornNow(s', sid))
    && (forall k :: k in s.h.codeOf ==> k in s'.h.codeOf)
    && (forall t :: t in s.h.tokenOf ==> t in s'.h.tokenOf && s'.h.tokenOf[t] == s.h.tokenOf[t])
  }

  predicate SessionsLogged(s: State) {
    forall sid :: sid in s.sessions ==> sid in s.h.logs
  }

  // A session as it was created.
  predicate BornNow(s: State, sid: SessionId) {
    && sid in s.sessions && sid in s.h.logs
    && s.sessions[sid] == s.h.logs[sid].born && s.sessions[sid].revokedAt.None? && !s.sessions[sid].status.Revoked?
  }

  // The request that made this refresh token has not finished.
  predicate Minting(s: State, t: TokenId) {
    t in s.h.tokenOf && s.h.tokenOf[t].request in s.flows && !s.flows[s.h.tokenOf[t].request].Done?
  }

  lemma QuietChanges(s: State, s': State, rid: RequestId)
    requires SessionsLogged(s) && Quiet(s, s', rid)
    ensures Changes(s, s')
  {
  }

  // A step that leaves stores and history alone.
  lemma SameChanges(s: State, s': State)
    requires SessionsLogged(s) && s'.sessions == s.sessions && s'.codes == s.codes && s'.tokens == s.tokens
    requires s'.h == s.h
    ensures Changes(s, s')
  {
  }

  // A credential is used up.
  lemma UsedChanges(s: State, s': State)
    requires SessionsLogged(s) && s'.sessions == s.sessions && s'.h == s.h
    requires forall k :: k in s'.codes && !s'.codes[k].used ==> k in s.codes && !s.codes[k].used
    requires forall t :: t in s'.tokens && !s'.tokens[t].used ==> t in s.tokens && !s.tokens[t].used
    ensures Changes(s, s')
  {
  }

  lemma ConsumeCodeChanges(s: State, rid: RequestId, f: Flow, k: CodeId)
    requires SessionsLogged(s) && f.TokConsume?
    ensures Changes(s, StepConsumeCode(s, rid, f, k))
  {
    UsedChanges(s, StepConsumeCode(s, rid, f, k));
  }

  lemma ConsumeRefreshChanges(s: State, rid: RequestId, f: Flow, t: TokenId)
    requires SessionsLogged(s) && f.TokConsume?
    ensures Changes(s, StepConsumeRefresh(s, rid, f, t))
  {
    UsedChanges(s, StepConsumeRefresh(s, rid, f, t));
  }

  lemma PrepareChanges(c: Config, s: State, rid: RequestId, ctx: TokenContext, active: bool, token: TokenId, jti: Jti)
    requires SessionsLogged(s)
    ensures Changes(s, StepPrepare(c, s, rid, ctx, active, token, jti))
  {
  }

  lemma CommitChanges(s: State, s': State, rid: RequestId, f: Flow, g: Grant, sess: Session)
    requires SessionsLogged(s) && rid in s.flows && s.flows[rid] == f && f.TokAdvance? && f.sid in s.sessions
    requires s'.flows == s.flows[rid := TokCreate(f.req, f.sid, g, f.art.record)]
    requires s'.sessions == s.sessions[f.sid := sess] && s'.codes == s.codes && s'.tokens == s.tokens
    requires s'.h.codeOf == s.h.codeOf && s'.h.tokenOf == s.h.tokenOf
    ensures Changes(s, s')
  {
    assert AdvancedNow(s, s', f.sid);
  }

  lemma AdvanceChanges(c: Config, s: State, rid: RequestId)
    requires SessionsLogged(s)
    ensures Changes(s, StepAdvanceSession(c, s, rid))
  {
    var s' := StepAdvanceSession(c, s, rid);
    if s' == s || s' == Goto(s, rid, Done) {
      SameChanges(s, s');
    } else {
      var f := s.flows[rid];
      CommitChanges(s, s', rid, f, GrantOf(rid, f, s.sessions[f.sid]), Advanced(c, f, s.sessions[f.sid]));
    }
  }

  lemma StoreTokenChanges(s: State, rid: RequestId)
    requires SessionsLogged(s) && (rid in s.flows ==> FlowOk(s.h, rid, s.flows[rid]))
    ensures Changes(s, StoreToken(s, rid))
  {
  }

  lemma CreateTokenChanges(c: Config, s: State, rid: RequestId)
    requires SessionsLogged(s) && (rid in s.flows ==> FlowOk(s.h, rid, s.flows[rid]))
    ensures Changes(s, StepCreateToken(c, s, rid))
  {
    SameChanges(s, StepFail(s, rid));
    StoreTokenChanges(s, rid);
  }

  lemma TokenChanges(c: Config, s: State, rid: RequestId, t: TokenAction)
    requires Inv(s)
    ensures Changes(s, StepToken(c, s, rid, t))
  {
    match t
    case BeginToken(req) => QuietBegin(s, rid, TokStart(req)); QuietChanges(s, StepToken(c, s, rid, t), rid);
    case FindCredential => QuietFindCredential(s, rid); QuietChanges(s, StepToken(c, s, rid, t), rid);
    case FindSession => QuietFindSession(s, rid); QuietChanges(s, StepToken(c, s, rid, t), rid);
    case Prepare(ctx, active, token, jti) => PrepareChanges(c, s, rid, ctx, active, token, jti);
    case Consume =>
      if rid in s.flows && s.flows[rid].TokConsume? {
        match s.flows[rid].req.cred
        case CodeCred(k) => ConsumeCodeChanges(s, rid, s.flows[rid], k);
        case TokenCred(x) => ConsumeRefreshChanges(s, rid, s.flows[rid], x);
      }
    case ReplayRevoke => QuietReplayRevoke(s, rid); QuietChanges(s, StepToken(c, s, rid, t), rid);
    case AdvanceSession => AdvanceChanges(c, s, rid);
    case CreateToken => CreateTokenChanges(c, s, rid);
  }

  lemma StoreSessionChanges(c: Config, s: State, rid: RequestId, sid: SessionId)
    requires SessionsLogged(s)
    ensures Changes(s, StoreSession(c, s, rid, sid))
  {
  }

  lemma CreateSessionChanges(c: Config, s: State, rid: RequestId, sid: SessionId)
    requires SessionsLogged(s)
    ensures Changes(s, StepCreateSession(c, s, rid, sid))
  {
    SameChanges(s, StepFail(s, rid));
    StoreSessionChanges(c, s, rid, sid);
  }

  lemma StoreCodeChanges(s: State, rid: RequestId, code: CodeId)
    requires SessionsLogged(s)
    ensures Changes(s, StoreCode(s, rid, code))
  {
  }

  lemma CreateCodeChanges(c: Config, s: State, rid: RequestId, code: CodeId)
    requires SessionsLogged(s)
    ensures Changes(s, StepCreateCode(c, s, rid, code))
  {
    SameChanges(s, StepFail(s, rid));
    StoreCodeChanges(s, rid, code);
  }

  lemma AccountChanges(c: Config, s: State, rid: RequestId, u: AccountAction)
    requires Inv(s)
    ensures Changes(s, StepAccount(c, s, rid, u))
  {
    match u
    case BeginAuthorize(p) => QuietBeginAuthorize(s, rid, p); QuietChanges(s, StepBeginAuthorize(s, rid, p), rid);
    case FindOrCreateUser(pick) => QuietFindOrCreateUser(s, rid, pick);
      QuietChanges(s, StepFindOrCreateUser(s, rid, pick), rid);
    case CreateSession(sid) => CreateSessionChanges(c, s, rid, sid);
    case CreateCode(code) => CreateCodeChanges(c, s, rid, code);
    case BeginDelete(user) => QuietBeginDelete(s, rid, user); QuietChanges(s, StepBeginDelete(s, rid, user), rid);
    case DeleteSessions => QuietDeleteSessions(c, s, rid); QuietChanges(s, StepDeleteSessions(c, s, rid), rid);
    case DeleteUserRow => QuietDeleteUserRow(c, s, rid); QuietChanges(s, StepDeleteUserRow(c, s, rid), rid);
  }

  lemma StepChanges(c: Config, s: State, a: Action)
    requires Inv(s)
    ensures Changes(s, Step(c, s, a))
  {
    match a
    case OnToken(rid, t) => TokenChanges(c, s, rid, t);
    case OnAccount(rid, u) => AccountChanges(c, s, rid, u);
    case OnRevoke(rid, v) => QuietRevocation(c, s, rid, v); QuietChanges(s, Step(c, s, a), rid);
    case OnTx(rid, x) => QuietTx(c, s, rid, x); QuietChanges(s, Step(c, s, a), rid);
    case OnCleanup(k) => QuietCleanup(c, s, k, 0); QuietChanges(s, Step(c, s, a), 0);
  }

  // ----- a request's snapshot is current as long as its credential is not used up -----

  // The request has found its credential: it existed, and the request that made it is over.
  predicate FoundOk(s: State, f: Flow) {
    f.TokFound? || HasSnapshot(f) ==>
      match f.req.cred
      case CodeCred(k) => k in s.h.codeOf
      case TokenCred(t) =>
        && t in s.h.tokenOf && s.h.tokenOf[t].request in s.flows
        && s.flows[s.h.tokenOf[t].request].Done?
  }

  predicate Live(s: State, f: Flow)
    requires HasSnapshot(f)
  {
    f.TokAdvance? || Unused(s, f.req.cred)
  }

  predicate SnapshotCurrent(s: State, f: Flow) {
    HasSnapshot(f) && f.sid in s.sessions && Live(s, f) ==> SameRecord(f.snap, s.sessions[f.sid])
  }

  ghost predicate Current(s: State) {
    forall r :: r in s.flows ==> FoundOk(s, s.flows[r]) && SnapshotCurrent(s, s.flows[r])
  }

  // A step of another request, or one of this request that reads nothing.
  lemma FoundKept(c: Config, s: State, s': State, rid: RequestId, f: Flow)
    requires Moves(c, s, s', rid) && Changes(s, s') && FoundOk(s, f)
    ensures FoundOk(s', f)
  {
  }

  lemma FoundNew(s: State, f: Flow, f': Flow)
    requires StoresOk(s) && f.TokStart? && f'.TokFound? && f'.req == f.req && Stored(s, f.req.cred)
    ensures FoundOk(s, f')
  {
    match f.req.cred
    case CodeCred(k) =>
    case TokenCred(t) => assert TokenOk(s, t);
  }

  // What the mover carries into its next program point.
  lemma FoundCarried(s: State, f: Flow, f': Flow)
    requires Follows(f, f') && FoundOk(s, f) && !(f.TokStart? && f'.TokFound?)
    ensures FoundOk(s, f')
  {
  }

  lemma FoundStep(c: Config, s: State, a: Action, r: RequestId)
    requires Inv(s) && Current(s) && r in Step(c, s, a).flows
    ensures FoundOk(Step(c, s, a), Step(c, s, a).flows[r])
  {
    var s', rid := Step(c, s, a), Mover(a);
    StepMoves(c, s, a);
    StepChanges(c, s, a);
    if r in s.flows {
      var f, f' := s.flows[r], s'.flows[r];
      if f == f' {
      } else if f.TokStart? && f'.TokFound? {
        FoundNew(s, f, f');
      } else {
        FoundCarried(s, f, f');
      }
      FoundKept(c, s, s', rid, f');
    }
  }

  // A credential that is unused after the step was unused before it.
  lemma LiveCarried(s: State, s': State, f: Flow, f': Flow)
    requires Changes(s, s') && HasSnapshot(f) && HasSnapshot(f') && FoundOk(s, f)
    requires f'.req == f.req && (f'.TokAdvance? ==> f.TokAdvance? || Unused(s, f.req.cred))
    requires Live(s', f')
    ensures Live(s, f)
  {
  }

  // While the request's credential is live, the request or the credential holds the session's credit.
  lemma LiveHolds(s: State, r: RequestId, f: Flow) returns (x: Holder)
    requires StoresOk(s) && r in s.flows && s.flows[r] == f && FlowOk(s.h, r, f) && HasSnapshot(f) && Live(s, f)
    ensures Holds(s, x, f.sid) && (x.ByFlow? ==> x == ByFlow(r))
  {
    if f.TokAdvance? {
      x := ByFlow(r);
    } else {
      match f.req.cred
      case CodeCred(k) => x := ByCode(k);
      case TokenCred(t) => assert TokenOk(s, t); x := ByToken(t);
    }
  }

  // So no other request makes a session step.
  lemma NobodyElseAdvances(s: State, s': State, r: RequestId, f: Flow)
    requires StoresOk(s) && AtMostOneHolder(s) && r in s.flows && s.flows[r] == f && FlowOk(s.h, r, f)
    requires HasSnapshot(f) && Live(s, f) && !(r in s'.flows && s'.flows[r].TokCreate?)
    ensures !AdvancedNow(s, s', f.sid)
  {
    var x := LiveHolds(s, r, f);
    forall r0 | r0 in s.flows && s.flows[r0].TokAdvance? && s.flows[r0].sid == f.sid ensures r0 == r {
      assert Holds(s, ByFlow(r0), f.sid);
    }
  }

  // A request that has just read its session.
  lemma JustRead(c: Config, s: State, s': State, rid: RequestId, f: Flow, f': Flow)
    requires Moves(c, s, s', rid) && Changes(s, s') && rid in s.flows && s.flows[rid] == f && f.TokFound?
    requires f'.TokSnapshot? && f'.sid == f.sid && f.sid in s.h.logs && f.sid in s.sessions
    requires f'.snap == s.sessions[f.sid]
    ensures SnapshotCurrent(s', f')
  {
    forall r0 | r0 in s.flows && s.flows[r0].TokAdvance? ensures r0 in s'.flows && s'.flows[r0] == s.flows[r0] {
      assert r0 != rid;
    }
  }

  // A request that carries its snapshot on.
  lemma CarriedOn(s: State, s': State, r: RequestId, f: Flow, f': Flow)
    requires StoresOk(s) && AtMostOneHolder(s) && Changes(s, s') && r in s.flows && s.flows[r] == f && FlowOk(s.h, r, f)
    requires HasSnapshot(f) && HasSnapshot(f') && FoundOk(s, f) && SnapshotCurrent(s, f)
    requires r in s'.flows && s'.flows[r] == f' && f'.req == f.req && f'.sid == f.sid && f'.snap == f.snap
    requires f'.TokAdvance? ==> f.TokAdvance? || Unused(s, f.req.cred)
    ensures SnapshotCurrent(s', f')
  {
    if f.sid in s'.sessions && Live(s', f') {
      LiveCarried(s, s', f, f');
      NobodyElseAdvances(s, s', r, f);
    }
  }

  // Where a snapshot comes from.
  lemma SnapshotSource(h: History, rid: RequestId, f: Flow, f': Flow)
    requires Follows(f, f') && HasSnapshot(f') && FlowOk(h, rid, f)
    ensures f'.req == f.req && f'.sid == f.sid
    ensures (f.TokFound? && f'.TokSnapshot?) || (HasSnapshot(f) && f'.snap == f.snap)
    ensures f'.TokAdvance? ==> f.TokAdvance? || f.TokConsume?
  {
  }

  lemma SnapshotStep(c: Config, s: State, a: Action, r: RequestId)
    requires Inv(s) && Current(s) && r in Step(c, s, a).flows
    ensures SnapshotCurrent(Step(c, s, a), Step(c, s, a).flows[r])
  {
    var s', rid := Step(c, s, a), Mover(a);
    StepMoves(c, s, a);
    StepChanges(c, s, a);
    if r in s.flows && HasSnapshot(s'.flows[r]) {
      SnapshotMoved(c, s, s', rid, r);
    }
  }

  lemma SnapshotMoved(c: Config, s: State, s': State, rid: RequestId, r: RequestId)
    requires Inv(s) && Moves(c, s, s', rid) && Changes(s, s') && r in s.flows && r in s'.flows
    requires HasSnapshot(s'.flows[r])
    requires FoundOk(s, s.flows[r]) && SnapshotCurrent(s, s.flows[r])
    ensures SnapshotCurrent(s', s'.flows[r])
  {
    var f, f' := s.flows[r], s'.flows[r];
    assert FlowOk(s.h, r, f);
    assert Follows(f, f');
    SnapshotSource(s.h, r, f, f');
    if f.TokFound? {
      assert r == rid && Reads(s, f, f');
      JustRead(c, s, s', rid, f, f');
    } else {
      CarriedOn(s, s', r, f, f');
    }
  }

  lemma CurrentStep(c: Config, s: State, a: Action)
    requires Inv(s) && Current(s)
    ensures Current(Step(c, s, a))
  {
    var s' := Step(c, s, a);
    forall r | r in s'.flows ensures FoundOk(s', s'.flows[r]) && SnapshotCurrent(s', s'.flows[r]) {
      FoundStep(c, s, a, r);
      SnapshotStep(c, s, a, r);
    }
  }

  lemma {:induction false} CurrentRun(c: Config, s: State, acts: seq<Action>)
    requires Inv(s) && Current(s)
    ensures Current(Run(c, s, acts))
    decreases |acts|
  {
    if acts != [] {
      PreserveStep(c, s, acts[0]);
      CurrentStep(c, s, acts[0]);
      CurrentRun(c, Step(c, s, acts[0]), acts[1..]);
    }
  }

  lemma ReachableCurrent(c: Config, s: State)
    requires Reachable(c, s)
    ensures Current(s)
  {
    var users, acts :| s == Run(c, Init(users), acts);
    InitInv(users);
    CurrentRun(c, Init(users), acts);
  }

  /** Although it is read before the transaction, the session a request works
      with when it is about to make its session step is the stored one, in any
      interleaving, apart from a revocation. */
  lemma CommitSeesCurrentSession(c: Config, s: State, rid: RequestId)
    requires Reachable(c, s) && rid in s.flows && s.flows[rid].TokAdvance? && s.flows[rid].sid in s.sessions
    ensures var snap, sess := s.flows[rid].snap, s.sessions[s.flows[rid].sid];
            snap.(status := sess.status, revokedAt := sess.revokedAt) == sess
  {
    ReachableCurrent(c, s);
    assert SnapshotCurrent(s, s.flows[rid]);
  }

  // ----- a session is what its log makes of it -----

  function Later(a: Time, b: Time): Time {
    if a < b then b else a
  }

  // What one committed step adds to a session, status apart.
  function AfterGrant(c: Config, sess: Session, g: Grant): Session {
    sess.(lastJti := Some(g.jti),
          lastSeenAt := Later(sess.lastSeenAt, g.at),
          lastRefreshedAt := if g.parent.CodeCred? then sess.lastRefreshedAt
                             else Some(if sess.lastRefreshedAt.None? then g.at
                                 else Later(sess.lastRefreshedAt.value, g.at)),
          fingerprint := if c.deviceBinding && g.fingerprint != "" then g.fingerprint else sess.fingerprint)
  }

  function Folded(c: Config, born: Session, grants: seq<Grant>): Session
    decreases |grants|
  {
    if grants == [] then born else AfterGrant(c, Folded(c, born, grants[..|grants| - 1]), grants[|grants| - 1])
  }

  predicate Replays(c: Config, s: State, sid: SessionId)
    requires sid in s.sessions
  {
    && sid in s.h.logs
    && SameRecord(s.sessions[sid], Folded(c, s.h.logs[sid].born, AdvancesOf(s.h, sid)))
    && (s.sessions[sid].status.Revoked? <==> s.sessions[sid].revokedAt.Some?)
  }

  ghost predicate AllReplay(c: Config, s: State) {
    forall sid :: sid in s.sessions ==> Replays(c, s, sid)
  }

  // The mutation of a session step, whose device signals come from the snapshot.
  lemma AdvancedIsGrant(c: Config, rid: RequestId, f: Flow, sess: Session)
    requires f.TokAdvance? && SameRecord(f.snap, sess) && sess.deviceId != "" && !sess.status.Revoked?
    ensures SameRecord(Advanced(c, f, sess), AfterGrant(c, sess, GrantOf(rid, f, sess)))
    ensures Advanced(c, f, sess).revokedAt == sess.revokedAt && !Advanced(c, f, sess).status.Revoked?
  {
  }

  lemma FoldedStep(c: Config, born: Session, grants: seq<Grant>, g: Grant, sess: Session)
    requires SameRecord(sess, Folded(c, born, grants))
    ensures SameRecord(AfterGrant(c, sess, g), Folded(c, born, grants + [g]))
  {
    assert (grants + [g])[..|grants|] == grants;
  }

  // A committing session step extends log and session alike.
  lemma CommitReplays(c: Config, s: State, s': State, rid: RequestId, f: Flow, sid: SessionId)
    requires LogsOk(s) && rid in s.flows && s.flows[rid] == f && f.TokAdvance? && Alive(s, f.sid) && f.sid in s.h.logs
    requires SnapshotCurrent(s, f) && SessionOk(s.sessions[f.sid], s.h.logs[f.sid])
    requires var g := GrantOf(rid, f, s.sessions[f.sid]);
             s'.sessions == s.sessions[f.sid := Advanced(c, f, s.sessions[f.sid])] && s'.h == LogAdvance(s.h, f.sid, g)
    requires sid in s.sessions && Replays(c, s, sid)
    ensures Replays(c, s', sid)
  {
    if sid == f.sid {
      var sess, g := s.sessions[sid], GrantOf(rid, f, s.sessions[sid]);
      assert LogOk(s.h, sid, s.h.logs[sid]);
      AdvancedIsGrant(c, rid, f, sess);
      FoldedStep(c, s.h.logs[sid].born, AdvancesOf(s.h, sid), g, sess);
    }
  }

  // The session step either commits or leaves sessions and history alone.
  ghost predicate CommitsStep(c: Config, s: State, s': State, rid: RequestId) {
    && rid in s.flows && s.flows[rid].TokAdvance? && Alive(s, s.flows[rid].sid)
    && s'.sessions == s.sessions[s.flows[rid].sid := Advanced(c, s.flows[rid], s.sessions[s.flows[rid].sid])]
    && s'.h == LogAdvance(s.h, s.flows[rid].sid, GrantOf(rid, s.flows[rid], s.sessions[s.flows[rid].sid]))
  }

  lemma AdvanceShape(c: Config, s: State, rid: RequestId)
    ensures var s' := StepAdvanceSession(c, s, rid);
            (s'.sessions == s.sessions && s'.h == s.h) || CommitsStep(c, s, s', rid)
  {
  }

  lemma AdvanceReplays(c: Config, s: State, rid: RequestId, sid: SessionId)
    requires StoresOk(s) && LogsOk(s) && Current(s) && sid in s.sessions && Replays(c, s, sid)
    ensures var s' := StepAdvanceSession(c, s, rid); sid in s'.sessions && Replays(c, s', sid)
  {
    var s' := StepAdvanceSession(c, s, rid);
    AdvanceShape(c, s, rid);
    if CommitsStep(c, s, s', rid) {
      assert SnapshotCurrent(s, s.flows[rid]);
      CommitReplays(c, s, s', rid, s.flows[rid], sid);
    }
  }

  // Nothing but its session step moves a request there to the next point.
  lemma AdvancingToken(c: Config, s: State, rid: RequestId, t: TokenAction)
    requires !t.AdvanceSession? && rid in s.flows && s.flows[rid].TokAdvance?
    ensures StepToken(c, s, rid, t) == s
  {
  }

  lemma AdvancingAccount(c: Config, s: State, rid: RequestId, u: AccountAction)
    requires rid in s.flows && s.flows[rid].TokAdvance?
    ensures StepAccount(c, s, rid, u) == s
  {
  }

  lemma AdvancingRevoke(c: Config, s: State, rid: RequestId, v: RevokeAction)
    requires rid in s.flows && s.flows[rid].TokAdvance?
    ensures StepRevoke(c, s, rid, v) == s
  {
  }

  lemma AdvancingStays(c: Config, s: State, a: Action)
    requires !(a.OnToken? && a.t.AdvanceSession?) && Mover(a) in s.flows && s.flows[Mover(a)].TokAdvance?
    ensures Mover(a) in Step(c, s, a).flows && !Step(c, s, a).flows[Mover(a)].TokCreate?
  {
    match a
    case OnToken(rid, t) => AdvancingToken(c, s, rid, t);
    case OnAccount(rid, u) => AdvancingAccount(c, s, rid, u);
    case OnRevoke(rid, v) => AdvancingRevoke(c, s, rid, v);
    case OnTx(rid, x) =>
    case OnCleanup(k) =>
  }

  lemma NoAdvance(c: Config, s: State, a: Action, sid: SessionId)
    requires Inv(s) && !(a.OnToken? && a.t.AdvanceSession?) && sid in s.h.logs
    ensures !AdvancedNow(s, Step(c, s, a), sid)
    ensures AdvancesOf(Step(c, s, a).h, sid) == AdvancesOf(s.h, sid)
  {
    var s' := Step(c, s, a);
    StepMoves(c, s, a);
    StepEvolves(c, s, a, sid);
    forall r | r in s.flows && s.flows[r].TokAdvance? ensures r in s'.flows && !s'.flows[r].TokCreate? {
      if r == Mover(a) {
        AdvancingStays(c, s, a);
      }
    }
  }

  lemma KeptReplays(c: Config, s: State, s': State, sid: SessionId)
    requires sid in s.sessions && sid in s'.sessions && sid in s.h.logs && sid in s'.h.logs && Replays(c, s, sid)
    requires s'.h.logs[sid].born == s.h.logs[sid].born && AdvancesOf(s'.h, sid) == AdvancesOf(s.h, sid)
    requires SameOrRevoked(s.sessions[sid], s'.sessions[sid])
    ensures Replays(c, s', sid)
  {
  }

  lemma OtherReplays(c: Config, s: State, a: Action, sid: SessionId)
    requires Inv(s) && AllReplay(c, s) && !(a.OnToken? && a.t.AdvanceSession?) && sid in Step(c, s, a).sessions
    ensures Replays(c, Step(c, s, a), sid)
  {
    var s' := Step(c, s, a);
    StepChanges(c, s, a);
    StepEvolves(c, s, a, sid);
    if sid in s.h.logs {
      NoAdvance(c, s, a, sid);
      assert Replays(c, s, sid);
      KeptReplays(c, s, s', sid);
    } else {
      BornReplays(c, s', sid);
    }
  }

  lemma BornReplays(c: Config, s: State, sid: SessionId)
    requires BornNow(s, sid) && AdvancesOf(s.h, sid) == []
    ensures Replays(c, s, sid)
  {
  }

  lemma AllReplayStep(c: Config, s: State, a: Action)
    requires Inv(s) && Current(s) && AllReplay(c, s)
    ensures AllReplay(c, Step(c, s, a))
  {
    var s' := Step(c, s, a);
    if a.OnToken? && a.t.AdvanceSession? {
      AdvanceShape(c, s, a.rid);
      forall sid | sid in s'.sessions ensures Replays(c, s', sid) {
        assert sid in s.sessions && Replays(c, s, sid);
        AdvanceReplays(c, s, a.rid, sid);
      }
    } else {
      forall sid | sid in s'.sessions ensures Replays(c, s', sid) {
        OtherReplays(c, s, a, sid);
      }
    }
  }

  lemma {:induction false} AllReplayRun(c: Config, s: State, acts: seq<Action>)
    requires Inv(s) && Current(s) && AllReplay(c, s)
    ensures AllReplay(c, Run(c, s, acts))
    decreases |acts|
  {
    if acts != [] {
      PreserveStep(c, s, acts[0]);
      CurrentStep(c, s, acts[0]);
      AllReplayStep(c, s, acts[0]);
      AllReplayRun(c, Step(c, s, acts[0]), acts[1..]);
    }
  }

  /** In every reachable state a stored session is what its creation and its
      committed steps make of it: last token, activity and refresh times (the
      latest, as request times may come in any order) and fingerprint; and it
      has a revocation time exactly when it is revoked. */
  lemma SessionIsReplayOfLog(c: Config, s: State, sid: SessionId)
    requires Reachable(c, s) && sid in s.sessions
    ensures sid in s.h.logs
    ensures var sess := s.sessions[sid];
            && sess == Folded(c, s.h.logs[sid].born, AdvancesOf(s.h, sid)).(status := sess.status,
                revokedAt := sess.revokedAt)
            && (sess.status.Revoked? <==> sess.revokedAt.Some?)
  {
    var users, acts :| s == Run(c, Init(users), acts);
    InitInv(users);
    AllReplayRun(c, Init(users), acts);
    assert Replays(c, s, sid);
  }
}
