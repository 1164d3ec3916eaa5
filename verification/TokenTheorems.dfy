/** What the token protocol guarantees over whole runs, in any interleaving and
    without the mutex. */
module TokenTheorems {
  import opened Common
  import opened AuthModels
  import opened TokenProtocol
  import opened TokenInvariants
  import opened TokenSteps
  import opened TokenControl

  // ----- credit -----

  function UnusedCodes(s: State, sid: SessionId): set<CodeId> {
    set k | k in s.codes && s.codes[k].session == sid && !s.codes[k].used
  }

  function UnusedTokens(s: State, sid: SessionId): set<TokenId> {
    set t | t in s.tokens && s.tokens[t].session == sid && !s.tokens[t].used
  }

  // Requests that have consumed a credential of the session and not yet stored the next refresh token.
  function InFlight(s: State, sid: SessionId): set<RequestId> {
    set r | r in s.flows && (s.flows[r].TokAdvance? || s.flows[r].TokCreate?) && s.flows[r].sid == sid
  }

  lemma AtMostOneElement<T>(xs: set<T>)
    requires forall x, y :: x in xs && y in xs ==> x == y
    ensures |xs| <= 1
  {
    if xs != {} {
      var x :| x in xs;
      assert xs == {x};
    }
  }

  lemma HoldersBound(s: State, sid: SessionId)
    requires AtMostOneHolder(s)
    ensures |UnusedCodes(s, sid)| + |InFlight(s, sid)| + |UnusedTokens(s, sid)| <= 1
  {
    var codes, flows, tokens := UnusedCodes(s, sid), InFlight(s, sid), UnusedTokens(s, sid);
    forall k | k in codes ensures Holds(s, ByCode(k), sid) {}
    forall r | r in flows ensures Holds(s, ByFlow(r), sid) {}
    forall t | t in tokens ensures Holds(s, ByToken(t), sid) {}
    AtMostOneElement(codes);
    AtMostOneElement(flows);
    AtMostOneElement(tokens);
  }

  /** A session never has more than one way left to its next token response. */
  lemma CreditBound(c: Config, s: State, sid: SessionId)
    requires Reachable(c, s)
    ensures |UnusedCodes(s, sid)| + |InFlight(s, sid)| + |UnusedTokens(s, sid)| <= 1
  {
    ReachableInv(c, s);
    HoldersBound(s, sid);
  }

  // ----- how one step changes one session -----

  ghost predicate Evolves(s: State, s': State, sid: SessionId) {
    if sid !in s.h.logs then AdvancesOf(s'.h, sid) == [] else
      && sid in s'.h.logs
      && s'.h.logs[sid].born == s.h.logs[sid].born
      && (sid in s'.sessions ==> sid in s.sessions)
      && (sid in s'.sessions && s'.sessions[sid].status != s.sessions[sid].status ==>
            s.sessions[sid].status.CanTransitionTo(s'.sessions[sid].status))
      && (AdvancesOf(s'.h, sid) != AdvancesOf(s.h, sid) ==>
            Alive(s, sid) && exists r :: Commits(s, s', r, sid))
      && (ResponsesOf(s'.h, sid) != ResponsesOf(s.h, sid) ==> Pending(s, sid))
  }

  // Request r makes its session step.
  predicate Commits(s: State, s': State, r: RequestId, sid: SessionId) {
    && r in s.flows && s.flows[r].TokAdvance?
    && r in s'.flows && s'.flows[r].TokCreate? && s'.flows[r].sid == sid
    && AdvancesOf(s'.h, sid) == AdvancesOf(s.h, sid) + [s'.flows[r].grant]
  }

  // Some request has passed its session step and only has to store its refresh token.
  ghost predicate Pending(s: State, sid: SessionId) {
    exists r :: r in s.flows && s.flows[r].TokCreate? && s.flows[r].sid == sid
  }

  lemma QuietEvolves(s: State, s': State, rid: RequestId, sid: SessionId)
    requires Quiet(s, s', rid)
    ensures Evolves(s, s', sid)
  {
  }

  // A step that keeps the session store and every session's advances.
  lemma UntouchedEvolves(s: State, s': State, sid: SessionId)
    requires s'.sessions == s.sessions
    requires if sid in s.h.logs then sid in s'.h.logs && s'.h.logs[sid] == s.h.logs[sid] else sid !in s'.h.logs
    ensures Evolves(s, s', sid)
  {
  }

  // The committing branch of the session step.
  lemma CommitEvolves(c: Config, s: State, s': State, rid: RequestId, f: Flow, g: Grant, sid: SessionId)
    requires rid in s.flows && s.flows[rid] == f && f.TokAdvance? && Alive(s, f.sid)
    requires s'.flows == s.flows[rid := TokCreate(f.req, f.sid, g, f.art.record)]
    requires s'.sessions == s.sessions[f.sid := Advanced(c, f, s.sessions[f.sid])]
    requires s'.h == LogAdvance(s.h, f.sid, g)
    ensures Evolves(s, s', sid)
  {
    if sid in s.h.logs && sid == f.sid {
      assert Commits(s, s', rid, sid);
    }
  }

  lemma AdvanceEvolves(c: Config, s: State, rid: RequestId, sid: SessionId)
    ensures Evolves(s, StepAdvanceSession(c, s, rid), sid)
  {
    var s' := StepAdvanceSession(c, s, rid);
    if s' == s || s' == Goto(s, rid, Done) {
      UntouchedEvolves(s, s', sid);
    } else {
      var f := s.flows[rid];
      CommitEvolves(c, s, s', rid, f, GrantOf(rid, f, s.sessions[f.sid]), sid);
    }
  }

  lemma StoreSessionEvolves(c: Config, s: State, rid: RequestId, made: SessionId, sid: SessionId)
    ensures Evolves(s, StoreSession(c, s, rid, made), sid)
  {
  }

  lemma CreateSessionEvolves(c: Config, s: State, rid: RequestId, made: SessionId, sid: SessionId)
    ensures Evolves(s, StepCreateSession(c, s, rid, made), sid)
  {
    UntouchedEvolves(s, StepFail(s, rid), sid);
    StoreSessionEvolves(c, s, rid, made, sid);
  }

  lemma CreateCodeEvolves(c: Config, s: State, rid: RequestId, code: CodeId, sid: SessionId)
    ensures Evolves(s, StepCreateCode(c, s, rid, code), sid)
  {
    UntouchedEvolves(s, StepFail(s, rid), sid);
    UntouchedEvolves(s, StoreCode(s, rid, code), sid);
  }

  lemma ConsumeEvolves(s: State, rid: RequestId, sid: SessionId)
    ensures Evolves(s, StepConsume(s, rid), sid)
  {
    UntouchedEvolves(s, StepConsume(s, rid), sid);
  }

  lemma StoreTokenEvolves(s: State, rid: RequestId, sid: SessionId)
    ensures Evolves(s, StoreToken(s, rid), sid)
  {
  }

  lemma CreateTokenEvolves(c: Config, s: State, rid: RequestId, sid: SessionId)
    ensures Evolves(s, StepCreateToken(c, s, rid), sid)
  {
    UntouchedEvolves(s, StepFail(s, rid), sid);
    StoreTokenEvolves(s, rid, sid);
  }

  lemma PrepareEvolves(c: Config, s: State, rid: RequestId, ctx: TokenContext, active: bool, token: TokenId, jti: Jti,
                       sid: SessionId)
    ensures Evolves(s, StepPrepare(c, s, rid, ctx, active, token, jti), sid)
  {
    UntouchedEvolves(s, StepPrepare(c, s, rid, ctx, active, token, jti), sid);
  }

  lemma TokenEvolves(c: Config, s: State, rid: RequestId, t: TokenAction, sid: SessionId)
    ensures Evolves(s, StepToken(c, s, rid, t), sid)
  {
    match t
    case BeginToken(req) => UntouchedEvolves(s, Begin(s, rid, TokStart(req)), sid);
    case FindCredential => UntouchedEvolves(s, StepFindCredential(s, rid), sid);
    case FindSession => UntouchedEvolves(s, StepFindSession(s, rid), sid);
    case Prepare(ctx, active, token, jti) => PrepareEvolves(c, s, rid, ctx, active, token, jti, sid);
    case Consume => ConsumeEvolves(s, rid, sid);
    case ReplayRevoke => QuietReplayRevoke(s, rid); QuietEvolves(s, StepReplayRevoke(s, rid), rid, sid);
    case AdvanceSession => AdvanceEvolves(c, s, rid, sid);
    case CreateToken => CreateTokenEvolves(c, s, rid, sid);
  }

  lemma FindOrCreateUserEvolves(s: State, rid: RequestId, pick: UserId, sid: SessionId)
    ensures Evolves(s, StepFindOrCreateUser(s, rid, pick), sid)
  {
    UntouchedEvolves(s, StepFindOrCreateUser(s, rid, pick), sid);
  }

  lemma AccountEvolves(c: Config, s: State, rid: RequestId, u: AccountAction, sid: SessionId)
    ensures Evolves(s, StepAccount(c, s, rid, u), sid)
  {
    match u
    case BeginAuthorize(p) => UntouchedEvolves(s, StepBeginAuthorize(s, rid, p), sid);
    case FindOrCreateUser(pick) => FindOrCreateUserEvolves(s, rid, pick, sid);
    case CreateSession(i) => CreateSessionEvolves(c, s, rid, i, sid);
    case CreateCode(code) => CreateCodeEvolves(c, s, rid, code, sid);
    case BeginDelete(user) => UntouchedEvolves(s, StepBeginDelete(s, rid, user), sid);
    case DeleteSessions => QuietDeleteSessions(c, s, rid); QuietEvolves(s, StepDeleteSessions(c, s, rid), rid, sid);
    case DeleteUserRow => QuietDeleteUserRow(c, s, rid); QuietEvolves(s, StepDeleteUserRow(c, s, rid), rid, sid);
  }

  lemma StepEvolves(c: Config, s: State, a: Action, sid: SessionId)
    requires Inv(s)
    ensures Evolves(s, Step(c, s, a), sid)
  {
    match a
    case OnToken(rid, t) => TokenEvolves(c, s, rid, t, sid);
    case OnAccount(rid, u) => AccountEvolves(c, s, rid, u, sid);
    case OnRevoke(rid, v) => QuietRevocation(c, s, rid, v); QuietEvolves(s, Step(c, s, a), rid, sid);
    case OnTx(rid, x) => QuietTx(c, s, rid, x); QuietEvolves(s, Step(c, s, a), rid, sid);
    case OnCleanup(k) => QuietCleanup(c, s, k, 0); QuietEvolves(s, Step(c, s, a), 0, sid);
  }

  // ----- revocation is final -----

  // The session was created and is by now revoked or gone.
  predicate Over(s: State, sid: SessionId) {
    sid in s.h.logs && (sid in s.sessions ==> s.sessions[sid].status.Revoked?)
  }

  lemma {:induction false} OverRun(c: Config, s: State, acts: seq<Action>, sid: SessionId)
    requires Inv(s) && Over(s, sid)
    ensures Over(Run(c, s, acts), sid)
    ensures AdvancesOf(Run(c, s, acts).h, sid) == AdvancesOf(s.h, sid)
    decreases |acts|
  {
    if acts != [] {
      PreserveStep(c, s, acts[0]);
      StepEvolves(c, s, acts[0], sid);
      OverRun(c, Step(c, s, acts[0]), acts[1..], sid);
    }
  }

  /** Once a session is revoked or gone it stays so: no request ever passes its
      session step again, and every response still to come was committed before,
      also when a refresh token stored late survives the revocation. */
  lemma RevocationIsFinal(c: Config, s: State, acts: seq<Action>, sid: SessionId)
    requires Reachable(c, s) && Over(s, sid)
    ensures Over(Run(c, s, acts), sid)
    ensures AdvancesOf(Run(c, s, acts).h, sid) == AdvancesOf(s.h, sid)
    ensures ResponsesOf(Run(c, s, acts).h, sid) <= AdvancesOf(s.h, sid)
  {
    ReachableInv(c, s);
    OverRun(c, s, acts, sid);
    PreserveRun(c, s, acts);
    var s' := Run(c, s, acts);
    assert LogOk(s'.h, sid, s'.h.logs[sid]);
  }

  function Rank(st: Status): nat {
    match st
    case PendingConsent => 0
    case Active => 1
    case Revoked => 2
  }

  /** The status of a session only moves pending, active, revoked, and a session that is gone never returns. */
  lemma {:induction false} StatusRun(c: Config, s: State, acts: seq<Action>, sid: SessionId)
    requires Inv(s) && sid in s.h.logs
    ensures sid in Run(c, s, acts).sessions ==>
              sid in s.sessions && Rank(s.sessions[sid].status) <= Rank(Run(c, s, acts).sessions[sid].status)
    decreases |acts|
  {
    if acts != [] {
      PreserveStep(c, s, acts[0]);
      StepEvolves(c, s, acts[0], sid);
      StatusRun(c, Step(c, s, acts[0]), acts[1..], sid);
    }
  }

  lemma StatusNeverGoesBack(c: Config, s: State, acts: seq<Action>, sid: SessionId)
    requires Reachable(c, s) && sid in s.h.logs
    ensures sid in Run(c, s, acts).sessions ==>
              sid in s.sessions && Rank(s.sessions[sid].status) <= Rank(Run(c, s, acts).sessions[sid].status)
  {
    ReachableInv(c, s);
    StatusRun(c, s, acts, sid);
  }

  lemma SilentStep(c: Config, s: State, s': State, rid: RequestId, sid: SessionId)
    requires Moves(c, s, s', rid) && Over(s, sid) && !Pending(s, sid)
    ensures !Pending(s', sid)
  {
  }

  // A session that is over, with no request about to answer for it, is answered for no more.
  lemma {:induction false} SilentRun(c: Config, s: State, acts: seq<Action>, sid: SessionId)
    requires Inv(s) && Over(s, sid) && !Pending(s, sid)
    ensures ResponsesOf(Run(c, s, acts).h, sid) == ResponsesOf(s.h, sid)
    decreases |acts|
  {
    if acts != [] {
      var s' := Step(c, s, acts[0]);
      PreserveStep(c, s, acts[0]);
      StepEvolves(c, s, acts[0], sid);
      StepMoves(c, s, acts[0]);
      SilentStep(c, s, s', Mover(acts[0]), sid);
      SilentRun(c, s', acts[1..], sid);
    }
  }

  // ----- replay -----

  // A code presented with its own redirect URI, or a refresh token, that is used and not expired.
  predicate Replayed(s: State, req: TokenRequest) {
    match req.cred
    case CodeCred(k) =>
      && k in s.codes && s.codes[k].used && s.codes[k].redirectUri == req.redirectUri
      && req.now <= s.codes[k].expiresAt
    case TokenCred(t) => t in s.tokens && s.tokens[t].used && req.now <= s.tokens[t].expiresAt
  }

  lemma ReplayedCode(s: State, rid: RequestId, f: Flow, k: CodeId)
    requires f.TokConsume? && f.req.cred == CodeCred(k) && (k in s.codes ==> s.codes[k].session == f.sid)
    ensures var s' := StepConsumeCode(s, rid, f, k);
            if Replayed(s, f.req) then s' == Goto(s, rid, TokReplay(f.req, f.sid)) else !s'.flows[rid].TokReplay?
  {
  }

  lemma ReplayedToken(s: State, rid: RequestId, f: Flow, t: TokenId)
    requires f.TokConsume? && f.req.cred == TokenCred(t) && (t in s.tokens ==> s.tokens[t].session == f.sid)
    ensures var s' := StepConsumeRefresh(s, rid, f, t);
            if Replayed(s, f.req) then s' == Goto(s, rid, TokReplay(f.req, f.sid)) else !s'.flows[rid].TokReplay?
  {
  }

  // The credential the request presents, where it is stored, belongs to the request's session.
  predicate OwnCredential(s: State, f: Flow)
    requires f.TokConsume?
  {
    match f.req.cred
    case CodeCred(k) => k in s.codes ==> s.codes[k].session == f.sid
    case TokenCred(t) => t in s.tokens ==> s.tokens[t].session == f.sid
  }

  lemma ReachableOwnCredential(c: Config, s: State, rid: RequestId)
    requires Reachable(c, s) && rid in s.flows && s.flows[rid].TokConsume?
    ensures OwnCredential(s, s.flows[rid])
  {
    ReachableInv(c, s);
    SessionOfCredential(s, rid);
  }

  lemma ReplayBranch(s: State, rid: RequestId, f: Flow)
    requires rid in s.flows && s.flows[rid] == f && f.TokConsume? && OwnCredential(s, f)
    ensures var s' := StepConsume(s, rid);
            && rid in s'.flows
            && if Replayed(s, f.req) then s' == Goto(s, rid, TokReplay(f.req, f.sid)) else !s'.flows[rid].TokReplay?
  {
    match f.req.cred
    case CodeCred(k) => ReplayedCode(s, rid, f, k);
    case TokenCred(t) => ReplayedToken(s, rid, f, t);
  }

  /** The consume step takes the replay branch exactly on replayed credentials,
      for the session they belong to, and then changes no store. */
  lemma ReplayDetected(c: Config, s: State, rid: RequestId)
    requires Reachable(c, s) && rid in s.flows && s.flows[rid].TokConsume?
    ensures var f, s' := s.flows[rid], StepConsume(s, rid);
            && rid in s'.flows
            && if Replayed(s, f.req) then s' == Goto(s, rid, TokReplay(f.req, f.sid)) else !s'.flows[rid].TokReplay?
  {
    ReachableOwnCredential(c, s, rid);
    ReplayBranch(s, rid, s.flows[rid]);
  }

  // A request waiting for its replay step keeps waiting, for the same session, until it stops.
  predicate AwaitsReplay(s: State, rid: RequestId, sid: SessionId) {
    rid in s.flows && (s.flows[rid].Done? || (s.flows[rid].TokReplay? && s.flows[rid].sid == sid))
  }

  lemma {:induction false} ReplayPending(c: Config, s: State, acts: seq<Action>, rid: RequestId, sid: SessionId)
    requires AwaitsReplay(s, rid, sid)
    ensures AwaitsReplay(Run(c, s, acts), rid, sid)
    decreases |acts|
  {
    if acts != [] {
      StepMoves(c, s, acts[0]);
      ReplayPending(c, Step(c, s, acts[0]), acts[1..], rid, sid);
    }
  }

  // The revoking write of a replay.
  lemma ReplayRevokes(c: Config, s: State, rid: RequestId, sid: SessionId)
    requires Inv(s) && Exclusive(c, s) && rid in s.flows && s.flows[rid].TokReplay? && s.flows[rid].sid == sid
    ensures var s' := StepReplayRevoke(s, rid);
            Inv(s') && Over(s', sid) && s'.h == s.h && (c.mutex ==> !Pending(s', sid))
  {
    assert FlowOk(s.h, rid, s.flows[rid]);
    QuietReplayRevoke(s, rid);
    QuietPreserves(s, StepReplayRevoke(s, rid), rid);
    assert Inside(s, rid);
    if Pending(s, sid) {
      var r :| r in s.flows && s.flows[r].TokCreate? && s.flows[r].sid == sid;
      assert Inside(s, r);
    }
  }

  /** Containment: once a replayed credential reaches its consume step and the
      revoking write goes through, the session is over for good and no credential
      of it passes a session step again. With the mutex it is not answered for
      again either. Between the two steps, and after them, anything may happen. */
  lemma ReplayContained(c: Config, s: State, rid: RequestId, s1: State, between: seq<Action>, after: seq<Action>)
    requires Reachable(c, s) && rid in s.flows && s.flows[rid].TokConsume? && Replayed(s, s.flows[rid].req)
    requires s1 == Run(c, StepConsume(s, rid), between) && rid in s1.flows && !s1.flows[rid].Done?
    ensures var s2, sid := StepReplayRevoke(s1, rid), s.flows[rid].sid;
            && Over(Run(c, s2, after), sid)
            && AdvancesOf(Run(c, s2, after).h, sid) == AdvancesOf(s1.h, sid)
            && (c.mutex ==> ResponsesOf(Run(c, s2, after).h, sid) == ResponsesOf(s1.h, sid))
  {
    var sid, s0 := s.flows[rid].sid, StepConsume(s, rid);
    ReachableInv(c, s);
    ReachableExclusive(c, s);
    ReplayDetected(c, s, rid);
    PreserveConsume(s, rid);
    ExclusiveStep(c, s, OnToken(rid, Consume));
    ReplayPending(c, s0, between, rid, sid);
    PreserveRun(c, s0, between);
    ExclusiveRun(c, s0, between);
    ReplayRevokes(c, s1, rid, sid);
    OverRun(c, StepReplayRevoke(s1, rid), after, sid);
    if c.mutex {
      SilentRun(c, StepReplayRevoke(s1, rid), after, sid);
    }
  }

  lemma ReachableExclusive(c: Config, s: State)
    requires Reachable(c, s)
    ensures Exclusive(c, s)
  {
    var users, acts :| s == Run(c, Init(users), acts);
    ExclusiveRun(c, Init(users), acts);
  }

  lemma {:induction false} RunSnoc(c: Config, s: State, acts: seq<Action>, a: Action)
    ensures Run(c, s, acts + [a]) == Step(c, Run(c, s, acts), a)
    decreases |acts|
  {
    if acts == [] {
      assert Run(c, Step(c, s, a), []) == Step(c, s, a);
    } else {
      assert (acts + [a])[1..] == acts[1..] + [a];
      RunSnoc(c, Step(c, s, acts[0]), acts[1..], a);
    }
  }

  lemma ReachableStep(c: Config, s: State, a: Action)
    requires Reachable(c, s)
    ensures Reachable(c, Step(c, s, a))
  {
    var users, acts :| s == Run(c, Init(users), acts);
    RunSnoc(c, Init(users), acts, a);
  }
}
