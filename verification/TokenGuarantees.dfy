/** What token responses promise: they come from the session they name, they
    form one chain, and revocation lists the right access token. */
module TokenGuarantees {
  import opened Common
  import opened AuthModels
  import opened TokenProtocol
  import opened TokenInvariants
  import opened TokenSteps
  import opened TokenControl
  import opened TokenTheorems

  // ----- stale reads are harmless -----

  predicate HasSnapshot(f: Flow) {
    f.TokSnapshot? || f.TokReady? || f.TokConsume? || f.TokAdvance?
  }

  predicate HasArtifacts(f: Flow) {
    f.TokReady? || f.TokConsume? || f.TokAdvance?
  }

  /** A session read before the transaction agrees with the stored session on
      everything tokens are made from, however long ago it was read; so tokens
      generated from it describe the session they will be committed to, and
      writing the resolved tenant into it changes nothing. */
  lemma SnapshotsAgree(c: Config, s: State, rid: RequestId)
    requires Reachable(c, s) && rid in s.flows && HasSnapshot(s.flows[rid])
    ensures var f := s.flows[rid];
            && (f.sid in s.sessions ==> SameIdentity(f.snap, s.sessions[f.sid]))
            && (HasArtifacts(f) ==>
                  ClaimsMatch(f.art.claims, f.sid, f.snap) && f.snap.(tenant := f.ctx.tenant) == f.snap)
  {
    ReachableInv(c, s);
    assert FlowOk(s.h, rid, s.flows[rid]);
  }

  /** Every committed step of a session, however long its refresh chain, carries
      the identity and exactly the scopes the session was authorized with. */
  lemma TokensMatchSession(c: Config, s: State, sid: SessionId, k: nat)
    requires Reachable(c, s) && sid in s.h.logs && k < |AdvancesOf(s.h, sid)|
    ensures var g, log := AdvancesOf(s.h, sid)[k], s.h.logs[sid];
            && ClaimsMatch(g.claims, sid, log.born)
            && g.scope == log.born.scopes
            && ScopesAllowed(g.scope, log.allowedScopes)
            && (sid in s.sessions ==> ClaimsMatch(g.claims, sid, s.sessions[sid]))
  {
    ReachableInv(c, s);
    assert LogOk(s.h, sid, s.h.logs[sid]);
    assert GrantOk(s.h, sid, s.h.logs[sid], k);
  }

  // ----- one chain of responses per session -----

  /** The responses of a session form one chain: the first spends its
      authorization code, each later one the refresh token of the one before. */
  lemma ResponsesFormChain(c: Config, s: State, sid: SessionId, k: nat)
    requires Reachable(c, s) && k < |ResponsesOf(s.h, sid)|
    ensures var rs := ResponsesOf(s.h, sid);
            && (k == 0 ==> rs[0].parent.CodeCred? && CredentialOf(s.h, rs[0].parent, sid))
            && (k > 0 ==> rs[k].parent == TokenCred(rs[k - 1].token))
  {
    ReachableInv(c, s);
    var log := s.h.logs[sid];
    assert LogOk(s.h, sid, log);
    assert GrantOk(s.h, sid, log, k);
  }

  lemma DistinctTokens(h: History, sid: SessionId, log: Log, i: nat, j: nat)
    requires LogOk(h, sid, log) && i < j < |log.advances|
    ensures log.advances[i].token != log.advances[j].token && log.advances[i].jti != log.advances[j].jti
  {
    assert GrantOk(h, sid, log, i) && GrantOk(h, sid, log, j);
  }

  lemma DistinctParentsInSession(h: History, sid: SessionId, log: Log, i: nat, j: nat)
    requires LogOk(h, sid, log) && i < j < |log.advances|
    ensures log.advances[i].parent != log.advances[j].parent
  {
    assert GrantOk(h, sid, log, i) && GrantOk(h, sid, log, j);
    if i > 0 {
      DistinctTokens(h, sid, log, i - 1, j - 1);
    }
  }

  lemma ParentOfSession(h: History, sid: SessionId, log: Log, i: nat)
    requires LogOk(h, sid, log) && i < |log.advances|
    ensures CredentialOf(h, log.advances[i].parent, sid)
  {
    assert GrantOk(h, sid, log, i);
    if i > 0 {
      assert GrantOk(h, sid, log, i - 1);
    }
  }

  /** No code and no refresh token is ever the parent of two session steps, in
      one session or in two. */
  lemma CredentialsSpentOnce(c: Config, s: State, sid: SessionId, i: nat, sid': SessionId, j: nat)
    requires Reachable(c, s) && sid in s.h.logs && sid' in s.h.logs
    requires i < |AdvancesOf(s.h, sid)| && j < |AdvancesOf(s.h, sid')|
    requires AdvancesOf(s.h, sid)[i].parent == AdvancesOf(s.h, sid')[j].parent
    ensures sid == sid' && i == j
  {
    ReachableInv(c, s);
    ParentOfSession(s.h, sid, s.h.logs[sid], i);
    ParentOfSession(s.h, sid', s.h.logs[sid'], j);
    if i < j {
      DistinctParentsInSession(s.h, sid, s.h.logs[sid], i, j);
    } else if j < i {
      DistinctParentsInSession(s.h, sid, s.h.logs[sid], j, i);
    }
  }

  // ----- activation -----

  // Request rid commits its session step now.
  predicate Committing(c: Config, s: State, rid: RequestId) {
    && rid in s.flows && s.flows[rid].TokAdvance?
    && var s' := StepAdvanceSession(c, s, rid); rid in s'.flows && s'.flows[rid].TokCreate?
  }

  lemma CommittedStatus(c: Config, s: State, rid: RequestId)
    requires Committing(c, s, rid)
    ensures var f, s' := s.flows[rid], StepAdvanceSession(c, s, rid);
            && f.sid in s.sessions && s.sessions[f.sid].CanAdvance(f.req.cred.CodeCred?)
            && f.sid in s'.sessions && s'.sessions[f.sid].status.Active?
            && s'.flows[rid].grant.activated == (f.req.cred.CodeCred? && s.sessions[f.sid].status.PendingConsent?)
  {
  }

  /** An exchange's session step never meets an active session: it activates a
      pending one, and that step is the session's first. A refresh meets an
      active session. */
  lemma ExchangeActivates(c: Config, s: State, rid: RequestId)
    requires Reachable(c, s) && Committing(c, s, rid)
    ensures var f, s' := s.flows[rid], StepAdvanceSession(c, s, rid);
            && f.sid in s.sessions && f.sid in s'.sessions && s'.sessions[f.sid].status.Active?
            && s'.flows[rid].grant.activated == f.req.cred.CodeCred?
            && (if f.req.cred.CodeCred? then s.sessions[f.sid].status.PendingConsent? && AdvancesOf(s.h, f.sid) == []
                else s.sessions[f.sid].status.Active?)
  {
    CommittedStatus(c, s, rid);
    ReachableInv(c, s);
    AdvanceMeets(s, rid);
  }

  /** A session is activated by its first step and by no other. */
  lemma ActivatedOnce(c: Config, s: State, sid: SessionId, k: nat)
    requires Reachable(c, s) && k < |AdvancesOf(s.h, sid)|
    ensures AdvancesOf(s.h, sid)[k].activated <==> k == 0
  {
    ReachableInv(c, s);
    assert LogOk(s.h, sid, s.h.logs[sid]);
    assert GrantOk(s.h, sid, s.h.logs[sid], k);
  }

  /** The session of a stored refresh token is never pending. */
  lemma RefreshTokenSessionNotPending(c: Config, s: State, t: TokenId)
    requires Reachable(c, s) && t in s.tokens && s.tokens[t].session in s.sessions
    ensures !s.sessions[s.tokens[t].session].status.PendingConsent?
  {
    ReachableInv(c, s);
    assert TokenOk(s, t);
  }

  // ----- the token a revocation lists -----

  // A request about to write the revocation list has revoked the session of
  // its target; read at the revocation, the target's token is the session's last.
  predicate ListingOk(s: State, f: Flow) {
    f.RevTrl? ==>
      && Over(s, f.target.session)
      && (f.target.origin.ReadAtRevoke? ==> f.target.seen == |AdvancesOf(s.h, f.target.session)|)
  }

  ghost predicate ListingsOk(s: State) {
    forall r :: r in s.flows ==> ListingOk(s, s.flows[r])
  }

  lemma ListingKept(s: State, s': State, f: Flow)
    requires ListingOk(s, f) && f.RevTrl? && Evolves(s, s', f.target.session)
    ensures ListingOk(s', f)
  {
  }

  lemma ListingNew(c: Config, s: State, s': State, rid: RequestId, f: Flow, f': Flow)
    requires Moves(c, s, s', rid) && rid in s.flows && s.flows[rid] == f && rid in s'.flows && s'.flows[rid] == f'
    requires f'.RevTrl? && !f.RevTrl? && FlowOk(s.h, rid, f)
    requires f'.target.session in s.sessions ==> f'.target.session in s.h.logs
    ensures ListingOk(s', f')
  {
    assert s'.flows != s.flows;
    assert RevokesTarget(s, s', f'.target);
    if f.RevNext? {
      assert !f.todo[0].origin.ReadAtRevoke?;
    }
  }

  // A flow that is not the mover's, or was already at this point, is unchanged.
  lemma SameListing(c: Config, s: State, s': State, rid: RequestId, r: RequestId)
    requires Moves(c, s, s', rid) && r in s'.flows && s'.flows[r].RevTrl?
    requires r in s.flows ==> r != rid || s.flows[r].RevTrl?
    ensures r in s.flows && s.flows[r] == s'.flows[r]
  {
  }

  lemma ListingsStep(c: Config, s: State, a: Action)
    requires Inv(s) && ListingsOk(s)
    ensures ListingsOk(Step(c, s, a))
  {
    var s', rid := Step(c, s, a), Mover(a);
    StepMoves(c, s, a);
    forall r | r in s'.flows ensures ListingOk(s', s'.flows[r]) {
      if s'.flows[r].RevTrl? {
        if r in s.flows && r == rid && !s.flows[r].RevTrl? {
          ListingNew(c, s, s', rid, s.flows[r], s'.flows[r]);
        } else {
          SameListing(c, s, s', rid, r);
          StepEvolves(c, s, a, s.flows[r].target.session);
          ListingKept(s, s', s.flows[r]);
        }
      }
    }
  }

  lemma {:induction false} ListingsRun(c: Config, s: State, acts: seq<Action>)
    requires Inv(s) && ListingsOk(s)
    ensures ListingsOk(Run(c, s, acts))
    decreases |acts|
  {
    if acts != [] {
      PreserveStep(c, s, acts[0]);
      ListingsStep(c, s, acts[0]);
      ListingsRun(c, Step(c, s, acts[0]), acts[1..]);
    }
  }

  // Both tokens live for the configured times from the request that made them.
  predicate ExpiryOk(c: Config, f: Flow) {
    && (HasArtifacts(f) ==>
          && f.art.claims.expiresAt == f.req.now + c.tokenTtl
          && LivesFrom(f.art.record, f.req.now, c.refreshTtl))
    && (f.TokCreate? ==>
          && f.grant.claims.expiresAt == f.grant.at + c.tokenTtl
          && LivesFrom(f.record, f.grant.at, c.refreshTtl))
  }

  predicate LivesFrom(t: RefreshToken, at: Time, ttl: int) {
    t.createdAt == at && t.expiresAt == at + ttl && t.lastRefreshedAt.None?
  }

  ghost predicate ExpiriesOk(c: Config, s: State) {
    && (forall r :: r in s.flows ==> ExpiryOk(c, s.flows[r]))
    && (forall sid, k :: sid in s.h.logs && 0 <= k < |AdvancesOf(s.h, sid)| ==>
          AdvancesOf(s.h, sid)[k].claims.expiresAt == AdvancesOf(s.h, sid)[k].at + c.tokenTtl)
  }

  lemma ExpiryFlows(c: Config, s: State, s': State, rid: RequestId)
    requires Moves(c, s, s', rid) && forall r :: r in s.flows ==> ExpiryOk(c, s.flows[r])
    ensures forall r :: r in s'.flows ==> ExpiryOk(c, s'.flows[r])
  {
    if rid in s.flows && rid in s'.flows {
      assert ExpiryOk(c, s.flows[rid]);
    }
  }

  lemma ExpiryLog(c: Config, s: State, s': State, sid: SessionId)
    requires ExpiriesOk(c, s) && Evolves(s, s', sid) && sid in s.h.logs
    requires forall r :: r in s'.flows ==> ExpiryOk(c, s'.flows[r])
    ensures forall k :: 0 <= k < |AdvancesOf(s'.h, sid)| ==>
              AdvancesOf(s'.h, sid)[k].claims.expiresAt == AdvancesOf(s'.h, sid)[k].at + c.tokenTtl
  {
    if AdvancesOf(s'.h, sid) != AdvancesOf(s.h, sid) {
      var r :| Commits(s, s', r, sid);
      assert ExpiryOk(c, s'.flows[r]);
    }
  }

  lemma ExpiriesStep(c: Config, s: State, a: Action)
    requires Inv(s) && ExpiriesOk(c, s)
    ensures ExpiriesOk(c, Step(c, s, a))
  {
    var s' := Step(c, s, a);
    StepMoves(c, s, a);
    ExpiryFlows(c, s, s', Mover(a));
    forall sid, k | sid in s'.h.logs && 0 <= k < |AdvancesOf(s'.h, sid)|
      ensures AdvancesOf(s'.h, sid)[k].claims.expiresAt == AdvancesOf(s'.h, sid)[k].at + c.tokenTtl
    {
      StepEvolves(c, s, a, sid);
      if sid in s.h.logs {
        ExpiryLog(c, s, s', sid);
      }
    }
  }

  lemma {:induction false} ExpiriesRun(c: Config, s: State, acts: seq<Action>)
    requires Inv(s) && ExpiriesOk(c, s)
    ensures ExpiriesOk(c, Run(c, s, acts))
    decreases |acts|
  {
    if acts != [] {
      PreserveStep(c, s, acts[0]);
      ExpiriesStep(c, s, acts[0]);
      ExpiriesRun(c, Step(c, s, acts[0]), acts[1..]);
    }
  }

  lemma ReachableListings(c: Config, s: State)
    requires Reachable(c, s)
    ensures Inv(s) && ListingsOk(s) && ExpiriesOk(c, s)
  {
    var users, acts :| s == Run(c, Init(users), acts);
    InitInv(users);
    PreserveRun(c, Init(users), acts);
    ListingsRun(c, Init(users), acts);
    ExpiriesRun(c, Init(users), acts);
  }

  // The target of RevokeSession names the session's last token.
  lemma TargetIsLast(s: State, rid: RequestId, f: Flow)
    requires FlowOk(s.h, rid, f) && ListingOk(s, f) && f.RevTrl? && f.target.origin.ReadAtRevoke?
    ensures f.target.jti == LastJti(AdvancesOf(s.h, f.target.session))
  {
    var adv := AdvancesOf(s.h, f.target.session);
    assert adv[..|adv|] == adv;
  }

  lemma ListedForGood(c: Config, s: State, rid: RequestId, clock: Time, after: seq<Action>, sid: SessionId)
    requires Inv(s) && Over(s, sid)
    ensures AdvancesOf(Run(c, StepWriteTrl(c, s, rid, clock, true), after).h, sid) == AdvancesOf(s.h, sid)
  {
    var s' := StepWriteTrl(c, s, rid, clock, true);
    QuietWriteTrl(c, s, rid, clock, true);
    QuietPreserves(s, s', rid);
    QuietEvolves(s, s', rid, sid);
    OverRun(c, s', after, sid);
  }

  /** RevokeSession lists the access token of the session's last committed step,
      in any interleaving, no later step can add another, and the entry outlives
      the token unless the list's clock is behind the request that issued it. */
  lemma RevokeSessionListsLastToken(c: Config, s: State, rid: RequestId, clock: Time, after: seq<Action>)
    requires Reachable(c, s) && rid in s.flows && s.flows[rid].RevTrl? && s.flows[rid].target.origin.ReadAtRevoke?
    requires AdvancesOf(s.h, s.flows[rid].target.session) != []
    ensures var s', adv := StepWriteTrl(c, s, rid, clock, true), AdvancesOf(s.h, s.flows[rid].target.session);
            var last := adv[|adv| - 1];
            && last.jti in s'.trl
            && (s'.trl[last.jti] >= last.claims.expiresAt <==> clock >= last.at)
            && AdvancesOf(Run(c, s', after).h, s.flows[rid].target.session) == adv
  {
    ReachableListings(c, s);
    var f := s.flows[rid];
    assert ListingOk(s, f);
    TargetIsLast(s, rid, f);
    ListedForGood(c, s, rid, clock, after, f.target.session);
  }

  /** A revocation that read the session beforehand (logout of all sessions, or a
      refresh token handed in) lists the last access token exactly when no session
      step was committed between that read and the revocation. */
  lemma StaleListing(c: Config, s: State, rid: RequestId)
    requires Reachable(c, s) && rid in s.flows && s.flows[rid].RevTrl? && s.flows[rid].target.origin.ReadBefore?
    ensures var t := s.flows[rid].target;
            var adv := AdvancesOf(s.h, t.session);
            t.seen <= |adv| && (t.jti == LastJti(adv) <==> t.seen == |adv|)
  {
    ReachableInv(c, s);
    var t := s.flows[rid].target;
    assert FlowOk(s.h, rid, s.flows[rid]);
    var log := s.h.logs[t.session];
    assert LogOk(s.h, t.session, log);
    assert log.advances[..|log.advances|] == log.advances;
    if 0 < t.seen < |log.advances| {
      DistinctTokens(s.h, t.session, log, t.seen - 1, |log.advances| - 1);
    }
  }

  lemma SessionLogged(c: Config, s: State, sid: SessionId)
    requires Reachable(c, s) && sid in s.sessions
    ensures sid in s.h.logs
  {
    ReachableInv(c, s);
  }

  lemma ReachableThrice(c: Config, s: State, a1: Action, a2: Action, a3: Action)
    requires Reachable(c, s)
    ensures Reachable(c, Step(c, Step(c, Step(c, s, a1), a2), a3))
  {
    ReachableStep(c, s, a1);
    ReachableStep(c, Step(c, s, a1), a2);
    ReachableStep(c, Step(c, Step(c, s, a1), a2), a3);
  }

  // What the interleaving below leaves behind.
  lemma Overtaken(c: Config, s: State, rid: RequestId, out: RequestId, order: seq<SessionId>, now: Time, f: Flow)
    requires rid in s.flows && s.flows[rid] == f && f.TokAdvance? && out !in s.flows
    requires f.sid in s.sessions && f.sid in s.h.logs && order != [] && order[0] == f.sid
    requires Lists(s, s.sessions[f.sid].user, None, order)
    requires s.sessions[f.sid].ValidateForAdvance(f.ctx.client, f.req.now, f.req.cred.CodeCred?).None?
    ensures var s1 := StepBeginLogoutAll(s, out, s.sessions[f.sid].user, None, order, now);
            var s2 := StepAdvanceSession(c, s1, rid);
            && out in s2.flows && s2.flows[out].RevNext? && s2.flows[out].todo != []
            && s2.flows[out].todo[0] == SnapshotTarget(s, f.sid, ReadBefore)
            && Alive(s2, f.sid) && |AdvancesOf(s2.h, f.sid)| == |AdvancesOf(s.h, f.sid)| + 1
  {
    var s1 := StepBeginLogoutAll(s, out, s.sessions[f.sid].user, None, order, now);
    assert s1.flows[rid] == f && s1.sessions == s.sessions && s1.h == s.h;
    assert s1.flows[out].todo[0] == SnapshotTarget(s, f.sid, ReadBefore);
  }

  lemma TakesFirst(s: State, out: RequestId)
    requires out in s.flows && s.flows[out].RevNext? && s.flows[out].todo != []
    requires Alive(s, s.flows[out].todo[0].session)
    ensures var s' := StepRevokeTarget(s, out, true);
            out in s'.flows && s'.flows[out].RevTrl? && s'.flows[out].target == s.flows[out].todo[0] && s'.h == s.h
  {
  }

  /** The other side of StaleListing does happen: a logout of all sessions that
      lists a session just before a token request commits its step on it, and
      revokes it just after, lists an access token that is not the last. */
  lemma LogoutOvertaken(c: Config, s: State, rid: RequestId, out: RequestId, order: seq<SessionId>, now: Time)
    requires Reachable(c, s) && rid in s.flows && s.flows[rid].TokAdvance? && out !in s.flows
    requires s.flows[rid].sid in s.sessions && order != [] && order[0] == s.flows[rid].sid
    requires Lists(s, s.sessions[order[0]].user, None, order)
    requires s.sessions[order[0]].ValidateForAdvance(s.flows[rid].ctx.client, s.flows[rid].req.now,
               s.flows[rid].req.cred.CodeCred?).None?
    ensures var s1 := StepBeginLogoutAll(s, out, s.sessions[order[0]].user, None, order, now);
            var s3 := StepRevokeTarget(StepAdvanceSession(c, s1, rid), out, true);
            && out in s3.flows && s3.flows[out].RevTrl? && s3.flows[out].target.session == order[0]
            && s3.flows[out].target.jti != LastJti(AdvancesOf(s3.h, order[0]))
  {
    var begin := BeginLogoutAll(s.sessions[order[0]].user, None, order, now);
    var s1 := StepRevoke(c, s, out, begin);
    var s2 := StepToken(c, s1, rid, AdvanceSession);
    SessionLogged(c, s, order[0]);
    Overtaken(c, s, rid, out, order, now, s.flows[rid]);
    TakesFirst(s2, out);
    ReachableThrice(c, s, OnRevoke(out, begin), OnToken(rid, AdvanceSession), OnRevoke(out, RevokeTarget(true)));
    StaleListing(c, StepRevoke(c, s2, out, RevokeTarget(true)), out);
  }

  // ----- a refresh token stored after its session was revoked -----

  // The refresh token of a session's last step is no step's parent.
  lemma LastTokenUnspent(s: State, sid: SessionId, sid': SessionId, k: nat)
    requires LogsOk(s) && sid in s.h.logs && sid' in s.h.logs
    requires AdvancesOf(s.h, sid) != [] && k < |AdvancesOf(s.h, sid')|
    ensures var adv := AdvancesOf(s.h, sid);
            AdvancesOf(s.h, sid')[k].parent != TokenCred(adv[|adv| - 1].token)
  {
    var log, log' := s.h.logs[sid], s.h.logs[sid'];
    ParentOfSession(s.h, sid', log', k);
    assert GrantOk(s.h, sid', log', k) && GrantOk(s.h, sid, log, |log.advances| - 1);
    if sid == sid' && k > 0 {
      DistinctTokens(s.h, sid, log, k - 1, |log.advances| - 1);
    }
  }

  lemma PendingGrantIsLast(s: State, rid: RequestId, f: Flow)
    requires TailsOk(s) && rid in s.flows && s.flows[rid] == f && f.TokCreate?
    ensures var adv := AdvancesOf(s.h, f.sid);
            f.sid in s.h.logs && adv != [] && adv[|adv| - 1] == f.grant
  {
    assert Holds(s, ByFlow(rid), f.sid);
    assert TailOk(s, ByFlow(rid), f.sid);
  }

  lemma StoresLateToken(c: Config, s: State, rid: RequestId, f: Flow)
    requires rid in s.flows && s.flows[rid] == f && f.TokCreate? && f.record.session == f.sid && !f.record.used
    requires f.grant.token !in s.tokens
    ensures var s1 := StepCreateToken(c, s, rid);
            && (f.grant.token in s1.tokens <==> f.sid in s.sessions || !c.foreignKeys)
            && (f.grant.token in s1.tokens ==> s1.tokens[f.grant.token] == f.record)
            && AdvancesOf(s1.h, f.sid) == AdvancesOf(s.h, f.sid) && (Over(s, f.sid) ==> Over(s1, f.sid))
  {
  }

  lemma UnspentForGood(c: Config, s: State, after: seq<Action>, sid: SessionId, sid': SessionId, k: nat)
    requires Inv(s) && Over(s, sid) && AdvancesOf(s.h, sid) != [] && k < |AdvancesOf(Run(c, s, after).h, sid')|
    ensures var adv := AdvancesOf(s.h, sid);
            AdvancesOf(Run(c, s, after).h, sid')[k].parent != TokenCred(adv[|adv| - 1].token)
  {
    OverRun(c, s, after, sid);
    PreserveRun(c, s, after);
    LastTokenUnspent(Run(c, s, after), sid, sid', k);
  }

  // A refresh token is stored only once, by the request that made it.
  lemma NotYetStored(s: State, rid: RequestId, f: Flow)
    requires StoresOk(s) && rid in s.flows && s.flows[rid] == f && f.TokCreate? && FlowOk(s.h, rid, f)
    ensures f.grant.token !in s.tokens
  {
    assert f.grant.token in s.tokens ==> TokenOk(s, f.grant.token);
  }

  lemma CreatedInv(c: Config, s: State, rid: RequestId)
    requires Reachable(c, s)
    ensures Inv(StepCreateToken(c, s, rid))
  {
    ReachableInv(c, s);
    PreserveCreate(c, s, rid);
  }

  lemma StoresOrRefuses(c: Config, s: State, rid: RequestId)
    requires Reachable(c, s) && rid in s.flows && s.flows[rid].TokCreate? && Over(s, s.flows[rid].sid)
    ensures var f, s1 := s.flows[rid], StepCreateToken(c, s, rid);
            var adv := AdvancesOf(s1.h, f.sid);
            && Over(s1, f.sid) && adv != [] && adv[|adv| - 1].token == f.grant.token
            && (f.grant.token in s1.tokens <==> f.sid in s.sessions || !c.foreignKeys)
            && (f.grant.token in s1.tokens ==>
                  !s1.tokens[f.grant.token].used && s1.tokens[f.grant.token].session == f.sid)
  {
    ReachableInv(c, s);
    assert FlowOk(s.h, rid, s.flows[rid]);
    PendingGrantIsLast(s, rid, s.flows[rid]);
    NotYetStored(s, rid, s.flows[rid]);
    StoresLateToken(c, s, rid, s.flows[rid]);
  }

  /** A request that passed its session step before the session was revoked or
      removed still stores its refresh token after it, unused, even when the
      revocation has deleted the session's tokens; it is refused exactly when the
      stores enforce foreign keys and the session is gone. Either way no session
      step ever spends that token. */
  lemma LateTokenIsDead(c: Config, s: State, rid: RequestId, after: seq<Action>, sid': SessionId, k: nat)
    requires Reachable(c, s) && rid in s.flows && s.flows[rid].TokCreate? && Over(s, s.flows[rid].sid)
    requires k < |AdvancesOf(Run(c, StepCreateToken(c, s, rid), after).h, sid')|
    ensures var s1, t, sid := StepCreateToken(c, s, rid), s.flows[rid].grant.token, s.flows[rid].sid;
            && (t in s1.tokens <==> sid in s.sessions || !c.foreignKeys)
            && (t in s1.tokens ==> !s1.tokens[t].used && s1.tokens[t].session == sid)
            && AdvancesOf(Run(c, s1, after).h, sid')[k].parent != TokenCred(t)
  {
    StoresOrRefuses(c, s, rid);
    CreatedInv(c, s, rid);
    UnspentForGood(c, StepCreateToken(c, s, rid), after, s.flows[rid].sid, sid', k);
  }
}
