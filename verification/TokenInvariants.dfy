/** What every step of the token protocol keeps. None of this uses the mutex:
    the atomicity of single store calls is enough. */
module TokenInvariants {
  import opened Common
  import opened AuthModels
  import opened TokenProtocol

  // ----- sessions, logs and grants -----

  function LastJti(grants: seq<Grant>): Option<Jti> {
    if grants == [] then None else Some(grants[|grants| - 1].jti)
  }

  predicate SessionOk(sess: Session, log: Log) {
    && SameIdentity(sess, log.born)
    && (sess.status.PendingConsent? ==> log.advances == [])
    && (sess.status.Active? ==> log.advances != [])
    && sess.lastJti == LastJti(log.advances)
  }

  predicate ClaimsMatch(claims: Claims, sid: SessionId, sess: Session) {
    && claims.session == sid
    && claims.user == sess.user
    && claims.client == sess.client
    && claims.tenant == sess.tenant
    && claims.scopes == sess.scopes
  }

  // The k-th session step of a session: the first spends the authorization
  // code, each later one the refresh token of the step before it.
  predicate GrantOk(h: History, sid: SessionId, log: Log, k: nat)
    requires k < |log.advances|
  {
    var g := log.advances[k];
    && g.session == sid
    && ClaimsMatch(g.claims, sid, log.born)
    && g.scope == log.born.scopes
    && (g.activated <==> k == 0)
    && (k == 0 ==> g.parent.CodeCred? && CredentialOf(h, g.parent, sid))
    && (k > 0 ==> g.parent == TokenCred(log.advances[k - 1].token))
    && MintedBy(h, g.request, sid, g.token, g.jti)
    && (forall j :: 0 <= j < k ==> log.advances[j].request != g.request)
  }

  predicate CredentialOf(h: History, cred: Credential, sid: SessionId) {
    match cred
    case CodeCred(k) => k in h.codeOf && h.codeOf[k] == sid
    case TokenCred(t) => t in h.tokenOf && h.tokenOf[t].session == sid
  }

  predicate MintedBy(h: History, rid: RequestId, sid: SessionId, token: TokenId, jti: Jti) {
    && token in h.tokenOf && h.tokenOf[token] == Minted(sid, rid)
    && jti in h.jtiOf && h.jtiOf[jti] == rid
  }

  predicate LogOk(h: History, sid: SessionId, log: Log) {
    && log.born.deviceId != ""
    && log.born.scopes != []
    && ScopesAllowed(log.born.scopes, log.allowedScopes)
    && (forall k :: 0 <= k < |log.advances| ==> GrantOk(h, sid, log, k))
    && log.responses <= log.advances
    && |log.advances| <= |log.responses| + 1
  }

  // ----- requests in flight -----

  predicate ArtifactsOk(h: History, rid: RequestId, sid: SessionId, snap: Session, ctx: TokenContext, art: Artifacts) {
    && MintedBy(h, rid, sid, art.token, art.jti)
    && ClaimsMatch(art.claims, sid, snap)
    && art.record.session == sid
    && !art.record.used
    && ctx.client == snap.client
    && ctx.tenant == snap.tenant
  }

  predicate SnapshotOk(h: History, req: TokenRequest, sid: SessionId, snap: Session) {
    && sid in h.logs
    && CredentialOf(h, req.cred, sid)
    && SameIdentity(snap, h.logs[sid].born)
  }

  // The token a revocation will list is the session's last one at the time it was read.
  predicate TargetOk(h: History, t: Target) {
    && t.session in h.logs
    && (!t.origin.Given? ==> var adv := h.logs[t.session].advances;
                        t.seen <= |adv| && t.jti == LastJti(adv[..t.seen]))
  }

  predicate TargetsOk(h: History, todo: seq<Target>) {
    forall i :: 0 <= i < |todo| ==> TargetOk(h, todo[i]) && !todo[i].origin.ReadAtRevoke?
  }

  predicate FlowOk(h: History, rid: RequestId, f: Flow) {
    match f
    case TokStart(_) => true
    case TokFound(req, sid) => sid in h.logs && CredentialOf(h, req.cred, sid)
    case TokSnapshot(req, sid, snap) => SnapshotOk(h, req, sid, snap)
    case TokReady(req, sid, snap, ctx, art) => SnapshotOk(h, req, sid, snap) && ArtifactsOk(h, rid, sid, snap, ctx, art)
    case TokConsume(req, sid, snap, ctx, art) =>
      SnapshotOk(h, req, sid, snap) && ArtifactsOk(h, rid, sid, snap, ctx, art)
    case TokReplay(req, sid) => sid in h.logs && CredentialOf(h, req.cred, sid)
    case TokAdvance(req, sid, snap, ctx, art) =>
      SnapshotOk(h, req, sid, snap) && ArtifactsOk(h, rid, sid, snap, ctx, art)
    case TokCreate(req, sid, g, record) =>
      && sid in h.logs
      && MintedBy(h, rid, sid, g.token, g.jti)
      && record.session == sid && !record.used
    case AuthReady(p) => ScopesAllowed(p.scopes, p.allowedScopes) && p.deviceId != ""
    case AuthUser(p) => ScopesAllowed(p.scopes, p.allowedScopes) && p.deviceId != ""
    case AuthSession(p, _) => ScopesAllowed(p.scopes, p.allowedScopes) && p.deviceId != ""
    case AuthCode(_, sid) => sid in h.logs
    case RevFound(sid, _) => sid in h.logs
    case RevNext(todo, _) => TargetsOk(h, todo)
    case RevTrl(t, todo, _) => TargetOk(h, t) && TargetsOk(h, todo)
    case RevDelete(_, todo, _) => TargetsOk(h, todo)
    case _ => true
  }

  // ----- credit: who may still lead to the session's next response -----

  datatype Holder = ByCode(code: CodeId) | ByToken(token: TokenId) | ByFlow(rid: RequestId)

  predicate Carries(f: Flow) {
    f.AuthCode? || f.TokAdvance? || f.TokCreate?
  }

  predicate Holds(s: State, x: Holder, sid: SessionId) {
    match x
    case ByCode(k) => k in s.codes && s.codes[k].session == sid && !s.codes[k].used
    case ByToken(t) => t in s.tokens && s.tokens[t].session == sid && !s.tokens[t].used
    case ByFlow(r) => r in s.flows && Carries(s.flows[r]) && s.flows[r].sid == sid
  }

  // How a holder relates to the session's log.
  predicate TailOk(s: State, x: Holder, sid: SessionId) {
    var adv, resp := AdvancesOf(s.h, sid), ResponsesOf(s.h, sid);
    match x
    case ByCode(_) => adv == []
    case ByToken(t) => adv != [] && adv == resp && adv[|adv| - 1].token == t
    case ByFlow(r) =>
      r in s.flows &&
      (match s.flows[r]
       case AuthCode(_, _) => adv == []
       case TokAdvance(req, _, _, _, _) =>
         (match req.cred
          case CodeCred(_) => adv == []
          case TokenCred(t) => adv != [] && adv == resp && adv[|adv| - 1].token == t)
       case TokCreate(_, _, g, _) => adv == resp + [g]
       case _ => true)
  }

  // ----- the invariant -----

  predicate StoresOk(s: State) {
    && (forall sid :: sid in s.sessions ==> sid in s.h.logs && SessionOk(s.sessions[sid], s.h.logs[sid]))
    && (forall k :: k in s.codes ==> k in s.h.codeOf && s.h.codeOf[k] == s.codes[k].session)
    && (forall k :: k in s.h.codeOf ==> s.h.codeOf[k] in s.h.logs)
    && (forall t :: t in s.tokens ==> TokenOk(s, t))
    && (forall t :: t in s.h.tokenOf ==> s.h.tokenOf[t].session in s.h.logs && s.h.tokenOf[t].request in s.flows)
  }

  // A stored refresh token was minted by a request that is over, for a session that has advanced.
  predicate TokenOk(s: State, t: TokenId)
    requires t in s.tokens
  {
    && t in s.h.tokenOf
    && s.h.tokenOf[t].session == s.tokens[t].session
    && AdvancesOf(s.h, s.tokens[t].session) != []
    && s.h.tokenOf[t].request in s.flows
    && s.flows[s.h.tokenOf[t].request].Done?
  }

  predicate LogsOk(s: State) {
    forall sid :: sid in s.h.logs ==> LogOk(s.h, sid, s.h.logs[sid])
  }

  predicate FlowsOk(s: State) {
    forall r :: r in s.flows ==> FlowOk(s.h, r, s.flows[r])
  }

  // A request makes at most one session step, and then only stores its refresh token.
  predicate StepOver(s: State, g: Grant) {
    && g.request in s.flows
    && (s.flows[g.request].Done? || (s.flows[g.request].TokCreate? && s.flows[g.request].grant == g))
  }

  predicate RequestsOk(s: State) {
    forall sid, k :: sid in s.h.logs && 0 <= k < |s.h.logs[sid].advances| ==> StepOver(s, s.h.logs[sid].advances[k])
  }

  ghost predicate AtMostOneHolder(s: State) {
    forall x, y, sid :: Holds(s, x, sid) && Holds(s, y, sid) ==> x == y
  }

  ghost predicate TailsOk(s: State) {
    forall x, sid :: Holds(s, x, sid) ==> sid in s.h.logs && TailOk(s, x, sid)
  }

  ghost predicate Inv(s: State) {
    StoresOk(s) && LogsOk(s) && FlowsOk(s) && RequestsOk(s) && AtMostOneHolder(s) && TailsOk(s)
  }

  // ----- history only grows -----

  ghost predicate Grows(h: History, h': History) {
    && (forall sid :: sid in h.logs ==> sid in h'.logs && LogGrows(h.logs[sid], h'.logs[sid]))
    && (forall k :: k in h.codeOf ==> k in h'.codeOf && h'.codeOf[k] == h.codeOf[k])
    && (forall t :: t in h.tokenOf ==> t in h'.tokenOf && h'.tokenOf[t] == h.tokenOf[t])
    && (forall j :: j in h.jtiOf ==> j in h'.jtiOf && h'.jtiOf[j] == h.jtiOf[j])
  }

  predicate LogGrows(a: Log, b: Log) {
    && a.born == b.born
    && a.allowedScopes == b.allowedScopes
    && a.advances <= b.advances
    && a.responses <= b.responses
  }

  lemma FlowOkGrows(h: History, h': History, rid: RequestId, f: Flow)
    requires Grows(h, h') && FlowOk(h, rid, f)
    ensures FlowOk(h', rid, f)
  {
    forall t: Target | TargetOk(h, t) ensures TargetOk(h', t) {
      var adv, adv' := h.logs[t.session].advances, h'.logs[t.session].advances;
      if !t.origin.Given? {
        assert adv'[..t.seen] == adv[..t.seen];
      }
    }
  }

  lemma GrantOkGrows(h: History, h': History, sid: SessionId, log: Log, k: nat)
    requires Grows(h, h') && k < |log.advances| && GrantOk(h, sid, log, k)
    ensures GrantOk(h', sid, log, k)
  {
  }

  // ----- steps that mint nothing and log nothing -----

  ghost predicate SubMap<K, V>(m: map<K, V>, m': map<K, V>) {
    forall k :: k in m ==> k in m' && m[k] == m'[k]
  }

  ghost predicate SameOrRevoked(a: Session, b: Session) {
    b == a || (b.status.Revoked? && b.revokedAt.Some? && b == a.(status := b.status, revokedAt := b.revokedAt))
  }

  // Sessions may be removed or revoked, codes and tokens removed, and one
  // request moves to a program point that holds no credit.
  ghost predicate Quiet(s: State, s': State, rid: RequestId) {
    && s'.h == s.h
    && (forall sid :: sid in s'.sessions ==> sid in s.sessions && SameOrRevoked(s.sessions[sid], s'.sessions[sid]))
    && SubMap(s'.codes, s.codes)
    && SubMap(s'.tokens, s.tokens)
    && (s'.flows == s.flows ||
        (rid in s'.flows && s'.flows == s.flows[rid := s'.flows[rid]] && QuietFlow(s, rid, s'.flows[rid])))
  }

  predicate QuietFlow(s: State, rid: RequestId, f: Flow) {
    && !Carries(f)
    && FlowOk(s.h, rid, f)
    && (rid in s.flows && (s.flows[rid].Done? || s.flows[rid].TokCreate?) ==> f.Done?)
  }

  lemma QuietHolds(s: State, s': State, rid: RequestId, x: Holder, sid: SessionId)
    requires Quiet(s, s', rid) && Holds(s', x, sid)
    ensures Holds(s, x, sid)
    ensures TailOk(s, x, sid) ==> TailOk(s', x, sid)
  {
  }

  lemma QuietStores(s: State, s': State, rid: RequestId)
    requires StoresOk(s) && Quiet(s, s', rid)
    ensures StoresOk(s')
  {
    forall t | t in s'.tokens ensures TokenOk(s', t) {
      assert TokenOk(s, t);
    }
  }

  lemma QuietRequests(s: State, s': State, rid: RequestId)
    requires RequestsOk(s) && Quiet(s, s', rid)
    ensures RequestsOk(s')
  {
    forall sid, k | sid in s.h.logs && 0 <= k < |s.h.logs[sid].advances|
      ensures StepOver(s', s.h.logs[sid].advances[k])
    {
      assert StepOver(s, s.h.logs[sid].advances[k]);
    }
  }

  lemma QuietPreserves(s: State, s': State, rid: RequestId)
    requires Inv(s) && Quiet(s, s', rid)
    ensures Inv(s')
  {
    QuietStores(s, s', rid);
    QuietRequests(s, s', rid);
    forall x, sid | Holds(s', x, sid) ensures Holds(s, x, sid) && sid in s'.h.logs && TailOk(s', x, sid) {
      QuietHolds(s, s', rid, x, sid);
    }
    assert FlowsOk(s');
  }
}
