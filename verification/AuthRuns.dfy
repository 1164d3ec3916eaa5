/** Runs of the step machine put together from single steps, and what the calls
    of the auth service come to in terms of them. */
module AuthRuns {
  import opened Common
  import opened AuthModels
  import opened TokenProtocol
  import opened TokenInvariants
  import opened TokenSteps
  import opened TokenTheorems

  // ----- runs put together -----

  lemma {:induction false} RunAppend(c: Config, s: State, a: seq<Action>, b: seq<Action>)
    ensures Run(c, s, a + b) == Run(c, Run(c, s, a), b)
    decreases |a|
  {
    if a == [] {
      assert a + b == b;
    } else {
      assert (a + b)[1..] == a[1..] + b;
      RunAppend(c, Step(c, s, a[0]), a[1..], b);
    }
  }

  lemma ReachableRun(c: Config, s: State, acts: seq<Action>)
    requires Reachable(c, s)
    ensures Reachable(c, Run(c, s, acts))
  {
    var users, before :| s == Run(c, Init(users), before);
    RunAppend(c, Init(users), before, acts);
  }

  lemma RunOne(c: Config, s: State, a: Action)
    ensures Run(c, s, [a]) == Step(c, s, a)
  {
    assert [a][1..] == [];
  }

  // Some sequence of steps leads from one state to the other.
  ghost predicate Reaches(c: Config, s: State, s': State) {
    exists acts :: s' == Run(c, s, acts)
  }

  lemma ReachesSelf(c: Config, s: State)
    ensures Reaches(c, s, s)
  {
    assert s == Run(c, s, []);
  }

  lemma ReachesTrans(c: Config, s: State, s1: State, s2: State)
    requires Reaches(c, s, s1) && Reaches(c, s1, s2)
    ensures Reaches(c, s, s2)
  {
    var a :| s1 == Run(c, s, a);
    var b :| s2 == Run(c, s1, b);
    RunAppend(c, s, a, b);
  }

  lemma ReachesReachable(c: Config, s: State, s': State)
    requires Reachable(c, s) && Reaches(c, s, s')
    ensures Reachable(c, s')
  {
    var acts :| s' == Run(c, s, acts);
    ReachableRun(c, s, acts);
  }

  lemma TokenReaches(c: Config, s: State, rid: RequestId, t: TokenAction)
    ensures Reaches(c, s, StepToken(c, s, rid, t))
  {
    RunOne(c, s, OnToken(rid, t));
  }

  lemma AccountReaches(c: Config, s: State, rid: RequestId, u: AccountAction)
    ensures Reaches(c, s, StepAccount(c, s, rid, u))
  {
    RunOne(c, s, OnAccount(rid, u));
  }

  lemma RevokeReaches(c: Config, s: State, rid: RequestId, v: RevokeAction)
    ensures Reaches(c, s, StepRevoke(c, s, rid, v))
  {
    RunOne(c, s, OnRevoke(rid, v));
  }

  lemma TxReaches(c: Config, s: State, rid: RequestId, x: TxAction)
    ensures Reaches(c, s, StepTx(c, s, rid, x))
  {
    RunOne(c, s, OnTx(rid, x));
  }

  // ----- the service -----

  datatype TokenResult = TokenResult(token: TokenId, jti: Jti, claims: Claims, scope: seq<string>)

  function ResultOf(g: Grant): TokenResult {
    TokenResult(g.token, g.jti, g.claims, g.scope)
  }

  // What a request has read and generated before its transaction.
  datatype Prepared = Prepared(sid: SessionId, snap: Session, art: Artifacts)

  // Which of the writes of a token request succeed.
  datatype TokenWorld = TokenWorld(consumes: bool, revokes: bool, advances: bool, stores: bool)

  // How a token request ends: refused before any write; stopped as a replay;
  // with the credential used up but no session step; with the session step but
  // no refresh token and no answer; or answered.
  datatype Course =
    | NoEffect
    | Replay(sid: SessionId)
    | Burnt(sid: SessionId)
    | Unanswered(sid: SessionId)
    | Answered(sid: SessionId)

  function CredentialSession(s: State, cred: Credential): Option<SessionId> {
    match cred
    case CodeCred(k) => if k in s.codes then Some(s.codes[k].session) else None
    case TokenCred(t) => if t in s.tokens then Some(s.tokens[t].session) else None
  }

  function ConsumeCheck(s: State, req: TokenRequest): Option<ConsumeError>
    requires CredentialSession(s, req.cred).Some?
  {
    match req.cred
    case CodeCred(k) => s.codes[k].ValidateForConsume(req.redirectUri, req.now)
    case TokenCred(t) => s.tokens[t].ValidateForConsume(req.now)
  }

  // Credential and session are stored, and client, tenant, user and client state are accepted.
  predicate Prepares(c: Config, s: State, req: TokenRequest, ctx: TokenContext, active: bool) {
    var sid := CredentialSession(s, req.cred);
    sid.Some? && sid.value in s.sessions && ContextAccepted(c, s, s.sessions[sid.value], ctx, active)
  }

  // The course of a request that meets no other request, told from the state before it.
  function CourseOf(c: Config, s: State, req: TokenRequest, ctx: TokenContext, active: bool, w: TokenWorld): Course {
    if !Prepares(c, s, req, ctx, active) || !w.consumes then NoEffect
    else
      var sid := CredentialSession(s, req.cred).value;
      match ConsumeCheck(s, req)
      case Some(err) => if err.AlreadyUsed? then Replay(sid) else NoEffect
      case None =>
        if s.sessions[sid].ValidateForAdvance(ctx.client, req.now, req.cred.CodeCred?).Some? || !w.advances
            then Burnt(sid)
        else if !w.stores then Unanswered(sid)
        else Answered(sid)
  }

  function SpentCodes(codes: map<CodeId, AuthorizationCode>, cred: Credential): map<CodeId, AuthorizationCode> {
    if cred.CodeCred? && cred.code in codes then codes[cred.code := codes[cred.code].MarkUsed()] else codes
  }

  function SpentTokens(tokens: map<TokenId, RefreshToken>, cred: Credential, now: Time): map<TokenId, RefreshToken> {
    if cred.TokenCred? && cred.token in tokens then tokens[cred.token := tokens[cred.token].MarkUsed(now)] else tokens
  }

  // The session step of the request, on the session it read.
  function StepOf(c: Config, req: TokenRequest, sid: SessionId, sess: Session, ctx: TokenContext, token: TokenId,
                  jti: Jti): Flow {
    TokAdvance(req, sid, sess, ctx, Generate(c, req, sid, sess, token, jti))
  }

  // What the request leaves behind and answers, for each course.
  predicate Served(c: Config, s: State, s': State, rid: RequestId, req: TokenRequest, ctx: TokenContext, token: TokenId,
                   jti: Jti, w: TokenWorld, course: Course, r: Option<TokenResult>)
  {
    && s'.users == s.users && s'.trl == s.trl
    && (match course
        case NoEffect =>
          r.None? && s'.sessions == s.sessions && s'.codes == s.codes && s'.tokens == s.tokens && s'.h.logs == s.h.logs
        case Replay(sid) =>
          && r.None? && s'.codes == s.codes && s'.tokens == s.tokens && s'.h.logs == s.h.logs
          && s'.sessions == if w.revokes then RevokeIfActive(s.sessions, sid, req.now) else s.sessions
        case Burnt(sid) =>
          && r.None? && s'.sessions == s.sessions && s'.h.logs == s.h.logs
          && s'.codes == SpentCodes(s.codes, req.cred) && s'.tokens == SpentTokens(s.tokens, req.cred, req.now)
        case Unanswered(sid) =>
          && r.None? && sid in s.sessions && sid in s.h.logs
          && s'.codes == SpentCodes(s.codes, req.cred) && s'.tokens == SpentTokens(s.tokens, req.cred, req.now)
          && var f := StepOf(c, req, sid, s.sessions[sid], ctx, token, jti);
             && s'.sessions == s.sessions[sid := Advanced(c, f, s.sessions[sid])]
             && s'.h.logs == LogAdvance(s.h, sid, GrantOf(rid, f, s.sessions[sid])).logs
        case Answered(sid) =>
          && sid in s.sessions && sid in s.h.logs
          && var f := StepOf(c, req, sid, s.sessions[sid], ctx, token, jti);
             var g := GrantOf(rid, f, s.sessions[sid]);
             && r == Some(ResultOf(g))
             && s'.codes == SpentCodes(s.codes, req.cred)
             && s'.tokens == SpentTokens(s.tokens, req.cred, req.now)[token := f.art.record]
             && s'.sessions == s.sessions[sid := Advanced(c, f, s.sessions[sid])]
             && s'.h.logs == LogResponse(LogAdvance(s.h, sid, g), sid, g).logs)
  }

  // The same, told from what consuming the credential came to.
  predicate Finished(c: Config, s: State, s': State, rid: RequestId, req: TokenRequest, ctx: TokenContext,
                     sid: SessionId, token: TokenId, jti: Jti, w: TokenWorld, r: Option<TokenResult>)
    requires sid in s.sessions
  {
    var f := StepOf(c, req, sid, s.sessions[sid], ctx, token, jti);
    var g := GrantOf(rid, f, s.sessions[sid]);
    && s'.users == s.users && s'.trl == s.trl
    && (if !w.consumes || ConsumptionOf(s, req).Refused? then
          r.None? && s'.sessions == s.sessions && s'.codes == s.codes && s'.tokens == s.tokens && s'.h.logs == s.h.logs
        else if ConsumptionOf(s, req).Replayed? then
          && r.None? && s'.codes == s.codes && s'.tokens == s.tokens && s'.h.logs == s.h.logs
          && s'.sessions == if w.revokes then RevokeIfActive(s.sessions, sid, req.now) else s.sessions
        else
          && s'.codes == SpentCodes(s.codes, req.cred)
          && (if !(Advances(s.sessions, req, sid, ctx) && w.advances) then
                && r.None? && s'.sessions == s.sessions && s'.h.logs == s.h.logs
                && s'.tokens == SpentTokens(s.tokens, req.cred, req.now)
              else
                && s'.sessions == s.sessions[sid := Advanced(c, f, s.sessions[sid])]
                && (if w.stores then
                      && r == Some(ResultOf(g)) && s'.tokens ==
                          SpentTokens(s.tokens, req.cred, req.now)[token := f.art.record]
                      && s'.h.logs == LogResponse(LogAdvance(s.h, sid, g), sid, g).logs
                    else
                      && r.None? && s'.tokens == SpentTokens(s.tokens, req.cred, req.now)
                      && s'.h.logs == LogAdvance(s.h, sid, g).logs)))
  }

  // What follows the consume step f leads to: nothing, a revocation, or the session step and its refresh token.
  predicate Ends(c: Config, s: State, s': State, rid: RequestId, req: TokenRequest, sid: SessionId, f: Flow,
                 w: TokenWorld, res: Consumption, r: Option<TokenResult>)
    requires f.TokAdvance?
  {
    match res
    case Refused => r.None? && s'.h == s.h && s'.sessions == s.sessions && s'.tokens == s.tokens
    case Replayed(session) =>
      && r.None? && s'.h == s.h && s'.tokens == s.tokens
      && s'.sessions == if w.revokes then RevokeIfActive(s.sessions, session, req.now) else s.sessions
    case Consumed =>
      if !(Advances(s.sessions, req, sid, f.ctx) && w.advances)
      then r.None? && s'.h == s.h && s'.sessions == s.sessions && s'.tokens == s.tokens
      else
        var g := GrantOf(rid, f, s.sessions[sid]);
        && s'.sessions == s.sessions[sid := Advanced(c, f, s.sessions[sid])]
        && (if w.stores
            then && r == Some(ResultOf(g)) && s'.tokens == s.tokens[f.art.token := f.art.record]
                 && s'.h == LogResponse(LogAdvance(s.h, sid, g), sid, g)
            else r.None? && s'.tokens == s.tokens && s'.h == LogAdvance(s.h, sid, g))
  }

  lemma EndsFinished(c: Config, s: State, s1: State, s': State, rid: RequestId, req: TokenRequest, ctx: TokenContext,
                     sid: SessionId, token: TokenId, jti: Jti, w: TokenWorld, res: Consumption, r: Option<TokenResult>)
    requires sid in s.sessions && sid in s.h.logs && w.consumes && res == ConsumptionOf(s, req)
    requires CredentialSession(s, req.cred) == Some(sid)
    requires s1.sessions == s.sessions && s1.h.logs == s.h.logs && s'.users == s.users && s'.trl == s.trl
    requires s'.codes == s1.codes
    requires s1.codes == if res.Consumed? then SpentCodes(s.codes, req.cred) else s.codes
    requires s1.tokens == if res.Consumed? then SpentTokens(s.tokens, req.cred, req.now) else s.tokens
    requires Ends(c, s1, s', rid, req, sid, StepOf(c, req, sid, s.sessions[sid], ctx, token, jti), w, res, r)
    ensures Finished(c, s, s', rid, req, ctx, sid, token, jti, w, r)
  {
  }

  lemma FinishedServed(c: Config, s: State, s': State, rid: RequestId, req: TokenRequest, ctx: TokenContext,
                       active: bool, token: TokenId, jti: Jti, w: TokenWorld, r: Option<TokenResult>)
    requires Prepares(c, s, req, ctx, active)
    requires var sid := CredentialSession(s, req.cred).value;
             sid in s.h.logs && Finished(c, s, s', rid, req, ctx, sid, token, jti, w, r)
    ensures Served(c, s, s', rid, req, ctx, token, jti, w, CourseOf(c, s, req, ctx, active, w), r)
  {
  }

  // The session of a stored credential was created by the service.
  lemma CredentialLogged(c: Config, s: State, cred: Credential)
    requires Reachable(c, s) && CredentialSession(s, cred).Some?
    ensures CredentialSession(s, cred).value in s.h.logs
  {
    ReachableInv(c, s);
    if cred.TokenCred? {
      assert TokenOk(s, cred.token);
    }
  }

  // What consuming a credential comes to.
  datatype Consumption = Consumed | Replayed(session: SessionId) | Refused

  function ConsumptionOf(s: State, req: TokenRequest): Consumption {
    if CredentialSession(s, req.cred).None? then Refused
    else
      match ConsumeCheck(s, req)
      case None => Consumed
      case Some(err) => if err.AlreadyUsed? then Replayed(CredentialSession(s, req.cred).value) else Refused
  }

  // The session accepts the request's step.
  predicate Advances(sessions: map<SessionId, Session>, req: TokenRequest, sid: SessionId, ctx: TokenContext) {
    sid in sessions && sessions[sid].ValidateForAdvance(ctx.client, req.now, req.cred.CodeCred?).None?
  }

  // What the revocation of one session meets: whether its store call gets to see the session and to write it, the
  // clock of the revocation list, and whether the two writes after the revoking one succeed.
  datatype RevokeWorld = RevokeWorld(findOk: bool, revokeOk: bool, clock: Time, trlOk: bool, deleteOk: bool)

  // How the store answers to RevokeSessionIfActive.
  datatype RevokeAnswer = Written | WasRevoked | NotFound | StoreError

  datatype RevokeOutcome = NowRevoked | AlreadyRevoked | RevokeFailed

  // The revoking write takes place.
  predicate Revokes(sessions: map<SessionId, Session>, sid: SessionId, w: RevokeWorld) {
    w.findOk && w.revokeOk && sid in sessions && sessions[sid].CanRevoke()
  }

  // How the revocation of one session ends.
  function OutcomeOf(c: Config, sessions: map<SessionId, Session>, sid: SessionId, jti: Option<Jti>, w: RevokeWorld)
    : RevokeOutcome {
    if !w.findOk || sid !in sessions then RevokeFailed
    else if !sessions[sid].CanRevoke() then AlreadyRevoked
    else if !w.revokeOk || (jti.Some? && !w.trlOk && c.failOnTrlError) then RevokeFailed
    else NowRevoked
  }

  function RevokedAfter(sessions: map<SessionId, Session>, sid: SessionId, now: Time, w: RevokeWorld)
    : map<SessionId, Session> {
    if Revokes(sessions, sid, w) then sessions[sid := sessions[sid].ApplyRevocation(now)] else sessions
  }

  // The revocation list after it: the token is listed when the session was revoked by this call and the write succeeds.
  function ListedAfter(c: Config, trl: map<Jti, Time>, sessions: map<SessionId, Session>, sid: SessionId,
                       jti: Option<Jti>, w: RevokeWorld): map<Jti, Time>
  {
    if Revokes(sessions, sid, w) && jti.Some? && w.trlOk then trl[jti.value := w.clock + c.tokenTtl] else trl
  }

  function DeletedAfter(c: Config, tokens: map<TokenId, RefreshToken>, sessions: map<SessionId, Session>,
                        sid: SessionId, jti: Option<Jti>, w: RevokeWorld): map<TokenId, RefreshToken>
  {
    if OutcomeOf(c, sessions, sid, jti, w).NowRevoked? && w.deleteOk then WithoutSession(tokens, sid) else tokens
  }

  function WithoutSession(tokens: map<TokenId, RefreshToken>, sid: SessionId): map<TokenId, RefreshToken> {
    map t | t in tokens && tokens[t].session != sid :: tokens[t]
  }

  // A token handed in for revocation: what it says if it reads as an access token, and the refresh token it would be.
  datatype TokenText = TokenText(claims: Option<(SessionId, Jti)>, refresh: TokenId)

  datatype Hint = NoHint | AccessHint | RefreshHint

  // Only the hinted kind is searched; without a hint, access tokens come first.
  function Resolution(sessions: map<SessionId, Session>, tokens: map<TokenId, RefreshToken>, text: TokenText,
                      hint: Hint)
    : Option<(SessionId, Option<Jti>)>
  {
    if !hint.RefreshHint? && text.claims.Some? && text.claims.value.0 in sessions
    then Some((text.claims.value.0, Some(text.claims.value.1)))
    else if !hint.AccessHint? && text.refresh in tokens && tokens[text.refresh].session in sessions
    then Some((tokens[text.refresh].session, sessions[tokens[text.refresh].session].lastJti))
    else None
  }

  // ----- logging out everywhere -----

  function TargetsOf(s: State, order: seq<SessionId>): seq<Target>
    requires forall sid :: sid in order ==> sid in s.sessions
  {
    seq(|order|, i requires 0 <= i < |order| => SnapshotTarget(s, order[i], ReadBefore))
  }

  // What the revocation of each session meets.
  type Worlds = SessionId -> RevokeWorld

  datatype LogoutResult = LogoutResult(revokedCount: nat, failedCount: nat)

  function SetOf(order: seq<SessionId>): set<SessionId> {
    set sid | sid in order
  }

  lemma SetOfNext(order: seq<SessionId>, i: nat)
    requires i < |order| && forall j, k :: 0 <= j < k < |order| ==> order[j] != order[k]
    ensures SetOf(order[..i + 1]) == SetOf(order[..i]) + {order[i]} && order[i] !in SetOf(order[..i])
  {
    assert order[..i + 1] == order[..i] + [order[i]];
  }

  // The sessions of the user, but the kept one.
  function Chosen(sessions: map<SessionId, Session>, user: UserId, keep: Option<SessionId>): set<SessionId> {
    set sid | sid in sessions && sessions[sid].user == user && keep != Some(sid)
  }

  // The chosen sessions revoked whose revoking write takes place, the others as they were.
  function LoggedOut(sessions: map<SessionId, Session>, chosen: set<SessionId>, worlds: Worlds, now: Time)
    : map<SessionId, Session> {
    map sid | sid in sessions ::
      if sid in chosen && Revokes(sessions, sid, worlds(sid)) then sessions[sid].ApplyRevocation(now) else sessions[sid]
  }

  // The chosen sessions whose revocation ends so.
  function Ending(c: Config, sessions: map<SessionId, Session>, chosen: set<SessionId>, worlds: Worlds,
                  outcome: RevokeOutcome): set<SessionId>
  {
    set sid | sid in sessions && sid in chosen &&
              OutcomeOf(c, sessions, sid, sessions[sid].lastJti, worlds(sid)) == outcome
  }

  function TokensLeft(c: Config, tokens: map<TokenId, RefreshToken>, sessions: map<SessionId, Session>,
                      chosen: set<SessionId>, worlds: Worlds): map<TokenId, RefreshToken>
  {
    map t | t in tokens && !(tokens[t].session in Ending(c, sessions, chosen, worlds, NowRevoked)
                             && worlds(tokens[t].session).deleteOk) :: tokens[t]
  }

  // The session is revoked, and this is its last access token and gets listed.
  predicate Listing(sessions: map<SessionId, Session>, chosen: set<SessionId>, worlds: Worlds, sid: SessionId, jti: Jti)
  {
    && sid in chosen && Revokes(sessions, sid, worlds(sid))
    && worlds(sid).trlOk && sessions[sid].lastJti == Some(jti)
  }

  // One entry of the revocation list before and after: new if some session lists it, the same otherwise.
  ghost predicate ListsEntry(c: Config, trl: map<Jti, Time>, trl': map<Jti, Time>, sessions: map<SessionId, Session>,
                             chosen: set<SessionId>, worlds: Worlds, jti: Jti)
  {
    if exists sid :: Listing(sessions, chosen, worlds, sid, jti)
    then jti in trl' && exists sid :: Listing(sessions, chosen, worlds, sid, jti)
                                      && trl'[jti] == worlds(sid).clock + c.tokenTtl
    else if jti in trl then jti in trl' && trl'[jti] == trl[jti]
    else jti !in trl'
  }

  ghost predicate ListsAll(c: Config, trl: map<Jti, Time>, trl': map<Jti, Time>, sessions: map<SessionId, Session>,
                           chosen: set<SessionId>, worlds: Worlds)
  {
    forall jti :: ListsEntry(c, trl, trl', sessions, chosen, worlds, jti)
  }

  // What revoking the chosen sessions one by one leaves and counts.
  ghost predicate LogsOut(c: Config, s: State, s': State, chosen: set<SessionId>, worlds: Worlds, now: Time,
                          r: LogoutResult)
  {
    && s'.users == s.users && s'.codes == s.codes
    && s'.sessions == LoggedOut(s.sessions, chosen, worlds, now)
    && s'.tokens == TokensLeft(c, s.tokens, s.sessions, chosen, worlds)
    && ListsAll(c, s.trl, s'.trl, s.sessions, chosen, worlds)
    && r.revokedCount == |Ending(c, s.sessions, chosen, worlds, NowRevoked)|
    && r.failedCount == |Ending(c, s.sessions, chosen, worlds, RevokeFailed)|
  }

  // The targets are these sessions as they are stored.
  predicate Targeted(sessions: map<SessionId, Session>, order: seq<SessionId>, targets: seq<Target>) {
    && |targets| == |order|
    && (forall i, j :: 0 <= i < j < |order| ==> order[i] != order[j])
    && (forall i | 0 <= i < |order| ::
          order[i] in sessions && targets[i].session == order[i] && targets[i].jti == sessions[order[i]].lastJti)
  }

  lemma NobodyLogsOut(c: Config, s: State, s': State, worlds: Worlds, now: Time)
    requires s'.users == s.users && s'.codes == s.codes && s'.sessions == s.sessions && s'.tokens == s.tokens
    requires s'.trl == s.trl
    ensures LogsOut(c, s, s', {}, worlds, now, LogoutResult(0, 0))
  {
    assert forall outcome :: Ending(c, s.sessions, {}, worlds, outcome) == {};
  }

  // The session is as it was listed, so its revocation meets what it would have met first.
  lemma StillListed(c: Config, sessions: map<SessionId, Session>, chosen: set<SessionId>, worlds: Worlds, now: Time,
                    sid: SessionId, jti: Option<Jti>, w: RevokeWorld)
    requires sid in sessions && sid !in chosen
    ensures var before := LoggedOut(sessions, chosen, worlds, now);
            && sid in before && before[sid] == sessions[sid]
            && OutcomeOf(c, before, sid, jti, w) == OutcomeOf(c, sessions, sid, jti, w)
  {
  }

  lemma LoggedOutOne(sessions: map<SessionId, Session>, chosen: set<SessionId>, worlds: Worlds, now: Time,
                     sid: SessionId)
    requires sid in sessions && sid !in chosen
    ensures RevokedAfter(LoggedOut(sessions, chosen, worlds, now), sid, now, worlds(sid)) ==
              LoggedOut(sessions, chosen + {sid}, worlds, now)
  {
  }

  lemma EndingOne(c: Config, sessions: map<SessionId, Session>, chosen: set<SessionId>, worlds: Worlds, sid: SessionId,
                  outcome: RevokeOutcome)
    requires sid in sessions && sid !in chosen
    ensures var ends := OutcomeOf(c, sessions, sid, sessions[sid].lastJti, worlds(sid)) == outcome;
            var before := Ending(c, sessions, chosen, worlds, outcome);
            var after := Ending(c, sessions, chosen + {sid}, worlds, outcome);
            if ends then after == before + {sid} && |after| == |before| + 1 else after == before
  {
    var before := Ending(c, sessions, chosen, worlds, outcome);
    var after := Ending(c, sessions, chosen + {sid}, worlds, outcome);
    assert sid !in before;
    if OutcomeOf(c, sessions, sid, sessions[sid].lastJti, worlds(sid)) == outcome {
      assert after == before + {sid};
    } else {
      assert after == before;
    }
  }

  lemma TokensLeftOne(c: Config, tokens: map<TokenId, RefreshToken>, sessions: map<SessionId, Session>,
                      chosen: set<SessionId>, worlds: Worlds, sid: SessionId)
    requires sid in sessions && sid !in chosen
    ensures var left := TokensLeft(c, tokens, sessions, chosen, worlds);
            DeletedAfter(c, left, sessions, sid, sessions[sid].lastJti, worlds(sid)) ==
              TokensLeft(c, tokens, sessions, chosen + {sid}, worlds)
  {
    EndingOne(c, sessions, chosen, worlds, sid, NowRevoked);
    var left, w := TokensLeft(c, tokens, sessions, chosen, worlds), worlds(sid);
    var after := TokensLeft(c, tokens, sessions, chosen + {sid}, worlds);
    if OutcomeOf(c, sessions, sid, sessions[sid].lastJti, w).NowRevoked? && w.deleteOk {
      assert after == WithoutSession(left, sid);
    } else {
      assert after == left;
    }
  }

  lemma ListsEntryOne(c: Config, trl: map<Jti, Time>, trl': map<Jti, Time>, sessions: map<SessionId, Session>,
                      chosen: set<SessionId>, worlds: Worlds, sid: SessionId, jti: Jti)
    requires sid in sessions && sid !in chosen && ListsEntry(c, trl, trl', sessions, chosen, worlds, jti)
    ensures var trl1 := ListedAfter(c, trl', sessions, sid, sessions[sid].lastJti, worlds(sid));
            ListsEntry(c, trl, trl1, sessions, chosen + {sid}, worlds, jti)
  {
    var more := chosen + {sid};
    assert forall x :: Listing(sessions, chosen, worlds, x, jti) ==> Listing(sessions, more, worlds, x, jti);
    if Listing(sessions, more, worlds, sid, jti) {
    } else if x :| Listing(sessions, chosen, worlds, x, jti) && trl'[jti] == worlds(x).clock + c.tokenTtl {
    } else {
      assert forall x :: Listing(sessions, more, worlds, x, jti) ==> Listing(sessions, chosen, worlds, x, jti);
    }
  }

  // Only the stores matter.
  lemma LogsOutOfStores(c: Config, s: State, s1: State, s2: State, s3: State, chosen: set<SessionId>, worlds: Worlds,
                        now: Time, r: LogoutResult)
    requires LogsOut(c, s1, s2, chosen, worlds, now, r) && SameStores(s, s1) && SameStores(s2, s3)
    ensures LogsOut(c, s, s3, chosen, worlds, now, r)
  {
    forall jti ensures ListsEntry(c, s.trl, s3.trl, s.sessions, chosen, worlds, jti) {
      assert ListsEntry(c, s1.trl, s2.trl, s1.sessions, chosen, worlds, jti);
    }
  }

  lemma LogsOutOne(c: Config, s: State, s1: State, s2: State, chosen: set<SessionId>, worlds: Worlds, now: Time,
                   r: LogoutResult, sid: SessionId, outcome: RevokeOutcome)
    requires LogsOut(c, s, s1, chosen, worlds, now, r) && sid in s.sessions && sid !in chosen
    requires s2.users == s1.users && s2.codes == s1.codes
    requires var jti, w := s.sessions[sid].lastJti, worlds(sid);
             && outcome == OutcomeOf(c, s1.sessions, sid, jti, w)
             && s2.sessions == RevokedAfter(s1.sessions, sid, now, w)
             && s2.trl == ListedAfter(c, s1.trl, s1.sessions, sid, jti, w)
             && s2.tokens == DeletedAfter(c, s1.tokens, s1.sessions, sid, jti, w)
    ensures LogsOut(c, s, s2, chosen + {sid}, worlds, now,
                    LogoutResult(r.revokedCount + (if outcome.NowRevoked? then 1 else 0),
                                 r.failedCount + (if outcome.RevokeFailed? then 1 else 0)))
  {
    StillListed(c, s.sessions, chosen, worlds, now, sid, s.sessions[sid].lastJti, worlds(sid));
    LoggedOutOne(s.sessions, chosen, worlds, now, sid);
    EndingOne(c, s.sessions, chosen, worlds, sid, NowRevoked);
    EndingOne(c, s.sessions, chosen, worlds, sid, RevokeFailed);
    TokensLeftOne(c, s.tokens, s.sessions, chosen, worlds, sid);
    forall jti ensures ListsEntry(c, s.trl, s2.trl, s.sessions, chosen + {sid}, worlds, jti) {
      ListsEntryOne(c, s.trl, s1.trl, s.sessions, chosen, worlds, sid, jti);
    }
  }

  // ----- authorizing -----

  method ValidateRequestedScopes(requested: seq<string>, allowed: seq<string>) returns (ok: bool)
    ensures ok <==> ScopesAllowed(requested, allowed)
  {
    if |allowed| == 0 {
      return true;
    }
    for i := 0 to |requested|
      invariant forall j | 0 <= j < i :: requested[j] in allowed
    {
      if requested[i] !in allowed {
        return false;
      }
    }
    ok := true;
  }

  lemma AuthorizeBegins(c: Config, s: State, rid: RequestId, p: AuthorizeParams)
    requires ScopesAllowed(p.scopes, p.allowedScopes) && p.deviceId != ""
    ensures Reaches(c, s, Begin(s, rid, AuthReady(p)))
  {
    RunOne(c, s, OnAccount(rid, BeginAuthorize(p)));
  }

  lemma DeleteBegins(c: Config, s: State, rid: RequestId, user: UserId)
    requires user in s.users
    ensures Reaches(c, s, Begin(s, rid, DelReady(user)))
  {
    RunOne(c, s, OnAccount(rid, BeginDelete(user)));
  }

  lemma SessionsDeleted(c: Config, s: State, rid: RequestId)
    ensures Reaches(c, s, StepDeleteSessions(c, s, rid))
  {
    RunOne(c, s, OnAccount(rid, DeleteSessions));
  }

  lemma UserFound(c: Config, s: State, rid: RequestId, p: AuthorizeParams, u: UserId)
    requires rid in s.flows && s.flows[rid] == AuthUser(p) && p.email != "" && u in s.users && Matches(s.users[u], p)
    ensures Reaches(c, s, Goto(s, rid, if s.users[u].active then AuthSession(p, u) else Done))
  {
    RunOne(c, s, OnAccount(rid, FindOrCreateUser(u)));
  }

  function UserMade(s: State, rid: RequestId, p: AuthorizeParams, u: UserId): State {
    Goto(s, rid, AuthSession(p, u)).(users := s.users[u := User(p.tenant, p.email, true)],
        everUsers := s.everUsers + {u})
  }

  lemma UserCreated(c: Config, s: State, rid: RequestId, p: AuthorizeParams, u: UserId)
    requires rid in s.flows && s.flows[rid] == AuthUser(p) && p.email != "" && u !in s.everUsers
    requires forall v :: v in s.users ==> !Matches(s.users[v], p)
    ensures Reaches(c, s, UserMade(s, rid, p, u))
  {
    RunOne(c, s, OnAccount(rid, FindOrCreateUser(u)));
  }

  // Which store calls of an authorization succeed.
  datatype AuthorizeWorld = AuthorizeWorld(userOk: bool, sessionOk: bool, codeOk: bool)

  // The user that the store finds for tenant and email, or else the new one.
  ghost predicate Picks(users: map<UserId, User>, p: AuthorizeParams, newUser: UserId, pick: UserId) {
    if exists u :: u in users && users[u].email == p.email && users[u].tenant == p.tenant
    then pick in users && users[pick].email == p.email && users[pick].tenant == p.tenant
    else pick == newUser
  }

  lemma SomePick(users: map<UserId, User>, p: AuthorizeParams, newUser: UserId) returns (pick: UserId)
    ensures Picks(users, p, newUser, pick)
  {
    if u :| u in users && users[u].email == p.email && users[u].tenant == p.tenant {
      pick := u;
    } else {
      pick := newUser;
    }
  }

  function UsersAfter(users: map<UserId, User>, p: AuthorizeParams, pick: UserId): (after: map<UserId, User>)
    ensures pick in after && after[pick].email == p.email && after[pick].tenant == p.tenant
  {
    if pick in users && users[pick].email == p.email && users[pick].tenant == p.tenant then users
    else users[pick := User(p.tenant, p.email, true)]
  }

  // How an authorization ends: without any effect; with at most a new user; with
  // a session that has no code; or with both.
  datatype AuthorizeCourse = Nothing | UserOnly | Codeless | Granted

  predicate StoresSession(c: Config, p: AuthorizeParams, w: AuthorizeWorld) {
    p.scopes != [] && c.sessionTtl >= 0 && w.sessionOk
  }

  predicate StoresCode(p: AuthorizeParams, w: AuthorizeWorld) {
    p.redirectUri != "" && w.codeOk
  }

  function AuthorizeCourseOf(c: Config, users: map<UserId, User>, p: AuthorizeParams, pick: UserId, w: AuthorizeWorld)
    : AuthorizeCourse {
    if !ScopesAllowed(p.scopes, p.allowedScopes) || p.email == "" || !w.userOk then Nothing
    else if !UsersAfter(users, p, pick)[pick].active then Nothing
    else if !StoresSession(c, p, w) then UserOnly
    else if !StoresCode(p, w) then Codeless
    else Granted
  }

  // The session is a new one of the user, waiting for its code, with exactly the requested scopes.
  predicate IsPending(c: Config, sess: Session, p: AuthorizeParams, user: UserId) {
    && sess.status.PendingConsent? && sess.user == user && sess.client == p.client && sess.tenant == p.tenant
    && sess.scopes == p.scopes && sess.createdAt == p.now && sess.expiresAt == p.now + c.sessionTtl
    && sess.deviceId == p.deviceId && sess.lastJti.None? && sess.revokedAt.None?
  }

  // What the authorization leaves, for each course.
  predicate Authorizes(c: Config, s: State, s': State, p: AuthorizeParams, pick: UserId, sid: SessionId, code: CodeId,
                       course: AuthorizeCourse)
  {
    && s'.tokens == s.tokens && s'.trl == s.trl
    && s'.users == (if course.Nothing? then s.users else UsersAfter(s.users, p, pick))
    && (if course.Nothing? || course.UserOnly? then s'.sessions == s.sessions
        else sid in s'.sessions && s'.sessions == s.sessions[sid := s'.sessions[sid]]
             && IsPending(c, s'.sessions[sid], p, pick))
    && s'.codes == if !course.Granted? then s.codes
                   else s.codes[code := AuthorizationCode(sid, p.redirectUri, p.now + CODE_TTL, false, p.now)]
  }

  lemma AuthorizesNobody(c: Config, s: State, s': State, p: AuthorizeParams, pick: UserId, sid: SessionId, code: CodeId,
                         w: AuthorizeWorld)
    requires p.email == "" || !w.userOk || !UsersAfter(s.users, p, pick)[pick].active
    requires s'.users == if p.email != "" && w.userOk then UsersAfter(s.users, p, pick) else s.users
    requires s'.sessions == s.sessions && s'.codes == s.codes && s'.tokens == s.tokens && s'.trl == s.trl
    ensures AuthorizeCourseOf(c, s.users, p, pick, w).Nothing? && Authorizes(c, s, s', p, pick, sid, code, Nothing)
  {
  }

  lemma AuthorizesUser(c: Config, s: State, s1: State, s2: State, p: AuthorizeParams, pick: UserId, sid: SessionId,
                       code: CodeId, w: AuthorizeWorld, ok: bool)
    requires ScopesAllowed(p.scopes, p.allowedScopes) && p.email != "" && w.userOk
    requires s1.users == UsersAfter(s.users, p, pick) && s1.users[pick].active && s2.users == s1.users
    requires s1.sessions == s.sessions && s1.codes == s.codes && s2.tokens == s.tokens && s2.trl == s.trl
    requires ok <==> StoresSession(c, p, w) && StoresCode(p, w)
    requires if StoresSession(c, p, w)
             then && sid in s2.sessions && s2.sessions == s1.sessions[sid := s2.sessions[sid]]
                  && IsPending(c, s2.sessions[sid], p, pick)
             else s2.sessions == s1.sessions
    requires s2.codes == if !ok then s1.codes
                         else s1.codes[code := AuthorizationCode(sid, p.redirectUri, p.now + CODE_TTL, false, p.now)]
    ensures var course := AuthorizeCourseOf(c, s.users, p, pick, w);
            ok == course.Granted? && Authorizes(c, s, s2, p, pick, sid, code, course)
  {
  }

  // ----- deleting a user -----

  // Which store calls of a deletion succeed.
  datatype DeleteWorld = DeleteWorld(findOk: bool, sessionsOk: bool, rowOk: bool)

  function WithoutUser(s: State, user: UserId): State {
    s.(users := s.users - {user})
  }

  // The sessions go first; when the row then cannot be deleted, nothing brings them back.
  function Deletion(c: Config, s: State, user: UserId, w: DeleteWorld): State {
    if !w.findOk || user !in s.users || !w.sessionsOk then s
    else
      var s1 := RemoveSessions(c, s, SessionsOfUser(s, user));
      if w.rowOk then WithoutUser(s1, user) else s1
  }

  predicate SameStores(s: State, s': State) {
    && s'.users == s.users && s'.sessions == s.sessions && s'.codes == s.codes && s'.tokens == s.tokens
    && s'.trl == s.trl
  }

  lemma RemovesUserOnly(c: Config, s: State, user: UserId)
    requires forall sid | sid in s.sessions :: s.sessions[sid].user != user
    ensures RemoveUser(c, s, user) == s.(users := s.users - {user})
  {
    assert SessionsOfUser(s, user) == {};
    assert s.sessions - {} == s.sessions;
    assert (map k | k in s.codes && s.codes[k].session !in {} :: s.codes[k]) == s.codes;
    assert (map t | t in s.tokens && s.tokens[t].session !in {} :: s.tokens[t]) == s.tokens;
  }

  // A deletion only looks at the stores.
  lemma DeletionOfStores(c: Config, s: State, s1: State, user: UserId, w: DeleteWorld)
    requires SameStores(s, s1)
    ensures SameStores(Deletion(c, s, user, w), Deletion(c, s1, user, w))
  {
    assert SessionsOfUser(s1, user) == SessionsOfUser(s, user);
  }

  // What RevokeSession finds under the session's lock. The record is written back also when it was revoked before.
  datatype OwnedOutcome = Revoking | NothingToRevoke | Forbidden | SessionNotFound | ExecuteFailed

  function OwnedOutcomeOf(sessions: map<SessionId, Session>, user: UserId, sid: SessionId, w: RevokeWorld)
    : OwnedOutcome {
    if !w.findOk then ExecuteFailed
    else if sid !in sessions then SessionNotFound
    else if sessions[sid].user != user then Forbidden
    else if !w.revokeOk then ExecuteFailed
    else if !sessions[sid].CanRevoke() then NothingToRevoke
    else Revoking
  }

  lemma OwnedOutcomeIff(sessions: map<SessionId, Session>, user: UserId, sid: SessionId, w: RevokeWorld)
    ensures var outcome := OwnedOutcomeOf(sessions, user, sid, w);
            && (outcome.SessionNotFound? <==> w.findOk && sid !in sessions)
            && (outcome.Forbidden? <==> w.findOk && sid in sessions && sessions[sid].user != user)
            && (outcome.NothingToRevoke? <==>
                  && w.findOk && w.revokeOk && sid in sessions
                  && sessions[sid].user == user && sessions[sid].status.Revoked?)
            && (outcome.Revoking? <==>
                  && w.findOk && w.revokeOk && sid in sessions
                  && sessions[sid].user == user && !sessions[sid].status.Revoked?)
  {
  }
}
