/** The records of the auth domain (internal/auth/models): sessions, authorization
    codes and refresh tokens, with their validators and state changes. */
module AuthModels {
  import opened Common

  type UserId = nat
  type SessionId = nat
  type ClientId = nat
  type TenantId = nat
  type CodeId = nat
  type TokenId = nat
  type Jti = nat

  datatype Status = PendingConsent | Active | Revoked {
    // value_objects.go: the transitions the domain allows
    predicate CanTransitionTo(target: Status) {
      match this
      case PendingConsent => target == Active || target == Revoked
      case Active => target == Revoked
      case Revoked => false
    }
  }

  datatype User = User(tenant: TenantId, email: string, active: bool)

  datatype AdvanceError = ClientMismatch | SessionRevoked | InvalidState | SessionExpired

  datatype Session = Session(
    user: UserId,
    client: ClientId,
    tenant: TenantId,
    scopes: seq<string>,
    status: Status,
    lastRefreshedAt: Option<Time>,
    lastJti: Option<Jti>,
    deviceId: string,
    fingerprint: string,
    createdAt: Time,
    expiresAt: Time,
    lastSeenAt: Time,
    revokedAt: Option<Time>)
  {
    predicate CanAdvance(allowPending: bool) {
      status.Active? || (allowPending && status.PendingConsent?)
    }

    // The checks of a token operation, in the order the source makes them.
    function ValidateForAdvance(clientId: ClientId, at: Time, allowPending: bool): Option<AdvanceError> {
      if client != clientId then Some(ClientMismatch)
      else if status.Revoked? then Some(SessionRevoked)
      else if !CanAdvance(allowPending) then Some(InvalidState)
      else if at > expiresAt then Some(SessionExpired)
      else None
    }

    function RecordActivity(at: Time): Session {
      if at > lastSeenAt then this.(lastSeenAt := at) else this
    }

    function RecordRefresh(at: Time): Session {
      var refreshed := if lastRefreshedAt.None? || at > lastRefreshedAt.value
                       then this.(lastRefreshedAt := Some(at)) else this;
      refreshed.RecordActivity(at)
    }

    function ApplyActivation(): Session {
      this.(status := Active)
    }

    function ApplyTokenJti(jti: Jti): Session {
      this.(lastJti := Some(jti))
    }

    function ApplyDeviceInfo(newDeviceId: string, newFingerprint: string): Session {
      var withId := if newDeviceId != "" then this.(deviceId := newDeviceId) else this;
      if newFingerprint != "" then withId.(fingerprint := newFingerprint) else withId
    }

    predicate CanRevoke() {
      !status.Revoked?
    }

    function ApplyRevocation(at: Time): Session {
      this.(status := Revoked,
            revokedAt := if revokedAt.None? || at > revokedAt.value then Some(at) else revokedAt)
    }
  }

  // NewSession: empty scopes and an expiry before creation are refused.
  function NewSession(user: UserId, client: ClientId, tenant: TenantId, scopes: seq<string>,
                      createdAt: Time, expiresAt: Time, deviceId: string, fingerprint: string): Option<Session>
  {
    if scopes == [] || expiresAt < createdAt then None
    else Some(Session(user, client, tenant, scopes, PendingConsent, None, None, deviceId, fingerprint,
                      createdAt, expiresAt, createdAt, None))
  }

  datatype ConsumeError = RedirectMismatch | Expired | AlreadyUsed

  datatype AuthorizationCode = AuthorizationCode(
    session: SessionId, redirectUri: string, expiresAt: Time, used: bool, createdAt: Time)
  {
    function ValidateForConsume(uri: string, now: Time): Option<ConsumeError> {
      if redirectUri != uri then Some(RedirectMismatch)
      else if now > expiresAt then Some(Expired)
      else if used then Some(AlreadyUsed)
      else None
    }

    function MarkUsed(): AuthorizationCode {
      this.(used := true)
    }
  }

  datatype RefreshToken = RefreshToken(
    session: SessionId, expiresAt: Time, used: bool, lastRefreshedAt: Option<Time>, createdAt: Time)
  {
    function ValidateForConsume(now: Time): Option<ConsumeError> {
      if now > expiresAt then Some(Expired)
      else if used then Some(AlreadyUsed)
      else None
    }

    function MarkUsed(at: Time): RefreshToken {
      if used then this
      else this.(used := true,
                 lastRefreshedAt := if lastRefreshedAt.None? || at > lastRefreshedAt.value
                                    then Some(at) else lastRefreshedAt)
    }
  }

  /** What a session is created with and no operation may change. Access and ID
      tokens are made from these attributes. */
  predicate SameIdentity(a: Session, b: Session) {
    && a.user == b.user
    && a.client == b.client
    && a.tenant == b.tenant
    && a.scopes == b.scopes
    && a.createdAt == b.createdAt
    && a.expiresAt == b.expiresAt
    && a.deviceId == b.deviceId
  }

  // applyDeviceBinding: only logs and copies signals, never refuses a request.
  function ApplyDeviceBinding(enabled: bool, sess: Session, cookie: string, current: string): Session {
    if !enabled then sess
    else
      var withId := if sess.deviceId == "" && cookie != "" then sess.(deviceId := cookie) else sess;
      // A first fingerprint is attached and a drifted one replaced; both store the current value.
      if current == "" then withId else withId.(fingerprint := current)
  }

  // validateRequestedScopes: an empty allow-list means no restriction.
  predicate ScopesAllowed(requested: seq<string>, allowed: seq<string>) {
    allowed == [] || forall i | 0 <= i < |requested| :: requested[i] in allowed
  }
}
