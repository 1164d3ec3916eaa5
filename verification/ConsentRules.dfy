/** The rules of one consent record (internal/consent/models). */
module ConsentRules {
  import opened Common

  type UserId = nat

  const NIL_USER: UserId := 0

  // The zero value of the source's time type, which it takes for "no time given".
  const ZERO_TIME: Time := 0

  datatype Purpose = Login | RegistryCheck | VcIssuance | DecisionEvaluation | Unknown(name: string) {
    predicate IsValid() {
      !Unknown?
    }
  }

  datatype Scope = Scope(user: UserId, purpose: Purpose) {
    predicate IsValid() {
      user != NIL_USER && purpose.IsValid()
    }
  }

  datatype Policy = Policy(ttl: int, window: int, cooldown: int) {
    predicate Ok() {
      ttl > 0 && window > 0 && cooldown > 0
    }
  }

  const DEFAULT_TTL := 365 * 24 * 3600
  const DEFAULT_WINDOW := 300
  const DEFAULT_COOLDOWN := 300

  // New: whatever the options say, every duration ends up positive.
  function NewPolicy(ttl: int, window: int, cooldown: int): (p: Policy)
    ensures p.Ok()
    ensures (ttl > 0 ==> p.ttl == ttl) && (window > 0 ==> p.window == window)
    ensures (cooldown > 0 ==> p.cooldown == cooldown)
    ensures (ttl <= 0 ==> p.ttl == 365 * 24 * 3600) && (window <= 0 ==> p.window == 5 * 60)
    ensures cooldown <= 0 ==> p.cooldown == 5 * 60
  {
    Policy(if ttl <= 0 then DEFAULT_TTL else ttl,
           if window <= 0 then DEFAULT_WINDOW else window,
           if cooldown <= 0 then DEFAULT_COOLDOWN else cooldown)
  }

  datatype ConsentError =
    | Unauthorized | BadRequest | CooldownActive | InvariantViolation | Internal | Conflict
    | Aborted | MissingConsent | ConsentRevoked | ConsentExpired

  datatype Status = StatusActive | StatusExpired | StatusRevoked

  datatype GrantEvaluation = GrantEvaluation(updated: Record, changed: bool, wasActive: bool)

  datatype Record = Record(scope: Scope, grantedAt: Time, expiresAt: Option<Time>, revokedAt: Option<Time>) {
    predicate IsActive(now: Time) {
      if revokedAt.Some? then false
      else if expiresAt.Some? && expiresAt.value < now then false
      else true
    }

    predicate CanRevoke(now: Time) {
      if revokedAt.Some? then false
      else if expiresAt.Some? && expiresAt.value < now then false
      else true
    }

    predicate CanReGrant(now: Time, cooldown: int) {
      revokedAt.None? || now - revokedAt.value >= cooldown
    }

    function RenewAt(now: Time, ttl: int): Result<Record, ConsentError> {
      if now == ZERO_TIME || ttl <= 0 then Failure(InvariantViolation)
      else Success(Record(scope, now, Some(now + ttl), None))
    }

    function RevokeAt(now: Time): Result<Record, ConsentError> {
      if now == ZERO_TIME then Failure(InvariantViolation) else Success(this.(revokedAt := Some(now)))
    }

    // An unchanged evaluation carries the record as it is.
    function EvaluateGrant(now: Time, pol: Policy): Result<GrantEvaluation, ConsentError> {
      if IsActive(now) && now - grantedAt < pol.window then Success(GrantEvaluation(this, false, true))
      else if !CanReGrant(now, pol.cooldown) then Failure(CooldownActive)
      else
        match RenewAt(now, pol.ttl)
        case Failure(e) => Failure(e)
        case Success(r) => Success(GrantEvaluation(r, true, IsActive(now)))
    }

    function ComputeStatus(now: Time): Status {
      if revokedAt.Some? then StatusRevoked
      else if expiresAt.Some? && expiresAt.value < now then StatusExpired
      else StatusActive
    }
  }

  function NewRecord(scope: Scope, grantedAt: Time, expiresAt: Option<Time>): Result<Record, ConsentError> {
    if !scope.IsValid() || grantedAt == ZERO_TIME then Failure(InvariantViolation)
    else if expiresAt.Some? && expiresAt.value < grantedAt then Failure(InvariantViolation)
    else Success(Record(scope, grantedAt, expiresAt, None))
  }
}
