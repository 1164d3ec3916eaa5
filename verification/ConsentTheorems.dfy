/** What follows for callers of the consent service: when a consent is in force,
    how soon it can come back after a revocation, and what the mutex transaction
    does not promise. */
module ConsentTheorems {
  import opened Common
  import opened ConsentRules
  import opened ConsentLedger
  import opened ConsentHistory

  // ----- Require -----

  function Require(l: Ledger, user: UserId, purpose: Purpose, now: Time): Result<Record, ConsentError> {
    if user == NIL_USER then Failure(Unauthorized)
    else if !purpose.IsValid() then Failure(BadRequest)
    else if Scope(user, purpose) !in l then Failure(MissingConsent)
    else
      var r := l[Scope(user, purpose)];
      match r.ComputeStatus(now)
      case StatusRevoked => Failure(ConsentRevoked)
      case StatusExpired => Failure(ConsentExpired)
      case StatusActive => Success(r)
  }

  // The event changes a consent that has been in force since g.
  predicate Ends(pol: Policy, e: Event, sc: Scope, g: Time) {
    match e
    case Granted(sc', _) => sc' == sc
    case Revoked(sc', _) => sc' == sc
    case RevokedAll(u, t) => u == sc.user && t <= g + pol.ttl
    case Deleted(u, _) => u == sc.user
  }

  // The i-th event is a grant at g, and no later event changes it.
  predicate Stands(pol: Policy, trail: seq<Event>, i: int, sc: Scope, g: Time) {
    && 0 <= i < |trail| && trail[i] == Granted(sc, g)
    && forall j | i < j < |trail| :: !Ends(pol, trail[j], sc, g)
  }

  predicate Held(pol: Policy, l: Ledger, sc: Scope, g: Time) {
    sc in l && l[sc] == Record(sc, g, Some(g + pol.ttl), None)
  }

  lemma HeldEvent(pol: Policy, l: Ledger, e: Event, sc: Scope, g: Time)
    ensures Held(pol, Apply(pol, l, e), sc, g) <==> e == Granted(sc, g) || (Held(pol, l, sc, g) && !Ends(pol, e, sc, g))
  {
  }

  lemma StandsEvent(pol: Policy, trail: seq<Event>, e: Event, sc: Scope, g: Time)
    ensures (exists i :: Stands(pol, trail + [e], i, sc, g)) <==>
            e == Granted(sc, g) || ((exists i :: Stands(pol, trail, i, sc, g)) && !Ends(pol, e, sc, g))
  {
    var longer := trail + [e];
    if e == Granted(sc, g) {
      assert Stands(pol, longer, |trail|, sc, g);
    } else if i :| Stands(pol, longer, i, sc, g) {
      assert i < |trail| && longer[|trail|] == e;
      forall j | i < j < |trail| ensures !Ends(pol, trail[j], sc, g) {
        assert longer[j] == trail[j];
      }
      assert Stands(pol, trail, i, sc, g);
    } else if i :| Stands(pol, trail, i, sc, g) {
      assert !Ends(pol, e, sc, g) ==> Stands(pol, longer, i, sc, g);
    }
  }

  // A consent is held exactly when the last event that concerns it is its grant.
  lemma {:induction false} HeldIff(pol: Policy, trail: seq<Event>, sc: Scope, g: Time)
    ensures Held(pol, Replay(pol, trail), sc, g) <==> exists i :: Stands(pol, trail, i, sc, g)
    decreases |trail|
  {
    if trail != [] {
      var before, e := trail[..|trail| - 1], trail[|trail| - 1];
      HeldIff(pol, before, sc, g);
      HeldEvent(pol, Replay(pol, before), e, sc, g);
      StandsEvent(pol, before, e, sc, g);
      assert before + [e] == trail;
    }
  }

  lemma RequireHeld(pol: Policy, l: Ledger, user: UserId, purpose: Purpose, now: Time)
    requires LedgerOk(pol, l)
    ensures Require(l, user, purpose, now).Success? <==>
              exists g :: Held(pol, l, Scope(user, purpose), g) && now <= g + pol.ttl
  {
    var sc := Scope(user, purpose);
    if sc in l {
      assert RecordOk(pol, sc, l[sc]);
      assert l[sc].revokedAt.None? ==> Held(pol, l, sc, l[sc].grantedAt);
    }
  }

  /** A consent check passes exactly when the last state-changing event that
      concerns the scope is a grant, no more than the time to live ago: over
      every run, with either kind of transaction. */
  lemma RequireIff(pol: Policy, kind: TxKind, calls: seq<(Op, TxEnv)>, user: UserId, purpose: Purpose, now: Time)
    requires pol.Ok()
    ensures Require(ServeAll(pol, kind, START, calls).ledger, user, purpose, now).Success? <==>
              exists i, g :: Stands(pol, ChangesOf(pol, kind, calls), i, Scope(user, purpose), g) && now <= g + pol.ttl
  {
    var l, trail, sc := ServeAll(pol, kind, START, calls).ledger, ChangesOf(pol, kind, calls), Scope(user, purpose);
    ChangesTellLedger(pol, kind, calls);
    RequireHeld(pol, l, user, purpose, now);
    if g :| Held(pol, l, sc, g) && now <= g + pol.ttl {
      HeldIff(pol, trail, sc, g);
      var i :| Stands(pol, trail, i, sc, g);
    }
    if i, g :| Stands(pol, trail, i, sc, g) && now <= g + pol.ttl {
      HeldIff(pol, trail, sc, g);
    }
  }

  /** With rolled-back transactions the audit trail says so. */
  lemma RequireAudited(pol: Policy, calls: seq<(Op, TxEnv)>, user: UserId, purpose: Purpose, now: Time)
    requires pol.Ok()
    ensures var s := ServeAll(pol, Rollback, START, calls);
            Require(s.ledger, user, purpose, now).Success? <==>
              exists i, g :: Stands(pol, s.trail, i, Scope(user, purpose), g) && now <= g + pol.ttl
  {
    TrailTellsLedger(pol, calls);
    RequireIff(pol, Rollback, calls, user, purpose, now);
  }

  // ----- what records keep under either transaction -----

  /** Every stored record, after any run under either kind of transaction and
      with times in any order, expires exactly the time to live after its grant
      and was revoked, if at all, before that. */
  lemma {:induction false} RecordsKeep(pol: Policy, kind: TxKind, calls: seq<(Op, TxEnv)>)
    requires pol.Ok()
    ensures LedgerOk(pol, ServeAll(pol, kind, START, calls).ledger)
    decreases |calls|
  {
    if calls != [] {
      var s, op := ServeAll(pol, kind, START, calls[..|calls| - 1]), calls[|calls| - 1].0;
      RecordsKeep(pol, kind, calls[..|calls| - 1]);
      if Refusal(op).None? {
        BodyTells(pol, s.ledger, op);
        ToldLedgerOk(pol, s.ledger, Body(pol, s.ledger, op).effects);
      }
    }
  }

  // ----- the cooldown -----

  // The event revokes this scope's consent.
  predicate Withdraws(l: Ledger, e: Event, sc: Scope) {
    || (e.Revoked? && e.scope == sc)
    || (e.RevokedAll? && Revocable(l, sc, e.user, e.at))
  }

  // Nothing between the two positions grants the scope again or erases its user's records.
  predicate Untouched(trail: seq<Event>, i: int, k: int, sc: Scope) {
    forall j | i < j < k && 0 <= j < |trail| ::
      !(trail[j].Granted? && trail[j].scope == sc) && !(trail[j].Deleted? && trail[j].user == sc.user)
  }

  lemma WithdrawnBy(pol: Policy, l: Ledger, e: Event, sc: Scope)
    requires Legal(pol, l, e) && Withdraws(l, e, sc)
    ensures var l' := Apply(pol, l, e); sc in l' && l'[sc].revokedAt == Some(e.at)
  {
  }

  lemma WithdrawnKept(pol: Policy, l: Ledger, e: Event, sc: Scope, r: Time)
    requires Legal(pol, l, e) && sc in l && l[sc].revokedAt == Some(r)
    requires !(e.Granted? && e.scope == sc) && !(e.Deleted? && e.user == sc.user)
    ensures var l' := Apply(pol, l, e); sc in l' && l'[sc].revokedAt == Some(r)
  {
  }

  lemma {:induction false} LegalAt(pol: Policy, trail: seq<Event>, k: nat)
    requires LegalTrail(pol, trail) && k < |trail|
    ensures Legal(pol, Replay(pol, trail[..k]), trail[k])
    ensures Replay(pol, trail[..k + 1]) == Apply(pol, Replay(pol, trail[..k]), trail[k])
    decreases |trail|
  {
    assert trail[..k + 1][..k] == trail[..k];
    if k + 1 < |trail| {
      var before := trail[..|trail| - 1];
      LegalAt(pol, before, k);
      assert before[..k] == trail[..k] && before[k] == trail[k];
    }
  }

  // A recorded revocation keeps its time until the next grant or erasure.
  lemma {:induction false} RevocationStands(pol: Policy, trail: seq<Event>, i: nat, k: nat, sc: Scope)
    requires LegalTrail(pol, trail) && i < k <= |trail| && Withdraws(Replay(pol, trail[..i]), trail[i], sc)
    requires Untouched(trail, i, k, sc)
    ensures var l := Replay(pol, trail[..k]); sc in l && l[sc].revokedAt == Some(trail[i].at)
    decreases k
  {
    LegalAt(pol, trail, k - 1);
    if k == i + 1 {
      WithdrawnBy(pol, Replay(pol, trail[..i]), trail[i], sc);
    } else {
      RevocationStands(pol, trail, i, k - 1, sc);
      WithdrawnKept(pol, Replay(pol, trail[..k - 1]), trail[k - 1], sc, trail[i].at);
    }
  }

  /** After a revocation at r the scope's next grant comes at r plus the cooldown
      or later, if the user's records were not erased in between, although the
      times of the calls may come in any order; until then the recorded time
      of the revocation is never overwritten. Over every run, with either kind
      of transaction. */
  lemma CooldownKept(pol: Policy, kind: TxKind, calls: seq<(Op, TxEnv)>, i: nat, k: nat, sc: Scope)
    requires pol.Ok()
    requires var trail := ChangesOf(pol, kind, calls);
             && i < k < |trail| && Withdraws(Replay(pol, trail[..i]), trail[i], sc)
             && Untouched(trail, i, k, sc) && trail[k].Granted? && trail[k].scope == sc
    ensures var trail := ChangesOf(pol, kind, calls);
            && trail[k].at >= trail[i].at + pol.cooldown
            && forall j | i < j <= k :: Lookup(Replay(pol, trail[..j]), sc).Some?
                                        && Lookup(Replay(pol, trail[..j]), sc).value.revokedAt == Some(trail[i].at)
  {
    var trail := ChangesOf(pol, kind, calls);
    ChangesTellLedger(pol, kind, calls);
    forall j | i < j <= k ensures Lookup(Replay(pol, trail[..j]), sc).Some?
                                  && Lookup(Replay(pol, trail[..j]), sc).value.revokedAt == Some(trail[i].at)
    {
      RevocationStands(pol, trail, i, j, sc);
    }
    LegalAt(pol, trail, k);
  }

  // ----- why a consent check fails -----

  // The i-th event revokes the consent, and it is neither granted again nor erased since.
  predicate StaysRevoked(pol: Policy, trail: seq<Event>, i: int, sc: Scope) {
    0 <= i < |trail| && Withdraws(Replay(pol, trail[..i]), trail[i], sc) && Untouched(trail, i, |trail|, sc)
  }

  // The i-th event grants the consent, and it is not erased since.
  predicate StaysRecorded(trail: seq<Event>, i: int, sc: Scope) {
    && 0 <= i < |trail| && trail[i].Granted? && trail[i].scope == sc
    && forall j | i < j < |trail| :: !(trail[j].Deleted? && trail[j].user == sc.user)
  }

  lemma {:induction false} RevokedIff(pol: Policy, trail: seq<Event>, sc: Scope)
    requires LegalTrail(pol, trail)
    ensures var l := Replay(pol, trail);
            (sc in l && l[sc].revokedAt.Some?) <==> exists i :: StaysRevoked(pol, trail, i, sc)
    decreases |trail|
  {
    var l := Replay(pol, trail);
    if i :| StaysRevoked(pol, trail, i, sc) {
      RevocationStands(pol, trail, i, |trail|, sc);
      assert trail[..|trail|] == trail;
    }
    if trail != [] && sc in l && l[sc].revokedAt.Some? {
      var n := |trail| - 1;
      var before := trail[..n];
      if Withdraws(Replay(pol, before), trail[n], sc) {
        assert StaysRevoked(pol, trail, n, sc);
      } else {
        RevokedIff(pol, before, sc);
        var i :| StaysRevoked(pol, before, i, sc);
        assert before[..i] == trail[..i] && before[i] == trail[i];
        assert forall j | i < j < n :: before[j] == trail[j];
        assert StaysRevoked(pol, trail, i, sc);
      }
    }
  }

  lemma {:induction false} RecordedIff(pol: Policy, trail: seq<Event>, sc: Scope)
    ensures sc in Replay(pol, trail) <==> exists i :: StaysRecorded(trail, i, sc)
    decreases |trail|
  {
    if trail != [] {
      var n := |trail| - 1;
      var before, e := trail[..n], trail[n];
      RecordedIff(pol, before, sc);
      assert forall j | 0 <= j < n :: before[j] == trail[j];
      if e.Granted? && e.scope == sc {
        assert StaysRecorded(trail, n, sc);
      } else if e.Deleted? && e.user == sc.user {
        assert forall i :: !StaysRecorded(trail, i, sc);
      } else {
        assert forall i :: StaysRecorded(before, i, sc) <==> StaysRecorded(trail, i, sc);
      }
    }
  }

  lemma StandsIff(pol: Policy, trail: seq<Event>, sc: Scope, now: Time)
    requires LedgerOk(pol, Replay(pol, trail))
    ensures var l := Replay(pol, trail);
            (sc in l && l[sc].revokedAt.None? && now > l[sc].grantedAt + pol.ttl) <==>
              exists i, g :: Stands(pol, trail, i, sc, g) && now > g + pol.ttl
  {
    var l := Replay(pol, trail);
    if sc in l && l[sc].revokedAt.None? && now > l[sc].grantedAt + pol.ttl {
      assert RecordOk(pol, sc, l[sc]);
      HeldIff(pol, trail, sc, l[sc].grantedAt);
      var i :| Stands(pol, trail, i, sc, l[sc].grantedAt);
    }
    if i, g :| Stands(pol, trail, i, sc, g) && now > g + pol.ttl {
      HeldIff(pol, trail, sc, g);
    }
  }

  lemma RequireFields(pol: Policy, l: Ledger, user: UserId, purpose: Purpose, now: Time)
    requires LedgerOk(pol, l) && user != NIL_USER && purpose.IsValid()
    ensures var answer, sc := Require(l, user, purpose, now), Scope(user, purpose);
            && (answer == Failure(MissingConsent) <==> sc !in l)
            && (answer == Failure(ConsentRevoked) <==> sc in l && l[sc].revokedAt.Some?)
            && (answer == Failure(ConsentExpired) <==>
                  sc in l && l[sc].revokedAt.None? && now > l[sc].grantedAt + pol.ttl)
  {
    assert Scope(user, purpose) in l ==> RecordOk(pol, Scope(user, purpose), l[Scope(user, purpose)]);
  }

  /** Why a consent check fails, over every run with either kind of transaction:
      revoked when some event revoked the consent and it was neither granted again
      nor erased since, however long ago; expired when its last event is a grant
      longer ago than the time to live; missing when it was never granted, or
      erased since; and before all that, without a user or a known purpose. */
  lemma RefusedIff(pol: Policy, kind: TxKind, calls: seq<(Op, TxEnv)>, user: UserId, purpose: Purpose, now: Time)
    requires pol.Ok()
    ensures var answer := Require(ServeAll(pol, kind, START, calls).ledger, user, purpose, now);
            var trail, sc := ChangesOf(pol, kind, calls), Scope(user, purpose);
            && (answer == Failure(Unauthorized) <==> user == NIL_USER)
            && (answer == Failure(BadRequest) <==> user != NIL_USER && purpose.Unknown?)
            && (user != NIL_USER && !purpose.Unknown? ==>
                  && (answer == Failure(ConsentRevoked) <==> exists i :: StaysRevoked(pol, trail, i, sc))
                  && (answer == Failure(ConsentExpired) <==>
                        exists i, g :: Stands(pol, trail, i, sc, g) && now > g + pol.ttl)
                  && (answer == Failure(MissingConsent) <==> !exists i :: StaysRecorded(trail, i, sc)))
  {
    var l, trail, sc := ServeAll(pol, kind, START, calls).ledger, ChangesOf(pol, kind, calls), Scope(user, purpose);
    ChangesTellLedger(pol, kind, calls);
    RevokedIff(pol, trail, sc);
    RecordedIff(pol, trail, sc);
    StandsIff(pol, trail, sc, now);
    if user != NIL_USER && purpose.IsValid() {
      RequireFields(pol, l, user, purpose, now);
    }
  }

  // ----- every legal trail happens -----

  function Cause(e: Event): Op {
    match e
    case Granted(sc, t) => Grant(sc.user, [sc.purpose], t)
    case Revoked(sc, t) => Revoke(sc.user, [sc.purpose], t)
    case RevokedAll(u, t) => RevokeAll(u, t)
    case Deleted(u, t) => DeleteAll(u, t)
  }

  lemma CauseTells(pol: Policy, l: Ledger, e: Event)
    requires pol.Ok() && LedgerOk(pol, l) && Legal(pol, l, e)
    ensures var o := Body(pol, l, Cause(e));
            Refusal(Cause(e)).None? && o.error.None? && |o.effects| == 1 && o.effects[0].event == e
                && o.ledger == Apply(pol, l, e)
  {
    if e.Granted? {
      assert GrantMany(pol, l, e.scope.user, [], e.at) == Outcome(l, [], None);
    } else if e.Revoked? {
      assert RevokeMany(l, e.scope.user, [], e.at) == Outcome(l, [], None);
    }
  }

  lemma CauseServed(pol: Policy, kind: TxKind, s: Service, e: Event)
    requires pol.Ok() && LedgerOk(pol, s.ledger) && Legal(pol, s.ledger, e)
    ensures var s' := Serve(pol, kind, s, Cause(e), TxEnv(true, true));
            s'.ledger == Apply(pol, s.ledger, e) && s'.trail == s.trail + [e]
  {
    CauseTells(pol, s.ledger, e);
    assert Events(Body(pol, s.ledger, Cause(e)).effects) == [e];
  }

  /** The legal trails are exactly the trails of runs: each is the trail of a run,
      under either kind of transaction. */
  lemma {:induction false} LegalTrailsHappen(pol: Policy, kind: TxKind, trail: seq<Event>)
    returns (calls: seq<(Op, TxEnv)>)
    requires pol.Ok() && LegalTrail(pol, trail)
    ensures ServeAll(pol, kind, START, calls).trail == trail
    ensures ServeAll(pol, kind, START, calls).ledger == Replay(pol, trail)
    decreases |trail|
  {
    calls := [];
    if trail != [] {
      var before, e := trail[..|trail| - 1], trail[|trail| - 1];
      var earlier := LegalTrailsHappen(pol, kind, before);
      RecordsKeep(pol, kind, earlier);
      CauseServed(pol, kind, ServeAll(pol, kind, START, earlier), e);
      calls := earlier + [(Cause(e), TxEnv(true, true))];
      assert calls[..|calls| - 1] == earlier;
      assert before + [e] == trail;
    }
  }

  // ----- the mutex transaction -----

  // The list holds a purpose that cannot be granted, and before the first such one a purpose that changes.
  predicate SplitGrant(pol: Policy, l: Ledger, user: UserId, ps: seq<Purpose>, now: Time) {
    exists j, k | 0 <= j < k < |ps| ::
      && (forall i | 0 <= i < k :: Grantable(pol, l, Scope(user, ps[i]), now))
      && !Grantable(pol, l, Scope(user, ps[k]), now)
      && Evaluated(pol, l, Scope(user, ps[j]), now).changed
  }

  lemma ChangedDiffers(pol: Policy, l: Ledger, sc: Scope, now: Time)
    requires pol.Ok() && LedgerOk(pol, l) && Grantable(pol, l, sc, now) && Evaluated(pol, l, sc, now).changed
    ensures Lookup(l, sc) != Some(Evaluated(pol, l, sc, now).updated)
  {
  }

  // A failing grant leaves the ledger changed exactly in the split case.
  lemma SplitGrantIff(pol: Policy, l: Ledger, user: UserId, ps: seq<Purpose>, now: Time)
    requires pol.Ok() && LedgerOk(pol, l) && GrantMany(pol, l, user, ps, now).error.Some?
    ensures GrantMany(pol, l, user, ps, now).ledger != l <==> SplitGrant(pol, l, user, ps, now)
  {
    var k := GrantFailsAt(pol, l, user, ps, now);
    var done := GrantMany(pol, l, user, ps[..k], now);
    if j :| 0 <= j < k && Evaluated(pol, l, Scope(user, ps[j]), now).changed {
      var sc := Scope(user, ps[j]);
      GrantManyAt(pol, l, user, ps[..k], now, sc);
      assert ps[..k][j] == ps[j];
      ChangedDiffers(pol, l, sc, now);
      assert done.ledger != l;
    } else {
      UnsplitUnchanged(pol, l, user, ps, now, k);
    }
  }

  lemma UnsplitUnchanged(pol: Policy, l: Ledger, user: UserId, ps: seq<Purpose>, now: Time, k: nat)
    requires pol.Ok() && k < |ps| && GrantMany(pol, l, user, ps[..k], now).error.None?
    requires forall j | 0 <= j < k :: Grantable(pol, l, Scope(user, ps[j]), now)
               && !Evaluated(pol, l, Scope(user, ps[j]), now).changed
    requires !Grantable(pol, l, Scope(user, ps[k]), now)
    ensures GrantMany(pol, l, user, ps[..k], now).ledger == l && !SplitGrant(pol, l, user, ps, now)
  {
    var done := GrantMany(pol, l, user, ps[..k], now);
    forall sc: Scope ensures Lookup(done.ledger, sc) == Lookup(l, sc) {
      GrantManyAt(pol, l, user, ps[..k], now, sc);
      if sc.user == user && sc.purpose in ps[..k] {
        var j :| 0 <= j < k && ps[j] == sc.purpose;
        assert sc == Scope(user, ps[j]);
        UnchangedEvaluation(pol, sc, Lookup(l, sc), now);
      }
    }
    SameLookups(done.ledger, l);
  }

  // The trail tells the ledger as it is.
  predicate Told(pol: Policy, s: Service) {
    s.ledger == Replay(pol, s.trail)
  }

  /** Under the mutex transaction a grant keeps the ledger and its trail together
      exactly when it is not split: a purpose that changes before one that fails
      stays changed, without an audit event. */
  lemma MutexGrantTold(pol: Policy, s: Service, user: UserId, ps: seq<Purpose>, now: Time, env: TxEnv)
    requires pol.Ok() && Faithful(pol, s) && Refusal(Grant(user, ps, now)).None? && env.begins
    ensures Told(pol, Serve(pol, Mutex, s, Grant(user, ps, now), env)) <==> !SplitGrant(pol, s.ledger, user, ps, now)
  {
    var op := Grant(user, ps, now);
    BodyTells(pol, s.ledger, op);
    if GrantMany(pol, s.ledger, user, ps, now).error.None? {
      FaithfulEffects(pol, s, Body(pol, s.ledger, op).effects);
      GrantManySucceeds(pol, s.ledger, user, ps, now);
      assert forall k | 0 <= k < |ps| :: ps[k] in ps;
    } else {
      SplitGrantIff(pol, s.ledger, user, ps, now);
    }
  }

  /** Every other operation keeps them together under the mutex transaction too. */
  lemma MutexOtherFaithful(pol: Policy, s: Service, op: Op, env: TxEnv)
    requires pol.Ok() && Faithful(pol, s) && !op.Grant?
    ensures Faithful(pol, Serve(pol, Mutex, s, op, env))
  {
    if Refusal(op).None? {
      BodyTells(pol, s.ledger, op);
      FaithfulEffects(pol, s, Body(pol, s.ledger, op).effects);
      if op.Revoke? {
        RevokeManyFails(s.ledger, op.user, op.purposes, op.now);
      }
    }
  }

  // The call is a grant that is split.
  predicate SplitCall(pol: Policy, s: Service, op: Op, env: TxEnv) {
    op.Grant? && Refusal(op).None? && env.begins && SplitGrant(pol, s.ledger, op.user, op.purposes, op.now)
  }

  predicate NoSplit(pol: Policy, calls: seq<(Op, TxEnv)>)
    decreases |calls|
  {
    calls == [] ||
    var before := calls[..|calls| - 1];
    var (op, env) := calls[|calls| - 1];
    NoSplit(pol, before) && !SplitCall(pol, ServeAll(pol, Mutex, START, before), op, env)
  }

  // A failing body that is not a split grant has no effects at all.
  lemma UnsplitSilent(pol: Policy, s: Service, op: Op, env: TxEnv)
    requires pol.Ok() && Faithful(pol, s) && Refusal(op).None? && env.begins && Body(pol, s.ledger, op).error.Some?
    requires !SplitCall(pol, s, op, env)
    ensures Body(pol, s.ledger, op).effects == []
  {
    if op.Revoke? {
      RevokeManyFails(s.ledger, op.user, op.purposes, op.now);
    } else {
      UnsplitGrantSilent(pol, s.ledger, op.user, op.purposes, op.now);
    }
  }

  lemma UnsplitGrantSilent(pol: Policy, l: Ledger, user: UserId, ps: seq<Purpose>, now: Time)
    requires pol.Ok() && GrantMany(pol, l, user, ps, now).error.Some? && !SplitGrant(pol, l, user, ps, now)
    ensures GrantMany(pol, l, user, ps, now).effects == []
  {
    var k := GrantFailsAt(pol, l, user, ps, now);
    var es := GrantMany(pol, l, user, ps[..k], now).effects;
    if es != [] {
      GrantManyEffects(pol, l, user, ps[..k], now, es[0]);
    }
  }

  /** Over every run with the mutex transaction in which no call was a split
      grant, the audit trail tells the ledger and the gauge is right. */
  lemma {:induction false} MutexRunFaithful(pol: Policy, calls: seq<(Op, TxEnv)>)
    requires pol.Ok() && NoSplit(pol, calls)
    ensures Faithful(pol, ServeAll(pol, Mutex, START, calls))
    ensures ServeAll(pol, Mutex, START, calls) == ObserveAll(pol, Mutex, START, calls)
    decreases |calls|
  {
    StartFaithful(pol);
    if calls != [] {
      var before := calls[..|calls| - 1];
      var (op, env) := calls[|calls| - 1];
      var s := ServeAll(pol, Mutex, START, before);
      MutexRunFaithful(pol, before);
      ObserveFaithful(pol, Mutex, s, op, env);
      UnsplitObserved(pol, s, op, env);
    }
  }

  lemma UnsplitObserved(pol: Policy, s: Service, op: Op, env: TxEnv)
    requires pol.Ok() && Faithful(pol, s) && !SplitCall(pol, s, op, env)
    ensures Serve(pol, Mutex, s, op, env) == Observe(pol, Mutex, s, op, env)
  {
    var o := Body(pol, s.ledger, op);
    if Refusal(op).None? && env.begins && o.error.Some? {
      UnsplitSilent(pol, s, op, env);
      assert s.trail + Events(o.effects) == s.trail;
    }
  }

  lemma GrantedOnce(pol: Policy, env: TxEnv, s: Service)
    requires pol.Ok() && env == TxEnv(true, true) && s == Serve(pol, Mutex, START, Grant(1, [Login], 1), env)
    ensures Faithful(pol, s) && s.ledger == Apply(pol, map[], Granted(Scope(1, Login), 1))
  {
    var e := Granted(Scope(1, Login), 1);
    CauseServed(pol, Mutex, START, e);
    CauseTells(pol, START.ledger, e);
    StartFaithful(pol);
    ObserveFaithful(pol, Rollback, START, Cause(e), env);
  }

  lemma GrantedThenRevoked(pol: Policy, env: TxEnv, s1: Service, s2: Service)
    requires pol.Ok() && env == TxEnv(true, true) && s1 == Serve(pol, Mutex, START, Grant(1, [Login], 1), env)
    requires s2 == Serve(pol, Mutex, s1, Revoke(1, [Login], 1), env)
    ensures Faithful(pol, s2)
    ensures s2.ledger == map[Scope(1, Login) := Record(Scope(1, Login), 1, Some(1 + pol.ttl), Some(1))]
  {
    GrantedOnce(pol, env, s1);
    MutexOtherFaithful(pol, s1, Revoke(1, [Login], 1), env);
    CauseServed(pol, Mutex, s1, Revoked(Scope(1, Login), 1));
  }

  /** A concrete split: a revoked purpose listed after a new one. */
  lemma MutexSplitHappens(pol: Policy)
    requires pol.Ok()
    ensures var env := TxEnv(true, true);
            var s := ServeAll(pol, Mutex, START, [(Grant(1, [Login], 1), env), (Revoke(1, [Login], 1), env)]);
            Told(pol, s) && !Told(pol, Serve(pol, Mutex, s, Grant(1, [RegistryCheck, Login], 1), env))
  {
    var env := TxEnv(true, true);
    var calls := [(Grant(1, [Login], 1), env), (Revoke(1, [Login], 1), env)];
    var s1 := Serve(pol, Mutex, START, Grant(1, [Login], 1), env);
    var s2 := Serve(pol, Mutex, s1, Revoke(1, [Login], 1), env);
    assert calls[..1][..0] == [] && calls[..1][0] == calls[0];
    assert ServeAll(pol, Mutex, START, calls[..1]) == s1;
    GrantedThenRevoked(pol, env, s1, s2);
    SplitAfterRevocation(pol, s2.ledger);
    MutexGrantTold(pol, s2, 1, [RegistryCheck, Login], 1, env);
  }

  lemma SplitAfterRevocation(pol: Policy, l: Ledger)
    requires pol.Ok() && l == map[Scope(1, Login) := Record(Scope(1, Login), 1, Some(1 + pol.ttl), Some(1))]
    ensures SplitGrant(pol, l, 1, [RegistryCheck, Login], 1)
  {
    var ps := [RegistryCheck, Login];
    assert Grantable(pol, l, Scope(1, ps[0]), 1) && Evaluated(pol, l, Scope(1, ps[0]), 1).changed;
    assert !Grantable(pol, l, Scope(1, ps[1]), 1);
  }
}
