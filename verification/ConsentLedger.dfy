/** What the consent operations do to the ledger, one scope at a time and for a
    list of purposes, as the body of one transaction. */
module ConsentLedger {
  import opened Common
  import opened ConsentRules

  type Ledger = map<Scope, Record>

  // The audit events of the service; a bulk revocation does not say which purposes it hit.
  datatype Event =
    | Granted(scope: Scope, at: Time)
    | Revoked(scope: Scope, at: Time)
    | RevokedAll(user: UserId, at: Time)
    | Deleted(user: UserId, at: Time)

  // What an operation does after its transaction: one audit event and a change of the active-consents gauge.
  datatype Effect = Effect(event: Event, gauge: int)

  // How far the body of a transaction came: the ledger it left, the effects
  // it collected, and the error that stopped it.
  datatype Outcome = Outcome(ledger: Ledger, effects: seq<Effect>, error: Option<ConsentError>)

  function Lookup(l: Ledger, sc: Scope): Option<Record> {
    if sc in l then Some(l[sc]) else None
  }

  // ----- granting -----

  // upsertGrantTx without interference: create a missing record, evaluate an existing one.
  function GrantOne(pol: Policy, sc: Scope, cur: Option<Record>, now: Time): Result<GrantEvaluation, ConsentError> {
    match cur
    case Some(r) => r.EvaluateGrant(now, pol)
    case None =>
      match NewRecord(sc, now, Some(now + pol.ttl))
      case Failure(e) => Failure(Internal)
      case Success(r) => Success(GrantEvaluation(r, true, false))
  }

  function GrantEffect(sc: Scope, now: Time, wasActive: bool): Effect {
    Effect(Granted(sc, now), if wasActive then 0 else 1)
  }

  function GrantStep(pol: Policy, o: Outcome, sc: Scope, now: Time): Outcome {
    if o.error.Some? then o
    else
      match GrantOne(pol, sc, Lookup(o.ledger, sc), now)
      case Failure(e) => o.(error := Some(e))
      case Success(g) =>
        if !g.changed then o
        else Outcome(o.ledger[sc := g.updated], o.effects + [GrantEffect(sc, now, g.wasActive)], None)
  }

  function GrantMany(pol: Policy, l: Ledger, user: UserId, ps: seq<Purpose>, now: Time): Outcome
    decreases |ps|
  {
    if ps == [] then Outcome(l, [], None)
    else GrantStep(pol, GrantMany(pol, l, user, ps[..|ps| - 1], now), Scope(user, ps[|ps| - 1]), now)
  }

  // ----- revoking -----

  // tryRevokeScopeTx: a missing or no longer active record is skipped.
  function RevokeOne(cur: Option<Record>, now: Time): Result<Option<Record>, ConsentError> {
    if cur.None? || !cur.value.CanRevoke(now) then Success(None)
    else
      match cur.value.RevokeAt(now)
      case Failure(e) => Failure(e)
      case Success(r) => Success(Some(r))
  }

  function RevokeStep(o: Outcome, sc: Scope, now: Time): Outcome {
    if o.error.Some? then o
    else
      match RevokeOne(Lookup(o.ledger, sc), now)
      case Failure(e) => o.(error := Some(e))
      case Success(None) => o
      case Success(Some(r)) => Outcome(o.ledger[sc := r], o.effects + [Effect(Revoked(sc, now), -1)], None)
  }

  function RevokeMany(l: Ledger, user: UserId, ps: seq<Purpose>, now: Time): Outcome
    decreases |ps|
  {
    if ps == [] then Outcome(l, [], None)
    else RevokeStep(RevokeMany(l, user, ps[..|ps| - 1], now), Scope(user, ps[|ps| - 1]), now)
  }

  // RevokeAllByUser, which does not go through RevokeAt.
  predicate Revocable(l: Ledger, sc: Scope, user: UserId, now: Time) {
    sc in l && sc.user == user && l[sc].CanRevoke(now)
  }

  function RevokeAllOf(l: Ledger, user: UserId, now: Time): Ledger {
    map sc | sc in l :: if Revocable(l, sc, user, now) then l[sc].(revokedAt := Some(now)) else l[sc]
  }

  function RevocableScopes(l: Ledger, user: UserId, now: Time): set<Scope> {
    set sc | sc in l && Revocable(l, sc, user, now)
  }

  function DeleteAllOf(l: Ledger, user: UserId): Ledger {
    map sc | sc in l && sc.user != user :: l[sc]
  }

  // ----- a grant of several purposes -----

  predicate Grantable(pol: Policy, l: Ledger, sc: Scope, now: Time) {
    GrantOne(pol, sc, Lookup(l, sc), now).Success?
  }

  function Evaluated(pol: Policy, l: Ledger, sc: Scope, now: Time): GrantEvaluation
    requires Grantable(pol, l, sc, now)
  {
    GrantOne(pol, sc, Lookup(l, sc), now).value
  }

  // Granting again at the same time changes nothing.
  lemma GrantIdempotent(pol: Policy, sc: Scope, cur: Option<Record>, now: Time)
    requires pol.Ok() && GrantOne(pol, sc, cur, now).Success?
    ensures var r := GrantOne(pol, sc, cur, now).value.updated;
            GrantOne(pol, sc, Some(r), now) == Success(GrantEvaluation(r, false, true))
  {
  }

  // What a successful grant leaves at one scope.
  predicate GrantedAt(pol: Policy, l: Ledger, l': Ledger, user: UserId, ps: seq<Purpose>, now: Time, sc: Scope) {
    if sc.user == user && sc.purpose in ps
    then Grantable(pol, l, sc, now) && Lookup(l', sc) == Some(Evaluated(pol, l, sc, now).updated)
    else Lookup(l', sc) == Lookup(l, sc)
  }

  lemma SplitLast(ps: seq<Purpose>, p: Purpose)
    requires ps != []
    ensures p in ps <==> p in ps[..|ps| - 1] || p == ps[|ps| - 1]
  {
    assert ps == ps[..|ps| - 1] + [ps[|ps| - 1]];
  }

  // An unchanged evaluation is that of the record that is there.
  lemma UnchangedEvaluation(pol: Policy, sc: Scope, cur: Option<Record>, now: Time)
    requires GrantOne(pol, sc, cur, now).Success? && !GrantOne(pol, sc, cur, now).value.changed
    ensures cur == Some(GrantOne(pol, sc, cur, now).value.updated)
  {
  }

  lemma {:induction false} GrantManyAt(pol: Policy, l: Ledger, user: UserId, ps: seq<Purpose>, now: Time, sc: Scope)
    requires pol.Ok() && GrantMany(pol, l, user, ps, now).error.None?
    ensures GrantedAt(pol, l, GrantMany(pol, l, user, ps, now).ledger, user, ps, now, sc)
    decreases |ps|
  {
    if ps != [] {
      var init, last := ps[..|ps| - 1], Scope(user, ps[|ps| - 1]);
      var l1 := GrantMany(pol, l, user, init, now).ledger;
      GrantManyAt(pol, l, user, init, now, sc);
      SplitLast(ps, sc.purpose);
      if sc == last {
        if last.purpose in init {
          GrantIdempotent(pol, sc, Lookup(l, sc), now);
        } else if !GrantOne(pol, sc, Lookup(l1, sc), now).value.changed {
          UnchangedEvaluation(pol, sc, Lookup(l1, sc), now);
        }
      }
    }
  }

  // The effects of a grant: one for every purpose that changes, and none twice.
  predicate GrantEffectOf(pol: Policy, l: Ledger, user: UserId, ps: seq<Purpose>, now: Time, e: Effect) {
    && e.event.Granted? && e.event.at == now && e.event.scope.user == user && e.event.scope.purpose in ps
    && Grantable(pol, l, e.event.scope, now)
    && Evaluated(pol, l, e.event.scope, now).changed
    && e == GrantEffect(e.event.scope, now, Evaluated(pol, l, e.event.scope, now).wasActive)
  }

  lemma {:induction false} GrantManyEffects(pol: Policy, l: Ledger, user: UserId, ps: seq<Purpose>, now: Time,
                                            e: Effect)
    requires pol.Ok() && GrantMany(pol, l, user, ps, now).error.None?
    ensures multiset(GrantMany(pol, l, user, ps, now).effects)[e] == if GrantEffectOf(pol, l, user, ps, now, e) then 1
              else 0
    decreases |ps|
  {
    if ps == [] {
      assert multiset(GrantMany(pol, l, user, ps, now).effects) == multiset{};
    } else {
      var init, last := ps[..|ps| - 1], Scope(user, ps[|ps| - 1]);
      var o1 := GrantMany(pol, l, user, init, now);
      GrantManyEffects(pol, l, user, init, now, e);
      GrantManyAt(pol, l, user, init, now, last);
      if e.event.Granted? {
        SplitLast(ps, e.event.scope.purpose);
      }
      if last.purpose in init {
        GrantIdempotent(pol, last, Lookup(l, last), now);
      }
    }
  }

  /** A grant of several purposes succeeds exactly when each of them would. */
  lemma {:induction false} GrantManySucceeds(pol: Policy, l: Ledger, user: UserId, ps: seq<Purpose>, now: Time)
    requires pol.Ok()
    ensures GrantMany(pol, l, user, ps, now).error.None? <==> forall p :: p in ps ==>
              Grantable(pol, l, Scope(user, p), now)
    decreases |ps|
  {
    if ps != [] {
      var init, last := ps[..|ps| - 1], Scope(user, ps[|ps| - 1]);
      GrantManySucceeds(pol, l, user, init, now);
      assert ps == init + [ps[|ps| - 1]];
      if GrantMany(pol, l, user, init, now).error.None? {
        GrantManyAt(pol, l, user, init, now, last);
        if last.purpose in init {
          GrantIdempotent(pol, last, Lookup(l, last), now);
        }
      }
    }
  }

  lemma SameLookups(l: Ledger, l': Ledger)
    requires forall sc: Scope :: Lookup(l, sc) == Lookup(l', sc)
    ensures l == l'
  {
    forall sc: Scope ensures sc in l <==> sc in l' {
      assert Lookup(l, sc) == Lookup(l', sc);
    }
    forall sc | sc in l ensures l[sc] == l'[sc] {
      assert Lookup(l, sc) == Lookup(l', sc);
    }
    assert l.Keys == l'.Keys;
  }

  /** Only the set of purposes matters: two lists with the same purposes, in any
      order and with any repetitions, succeed together, leave the same ledger
      and have the same effects, each once. */
  lemma GrantOrderIrrelevant(pol: Policy, l: Ledger, user: UserId, ps: seq<Purpose>, qs: seq<Purpose>, now: Time)
    requires pol.Ok() && forall p :: p in ps <==> p in qs
    ensures var a, b := GrantMany(pol, l, user, ps, now), GrantMany(pol, l, user, qs, now);
            && (a.error.None? <==> b.error.None?)
            && (a.error.None? ==> a.ledger == b.ledger && multiset(a.effects) == multiset(b.effects))
  {
    var a, b := GrantMany(pol, l, user, ps, now), GrantMany(pol, l, user, qs, now);
    GrantManySucceeds(pol, l, user, ps, now);
    GrantManySucceeds(pol, l, user, qs, now);
    if a.error.None? {
      forall sc: Scope ensures Lookup(a.ledger, sc) == Lookup(b.ledger, sc) {
        GrantManyAt(pol, l, user, ps, now, sc);
        GrantManyAt(pol, l, user, qs, now, sc);
      }
      SameLookups(a.ledger, b.ledger);
      forall e: Effect ensures multiset(a.effects)[e] == multiset(b.effects)[e] {
        GrantManyEffects(pol, l, user, ps, now, e);
        GrantManyEffects(pol, l, user, qs, now, e);
      }
    }
  }

  // Once stopped, an operation stays where it was stopped.
  lemma {:induction false} GrantStopped(pol: Policy, l: Ledger, user: UserId, ps: seq<Purpose>, k: nat, now: Time)
    requires k <= |ps| && GrantMany(pol, l, user, ps[..k], now).error.Some?
    ensures GrantMany(pol, l, user, ps, now) == GrantMany(pol, l, user, ps[..k], now)
    decreases |ps|
  {
    if k == |ps| {
      assert ps[..k] == ps;
    } else {
      assert ps[..|ps| - 1][..k] == ps[..k];
      GrantStopped(pol, l, user, ps[..|ps| - 1], k, now);
    }
  }

  /** A failing grant has applied exactly the purposes before the first one that
      cannot be granted. */
  lemma {:induction false} GrantFailsAt(pol: Policy, l: Ledger, user: UserId, ps: seq<Purpose>, now: Time)
    returns (k: nat)
    requires pol.Ok() && GrantMany(pol, l, user, ps, now).error.Some?
    ensures k < |ps|
    ensures !Grantable(pol, l, Scope(user, ps[k]), now)
    ensures forall j :: 0 <= j < k ==> Grantable(pol, l, Scope(user, ps[j]), now)
    ensures var done := GrantMany(pol, l, user, ps[..k], now);
            var first := GrantOne(pol, Scope(user, ps[k]), Lookup(l, Scope(user, ps[k])), now);
            done.error.None? && GrantMany(pol, l, user, ps, now) == done.(error := Some(first.error))
    decreases |ps|
  {
    var init, last := ps[..|ps| - 1], Scope(user, ps[|ps| - 1]);
    if GrantMany(pol, l, user, init, now).error.Some? {
      k := GrantFailsAt(pol, l, user, init, now);
      assert init[..k] == ps[..k];
      assert forall j :: 0 <= j < k ==> init[j] == ps[j];
    } else {
      k := |ps| - 1;
      GrantManySucceeds(pol, l, user, init, now);
      GrantManyAt(pol, l, user, init, now, last);
      if last.purpose in init {
        GrantIdempotent(pol, last, Lookup(l, last), now);
      }
      assert forall j :: 0 <= j < k ==> ps[j] in init by {
        forall j | 0 <= j < k ensures ps[j] in init { assert init[j] == ps[j]; }
      }
    }
  }

  // ----- bulk revocation against single ones -----

  // The revocable scopes among a list of purposes.
  function RevocableAmong(l: Ledger, user: UserId, ps: seq<Purpose>, now: Time): set<Scope> {
    set sc | sc in l && Revocable(l, sc, user, now) && sc.purpose in ps
  }

  predicate RevokedAt(l: Ledger, l': Ledger, user: UserId, ps: seq<Purpose>, now: Time, sc: Scope) {
    Lookup(l', sc) == if Revocable(l, sc, user, now) && sc.purpose in ps then Some(l[sc].(revokedAt := Some(now)))
        else Lookup(l, sc)
  }

  lemma {:induction false} RevokeManyAt(l: Ledger, user: UserId, ps: seq<Purpose>, now: Time, sc: Scope)
    requires RevokeMany(l, user, ps, now).error.None?
    ensures RevokedAt(l, RevokeMany(l, user, ps, now).ledger, user, ps, now, sc)
    decreases |ps|
  {
    if ps != [] {
      RevokeManyAt(l, user, ps[..|ps| - 1], now, sc);
      SplitLast(ps, sc.purpose);
    }
  }

  lemma {:induction false} RevokeManyCount(l: Ledger, user: UserId, ps: seq<Purpose>, now: Time)
    requires RevokeMany(l, user, ps, now).error.None?
    ensures |RevokeMany(l, user, ps, now).effects| == |RevocableAmong(l, user, ps, now)|
    decreases |ps|
  {
    if ps == [] {
      assert RevocableAmong(l, user, ps, now) == {};
    } else {
      var init, last := ps[..|ps| - 1], Scope(user, ps[|ps| - 1]);
      RevokeManyCount(l, user, init, now);
      RevokeManyAt(l, user, init, now, last);
      assert ps == init + [last.purpose];
      if Revocable(l, last, user, now) && last.purpose !in init {
        assert RevocableAmong(l, user, ps, now) == RevocableAmong(l, user, init, now) + {last};
      } else {
        assert RevocableAmong(l, user, ps, now) == RevocableAmong(l, user, init, now);
      }
    }
  }

  // Revoking one by one fails exactly when there is something to revoke and no time to revoke it at.
  lemma {:induction false} RevokeManyFails(l: Ledger, user: UserId, ps: seq<Purpose>, now: Time)
    ensures RevokeMany(l, user, ps, now).error.Some? <==> now == ZERO_TIME && RevocableAmong(l, user, ps, now) != {}
    ensures RevokeMany(l, user, ps, now).error.Some? ==>
              RevokeMany(l, user, ps, now).ledger == l && RevokeMany(l, user, ps, now).effects == []
    decreases |ps|
  {
    if ps != [] {
      var init, last := ps[..|ps| - 1], Scope(user, ps[|ps| - 1]);
      RevokeManyFails(l, user, init, now);
      assert ps == init + [last.purpose];
      assert RevocableAmong(l, user, ps, now) ==
             RevocableAmong(l, user, init, now) + (if Revocable(l, last, user, now) then {last} else {});
      if RevokeMany(l, user, init, now).error.None? {
        RevokeManyAt(l, user, init, now, last);
        if now == ZERO_TIME {
          NothingRevoked(l, user, init, now);
        }
      }
    }
  }

  lemma NothingRevoked(l: Ledger, user: UserId, ps: seq<Purpose>, now: Time)
    requires RevokeMany(l, user, ps, now).error.None? && RevocableAmong(l, user, ps, now) == {}
    ensures RevokeMany(l, user, ps, now) == Outcome(l, [], None)
  {
    RevokeManyCount(l, user, ps, now);
    forall sc: Scope ensures Lookup(RevokeMany(l, user, ps, now).ledger, sc) == Lookup(l, sc) {
      RevokeManyAt(l, user, ps, now, sc);
      assert sc !in RevocableAmong(l, user, ps, now);
    }
    SameLookups(RevokeMany(l, user, ps, now).ledger, l);
  }

  predicate Covers(l: Ledger, user: UserId, ps: seq<Purpose>) {
    forall sc :: sc in l && sc.user == user ==> sc.purpose in ps
  }

  /** Revoking all of a user's consents is the same as revoking them one by one,
      in any order, and counts what was active; except that at the zero time the
      single revocations refuse to run while the bulk one stores that time. */
  lemma BulkEqualsSingle(l: Ledger, user: UserId, ps: seq<Purpose>, now: Time)
    requires Covers(l, user, ps)
    ensures var one := RevokeMany(l, user, ps, now);
            && (one.error.None? <==> now != ZERO_TIME || RevocableScopes(l, user, now) == {})
            && (one.error.None? ==>
                  one.ledger == RevokeAllOf(l, user, now) && |one.effects| == |RevocableScopes(l, user, now)|)
  {
    assert RevocableAmong(l, user, ps, now) == RevocableScopes(l, user, now);
    RevokeManyFails(l, user, ps, now);
    if RevokeMany(l, user, ps, now).error.None? {
      RevokeManyCount(l, user, ps, now);
      forall sc: Scope ensures Lookup(RevokeMany(l, user, ps, now).ledger, sc) ==
          Lookup(RevokeAllOf(l, user, now), sc) {
        RevokeManyAt(l, user, ps, now, sc);
      }
      SameLookups(RevokeMany(l, user, ps, now).ledger, RevokeAllOf(l, user, now));
    }
  }

  /** Nobody else is touched, and doing it again at the same time finds nothing. */
  lemma BulkRevokeOnce(l: Ledger, user: UserId, now: Time, sc: Scope)
    ensures sc.user != user ==> Lookup(RevokeAllOf(l, user, now), sc) == Lookup(l, sc)
    ensures RevocableScopes(RevokeAllOf(l, user, now), user, now) == {}
    ensures RevokeAllOf(RevokeAllOf(l, user, now), user, now) == RevokeAllOf(l, user, now)
  {
    var l' := RevokeAllOf(l, user, now);
    forall x | x in l' ensures !Revocable(l', x, user, now) {
      assert x in l;
    }
  }
}
