/** Whole runs of the consent service: the ledger against its audit trail, the
    re-grant cooldown, and what the active-consents gauge counts. */
module ConsentHistory {
  import opened Common
  import opened ConsentRules
  import opened ConsentLedger

  // ----- the service as a machine over ledger, trail and gauge -----

  datatype Op =
    | Grant(user: UserId, purposes: seq<Purpose>, now: Time)
    | Revoke(user: UserId, purposes: seq<Purpose>, now: Time)
    | RevokeAll(user: UserId, now: Time)
    | DeleteAll(user: UserId, now: Time)

  // The in-memory transaction is a mutex; the SQL transaction rolls back when its body or its commit fails.
  datatype TxKind = Mutex | Rollback

  // What a transaction meets: it may not begin, and a SQL commit may fail.
  datatype TxEnv = TxEnv(begins: bool, commits: bool)

  datatype Service = Service(ledger: Ledger, trail: seq<Event>, gauge: int)

  predicate AllValid(ps: seq<Purpose>) {
    forall i | 0 <= i < |ps| :: ps[i].IsValid()
  }

  // What is refused before a transaction is opened.
  function Refusal(op: Op): Option<ConsentError> {
    match op
    case Grant(u, ps, _) =>
      if u == NIL_USER then Some(Unauthorized) else if ps == [] || !AllValid(ps) then Some(BadRequest) else None
    case Revoke(u, ps, _) => if u == NIL_USER then Some(Unauthorized) else if !AllValid(ps) then Some(BadRequest)
      else None
    case RevokeAll(u, _) => if u == NIL_USER then Some(BadRequest) else None
    case DeleteAll(u, _) => if u == NIL_USER then Some(BadRequest) else None
  }

  function RevokeAllEffects(l: Ledger, u: UserId, now: Time): seq<Effect> {
    if RevocableScopes(l, u, now) == {} then [] else [Effect(RevokedAll(u, now), -|RevocableScopes(l, u, now)|)]
  }

  // The body of the transaction.
  function Body(pol: Policy, l: Ledger, op: Op): Outcome {
    match op
    case Grant(u, ps, now) => GrantMany(pol, l, u, ps, now)
    case Revoke(u, ps, now) => RevokeMany(l, u, ps, now)
    case RevokeAll(u, now) => Outcome(RevokeAllOf(l, u, now), RevokeAllEffects(l, u, now), None)
    case DeleteAll(u, now) => Outcome(DeleteAllOf(l, u), [Effect(Deleted(u, now), 0)], None)
  }

  function Events(es: seq<Effect>): seq<Event> {
    seq(|es|, i requires 0 <= i < |es| => es[i].event)
  }

  function GaugeChange(es: seq<Effect>): int
    decreases |es|
  {
    if es == [] then 0 else GaugeChange(es[..|es| - 1]) + es[|es| - 1].gauge
  }

  // Audit events and gauge follow only a transaction that went through.
  function Serve(pol: Policy, kind: TxKind, s: Service, op: Op, env: TxEnv): Service {
    if Refusal(op).Some? || !env.begins then s
    else
      var o := Body(pol, s.ledger, op);
      if o.error.Some? then s.(ledger := if kind.Rollback? then s.ledger else o.ledger)
      else if kind.Rollback? && !env.commits then s
      else Service(o.ledger, s.trail + Events(o.effects), s.gauge + GaugeChange(o.effects))
  }

  function ServeAll(pol: Policy, kind: TxKind, s: Service, calls: seq<(Op, TxEnv)>): Service
    decreases |calls|
  {
    if calls == [] then s
    else Serve(pol, kind, ServeAll(pol, kind, s, calls[..|calls| - 1]), calls[|calls| - 1].0, calls[|calls| - 1].1)
  }

  const START := Service(map[], [], 0)

  // ----- what the trail says -----

  function Apply(pol: Policy, l: Ledger, e: Event): Ledger {
    match e
    case Granted(sc, t) => l[sc := Record(sc, t, Some(t + pol.ttl), None)]
    case Revoked(sc, t) => if sc in l then l[sc := l[sc].(revokedAt := Some(t))] else l
    case RevokedAll(u, t) => RevokeAllOf(l, u, t)
    case Deleted(u, t) => DeleteAllOf(l, u)
  }

  function Replay(pol: Policy, trail: seq<Event>): Ledger
    decreases |trail|
  {
    if trail == [] then map[] else Apply(pol, Replay(pol, trail[..|trail| - 1]), trail[|trail| - 1])
  }

  // The events the rules allow next.
  predicate Legal(pol: Policy, l: Ledger, e: Event) {
    match e
    case Granted(sc, t) =>
      && sc.IsValid() && t != ZERO_TIME
      && (sc in l && l[sc].revokedAt.Some? ==> t >= l[sc].revokedAt.value + pol.cooldown)
      && (sc in l && l[sc].revokedAt.None? ==> t > l[sc].grantedAt + pol.ttl || t >= l[sc].grantedAt + pol.window)
    case Revoked(sc, t) => sc.IsValid() && t != ZERO_TIME && sc in l && l[sc].revokedAt.None?
      && t <= l[sc].grantedAt + pol.ttl
    case RevokedAll(u, t) => u != NIL_USER && RevocableScopes(l, u, t) != {}
    case Deleted(u, t) => u != NIL_USER
  }

  // Every event was legal when it was appended.
  predicate LegalTrail(pol: Policy, trail: seq<Event>)
    decreases |trail|
  {
    trail == [] ||
    var before := trail[..|trail| - 1];
    LegalTrail(pol, before) && Legal(pol, Replay(pol, before), trail[|trail| - 1])
  }

  // ----- what every record keeps -----

  predicate RecordOk(pol: Policy, sc: Scope, r: Record) {
    && r.scope == sc && sc.IsValid()
    && r.grantedAt != ZERO_TIME
    && r.expiresAt == Some(r.grantedAt + pol.ttl)
    && (r.revokedAt.Some? ==> r.revokedAt.value <= r.grantedAt + pol.ttl)
  }

  predicate LedgerOk(pol: Policy, l: Ledger) {
    forall sc :: sc in l ==> RecordOk(pol, sc, l[sc])
  }

  lemma ApplyOk(pol: Policy, l: Ledger, e: Event)
    requires LedgerOk(pol, l) && Legal(pol, l, e)
    ensures LedgerOk(pol, Apply(pol, l, e))
  {
  }

  // ----- what the gauge should change by -----

  function Unrevoked(l: Ledger): set<Scope> {
    set sc | sc in l && l[sc].revokedAt.None?
  }

  function UnrevokedOf(l: Ledger, u: UserId): set<Scope> {
    set sc | sc in l && l[sc].revokedAt.None? && sc.user == u
  }

  predicate RenewsExpired(l: Ledger, e: Event) {
    e.Granted? && e.scope in l && l[e.scope].revokedAt.None? && !l[e.scope].IsActive(e.at)
  }

  // The gauge change the service makes along with an event.
  function GaugeOf(l: Ledger, e: Event): int {
    match e
    case Granted(sc, t) => if sc in l && l[sc].IsActive(t) then 0 else 1
    case Revoked(_, _) => -1
    case RevokedAll(u, t) => -|RevocableScopes(l, u, t)|
    case Deleted(_, _) => 0
  }

  // By how much the gauge moves away from the number of unrevoked records.
  function Drift(l: Ledger, e: Event): nat {
    if RenewsExpired(l, e) then 1 else if e.Deleted? then |UnrevokedOf(l, e.user)| else 0
  }

  lemma GaugeGranted(pol: Policy, l: Ledger, sc: Scope, t: Time)
    requires LedgerOk(pol, l)
    ensures var e := Granted(sc, t);
            |Unrevoked(l)| + GaugeOf(l, e) == |Unrevoked(Apply(pol, l, e))| + Drift(l, e)
  {
    assert Unrevoked(Apply(pol, l, Granted(sc, t))) == Unrevoked(l) + {sc};
    if sc in Unrevoked(l) {
      assert Unrevoked(l) + {sc} == Unrevoked(l);
    }
  }

  lemma GaugeRevoked(pol: Policy, l: Ledger, sc: Scope, t: Time)
    requires Legal(pol, l, Revoked(sc, t))
    ensures |Unrevoked(l)| - 1 == |Unrevoked(Apply(pol, l, Revoked(sc, t)))|
  {
    assert Unrevoked(l) == Unrevoked(Apply(pol, l, Revoked(sc, t))) + {sc};
  }

  lemma GaugeRevokedAll(pol: Policy, l: Ledger, u: UserId, t: Time)
    ensures |Unrevoked(l)| - |RevocableScopes(l, u, t)| == |Unrevoked(RevokeAllOf(l, u, t))|
  {
    assert Unrevoked(RevokeAllOf(l, u, t)) == Unrevoked(l) - RevocableScopes(l, u, t);
    assert RevocableScopes(l, u, t) <= Unrevoked(l);
  }

  lemma GaugeDeleted(l: Ledger, u: UserId)
    ensures |Unrevoked(l)| == |Unrevoked(DeleteAllOf(l, u))| + |UnrevokedOf(l, u)|
  {
    assert Unrevoked(DeleteAllOf(l, u)) == Unrevoked(l) - UnrevokedOf(l, u);
    assert UnrevokedOf(l, u) <= Unrevoked(l);
  }

  lemma GaugeEvent(pol: Policy, l: Ledger, e: Event)
    requires LedgerOk(pol, l) && Legal(pol, l, e)
    ensures |Unrevoked(l)| + GaugeOf(l, e) == |Unrevoked(Apply(pol, l, e))| + Drift(l, e)
  {
    match e
    case Granted(sc, t) => GaugeGranted(pol, l, sc, t);
    case Revoked(sc, t) => GaugeRevoked(pol, l, sc, t);
    case RevokedAll(u, t) => GaugeRevokedAll(pol, l, u, t);
    case Deleted(u, t) => GaugeDeleted(l, u);
  }

  // ----- an operation tells its effects -----

  function ApplyAll(pol: Policy, l: Ledger, es: seq<Effect>): Ledger
    decreases |es|
  {
    if es == [] then l else Apply(pol, ApplyAll(pol, l, es[..|es| - 1]), es[|es| - 1].event)
  }

  // Each effect is a legal event with the right gauge change, on top of the effects before it.
  predicate Tells(pol: Policy, l: Ledger, es: seq<Effect>)
    decreases |es|
  {
    es == [] ||
    var l1 := ApplyAll(pol, l, es[..|es| - 1]);
    && Tells(pol, l, es[..|es| - 1])
    && Legal(pol, l1, es[|es| - 1].event)
    && es[|es| - 1].gauge == GaugeOf(l1, es[|es| - 1].event)
  }

  lemma TellsOneMore(pol: Policy, l: Ledger, es: seq<Effect>, e: Effect)
    requires Tells(pol, l, es)
    requires Legal(pol, ApplyAll(pol, l, es), e.event) && e.gauge == GaugeOf(ApplyAll(pol, l, es), e.event)
    ensures Tells(pol, l, es + [e]) && ApplyAll(pol, l, es + [e]) == Apply(pol, ApplyAll(pol, l, es), e.event)
  {
    assert (es + [e])[..|es|] == es;
  }

  lemma {:induction false} ToldLedgerOk(pol: Policy, l: Ledger, es: seq<Effect>)
    requires LedgerOk(pol, l) && Tells(pol, l, es)
    ensures LedgerOk(pol, ApplyAll(pol, l, es))
    decreases |es|
  {
    if es != [] {
      ToldLedgerOk(pol, l, es[..|es| - 1]);
      ApplyOk(pol, ApplyAll(pol, l, es[..|es| - 1]), es[|es| - 1].event);
    }
  }

  // A changing grant is a legal event and does what the event says.
  lemma GrantTells(pol: Policy, l: Ledger, sc: Scope, now: Time)
    requires pol.Ok() && LedgerOk(pol, l) && sc.IsValid()
    requires Grantable(pol, l, sc, now) && Evaluated(pol, l, sc, now).changed
    ensures var e := GrantEffect(sc, now, Evaluated(pol, l, sc, now).wasActive);
            && Legal(pol, l, e.event) && e.gauge == GaugeOf(l, e.event)
            && Apply(pol, l, e.event) == l[sc := Evaluated(pol, l, sc, now).updated]
  {
  }

  lemma {:induction false} GrantManyTells(pol: Policy, l: Ledger, u: UserId, ps: seq<Purpose>, now: Time)
    requires pol.Ok() && LedgerOk(pol, l) && u != NIL_USER && AllValid(ps)
    ensures var o := GrantMany(pol, l, u, ps, now); Tells(pol, l, o.effects) && ApplyAll(pol, l, o.effects) == o.ledger
    decreases |ps|
  {
    if ps != [] {
      var o, sc := GrantMany(pol, l, u, ps[..|ps| - 1], now), Scope(u, ps[|ps| - 1]);
      GrantManyTells(pol, l, u, ps[..|ps| - 1], now);
      if o.error.None? && Grantable(pol, o.ledger, sc, now) && Evaluated(pol, o.ledger, sc, now).changed {
        ToldLedgerOk(pol, l, o.effects);
        GrantTells(pol, o.ledger, sc, now);
        TellsOneMore(pol, l, o.effects, GrantEffect(sc, now, Evaluated(pol, o.ledger, sc, now).wasActive));
      }
    }
  }

  lemma {:induction false} RevokeManyTells(pol: Policy, l: Ledger, u: UserId, ps: seq<Purpose>, now: Time)
    requires LedgerOk(pol, l) && u != NIL_USER && AllValid(ps)
    ensures var o := RevokeMany(l, u, ps, now); Tells(pol, l, o.effects) && ApplyAll(pol, l, o.effects) == o.ledger
    decreases |ps|
  {
    if ps != [] {
      var o, sc := RevokeMany(l, u, ps[..|ps| - 1], now), Scope(u, ps[|ps| - 1]);
      RevokeManyTells(pol, l, u, ps[..|ps| - 1], now);
      if o.error.None? && Revocable(o.ledger, sc, u, now) && now != ZERO_TIME {
        ToldLedgerOk(pol, l, o.effects);
        TellsOneMore(pol, l, o.effects, Effect(Revoked(sc, now), -1));
      }
    }
  }

  lemma RevokeAllTells(pol: Policy, l: Ledger, u: UserId, now: Time)
    requires u != NIL_USER
    ensures Tells(pol, l, RevokeAllEffects(l, u, now))
    ensures ApplyAll(pol, l, RevokeAllEffects(l, u, now)) == RevokeAllOf(l, u, now)
  {
    var es := RevokeAllEffects(l, u, now);
    if es == [] {
      forall sc | sc in l ensures !Revocable(l, sc, u, now) {
        assert sc !in RevocableScopes(l, u, now);
      }
      assert RevokeAllOf(l, u, now) == l;
    } else {
      TellsOneMore(pol, l, [], es[0]);
    }
  }

  // Also when it fails, the body has done exactly what its effects say.
  lemma BodyTells(pol: Policy, l: Ledger, op: Op)
    requires pol.Ok() && LedgerOk(pol, l) && Refusal(op).None?
    ensures var o := Body(pol, l, op); Tells(pol, l, o.effects) && ApplyAll(pol, l, o.effects) == o.ledger
  {
    match op
    case Grant(u, ps, now) => GrantManyTells(pol, l, u, ps, now);
    case Revoke(u, ps, now) => RevokeManyTells(pol, l, u, ps, now);
    case RevokeAll(u, now) => RevokeAllTells(pol, l, u, now);
    case DeleteAll(u, now) => TellsOneMore(pol, l, [], Effect(Deleted(u, now), 0));
  }

  // ----- the history refines the ledger -----

  // How often an expired consent was renewed, which counts it once more.
  function ExpiredRenewals(pol: Policy, trail: seq<Event>): nat
    decreases |trail|
  {
    if trail == [] then 0
    else
      var before := trail[..|trail| - 1];
      ExpiredRenewals(pol, before) + if RenewsExpired(Replay(pol, before), trail[|trail| - 1]) then 1 else 0
  }

  // How many unrevoked records were erased, which does not count them off.
  function Erased(pol: Policy, trail: seq<Event>): nat
    decreases |trail|
  {
    if trail == [] then 0
    else
      var before, e := trail[..|trail| - 1], trail[|trail| - 1];
      Erased(pol, before) + if e.Deleted? then |UnrevokedOf(Replay(pol, before), e.user)| else 0
  }

  predicate Faithful(pol: Policy, s: Service) {
    && s.ledger == Replay(pol, s.trail)
    && LegalTrail(pol, s.trail)
    && LedgerOk(pol, s.ledger)
    && s.gauge == |Unrevoked(s.ledger)| + ExpiredRenewals(pol, s.trail) + Erased(pol, s.trail)
  }

  lemma FaithfulEvent(pol: Policy, s: Service, e: Effect)
    requires Faithful(pol, s) && Legal(pol, s.ledger, e.event) && e.gauge == GaugeOf(s.ledger, e.event)
    ensures Faithful(pol, Service(Apply(pol, s.ledger, e.event), s.trail + [e.event], s.gauge + e.gauge))
  {
    var trail := s.trail + [e.event];
    assert trail[..|trail| - 1] == s.trail;
    ApplyOk(pol, s.ledger, e.event);
    GaugeEvent(pol, s.ledger, e.event);
  }

  lemma {:induction false} FaithfulEffects(pol: Policy, s: Service, es: seq<Effect>)
    requires Faithful(pol, s) && Tells(pol, s.ledger, es)
    ensures Faithful(pol, Service(ApplyAll(pol, s.ledger, es), s.trail + Events(es), s.gauge + GaugeChange(es)))
    decreases |es|
  {
    if es == [] {
      assert s.trail + Events(es) == s.trail;
    } else {
      var init, e := es[..|es| - 1], es[|es| - 1];
      FaithfulEffects(pol, s, init);
      assert s.trail + Events(es) == (s.trail + Events(init)) + [e.event];
      var s1 := Service(ApplyAll(pol, s.ledger, init), s.trail + Events(init), s.gauge + GaugeChange(init));
      FaithfulEvent(pol, s1, e);
    }
  }

  // ----- every change, audited or not -----

  // The service as an observer sees it who notes every change that stays in the
  // ledger: also those of a grant that fails under the mutex, which nobody audits.
  function Observe(pol: Policy, kind: TxKind, s: Service, op: Op, env: TxEnv): Service {
    var o := Body(pol, s.ledger, op);
    if Refusal(op).Some? || !env.begins || (kind.Rollback? && (o.error.Some? || !env.commits)) then s
    else Service(o.ledger, s.trail + Events(o.effects), s.gauge + GaugeChange(o.effects))
  }

  function ObserveAll(pol: Policy, kind: TxKind, s: Service, calls: seq<(Op, TxEnv)>): Service
    decreases |calls|
  {
    if calls == [] then s
    else Observe(pol, kind, ObserveAll(pol, kind, s, calls[..|calls| - 1]), calls[|calls| - 1].0, calls[|calls| - 1].1)
  }

  // The state-changing events of a run from the start.
  function ChangesOf(pol: Policy, kind: TxKind, calls: seq<(Op, TxEnv)>): seq<Event> {
    ObserveAll(pol, kind, START, calls).trail
  }

  lemma ObserveFaithful(pol: Policy, kind: TxKind, s: Service, op: Op, env: TxEnv)
    requires pol.Ok() && Faithful(pol, s)
    ensures Faithful(pol, Observe(pol, kind, s, op, env))
  {
    if Refusal(op).None? {
      BodyTells(pol, s.ledger, op);
      FaithfulEffects(pol, s, Body(pol, s.ledger, op).effects);
    }
  }

  lemma {:induction false} ObservedFaithful(pol: Policy, kind: TxKind, s: Service, calls: seq<(Op, TxEnv)>)
    requires pol.Ok() && Faithful(pol, s)
    ensures Faithful(pol, ObserveAll(pol, kind, s, calls))
    decreases |calls|
  {
    if calls != [] {
      ObservedFaithful(pol, kind, s, calls[..|calls| - 1]);
      ObserveFaithful(pol, kind, ObserveAll(pol, kind, s, calls[..|calls| - 1]), calls[|calls| - 1].0,
          calls[|calls| - 1].1);
    }
  }

  // The observer sees the ledger as it is.
  lemma {:induction false} ObservedLedger(pol: Policy, kind: TxKind, s: Service, calls: seq<(Op, TxEnv)>)
    ensures ObserveAll(pol, kind, s, calls).ledger == ServeAll(pol, kind, s, calls).ledger
    decreases |calls|
  {
    if calls != [] {
      ObservedLedger(pol, kind, s, calls[..|calls| - 1]);
    }
  }

  // With rolled-back transactions every change is audited.
  lemma {:induction false} ObservedIsServed(pol: Policy, s: Service, calls: seq<(Op, TxEnv)>)
    ensures ObserveAll(pol, Rollback, s, calls) == ServeAll(pol, Rollback, s, calls)
    decreases |calls|
  {
    if calls != [] {
      ObservedIsServed(pol, s, calls[..|calls| - 1]);
    }
  }

  lemma StartFaithful(pol: Policy)
    ensures Faithful(pol, START)
  {
    assert Unrevoked(map[]) == {};
  }

  /** Over every run with either kind of transaction, whatever the calls, their
      times and their failures: the ledger is the replay of its state-changing
      events, and each of them was legal when it happened. */
  lemma ChangesTellLedger(pol: Policy, kind: TxKind, calls: seq<(Op, TxEnv)>)
    requires pol.Ok()
    ensures var l, changes := ServeAll(pol, kind, START, calls).ledger, ChangesOf(pol, kind, calls);
            l == Replay(pol, changes) && LegalTrail(pol, changes) && LedgerOk(pol, l)
  {
    StartFaithful(pol);
    ObservedFaithful(pol, kind, START, calls);
    ObservedLedger(pol, kind, START, calls);
  }

  /** Over every run with rolled-back transactions the events are the audit
      trail, and the gauge counts the unrevoked records, each renewal of an
      expired one once more, and the unrevoked ones that were erased. */
  lemma TrailTellsLedger(pol: Policy, calls: seq<(Op, TxEnv)>)
    requires pol.Ok()
    ensures var s := ServeAll(pol, Rollback, START, calls);
            && s.trail == ChangesOf(pol, Rollback, calls)
            && s.ledger == Replay(pol, s.trail)
            && LegalTrail(pol, s.trail)
            && LedgerOk(pol, s.ledger)
            && s.gauge == |Unrevoked(s.ledger)| + ExpiredRenewals(pol, s.trail) + Erased(pol, s.trail)
  {
    StartFaithful(pol);
    ObservedFaithful(pol, Rollback, START, calls);
    ObservedIsServed(pol, START, calls);
  }

  // ----- what goes unaudited under the mutex -----

  // The gauge changes of failed grants whose changes stay.
  function Missed(pol: Policy, kind: TxKind, s: Service, calls: seq<(Op, TxEnv)>): int
    decreases |calls|
  {
    if calls == [] then 0
    else
      var before := calls[..|calls| - 1];
      var (op, env) := calls[|calls| - 1];
      var o := Body(pol, ServeAll(pol, kind, s, before).ledger, op);
      Missed(pol, kind, s, before) +
      if kind.Mutex? && Refusal(op).None? && env.begins && o.error.Some? then GaugeChange(o.effects) else 0
  }

  lemma {:induction false} ObservedGauge(pol: Policy, kind: TxKind, s: Service, calls: seq<(Op, TxEnv)>)
    ensures ObserveAll(pol, kind, s, calls).gauge == ServeAll(pol, kind, s, calls).gauge + Missed(pol, kind, s, calls)
    decreases |calls|
  {
    if calls != [] {
      ObservedGauge(pol, kind, s, calls[..|calls| - 1]);
      ObservedLedger(pol, kind, s, calls[..|calls| - 1]);
    }
  }

  /** Over every run with either kind of transaction, the gauge and what failed
      grants left uncounted make up the unrevoked records, the renewals of
      expired ones and the unrevoked ones erased. */
  lemma GaugeMisses(pol: Policy, kind: TxKind, calls: seq<(Op, TxEnv)>)
    requires pol.Ok()
    ensures var s, changes := ServeAll(pol, kind, START, calls), ChangesOf(pol, kind, calls);
            s.gauge + Missed(pol, kind, START, calls) ==
              |Unrevoked(s.ledger)| + ExpiredRenewals(pol, changes) + Erased(pol, changes)
  {
    StartFaithful(pol);
    ObservedFaithful(pol, kind, START, calls);
    ObservedLedger(pol, kind, START, calls);
    ObservedGauge(pol, kind, START, calls);
  }
}
