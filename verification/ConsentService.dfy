/** The consent service (internal/consent/service): operations on the shared
    store inside a transaction, then audit events and the gauge. */
module ConsentService {
  import opened Common
  import opened ConsentRules
  import opened ConsentLedger
  import opened ConsentHistory
  import opened ConsentTheorems
  import opened ConsentStore

  // ----- the retry loop of a grant, with other transactions writing the same scope -----

  datatype Rival = Nothing | Puts(record: Record) | Removes

  // The record of the scope as the next store call sees it.
  function Seen(cur: Option<Record>, x: Rival): Option<Record> {
    match x
    case Nothing => cur
    case Puts(r) => Some(r)
    case Removes => None
  }

  // What an upsert leaves in the store and answers.
  datatype Upsert = Upsert(stored: Option<Record>, answer: Result<GrantEvaluation, ConsentError>)

  // One write on top of the record as it stands.
  function Write(cur: Option<Record>, answer: Result<GrantEvaluation, ConsentError>): Upsert {
    Upsert(if answer.Success? && answer.value.changed then Some(answer.value.updated) else cur, answer)
  }

  datatype Tried = Finished(upsert: Upsert) | Again(cur: Option<Record>)

  // One attempt makes two store calls: Execute, and when the record is missing, Save.
  function Try(pol: Policy, sc: Scope, cur: Option<Record>, now: Time, rival: (Rival, Rival)): Tried {
    var atExecute := Seen(cur, rival.0);
    if atExecute.Some? || GrantOne(pol, sc, None, now).Failure?
        then Finished(Write(atExecute, GrantOne(pol, sc, atExecute, now)))
    else
      var atSave := Seen(None, rival.1);
      if atSave.None? then Finished(Write(None, GrantOne(pol, sc, None, now))) else Again(atSave)
  }

  function Attempts(pol: Policy, sc: Scope, cur: Option<Record>, now: Time, rivals: seq<(Rival, Rival)>): Upsert
    decreases |rivals|
  {
    if rivals == [] then Upsert(cur, Failure(Conflict))
    else
      match Try(pol, sc, cur, now, rivals[0])
      case Finished(u) => u
      case Again(cur') => Attempts(pol, sc, cur', now, rivals[1..])
  }

  // The record of the scope at the last store call the attempts make.
  function LastSeen(pol: Policy, sc: Scope, cur: Option<Record>, now: Time, rivals: seq<(Rival, Rival)>): Option<Record>
    decreases |rivals|
  {
    if rivals == [] then cur
    else
      var atExecute := Seen(cur, rivals[0].0);
      if atExecute.Some? || GrantOne(pol, sc, None, now).Failure? then atExecute
      else
        var atSave := Seen(None, rivals[0].1);
        if atSave.None? then None else LastSeen(pol, sc, atSave, now, rivals[1..])
  }

  /** Whatever the rivals do, an upsert that does not give up acts as one atomic
      grant on the record as it stands at its last store call, and one that
      gives up leaves that record as it is. */
  lemma {:induction false} UpsertIsAtomic(pol: Policy, sc: Scope, cur: Option<Record>, now: Time,
                                          rivals: seq<(Rival, Rival)>)
    ensures var u, last := Attempts(pol, sc, cur, now, rivals), LastSeen(pol, sc, cur, now, rivals);
            u == Write(last, GrantOne(pol, sc, last, now)) || u == Upsert(last, Failure(Conflict))
    decreases |rivals|
  {
    if rivals != [] && Try(pol, sc, cur, now, rivals[0]).Again? {
      UpsertIsAtomic(pol, sc, Try(pol, sc, cur, now, rivals[0]).cur, now, rivals[1..]);
    }
  }

  /** Two attempts give up exactly when the record is missing, a rival inserts
      it, another removes it and a third inserts it again, each between two
      store calls; a rival that only inserts never makes a grant fail. */
  lemma ConflictIff(pol: Policy, sc: Scope, cur: Option<Record>, now: Time, r1: (Rival, Rival), r2: (Rival, Rival))
    requires sc.IsValid() && pol.Ok()
    ensures Attempts(pol, sc, cur, now, [r1, r2]).answer == Failure(Conflict) <==>
              now != ZERO_TIME && Seen(cur, r1.0).None? && r1.1.Puts? && r2.0.Removes? && r2.1.Puts?
  {
    var cur2 := Seen(None, r1.1);
    assert [r1, r2][1..] == [r2] && [r2][1..] == [];
    assert Attempts(pol, sc, cur2, now, [r2]).answer == Failure(Conflict) <==>
             now != ZERO_TIME && Seen(cur2, r2.0).None? && r2.1.Puts? by {
      assert Attempts(pol, sc, Seen(None, r2.1), now, []).answer == Failure(Conflict);
    }
  }

  const QUIET: seq<(Rival, Rival)> := [(Nothing, Nothing), (Nothing, Nothing)]

  lemma QuietUpsert(pol: Policy, sc: Scope, cur: Option<Record>, now: Time)
    ensures Attempts(pol, sc, cur, now, QUIET) == Write(cur, GrantOne(pol, sc, cur, now))
  {
  }

  // ----- the service -----

  // The callbacks a grant and a revocation pass to Execute.
  function DecideGrant(pol: Policy, now: Time, r: Record): Decision {
    match r.EvaluateGrant(now, pol)
    case Failure(e) => Refuse(e)
    case Success(g) => if g.changed then Put(g.updated) else Keep
  }

  function DecideRevoke(now: Time, r: Record): Decision {
    if !r.CanRevoke(now) then Keep
    else
      match r.RevokeAt(now)
      case Failure(e) => Refuse(e)
      case Success(updated) => Put(updated)
  }

  // The i-th record a grant returns is what its transaction leaves at the i-th purpose.
  ghost predicate Returns(l: Ledger, user: UserId, ps: seq<Purpose>, granted: seq<Record>) {
    |granted| == |ps| && forall i | 0 <= i < |ps| :: Lookup(l, Scope(user, ps[i])) == Some(granted[i])
  }

  lemma ReturnsStep(pol: Policy, l: Ledger, user: UserId, ps: seq<Purpose>, now: Time, i: nat, granted: seq<Record>,
                    r: Record)
    requires pol.Ok() && i < |ps| && GrantMany(pol, l, user, ps[..i + 1], now).error.None?
    requires GrantMany(pol, l, user, ps[..i], now).error.None?
    requires Returns(GrantMany(pol, l, user, ps[..i], now).ledger, user, ps[..i], granted)
    requires Lookup(GrantMany(pol, l, user, ps[..i + 1], now).ledger, Scope(user, ps[i])) == Some(r)
    ensures Returns(GrantMany(pol, l, user, ps[..i + 1], now).ledger, user, ps[..i + 1], granted + [r])
  {
    var l1, l2 := GrantMany(pol, l, user, ps[..i], now).ledger, GrantMany(pol, l, user, ps[..i + 1], now).ledger;
    forall j | 0 <= j < i ensures Lookup(l2, Scope(user, ps[j])) == Some(granted[j]) {
      assert ps[..i][j] == ps[j] && ps[..i + 1][j] == ps[j];
      GrantManyAt(pol, l, user, ps[..i], now, Scope(user, ps[j]));
      GrantManyAt(pol, l, user, ps[..i + 1], now, Scope(user, ps[j]));
    }
  }

  lemma WithLookup(l: Ledger, sc: Scope)
    ensures With(l, sc, Lookup(l, sc)) == l
  {
  }

  lemma WithTwice(l: Ledger, sc: Scope, a: Option<Record>, b: Option<Record>)
    ensures With(With(l, sc, a), sc, b) == With(l, sc, b)
    ensures Lookup(With(l, sc, a), sc) == a
  {
  }

  // The revoked records belong to the audit events, one by one, and are what the store now holds.
  ghost predicate RevokedRecords(l: Ledger, effects: seq<Effect>, revoked: seq<Record>) {
    && |revoked| == |effects|
    && forall i | 0 <= i < |revoked| ::
         && effects[i].event.Revoked? && Lookup(l, effects[i].event.scope) == Some(revoked[i])
         && revoked[i].revokedAt == Some(effects[i].event.at)
  }

  lemma RevokedRecordsStep(l: Ledger, effects: seq<Effect>, revoked: seq<Record>, sc: Scope, now: Time, r: Record)
    requires RevokedRecords(l, effects, revoked) && sc in l && l[sc].CanRevoke(now)
    requires r == l[sc].(revokedAt := Some(now))
    ensures RevokedRecords(l[sc := r], effects + [Effect(Revoked(sc, now), -1)], revoked + [r])
  {
  }

  // How a call ends: refused, aborted, stopped by its body, failed to commit, or done.
  function Verdict(pol: Policy, kind: TxKind, l: Ledger, op: Op, env: TxEnv): Option<ConsentError> {
    if Refusal(op).Some? then Refusal(op)
    else if !env.begins then Some(Aborted)
    else if Body(pol, l, op).error.Some? then Body(pol, l, op).error
    else if kind.Rollback? && !env.commits then Some(Aborted)
    else None
  }

  method ValidatePurposes(ps: seq<Purpose>) returns (ok: bool)
    ensures ok == AllValid(ps)
  {
    for i := 0 to |ps|
      invariant forall j | 0 <= j < i :: ps[j].IsValid()
    {
      if !ps[i].IsValid() {
        return false;
      }
    }
    ok := true;
  }

  lemma GrantManyStep(pol: Policy, l: Ledger, user: UserId, ps: seq<Purpose>, i: nat, now: Time)
    requires i < |ps|
    ensures GrantMany(pol, l, user, ps[..i + 1], now) ==
              GrantStep(pol, GrantMany(pol, l, user, ps[..i], now), Scope(user, ps[i]), now)
  {
    assert ps[..i + 1][..i] == ps[..i];
  }

  lemma RevokeManyStep(l: Ledger, user: UserId, ps: seq<Purpose>, i: nat, now: Time)
    requires i < |ps|
    ensures RevokeMany(l, user, ps[..i + 1], now) ==
              RevokeStep(RevokeMany(l, user, ps[..i], now), Scope(user, ps[i]), now)
  {
    assert ps[..i + 1][..i] == ps[..i];
  }

  lemma {:induction false} RevokeStopped(l: Ledger, user: UserId, ps: seq<Purpose>, k: nat, now: Time)
    requires k <= |ps| && RevokeMany(l, user, ps[..k], now).error.Some?
    ensures RevokeMany(l, user, ps, now) == RevokeMany(l, user, ps[..k], now)
    decreases |ps|
  {
    if k == |ps| {
      assert ps[..k] == ps;
    } else {
      assert ps[..|ps| - 1][..k] == ps[..k];
      RevokeStopped(l, user, ps[..|ps| - 1], k, now);
    }
  }

  class ConsentService {
    const pol: Policy
    const kind: TxKind
    const store: InMemoryStore
    var trail: seq<Event>
    var gauge: int

    constructor (kind: TxKind, store: InMemoryStore, ttl: int, window: int, cooldown: int)
      ensures pol.Ok() && this.kind == kind && this.store == store
      ensures Abs() == Service(store.Contents(), [], 0)
    {
      pol := NewPolicy(ttl, window, cooldown);
      this.kind := kind;
      this.store := store;
      trail := [];
      gauge := 0;
    }

    ghost function Abs(): Service
      reads this, store
    {
      Service(store.Contents(), trail, gauge)
    }

    // The Execute call of a grant; None when there is no record to evaluate.
    method EvaluateExisting(sc: Scope, now: Time) returns (answer: Option<Result<GrantEvaluation, ConsentError>>)
      modifies store
      ensures var cur := old(Lookup(store.Contents(), sc));
              if cur.None? then answer == None && store.Contents() == old(store.Contents())
              else answer == Some(GrantOne(pol, sc, cur, now))
                   && store.Contents() == With(old(store.Contents()), sc, Write(cur, answer.value).stored)
    {
      WithLookup(store.Contents(), sc);
      var r, existing := store.Execute(sc, (record: Record) => DecideGrant(pol, now, record));
      if r.Success? {
        return Some(existing.value.EvaluateGrant(now, pol));
      }
      if r.error != NotFound {
        return Some(Failure(r.error.error));
      }
      answer := None;
    }

    // Saves a new record unless a rival has put one at its scope.
    method SaveUnlessPresent(made: Record, rival: Rival) returns (saved: bool)
      requires made.scope !in store.Contents()
      modifies store
      ensures saved == Seen(None, rival).None?
      ensures store.Contents() == With(old(store.Contents()), made.scope,
                                       if saved then Some(made) else Seen(None, rival))
    {
      ghost var l, seen := store.Contents(), Seen(None, rival);
      WithLookup(l, made.scope);
      MeetRival(made.scope, rival, l, None);
      WithTwice(l, made.scope, seen, Some(made));
      var err := store.Save(made);
      saved := err.None?;
    }

    // None when Save finds that the record has appeared meanwhile.
    method CreateGrantTx(sc: Scope, now: Time, rival: Rival)
      returns (answer: Option<Result<GrantEvaluation, ConsentError>>)
      requires sc !in store.Contents()
      modifies store
      ensures var made, seen := GrantOne(pol, sc, None, now), Seen(None, rival);
              if made.Failure? then answer == Some(made) && store.Contents() == old(store.Contents())
              else if seen.None? then answer == Some(made)
                  && store.Contents() == old(store.Contents())[sc := made.value.updated]
              else answer == None && store.Contents() == With(old(store.Contents()), sc, seen)
    {
      var made := NewRecord(sc, now, Some(now + pol.ttl));
      if made.Failure? {
        return Some(Failure(Internal));
      }
      var saved := SaveUnlessPresent(made.value, rival);
      if saved {
        return Some(Success(GrantEvaluation(made.value, true, false)));
      }
      answer := None;
    }

    method TryGrant(sc: Scope, now: Time, rival: (Rival, Rival))
      returns (answer: Option<Result<GrantEvaluation, ConsentError>>)
      modifies store
      ensures match Try(pol, sc, old(Lookup(store.Contents(), sc)), now, rival)
              case Finished(u) => answer == Some(u.answer)
                && store.Contents() == With(old(store.Contents()), sc, u.stored)
              case Again(cur) => answer == None && store.Contents() == With(old(store.Contents()), sc, cur)
    {
      ghost var l := store.Contents();
      ghost var seen := Seen(Lookup(l, sc), rival.0);
      WithLookup(l, sc);
      MeetRival(sc, rival.0, l, Lookup(l, sc));
      WithTwice(l, sc, seen, Write(seen, GrantOne(pol, sc, seen, now)).stored);
      answer := EvaluateExisting(sc, now);
      if answer.None? {
        ghost var made := GrantOne(pol, sc, None, now);
        WithTwice(l, sc, None, Seen(None, rival.1));
        WithTwice(l, sc, None, Write(None, made).stored);
        answer := CreateGrantTx(sc, now, rival.1);
      }
    }

    // At most two attempts: a record that appears between Execute and Save is evaluated by the second.
    method UpsertGrantTx(sc: Scope, now: Time, rivals: seq<(Rival, Rival)>)
      returns (answer: Result<GrantEvaluation, ConsentError>)
      requires |rivals| == 2
      modifies store
      ensures var u := Attempts(pol, sc, old(Lookup(store.Contents(), sc)), now, rivals);
              answer == u.answer && store.Contents() == With(old(store.Contents()), sc, u.stored)
    {
      ghost var l := store.Contents();
      ghost var cur := Lookup(l, sc);
      WithLookup(l, sc);
      var attempt := 0;
      while attempt < 2
        invariant 0 <= attempt <= 2
        invariant store.Contents() == With(l, sc, cur)
        invariant Attempts(pol, sc, Lookup(l, sc), now, rivals) == Attempts(pol, sc, cur, now, rivals[attempt..])
      {
        ghost var tried := Try(pol, sc, cur, now, rivals[attempt]);
        WithTwice(l, sc, cur, if tried.Finished? then tried.upsert.stored else tried.cur);
        var tried' := TryGrant(sc, now, rivals[attempt]);
        if tried'.Some? {
          return tried'.value;
        }
        cur := tried.cur;
        attempt := attempt + 1;
      }
      answer := Failure(Conflict);
    }

    // A rival's write to the scope becomes visible.
    method MeetRival(sc: Scope, x: Rival, ghost l: Ledger, ghost cur: Option<Record>)
      requires store.Contents() == With(l, sc, cur)
      modifies store
      ensures store.Contents() == With(l, sc, Seen(cur, x))
    {
      match x {
        case Nothing =>
        case Puts(r) => store.Observe(sc, Some(r)); WithTwice(l, sc, cur, Some(r));
        case Removes => store.Observe(sc, None); WithTwice(l, sc, cur, None);
      }
    }

    // forEachScope around upsertGrantTx: the first error ends the transaction's body.
    method GrantScopes(user: UserId, ps: seq<Purpose>, now: Time)
      returns (granted: seq<Record>, effects: seq<Effect>, error: Option<ConsentError>)
      requires pol.Ok()
      modifies store
      ensures Outcome(store.Contents(), effects, error) == GrantMany(pol, old(store.Contents()), user, ps, now)
      ensures error.None? ==> Returns(store.Contents(), user, ps, granted)
    {
      ghost var l := store.Contents();
      granted, effects, error := [], [], None;
      for i := 0 to |ps|
        invariant Outcome(store.Contents(), effects, None) == GrantMany(pol, l, user, ps[..i], now)
        invariant Returns(store.Contents(), user, ps[..i], granted)
      {
        var sc := Scope(user, ps[i]);
        ghost var before := store.Contents();
        GrantManyStep(pol, l, user, ps, i, now);
        QuietUpsert(pol, sc, Lookup(before, sc), now);
        WithLookup(before, sc);
        var answer := UpsertGrantTx(sc, now, QUIET);
        if answer.Failure? {
          GrantStopped(pol, l, user, ps, i + 1, now);
          return granted, effects, Some(answer.error);
        }
        if !answer.value.changed {
          UnchangedEvaluation(pol, sc, Lookup(before, sc), now);
        } else {
          effects := effects + [GrantEffect(sc, now, answer.value.wasActive)];
        }
        ReturnsStep(pol, l, user, ps, now, i, granted, answer.value.updated);
        granted := granted + [answer.value.updated];
      }
      assert ps[..|ps|] == ps;
    }

    method TryRevokeScopeTx(sc: Scope, now: Time) returns (answer: Result<Option<Record>, ConsentError>)
      modifies store
      ensures answer == RevokeOne(old(Lookup(store.Contents(), sc)), now)
      ensures store.Contents() == if answer.Success? && answer.value.Some?
                then old(store.Contents())[sc := answer.value.value]
                                  else old(store.Contents())
    {
      var r, existing := store.Execute(sc, (record: Record) => DecideRevoke(now, record));
      if r.Success? {
        answer := Success(if existing.value.CanRevoke(now) then Some(r.value) else None);
      } else if r.error == NotFound {
        answer := Success(None);
      } else {
        answer := Failure(r.error.error);
      }
    }

    method RevokeScopes(user: UserId, ps: seq<Purpose>, now: Time)
      returns (revoked: seq<Record>, effects: seq<Effect>, error: Option<ConsentError>)
      modifies store
      ensures Outcome(store.Contents(), effects, error) == RevokeMany(old(store.Contents()), user, ps, now)
      ensures RevokedRecords(store.Contents(), effects, revoked)
    {
      ghost var l := store.Contents();
      revoked, effects, error := [], [], None;
      for i := 0 to |ps|
        invariant Outcome(store.Contents(), effects, None) == RevokeMany(l, user, ps[..i], now)
        invariant RevokedRecords(store.Contents(), effects, revoked)
      {
        var sc := Scope(user, ps[i]);
        ghost var before := store.Contents();
        RevokeManyStep(l, user, ps, i, now);
        var answer := TryRevokeScopeTx(sc, now);
        if answer.Failure? {
          RevokeStopped(l, user, ps, i + 1, now);
          return revoked, effects, Some(answer.error);
        }
        if answer.value.Some? {
          RevokedRecordsStep(before, effects, revoked, sc, now, answer.value.value);
          revoked := revoked + [answer.value.value];
          effects := effects + [Effect(Revoked(sc, now), -1)];
        }
      }
      assert ps[..|ps|] == ps;
    }

    // RunInTx after its body: only the SQL transaction can still fail, and only it undoes the body.
    method EndTx(saved: Nested, error: Option<ConsentError>, env: TxEnv) returns (verdict: Option<ConsentError>)
      modifies store
      ensures verdict == if error.Some? then error else if kind.Rollback? && !env.commits then Some(Aborted) else None
      ensures store.Contents() == if verdict.Some? && kind.Rollback? then LedgerOf(saved) else old(store.Contents())
    {
      verdict := if error.None? && kind.Rollback? && !env.commits then Some(Aborted) else error;
      if verdict.Some? && kind.Rollback? {
        store.consents := saved;
      }
    }

    method Publish(effects: seq<Effect>)
      modifies this`trail, this`gauge
      ensures trail == old(trail) + Events(effects) && gauge == old(gauge) + GaugeChange(effects)
    {
      for i := 0 to |effects|
        invariant trail == old(trail) + Events(effects[..i]) && gauge == old(gauge) + GaugeChange(effects[..i])
      {
        assert effects[..i + 1][..i] == effects[..i];
        assert Events(effects[..i + 1]) == Events(effects[..i]) + [effects[i].event];
        trail := trail + [effects[i].event];
        gauge := gauge + effects[i].gauge;
      }
      assert effects[..|effects|] == effects;
    }

    method Grant(user: UserId, purposes: seq<Purpose>, now: Time, env: TxEnv)
      returns (r: Result<seq<Record>, ConsentError>)
      requires pol.Ok()
      modifies this, store
      ensures Abs() == Serve(pol, kind, old(Abs()), Op.Grant(user, purposes, now), env)
      ensures match Verdict(pol, kind, old(store.Contents()), Op.Grant(user, purposes, now), env)
              case Some(e) => r == Failure(e)
              case None => r.Success? && Returns(store.Contents(), user, purposes, r.value)
    {
      if user == NIL_USER {
        return Failure(Unauthorized);
      }
      if |purposes| == 0 {
        return Failure(BadRequest);
      }
      var valid := ValidatePurposes(purposes);
      if !valid {
        return Failure(BadRequest);
      }
      if !env.begins {
        return Failure(Aborted);
      }
      var saved := store.consents;
      var granted, effects, error := GrantScopes(user, purposes, now);
      var verdict := EndTx(saved, error, env);
      if verdict.Some? {
        return Failure(verdict.value);
      }
      Publish(effects);
      r := Success(granted);
    }

    method Revoke(user: UserId, purposes: seq<Purpose>, now: Time, env: TxEnv)
      returns (r: Result<seq<Record>, ConsentError>)
      modifies this, store
      ensures Abs() == Serve(pol, kind, old(Abs()), Op.Revoke(user, purposes, now), env)
      ensures match Verdict(pol, kind, old(store.Contents()), Op.Revoke(user, purposes, now), env)
              case Some(e) => r == Failure(e)
              case None => r.Success? && RevokedRecords(store.Contents(),
                Body(pol, old(store.Contents()), Op.Revoke(user, purposes, now)).effects, r.value)
    {
      if user == NIL_USER {
        return Failure(Unauthorized);
      }
      var valid := ValidatePurposes(purposes);
      if !valid {
        return Failure(BadRequest);
      }
      if !env.begins {
        return Failure(Aborted);
      }
      var saved := store.consents;
      var revoked, effects, error := RevokeScopes(user, purposes, now);
      var verdict := EndTx(saved, error, env);
      if verdict.Some? {
        return Failure(verdict.value);
      }
      Publish(effects);
      r := Success(revoked);
    }

    method RevokeAll(user: UserId, now: Time, env: TxEnv) returns (r: Result<nat, ConsentError>)
      modifies this, store
      ensures Abs() == Serve(pol, kind, old(Abs()), Op.RevokeAll(user, now), env)
      ensures match Verdict(pol, kind, old(store.Contents()), Op.RevokeAll(user, now), env)
              case Some(e) => r == Failure(e)
              case None => r == Success(|RevocableScopes(old(store.Contents()), user, now)|)
    {
      if user == NIL_USER {
        return Failure(BadRequest);
      }
      if !env.begins {
        return Failure(Aborted);
      }
      var saved := store.consents;
      var revokedCount := store.RevokeAllByUser(user, now);
      var verdict := EndTx(saved, None, env);
      if verdict.Some? {
        return Failure(verdict.value);
      }
      if revokedCount > 0 {
        var count: int := revokedCount;
        Publish([Effect(RevokedAll(user, now), -count)]);
      } else {
        Publish([]);
      }
      r := Success(revokedCount);
    }

    method DeleteAll(user: UserId, now: Time, env: TxEnv) returns (error: Option<ConsentError>)
      modifies this, store
      ensures Abs() == Serve(pol, kind, old(Abs()), Op.DeleteAll(user, now), env)
      ensures error == Verdict(pol, kind, old(store.Contents()), Op.DeleteAll(user, now), env)
    {
      if user == NIL_USER {
        return Some(BadRequest);
      }
      if !env.begins {
        return Some(Aborted);
      }
      var saved := store.consents;
      store.DeleteByUser(user);
      error := EndTx(saved, None, env);
      if error.None? {
        Publish([Effect(Deleted(user, now), 0)]);
      }
    }

    method Require(user: UserId, purpose: Purpose, now: Time) returns (r: Result<Record, ConsentError>)
      ensures r == ConsentTheorems.Require(store.Contents(), user, purpose, now)
    {
      if user == NIL_USER {
        return Failure(Unauthorized);
      }
      if !purpose.IsValid() {
        return Failure(BadRequest);
      }
      var found := store.FindByScope(Scope(user, purpose));
      if found.Failure? {
        return Failure(MissingConsent);
      }
      match found.value.ComputeStatus(now) {
        case StatusRevoked => r := Failure(ConsentRevoked);
        case StatusExpired => r := Failure(ConsentExpired);
        case StatusActive => r := Success(found.value);
      }
    }
  }
}
