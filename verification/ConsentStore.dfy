/** The in-memory consent store (internal/consent/store/store_memory.go): records
    nested by user and purpose, updated in place. */
module ConsentStore {
  import opened Common
  import opened ConsentRules
  import opened ConsentLedger

  type Nested = map<UserId, map<Purpose, Record>>

  // The ledger a nested map stands for.
  ghost function LedgerOf(m: Nested): Ledger {
    map u, p | u in m && p in m[u] :: Scope(u, p) := m[u][p]
  }

  function Find(m: Nested, sc: Scope): Option<Record> {
    if sc.user in m && sc.purpose in m[sc.user] then Some(m[sc.user][sc.purpose]) else None
  }

  lemma FindLooksUp(m: Nested, sc: Scope)
    ensures Find(m, sc) == Lookup(LedgerOf(m), sc)
  {
    var l := LedgerOf(m);
    if sc in l {
      var u, p :| u in m && p in m[u] && sc == Scope(u, p);
    }
    if sc.user in m && sc.purpose in m[sc.user] {
      assert Scope(sc.user, sc.purpose) in l;
    }
  }

  // Two nested maps with the same records stand for the same ledger, whatever empty inner maps they have.
  lemma LedgerByFind(m: Nested, l: Ledger)
    requires forall sc: Scope :: Find(m, sc) == Lookup(l, sc)
    ensures LedgerOf(m) == l
  {
    forall sc: Scope ensures Lookup(LedgerOf(m), sc) == Lookup(l, sc) {
      FindLooksUp(m, sc);
      assert Find(m, sc) == Lookup(l, sc);
    }
    SameLookups(LedgerOf(m), l);
  }

  function Insert(m: Nested, sc: Scope, r: Record): Nested {
    m[sc.user := (if sc.user in m then m[sc.user] else map[])[sc.purpose := r]]
  }

  lemma InsertIsUpdate(m: Nested, sc: Scope, r: Record)
    ensures LedgerOf(Insert(m, sc, r)) == LedgerOf(m)[sc := r]
  {
    forall x: Scope ensures Find(Insert(m, sc, r), x) == Lookup(LedgerOf(m)[sc := r], x) {
      FindLooksUp(m, x);
    }
    LedgerByFind(Insert(m, sc, r), LedgerOf(m)[sc := r]);
  }

  lemma DeleteUserIsDeleteAll(m: Nested, user: UserId)
    ensures LedgerOf(m - {user}) == DeleteAllOf(LedgerOf(m), user)
  {
    forall x: Scope ensures Find(m - {user}, x) == Lookup(DeleteAllOf(LedgerOf(m), user), x) {
      FindLooksUp(m, x);
    }
    LedgerByFind(m - {user}, DeleteAllOf(LedgerOf(m), user));
  }

  // One user's records after a bulk revocation, and the others as they were.
  lemma ReplaceIsRevokeAll(m: Nested, user: UserId, records: map<Purpose, Record>, now: Time)
    requires user in m && records.Keys == m[user].Keys
    requires forall p | p in records ::
               records[p] == if m[user][p].CanRevoke(now) then m[user][p].(revokedAt := Some(now)) else m[user][p]
    ensures LedgerOf(m[user := records]) == RevokeAllOf(LedgerOf(m), user, now)
  {
    forall x: Scope ensures Find(m[user := records], x) == Lookup(RevokeAllOf(LedgerOf(m), user, now), x) {
      FindLooksUp(m, x);
    }
    LedgerByFind(m[user := records], RevokeAllOf(LedgerOf(m), user, now));
  }

  lemma AbsentUser(m: Nested, user: UserId, now: Time)
    requires user !in m
    ensures RevokeAllOf(LedgerOf(m), user, now) == LedgerOf(m) && RevocableScopes(LedgerOf(m), user, now) == {}
  {
    forall sc: Scope | sc in LedgerOf(m) ensures sc.user != user {
      FindLooksUp(m, sc);
    }
  }

  function With(l: Ledger, sc: Scope, r: Option<Record>): Ledger {
    if r.Some? then l[sc := r.value] else l - {sc}
  }

  lemma RemoveIsRemoval(m: Nested, sc: Scope)
    requires sc.user in m
    ensures LedgerOf(m[sc.user := m[sc.user] - {sc.purpose}]) == LedgerOf(m) - {sc}
  {
    var m' := m[sc.user := m[sc.user] - {sc.purpose}];
    forall x: Scope ensures Find(m', x) == Lookup(LedgerOf(m) - {sc}, x) {
      FindLooksUp(m, x);
    }
    LedgerByFind(m', LedgerOf(m) - {sc});
  }

  lemma HitIsRevocable(m: Nested, user: UserId, now: Time, hit: set<Scope>)
    requires user in m && forall sc | sc in hit :: sc.user == user
    requires forall p: Purpose :: Scope(user, p) in hit <==> p in m[user] && m[user][p].CanRevoke(now)
    ensures hit == RevocableScopes(LedgerOf(m), user, now)
  {
    forall sc: Scope ensures sc in hit <==> sc in RevocableScopes(LedgerOf(m), user, now) {
      FindLooksUp(m, sc);
      assert sc == Scope(sc.user, sc.purpose);
    }
  }

  datatype StoreError = NotFound | AlreadyExists | Rejected(error: ConsentError)

  // What the validate and mutate callbacks of Execute decide together.
  datatype Decision = Refuse(error: ConsentError) | Keep | Put(record: Record)

  class InMemoryStore {
    var consents: Nested

    constructor ()
      ensures Contents() == map[]
    {
      consents := map[];
    }

    ghost function Contents(): Ledger
      reads this
    {
      LedgerOf(consents)
    }

    method Save(consent: Record) returns (err: Option<StoreError>)
      modifies this
      ensures err == if consent.scope in old(Contents()) then Some(AlreadyExists) else None
      ensures Contents() == if err.None? then old(Contents())[consent.scope := consent] else old(Contents())
    {
      FindLooksUp(consents, consent.scope);
      var sc := consent.scope;
      if sc.user !in consents {
        consents := consents[sc.user := map[]];
      }
      if sc.purpose in consents[sc.user] {
        return Some(AlreadyExists);
      }
      InsertIsUpdate(old(consents), sc, consent);
      consents := consents[sc.user := consents[sc.user][sc.purpose := consent]];
      assert consents == Insert(old(consents), sc, consent);
      err := None;
    }

    method FindByScope(sc: Scope) returns (r: Result<Record, StoreError>)
      ensures r == if sc in Contents() then Success(Contents()[sc]) else Failure(NotFound)
    {
      FindLooksUp(consents, sc);
      if sc.user !in consents || sc.purpose !in consents[sc.user] {
        return Failure(NotFound);
      }
      r := Success(consents[sc.user][sc.purpose]);
    }

    // Validated and mutated under one lock; a missing record is not created and a
    // refusal changes nothing. existing is the record the callbacks were given.
    method Execute(sc: Scope, decide: Record -> Decision)
      returns (r: Result<Record, StoreError>, existing: Option<Record>)
      modifies this
      ensures existing == Lookup(old(Contents()), sc)
      ensures sc !in old(Contents()) ==> r == Failure(NotFound) && Contents() == old(Contents())
      ensures sc in old(Contents()) ==>
                match decide(old(Contents())[sc])
                case Refuse(e) => r == Failure(Rejected(e)) && Contents() == old(Contents())
                case Keep => r == Success(old(Contents())[sc]) && Contents() == old(Contents())
                case Put(record) => r == Success(record) && Contents() == old(Contents())[sc := record]
    {
      FindLooksUp(consents, sc);
      if sc.user !in consents || sc.purpose !in consents[sc.user] {
        return Failure(NotFound), None;
      }
      var record := consents[sc.user][sc.purpose];
      existing := Some(record);
      match decide(record) {
        case Refuse(e) => r := Failure(Rejected(e));
        case Keep => r := Success(record);
        case Put(updated) =>
          InsertIsUpdate(consents, sc, updated);
          consents := consents[sc.user := consents[sc.user][sc.purpose := updated]];
          r := Success(updated);
      }
    }

    method RevokeAllByUser(user: UserId, now: Time) returns (revokedCount: nat)
      modifies this
      ensures Contents() == RevokeAllOf(old(Contents()), user, now)
      ensures revokedCount == |RevocableScopes(old(Contents()), user, now)|
    {
      if user !in consents {
        AbsentUser(consents, user, now);
        return 0;
      }
      var records, todo := consents[user], consents[user].Keys;
      ghost var before, l := records, Contents();
      revokedCount := 0;
      ghost var hit: set<Scope> := {};
      while todo != {}
        invariant todo <= before.Keys && records.Keys == before.Keys
        invariant forall p | p in before :: records[p] ==
                    if p !in todo && before[p].CanRevoke(now) then before[p].(revokedAt := Some(now)) else before[p]
        invariant revokedCount == |hit|
        invariant forall p: Purpose :: Scope(user, p) in hit <==> p in before && p !in todo && before[p].CanRevoke(now)
        invariant forall sc | sc in hit :: sc.user == user
      {
        var purpose :| purpose in todo;
        todo := todo - {purpose};
        var record := records[purpose];
        if record.CanRevoke(now) {
          records := records[purpose := record.(revokedAt := Some(now))];
          revokedCount := revokedCount + 1;
          hit := hit + {Scope(user, purpose)};
        }
      }
      ReplaceIsRevokeAll(consents, user, records, now);
      HitIsRevocable(consents, user, now, hit);
      consents := consents[user := records];
    }

    method DeleteByUser(user: UserId)
      modifies this
      ensures Contents() == DeleteAllOf(old(Contents()), user)
    {
      DeleteUserIsDeleteAll(consents, user);
      consents := consents - {user};
    }

    // Another transaction's write to a scope becomes visible.
    method Observe(sc: Scope, seen: Option<Record>)
      modifies this
      ensures Contents() == With(old(Contents()), sc, seen)
    {
      FindLooksUp(consents, sc);
      if seen.Some? {
        InsertIsUpdate(consents, sc, seen.value);
        consents := Insert(consents, sc, seen.value);
      } else if sc.user in consents {
        RemoveIsRemoval(consents, sc);
        consents := consents[sc.user := consents[sc.user] - {sc.purpose}];
      } else {
        assert Contents() - {sc} == Contents();
      }
    }
  }
}
