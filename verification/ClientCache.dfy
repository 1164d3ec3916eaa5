/** The client cache (internal/auth/adapters/client_cache.go): entries expire, and
    each Set cleans up a few expired ones, in no particular order. Every reading
    of the clock is a parameter. */
module ClientCache {
  import opened Common

  datatype Resolved = Resolved(client: nat, tenant: nat)

  datatype Entry = Entry(value: Resolved, expiresAt: Time)

  type Entries = map<string, Entry>

  const MAX_CLEANUP := 10

  predicate Expired(e: Entry, now: Time) {
    now > e.expiresAt
  }

  function Hit(m: Entries, id: string, now: Time): Option<Resolved> {
    if id in m && !Expired(m[id], now) then Some(m[id].value) else None
  }

  // What one cleanup may remove: at most ten entries, all expired, and all of them if they are fewer.
  predicate Cleanable(m: Entries, gone: set<string>, now: Time) {
    && gone <= m.Keys && |gone| <= MAX_CLEANUP
    && (forall k :: k in gone ==> Expired(m[k], now))
    && (|gone| < MAX_CLEANUP ==> forall k :: k in m && Expired(m[k], now) ==> k in gone)
  }

  // ----- runs of the cache against a cache that never cleans up -----

  datatype Write = Write(id: string, value: Resolved, at: Time, cleanAt: Time, gone: set<string>)

  function Stored(ttl: int, m: Entries, w: Write): Entries {
    m[w.id := Entry(w.value, w.at + ttl)]
  }

  function Written(ttl: int, ws: seq<Write>): Entries
    decreases |ws|
  {
    if ws == [] then map[] else Stored(ttl, Written(ttl, ws[..|ws| - 1]), ws[|ws| - 1]) - ws[|ws| - 1].gone
  }

  function NeverCleaned(ttl: int, ws: seq<Write>): Entries
    decreases |ws|
  {
    if ws == [] then map[] else Stored(ttl, NeverCleaned(ttl, ws[..|ws| - 1]), ws[|ws| - 1])
  }

  // Each write removes what a cleanup may remove at its time.
  predicate Proper(ttl: int, ws: seq<Write>)
    decreases |ws|
  {
    ws == [] ||
    var w, before := ws[|ws| - 1], ws[..|ws| - 1];
    Proper(ttl, before) && Cleanable(Stored(ttl, Written(ttl, before), w), w.gone, w.cleanAt)
  }

  // No cleanup ran at a time later than now.
  predicate CleanedBy(ws: seq<Write>, now: Time) {
    forall i | 0 <= i < |ws| :: ws[i].cleanAt <= now
  }

  // Where the two caches differ, an entry was removed that had expired by then.
  lemma {:induction false} Differs(ttl: int, ws: seq<Write>, now: Time, id: string)
    requires Proper(ttl, ws) && CleanedBy(ws, now)
    ensures var a, b := Written(ttl, ws), NeverCleaned(ttl, ws);
            && (id in a ==> id in b && a[id] == b[id])
            && (id in b && id !in a ==> Expired(b[id], now))
    decreases |ws|
  {
    if ws != [] {
      assert CleanedBy(ws[..|ws| - 1], now);
      assert ws[|ws| - 1].cleanAt <= now;
      Differs(ttl, ws[..|ws| - 1], now, id);
    }
  }

  /** Cleaning up is invisible as long as the clock does not go back: a read no
      earlier than every cleanup so far answers as if nothing had ever been
      removed, whichever entries the cleanups picked. */
  lemma {:induction false} CleaningInvisible(ttl: int, ws: seq<Write>, now: Time, id: string)
    requires Proper(ttl, ws) && CleanedBy(ws, now)
    ensures Hit(Written(ttl, ws), id, now) == Hit(NeverCleaned(ttl, ws), id, now)
  {
    Differs(ttl, ws, now, id);
  }

  // Whatever was written and cleaned up until t, a read at now does not notice the cleanups.
  ghost predicate Undisturbed(ttl: int, t: Time, now: Time) {
    forall ws, id :: Proper(ttl, ws) && CleanedBy(ws, t) ==>
                       Hit(Written(ttl, ws), id, now) == Hit(NeverCleaned(ttl, ws), id, now)
  }

  // An entry that is good until now, and a write at which it is cleaned up because now is over.
  lemma CleanedTooSoon(ttl: int, t: Time, now: Time) returns (ws: seq<Write>, id: string)
    requires now < t
    ensures Proper(ttl, ws) && CleanedBy(ws, t)
    ensures Hit(Written(ttl, ws), id, now) == None && Hit(NeverCleaned(ttl, ws), id, now).Some?
  {
    var value := Resolved(0, 0);
    id := "a";
    var w1, w2 := Write("a", value, now - ttl, now, {}), Write("b", value, t - ttl, t, {"a"});
    ws := [w1, w2];
    assert ws[..|ws| - 1] == [w1] && [w1][..|[w1]| - 1] == [];
    assert Proper(ttl, []) && Written(ttl, [w1]) == map["a" := Entry(value, now)];
    assert Cleanable(Stored(ttl, Written(ttl, []), w1), w1.gone, w1.cleanAt);
    assert Proper(ttl, [w1]) && |w2.gone| == 1;
    assert Cleanable(Stored(ttl, Written(ttl, [w1]), w2), w2.gone, w2.cleanAt);
  }

  /** Exactly when cleaning up goes unnoticed: the read must not be earlier than
      the cleanups before it. The source's readings are monotonic and taken under
      the cache's lock, so they always meet this. */
  lemma UndisturbedIff(ttl: int, t: Time, now: Time)
    ensures Undisturbed(ttl, t, now) <==> t <= now
  {
    if t <= now {
      forall ws, id | Proper(ttl, ws) && CleanedBy(ws, t)
        ensures Hit(Written(ttl, ws), id, now) == Hit(NeverCleaned(ttl, ws), id, now)
      {
        assert CleanedBy(ws, now);
        CleaningInvisible(ttl, ws, now, id);
      }
    } else {
      var ws, id := CleanedTooSoon(ttl, t, now);
      assert Proper(ttl, ws) && CleanedBy(ws, t);
    }
  }

  predicate IsLastWrite(ws: seq<Write>, i: int, id: string) {
    0 <= i < |ws| && ws[i].id == id && forall j | i < j < |ws| :: ws[j].id != id
  }

  /** Any answer, at any clock reading, is the value of the last write for that
      very client, no older than the time to live. */
  lemma {:induction false} HitIsLastWrite(ttl: int, ws: seq<Write>, now: Time, id: string) returns (i: nat)
    requires Hit(Written(ttl, ws), id, now).Some?
    ensures IsLastWrite(ws, i, id) && now <= ws[i].at + ttl
    ensures Hit(Written(ttl, ws), id, now) == Some(ws[i].value)
    decreases |ws|
  {
    var n := |ws| - 1;
    if ws[n].id == id {
      i := n;
    } else {
      i := HitIsLastWrite(ttl, ws[..n], now, id);
    }
  }

  /** Without cleanups a client has a hit exactly when its last write is no older
      than the time to live, and the hit is that write's value. */
  lemma {:induction false} NeverCleanedIff(ttl: int, ws: seq<Write>, now: Time, id: string, value: Resolved)
    ensures Hit(NeverCleaned(ttl, ws), id, now) == Some(value) <==>
              exists i :: IsLastWrite(ws, i, id) && ws[i].value == value && now <= ws[i].at + ttl
    decreases |ws|
  {
    if ws != [] {
      var n := |ws| - 1;
      var before := ws[..n];
      if ws[n].id == id {
        assert forall i :: IsLastWrite(ws, i, id) <==> i == n;
      } else {
        NeverCleanedIff(ttl, before, now, id, value);
        assert forall i | 0 <= i < n :: before[i] == ws[i];
        assert forall i :: IsLastWrite(ws, i, id) <==> IsLastWrite(before, i, id);
      }
    }
  }

  class Cache {
    const ttl: int
    var entries: Entries
    ghost var writes: seq<Write>

    constructor (ttl: int)
      ensures Valid() && this.ttl == ttl && writes == []
    {
      this.ttl := ttl;
      entries, writes := map[], [];
    }

    ghost predicate Valid()
      reads this
    {
      Proper(ttl, writes) && entries == Written(ttl, writes)
    }

    method Get(id: string, now: Time) returns (r: Option<Resolved>)
      requires Valid()
      ensures r == Hit(Written(ttl, writes), id, now)
      ensures CleanedBy(writes, now) ==> r == Hit(NeverCleaned(ttl, writes), id, now)
    {
      if CleanedBy(writes, now) {
        CleaningInvisible(ttl, writes, now, id);
      }
      if id !in entries {
        return None;
      }
      if now > entries[id].expiresAt {
        return None;
      }
      r := Some(entries[id].value);
    }

    method Set(id: string, value: Resolved, now: Time, cleanAt: Time)
      requires Valid()
      modifies this
      ensures Valid()
      ensures |writes| == |old(writes)| + 1 && writes[..|old(writes)|] == old(writes)
      ensures var w := writes[|old(writes)|]; w.id == id && w.value == value && w.at == now && w.cleanAt == cleanAt
    {
      entries := entries[id := Entry(value, now + ttl)];
      ghost var gone := CleanupExpired(cleanAt);
      ghost var w := Write(id, value, now, cleanAt, gone);
      assert (writes + [w])[..|writes|] == writes;
      writes := writes + [w];
    }

    // The loop visits the entries in any order and stops after ten removals.
    method CleanupExpired(now: Time) returns (ghost gone: set<string>)
      modifies this`entries
      ensures Cleanable(old(entries), gone, now) && entries == old(entries) - gone
      ensures |gone| <= 10 && forall k :: k in gone ==> k in old(entries) && old(entries)[k].expiresAt < now
      ensures |gone| < 10 ==> forall k :: k in entries ==> now <= entries[k].expiresAt
    {
      var todo, cleaned := entries.Keys, 0;
      gone := {};
      while todo != {}
        invariant todo <= old(entries).Keys && gone <= old(entries).Keys - todo
        invariant entries == old(entries) - gone
        invariant cleaned == |gone| < MAX_CLEANUP
        invariant forall k :: k in old(entries) && k !in todo ==> (k in gone <==> Expired(old(entries)[k], now))
      {
        var key :| key in todo;
        todo := todo - {key};
        if now > entries[key].expiresAt {
          entries := entries - {key};
          gone := gone + {key};
          cleaned := cleaned + 1;
          if cleaned >= MAX_CLEANUP {
            break;
          }
        }
      }
    }
  }
}
