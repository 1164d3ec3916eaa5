/** The resilient client resolver (internal/auth/adapters/resilient_client_resolver.go):
    a delegate behind a circuit breaker, with the cache as fallback. */
module ClientResolver {
  import opened Common
  import opened Breaker
  import opened ClientCache

  datatype DelegateError = DelegateError(message: string)

  // What the world answers during one call: the delegate, should it be asked,
  // and the clock at each place the call reads it.
  datatype World = World(answer: Result<Resolved, DelegateError>, firstGet: Time, secondGet: Time, setAt: Time,
      cleanAt: Time)

  // One answer of the delegate: for which client, what, and when it came.
  datatype Answer = Answer(id: string, value: Resolved, at: Time)

  // The cache has been given exactly the delegate's answers, in their order.
  ghost predicate Feeds(answers: seq<Answer>, writes: seq<Write>) {
    && |answers| == |writes|
    && forall i | 0 <= i < |answers| :: answers[i] == Answer(writes[i].id, writes[i].value, writes[i].at)
  }

  predicate IsLastAnswer(answers: seq<Answer>, i: int, id: string) {
    0 <= i < |answers| && answers[i].id == id && forall j | i < j < |answers| :: answers[j].id != id
  }

  // The delegate's last answer for the client, still good at the given time.
  ghost predicate Fallback(ttl: int, answers: seq<Answer>, id: string, now: Time, value: Resolved) {
    exists i :: IsLastAnswer(answers, i, id) && answers[i].value == value && now <= answers[i].at + ttl
  }

  lemma HitIsFallback(ttl: int, answers: seq<Answer>, writes: seq<Write>, id: string, now: Time, value: Resolved)
    requires Feeds(answers, writes) && Hit(Written(ttl, writes), id, now) == Some(value)
    ensures Fallback(ttl, answers, id, now, value)
  {
    var i := HitIsLastWrite(ttl, writes, now, id);
    assert forall j | i < j < |answers| :: answers[j].id == writes[j].id;
    assert IsLastAnswer(answers, i, id);
  }

  // Some answer of the delegate can stand in for it.
  ghost predicate HasFallback(ttl: int, answers: seq<Answer>, id: string, now: Time) {
    exists value :: Fallback(ttl, answers, id, now, value)
  }

  lemma LastAnswerIff(answers: seq<Answer>, writes: seq<Write>, i: int, id: string)
    requires Feeds(answers, writes)
    ensures IsLastAnswer(answers, i, id) <==> IsLastWrite(writes, i, id)
  {
  }

  // While the clock does not go back, the cache has a hit exactly when there is a fallback.
  lemma HitIffFallback(ttl: int, answers: seq<Answer>, writes: seq<Write>, id: string, now: Time)
    requires Feeds(answers, writes) && Proper(ttl, writes) && CleanedBy(writes, now)
    ensures Hit(Written(ttl, writes), id, now).Some? <==> HasFallback(ttl, answers, id, now)
  {
    CleaningInvisible(ttl, writes, now, id);
    if value :| Fallback(ttl, answers, id, now, value) {
      var i :| IsLastAnswer(answers, i, id) && answers[i].value == value && now <= answers[i].at + ttl;
      LastAnswerIff(answers, writes, i, id);
      NeverCleanedIff(ttl, writes, now, id, value);
    }
    if Hit(Written(ttl, writes), id, now).Some? {
      HitIsFallback(ttl, answers, writes, id, now, Hit(Written(ttl, writes), id, now).value);
    }
  }

  class Resolver {
    const breaker: CircuitBreaker
    const cache: Cache
    // everything the delegate has answered so far
    ghost var answers: seq<Answer>

    // NewResilientClientResolver: an option that is given sets its value; thresholds that are not positive leave the
    // breaker's own defaults, which are the same. The cache keeps entries for five minutes.
    constructor (failureThreshold: Option<int>, successThreshold: Option<int>, cacheTtl: Option<int>)
      ensures Valid() && fresh(breaker) && fresh(cache) && breaker.trace == [] && answers == [] && cache.writes == []
      ensures breaker.th.failures ==
                if failureThreshold.Some? && failureThreshold.value > 0 then failureThreshold.value else 5
      ensures breaker.th.successes ==
                if successThreshold.Some? && successThreshold.value > 0 then successThreshold.value else 3
      ensures cache.ttl == if cacheTtl.Some? then cacheTtl.value else 300
    {
      breaker := new CircuitBreaker(if failureThreshold.Some? then failureThreshold.value else 5,
                                    if successThreshold.Some? then successThreshold.value else 3);
      cache := new Cache(if cacheTtl.Some? then cacheTtl.value else 300);
      answers := [];
    }

    ghost predicate Valid()
      reads this, breaker, cache
    {
      breaker.Valid() && cache.Valid() && Feeds(answers, cache.writes)
    }

    // The cache is asked only while the breaker is open.
    method TryCache(id: string, now: Time) returns (hit: Option<Resolved>)
      requires Valid()
      ensures hit == if breaker.open then Hit(Written(cache.ttl, cache.writes), id, now) else None
      ensures hit.Some? ==> Fallback(cache.ttl, answers, id, now, hit.value)
      ensures CleanedBy(cache.writes, now) ==>
                (hit.Some? <==> && (exists i :: Tripped(breaker.th, breaker.trace, i))
                                && HasFallback(cache.ttl, answers, id, now))
    {
      OpenIff(breaker.th, breaker.trace);
      if CleanedBy(cache.writes, now) {
        HitIffFallback(cache.ttl, answers, cache.writes, id, now);
      }
      if !breaker.open {
        return None;
      }
      hit := cache.Get(id, now);
      if hit.Some? {
        HitIsFallback(cache.ttl, answers, cache.writes, id, now, hit.value);
      }
    }

    /** Whatever breaker and cache have been through, every result is an answer the
        delegate gave for the same client: the one of this very call, or its last
        one before, no older than the time to live. The latter is returned
        exactly when the breaker is open, before the call or by its failure, and
        the cache still has it; while the clock does not go back, that is exactly
        when the recorded outcomes have tripped the breaker and the delegate's
        answers have one that is not too old. Every outcome is recorded. */
    method ResolveClient(id: string, world: World) returns (r: Result<Resolved, DelegateError>, asked: bool)
      requires Valid()
      modifies this, breaker, cache
      ensures Valid()
      ensures asked <==> !(old(breaker.open) && Hit(Written(cache.ttl, old(cache.writes)), id, world.firstGet).Some?)
      ensures !asked ==> && r.Success? && Fallback(cache.ttl, answers, id, world.firstGet, r.value)
                         && breaker.trace == old(breaker.trace) && answers == old(answers)
      ensures asked && world.answer.Success? ==>
                && r == world.answer && breaker.trace == old(breaker.trace) + [true]
                && answers == old(answers) + [Answer(id, r.value, world.setAt)]
      ensures asked && world.answer.Failure? ==>
                && breaker.trace == old(breaker.trace) + [false] && answers == old(answers)
                && (r.Success? ==> breaker.open && Fallback(cache.ttl, answers, id, world.secondGet, r.value))
                && (r.Failure? ==> r == world.answer)
                && (r.Failure? && breaker.open ==> Hit(Written(cache.ttl, cache.writes), id, world.secondGet).None?)
      ensures CleanedBy(old(cache.writes), world.firstGet) ==>
                (!asked <==> && (exists i :: Tripped(breaker.th, old(breaker.trace), i))
                             && HasFallback(cache.ttl, old(answers), id, world.firstGet))
      ensures asked && world.answer.Failure? && CleanedBy(cache.writes, world.secondGet) ==>
                (r.Success? <==> && (exists i :: Tripped(breaker.th, breaker.trace, i))
                                 && HasFallback(cache.ttl, answers, id, world.secondGet))
    {
      asked := false;
      var hit := TryCache(id, world.firstGet);
      if hit.Some? {
        return Success(hit.value), false;
      }
      asked := true;
      if world.answer.Failure? {
        var _, _ := breaker.RecordFailure();
        hit := TryCache(id, world.secondGet);
        return if hit.Some? then Success(hit.value) else world.answer, true;
      }
      var _, _ := breaker.RecordSuccess();
      ghost var before := cache.writes;
      cache.Set(id, world.answer.value, world.setAt, world.cleanAt);
      answers := answers + [Answer(id, world.answer.value, world.setAt)];
      assert forall i | 0 <= i < |before| :: cache.writes[i] == cache.writes[..|before|][i] == before[i];
      r := world.answer;
    }
  }
}
