/** The circuit breaker (internal/ratelimit/middleware/circuitbreaker.go, and the
    same machine in pkg/platform/circuit/breaker.go) against the outcomes it was told. */
module Breaker {

  datatype Thresholds = Thresholds(failures: nat, successes: nat) {
    predicate Ok() {
      failures > 0 && successes > 0
    }
  }

  datatype Counters = Counters(open: bool, failureCount: nat, successCount: nat)

  datatype StateChange = StateChange(hasOpened: bool, hasClosed: bool)

  const NO_CHANGE := StateChange(false, false)

  // ----- the machine, one recorded outcome at a time (true is a success) -----

  function Record(th: Thresholds, c: Counters, success: bool): Counters {
    if !success then Counters(c.open || c.failureCount + 1 >= th.failures, c.failureCount + 1, 0)
    else if !c.open then c.(failureCount := 0)
    else if c.successCount + 1 >= th.successes then Counters(false, 0, 0)
    else c.(successCount := c.successCount + 1)
  }

  function After(th: Thresholds, trace: seq<bool>): Counters
    decreases |trace|
  {
    if trace == [] then Counters(false, 0, 0) else Record(th, After(th, trace[..|trace| - 1]), trace[|trace| - 1])
  }

  // ----- what the counters mean -----

  // The length of the run of the given outcome at the end of the trace.
  function Trailing(trace: seq<bool>, outcome: bool): nat
    decreases |trace|
  {
    if trace == [] || trace[|trace| - 1] != outcome then 0 else 1 + Trailing(trace[..|trace| - 1], outcome)
  }

  /** A closed breaker counts the failures since the last success, below its
      threshold; an open one the successes since the last failure, below its
      own. (It closes on a success and opens on a failure, so neither run
      reaches back over a change of state.) */
  lemma {:induction false} CountersCount(th: Thresholds, trace: seq<bool>)
    requires th.Ok()
    ensures var c := After(th, trace);
            if c.open then c.successCount == Trailing(trace, true) < th.successes
            else c.failureCount == Trailing(trace, false) < th.failures && c.successCount == 0
    decreases |trace|
  {
    if trace != [] {
      var before := trace[..|trace| - 1];
      CountersCount(th, before);
      OppositeRun(before);
    }
  }

  lemma OppositeRun(trace: seq<bool>)
    ensures Trailing(trace, true) == 0 || Trailing(trace, false) == 0
  {
  }

  // The n outcomes before position i are all the given one.
  predicate RunEndsAt(trace: seq<bool>, i: int, n: nat, outcome: bool) {
    n <= i <= |trace| && forall k | i - n <= k < i :: trace[k] == outcome
  }

  lemma {:induction false} TrailingIsRun(trace: seq<bool>, n: nat, outcome: bool)
    ensures Trailing(trace, outcome) >= n <==> RunEndsAt(trace, |trace|, n, outcome)
    decreases |trace|
  {
    if trace != [] && n > 0 {
      var before := trace[..|trace| - 1];
      TrailingIsRun(before, n - 1, outcome);
      if trace[|trace| - 1] == outcome {
        assert RunEndsAt(before, |before|, n - 1, outcome) <==> RunEndsAt(trace, |trace|, n, outcome) by {
          assert forall k | 0 <= k < |before| :: before[k] == trace[k];
        }
      }
    }
  }

  // Tripped at i by the failures before it, and no full run of successes since.
  predicate Tripped(th: Thresholds, trace: seq<bool>, i: int) {
    && RunEndsAt(trace, i, th.failures, false)
    && forall j | i + th.successes <= j <= |trace| :: !RunEndsAt(trace, j, th.successes, true)
  }

  lemma RunStays(trace: seq<bool>, x: bool, i: int, n: nat, outcome: bool)
    requires i <= |trace|
    ensures RunEndsAt(trace + [x], i, n, outcome) <==> RunEndsAt(trace, i, n, outcome)
  {
    var longer := trace + [x];
    if n <= i {
      assert forall k | i - n <= k < i :: longer[k] == trace[k];
    }
  }

  // How one more outcome changes whether some position has tripped the breaker.
  lemma TrippedStep(th: Thresholds, trace: seq<bool>, x: bool, i: int)
    requires th.Ok() && i <= |trace|
    ensures Tripped(th, trace + [x], i) <==>
              Tripped(th, trace, i) && !RunEndsAt(trace + [x], |trace| + 1, th.successes, true)
  {
    var longer, n := trace + [x], |trace| + 1;
    RunStays(trace, x, i, th.failures, false);
    forall j | j <= |trace| ensures RunEndsAt(longer, j, th.successes, true) <==>
        RunEndsAt(trace, j, th.successes, true) {
      RunStays(trace, x, j, th.successes, true);
    }
    if RunEndsAt(trace, i, th.failures, false) && RunEndsAt(longer, n, th.successes, true) {
      // the failures end before the successes begin
      assert !longer[i - 1];
      assert i + th.successes <= n;
    }
  }

  /** The breaker is open exactly when some run of failures reached its threshold
      and no run of successes has reached the other one after it. */
  lemma {:induction false} OpenIff(th: Thresholds, trace: seq<bool>)
    requires th.Ok()
    ensures After(th, trace).open <==> exists i :: Tripped(th, trace, i)
    decreases |trace|
  {
    if trace != [] {
      var before, x, n := trace[..|trace| - 1], trace[|trace| - 1], |trace|;
      assert before + [x] == trace;
      OpenIff(th, before);
      CountersCount(th, before);
      TrailingIsRun(trace, th.failures, false);
      TrailingIsRun(trace, th.successes, true);
      if i :| Tripped(th, before, i) {
        TrippedStep(th, before, x, i);
      }
      if i :| Tripped(th, trace, i) && i < n {
        TrippedStep(th, before, x, i);
      }
      assert RunEndsAt(trace, n, th.failures, false) <==> Tripped(th, trace, n);
    }
  }

  // ----- the state changes the calls report -----

  // What recording one outcome reports, from the counters it finds.
  function Report(th: Thresholds, c: Counters, success: bool): StateChange {
    if !success && !c.open && c.failureCount + 1 >= th.failures then StateChange(true, false)
    else if success && c.open && c.successCount + 1 >= th.successes then StateChange(false, true)
    else NO_CHANGE
  }

  // The reports of all calls so far, one for each recorded outcome.
  function Reports(th: Thresholds, trace: seq<bool>): seq<StateChange>
    decreases |trace|
  {
    if trace == [] then []
    else
      var before := trace[..|trace| - 1];
      Reports(th, before) + [Report(th, After(th, before), trace[|trace| - 1])]
  }

  lemma {:induction false} ReportAt(th: Thresholds, trace: seq<bool>, i: nat)
    requires i < |trace|
    ensures |Reports(th, trace)| == |trace| && Reports(th, trace)[i] == Report(th, After(th, trace[..i]), trace[i])
    decreases |trace|
  {
    var before := trace[..|trace| - 1];
    if i < |before| {
      ReportAt(th, before, i);
      assert before[..i] == trace[..i] && before[i] == trace[i];
    } else {
      ReportsLength(th, before);
    }
  }

  lemma {:induction false} ReportsLength(th: Thresholds, trace: seq<bool>)
    ensures |Reports(th, trace)| == |trace|
    decreases |trace|
  {
    if trace != [] {
      ReportsLength(th, trace[..|trace| - 1]);
    }
  }

  lemma RunOfPrefix(trace: seq<bool>, i: nat, n: nat, outcome: bool)
    requires i <= |trace|
    ensures RunEndsAt(trace[..i], i, n, outcome) <==> RunEndsAt(trace, i, n, outcome)
  {
    if n <= i {
      assert forall k | i - n <= k < i :: trace[..i][k] == trace[k];
    }
  }

  /** Where in the trace the calls report a change: an opening exactly when a
      breaker that is not open sees its full run of failures, a closing exactly
      when one that is open sees its full run of successes; nothing reports both. */
  lemma ReportedIff(th: Thresholds, trace: seq<bool>, i: nat)
    requires th.Ok() && i < |trace|
    ensures |Reports(th, trace)| == |trace|
    ensures var r, tripped := Reports(th, trace)[i], exists j :: Tripped(th, trace[..i], j);
            && (r.hasOpened <==> !tripped && RunEndsAt(trace, i + 1, th.failures, false))
            && (r.hasClosed <==> tripped && RunEndsAt(trace, i + 1, th.successes, true))
            && !(r.hasOpened && r.hasClosed)
  {
    var before, now := trace[..i], trace[..i + 1];
    assert now[..i] == before && now == before + [trace[i]];
    ReportAt(th, trace, i);
    OpenIff(th, before);
    CountersCount(th, before);
    TrailingIsRun(now, th.failures, false);
    TrailingIsRun(now, th.successes, true);
    RunOfPrefix(trace, i + 1, th.failures, false);
    RunOfPrefix(trace, i + 1, th.successes, true);
  }

  // A report says how the state goes on.
  lemma ReportedState(th: Thresholds, trace: seq<bool>, i: nat)
    requires i < |trace|
    ensures |Reports(th, trace)| == |trace|
    ensures var r := Reports(th, trace)[i];
            && (r.hasOpened ==> !After(th, trace[..i]).open && After(th, trace[..i + 1]).open)
            && (r.hasClosed ==> After(th, trace[..i]).open && !After(th, trace[..i + 1]).open)
            && (!r.hasOpened && !r.hasClosed ==> After(th, trace[..i + 1]).open == After(th, trace[..i]).open)
  {
    ReportAt(th, trace, i);
    assert trace[..i + 1][..i] == trace[..i];
  }

  // Without a report in between the state is the same.
  lemma {:induction false} Unreported(th: Thresholds, trace: seq<bool>, i: nat, j: nat)
    requires i <= j <= |trace| && |Reports(th, trace)| == |trace|
    requires forall k | i <= k < j :: Reports(th, trace)[k] == NO_CHANGE
    ensures After(th, trace[..j]).open == After(th, trace[..i]).open
    decreases j
  {
    if i < j {
      Unreported(th, trace, i, j - 1);
      ReportedState(th, trace, j - 1);
    }
  }

  // Positions with a report, and none in between.
  predicate Next(rs: seq<StateChange>, i: int, j: int) {
    0 <= i < j < |rs| && rs[i] != NO_CHANGE && rs[j] != NO_CHANGE && forall k | i < k < j :: rs[k] == NO_CHANGE
  }

  /** The reported changes strictly alternate: the first is an opening, and each
      is followed by one of the other kind. */
  lemma ReportsAlternate(th: Thresholds, trace: seq<bool>, i: int, j: int)
    ensures var rs := Reports(th, trace);
            && (Next(rs, i, j) ==> rs[i].hasOpened == rs[j].hasClosed && rs[i].hasClosed == rs[j].hasOpened)
            && (0 <= j < |rs| && rs[j] != NO_CHANGE && (forall k | 0 <= k < j :: rs[k] == NO_CHANGE) ==>
                  rs[j].hasOpened)
  {
    var rs := Reports(th, trace);
    ReportsLength(th, trace);
    if Next(rs, i, j) {
      Unreported(th, trace, i + 1, j);
      ReportedState(th, trace, i);
      ReportedState(th, trace, j);
      ReportAt(th, trace, i);
      ReportAt(th, trace, j);
    }
    if 0 <= j < |rs| && rs[j] != NO_CHANGE && forall k | 0 <= k < j :: rs[k] == NO_CHANGE {
      Unreported(th, trace, 0, j);
      ReportedState(th, trace, j);
    }
  }

  predicate FiveFailures(trace: seq<bool>, i: int) {
    5 <= i <= |trace| && !trace[i - 5] && !trace[i - 4] && !trace[i - 3] && !trace[i - 2] && !trace[i - 1]
  }

  predicate ThreeSuccesses(trace: seq<bool>, i: int) {
    3 <= i <= |trace| && trace[i - 3] && trace[i - 2] && trace[i - 1]
  }

  lemma RunsWrittenOut(trace: seq<bool>, i: int)
    ensures RunEndsAt(trace, i, 5, false) <==> FiveFailures(trace, i)
    ensures RunEndsAt(trace, i, 3, true) <==> ThreeSuccesses(trace, i)
  {
  }

  /** With the default thresholds: open exactly when five failures in a row have
      occurred and no three successes in a row since. */
  lemma OpenByDefault(th: Thresholds, trace: seq<bool>)
    requires th.failures == 5 && th.successes == 3
    ensures After(th, trace).open <==>
              exists i :: FiveFailures(trace, i) && forall j | i + 3 <= j <= |trace| :: !ThreeSuccesses(trace, j)
  {
    OpenIff(th, trace);
    forall i ensures RunEndsAt(trace, i, 5, false) <==> FiveFailures(trace, i) {
      RunsWrittenOut(trace, i);
    }
    forall j ensures RunEndsAt(trace, j, 3, true) <==> ThreeSuccesses(trace, j) {
      RunsWrittenOut(trace, j);
    }
    forall i ensures Tripped(th, trace, i) <==>
                       FiveFailures(trace, i) && forall j | i + 3 <= j <= |trace| :: !ThreeSuccesses(trace, j) {
      assert Tripped(th, trace, i) <==>
               RunEndsAt(trace, i, 5, false) && forall j | i + 3 <= j <= |trace| :: !RunEndsAt(trace, j, 3, true);
    }
  }

  // ----- the object -----

  class CircuitBreaker {
    const th: Thresholds
    var open: bool
    var failureCount: nat
    var successCount: nat
    // what the calls were told and what they reported
    ghost var trace: seq<bool>
    ghost var reports: seq<StateChange>

    // Options that are not positive leave the defaults.
    constructor (failureThreshold: int, successThreshold: int)
      ensures Valid() && trace == [] && reports == []
      ensures th.failures == if failureThreshold > 0 then failureThreshold else 5
      ensures th.successes == if successThreshold > 0 then successThreshold else 3
    {
      th := Thresholds(if failureThreshold > 0 then failureThreshold else 5,
                       if successThreshold > 0 then successThreshold else 3);
      open, failureCount, successCount, trace, reports := false, 0, 0, [], [];
    }

    ghost predicate Valid()
      reads this
    {
      th.Ok() && Counters(open, failureCount, successCount) == After(th, trace) && reports == Reports(th, trace)
    }

    method IsOpen() returns (r: bool)
      requires Valid()
      ensures r <==> exists i :: Tripped(th, trace, i)
    {
      OpenIff(th, trace);
      r := open;
    }

    method RecordFailure() returns (useFallback: bool, change: StateChange)
      requires Valid()
      modifies this
      ensures Valid() && trace == old(trace) + [false] && reports == old(reports) + [change]
      ensures useFallback == open
      ensures change == StateChange(open && !old(open), false)
    {
      assert (trace + [false])[..|trace|] == trace;
      trace := trace + [false];
      failureCount := failureCount + 1;
      successCount := 0;
      useFallback, change := open, NO_CHANGE;
      if !open && failureCount >= th.failures {
        open := true;
        useFallback, change := true, StateChange(true, false);
      }
      reports := reports + [change];
    }

    method RecordSuccess() returns (usePrimary: bool, change: StateChange)
      requires Valid()
      modifies this
      ensures Valid() && trace == old(trace) + [true] && reports == old(reports) + [change]
      ensures usePrimary == !open
      ensures change == StateChange(false, old(open) && !open)
    {
      assert (trace + [true])[..|trace|] == trace;
      trace := trace + [true];
      usePrimary, change := true, NO_CHANGE;
      if open {
        usePrimary := false;
        successCount := successCount + 1;
        if successCount >= th.successes {
          open := false;
          failureCount := 0;
          successCount := 0;
          usePrimary, change := true, StateChange(false, true);
        }
      } else {
        failureCount := 0;
      }
      reports := reports + [change];
    }
  }
}
