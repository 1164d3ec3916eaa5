/** Audit events and gauge as steps of their own: a call emits them after its
    transaction has ended, so concurrent calls may commit in one order and emit
    in another. */
module ConsentEmission {
  import opened Common
  import opened ConsentRules
  import opened ConsentLedger
  import opened ConsentHistory
  import opened ConsentTheorems

  // Each call that went through has a list of effects it has yet to emit.
  datatype Emission = Emission(ledger: Ledger, pending: seq<seq<Effect>>, trail: seq<Event>, gauge: int)

  datatype Act = Commit(op: Op, env: TxEnv) | Emit(call: nat)

  // The effects a call is going to emit.
  function Owed(pol: Policy, kind: TxKind, l: Ledger, op: Op, env: TxEnv): seq<Effect> {
    if Refusal(op).Some? || !env.begins || Body(pol, l, op).error.Some? || (kind.Rollback? && !env.commits) then []
    else Body(pol, l, op).effects
  }

  function EmitNext(e: Emission, k: nat): Emission {
    if k < |e.pending| && e.pending[k] != [] then
      var next := e.pending[k][0];
      Emission(e.ledger, e.pending[k := e.pending[k][1..]], e.trail + [next.event], e.gauge + next.gauge)
    else e
  }

  function Do(pol: Policy, kind: TxKind, e: Emission, a: Act): Emission {
    match a
    case Commit(op, env) =>
      e.(ledger := Serve(pol, kind, Service(e.ledger, [], 0), op, env).ledger,
         pending := e.pending + [Owed(pol, kind, e.ledger, op, env)])
    case Emit(k) => EmitNext(e, k)
  }

  function DoAll(pol: Policy, kind: TxKind, acts: seq<Act>): Emission
    decreases |acts|
  {
    if acts == [] then Emission(map[], [], [], 0)
    else Do(pol, kind, DoAll(pol, kind, acts[..|acts| - 1]), acts[|acts| - 1])
  }

  // The calls, in the order of their transactions.
  function Calls(acts: seq<Act>): seq<(Op, TxEnv)>
    decreases |acts|
  {
    if acts == [] then []
    else
      var before, a := Calls(acts[..|acts| - 1]), acts[|acts| - 1];
      if a.Commit? then before + [(a.op, a.env)] else before
  }

  // Nobody has anything left to emit.
  predicate Quiescent(e: Emission) {
    forall k | 0 <= k < |e.pending| :: e.pending[k] == []
  }

  // ----- what is still to come -----

  function Waiting(pending: seq<seq<Effect>>): seq<Event>
    decreases |pending|
  {
    if pending == [] then [] else Waiting(pending[..|pending| - 1]) + Events(pending[|pending| - 1])
  }

  function WaitingGauge(pending: seq<seq<Effect>>): int
    decreases |pending|
  {
    if pending == [] then 0 else WaitingGauge(pending[..|pending| - 1]) + GaugeChange(pending[|pending| - 1])
  }

  lemma {:induction false} GaugeOfHead(es: seq<Effect>)
    requires es != []
    ensures GaugeChange(es) == es[0].gauge + GaugeChange(es[1..])
    decreases |es|
  {
    if |es| > 1 {
      GaugeOfHead(es[..|es| - 1]);
      assert es[1..][..|es| - 2] == es[..|es| - 1][1..];
    }
  }

  lemma EventsOfHead(es: seq<Effect>)
    requires es != []
    ensures Events(es) == [es[0].event] + Events(es[1..])
  {
  }

  // Emitting takes one event, and its gauge change, from what is waiting.
  lemma {:induction false} WaitingLess(pending: seq<seq<Effect>>, k: nat)
    requires k < |pending| && pending[k] != []
    ensures multiset(Waiting(pending)) ==
              multiset(Waiting(pending[k := pending[k][1..]])) + multiset{pending[k][0].event}
    decreases |pending|
  {
    var n := |pending| - 1;
    var less, init := pending[k := pending[k][1..]], pending[..n];
    if k == n {
      assert less[..n] == init;
      EventsOfHead(pending[k]);
    } else {
      WaitingLess(init, k);
      assert less[..n] == init[k := init[k][1..]];
    }
  }

  lemma {:induction false} WaitingGaugeLess(pending: seq<seq<Effect>>, k: nat)
    requires k < |pending| && pending[k] != []
    ensures WaitingGauge(pending) == WaitingGauge(pending[k := pending[k][1..]]) + pending[k][0].gauge
    decreases |pending|
  {
    var n := |pending| - 1;
    var less, init := pending[k := pending[k][1..]], pending[..n];
    if k == n {
      assert less[..n] == init;
      GaugeOfHead(pending[k]);
    } else {
      WaitingGaugeLess(init, k);
      assert less[..n] == init[k := init[k][1..]];
    }
  }

  lemma WaitingMore(pending: seq<seq<Effect>>, es: seq<Effect>)
    ensures Waiting(pending + [es]) == Waiting(pending) + Events(es)
    ensures WaitingGauge(pending + [es]) == WaitingGauge(pending) + GaugeChange(es)
  {
    assert (pending + [es])[..|pending|] == pending;
  }

  lemma {:induction false} NothingWaits(pending: seq<seq<Effect>>)
    requires forall k | 0 <= k < |pending| :: pending[k] == []
    ensures Waiting(pending) == [] && WaitingGauge(pending) == 0
    decreases |pending|
  {
    if pending != [] {
      NothingWaits(pending[..|pending| - 1]);
    }
  }

  // ----- emission is a permutation -----

  lemma CommitServes(pol: Policy, kind: TxKind, s: Service, op: Op, env: TxEnv)
    ensures var s', owed := Serve(pol, kind, s, op, env), Owed(pol, kind, s.ledger, op, env);
            && s'.ledger == Serve(pol, kind, Service(s.ledger, [], 0), op, env).ledger
            && s'.trail == s.trail + Events(owed) && s'.gauge == s.gauge + GaugeChange(owed)
  {
  }

  // Emitted and owed together are what was served, up to the order.
  predicate Balanced(e: Emission, s: Service) {
    && e.ledger == s.ledger
    && multiset(e.trail) + multiset(Waiting(e.pending)) == multiset(s.trail)
    && e.gauge + WaitingGauge(e.pending) == s.gauge
  }

  lemma OwedBalanced(trail: seq<Event>, waiting: seq<Event>, served: seq<Event>, owed: seq<Event>)
    requires multiset(trail) + multiset(waiting) == multiset(served)
    ensures multiset(trail) + multiset(waiting + owed) == multiset(served + owed)
  {
  }

  lemma CommitBalanced(pol: Policy, kind: TxKind, e: Emission, s: Service, op: Op, env: TxEnv)
    requires Balanced(e, s)
    ensures Balanced(Do(pol, kind, e, Commit(op, env)), Serve(pol, kind, s, op, env))
  {
    var owed := Owed(pol, kind, e.ledger, op, env);
    CommitServes(pol, kind, s, op, env);
    WaitingMore(e.pending, owed);
    OwedBalanced(e.trail, Waiting(e.pending), s.trail, Events(owed));
  }

  lemma EmitBalanced(e: Emission, s: Service, k: nat)
    requires Balanced(e, s)
    ensures Balanced(EmitNext(e, k), s)
  {
    if k < |e.pending| && e.pending[k] != [] {
      WaitingLess(e.pending, k);
      WaitingGaugeLess(e.pending, k);
    }
  }

  /** Whatever is committed and emitted in whatever order, under either kind of
      transaction: the ledger is that of the calls served one after another; the
      events emitted and those still to come are together that service's audit
      trail, up to their order; and the same holds of the gauge. */
  lemma {:induction false} EmissionPermutes(pol: Policy, kind: TxKind, acts: seq<Act>)
    ensures Balanced(DoAll(pol, kind, acts), ServeAll(pol, kind, START, Calls(acts)))
    decreases |acts|
  {
    if acts != [] {
      var before, a := acts[..|acts| - 1], acts[|acts| - 1];
      var e, s := DoAll(pol, kind, before), ServeAll(pol, kind, START, Calls(before));
      EmissionPermutes(pol, kind, before);
      if a.Commit? {
        CommitBalanced(pol, kind, e, s, a.op, a.env);
        assert (Calls(before) + [(a.op, a.env)])[..|Calls(before)|] == Calls(before);
      } else {
        EmitBalanced(e, s, a.call);
      }
    }
  }

  /** When everybody has emitted, with rolled-back transactions: the audit trail
      is a permutation of the state-changing events, and the gauge is right. */
  lemma QuiescentTrail(pol: Policy, acts: seq<Act>)
    requires pol.Ok() && Quiescent(DoAll(pol, Rollback, acts))
    ensures var e, changes := DoAll(pol, Rollback, acts), ChangesOf(pol, Rollback, Calls(acts));
            && multiset(e.trail) == multiset(changes) && e.ledger == Replay(pol, changes)
            && e.gauge == |Unrevoked(e.ledger)| + ExpiredRenewals(pol, changes) + Erased(pol, changes)
  {
    EmissionPermutes(pol, Rollback, acts);
    NothingWaits(DoAll(pol, Rollback, acts).pending);
    TrailTellsLedger(pol, Calls(acts));
  }

  // ----- when the order matters -----

  function EventUser(e: Event): UserId {
    if e.Granted? || e.Revoked? then e.scope.user else e.user
  }

  function ForUser(trail: seq<Event>, u: UserId): seq<Event>
    decreases |trail|
  {
    if trail == [] then []
    else
      var before, e := ForUser(trail[..|trail| - 1], u), trail[|trail| - 1];
      if EventUser(e) == u then before + [e] else before
  }

  lemma {:induction false} ForUserConcat(a: seq<Event>, b: seq<Event>, u: UserId)
    ensures ForUser(a + b, u) == ForUser(a, u) + ForUser(b, u)
    decreases |b|
  {
    if b == [] {
      assert a + b == a;
    } else {
      assert (a + b)[..|a + b| - 1] == a + b[..|b| - 1];
      ForUserConcat(a, b[..|b| - 1], u);
    }
  }

  lemma Regroup(a: seq<Event>, b: seq<Event>, c: seq<Event>)
    ensures (a + b) + c == a + (b + c)
  {
  }

  // An event says nothing about other users.
  lemma ApplyOther(pol: Policy, l: Ledger, e: Event, sc: Scope)
    requires EventUser(e) != sc.user
    ensures Lookup(Apply(pol, l, e), sc) == Lookup(l, sc)
  {
  }

  // What an event does at a scope depends on that scope alone.
  lemma ApplyLocal(pol: Policy, l: Ledger, l': Ledger, e: Event, sc: Scope)
    requires Lookup(l, sc) == Lookup(l', sc)
    ensures Lookup(Apply(pol, l, e), sc) == Lookup(Apply(pol, l', e), sc)
  {
  }

  lemma {:induction false} ReplayForUser(pol: Policy, trail: seq<Event>, sc: Scope)
    ensures Lookup(Replay(pol, trail), sc) == Lookup(Replay(pol, ForUser(trail, sc.user)), sc)
    decreases |trail|
  {
    if trail != [] {
      var before, e := trail[..|trail| - 1], trail[|trail| - 1];
      var mine := ForUser(before, sc.user);
      ReplayForUser(pol, before, sc);
      if EventUser(e) == sc.user {
        assert (mine + [e])[..|mine|] == mine;
        ApplyLocal(pol, Replay(pol, before), Replay(pol, mine), e, sc);
      } else {
        ApplyOther(pol, Replay(pol, before), e, sc);
      }
    }
  }

  /** Two trails tell the same ledger when each user's events are in the same order. */
  lemma SameForUsers(pol: Policy, a: seq<Event>, b: seq<Event>)
    requires forall u :: ForUser(a, u) == ForUser(b, u)
    ensures Replay(pol, a) == Replay(pol, b)
  {
    forall sc ensures Lookup(Replay(pol, a), sc) == Lookup(Replay(pol, b), sc) {
      ReplayForUser(pol, a, sc);
      ReplayForUser(pol, b, sc);
      assert ForUser(a, sc.user) == ForUser(b, sc.user);
    }
    SameLookups(Replay(pol, a), Replay(pol, b));
  }

  lemma SameLookups(l: Ledger, l': Ledger)
    requires forall sc :: Lookup(l, sc) == Lookup(l', sc)
    ensures l == l'
  {
    assert forall sc :: sc in l <==> Lookup(l, sc).Some?;
    assert forall sc :: sc in l' <==> Lookup(l', sc).Some?;
    assert forall sc | sc in l :: Lookup(l, sc) == Some(l[sc]) && Lookup(l', sc) == Some(l'[sc]);
  }

  // No call before the k-th still has to emit an event of the user.
  predicate NoneBefore(pending: seq<seq<Effect>>, k: nat, u: UserId)
    requires k <= |pending|
  {
    forall j, i | 0 <= j < k && 0 <= i < |pending[j]| :: EventUser(pending[j][i].event) != u
  }

  // Every event is emitted after those of the same user that were committed before it.
  predicate OrderedPerUser(pol: Policy, kind: TxKind, acts: seq<Act>)
    decreases |acts|
  {
    acts == [] ||
    var before, a := acts[..|acts| - 1], acts[|acts| - 1];
    var pending := DoAll(pol, kind, before).pending;
    && OrderedPerUser(pol, kind, before)
    && (a.Emit? && a.call < |pending| && pending[a.call] != [] ==>
          NoneBefore(pending, a.call, EventUser(pending[a.call][0].event)))
  }

  lemma {:induction false} NoEventsOf(es: seq<Effect>, u: UserId)
    requires forall i | 0 <= i < |es| :: EventUser(es[i].event) != u
    ensures ForUser(Events(es), u) == []
    decreases |es|
  {
    if es != [] {
      assert Events(es)[..|es| - 1] == Events(es[..|es| - 1]);
      NoEventsOf(es[..|es| - 1], u);
    }
  }

  lemma {:induction false} NoneWaits(pending: seq<seq<Effect>>, u: UserId)
    requires NoneBefore(pending, |pending|, u)
    ensures ForUser(Waiting(pending), u) == []
    decreases |pending|
  {
    if pending != [] {
      var n := |pending| - 1;
      NoneWaits(pending[..n], u);
      NoEventsOf(pending[n], u);
      ForUserConcat(Waiting(pending[..n]), Events(pending[n]), u);
    }
  }

  // The event emitted is the user's first of those waiting; other users' stay as they are.
  lemma FirstOfLast(pending: seq<seq<Effect>>, u: UserId)
    requires pending != [] && pending[|pending| - 1] != []
    requires var n := |pending| - 1; EventUser(pending[n][0].event) == u ==> NoneBefore(pending, n, u)
    ensures var n := |pending| - 1;
            ForUser(Waiting(pending), u) ==
              ForUser([pending[n][0].event], u) + ForUser(Waiting(pending[n := pending[n][1..]]), u)
  {
    var n := |pending| - 1;
    var head, rest, less := [pending[n][0].event], Events(pending[n][1..]), pending[n := pending[n][1..]];
    var init := pending[..n];
    assert less[..n] == init && Waiting(less) == Waiting(init) + rest;
    EventsOfHead(pending[n]);
    ForUserConcat(Waiting(init), head + rest, u);
    ForUserConcat(head, rest, u);
    ForUserConcat(Waiting(init), rest, u);
    if EventUser(pending[n][0].event) == u {
      NoneWaits(init, u);
    } else {
      assert head[..0] == [] && ForUser(head, u) == [];
    }
  }

  lemma {:induction false} FirstOfUser(pending: seq<seq<Effect>>, k: nat, u: UserId)
    requires k < |pending| && pending[k] != []
    requires EventUser(pending[k][0].event) == u ==> NoneBefore(pending, k, u)
    ensures ForUser(Waiting(pending), u) ==
              ForUser([pending[k][0].event], u) + ForUser(Waiting(pending[k := pending[k][1..]]), u)
    decreases |pending|
  {
    var n := |pending| - 1;
    if k == n {
      FirstOfLast(pending, u);
    } else {
      var less, init, last := pending[k := pending[k][1..]], pending[..n], Events(pending[n]);
      FirstOfUser(init, k, u);
      assert less[..n] == init[k := init[k][1..]] && less[n] == pending[n];
      ForUserConcat(Waiting(init), last, u);
      ForUserConcat(Waiting(less[..n]), last, u);
      Regroup(ForUser([pending[k][0].event], u), ForUser(Waiting(less[..n]), u), ForUser(last, u));
    }
  }

  // More is owed by the last call and served in the same order.
  lemma OwedForUser(trail: seq<Event>, waiting: seq<Event>, served: seq<Event>, owed: seq<Event>, u: UserId)
    requires ForUser(trail, u) + ForUser(waiting, u) == ForUser(served, u)
    ensures ForUser(trail, u) + ForUser(waiting + owed, u) == ForUser(served + owed, u)
  {
    ForUserConcat(waiting, owed, u);
    ForUserConcat(served, owed, u);
    Regroup(ForUser(trail, u), ForUser(waiting, u), ForUser(owed, u));
  }

  lemma EmittedForUser(trail: seq<Event>, e: Event, waiting: seq<Event>, less: seq<Event>, served: seq<Event>,
                       u: UserId)
    requires ForUser(trail, u) + ForUser(waiting, u) == ForUser(served, u)
    requires ForUser(waiting, u) == ForUser([e], u) + ForUser(less, u)
    ensures ForUser(trail + [e], u) + ForUser(less, u) == ForUser(served, u)
  {
    ForUserConcat(trail, [e], u);
    Regroup(ForUser(trail, u), ForUser([e], u), ForUser(less, u));
  }

  // So far each user's events come in the order of the calls served one after another.
  predicate InOrderFor(e: Emission, s: Service, u: UserId) {
    ForUser(e.trail, u) + ForUser(Waiting(e.pending), u) == ForUser(s.trail, u)
  }

  lemma CommitOrdered(pol: Policy, kind: TxKind, e: Emission, s: Service, op: Op, env: TxEnv, u: UserId)
    requires e.ledger == s.ledger && InOrderFor(e, s, u)
    ensures InOrderFor(Do(pol, kind, e, Commit(op, env)), Serve(pol, kind, s, op, env), u)
  {
    var owed := Owed(pol, kind, e.ledger, op, env);
    CommitServes(pol, kind, s, op, env);
    WaitingMore(e.pending, owed);
    OwedForUser(e.trail, Waiting(e.pending), s.trail, Events(owed), u);
  }

  lemma EmitOrdered(e: Emission, s: Service, k: nat, u: UserId)
    requires k < |e.pending| && e.pending[k] != [] ==> NoneBefore(e.pending, k, EventUser(e.pending[k][0].event))
    requires InOrderFor(e, s, u)
    ensures InOrderFor(EmitNext(e, k), s, u)
  {
    if k < |e.pending| && e.pending[k] != [] {
      var less := Waiting(e.pending[k := e.pending[k][1..]]);
      FirstOfUser(e.pending, k, u);
      EmittedForUser(e.trail, e.pending[k][0].event, Waiting(e.pending), less, s.trail, u);
    }
  }

  lemma {:induction false} OrderedForUser(pol: Policy, kind: TxKind, acts: seq<Act>, u: UserId)
    requires OrderedPerUser(pol, kind, acts)
    ensures InOrderFor(DoAll(pol, kind, acts), ServeAll(pol, kind, START, Calls(acts)), u)
    decreases |acts|
  {
    if acts != [] {
      var before, a := acts[..|acts| - 1], acts[|acts| - 1];
      var e, s := DoAll(pol, kind, before), ServeAll(pol, kind, START, Calls(before));
      OrderedForUser(pol, kind, before, u);
      if a.Commit? {
        EmissionPermutes(pol, kind, before);
        CommitOrdered(pol, kind, e, s, a.op, a.env, u);
        assert (Calls(before) + [(a.op, a.env)])[..|Calls(before)|] == Calls(before);
      } else {
        EmitOrdered(e, s, a.call, u);
      }
    }
  }

  /** When everybody has emitted and each user's events came in the order of their
      transactions, the audit trail tells the ledger, however the calls of
      different users were interleaved. */
  lemma OrderedTrailTells(pol: Policy, acts: seq<Act>)
    requires pol.Ok() && Quiescent(DoAll(pol, Rollback, acts)) && OrderedPerUser(pol, Rollback, acts)
    ensures var e := DoAll(pol, Rollback, acts); e.ledger == Replay(pol, e.trail)
  {
    var e, s := DoAll(pol, Rollback, acts), ServeAll(pol, Rollback, START, Calls(acts));
    EmissionPermutes(pol, Rollback, acts);
    NothingWaits(e.pending);
    TrailTellsLedger(pol, Calls(acts));
    forall u ensures ForUser(e.trail, u) == ForUser(s.trail, u) {
      OrderedForUser(pol, Rollback, acts, u);
    }
    SameForUsers(pol, e.trail, s.trail);
  }

  lemma CommitCause(pol: Policy, e: Emission, ev: Event)
    requires pol.Ok() && LedgerOk(pol, e.ledger) && Legal(pol, e.ledger, ev)
    ensures var e' := Do(pol, Rollback, e, Commit(Cause(ev), TxEnv(true, true)));
            && e'.trail == e.trail && e'.ledger == Apply(pol, e.ledger, ev)
            && |e'.pending| == |e.pending| + 1 && e'.pending[..|e.pending|] == e.pending
            && Events(e'.pending[|e.pending|]) == [ev]
  {
    var s := Service(e.ledger, [], 0);
    CauseServed(pol, Rollback, s, ev);
    CommitServes(pol, Rollback, s, Cause(ev), TxEnv(true, true));
    assert [] + [ev] == [ev] && [] + Events(Owed(pol, Rollback, e.ledger, Cause(ev), TxEnv(true, true))) ==
           Events(Owed(pol, Rollback, e.ledger, Cause(ev), TxEnv(true, true)));
  }

  // Two calls with one event each, emitted the other way round.
  lemma Swapped(e: Emission, a: Event, b: Event)
    requires e.trail == [] && |e.pending| == 2 && Events(e.pending[0]) == [a] && Events(e.pending[1]) == [b]
    ensures var e' := EmitNext(EmitNext(e, 1), 0); Quiescent(e') && e'.trail == [b, a] && e'.ledger == e.ledger
  {
    assert |e.pending[0]| == |Events(e.pending[0])| && |e.pending[1]| == |Events(e.pending[1])|;
    assert e.pending[0][0].event == Events(e.pending[0])[0] && e.pending[1][0].event == Events(e.pending[1])[0];
  }

  lemma TwoCommits(pol: Policy, c1: Act, c2: Act)
    ensures var e2 := Do(pol, Rollback, Do(pol, Rollback, Emission(map[], [], [], 0), c1), c2);
            DoAll(pol, Rollback, [c1, c2, Emit(1), Emit(0)]) == EmitNext(EmitNext(e2, 1), 0)
  {
    var acts := [c1, c2, Emit(1), Emit(0)];
    assert acts[..3] == [c1, c2, Emit(1)] && acts[..3][..2] == [c1, c2];
    assert [c1, c2][..1] == [c1] && [c1][..0] == [];
    assert DoAll(pol, Rollback, [c1]) == Do(pol, Rollback, Emission(map[], [], [], 0), c1);
    assert DoAll(pol, Rollback, [c1, c2]) == Do(pol, Rollback, DoAll(pol, Rollback, [c1]), c2);
    assert DoAll(pol, Rollback, acts[..3]) == EmitNext(DoAll(pol, Rollback, [c1, c2]), 1);
  }

  lemma ReplayTwo(pol: Policy, b: Event, a: Event)
    ensures Replay(pol, [b, a]) == Apply(pol, Apply(pol, map[], b), a)
  {
    assert [b, a][..1] == [b] && [b][..0] == [];
    assert Replay(pol, [b]) == Apply(pol, map[], b);
  }

  lemma RevokedOrGranted(pol: Policy, sc: Scope, t: Time)
    requires pol.Ok() && sc.IsValid() && t != ZERO_TIME
    ensures var g, v := Granted(sc, t), Revoked(sc, t);
            && Legal(pol, map[], g) && LedgerOk(pol, Apply(pol, map[], g)) && Legal(pol, Apply(pol, map[], g), v)
            && Require(Apply(pol, Apply(pol, map[], g), v), sc.user, sc.purpose, t).Failure?
            && Require(Apply(pol, Apply(pol, map[], v), g), sc.user, sc.purpose, t).Success?
  {
  }

  lemma CommittedBoth(pol: Policy, e0: Emission, g: Event, v: Event)
    requires pol.Ok() && e0 == Emission(map[], [], [], 0) && Legal(pol, map[], g)
    requires LedgerOk(pol, Apply(pol, map[], g)) && Legal(pol, Apply(pol, map[], g), v)
    ensures var env := TxEnv(true, true);
            var e2 := Do(pol, Rollback, Do(pol, Rollback, e0, Commit(Cause(g), env)), Commit(Cause(v), env));
            && e2.trail == [] && |e2.pending| == 2 && e2.ledger == Apply(pol, Apply(pol, map[], g), v)
            && Events(e2.pending[0]) == [g] && Events(e2.pending[1]) == [v]
  {
    var env := TxEnv(true, true);
    CommitCause(pol, e0, g);
    var e1 := Do(pol, Rollback, e0, Commit(Cause(g), env));
    CommitCause(pol, e1, v);
    var e2 := Do(pol, Rollback, e1, Commit(Cause(v), env));
    assert e2.pending[0] == e2.pending[..1][0];
  }

  /** Out of order it need not, at any scope and time: a grant and a revocation
      of the same consent that emit the other way round leave a trail that says
      the consent stands. */
  lemma MisorderedTrail(pol: Policy, sc: Scope, t: Time)
    requires pol.Ok() && sc.IsValid() && t != ZERO_TIME
    ensures var env, g, v := TxEnv(true, true), Granted(sc, t), Revoked(sc, t);
            var e := DoAll(pol, Rollback, [Commit(Cause(g), env), Commit(Cause(v), env), Emit(1), Emit(0)]);
            && Quiescent(e) && e.trail == [v, g]
            && Require(e.ledger, sc.user, sc.purpose, t).Failure?
            && Require(Replay(pol, e.trail), sc.user, sc.purpose, t).Success?
  {
    var env, g, v := TxEnv(true, true), Granted(sc, t), Revoked(sc, t);
    var e0 := Emission(map[], [], [], 0);
    RevokedOrGranted(pol, sc, t);
    CommittedBoth(pol, e0, g, v);
    TwoCommits(pol, Commit(Cause(g), env), Commit(Cause(v), env));
    Swapped(Do(pol, Rollback, Do(pol, Rollback, e0, Commit(Cause(g), env)), Commit(Cause(v), env)), g, v);
    ReplayTwo(pol, v, g);
  }
}
