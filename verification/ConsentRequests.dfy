/** How the consent handler prepares a list of purposes (internal/consent/handler/requests.go). */
module ConsentRequests {
  import opened Common
  import opened ConsentRules
  import opened ConsentLedger

  // Each element where it occurs first.
  function FirstOccurrences<T(==)>(xs: seq<T>): seq<T>
    decreases |xs|
  {
    if xs == [] then []
    else
      var init, last := xs[..|xs| - 1], xs[|xs| - 1];
      if last in init then FirstOccurrences(init) else FirstOccurrences(init) + [last]
  }

  function Mapped(f: string -> string, xs: seq<string>): seq<string> {
    seq(|xs|, i requires 0 <= i < |xs| => f(xs[i]))
  }

  /** The same elements, none twice. */
  lemma {:induction false} FirstOccurrencesDistinct<T>(xs: seq<T>)
    ensures forall x :: x in FirstOccurrences(xs) <==> x in xs
    ensures forall i, j :: 0 <= i < j < |FirstOccurrences(xs)| ==> FirstOccurrences(xs)[i] != FirstOccurrences(xs)[j]
    decreases |xs|
  {
    if xs != [] {
      assert xs == xs[..|xs| - 1] + [xs[|xs| - 1]];
      FirstOccurrencesDistinct(xs[..|xs| - 1]);
    }
  }

  // dedupePurposes; trim stands for strings.TrimSpace.
  method DedupePurposes(purposes: seq<string>, trim: string -> string) returns (result: seq<string>)
    ensures result == FirstOccurrences(Mapped(trim, purposes))
  {
    var seen: set<string> := {};
    result := [];
    ghost var all := Mapped(trim, purposes);
    for i := 0 to |purposes|
      invariant result == FirstOccurrences(all[..i])
      invariant forall x :: x in seen <==> x in all[..i]
    {
      var normalized := trim(purposes[i]);
      assert all[..i + 1] == all[..i] + [normalized];
      if normalized in seen {
        continue;
      }
      seen := seen + {normalized};
      result := result + [normalized];
    }
    assert all[..|purposes|] == all;
  }

  /** Removing duplicates before a grant changes neither its success nor the
      ledger and the effects it leaves. */
  lemma DedupeHarmless(pol: Policy, l: Ledger, user: UserId, ps: seq<Purpose>, now: Time)
    requires pol.Ok()
    ensures var a, b := GrantMany(pol, l, user, ps, now), GrantMany(pol, l, user, FirstOccurrences(ps), now);
            && (a.error.None? <==> b.error.None?)
            && (a.error.None? ==> a.ledger == b.ledger && multiset(a.effects) == multiset(b.effects))
  {
    FirstOccurrencesDistinct(ps);
    GrantOrderIrrelevant(pol, l, user, ps, FirstOccurrences(ps), now);
  }
}
