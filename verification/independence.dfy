/** The order in which spells contribute before finalisation does not matter. */
module OrderIndependence {
  import opened Agreement
  import opened Contributions
  import opened Fingerprints
  import opened History
  import opened Nsgs
  import opened Permutations
  import opened Programs
  import opened Rules
  import opened Traffic
  import opened VcnBuilder

  // ---- Deduplication, up to descriptions -------------------------------------------------------------

  function BareCall(c: Call): Call {
    if c.Unique? then c.(rule := Bare(c.rule)) else c
  }

  function BareCalls(calls: seq<Call>): seq<Call> {
    FlatMap(c => [BareCall(c)], calls)
  }

  lemma BareSnoc(calls: seq<Call>, c: Call)
    ensures BareCalls(calls + [c]) == BareCalls(calls) + [BareCall(c)]
  {
    assert (calls + [c])[..|calls|] == calls;
  }

  /** Dropping descriptions before or after deduplication is the same. */
  lemma {:induction false} BareAccepted(calls: seq<Call>)
    ensures KeysIn(BareCalls(calls)) == KeysIn(calls)
    ensures Accepted(BareCalls(calls)) == BareCalls(Accepted(calls))
    decreases |calls|
  {
    if calls != [] {
      var init, last := calls[..|calls| - 1], calls[|calls| - 1];
      assert calls == init + [last];
      BareAccepted(init);
      BareSnoc(init, last);
      CallsSnoc(init, last);
      CallsSnoc(BareCalls(init), BareCall(last));
      BareSnoc(Accepted(init), last);
    }
  }

  /** The same key always asks for the same thing. */
  predicate Consistent(calls: seq<Call>) {
    forall a, b :: a in calls && b in calls && a.Unique? && b.Unique? && a.key == b.key ==> a == b
  }

  /** How often deduplication keeps a call depends only on how often it was made. */
  lemma {:induction false} AcceptedCount(calls: seq<Call>, c: Call)
    requires Consistent(calls)
    ensures multiset(Accepted(calls))[c] ==
            if c.Unique? then (if c in calls then 1 else 0) else multiset(calls)[c]
    decreases |calls|
  {
    if calls != [] {
      var init, last := calls[..|calls| - 1], calls[|calls| - 1];
      assert calls == init + [last];
      assert forall x :: x in init ==> x in calls;
      AcceptedCount(init, c);
      if last.Unique? {
        if last.key in KeysIn(init) {
          var first :| first in init && first.Unique? && first.key == last.key;
          assert first in calls && last in calls && first == last;
        } else {
          assert last !in init;
        }
      }
    }
  }

  lemma AcceptedPermutes(a: seq<Call>, b: seq<Call>)
    requires Consistent(a) && multiset(a) == multiset(b)
    ensures multiset(Accepted(a)) == multiset(Accepted(b))
  {
    assert forall c :: c in a <==> c in multiset(a);
    assert forall c :: c in b <==> c in multiset(b);
    forall c: Call
      ensures multiset(Accepted(a))[c] == multiset(Accepted(b))[c]
    {
      AcceptedCount(a, c);
      AcceptedCount(b, c);
    }
  }

  // ---- Lists as images of calls ----------------------------------------------------------------------

  function BareRulesAt(t: Tier, d: Direction): Call -> seq<Rule> {
    c => BareAll(CallLists(c).At(t, d))
  }

  lemma BareAllAppend(a: seq<Rule>, b: seq<Rule>)
    ensures BareAll(a + b) == BareAll(a) + BareAll(b)
  {
  }

  lemma {:induction false} GatheredBare(calls: seq<Call>, t: Tier, d: Direction)
    ensures BareAll(Gather(calls).At(t, d)) == FlatMap(BareRulesAt(t, d), calls)
    decreases |calls|
  {
    if calls != [] {
      var init, last := calls[..|calls| - 1], calls[|calls| - 1];
      GatheredBare(init, t, d);
      JoinAt(Gather(init), CallLists(last), t, d);
      BareAllAppend(Gather(init).At(t, d), CallLists(last).At(t, d));
    }
  }

  lemma BareCallRules(c: Call, t: Tier, d: Direction)
    ensures BareRulesAt(t, d)(BareCall(c)) == BareRulesAt(t, d)(c)
  {
    if c.Unique? {
      OnlyAt(c.tier, c.dir, [c.rule], t, d);
      OnlyAt(c.tier, c.dir, [Bare(c.rule)], t, d);
    }
  }

  lemma {:induction false} BareCallsRules(calls: seq<Call>, t: Tier, d: Direction)
    ensures FlatMap(BareRulesAt(t, d), BareCalls(calls)) == FlatMap(BareRulesAt(t, d), calls)
    decreases |calls|
  {
    if calls != [] {
      var init, last := calls[..|calls| - 1], calls[|calls| - 1];
      assert calls == init + [last];
      BareCallsRules(init, t, d);
      BareSnoc(init, last);
      FlatMapAppend(BareRulesAt(t, d), BareCalls(init), [BareCall(last)]);
      FlatMapOne(BareRulesAt(t, d), BareCall(last));
      BareCallRules(last, t, d);
    }
  }

  /** Reordered contributions gather to the same rules, up to order and descriptions. */
  lemma {:induction false} GatherPermutes(a: seq<Call>, b: seq<Call>, t: Tier, d: Direction)
    requires Consistent(BareCalls(a)) && multiset(a) == multiset(b)
    ensures multiset(BareAll(Gather(Accepted(a)).At(t, d))) == multiset(BareAll(Gather(Accepted(b)).At(t, d)))
  {
    var f := BareRulesAt(t, d);
    FlatMapPermutes(c => [BareCall(c)], a, b);
    AcceptedPermutes(BareCalls(a), BareCalls(b));
    BareAccepted(a);
    BareAccepted(b);
    FlatMapPermutes(f, BareCalls(Accepted(a)), BareCalls(Accepted(b)));
    BareCallsRules(Accepted(a), t, d);
    BareCallsRules(Accepted(b), t, d);
    GatheredBare(Accepted(a), t, d);
    GatheredBare(Accepted(b), t, d);
  }

  // ---- Histories as bags of steps --------------------------------------------------------------------

  function CallsWith(site: Site, roster: map<nat, Member>): Step -> seq<Call> {
    step => StepCalls(site, roster, step)
  }

  /** The handles a step uses mean the same in both rosters. */
  predicate SameHandles(step: Step, a: map<nat, Member>, b: map<nat, Member>) {
    step.Relate? ==>
      && step.src in a && step.tgt in a && step.src in b && step.tgt in b
      && a[step.src] == b[step.src] && a[step.tgt] == b[step.tgt]
  }

  lemma SameHandlesSameCalls(site: Site, step: Step, a: map<nat, Member>, b: map<nat, Member>)
    requires SameHandles(step, a, b)
    ensures StepCalls(site, a, step) == StepCalls(site, b, step)
  {
  }

  /** On an open network the contributions are those of the steps, read with the final roster. */
  lemma {:induction false} OpenCallsOf(site: Site, h: seq<Step>, n: nat)
    requires AllAllowed(site, h) && !Closed(h) && n <= |h|
    ensures CallsOf(site, h[..n]) == FlatMap(CallsWith(site, Roster(h)), h[..n])
    decreases n
  {
    hide StepCalls, Roster, Allowed;
    if n > 0 {
      OpenCallsOf(site, h, n - 1);
      assert h[..n][..n - 1] == h[..n - 1];
      if Closed(h[..n - 1]) {
        ClosedGrows(h, n - 1);
      }
      if h[n - 1].Relate? {
        RelateEnds(site, h, n - 1);
      }
      SameHandlesSameCalls(site, h[n - 1], Roster(h[..n - 1]), Roster(h));
    }
  }

  lemma {:induction false} RosterStep(h: seq<Step>, id: nat) returns (step: Step)
    requires id in Roster(h)
    ensures step in h && step.BuildNsg? && step.id == id && Roster(h)[id] == Member(id, step.name, step.role)
    decreases |h|
  {
    var last := h[|h| - 1];
    if last.BuildNsg? && last.id == id {
      step := last;
    } else {
      step := RosterStep(h[..|h| - 1], id);
    }
  }

  lemma StepInRoster(h: seq<Step>, step: Step)
    requires HandlesFresh(h) && step in h && step.BuildNsg?
    ensures step.id in Roster(h) && Roster(h)[step.id] == Member(step.id, step.name, step.role)
  {
    var j :| 0 <= j < |h| && h[j] == step;
    assert h[..j + 1][..j] == h[..j];
    RosterStable(h, j + 1, step.id);
  }

  /** The same steps bind the same handles. */
  lemma {:induction false} RosterPermutes(a: seq<Step>, b: seq<Step>)
    requires HandlesFresh(a) && HandlesFresh(b) && multiset(a) == multiset(b)
    ensures Roster(a) == Roster(b)
  {
    hide Roster, HandlesFresh;
    assert forall step :: step in a <==> step in multiset(a);
    assert forall step :: step in b <==> step in multiset(b);
    forall id: nat
      ensures id in Roster(a) <==> id in Roster(b)
      ensures id in Roster(a) && id in Roster(b) ==> Roster(a)[id] == Roster(b)[id]
    {
      if id in Roster(a) {
        var step := RosterStep(a, id);
        StepInRoster(b, step);
      }
      if id in Roster(b) {
        var step := RosterStep(b, id);
        StepInRoster(a, step);
      }
    }
  }

  lemma BareConsistent(site: Site, h: seq<Step>)
    ensures Consistent(BareCalls(CallsOf(site, h)))
  {
    hide CallsOf;
    var calls := CallsOf(site, h);
    forall a, b | a in BareCalls(calls) && b in BareCalls(calls) && a.Unique? && b.Unique? && a.key == b.key
      ensures a == b
    {
      var x := BareSource(calls, a);
      var y := BareSource(calls, b);
      AllCoherent(site, h, x);
      AllCoherent(site, h, y);
    }
  }

  lemma {:induction false} BareSource(calls: seq<Call>, b: Call) returns (c: Call)
    requires b in BareCalls(calls)
    ensures c in calls && BareCall(c) == b
    decreases |calls|
  {
    var init, last := calls[..|calls| - 1], calls[|calls| - 1];
    assert calls == init + [last];
    BareSnoc(init, last);
    if b == BareCall(last) {
      c := last;
    } else {
      c := BareSource(init, b);
    }
  }

  /** Equal as bags of rules, descriptions aside. */
  predicate SameRules(a: RuleLists, b: RuleLists) {
    forall t: Tier, d: Direction :: multiset(BareAll(a.At(t, d))) == multiset(BareAll(b.At(t, d)))
  }

  lemma JoinSame(a: RuleLists, b: RuleLists, before: RuleLists, after: RuleLists)
    requires SameRules(a, b)
    ensures SameRules(Join(Join(before, a), after), Join(Join(before, b), after))
  {
    forall t: Tier, d: Direction
      ensures multiset(BareAll(Join(Join(before, a), after).At(t, d)))
          == multiset(BareAll(Join(Join(before, b), after).At(t, d)))
    {
      JoinAt(before, a, t, d);
      JoinAt(before, b, t, d);
      JoinAt(Join(before, a), after, t, d);
      JoinAt(Join(before, b), after, t, d);
      BareAllAppend(before.At(t, d), a.At(t, d));
      BareAllAppend(before.At(t, d), b.At(t, d));
      BareAllAppend(before.At(t, d) + a.At(t, d), after.At(t, d));
      BareAllAppend(before.At(t, d) + b.At(t, d), after.At(t, d));
    }
  }

  lemma {:induction false} CallsPermute(site: Site, a: seq<Step>, b: seq<Step>)
    requires AllAllowed(site, a) && AllAllowed(site, b) && multiset(a) == multiset(b) && !Closed(a) && !Closed(b)
    ensures multiset(CallsOf(site, a)) == multiset(CallsOf(site, b)) && Roster(a) == Roster(b)
  {
    hide Roster, CallsOf, Allowed, Closed, StepCalls;
    AllowedHandlesFresh(site, a);
    AllowedHandlesFresh(site, b);
    RosterPermutes(a, b);
    OpenCallsOf(site, a, |a|);
    OpenCallsOf(site, b, |b|);
    assert a[..|a|] == a && b[..|b|] == b;
    FlatMapPermutes(CallsWith(site, Roster(a)), a, b);
  }

  /** Before finalisation: the same fingerprints and the same pending rules. */
  lemma PendingOrderIrrelevant(site: Site, a: seq<Step>, b: seq<Step>)
    requires RunOn(site, a).Ok() && RunOn(site, b).Ok() && multiset(a) == multiset(b) && !Closed(a) && !Closed(b)
    ensures var v, w := RunOn(site, a).state.vcn, RunOn(site, b).state.vcn;
            v.fingerprints == w.fingerprints && SameRules(v.pending, w.pending)
  {
    hide Run, Roster, CallsOf, Allowed, StepCalls, GroupsMatch, SameRules;
    RunsAgree(site, a);
    RunsAgree(site, b);
    CallsPermute(site, a, b);
    ListsPermute(site, CallsOf(site, a), CallsOf(site, b), a, b, NOTHING);
    KeysPermute(CallsOf(site, a), CallsOf(site, b));
    JoinNothing(Join(Seed(site.cidr), Gather(Accepted(CallsOf(site, a)))));
    JoinNothing(Join(Seed(site.cidr), Gather(Accepted(CallsOf(site, b)))));
  }

  /** After finalisation: the same materialised rules. */
  lemma ClosedOrderIrrelevant(site: Site, a: seq<Step>, b: seq<Step>, last: Step)
    requires RunOn(site, a).Ok() && RunOn(site, b).Ok() && multiset(a) == multiset(b)
    requires !Closed(a) && !Closed(b) && Finalising(last)
    requires RunOn(site, a + [last]).Ok() && RunOn(site, b + [last]).Ok()
    ensures var v, w := RunOn(site, a + [last]).state.vcn, RunOn(site, b + [last]).state.vcn;
            |v.created| == |w.created| == 1 && SameRules(v.created[0].lists, w.created[0].lists)
  {
    hide Run, Roster, CallsOf, Allowed, StepCalls, GroupsMatch, SameRules;
    RunsAgree(site, a);
    RunsAgree(site, b);
    RunsAgree(site, a + [last]);
    RunsAgree(site, b + [last]);
    CallsPermute(site, a, b);
    Snoc(site, a, last);
    Snoc(site, b, last);
    LateCallsPermute(site, a, b, last);
    ListsPermute(site, CallsOf(site, a + [last]), CallsOf(site, b + [last]), a + [last], b + [last], BASELINE);
  }

  lemma JoinNothing(a: RuleLists)
    ensures Join(a, NOTHING) == a
  {
  }

  lemma LateCallsPermute(site: Site, a: seq<Step>, b: seq<Step>, last: Step)
    requires multiset(CallsOf(site, a)) == multiset(CallsOf(site, b)) && Roster(a) == Roster(b) && !Closed(a)
        && !Closed(b)
    ensures multiset(CallsOf(site, a + [last])) == multiset(CallsOf(site, b + [last]))
  {
    hide Roster, StepCalls, Closed;
    Snoc(site, a, last);
    Snoc(site, b, last);
  }

  lemma KeysPermute(a: seq<Call>, b: seq<Call>)
    requires multiset(a) == multiset(b)
    ensures KeysIn(a) == KeysIn(b)
  {
    assert forall c :: c in a <==> c in multiset(a);
    assert forall c :: c in b <==> c in multiset(b);
  }

  lemma {:induction false} ListsPermute(site: Site, x: seq<Call>, y: seq<Call>, a: seq<Step>, b: seq<Step>,
      after: RuleLists)
    requires x == CallsOf(site, a) && y == CallsOf(site, b) && multiset(x) == multiset(y)
    ensures SameRules(Join(Join(Seed(site.cidr), Gather(Accepted(x))), after),
        Join(Join(Seed(site.cidr), Gather(Accepted(y))), after))
  {
    hide CallsOf;
    BareConsistent(site, a);
    forall t: Tier, d: Direction
      ensures multiset(BareAll(Gather(Accepted(x)).At(t, d))) == multiset(BareAll(Gather(Accepted(y)).At(t, d)))
    {
      GatherPermutes(x, y, t, d);
    }
    JoinSame(Gather(Accepted(x)), Gather(Accepted(y)), Seed(site.cidr), after);
  }
}
