/** Whether a program raises before finalisation does not depend on the order of its steps either. */
module SuccessOrder {
  import opened Agreement
  import opened Contributions
  import opened History
  import opened Nsgs
  import opened OrderIndependence
  import opened Ordering
  import opened Permutations
  import opened Programs
  import opened Traffic

  predicate AllBound(h: seq<Step>) {
    forall j :: 0 <= j < |h| ==> HandlesBound(h, j)
  }

  lemma BoundIsFresh(h: seq<Step>)
    requires AllBound(h)
    ensures HandlesFresh(h)
  {
    hide Roster;
    forall j | 0 <= j < |h| && h[j].BuildNsg?
      ensures h[j].id !in Roster(h[..j])
    {
      assert HandlesBound(h, j);
    }
  }

  lemma BoundPrefix(h: seq<Step>)
    requires AllBound(h) && h != []
    ensures AllBound(h[..|h| - 1]) && HandlesBound(h, |h| - 1)
  {
    hide Roster;
    var init := h[..|h| - 1];
    forall j | 0 <= j < |init|
      ensures HandlesBound(init, j)
    {
      assert HandlesBound(h, j) && init[..j] == h[..j];
    }
  }

  // ---- Clashes are a matter of multiplicity ----------------------------------------------------------

  function Slot(g: Grant): seq<(nat, string)> {
    [(g.owner, g.tag)]
  }

  function Slots(grants: seq<Grant>): (s: seq<(nat, string)>)
    ensures |s| == |grants|
  {
    seq(|grants|, i requires 0 <= i < |grants| => (grants[i].owner, grants[i].tag))
  }

  lemma {:induction false} SlotsMap(grants: seq<Grant>)
    ensures Slots(grants) == FlatMap(Slot, grants)
    decreases |grants|
  {
    if grants != [] {
      SlotsMap(grants[..|grants| - 1]);
    }
  }

  /** An item occurs twice exactly when it has two positions. */
  lemma {:induction false} TwiceMeansTwoPlaces<T>(s: seq<T>, x: T)
    ensures multiset(s)[x] >= 2 <==> exists i, j :: 0 <= i < j < |s| && s[i] == s[j] == x
    decreases |s|
  {
    if s != [] {
      var init, last := s[..|s| - 1], s[|s| - 1];
      assert s == init + [last];
      TwiceMeansTwoPlaces(init, x);
      if exists i, j :: 0 <= i < j < |s| && s[i] == s[j] == x {
        var i, j :| 0 <= i < j < |s| && s[i] == s[j] == x;
        assert init[i] == x && x in init;
        if j < |init| {
          assert init[j] == x;
        }
      }
      if multiset(s)[x] >= 2 {
        if multiset(init)[x] >= 2 {
          var i, j :| 0 <= i < j < |init| && init[i] == init[j] == x;
          assert s[i] == s[j] == x;
        } else {
          assert x in multiset(init);
          var i :| 0 <= i < |init| && init[i] == x;
          assert s[i] == s[|s| - 1] == x;
        }
      }
    }
  }

  lemma ClashIsTwice(grants: seq<Grant>)
    ensures Clash(grants) <==> exists x :: multiset(Slots(grants))[x] >= 2
  {
    var s := Slots(grants);
    if Clash(grants) {
      var i, j :| 0 <= i < j < |grants| && grants[i].owner == grants[j].owner && grants[i].tag == grants[j].tag;
      TwiceMeansTwoPlaces(s, s[i]);
      assert s[i] == s[j] == s[i];
    }
    if x :| multiset(s)[x] >= 2 {
      TwiceMeansTwoPlaces(s, x);
      var i, j :| 0 <= i < j < |s| && s[i] == s[j] == x;
      assert grants[i].owner == grants[j].owner && grants[i].tag == grants[j].tag;
    }
  }

  lemma ClashPermutes(a: seq<Grant>, b: seq<Grant>)
    requires multiset(a) == multiset(b)
    ensures Clash(a) <==> Clash(b)
  {
    hide Clash;
    ClashIsTwice(a);
    ClashIsTwice(b);
    SlotsMap(a);
    SlotsMap(b);
    FlatMapPermutes(Slot, a, b);
  }

  lemma ClashSplits(a: seq<Grant>, b: seq<Grant>)
    requires Clash(a + b)
    ensures Clash(a) || Clash(b) || exists g :: g in b && TagTaken(a, g.owner, g.tag)
  {
    var all := a + b;
    var i, j :| 0 <= i < j < |all| && all[i].owner == all[j].owner && all[i].tag == all[j].tag;
    if j < |a| {
      assert all[i] == a[i] && all[j] == a[j];
    } else if i >= |a| {
      assert all[i] == b[i - |a|] && all[j] == b[j - |a|];
    } else {
      assert a[i] in a && b[j - |a|] in b && TagTaken(a, b[j - |a|].owner, b[j - |a|].tag);
    }
  }

  lemma ClashAppend(a: seq<Grant>, b: seq<Grant>)
    ensures Clash(a + b) <==> Clash(a) || Clash(b) || exists g :: g in b && TagTaken(a, g.owner, g.tag)
  {
    var all := a + b;
    if Clash(all) {
      ClashSplits(a, b);
    }
    if Clash(a) {
      var i, j :| 0 <= i < j < |a| && a[i].owner == a[j].owner && a[i].tag == a[j].tag;
      assert all[i] == a[i] && all[j] == a[j];
    }
    if Clash(b) {
      var i, j :| 0 <= i < j < |b| && b[i].owner == b[j].owner && b[i].tag == b[j].tag;
      assert all[|a| + i] == b[i] && all[|a| + j] == b[j];
    }
    if g :| g in b && TagTaken(a, g.owner, g.tag) {
      var first :| first in a && first.owner == g.owner && first.tag == g.tag;
      var i :| 0 <= i < |a| && a[i] == first;
      var j :| 0 <= j < |b| && b[j] == g;
      assert all[i] == first && all[|a| + j] == g;
    }
  }

  // ---- Grants of a history ---------------------------------------------------------------------------

  lemma {:induction false} GrantOwnersBound(h: seq<Step>, g: Grant)
    requires AllBound(h) && g in GrantsOf(h)
    ensures g.owner in Roster(h)
    decreases |h|
  {
    var init, last := h[..|h| - 1], h[|h| - 1];
    BoundPrefix(h);
    if g in GrantsOf(init) {
      GrantOwnersBound(init, g);
    } else {
      StepOwnersBound(init, last, g);
    }
  }

  lemma StepOwnersBound(init: seq<Step>, last: Step, g: Grant)
    requires g in StepGrants(Roster(init), last)
    requires (last.Relate? ==> last.src in Roster(init) && last.tgt in Roster(init))
        && (last.ManualRule? ==> last.id in Roster(init))
    ensures g.owner in Roster(init) || (last.BuildNsg? && g.owner == last.id)
  {
    if last.Relate? {
      MembersKnowTheirIds(init, last.src);
      MembersKnowTheirIds(init, last.tgt);
    }
  }

  /** One valid step never clashes with itself, and a new NSG never with what came before. */
  lemma StepClash(site: Site, h: seq<Step>)
    requires AllBound(h) && h != [] && ArgumentsValid(site, h[|h| - 1])
    ensures var init, j := h[..|h| - 1], |h| - 1;
            Clash(GrantsOf(h)) <==> Clash(GrantsOf(init)) || !LabelsFresh(h, j)
  {
    hide Clash, TagTaken, AmbientGrants, ServesGrants, GrantsOf;
    var init, last := h[..|h| - 1], h[|h| - 1];
    var more := StepGrants(Roster(init), last);
    assert init + [last] == h;
    SnocGroups(init, last);
    ClashAppend(GrantsOf(init), more);
    SelfClash(site, init, last);
    if last.BuildNsg? {
      BoundPrefix(h);
      forall g | g in more
        ensures !TagTaken(GrantsOf(init), g.owner, g.tag)
      {
        NewOwnerUntaken(init, last, g);
      }
    }
  }

  lemma SelfClash(site: Site, init: seq<Step>, last: Step)
    requires ArgumentsValid(site, last)
    ensures !Clash(StepGrants(Roster(init), last))
  {
    hide Roster;
    if last.BuildNsg? && last.role.Some? {
      AmbientGrantsDiffer(last.id, last.role.value, last.ports);
    } else if last.Relate? && last.src in Roster(init) && last.tgt in Roster(init) {
      ServesGrantsDiffer(Roster(init)[last.src], Roster(init)[last.tgt], last.port, last.withSsh);
    }
  }

  lemma {:induction false} NewOwnerUntaken(init: seq<Step>, last: Step, g: Grant)
    requires AllBound(init) && last.BuildNsg? && last.id !in Roster(init) && g in StepGrants(Roster(init), last)
    ensures !TagTaken(GrantsOf(init), g.owner, g.tag)
  {
    hide GrantsOf, Roster;
    AmbientOwners(last.id, last.role, last.ports, Roster(init), last);
    if TagTaken(GrantsOf(init), g.owner, g.tag) {
      var first :| first in GrantsOf(init) && first.owner == g.owner && first.tag == g.tag;
      GrantOwnersBound(init, first);
    }
  }

  predicate AllFresh(h: seq<Step>) {
    forall j :: 0 <= j < |h| ==> LabelsFresh(h, j)
  }

  lemma AllFreshSnoc(h: seq<Step>)
    requires h != []
    ensures AllFresh(h) <==> AllFresh(h[..|h| - 1]) && LabelsFresh(h, |h| - 1)
  {
    hide LabelsFresh;
    var init := h[..|h| - 1];
    forall j | 0 <= j < |init|
      ensures LabelsFresh(h, j) <==> LabelsFresh(init, j)
    {
      LabelsFreshPrefix(h, init, j);
    }
  }

  /** Labels are fresh throughout exactly when no two grants of the whole history clash. */
  lemma {:induction false} FreshMeansNoClash(site: Site, h: seq<Step>)
    requires AllBound(h) && forall j :: 0 <= j < |h| ==> ArgumentsValid(site, h[j])
    ensures AllFresh(h) <==> !Clash(GrantsOf(h))
    decreases |h|
  {
    hide ArgumentsValid, LabelsFresh, AllBound, HandlesBound, Roster, StepGrants;
    if h != [] {
      BoundPrefix(h);
      FreshMeansNoClash(site, h[..|h| - 1]);
      StepClash(site, h);
      hide AllFresh;
      AllFreshSnoc(h);
    }
  }

  lemma {:induction false} LabelsFreshPrefix(h: seq<Step>, init: seq<Step>, j: nat)
    requires j < |init| < |h| && init == h[..|init|]
    ensures LabelsFresh(h, j) <==> LabelsFresh(init, j)
  {
    assert h[..j] == init[..j] && h[j] == init[j];
  }

  function GrantsWith(roster: map<nat, Member>): Step -> seq<Grant> {
    step => StepGrants(roster, step)
  }

  lemma {:induction false} GrantsFlat(h: seq<Step>, n: nat)
    requires AllBound(h) && n <= |h|
    ensures GrantsOf(h[..n]) == FlatMap(GrantsWith(Roster(h)), h[..n])
    decreases n
  {
    hide StepGrants, Roster;
    if n > 0 {
      GrantsFlat(h, n - 1);
      assert h[..n][..n - 1] == h[..n - 1];
      assert HandlesBound(h, n - 1);
      if h[n - 1].Relate? {
        BoundIsFresh(h);
        RosterStable(h, n - 1, h[n - 1].src);
        RosterStable(h, n - 1, h[n - 1].tgt);
      }
      SameHandlesSameGrants(h[n - 1], Roster(h[..n - 1]), Roster(h));
    }
  }

  lemma SameHandlesSameGrants(step: Step, a: map<nat, Member>, b: map<nat, Member>)
    requires SameHandles(step, a, b)
    ensures StepGrants(a, step) == StepGrants(b, step)
  {
  }

  /** An open history raises nothing exactly when its arguments are valid and its grants never clash. */
  lemma {:induction false} OpenSuccess(site: Site, h: seq<Step>)
    requires AllBound(h) && !Closed(h)
    ensures RunOn(site, h).Ok() <==> (forall j :: 0 <= j < |h| ==> ArgumentsValid(site, h[j])) && !Clash(GrantsOf(h))
  {
    hide Run, ArgumentsValid, HandlesBound, LabelsFresh, Clash, StepCalls;
    WhichProgramsRaise(site, h);
    if forall j :: 0 <= j < |h| ==> ArgumentsValid(site, h[j]) {
      FreshMeansNoClash(site, h);
    }
    forall j | 0 <= j < |h|
      ensures LateKeysKnown(site, h, j)
    {
      if Closed(h[..j]) {
        ClosedGrows(h, j);
      }
    }
  }

  /** Before finalisation, reordering the steps of a program changes neither whether it raises nor, then, the rules. */
  lemma SuccessOrderIrrelevant(site: Site, a: seq<Step>, b: seq<Step>)
    requires AllBound(a) && AllBound(b) && multiset(a) == multiset(b) && !Closed(a)
    ensures RunOn(site, a).Ok() <==> RunOn(site, b).Ok()
  {
    hide Run, ArgumentsValid, HandlesBound, Roster, GrantsOf, Clash, Finalising;
    StaysOpen(a, b);
    OpenSuccess(site, a);
    OpenSuccess(site, b);
    BoundIsFresh(a);
    BoundIsFresh(b);
    RosterPermutes(a, b);
    GrantsFlat(a, |a|);
    GrantsFlat(b, |b|);
    assert a[..|a|] == a && b[..|b|] == b;
    FlatMapPermutes(GrantsWith(Roster(a)), a, b);
    ClashPermutes(GrantsOf(a), GrantsOf(b));
    ValidityPermutes(site, a, b);
  }

  lemma StaysOpen(a: seq<Step>, b: seq<Step>)
    requires multiset(a) == multiset(b) && !Closed(a)
    ensures !Closed(b) && forall step :: step in a <==> step in b
  {
    hide Finalising;
    assert forall step :: step in a <==> step in multiset(a);
    assert forall step :: step in b <==> step in multiset(b);
    forall j | 0 <= j < |b|
      ensures !Finalising(b[j])
    {
      assert b[j] in b;
      var i :| 0 <= i < |a| && a[i] == b[j];
    }
  }

  lemma ValidityPermutes(site: Site, a: seq<Step>, b: seq<Step>)
    requires forall step :: step in a <==> step in b
    ensures (forall j :: 0 <= j < |a| ==> ArgumentsValid(site, a[j])) <==>
        forall j :: 0 <= j < |b| ==> ArgumentsValid(site, b[j])
  {
    hide ArgumentsValid;
    assert (forall j :: 0 <= j < |a| ==> ArgumentsValid(site, a[j])) <==>
        forall step :: step in a ==> ArgumentsValid(site, step);
    assert (forall j :: 0 <= j < |b| ==> ArgumentsValid(site, b[j])) <==>
        forall step :: step in b ==> ArgumentsValid(site, step);
  }

  /** On an open network any spell with valid arguments succeeds. */
  lemma {:induction false} ClosingSucceeds(site: Site, h: seq<Step>, last: Step)
    requires RunOn(site, h).Ok() && !Closed(h) && Finalising(last) && ArgumentsValid(site, last)
    ensures RunOn(site, h + [last]).Ok()
  {
    hide Run, Closed, Roster, CallsOf, LogsCanBeMade;
    RunsAgree(site, h);
    RunsAgree(site, h + [last]);
    AllAllowedSnoc(site, h, last);
  }

  /**
   Order independence: if a program raises nothing before finalisation, neither does any reordering that builds NSGs
   before it uses them; both leave the same fingerprints and the same bag of rules in every list, descriptions aside;
   and whatever spell with valid arguments then finalises the network, it succeeds on both and materialises the same
   bags.
   */
  lemma {:induction false} ContributionOrderIrrelevant(site: Site, a: seq<Step>, b: seq<Step>, last: Step)
    requires RunOn(site, a).Ok() && AllBound(b) && multiset(a) == multiset(b) && !Closed(a)
    requires Finalising(last) && ArgumentsValid(site, last)
    ensures RunOn(site, b).Ok() && RunOn(site, a + [last]).Ok() && RunOn(site, b + [last]).Ok()
    ensures var v, w := RunOn(site, a).state.vcn, RunOn(site, b).state.vcn;
            v.fingerprints == w.fingerprints && SameRules(v.pending, w.pending)
    ensures var v, w := RunOn(site, a + [last]).state.vcn, RunOn(site, b + [last]).state.vcn;
            |v.created| == |w.created| == 1 && SameRules(v.created[0].lists, w.created[0].lists)
  {
    hide Run, Closed, HandlesBound, LabelsFresh, ArgumentsValid, LateKeysKnown, OrderRespected, SameRules, Finalising;
    WhichProgramsRaise(site, a);
    StaysOpen(a, b);
    SuccessOrderIrrelevant(site, a, b);
    ClosingSucceeds(site, a, last);
    ClosingSucceeds(site, b, last);
    PendingOrderIrrelevant(site, a, b);
    ClosedOrderIrrelevant(site, a, b, last);
  }
}
