/**
 What the security lists admit, end to end: neither deduplication nor late declarations lose traffic a step contributed,
 and nothing else gets in.  Then the same for a cluster: its two firewall layers agree in every program that builds one.
 */
module Admission {
  import opened Agreement
  import opened Contributions
  import opened Fingerprints
  import opened History
  import opened Oke
  import opened Programs
  import opened Rules
  import opened VcnBuilder

  // ---- Contributions ---------------------------------------------------------------------------------

  /** A compute instance on a finalised network is the one step that drops its own rule. */
  predicate LateCompute(h: seq<Step>, j: nat)
    requires j < |h|
  {
    h[j].BuildCompute? && Closed(h[..j])
  }

  /** Some rule the step asks for would admit the packet. */
  predicate Asks(site: Site, h: seq<Step>, j: nat, t: Tier, d: Direction, p: Packet)
    requires j < |h|
  {
    exists c :: c in StepCalls(site, Roster(h[..j]), h[j]) && ListAdmits(CallLists(c).At(t, d), d, p)
  }

  /** Some step that contributes its rules asks for the packet; repeated fingerprints are not merged here. */
  predicate Contributed(site: Site, h: seq<Step>, t: Tier, d: Direction, p: Packet) {
    exists j :: 0 <= j < |h| && !LateCompute(h, j) && Asks(site, h, j, t, d, p)
  }

  lemma {:induction false} DirectAccepted(calls: seq<Call>, c: Call)
    requires c in calls && c.Direct?
    ensures c in Accepted(calls)
    decreases |calls|
  {
    var init, last := calls[..|calls| - 1], calls[|calls| - 1];
    assert calls == init + [last];
    if c != last {
      DirectAccepted(init, c);
    }
  }

  lemma {:induction false} DirectListed(site: Site, h: seq<Step>, c: Call, t: Tier, d: Direction, r: Rule)
    requires c in CallsOf(site, h) && c.Direct? && r in CallLists(c).At(t, d)
    ensures r in ListsOf(site, h).At(t, d)
  {
    hide ListsOf, CallsOf, Accepted;
    DirectAccepted(CallsOf(site, h), c);
    ListedOrigin(site, h, t, d, r);
  }

  /** On a finalised network only registered fingerprints pass. */
  lemma LateKey(site: Site, h: seq<Step>, step: Step, c: Call)
    requires Closed(h) && Allowed(site, h, step) && !step.BuildCompute? && c in StepCalls(site, Roster(h), step)
    ensures c.Unique? && c.key in KeysIn(CallsOf(site, h))
  {
    hide Roster, CallsOf, KeysIn, Closed, TagTaken, DistinctPorts;
  }

  /**
   In a run that raises nothing, what a step asks for is registered, or is a direct contribution to the open network.
   */
  lemma AskedIsRegistered(site: Site, h: seq<Step>, j: nat, c: Call)
    requires AllAllowed(site, h) && j < |h| && !LateCompute(h, j) && c in StepCalls(site, Roster(h[..j]), h[j])
    ensures if c.Unique? then c.key in KeysIn(CallsOf(site, h)) else c in CallsOf(site, h)
  {
    hide Roster, CallsOf, StepCalls, Allowed;
    if Closed(h[..j]) {
      assert Allowed(site, h[..j], h[j]);
      LateKey(site, h[..j], h[j], c);
      var first :| first in CallsOf(site, h[..j]) && first.Unique? && first.key == c.key;
      CallsGrow(site, h, j, first);
    } else {
      OpenCallsStay(site, h, j, c);
    }
  }

  /** Nothing is lost: a rule that was merged with an earlier one, or asked for too late, is still in force. */
  lemma AskedIsAdmitted(site: Site, h: seq<Step>, j: nat, c: Call, t: Tier, d: Direction, p: Packet)
    requires AllAllowed(site, h) && j < |h| && !LateCompute(h, j) && c in StepCalls(site, Roster(h[..j]), h[j])
    requires ListAdmits(CallLists(c).At(t, d), d, p)
    ensures ListAdmits(ListsOf(site, h).At(t, d), d, p)
  {
    hide Roster, CallsOf, StepCalls, AllAllowed, ListsOf, KeysIn;
    AskedIsRegistered(site, h, j, c);
    var r :| r in CallLists(c).At(t, d) && Admits(r, d, p);
    match c
    case Direct(_) => DirectListed(site, h, c, t, d, r);
    case Unique(key, tier, dir, rule) =>
      OnlyAt(tier, dir, [rule], t, d);
      StepCallsCoherent(site, Roster(h[..j]), h[j], c);
      BareAdmits(r, d, p);
      BareAdmits(KeyRule(site, key), d, p);
      RegisteredKeyAdmits(site, h, key, p);
  }

  /** Nothing else gets in: an admitted packet was asked for on the open network, or a standard rule admits it. */
  lemma AdmittedWasAsked(site: Site, h: seq<Step>, t: Tier, d: Direction, p: Packet)
    requires ListAdmits(ListsOf(site, h).At(t, d), d, p)
    ensures ListAdmits(Seed(site.cidr).At(t, d), d, p) || (Closed(h) && ListAdmits(BASELINE.At(t, d), d, p))
            || Contributed(site, h, t, d, p)
  {
    hide Roster, CallsOf, StepCalls, ListsOf, Accepted;
    var r :| r in ListsOf(site, h).At(t, d) && Admits(r, d, p);
    ListedOrigin(site, h, t, d, r);
    if c :| c in Accepted(CallsOf(site, h)) && r in CallLists(c).At(t, d) {
      AcceptedWithin(CallsOf(site, h), c);
      var j := CallOrigin(site, h, c);
      assert Asks(site, h, j, t, d, p);
    }
  }

  lemma StandardIsAdmitted(site: Site, h: seq<Step>, t: Tier, d: Direction, p: Packet)
    requires ListAdmits(Seed(site.cidr).At(t, d), d, p) || (Closed(h) && ListAdmits(BASELINE.At(t, d), d, p))
    ensures ListAdmits(ListsOf(site, h).At(t, d), d, p)
  {
    hide ListsOf;
    var r :| (r in Seed(site.cidr).At(t, d) || (Closed(h) && r in BASELINE.At(t, d))) && Admits(r, d, p);
    ListedOrigin(site, h, t, d, r);
  }

  /**
   Deduplication is invisible to traffic: in a run that raises nothing, each of the eight lists admits exactly what the
   standard rules and the unmerged contributions of all steps admit; and what was materialised is that list.
   */
  lemma ListsExact(site: Site, h: seq<Step>, t: Tier, d: Direction, p: Packet)
    requires RunOn(site, h).Ok()
    ensures var v := RunOn(site, h).state.vcn;
            && (ListAdmits(v.pending.At(t, d), d, p) <==>
                ListAdmits(Seed(site.cidr).At(t, d), d, p) || (Closed(h) && ListAdmits(BASELINE.At(t, d), d, p))
                || Contributed(site, h, t, d, p))
            && (v.finalized <==> Closed(h))
            && (v.finalized ==> |v.created| == 1 && v.created[0].lists == v.pending)
  {
    hide Run, Roster, ListsOf, ListAdmits, Closed, GroupsMatch, Asks, LateCompute, AllAllowed;
    RunsAgree(site, h);
    if ListAdmits(ListsOf(site, h).At(t, d), d, p) {
      AdmittedWasAsked(site, h, t, d, p);
    } else if Contributed(site, h, t, d, p) {
      ContributedIsAdmitted(site, h, t, d, p);
    } else if ListAdmits(Seed(site.cidr).At(t, d), d, p) || (Closed(h) && ListAdmits(BASELINE.At(t, d), d, p)) {
      StandardIsAdmitted(site, h, t, d, p);
    }
  }

  lemma {:induction false} ContributedIsAdmitted(site: Site, h: seq<Step>, t: Tier, d: Direction, p: Packet)
    requires AllAllowed(site, h) && Contributed(site, h, t, d, p)
    ensures ListAdmits(ListsOf(site, h).At(t, d), d, p)
  {
    hide ListsOf, ListAdmits, AllAllowed, StepCalls, Roster;
    var j :| 0 <= j < |h| && !LateCompute(h, j) && Asks(site, h, j, t, d, p);
    var c :| c in StepCalls(site, Roster(h[..j]), h[j]) && ListAdmits(CallLists(c).At(t, d), d, p);
    AskedIsAdmitted(site, h, j, c, t, d, p);
  }

  // ---- Clusters --------------------------------------------------------------------------------------

  /** Every list a cluster asked for is materialised, in every program that builds one. */
  lemma ClusterListsMaterialised(site: Site, h: seq<Step>, j: nat)
    requires RunOn(site, h).Ok() && j < |h| && h[j].BuildCluster?
    ensures var v := RunOn(site, h).state.vcn;
            |v.created| == 1 && Includes(v.created[0].lists, ClusterLists(site.tiers, AllowedCidrs(h[j].kubectl)))
  {
    hide Run, Roster, ListsOf, CallsOf, GroupsMatch, ClusterLists, LogsCanBeMade;
    RunsAgree(site, h);
    var c := Direct(ClusterLists(site.tiers, AllowedCidrs(h[j].kubectl)));
    assert c in StepCalls(site, Roster(h[..j]), h[j]);
    assert Allowed(site, h[..j], h[j]);
    assert !Closed(h[..j]) && Closed(h);
    OpenCallsStay(site, h, j, c);
    forall t: Tier, d: Direction, r | r in CallLists(c).At(t, d)
      ensures r in ListsOf(site, h).At(t, d)
    {
      DirectListed(site, h, c, t, d, r);
    }
  }

  /**
   In every program with a cluster, the lists drop no traffic between its subnets that its NSGs admit at both ends.
   */
  lemma {:induction false} ClusterTrafficPasses(site: Site, h: seq<Step>, j: nat, g: ClusterGroups, a: Part, b: Part,
      p: Packet)
    requires RunOn(site, h).Ok() && j < |h| && h[j].BuildCluster? && DistinctGroups(g) && p.protocol != ALL
    requires PartTier(a) != PartTier(b) && Interface(p.source, g, site.tiers, a)
        && Interface(p.destination, g, site.tiers, b)
    requires GroupAdmits(PartRules(g, AllowedCidrs(h[j].kubectl), a), Egress, p)
    requires GroupAdmits(PartRules(g, AllowedCidrs(h[j].kubectl), b), Ingress, p)
    ensures var v := RunOn(site, h).state.vcn;
            && |v.created| == 1
            && ListAdmits(v.created[0].lists.At(PartTier(a), Egress), Egress, p)
            && ListAdmits(v.created[0].lists.At(PartTier(b), Ingress), Ingress, p)
  {
    hide Run, PartRules, GroupAdmits, ClusterLists, Includes, ListAdmits, Interface;
    ClusterListsMaterialised(site, h, j);
    CrossSubnetCoherence(g, site.tiers, AllowedCidrs(h[j].kubectl), RunOn(site, h).state.vcn.created[0].lists, a, b, p);
  }
}
