/** The spells that contribute rules to a VCN and then finalise it. */
module Spells {
  import opened Fingerprints
  import opened Networks
  import opened Rules
  import opened VcnBuilder
  import opened Wrappers

  // ---- What each spell contributes -------------------------------------------------------------------

  function ComputeCalls(tiers: TierCidrs, subnet: Tier): seq<Call> {
    match subnet
    case Public => [Unique(PublicIngress(SSH), Public, Ingress, TcpRule(SSH, Cidr(INTERNET), Spell("compute")))]
    case Private => [Unique(ComputeSsh(Private), Private, Ingress, TcpRule(SSH, Cidr(tiers.public), Spell("compute")))]
    case _ => [Unique(ComputeSsh(subnet), subnet, Ingress, TcpRule(SSH, Cidr(tiers.private), Spell("compute")))]
  }

  const BASTION_CALLS := [Unique(BastionSsh, Private, Ingress, TcpRule(SSH, Cidr(INTERNET), Spell("bastion")))]

  /** Forwarding from a public load balancer to backends in the private tier. */
  function ForwardingLists(tiers: TierCidrs, port: int): RuleLists {
    NOTHING.(publicEgress := [TcpRule(port, Cidr(tiers.private), Spell("lb"))],
             privateIngress := [TcpRule(port, Cidr(tiers.public), Spell("lb"))])
  }

  function LoadBalancerCalls(tiers: TierCidrs, port: int): seq<Call> {
    [Unique(LbPublic(80), Public, Ingress, TcpRule(80, Cidr(INTERNET), Spell("lb"))),
     Unique(LbPublic(443), Public, Ingress, TcpRule(443, Cidr(INTERNET), Spell("lb"))),
     Direct(ForwardingLists(tiers, port))]
  }

  function InternalLoadBalancerCalls(cidr: Network, tiers: TierCidrs, port: int): seq<Call> {
    [Unique(LbPrivate, Private, Ingress, TcpRule(80, Cidr(cidr), Spell("ilb"))),
     Direct(NOTHING.(privateEgress := [TcpRule(port, Cidr(tiers.private), Spell("ilb"))]))]
  }

  function WorkloadCalls(cidr: Network, tiers: TierCidrs, isPublic: bool, port: int): seq<Call> {
    if isPublic then
      [Unique(PublicIngress(80), Public, Ingress, TcpRule(80, Cidr(INTERNET), Spell("workload"))),
       Unique(PublicIngress(443), Public, Ingress, TcpRule(443, Cidr(INTERNET), Spell("workload"))),
       Direct(ForwardingLists(tiers, port))]
    else
      [Direct(NOTHING.(privateIngress := [
         TcpRule(80, Cidr(cidr), Spell("workload")),
         TcpRule(443, Cidr(cidr), Spell("workload")),
         TcpRule(port, Cidr(cidr), Spell("workload"))]))]
  }

  // ---- What each spell does to the builder -----------------------------------------------------------

  /** Contribute, then finalise. */
  function Contribute(v: VcnState, calls: seq<Call>): Outcome<VcnState, Error> {
    var o := RunCalls(v, calls);
    if !o.Ok() then o else Finalize(o.state)
  }

  /** A compute instance silently contributes nothing to a finalised network. */
  function ComputeSpell(v: VcnState, subnet: Tier): Outcome<VcnState, Error> {
    Contribute(v, if v.finalized then [] else ComputeCalls(v.tiers, subnet))
  }

  function BastionSpell(v: VcnState): Outcome<VcnState, Error> {
    if v.finalized && Render(BastionSsh) !in v.fingerprints then Outcome(v, Some(BastionTooLate))
    else Contribute(v, if v.finalized then [] else BASTION_CALLS)
  }

  predicate ValidPort(port: int) {
    1 <= port <= 65535
  }

  function LoadBalancerSpell(v: VcnState, port: int): Outcome<VcnState, Error> {
    if !ValidPort(port) then Outcome(v, Some(BadPort)) else Contribute(v, LoadBalancerCalls(v.tiers, port))
  }

  function InternalLoadBalancerSpell(v: VcnState, port: int): Outcome<VcnState, Error> {
    if !ValidPort(port) then Outcome(v, Some(BadPort))
        else Contribute(v, InternalLoadBalancerCalls(v.cidr, v.tiers, port))
  }

  // ---- The constructors ------------------------------------------------------------------------------

  method ComputeInstance(vcn: Vcn, subnet: Tier) returns (raised: Option<Error>)
    modifies vcn
    ensures Outcome(vcn.State(), raised) == ComputeSpell(old(vcn.State()), subnet)
  {
    if !vcn.finalized {
      ghost var before := vcn.State();
      RunOneCall(before, ComputeCalls(vcn.tiers, subnet)[0]);
      var source := Cidr(
        if subnet == Secure || subnet == Management then vcn.tiers.private
        else if subnet == Private then vcn.tiers.public
        else INTERNET);
      var rule := TcpRule(SSH, source, Spell("compute"));
      if subnet == Private {
        raised := vcn.AddUniqueSecurityListRules(Render(ComputeSsh(Private)), NOTHING.(privateIngress := [rule]));
      } else if subnet == Secure {
        raised := vcn.AddUniqueSecurityListRules(Render(ComputeSsh(Secure)), NOTHING.(secureIngress := [rule]));
      } else if subnet == Management {
        raised := vcn.AddUniqueSecurityListRules(Render(ComputeSsh(Management)), NOTHING.(managementIngress := [rule]));
      } else {
        raised := vcn.AddUniqueSecurityListRules(Render(PublicIngress(SSH)), NOTHING.(publicIngress := [rule]));
      }
      assert Outcome(vcn.State(), raised) == RunCalls(before, ComputeCalls(vcn.tiers, subnet));
      if raised.Some? {
        return;
      }
    }
    raised := vcn.FinalizeNetwork();
  }

  method Bastion(vcn: Vcn) returns (raised: Option<Error>)
    modifies vcn
    ensures Outcome(vcn.State(), raised) == BastionSpell(old(vcn.State()))
  {
    if vcn.finalized {
      if !vcn.HasAmbientRule(Render(BastionSsh)) {
        return Some(BastionTooLate);
      }
    } else {
      ghost var before := vcn.State();
      RunOneCall(before, BASTION_CALLS[0]);
      raised := vcn.AddUniqueSecurityListRules(
        Render(BastionSsh), NOTHING.(privateIngress := [TcpRule(SSH, Cidr(INTERNET), Spell("bastion"))]));
      assert Outcome(vcn.State(), raised) == RunCalls(before, BASTION_CALLS);
      if raised.Some? {
        return;
      }
    }
    raised := vcn.FinalizeNetwork();
  }

  /** Two fingerprinted calls and a direct one, as the public load balancers make them. */
  lemma TwoThenDirect(v: VcnState, a: Call, b: Call, c: Call)
    ensures RunCalls(v, [a, b, c]) ==
            var o := RunCall(v, a);
            if !o.Ok() then o else
            var p := RunCall(o.state, b);
            if !p.Ok() then p else RunCall(p.state, c)
  {
    assert [a, b, c] == [a] + [b, c] && [b, c] == [b] + [c];
    RunCallsStep(v, a, [b, c]);
    var o := RunCall(v, a);
    RunCallsStep(o.state, b, [c]);
    RunOneCall(RunCall(o.state, b).state, c);
  }

  method LoadBalancer(vcn: Vcn, port: int) returns (raised: Option<Error>)
    modifies vcn
    ensures Outcome(vcn.State(), raised) == LoadBalancerSpell(old(vcn.State()), port)
  {
    if !(1 <= port <= 65535) {
      return Some(BadPort);
    }
    ghost var calls := LoadBalancerCalls(vcn.tiers, port);
    TwoThenDirect(vcn.State(), calls[0], calls[1], calls[2]);
    raised := vcn.AddUniqueSecurityListRules(
      Render(LbPublic(80)), NOTHING.(publicIngress := [TcpRule(80, Cidr(INTERNET), Spell("lb"))]));
    if raised.None? {
      raised := vcn.AddUniqueSecurityListRules(
        Render(LbPublic(443)), NOTHING.(publicIngress := [TcpRule(443, Cidr(INTERNET), Spell("lb"))]));
    }
    if raised.None? {
      raised := vcn.AddSecurityListRules(ForwardingLists(vcn.tiers, port));
    }
    if raised.None? {
      raised := vcn.FinalizeNetwork();
    }
  }

  method InternalLoadBalancer(vcn: Vcn, port: int) returns (raised: Option<Error>)
    modifies vcn
    ensures Outcome(vcn.State(), raised) == InternalLoadBalancerSpell(old(vcn.State()), port)
  {
    if !(1 <= port <= 65535) {
      return Some(BadPort);
    }
    ghost var calls := InternalLoadBalancerCalls(vcn.cidr, vcn.tiers, port);
    assert calls == [calls[0]] + [calls[1]];
    RunCallsStep(vcn.State(), calls[0], [calls[1]]);
    RunOneCall(RunCall(vcn.State(), calls[0]).state, calls[1]);
    raised := vcn.AddUniqueSecurityListRules(
      Render(LbPrivate), NOTHING.(privateIngress := [TcpRule(80, Cidr(vcn.cidr), Spell("ilb"))]));
    if raised.None? {
      raised := vcn.AddSecurityListRules(NOTHING.(privateEgress := [TcpRule(port, Cidr(vcn.tiers.private),
          Spell("ilb"))]));
    }
    if raised.None? {
      raised := vcn.FinalizeNetwork();
    }
  }

  method ScalableWorkload(vcn: Vcn, isPublic: bool, port: int) returns (raised: Option<Error>)
    modifies vcn
    ensures Outcome(vcn.State(), raised)
            == Contribute(old(vcn.State()), WorkloadCalls(vcn.cidr, vcn.tiers, isPublic, port))
  {
    ghost var calls := WorkloadCalls(vcn.cidr, vcn.tiers, isPublic, port);
    if isPublic {
      TwoThenDirect(vcn.State(), calls[0], calls[1], calls[2]);
      raised := vcn.AddUniqueSecurityListRules(
        Render(PublicIngress(80)), NOTHING.(publicIngress := [TcpRule(80, Cidr(INTERNET), Spell("workload"))]));
      if raised.None? {
        raised := vcn.AddUniqueSecurityListRules(
          Render(PublicIngress(443)), NOTHING.(publicIngress := [TcpRule(443, Cidr(INTERNET), Spell("workload"))]));
      }
      if raised.None? {
        raised := vcn.AddSecurityListRules(ForwardingLists(vcn.tiers, port));
      }
    } else {
      RunOneCall(vcn.State(), calls[0]);
      var source := Cidr(vcn.cidr);
      raised := vcn.AddSecurityListRules(NOTHING.(privateIngress := [
        TcpRule(80, source, Spell("workload")),
        TcpRule(443, source, Spell("workload")),
        TcpRule(port, source, Spell("workload"))]));
    }
    if raised.None? {
      raised := vcn.FinalizeNetwork();
    }
  }
}
