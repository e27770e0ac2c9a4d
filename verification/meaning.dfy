/**
 What the eight security lists let through, said without the rules: tier by tier, with the ports and blocks each kind of
 step opens.  The theorem is about every program that raises nothing.
 */
module ListMeaning {
  import opened Admission
  import opened Agreement
  import opened Fingerprints
  import opened History
  import opened Networks
  import opened Nsgs
  import opened Oke
  import opened Programs
  import opened Rules
  import opened Spells
  import opened Traffic
  import opened VcnBuilder
  import opened Wrappers

  // ---- What each kind of step opens ------------------------------------------------------------------

  predicate OnTcp(p: Packet, port: int) {
    p.protocol == "6" && p.port == port
  }

  predicate ToPort(p: Packet, ports: seq<nat>) {
    p.protocol == "6" && exists port :: port in ports && p.port == port
  }

  predicate FromBlock(p: Packet, block: Network) {
    Contains(block, p.source.address)
  }

  predicate ToBlock(p: Packet, block: Network) {
    Contains(block, p.destination.address)
  }

  predicate InTier(tiers: TierCidrs, t: Tier, address: nat) {
    || (t == Public && Contains(tiers.public, address)) || (t == Private && Contains(tiers.private, address))
    || (t == Secure && Contains(tiers.secure, address)) || (t == Management && Contains(tiers.management, address))
  }

  /** An NSG's role opens its ports on the public list, and its tier's list to services and the internet. */
  predicate NsgOpens(role: Role, ports: seq<nat>, t: Tier, d: Direction, p: Packet) {
    match d
    case Ingress => t == Public && role.tier == Public && ToPort(p, ports) && FromBlock(p, INTERNET)
    case Egress =>
      t == role.tier && ((role.egressServices && p.destination.service)
          || (role.egressInternet && ToBlock(p, INTERNET)))
  }

  /** A relationship opens its port, and 22 with its SSH channel, out of the source's tier and into the target's. */
  predicate RelationOpens(tiers: TierCidrs, src: Tier, tgt: Tier, port: nat, ssh: bool, t: Tier, d: Direction,
      p: Packet) {
    && src != tgt && (OnTcp(p, port) || (ssh && OnTcp(p, 22)))
    && match d
       case Ingress => t == tgt && InTier(tiers, src, p.source.address)
       case Egress => t == src && InTier(tiers, tgt, p.destination.address)
  }

  /** An instance takes SSH from the internet, from the public tier, or from the private tier. */
  predicate InstanceOpens(tiers: TierCidrs, subnet: Tier, t: Tier, d: Direction, p: Packet) {
    && d == Ingress && t == subnet && OnTcp(p, 22)
    && match subnet
       case Public => FromBlock(p, INTERNET)
       case Private => FromBlock(p, tiers.public)
       case Secure => FromBlock(p, tiers.private)
       case Management => FromBlock(p, tiers.private)
  }

  predicate BastionOpens(t: Tier, d: Direction, p: Packet) {
    d == Ingress && t == Private && OnTcp(p, 22) && FromBlock(p, INTERNET)
  }

  /** A public load balancer takes web traffic from the internet and reaches its backends in the private tier. */
  predicate BalancerOpens(tiers: TierCidrs, port: int, t: Tier, d: Direction, p: Packet) {
    || (t == Public && d == Ingress && (OnTcp(p, 80) || OnTcp(p, 443)) && FromBlock(p, INTERNET))
    || (t == Public && d == Egress && OnTcp(p, port) && ToBlock(p, tiers.private))
    || (t == Private && d == Ingress && OnTcp(p, port) && FromBlock(p, tiers.public))
  }

  predicate InternalBalancerOpens(cidr: Network, tiers: TierCidrs, port: int, t: Tier, d: Direction, p: Packet) {
    || (t == Private && d == Ingress && OnTcp(p, 80) && FromBlock(p, cidr))
    || (t == Private && d == Egress && OnTcp(p, port) && ToBlock(p, tiers.private))
  }

  predicate WorkloadOpens(cidr: Network, tiers: TierCidrs, isPublic: bool, port: int, t: Tier, d: Direction,
      p: Packet) {
    if isPublic then BalancerOpens(tiers, port, t, d, p)
    else t == Private && d == Ingress && (OnTcp(p, 80) || OnTcp(p, 443) || OnTcp(p, port)) && FromBlock(p, cidr)
  }

  /** A cluster joins the public and private tiers, and takes web and kubectl traffic from outside. */
  predicate ClusterOpens(tiers: TierCidrs, kubectl: seq<Network>, t: Tier, d: Direction, p: Packet) {
    match (t, d)
    case (Public, Ingress) =>
      || ((OnTcp(p, 6443) || OnTcp(p, 12250)) && FromBlock(p, tiers.private))
      || ((OnTcp(p, 80) || OnTcp(p, 443)) && FromBlock(p, INTERNET))
      || (OnTcp(p, 6443) && exists block :: block in kubectl && FromBlock(p, block))
    case (Public, Egress) => ToBlock(p, tiers.private) || (p.protocol == "6" && p.destination.service)
    case (Private, Ingress) => FromBlock(p, tiers.public)
    case (Private, Egress) =>
      || (p.protocol == "6" && p.destination.service)
      || ((OnTcp(p, 6443) || OnTcp(p, 12250)) && ToBlock(p, tiers.public))
      || ((OnTcp(p, 80) || OnTcp(p, 443)) && ToBlock(p, INTERNET))
    case _ => false
  }

  /** What a step lets through a tier's list, given the NSGs of the program. */
  predicate Opens(site: Site, roster: map<nat, Member>, step: Step, t: Tier, d: Direction, p: Packet) {
    match step
    case BuildNsg(_, _, role, ports) => role.Some? && NsgOpens(role.value, ports, t, d, p)
    case Relate(src, tgt, port, withSsh) =>
      && src in roster && tgt in roster && roster[src].role.Some? && roster[tgt].role.Some?
      && RelationOpens(site.tiers, roster[src].role.value.tier, roster[tgt].role.value.tier, port,
                       withSsh && roster[tgt].role.value.acceptSsh, t, d, p)
    case ManualRule(_, _, _, _) => false
    case DirectRules(lists) => ListAdmits(lists.At(t, d), d, p)
    case BuildCompute(subnet) => InstanceOpens(site.tiers, subnet, t, d, p)
    case BuildBastion => BastionOpens(t, d, p)
    case BuildLoadBalancer(port) => BalancerOpens(site.tiers, port, t, d, p)
    case BuildInternalLoadBalancer(port) => InternalBalancerOpens(site.cidr, site.tiers, port, t, d, p)
    case BuildWorkload(isPublic, port) => WorkloadOpens(site.cidr, site.tiers, isPublic, port, t, d, p)
    case BuildCluster(kubectl) => ClusterOpens(site.tiers, if kubectl.Some? then kubectl.value else [], t, d, p)
    case BuildFlowLogs(_) => false
    case FinalizeExplicitly => false
  }

  /** What every network lets through: path discovery into the public tier, and once finalised the baseline egress. */
  predicate AlwaysOpen(site: Site, finalised: bool, t: Tier, d: Direction, p: Packet) {
    match d
    case Ingress =>
      && t == Public && p.protocol == "1" && p.icmpType == 3
      && ((p.icmpCode == 4 && FromBlock(p, INTERNET)) || FromBlock(p, site.cidr))
    case Egress => finalised && ((t != Public && p.destination.service) || (t == Private && ToBlock(p, INTERNET)))
  }

  // ---- Calls, one kind at a time ---------------------------------------------------------------------

  predicate CallsOpen(calls: seq<Call>, t: Tier, d: Direction, p: Packet) {
    exists c :: c in calls && ListAdmits(CallLists(c).At(t, d), d, p)
  }

  lemma CallsOpenAppend(a: seq<Call>, b: seq<Call>, t: Tier, d: Direction, p: Packet)
    ensures CallsOpen(a + b, t, d, p) <==> CallsOpen(a, t, d, p) || CallsOpen(b, t, d, p)
  {
    hide ListAdmits, CallLists;
  }

  lemma CallsOpenOne(c: Call, t: Tier, d: Direction, p: Packet)
    ensures CallsOpen([c], t, d, p) <==> ListAdmits(CallLists(c).At(t, d), d, p)
    ensures !CallsOpen([], t, d, p)
  {
    hide ListAdmits, CallLists;
    assert c in [c];
  }

  /** A fingerprinted call opens one list by one rule. */
  lemma UniqueOpens(c: Call, t: Tier, d: Direction, p: Packet)
    requires c.Unique?
    ensures ListAdmits(CallLists(c).At(t, d), d, p) <==> c.tier == t && c.dir == d && Admits(c.rule, d, p)
  {
    hide Admits;
    OnlyAt(c.tier, c.dir, [c.rule], t, d);
    assert c.rule in [c.rule];
  }

  lemma {:induction false} EgressCallsOpen(role: Role, t: Tier, d: Direction, p: Packet)
    ensures CallsOpen(EgressCalls(role), t, d, p) <==> d == Egress && NsgOpens(role, [], t, d, p)
  {
    hide CallsOpen;
    var services := Unique(EgressServices(role.tier), role.tier, Egress, AllRule(Services, AmbientRule));
    var internet := Unique(EgressInternet(role.tier), role.tier, Egress, AllRule(Cidr(INTERNET), AmbientRule));
    CallsOpenAppend(if role.egressServices then [services] else [], if role.egressInternet then [internet]
        else [], t, d, p);
    CallsOpenOne(services, t, d, p);
    CallsOpenOne(internet, t, d, p);
    UniqueOpens(services, t, d, p);
    UniqueOpens(internet, t, d, p);
  }

  lemma {:induction false} PortCallsOpen(ports: seq<nat>, t: Tier, d: Direction, p: Packet)
    ensures CallsOpen(PortCalls(ports), t, d, p) <==>
            t == Public && d == Ingress && ToPort(p, ports) && FromBlock(p, INTERNET)
  {
    hide CallLists, ListAdmits;
    var calls := PortCalls(ports);
    forall i | 0 <= i < |ports|
      ensures ListAdmits(CallLists(calls[i]).At(t, d), d, p) <==>
              t == Public && d == Ingress && OnTcp(p, ports[i]) && FromBlock(p, INTERNET)
    {
      UniqueOpens(calls[i], t, d, p);
    }
    if c :| c in calls && ListAdmits(CallLists(c).At(t, d), d, p) {
      var i :| 0 <= i < |ports| && calls[i] == c;
      assert ports[i] in ports && OnTcp(p, ports[i]);
    }
    if t == Public && d == Ingress && ToPort(p, ports) && FromBlock(p, INTERNET) {
      var port :| port in ports && p.port == port;
      var i :| 0 <= i < |ports| && ports[i] == port;
      assert calls[i] in calls;
    }
  }

  lemma {:induction false} AmbientCallsOpen(role: Role, ports: seq<nat>, t: Tier, d: Direction, p: Packet)
    ensures CallsOpen(AmbientCalls(role, ports), t, d, p) <==> NsgOpens(role, ports, t, d, p)
  {
    hide CallsOpen, PortCalls, EgressCalls, ToPort, Contains;
    CallsOpenAppend(if role.tier == Public then PortCalls(ports) else [], EgressCalls(role), t, d, p);
    CallsOpenOne(Direct(NOTHING), t, d, p);
    PortCallsOpen(ports, t, d, p);
    EgressCallsOpen(role, t, d, p);
  }

  lemma {:induction false} CrossCallsOpen(tiers: TierCidrs, src: Tier, tgt: Tier, port: nat, a: Note, b: Note,
      t: Tier, d: Direction, p: Packet)
    requires src != tgt
    ensures CallsOpen(CrossCalls(tiers, src, tgt, port, a, b), t, d, p) <==>
        RelationOpens(tiers, src, tgt, port, false, t, d, p)
  {
    hide CallsOpen, Contains;
    var calls := CrossCalls(tiers, src, tgt, port, a, b);
    assert calls == [calls[0]] + [calls[1]];
    CallsOpenAppend([calls[0]], [calls[1]], t, d, p);
    CallsOpenOne(calls[0], t, d, p);
    CallsOpenOne(calls[1], t, d, p);
    UniqueOpens(calls[0], t, d, p);
    UniqueOpens(calls[1], t, d, p);
  }

  lemma {:induction false} LinkCallsOpen(tiers: TierCidrs, src: Tier, tgt: Tier, port: nat, ssh: bool,
      t: Tier, d: Direction, p: Packet)
    requires src != tgt
    ensures CallsOpen(LinkCalls(tiers, src, tgt, port, ssh), t, d, p) <==>
        RelationOpens(tiers, src, tgt, port, ssh, t, d, p)
  {
    hide CallsOpen, CrossCalls, Contains, TierCidr;
    var first := CrossCalls(tiers, src, tgt, port, ToTier(port, tgt), FromTier(port, src));
    var second := CrossCalls(tiers, src, tgt, SSH, SshToTier(tgt), SshFromTier(src));
    CallsOpenAppend(first, if ssh then second else [], t, d, p);
    CallsOpenOne(Direct(NOTHING), t, d, p);
    CrossCallsOpen(tiers, src, tgt, port, ToTier(port, tgt), FromTier(port, src), t, d, p);
    CrossCallsOpen(tiers, src, tgt, SSH, SshToTier(tgt), SshFromTier(src), t, d, p);
  }

  lemma {:induction false} ComputeCallsOpen(tiers: TierCidrs, subnet: Tier, t: Tier, d: Direction, p: Packet)
    ensures CallsOpen(ComputeCalls(tiers, subnet), t, d, p) <==> InstanceOpens(tiers, subnet, t, d, p)
  {
    hide CallsOpen, Contains;
    var c := ComputeCalls(tiers, subnet)[0];
    CallsOpenOne(c, t, d, p);
    UniqueOpens(c, t, d, p);
  }

  lemma {:induction false} BastionCallsOpen(t: Tier, d: Direction, p: Packet)
    ensures CallsOpen(BASTION_CALLS, t, d, p) <==> BastionOpens(t, d, p)
  {
    hide CallsOpen, Contains;
    CallsOpenOne(BASTION_CALLS[0], t, d, p);
    UniqueOpens(BASTION_CALLS[0], t, d, p);
  }

  /** A list of one rule. */
  lemma OneRuleOpens(r: Rule, d: Direction, p: Packet)
    ensures ListAdmits([r], d, p) <==> Admits(r, d, p)
    ensures !ListAdmits([], d, p)
  {
    hide Admits;
    assert r in [r];
  }

  lemma {:induction false} ForwardingOpens(tiers: TierCidrs, port: int, t: Tier, d: Direction, p: Packet)
    ensures ListAdmits(ForwardingLists(tiers, port).At(t, d), d, p) <==>
            || (t == Public && d == Egress && OnTcp(p, port) && ToBlock(p, tiers.private))
            || (t == Private && d == Ingress && OnTcp(p, port) && FromBlock(p, tiers.public))
  {
    hide ListAdmits, Contains;
    OneRuleOpens(TcpRule(port, Cidr(tiers.private), Spell("lb")), d, p);
    OneRuleOpens(TcpRule(port, Cidr(tiers.public), Spell("lb")), d, p);
  }

  lemma {:induction false} ThreeCallsOpen(a: Call, b: Call, c: Call, t: Tier, d: Direction, p: Packet)
    ensures CallsOpen([a, b, c], t, d, p) <==>
            || ListAdmits(CallLists(a).At(t, d), d, p) || ListAdmits(CallLists(b).At(t, d), d, p)
            || ListAdmits(CallLists(c).At(t, d), d, p)
  {
    hide CallsOpen, ListAdmits, CallLists;
    assert [a, b, c] == [a] + ([b] + [c]);
    CallsOpenAppend([a], [b] + [c], t, d, p);
    CallsOpenAppend([b], [c], t, d, p);
    CallsOpenOne(a, t, d, p);
    CallsOpenOne(b, t, d, p);
    CallsOpenOne(c, t, d, p);
  }

  lemma {:induction false} BalancerCallsOpen(tiers: TierCidrs, port: int, http: Call, https: Call, t: Tier,
      d: Direction, p: Packet)
    requires http.Unique? && http.tier == Public && http.dir == Ingress
        && Bare(http.rule) == TcpRule(80, Cidr(INTERNET), Blank)
    requires https.Unique? && https.tier == Public && https.dir == Ingress
        && Bare(https.rule) == TcpRule(443, Cidr(INTERNET), Blank)
    ensures CallsOpen([http, https, Direct(ForwardingLists(tiers, port))], t, d, p) <==>
        BalancerOpens(tiers, port, t, d, p)
  {
    hide CallsOpen, ListAdmits, Contains, ForwardingLists;
    ThreeCallsOpen(http, https, Direct(ForwardingLists(tiers, port)), t, d, p);
    UniqueOpens(http, t, d, p);
    UniqueOpens(https, t, d, p);
    ForwardingOpens(tiers, port, t, d, p);
    assert CallLists(Direct(ForwardingLists(tiers, port))) == ForwardingLists(tiers, port);
  }

  lemma {:induction false} InternalBalancerCallsOpen(cidr: Network, tiers: TierCidrs, port: int, t: Tier,
      d: Direction, p: Packet)
    ensures CallsOpen(InternalLoadBalancerCalls(cidr, tiers, port), t, d, p)
            <==> InternalBalancerOpens(cidr, tiers, port, t, d, p)
  {
    hide CallsOpen, ListAdmits, Contains;
    var calls := InternalLoadBalancerCalls(cidr, tiers, port);
    assert calls == [calls[0]] + [calls[1]];
    CallsOpenAppend([calls[0]], [calls[1]], t, d, p);
    CallsOpenOne(calls[0], t, d, p);
    CallsOpenOne(calls[1], t, d, p);
    UniqueOpens(calls[0], t, d, p);
    OneRuleOpens(TcpRule(port, Cidr(tiers.private), Spell("ilb")), d, p);
  }

  lemma ListOpensAppend(a: seq<Rule>, b: seq<Rule>, d: Direction, p: Packet)
    ensures ListAdmits(a + b, d, p) <==> ListAdmits(a, d, p) || ListAdmits(b, d, p)
  {
    hide Admits;
  }

  lemma {:induction false} WorkloadCallsOpen(cidr: Network, tiers: TierCidrs, isPublic: bool, port: int,
      t: Tier, d: Direction, p: Packet)
    ensures CallsOpen(WorkloadCalls(cidr, tiers, isPublic, port), t, d, p)
            <==> WorkloadOpens(cidr, tiers, isPublic, port, t, d, p)
  {
    hide CallsOpen, ListAdmits, Contains, ForwardingLists;
    var calls := WorkloadCalls(cidr, tiers, isPublic, port);
    if isPublic {
      BalancerCallsOpen(tiers, port, calls[0], calls[1], t, d, p);
    } else {
      CallsOpenOne(calls[0], t, d, p);
      var http, https, app := TcpRule(80, Cidr(cidr), Spell("workload")), TcpRule(443, Cidr(cidr), Spell("workload")),
                              TcpRule(port, Cidr(cidr), Spell("workload"));
      assert [http, https, app] == [http] + ([https] + [app]);
      ListOpensAppend([http], [https] + [app], d, p);
      ListOpensAppend([https], [app], d, p);
      OneRuleOpens(http, d, p);
      OneRuleOpens(https, d, p);
      OneRuleOpens(app, d, p);
    }
  }

  // ---- The lists of a cluster ------------------------------------------------------------------------

  lemma KubectlOpens(kubectl: seq<Network>, p: Packet)
    ensures ListAdmits(KubectlRules(kubectl), Ingress, p) <==>
            OnTcp(p, 6443) && exists block :: block in kubectl && FromBlock(p, block)
  {
    hide Contains;
    var rules := KubectlRules(kubectl);
    if r :| r in rules && Admits(r, Ingress, p) {
      var i :| 0 <= i < |kubectl| && rules[i] == r;
      assert kubectl[i] in kubectl;
    }
    if block :| block in kubectl && FromBlock(p, block) && OnTcp(p, 6443) {
      var i :| 0 <= i < |kubectl| && kubectl[i] == block;
      assert rules[i] in rules;
    }
  }

  lemma FourOpen(a: Rule, b: Rule, c: Rule, e: Rule, d: Direction, p: Packet)
    ensures ListAdmits([a, b, c, e], d, p) <==> Admits(a, d, p) || Admits(b, d, p) || Admits(c, d, p) || Admits(e, d, p)
  {
    hide Admits;
    var rules := [a, b, c, e];
    assert rules[0] in rules && rules[1] in rules && rules[2] in rules && rules[3] in rules;
  }

  lemma FiveOpen(a: Rule, b: Rule, c: Rule, e: Rule, f: Rule, d: Direction, p: Packet)
    ensures ListAdmits([a, b, c, e, f], d, p)
            <==> Admits(a, d, p) || Admits(b, d, p) || Admits(c, d, p) || Admits(e, d, p) || Admits(f, d, p)
  {
    hide Admits;
    var rules := [a, b, c, e, f];
    assert rules[0] in rules && rules[1] in rules && rules[2] in rules && rules[3] in rules && rules[4] in rules;
  }

  lemma {:induction false} ClusterListsOpen(tiers: TierCidrs, kubectl: seq<Network>, t: Tier, d: Direction, p: Packet)
    ensures ListAdmits(ClusterLists(tiers, kubectl).At(t, d), d, p) <==> ClusterOpens(tiers, kubectl, t, d, p)
  {
    hide ListAdmits, Contains, KubectlRules;
    var public, private, internet := Cidr(tiers.public), Cidr(tiers.private), Cidr(INTERNET);
    match (t, d)
    case (Public, Ingress) =>
      var web := [Tcp(6443, private), Tcp(12250, private), Tcp(443, internet), Tcp(80, internet)];
      ListOpensAppend(web, KubectlRules(kubectl), d, p);
      FourOpen(web[0], web[1], web[2], web[3], d, p);
      KubectlOpens(kubectl, p);
    case (Public, Egress) =>
      FiveOpen(TcpAny(Services), Tcp(10250, private), TcpRange(30000, 32767, private), Tcp(10256, private),
               Everything(private), d, p);
    case (Private, Ingress) =>
      FourOpen(Tcp(10250, public), TcpRange(30000, 32767, public), Tcp(10256, public), Everything(public), d, p);
    case (Private, Egress) =>
      FiveOpen(TcpAny(Services), Tcp(6443, public), Tcp(12250, public), Tcp(443, internet), Tcp(80, internet), d, p);
    case _ =>
      OneRuleOpens(Everything(internet), d, p);
  }

  // ---- Steps -----------------------------------------------------------------------------------------

  lemma {:induction false} StepOpens(site: Site, roster: map<nat, Member>, step: Step, t: Tier, d: Direction, p: Packet)
    ensures CallsOpen(StepCalls(site, roster, step), t, d, p) <==> Opens(site, roster, step, t, d, p)
  {
    hide CallsOpen, ListAdmits, NsgOpens, RelationOpens, InstanceOpens, BastionOpens, BalancerOpens,
        InternalBalancerOpens,
        WorkloadOpens, ClusterOpens, AmbientCalls, LinkCalls, ComputeCalls, WorkloadCalls, ForwardingLists,
            ClusterLists,
        InternalLoadBalancerCalls;
    CallsOpenOne(Direct(NOTHING), t, d, p);
    match step
    case BuildNsg(_, _, role, ports) =>
      if role.Some? {
        AmbientCallsOpen(role.value, ports, t, d, p);
      }
    case Relate(src, tgt, port, withSsh) =>
      if src in roster && tgt in roster && roster[src].role.Some? && roster[tgt].role.Some? {
        RelateOpens(site, roster[src].role.value, roster[tgt].role.value, port, withSsh, t, d, p);
      }
    case DirectRules(lists) => CallsOpenOne(Direct(lists), t, d, p);
    case BuildCompute(subnet) => ComputeCallsOpen(site.tiers, subnet, t, d, p);
    case BuildBastion => BastionCallsOpen(t, d, p);
    case BuildLoadBalancer(port) =>
      var calls := LoadBalancerCalls(site.tiers, port);
      BalancerCallsOpen(site.tiers, port, calls[0], calls[1], t, d, p);
    case BuildInternalLoadBalancer(port) => InternalBalancerCallsOpen(site.cidr, site.tiers, port, t, d, p);
    case BuildWorkload(isPublic, port) => WorkloadCallsOpen(site.cidr, site.tiers, isPublic, port, t, d, p);
    case BuildCluster(kubectl) =>
      CallsOpenOne(Direct(ClusterLists(site.tiers, AllowedCidrs(kubectl))), t, d, p);
      ClusterListsOpen(site.tiers, AllowedCidrs(kubectl), t, d, p);
    case _ =>
  }

  lemma {:induction false} RelateOpens(site: Site, src: Role, tgt: Role, port: nat, withSsh: bool, t: Tier,
      d: Direction, p: Packet)
    ensures CallsOpen(ServesCalls(site.tiers, Some(src), Some(tgt), port, withSsh), t, d, p)
            <==> RelationOpens(site.tiers, src.tier, tgt.tier, port, withSsh && tgt.acceptSsh, t, d, p)
  {
    hide CallsOpen, LinkCalls;
    CallsOpenOne(Direct(NOTHING), t, d, p);
    if src.tier != tgt.tier {
      LinkCallsOpen(site.tiers, src.tier, tgt.tier, port, withSsh && tgt.acceptSsh, t, d, p);
    }
  }

  lemma {:induction false} SeedOpens(site: Site, t: Tier, d: Direction, p: Packet)
    ensures ListAdmits(Seed(site.cidr).At(t, d), d, p) <==> d == Ingress && AlwaysOpen(site, false, t, d, p)
  {
    hide Contains;
    var rules := Seed(site.cidr).At(Public, Ingress);
    assert rules[0] in rules && rules[1] in rules;
  }

  lemma {:induction false} BaselineOpens(site: Site, t: Tier, d: Direction, p: Packet)
    ensures ListAdmits(BASELINE.At(t, d), d, p) <==> d == Egress && AlwaysOpen(site, true, t, d, p)
  {
    hide Contains;
    var rules := BASELINE.At(t, d);
    assert t == Private && d == Egress ==> rules[0] in rules && rules[1] in rules;
    assert (t == Secure || t == Management) && d == Egress ==> rules[0] in rules;
  }

  // ---- Whole programs --------------------------------------------------------------------------------

  /** Some step opens the list for the packet; an instance built on a finalised network opens nothing. */
  predicate Opened(site: Site, h: seq<Step>, t: Tier, d: Direction, p: Packet) {
    exists j :: 0 <= j < |h| && !LateCompute(h, j) && Opens(site, Roster(h), h[j], t, d, p)
  }

  /** The NSGs of a step are the same now as when it ran. */
  lemma {:induction false} SameOpens(site: Site, h: seq<Step>, j: nat, t: Tier, d: Direction, p: Packet)
    requires AllAllowed(site, h) && j < |h|
    ensures Asks(site, h, j, t, d, p) <==> Opens(site, Roster(h), h[j], t, d, p)
  {
    hide AllAllowed, Roster, RelationOpens, NsgOpens, ListAdmits, StepCalls;
    StepOpens(site, Roster(h[..j]), h[j], t, d, p);
    if h[j].Relate? {
      RelateEnds(site, h, j);
    }
  }

  /**
   What each of the eight lists lets through, pending and materialised, in every program that raises nothing: what is
   always open, and what some step of the program opens; nothing else.
   */
  lemma {:induction false} ListsMean(site: Site, h: seq<Step>, t: Tier, d: Direction, p: Packet)
    requires RunOn(site, h).Ok()
    ensures var v := RunOn(site, h).state.vcn;
            && (ListAdmits(v.pending.At(t, d), d, p) <==>
                AlwaysOpen(site, Closed(h), t, d, p) || Opened(site, h, t, d, p))
            && (v.finalized <==> Closed(h))
            && (v.finalized ==> |v.created| == 1 && v.created[0].lists == v.pending)
  {
    hide Run, Roster, ListAdmits, Closed, Asks, Opens, LateCompute, AllAllowed, Agrees;
    RunsAgree(site, h);
    ListsExact(site, h, t, d, p);
    SeedOpens(site, t, d, p);
    BaselineOpens(site, t, d, p);
    forall j | 0 <= j < |h|
      ensures Asks(site, h, j, t, d, p) <==> Opens(site, Roster(h), h[j], t, d, p)
    {
      SameOpens(site, h, j, t, d, p);
    }
  }

  /** The same, list by list. */
  lemma {:induction false} EachListMeans(site: Site, h: seq<Step>, p: Packet)
    requires RunOn(site, h).Ok()
    ensures var lists, open := RunOn(site, h).state.vcn.pending,
                               (t, d) => AlwaysOpen(site, Closed(h), t, d, p) || Opened(site, h, t, d, p);
            && (ListAdmits(lists.publicIngress, Ingress, p) <==> open(Public, Ingress))
            && (ListAdmits(lists.publicEgress, Egress, p) <==> open(Public, Egress))
            && (ListAdmits(lists.privateIngress, Ingress, p) <==> open(Private, Ingress))
            && (ListAdmits(lists.privateEgress, Egress, p) <==> open(Private, Egress))
            && (ListAdmits(lists.secureIngress, Ingress, p) <==> open(Secure, Ingress))
            && (ListAdmits(lists.secureEgress, Egress, p) <==> open(Secure, Egress))
            && (ListAdmits(lists.managementIngress, Ingress, p) <==> open(Management, Ingress))
            && (ListAdmits(lists.managementEgress, Egress, p) <==> open(Management, Egress))
  {
    hide Run, Roster, ListAdmits, Closed, AlwaysOpen, Opened;
    ListsMean(site, h, Public, Ingress, p);
    ListsMean(site, h, Public, Egress, p);
    ListsMean(site, h, Private, Ingress, p);
    ListsMean(site, h, Private, Egress, p);
    ListsMean(site, h, Secure, Ingress, p);
    ListsMean(site, h, Secure, Egress, p);
    ListsMean(site, h, Management, Ingress, p);
    ListsMean(site, h, Management, Egress, p);
  }

  /** Every port of an edge NSG is open on the public list, whether its rules were new, merged with others, or late. */
  lemma {:induction false} EdgePortsOpen(site: Site, h: seq<Step>, j: nat, p: Packet)
    requires RunOn(site, h).Ok() && j < |h| && h[j].BuildNsg? && h[j].role.Some? && h[j].role.value.tier == Public
    requires ToPort(p, h[j].ports) && FromBlock(p, INTERNET)
    ensures var v := RunOn(site, h).state.vcn;
            && ListAdmits(v.pending.At(Public, Ingress), Ingress, p)
            && (v.finalized ==> |v.created| == 1 && ListAdmits(v.created[0].lists.At(Public, Ingress), Ingress, p))
  {
    hide Run, Roster, ListAdmits, Closed, ToPort, Contains;
    ListsMean(site, h, Public, Ingress, p);
    assert !LateCompute(h, j) && Opens(site, Roster(h), h[j], Public, Ingress, p);
  }

  /**
   Finalisation opens the way to services for all tiers but the public one, and to the internet for the private tier.
   */
  lemma {:induction false} FinalizeOpens(v: VcnState, t: Tier, d: Direction, p: Packet)
    requires !v.finalized
    ensures var w := Finalize(v).state;
            && (ListAdmits(w.pending.At(t, d), d, p) <==>
                || ListAdmits(v.pending.At(t, d), d, p)
                || (d == Egress && t != Public && p.destination.service)
                || (d == Egress && t == Private && ToBlock(p, INTERNET)))
            && w.created == v.created + [Materialised(w.pending, v.tiers)]
  {
    hide Contains, ListAdmits, Join;
    FinalizeOnce(v);
    JoinAt(v.pending, BASELINE, t, d);
    ListOpensAppend(v.pending.At(t, d), BASELINE.At(t, d), d, p);
    BaselineOpens(Site(v.cidr, v.tiers, v.settings), t, d, p);
  }

  /** In every program with a cluster, whatever a worker or pod NSG lets out of the cluster passes the private list. */
  lemma {:induction false} ClusterEgressPasses(site: Site, h: seq<Step>, j: nat, g: ClusterGroups, part: Part,
      p: Packet)
    requires RunOn(site, h).Ok() && j < |h| && h[j].BuildCluster? && (part == Worker || part == Pod)
    requires p.destination.groups == {} && GroupAdmits(PartRules(g, AllowedCidrs(h[j].kubectl), part), Egress, p)
    ensures var v := RunOn(site, h).state.vcn;
            |v.created| == 1 && ListAdmits(v.created[0].lists.At(Private, Egress), Egress, p)
  {
    hide Run, GroupAdmits, PartRules, ListAdmits, Contains, Opened;
    OutsideEgressExact(g, AllowedCidrs(h[j].kubectl), part, p);
    assert Finalising(h[j]);
    ListsMean(site, h, Private, Egress, p);
  }
}
