/** The OKE cluster's two rule layers: subnet security lists, and four NSGs. */
module Oke {
  import opened Fingerprints
  import opened Networks
  import opened Rules
  import opened VcnBuilder
  import opened Wrappers

  const NOTE := Spell("oke")

  function Tcp(port: int, peer: Peer): Rule {
    TcpRule(port, peer, NOTE)
  }

  function TcpRange(min: int, max: int, peer: Peer): Rule {
    Rule(TCP, peer, Some(PortRange(min, max)), None, NOTE)
  }

  function TcpAny(peer: Peer): Rule {
    Rule(TCP, peer, None, None, NOTE)
  }

  function Everything(peer: Peer): Rule {
    AllRule(peer, NOTE)
  }

  /** One API-server rule per CIDR allowed to use kubectl. */
  function KubectlRules(cidrs: seq<Network>): (rs: seq<Rule>)
    ensures |rs| == |cidrs| && forall i :: 0 <= i < |cidrs| ==> rs[i] == Tcp(6443, Cidr(cidrs[i]))
  {
    seq(|cidrs|, i requires 0 <= i < |cidrs| => Tcp(6443, Cidr(cidrs[i])))
  }

  // ---- Layer 1: security lists -----------------------------------------------------------------------

  function ClusterLists(tiers: TierCidrs, kubectl: seq<Network>): RuleLists {
    var public, private, internet := Cidr(tiers.public), Cidr(tiers.private), Cidr(INTERNET);
    NOTHING.(
      publicIngress := [Tcp(6443, private), Tcp(12250, private), Tcp(443, internet), Tcp(80, internet)]
          + KubectlRules(kubectl),
      publicEgress := [TcpAny(Services), Tcp(10250, private), TcpRange(30000, 32767, private), Tcp(10256, private),
          Everything(private)],
      privateIngress := [Tcp(10250, public), TcpRange(30000, 32767, public), Tcp(10256, public), Everything(public)],
      privateEgress := [TcpAny(Services), Tcp(6443, public), Tcp(12250, public), Tcp(443, internet), Tcp(80, internet)])
  }

  function OkeCalls(tiers: TierCidrs, kubectl: seq<Network>): seq<Call> {
    [Direct(ClusterLists(tiers, kubectl))]
  }

  // ---- Layer 2: NSGs ---------------------------------------------------------------------------------

  datatype ClusterGroups = ClusterGroups(api: nat, lb: nat, worker: nat, pod: nat)

  datatype GroupRule = GroupRule(dir: Direction, rule: Rule)

  function From(rule: Rule): GroupRule { GroupRule(Ingress, rule) }
  function To(rule: Rule): GroupRule { GroupRule(Egress, rule) }

  function KubectlGroupRules(cidrs: seq<Network>): (rs: seq<GroupRule>)
    ensures |rs| == |cidrs| && forall i :: 0 <= i < |cidrs| ==> rs[i] == From(Tcp(6443, Cidr(cidrs[i])))
  {
    seq(|cidrs|, i requires 0 <= i < |cidrs| => From(Tcp(6443, Cidr(cidrs[i]))))
  }

  function ApiRules(g: ClusterGroups, kubectl: seq<Network>): seq<GroupRule> {
    [From(Tcp(6443, Group(g.worker))), From(Tcp(12250, Group(g.worker))),
     From(Tcp(6443, Group(g.pod))), From(Tcp(12250, Group(g.pod)))]
    + KubectlGroupRules(kubectl)
    + [To(Everything(Services)), To(Tcp(10250, Group(g.worker))), To(Everything(Group(g.pod)))]
  }

  function LbRules(g: ClusterGroups): seq<GroupRule> {
    [From(Tcp(443, Cidr(INTERNET))), From(Tcp(80, Cidr(INTERNET))),
     To(TcpRange(30000, 32767, Group(g.worker))), To(Tcp(10256, Group(g.worker)))]
  }

  function WorkerRules(g: ClusterGroups): seq<GroupRule> {
    [From(Tcp(10250, Group(g.api))), From(TcpRange(30000, 32767, Group(g.lb))), From(Tcp(10256, Group(g.lb))),
     From(Everything(Group(g.pod))), From(Everything(Group(g.worker))),
     To(Tcp(6443, Group(g.api))), To(Tcp(12250, Group(g.api))), To(Everything(Services)),
     To(Everything(Group(g.pod))), To(Everything(Group(g.worker))),
     To(Tcp(443, Cidr(INTERNET))), To(Tcp(80, Cidr(INTERNET)))]
  }

  function PodRules(g: ClusterGroups): seq<GroupRule> {
    [From(Everything(Group(g.api))), From(Everything(Group(g.worker))), From(Everything(Group(g.pod))),
     To(Everything(Group(g.pod))), To(Everything(Group(g.worker))),
     To(Tcp(6443, Group(g.api))), To(Tcp(12250, Group(g.api))), To(Everything(Services)),
     To(Tcp(443, Cidr(INTERNET))), To(Tcp(80, Cidr(INTERNET)))]
  }

  predicate GroupAdmits(rules: seq<GroupRule>, dir: Direction, p: Packet) {
    exists r :: r in rules && r.dir == dir && Admits(r.rule, dir, p)
  }

  // ---- The object ------------------------------------------------------------------------------------

  class OkeCluster {
    const vcn: Vcn
    const groups: ClusterGroups
    const kubectl: seq<Network>
    var apiRules: seq<GroupRule>
    var lbRules: seq<GroupRule>
    var workerRules: seq<GroupRule>
    var podRules: seq<GroupRule>

    constructor (vcn: Vcn, groups: ClusterGroups, kubectlAllowed: Option<seq<Network>>)
      ensures this.vcn == vcn && this.groups == groups
      ensures kubectl == if kubectlAllowed.Some? then kubectlAllowed.value else []
      ensures apiRules == [] && lbRules == [] && workerRules == [] && podRules == []
    {
      this.vcn, this.groups := vcn, groups;
      kubectl := if kubectlAllowed.Some? then kubectlAllowed.value else [];
      apiRules, lbRules, workerRules, podRules := [], [], [], [];
    }

    /** Security lists, finalisation, then the four NSGs. */
    method Build() returns (raised: Option<Error>)
      modifies this, vcn
      ensures var o := RunCalls(old(vcn.State()), OkeCalls(vcn.tiers, kubectl));
              Outcome(vcn.State(), raised) == if !o.Ok() then o else Finalize(o.state)
      ensures raised.None? ==>
                && apiRules == old(apiRules) + ApiRules(groups, kubectl) && lbRules == old(lbRules) + LbRules(groups)
                && workerRules == old(workerRules) + WorkerRules(groups) && podRules == old(podRules) + PodRules(groups)
      ensures raised.Some? ==>
                apiRules == old(apiRules) && lbRules == old(lbRules) && workerRules == old(workerRules)
                    && podRules == old(podRules)
    {
      RunOneCall(vcn.State(), OkeCalls(vcn.tiers, kubectl)[0]);
      raised := AddSecurityListsRules();
      if raised.None? {
        raised := vcn.FinalizeNetwork();
      }
      if raised.None? {
        AddApiNsgRules();
        AddLbNsgRules();
        AddWorkerNsgRules();
        AddPodNsgRules();
      }
    }

    method AddSecurityListsRules() returns (raised: Option<Error>)
      modifies vcn
      ensures Outcome(vcn.State(), raised) == AddRules(old(vcn.State()), ClusterLists(vcn.tiers, kubectl))
    {
      var public, private, internet := Cidr(vcn.tiers.public), Cidr(vcn.tiers.private), Cidr(INTERNET);
      var fixed := [Tcp(6443, private), Tcp(12250, private), Tcp(443, internet), Tcp(80, internet)];
      var publicIngress := fixed;
      for i := 0 to |kubectl|
        invariant publicIngress == fixed + KubectlRules(kubectl)[..i]
      {
        publicIngress := publicIngress + [Tcp(6443, Cidr(kubectl[i]))];
      }
      assert publicIngress == fixed + KubectlRules(kubectl);
      raised := vcn.AddSecurityListRules(NOTHING.(
        publicIngress := publicIngress,
        publicEgress := [TcpAny(Services), Tcp(10250, private), TcpRange(30000, 32767, private), Tcp(10256, private),
            Everything(private)],
        privateIngress := [Tcp(10250, public), TcpRange(30000, 32767, public), Tcp(10256, public), Everything(public)],
        privateEgress := [TcpAny(Services), Tcp(6443, public), Tcp(12250, public), Tcp(443, internet),
            Tcp(80, internet)]));
    }

    method AddApiNsgRules()
      modifies this`apiRules
      ensures apiRules == old(apiRules) + ApiRules(groups, kubectl)
    {
      apiRules := apiRules + [From(Tcp(6443, Group(groups.worker)))];
      apiRules := apiRules + [From(Tcp(12250, Group(groups.worker)))];
      apiRules := apiRules + [From(Tcp(6443, Group(groups.pod)))];
      apiRules := apiRules + [From(Tcp(12250, Group(groups.pod)))];
      ghost var fixed := apiRules;
      for i := 0 to |kubectl|
        invariant apiRules == fixed + KubectlGroupRules(kubectl)[..i]
      {
        apiRules := apiRules + [From(Tcp(6443, Cidr(kubectl[i])))];
      }
      apiRules := apiRules + [To(Everything(Services))];
      apiRules := apiRules + [To(Tcp(10250, Group(groups.worker)))];
      apiRules := apiRules + [To(Everything(Group(groups.pod)))];
    }

    method AddLbNsgRules()
      modifies this`lbRules
      ensures lbRules == old(lbRules) + LbRules(groups)
    {
      lbRules := lbRules + [From(Tcp(443, Cidr(INTERNET)))];
      lbRules := lbRules + [From(Tcp(80, Cidr(INTERNET)))];
      lbRules := lbRules + [To(TcpRange(30000, 32767, Group(groups.worker)))];
      lbRules := lbRules + [To(Tcp(10256, Group(groups.worker)))];
    }

    method AddWorkerNsgRules()
      modifies this`workerRules
      ensures workerRules == old(workerRules) + WorkerRules(groups)
    {
      workerRules := workerRules + [From(Tcp(10250, Group(groups.api)))];
      workerRules := workerRules + [From(TcpRange(30000, 32767, Group(groups.lb)))];
      workerRules := workerRules + [From(Tcp(10256, Group(groups.lb)))];
      workerRules := workerRules + [From(Everything(Group(groups.pod)))];
      workerRules := workerRules + [From(Everything(Group(groups.worker)))];
      workerRules := workerRules + [To(Tcp(6443, Group(groups.api)))];
      workerRules := workerRules + [To(Tcp(12250, Group(groups.api)))];
      workerRules := workerRules + [To(Everything(Services))];
      workerRules := workerRules + [To(Everything(Group(groups.pod)))];
      workerRules := workerRules + [To(Everything(Group(groups.worker)))];
      workerRules := workerRules + [To(Tcp(443, Cidr(INTERNET)))];
      workerRules := workerRules + [To(Tcp(80, Cidr(INTERNET)))];
    }

    method AddPodNsgRules()
      modifies this`podRules
      ensures podRules == old(podRules) + PodRules(groups)
    {
      podRules := podRules + [From(Everything(Group(groups.api)))];
      podRules := podRules + [From(Everything(Group(groups.worker)))];
      podRules := podRules + [From(Everything(Group(groups.pod)))];
      podRules := podRules + [To(Everything(Group(groups.pod)))];
      podRules := podRules + [To(Everything(Group(groups.worker)))];
      podRules := podRules + [To(Tcp(6443, Group(groups.api)))];
      podRules := podRules + [To(Tcp(12250, Group(groups.api)))];
      podRules := podRules + [To(Everything(Services))];
      podRules := podRules + [To(Tcp(443, Cidr(INTERNET)))];
      podRules := podRules + [To(Tcp(80, Cidr(INTERNET)))];
    }
  }

  // ---- The two layers agree --------------------------------------------------------------------------

  datatype Part = Api | Lb | Worker | Pod

  function PartId(g: ClusterGroups, part: Part): nat {
    match part
    case Api => g.api
    case Lb => g.lb
    case Worker => g.worker
    case Pod => g.pod
  }

  function PartRules(g: ClusterGroups, kubectl: seq<Network>, part: Part): seq<GroupRule> {
    match part
    case Api => ApiRules(g, kubectl)
    case Lb => LbRules(g)
    case Worker => WorkerRules(g)
    case Pod => PodRules(g)
  }

  /** The API endpoint and the load balancers live in the public subnet, workers and pods in the private one. */
  function PartTier(part: Part): Tier {
    if part == Api || part == Lb then Public else Private
  }

  /**
   A network interface of a part of the cluster: in its subnet, carrying its NSG and no other, not an Oracle service.
   */
  predicate Interface(e: Endpoint, g: ClusterGroups, tiers: TierCidrs, part: Part) {
    e.groups == {PartId(g, part)} && !e.service && Contains(TierCidr(tiers, PartTier(part)), e.address)
  }

  /** Every rule of the cluster is in the lists, whatever else is. */
  ghost predicate Includes(lists: RuleLists, wanted: RuleLists) {
    forall t: Tier, d: Direction, r :: r in wanted.At(t, d) ==> r in lists.At(t, d)
  }

  predicate DistinctGroups(g: ClusterGroups) {
    g.api != g.lb && g.api != g.worker && g.api != g.pod && g.lb != g.worker && g.lb != g.pod && g.worker != g.pod
  }

  lemma Listed(lists: RuleLists, wanted: RuleLists, t: Tier, d: Direction, r: Rule, p: Packet)
    requires Includes(lists, wanted) && r in wanted.At(t, d) && Admits(r, d, p)
    ensures ListAdmits(lists.At(t, d), d, p)
  {
  }

  predicate TcpOn(p: Packet, port: int) {
    p.protocol == TCP && p.port == port
  }

  /** What the API NSG lets in: the two control-plane ports, wherever it comes from. */
  lemma ApiIngressPorts(g: ClusterGroups, kubectl: seq<Network>, p: Packet)
    requires GroupAdmits(ApiRules(g, kubectl), Ingress, p) && p.protocol != ALL
    ensures TcpOn(p, 6443) || TcpOn(p, 12250)
  {
    var r :| r in ApiRules(g, kubectl) && r.dir == Ingress && Admits(r.rule, Ingress, p);
    assert r in KubectlGroupRules(kubectl) ==> r.rule.protocol == TCP && r.rule.tcp == Some(PortRange(6443, 6443));
  }

  /** What the API NSG lets in from a source without an NSG: kubectl, from the allowed CIDRs. */
  lemma ApiOutsideIngress(g: ClusterGroups, kubectl: seq<Network>, p: Packet) returns (i: nat)
    requires GroupAdmits(ApiRules(g, kubectl), Ingress, p) && p.source.groups == {}
    ensures i < |kubectl| && Admits(KubectlRules(kubectl)[i], Ingress, p)
  {
    var r :| r in ApiRules(g, kubectl) && r.dir == Ingress && Admits(r.rule, Ingress, p);
    assert r in KubectlGroupRules(kubectl);
    i :| 0 <= i < |kubectl| && r == KubectlGroupRules(kubectl)[i];
  }

  lemma LbIngressPorts(g: ClusterGroups, p: Packet)
    requires GroupAdmits(LbRules(g), Ingress, p) && p.protocol != ALL
    ensures (TcpOn(p, 443) || TcpOn(p, 80)) && Contains(INTERNET, p.source.address)
  {
  }

  /** Workers and pods reach the load balancers' addresses only as they reach the internet. */
  lemma WorkloadEgressPeers(g: ClusterGroups, rules: seq<GroupRule>, e: GroupRule)
    requires (rules == WorkerRules(g) || rules == PodRules(g)) && e in rules && e.dir == Egress
    ensures e.rule.peer in {Group(g.api), Group(g.worker), Group(g.pod), Services, Cidr(INTERNET)}
  {
  }

  lemma {:induction false} EgressToLoadBalancer(g: ClusterGroups, rules: seq<GroupRule>, p: Packet)
    requires rules == WorkerRules(g) || rules == PodRules(g)
    requires DistinctGroups(g) && !p.destination.service && p.destination.groups == {g.lb}
    requires GroupAdmits(rules, Egress, p)
    ensures Contains(INTERNET, p.destination.address)
  {
    var e :| e in rules && e.dir == Egress && Admits(e.rule, Egress, p);
    WorkloadEgressPeers(g, rules, e);
    hide WorkerRules, PodRules;
  }

  lemma PublicToPrivateListed(tiers: TierCidrs, kubectl: seq<Network>, lists: RuleLists, p: Packet)
    requires Includes(lists, ClusterLists(tiers, kubectl))
    requires Contains(tiers.public, p.source.address) && Contains(tiers.private, p.destination.address)
    ensures ListAdmits(lists.At(Public, Egress), Egress, p) && ListAdmits(lists.At(Private, Ingress), Ingress, p)
  {
    var wanted := ClusterLists(tiers, kubectl);
    assert wanted.At(Public, Egress)[4] == Everything(Cidr(tiers.private));
    assert wanted.At(Private, Ingress)[3] == Everything(Cidr(tiers.public));
    Listed(lists, wanted, Public, Egress, Everything(Cidr(tiers.private)), p);
    Listed(lists, wanted, Private, Ingress, Everything(Cidr(tiers.public)), p);
  }

  lemma ControlPlaneListed(tiers: TierCidrs, kubectl: seq<Network>, lists: RuleLists, p: Packet)
    requires Includes(lists, ClusterLists(tiers, kubectl))
    requires Contains(tiers.private, p.source.address) && Contains(tiers.public, p.destination.address)
    requires TcpOn(p, 6443) || TcpOn(p, 12250)
    ensures ListAdmits(lists.At(Private, Egress), Egress, p) && ListAdmits(lists.At(Public, Ingress), Ingress, p)
  {
    var wanted := ClusterLists(tiers, kubectl);
    var out, into := Tcp(p.port, Cidr(tiers.public)), Tcp(p.port, Cidr(tiers.private));
    assert out == wanted.At(Private, Egress)[1] || out == wanted.At(Private, Egress)[2];
    assert into == wanted.At(Public, Ingress)[0] || into == wanted.At(Public, Ingress)[1];
    Listed(lists, wanted, Private, Egress, out, p);
    Listed(lists, wanted, Public, Ingress, into, p);
  }

  lemma WebListed(tiers: TierCidrs, kubectl: seq<Network>, lists: RuleLists, p: Packet)
    requires Includes(lists, ClusterLists(tiers, kubectl))
    requires TcpOn(p, 443) || TcpOn(p, 80)
    ensures Contains(INTERNET, p.destination.address) ==> ListAdmits(lists.At(Private, Egress), Egress, p)
    ensures Contains(INTERNET, p.source.address) ==> ListAdmits(lists.At(Public, Ingress), Ingress, p)
  {
    var wanted, rule := ClusterLists(tiers, kubectl), Tcp(p.port, Cidr(INTERNET));
    assert rule == wanted.At(Private, Egress)[3] || rule == wanted.At(Private, Egress)[4];
    assert rule == wanted.At(Public, Ingress)[2] || rule == wanted.At(Public, Ingress)[3];
    if Contains(INTERNET, p.destination.address) {
      Listed(lists, wanted, Private, Egress, rule, p);
    }
    if Contains(INTERNET, p.source.address) {
      Listed(lists, wanted, Public, Ingress, rule, p);
    }
  }

  /** Traffic between subnets that the NSGs of both ends admit is never dropped by the security lists. */
  lemma {:induction false} CrossSubnetCoherence(g: ClusterGroups, tiers: TierCidrs, kubectl: seq<Network>,
      lists: RuleLists, a: Part, b: Part, p: Packet)
    requires DistinctGroups(g) && Includes(lists, ClusterLists(tiers, kubectl)) && p.protocol != ALL
    requires PartTier(a) != PartTier(b)
    requires Interface(p.source, g, tiers, a) && Interface(p.destination, g, tiers, b)
    requires GroupAdmits(PartRules(g, kubectl, a), Egress, p)
    requires GroupAdmits(PartRules(g, kubectl, b), Ingress, p)
    ensures ListAdmits(lists.At(PartTier(a), Egress), Egress, p)
    ensures ListAdmits(lists.At(PartTier(b), Ingress), Ingress, p)
  {
    if PartTier(a) == Public {
      PublicToPrivateListed(tiers, kubectl, lists, p);
    } else if b == Api {
      ApiIngressPorts(g, kubectl, p);
      ControlPlaneListed(tiers, kubectl, lists, p);
    } else {
      LbIngressPorts(g, p);
      EgressToLoadBalancer(g, PartRules(g, kubectl, a), p);
      WebListed(tiers, kubectl, lists, p);
    }
  }

  /** The channels between the parts of a cluster, whatever NSG they name. */
  function Channels(a: Part, b: Part): seq<Rule> {
    match (a, b)
    case (Api, Worker) => [Tcp(10250, Services)]
    case (Lb, Worker) => [TcpRange(30000, 32767, Services), Tcp(10256, Services)]
    case (Worker, Api) => [Tcp(6443, Services), Tcp(12250, Services)]
    case (Pod, Api) => [Tcp(6443, Services), Tcp(12250, Services)]
    case (Api, Pod) => [Everything(Services)]
    case (Worker, Worker) => [Everything(Services)]
    case (Worker, Pod) => [Everything(Services)]
    case (Pod, Worker) => [Everything(Services)]
    case (Pod, Pod) => [Everything(Services)]
    case _ => []
  }

  lemma {:induction false} EgressChannels(g: ClusterGroups, kubectl: seq<Network>, a: Part, b: Part, rule: Rule)
    requires DistinctGroups(g)
    ensures To(rule.(peer := Group(PartId(g, b)))) in PartRules(g, kubectl, a) <==>
        rule.(peer := Services) in Channels(a, b)
  {
    var r := To(rule.(peer := Group(PartId(g, b))));
    assert r !in KubectlGroupRules(kubectl);
  }

  lemma {:induction false} IngressChannels(g: ClusterGroups, kubectl: seq<Network>, a: Part, b: Part, rule: Rule)
    requires DistinctGroups(g)
    ensures From(rule.(peer := Group(PartId(g, a)))) in PartRules(g, kubectl, b) <==>
        rule.(peer := Services) in Channels(a, b)
  {
    var r := From(rule.(peer := Group(PartId(g, a))));
    assert r !in KubectlGroupRules(kubectl);
  }

  /**
   The NSGs of a cluster mirror each other: a part may send to another by a rule exactly when the other accepts it from
   it.
   */
  lemma {:induction false} ClusterRulesMirror(g: ClusterGroups, kubectl: seq<Network>, a: Part, b: Part, rule: Rule)
    requires DistinctGroups(g)
    ensures To(rule.(peer := Group(PartId(g, b)))) in PartRules(g, kubectl, a)
            <==> From(rule.(peer := Group(PartId(g, a)))) in PartRules(g, kubectl, b)
  {
    hide PartRules, Channels;
    EgressChannels(g, kubectl, a, b, rule);
    IngressChannels(g, kubectl, a, b, rule);
  }

  lemma {:induction false} ChannelRules(a: Part, b: Part, c: Rule)
    requires c in Channels(a, b)
    ensures c.peer == Services && c.icmp == None
  {
  }

  /**
   Every channel of a cluster is open end to end: out of one NSG, into the other, and through both lists between
   subnets.
   */
  lemma {:induction false} ChannelsAreOpen(g: ClusterGroups, tiers: TierCidrs, kubectl: seq<Network>,
      lists: RuleLists, a: Part, b: Part, c: Rule, p: Packet)
    requires DistinctGroups(g) && Includes(lists, ClusterLists(tiers, kubectl)) && p.protocol != ALL
    requires c in Channels(a, b) && (c.protocol == ALL || c.protocol == p.protocol)
    requires c.tcp.Some? ==> c.tcp.value.min <= p.port <= c.tcp.value.max
    requires Interface(p.source, g, tiers, a) && Interface(p.destination, g, tiers, b)
    ensures GroupAdmits(PartRules(g, kubectl, a), Egress, p) && GroupAdmits(PartRules(g, kubectl, b), Ingress, p)
    ensures PartTier(a) != PartTier(b) ==>
              ListAdmits(lists.At(PartTier(a), Egress), Egress, p)
                  && ListAdmits(lists.At(PartTier(b), Ingress), Ingress, p)
  {
    hide PartRules, Channels, Includes, ClusterLists;
    ChannelRules(a, b, c);
    assert c.(peer := Services) == c;
    EgressChannels(g, kubectl, a, b, c);
    IngressChannels(g, kubectl, a, b, c);
    var out, into := To(c.(peer := Group(PartId(g, b)))), From(c.(peer := Group(PartId(g, a))));
    assert Admits(out.rule, Egress, p) && Admits(into.rule, Ingress, p);
    if PartTier(a) != PartTier(b) {
      CrossSubnetCoherence(g, tiers, kubectl, lists, a, b, p);
    }
  }

  /**
   Outside clients: whatever the API or load-balancer NSG admits from a source without an NSG, the public list admits.
   */
  lemma OutsideIngressCoherence(g: ClusterGroups, tiers: TierCidrs, kubectl: seq<Network>, lists: RuleLists,
      part: Part, p: Packet)
    requires Includes(lists, ClusterLists(tiers, kubectl)) && p.protocol != ALL
    requires part == Api || part == Lb
    requires p.source.groups == {}
    requires GroupAdmits(PartRules(g, kubectl, part), Ingress, p)
    ensures ListAdmits(lists.At(Public, Ingress), Ingress, p)
  {
    if part == Api {
      var i := ApiOutsideIngress(g, kubectl, p);
      var wanted := ClusterLists(tiers, kubectl);
      assert wanted.At(Public, Ingress)[4 + i] == KubectlRules(kubectl)[i];
      Listed(lists, wanted, Public, Ingress, KubectlRules(kubectl)[i], p);
    } else {
      LbIngressPorts(g, p);
      WebListed(tiers, kubectl, lists, p);
    }
  }

  // ---- What each NSG admits, rule by rule ------------------------------------------------------------

  predicate TcpBetween(p: Packet, min: int, max: int) {
    p.protocol == TCP && min <= p.port <= max
  }

  /** The ports on which one part of the cluster talks to another. */
  predicate InCluster(a: Part, b: Part, p: Packet) {
    match (a, b)
    case (Api, Worker) => TcpOn(p, 10250)
    case (Lb, Worker) => TcpBetween(p, 30000, 32767) || TcpOn(p, 10256)
    case (Worker, Api) => TcpOn(p, 6443) || TcpOn(p, 12250)
    case (Pod, Api) => TcpOn(p, 6443) || TcpOn(p, 12250)
    case (Api, Pod) => true
    case (Worker, Worker) => true
    case (Worker, Pod) => true
    case (Pod, Worker) => true
    case (Pod, Pod) => true
    case _ => false
  }

  /** Out of the cluster: to Oracle services, and from workers and pods to the web. */
  predicate LeavesCluster(a: Part, p: Packet) {
    || (a != Lb && p.destination.service)
    || ((a == Worker || a == Pod) && (TcpOn(p, 80) || TcpOn(p, 443)) && Contains(INTERNET, p.destination.address))
  }

  /** Into the cluster: kubectl to the API endpoint, and the web to the load balancers. */
  predicate EntersCluster(b: Part, kubectl: seq<Network>, p: Packet) {
    || (b == Api && TcpOn(p, 6443) && exists block :: block in kubectl && Contains(block, p.source.address))
    || (b == Lb && (TcpOn(p, 80) || TcpOn(p, 443)) && Contains(INTERNET, p.source.address))
  }

  lemma GroupAdmitsAppend(a: seq<GroupRule>, b: seq<GroupRule>, d: Direction, p: Packet)
    ensures GroupAdmits(a + b, d, p) <==> GroupAdmits(a, d, p) || GroupAdmits(b, d, p)
  {
    hide Admits;
  }

  predicate Lets(r: GroupRule, d: Direction, p: Packet) {
    r.dir == d && Admits(r.rule, d, p)
  }

  lemma FourAdmit(a: GroupRule, b: GroupRule, c: GroupRule, e: GroupRule, d: Direction, p: Packet)
    ensures GroupAdmits([a, b, c, e], d, p) <==> Lets(a, d, p) || Lets(b, d, p) || Lets(c, d, p) || Lets(e, d, p)
  {
    hide Admits;
    var rules := [a, b, c, e];
    assert rules[0] in rules && rules[1] in rules && rules[2] in rules && rules[3] in rules;
  }

  lemma {:induction false} KubectlGroupAdmits(kubectl: seq<Network>, d: Direction, p: Packet)
    ensures GroupAdmits(KubectlGroupRules(kubectl), d, p) <==>
            d == Ingress && TcpOn(p, 6443) && exists block :: block in kubectl && Contains(block, p.source.address)
  {
    hide Contains;
    var rules := KubectlGroupRules(kubectl);
    if r :| r in rules && r.dir == d && Admits(r.rule, d, p) {
      var i :| 0 <= i < |kubectl| && rules[i] == r;
      assert kubectl[i] in kubectl;
    }
    if block :| block in kubectl && Contains(block, p.source.address) && d == Ingress && TcpOn(p, 6443) {
      var i :| 0 <= i < |kubectl| && kubectl[i] == block;
      assert rules[i] in rules;
    }
  }

  lemma ThreeAdmit(a: GroupRule, b: GroupRule, c: GroupRule, d: Direction, p: Packet)
    ensures GroupAdmits([a, b, c], d, p) <==> Lets(a, d, p) || Lets(b, d, p) || Lets(c, d, p)
  {
    hide Admits;
    var rules := [a, b, c];
    assert rules[0] in rules && rules[1] in rules && rules[2] in rules;
  }

  predicate Sends(g: ClusterGroups, a: Part, b: Part, p: Packet) {
    PartId(g, b) in p.destination.groups && InCluster(a, b, p)
  }

  predicate Receives(g: ClusterGroups, a: Part, b: Part, p: Packet) {
    PartId(g, a) in p.source.groups && InCluster(a, b, p)
  }

  /** To a part whose NSG the destination carries, on that part's ports, or out of the cluster. */
  predicate PartLetsOut(g: ClusterGroups, a: Part, p: Packet) {
    LeavesCluster(a, p) || Sends(g, a, Api, p) || Sends(g, a, Lb, p) || Sends(g, a, Worker, p) || Sends(g, a, Pod, p)
  }

  predicate PartLetsIn(g: ClusterGroups, kubectl: seq<Network>, b: Part, p: Packet) {
    || EntersCluster(b, kubectl, p)
    || Receives(g, Api, b, p) || Receives(g, Lb, b, p) || Receives(g, Worker, b, p) || Receives(g, Pod, b, p)
  }

  lemma {:induction false} ApiExact(g: ClusterGroups, kubectl: seq<Network>, d: Direction, p: Packet)
    ensures GroupAdmits(ApiRules(g, kubectl), d, p)
            <==> if d == Egress then PartLetsOut(g, Api, p) else PartLetsIn(g, kubectl, Api, p)
  {
    hide Contains, GroupAdmits, KubectlGroupRules;
    var head := [From(Tcp(6443, Group(g.worker))), From(Tcp(12250, Group(g.worker))),
                 From(Tcp(6443, Group(g.pod))), From(Tcp(12250, Group(g.pod)))];
    var tail := [To(Everything(Services)), To(Tcp(10250, Group(g.worker))), To(Everything(Group(g.pod)))];
    GroupAdmitsAppend(head + KubectlGroupRules(kubectl), tail, d, p);
    GroupAdmitsAppend(head, KubectlGroupRules(kubectl), d, p);
    FourAdmit(head[0], head[1], head[2], head[3], d, p);
    ThreeAdmit(tail[0], tail[1], tail[2], d, p);
    KubectlGroupAdmits(kubectl, d, p);
  }

  lemma {:induction false} LbExact(g: ClusterGroups, d: Direction, p: Packet)
    ensures GroupAdmits(LbRules(g), d, p) <==> if d == Egress then PartLetsOut(g, Lb, p) else PartLetsIn(g, [], Lb, p)
  {
    hide Contains, GroupAdmits;
    var r := LbRules(g);
    FourAdmit(r[0], r[1], r[2], r[3], d, p);
  }

  lemma {:induction false} WorkerExact(g: ClusterGroups, d: Direction, p: Packet)
    ensures GroupAdmits(WorkerRules(g), d, p)
            <==> if d == Egress then PartLetsOut(g, Worker, p) else PartLetsIn(g, [], Worker, p)
  {
    hide Contains, GroupAdmits;
    var r := WorkerRules(g);
    var first, second, third := [r[0], r[1], r[2], r[3]], [r[4], r[5], r[6], r[7]], [r[8], r[9], r[10], r[11]];
    assert r == first + second + third;
    GroupAdmitsAppend(first + second, third, d, p);
    GroupAdmitsAppend(first, second, d, p);
    FourAdmit(r[0], r[1], r[2], r[3], d, p);
    FourAdmit(r[4], r[5], r[6], r[7], d, p);
    FourAdmit(r[8], r[9], r[10], r[11], d, p);
  }

  lemma {:induction false} PodExact(g: ClusterGroups, d: Direction, p: Packet)
    ensures GroupAdmits(PodRules(g), d, p)
            <==> if d == Egress then PartLetsOut(g, Pod, p) else PartLetsIn(g, [], Pod, p)
  {
    hide Contains, GroupAdmits;
    var r := PodRules(g);
    var first, second, third := [r[0], r[1], r[2]], [r[3], r[4], r[5]], [r[6], r[7], r[8], r[9]];
    assert r == first + second + third;
    GroupAdmitsAppend(first + second, third, d, p);
    GroupAdmitsAppend(first, second, d, p);
    ThreeAdmit(r[0], r[1], r[2], d, p);
    ThreeAdmit(r[3], r[4], r[5], d, p);
    FourAdmit(r[6], r[7], r[8], r[9], d, p);
  }

  /** What each of the four NSGs of a cluster admits, in both directions and for every peer; nothing else. */
  lemma {:induction false} PartExact(g: ClusterGroups, kubectl: seq<Network>, part: Part, p: Packet)
    ensures GroupAdmits(PartRules(g, kubectl, part), Egress, p) <==> PartLetsOut(g, part, p)
    ensures GroupAdmits(PartRules(g, kubectl, part), Ingress, p) <==> PartLetsIn(g, kubectl, part, p)
  {
    hide Contains, GroupAdmits, ApiRules, LbRules, WorkerRules, PodRules, Sends, Receives;
    match part
    case Api =>
      ApiExact(g, kubectl, Egress, p);
      ApiExact(g, kubectl, Ingress, p);
    case Lb =>
      LbExact(g, Egress, p);
      LbExact(g, Ingress, p);
    case Worker =>
      WorkerExact(g, Egress, p);
      WorkerExact(g, Ingress, p);
    case Pod =>
      PodExact(g, Egress, p);
      PodExact(g, Ingress, p);
  }

  /** Towards a destination without NSGs: services from all but the load balancers, the web from workers and pods. */
  lemma {:induction false} OutsideEgressExact(g: ClusterGroups, kubectl: seq<Network>, part: Part, p: Packet)
    requires p.destination.groups == {}
    ensures GroupAdmits(PartRules(g, kubectl, part), Egress, p) <==> LeavesCluster(part, p)
  {
    hide GroupAdmits, PartRules, LeavesCluster;
    PartExact(g, kubectl, part, p);
  }

  /** From a source without NSGs: kubectl's blocks to the API endpoint, the web to the load balancers. */
  lemma {:induction false} OutsideIngressExact(g: ClusterGroups, kubectl: seq<Network>, part: Part, p: Packet)
    requires p.source.groups == {}
    ensures GroupAdmits(PartRules(g, kubectl, part), Ingress, p) <==> EntersCluster(part, kubectl, p)
  {
    hide GroupAdmits, PartRules, EntersCluster;
    PartExact(g, kubectl, part, p);
  }

  /** What workers and pods may send to the web passes the private list. */
  lemma {:induction false} WebEgressListed(g: ClusterGroups, tiers: TierCidrs, kubectl: seq<Network>,
      lists: RuleLists, part: Part,
      p: Packet)
    requires Includes(lists, ClusterLists(tiers, kubectl))
    requires (part == Worker || part == Pod) && p.destination.groups == {} && !p.destination.service
    requires GroupAdmits(PartRules(g, kubectl, part), Egress, p)
    ensures ListAdmits(lists.At(Private, Egress), Egress, p)
  {
    hide GroupAdmits, PartRules, ClusterLists, Includes, ListAdmits;
    OutsideEgressExact(g, kubectl, part, p);
    WebListed(tiers, kubectl, lists, p);
  }

  /**
   The exception: API-endpoint egress to Oracle services is open in the NSG but TCP-only in the cluster's public list.
   */
  lemma ServiceEgressMismatch(g: ClusterGroups, tiers: TierCidrs, kubectl: seq<Network>, p: Packet)
    requires p.destination.service && !Contains(tiers.private, p.destination.address)
    ensures GroupAdmits(ApiRules(g, kubectl), Egress, p)
    ensures ListAdmits(ClusterLists(tiers, kubectl).At(Public, Egress), Egress, p) <==> p.protocol == TCP
  {
    assert To(Everything(Services)) == ApiRules(g, kubectl)[4 + |kubectl|];
    assert ClusterLists(tiers, kubectl).At(Public, Egress)[0] == TcpAny(Services);
    if p.protocol == TCP {
      assert Admits(TcpAny(Services), Egress, p);
    }
  }
}
