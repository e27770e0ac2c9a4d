/** Firewall rules and what they admit. */
module Rules {
  import opened Fingerprints
  import opened Networks
  import opened Wrappers

  datatype Direction = Ingress | Egress

  /**
   The other end of a rule: a CIDR block, the Oracle services, the members of an NSG, or text that names no network.
   */
  datatype Peer = Cidr(net: Network) | Services | Group(id: nat) | Unresolved

  datatype PortRange = PortRange(min: int, max: int)

  /** ICMP type, with every code when none is given. */
  datatype IcmpOptions = IcmpOptions(kind: int, code: Option<int>)

  /** Which of the source's descriptions a rule carries: no effect on traffic, only on what two rules look like. */
  datatype Note =
    | Blank
    | Baseline
    | AmbientRule
    | ToTier(port: int, tier: Tier) | FromTier(port: int, tier: Tier)
    | SshToTier(tier: Tier) | SshFromTier(tier: Tier)
    | Spell(name: string)
    | Custom(text: string)

  // OCI protocol identifiers.
  const TCP := "6"
  const UDP := "17"
  const ICMP := "1"
  const ALL := "all"
  const SSH: nat := 22

  datatype Rule = Rule(protocol: string, peer: Peer, tcp: Option<PortRange>, icmp: Option<IcmpOptions>, note: Note)

  function TcpRule(port: int, peer: Peer, note: Note): Rule {
    Rule(TCP, peer, Some(PortRange(port, port)), None, note)
  }

  function AllRule(peer: Peer, note: Note): Rule {
    Rule(ALL, peer, None, None, note)
  }

  /** The rule up to its description. */
  function Bare(r: Rule): Rule {
    r.(note := Blank)
  }

  // ---- Packets ---------------------------------------------------------------------------------------

  /** One end of a packet: its address, whether Oracle services own it, and the NSGs attached to it. */
  datatype Endpoint = Endpoint(address: nat, service: bool, groups: set<nat>)

  datatype Packet = Packet(source: Endpoint, destination: Endpoint, protocol: string, port: int, icmpType: int,
      icmpCode: int)

  predicate PeerMatches(peer: Peer, e: Endpoint) {
    match peer
    case Cidr(net) => Contains(net, e.address)
    case Services => e.service
    case Group(id) => id in e.groups
    case Unresolved => false
  }

  predicate Admits(r: Rule, dir: Direction, p: Packet) {
    && (r.protocol == ALL || r.protocol == p.protocol)
    && PeerMatches(r.peer, if dir == Ingress then p.source else p.destination)
    && (r.tcp.Some? ==> r.tcp.value.min <= p.port <= r.tcp.value.max)
    && (r.icmp.Some? ==>
        r.icmp.value.kind == p.icmpType && (r.icmp.value.code.Some? ==> r.icmp.value.code.value == p.icmpCode))
  }

  /** A list with no matching rule drops the packet. */
  predicate ListAdmits(rules: seq<Rule>, dir: Direction, p: Packet) {
    exists r :: r in rules && Admits(r, dir, p)
  }

  function BareAll(rules: seq<Rule>): seq<Rule> {
    seq(|rules|, i requires 0 <= i < |rules| => Bare(rules[i]))
  }

  // ---- The eight rule lists --------------------------------------------------------------------------

  datatype RuleLists = RuleLists(
    publicIngress: seq<Rule>, publicEgress: seq<Rule>,
    privateIngress: seq<Rule>, privateEgress: seq<Rule>,
    secureIngress: seq<Rule>, secureEgress: seq<Rule>,
    managementIngress: seq<Rule>, managementEgress: seq<Rule>)
  {
    function At(t: Tier, d: Direction): seq<Rule> {
      match (t, d)
      case (Public, Ingress) => publicIngress
      case (Public, Egress) => publicEgress
      case (Private, Ingress) => privateIngress
      case (Private, Egress) => privateEgress
      case (Secure, Ingress) => secureIngress
      case (Secure, Egress) => secureEgress
      case (Management, Ingress) => managementIngress
      case (Management, Egress) => managementEgress
    }
  }

  const NOTHING := RuleLists([], [], [], [], [], [], [], [])

  /** Lists that are empty except one. */
  function Only(t: Tier, d: Direction, rules: seq<Rule>): RuleLists {
    match (t, d)
    case (Public, Ingress) => NOTHING.(publicIngress := rules)
    case (Public, Egress) => NOTHING.(publicEgress := rules)
    case (Private, Ingress) => NOTHING.(privateIngress := rules)
    case (Private, Egress) => NOTHING.(privateEgress := rules)
    case (Secure, Ingress) => NOTHING.(secureIngress := rules)
    case (Secure, Egress) => NOTHING.(secureEgress := rules)
    case (Management, Ingress) => NOTHING.(managementIngress := rules)
    case (Management, Egress) => NOTHING.(managementEgress := rules)
  }

  function Join(a: RuleLists, b: RuleLists): RuleLists {
    RuleLists(
      a.publicIngress + b.publicIngress, a.publicEgress + b.publicEgress,
      a.privateIngress + b.privateIngress, a.privateEgress + b.privateEgress,
      a.secureIngress + b.secureIngress, a.secureEgress + b.secureEgress,
      a.managementIngress + b.managementIngress, a.managementEgress + b.managementEgress)
  }

  lemma JoinAt(a: RuleLists, b: RuleLists, t: Tier, d: Direction)
    ensures Join(a, b).At(t, d) == a.At(t, d) + b.At(t, d)
  {
  }

  lemma OnlyAt(t: Tier, d: Direction, rules: seq<Rule>, u: Tier, e: Direction)
    ensures Only(t, d, rules).At(u, e) == if t == u && d == e then rules else []
  {
  }

  function TierCidr(tiers: TierCidrs, t: Tier): Network {
    match t
    case Public => tiers.public
    case Private => tiers.private
    case Secure => tiers.secure
    case Management => tiers.management
  }
}
