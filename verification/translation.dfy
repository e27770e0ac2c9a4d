/** From cloud-neutral security rules to OCI security-list rules: what survives the translation. */
module Translation {
  import opened Fingerprints
  import opened Networks
  import opened Rules
  import opened VcnBuilder
  import opened Wrappers

  /** A literal CIDR block or one of the two symbolic names. */
  datatype NeutralPeer = Internet | CloudServices | Block(net: Network)

  /** `IngressRule` and `EgressRule`, which differ only in which end `peer` names. */
  datatype NeutralRule = NeutralRule(protocol: string, peer: NeutralPeer, portMin: Option<int>, portMax: Option<int>,
      description: string)

  // ---- What a neutral rule means ---------------------------------------------------------------------

  /** Packets as they occur: a concrete protocol, and a port from 1 to 65535 when the protocol has ports. */
  predicate Wire(p: Packet) {
    p.protocol != ALL && (HasPorts(p) ==> 1 <= p.port <= 65535)
  }

  predicate HasPorts(p: Packet) {
    p.protocol == TCP || p.protocol == UDP
  }

  predicate SpeaksProtocol(name: string, p: Packet) {
    if name == "tcp" then p.protocol == TCP
    else if name == "udp" then p.protocol == UDP
    else if name == "icmp" then p.protocol == ICMP
    else name == "all" || name == p.protocol
  }

  predicate InBounds(r: NeutralRule, port: int) {
    (r.portMin.Some? ==> r.portMin.value <= port) && (r.portMax.Some? ==> port <= r.portMax.value)
  }

  predicate PeerIncludes(peer: NeutralPeer, e: Endpoint) {
    match peer
    case Internet => Contains(INTERNET, e.address)
    case CloudServices => e.service
    case Block(net) => Contains(net, e.address)
  }

  predicate NeutralAdmits(r: NeutralRule, d: Direction, p: Packet) {
    && SpeaksProtocol(r.protocol, p)
    && PeerIncludes(r.peer, if d == Ingress then p.source else p.destination)
    && (HasPorts(p) ==> InBounds(r, p.port))
  }

  // ---- The translation -------------------------------------------------------------------------------

  function ProtocolNumber(name: string): string {
    if name == "tcp" then "6" else if name == "udp" then "17" else if name == "icmp" then "1" else name
  }

  /** Only TCP rules keep their bounds, with the missing one filled in. */
  function Bounds(r: NeutralRule): Option<PortRange> {
    if r.protocol == "tcp" && (r.portMin.Some? || r.portMax.Some?) then
      Some(PortRange(if r.portMin.Some? then r.portMin.value else 1, if r.portMax.Some? then r.portMax.value
          else 65535))
    else None
  }

  /** On ingress the symbolic service name is passed on as if it were a CIDR block. */
  function TranslatePeer(peer: NeutralPeer, d: Direction): Peer {
    match peer
    case Internet => Cidr(INTERNET)
    case CloudServices => if d == Egress then Services else Unresolved
    case Block(net) => Cidr(net)
  }

  function Translate(r: NeutralRule, d: Direction): Rule {
    Rule(ProtocolNumber(r.protocol), TranslatePeer(r.peer, d), Bounds(r), None, Custom(r.description))
  }

  // ---- When it preserves meaning ---------------------------------------------------------------------

  /** Port bounds matter to TCP and UDP, under either name, and to the wildcard. */
  predicate CarriesPorts(name: string) {
    name == "tcp" || name == "udp" || name == TCP || name == UDP || name == "all"
  }

  /** No port from 1 to 65535 is excluded. */
  predicate Unbounded(r: NeutralRule) {
    (r.portMin.Some? ==> r.portMin.value <= 1) && (r.portMax.Some? ==> r.portMax.value >= 65535)
  }

  /** The rule admits nothing at all: a protocol with ports, and bounds that exclude every port. */
  predicate Void(r: NeutralRule) {
    && CarriesPorts(r.protocol) && r.protocol != "all"
    && ((r.portMin.Some? && r.portMin.value > 65535) || (r.portMax.Some? && r.portMax.value < 1)
        || (r.portMin.Some? && r.portMax.Some? && r.portMin.value > r.portMax.value))
  }

  predicate Faithful(r: NeutralRule, d: Direction) {
    if d == Ingress && r.peer == CloudServices then Void(r)
    else r.protocol == "tcp" || Unbounded(r) || !CarriesPorts(r.protocol)
  }

  predicate RealPeer(peer: NeutralPeer) {
    peer.Block? ==> peer.net.prefix <= peer.net.width
  }

  lemma ProtocolsAgree(name: string, p: Packet)
    requires p.protocol != ALL
    ensures SpeaksProtocol(name, p) <==> ProtocolNumber(name) == ALL || ProtocolNumber(name) == p.protocol
  {
  }

  lemma FaithfulAdmits(r: NeutralRule, d: Direction, p: Packet)
    requires Wire(p) && Faithful(r, d)
    ensures Admits(Translate(r, d), d, p) <==> NeutralAdmits(r, d, p)
  {
    hide SpeaksProtocol, ProtocolNumber, Contains;
    ProtocolsAgree(r.protocol, p);
    ProtocolPorts(r.protocol, p);
  }

  lemma ProtocolPorts(name: string, p: Packet)
    requires p.protocol != ALL
    ensures SpeaksProtocol(name, p) && HasPorts(p) ==> CarriesPorts(name)
    ensures SpeaksProtocol(name, p) && CarriesPorts(name) && name != "all" ==> HasPorts(p)
  {
  }

  /** A packet of the given protocol and port that both ends' addresses allow. */
  function Sample(r: NeutralRule, port: int): Packet {
    var number := ProtocolNumber(r.protocol);
    var e := Endpoint(if r.peer.Block? then r.peer.net.base else 0, r.peer == CloudServices, {});
    Packet(e, e, if number == ALL then UDP else number, port, 0, 0)
  }

  lemma SampleFits(r: NeutralRule, port: int)
    requires RealPeer(r.peer) && 1 <= port <= 65535
    ensures Wire(Sample(r, port)) && SpeaksProtocol(r.protocol, Sample(r, port))
    ensures PeerIncludes(r.peer, Sample(r, port).source) && PeerIncludes(r.peer, Sample(r, port).destination)
    ensures CarriesPorts(r.protocol) <==> HasPorts(Sample(r, port))
    ensures Sample(r, port).port == port
  {
    assert Contains(INTERNET, 0);
  }

  /** An unfaithful rule is told apart from its translation by some packet. */
  lemma UnfaithfulDiffers(r: NeutralRule, d: Direction) returns (p: Packet)
    requires RealPeer(r.peer) && !Faithful(r, d)
    ensures Wire(p) && (Admits(Translate(r, d), d, p) != NeutralAdmits(r, d, p))
  {
    if d == Ingress && r.peer == CloudServices {
      var port := if r.portMin.Some? && r.portMin.value > 1 then r.portMin.value else 1;
      if CarriesPorts(r.protocol) && r.protocol != "all" {
        p := Sample(r, port);
        SampleFits(r, port);
      } else {
        p := Sample(r, 1).(protocol := if r.protocol == "all" then ICMP else ProtocolNumber(r.protocol));
        SampleFits(r, 1);
      }
    } else {
      var port := if r.portMin.Some? && r.portMin.value > 1 then 1 else 65535;
      p := Sample(r, port);
      SampleFits(r, port);
      ProtocolsAgree(r.protocol, p);
      PeersAgree(r.peer, d, p);
    }
  }

  lemma PeersAgree(peer: NeutralPeer, d: Direction, p: Packet)
    requires !(d == Ingress && peer == CloudServices)
    ensures var e := if d == Ingress then p.source else p.destination;
            PeerMatches(TranslatePeer(peer, d), e) <==> PeerIncludes(peer, e)
  {
  }

  /**
   Exactly which rules keep their meaning: all but ingress from cloud services, and port bounds on anything but "tcp"
   that exclude some port of a protocol with ports.
   */
  lemma TranslationExact(r: NeutralRule, d: Direction)
    requires RealPeer(r.peer)
    ensures (forall p: Packet :: Wire(p) ==> (Admits(Translate(r, d), d, p) <==> NeutralAdmits(r, d, p))) <==>
        Faithful(r, d)
  {
    if Faithful(r, d) {
      forall p: Packet | Wire(p)
        ensures Admits(Translate(r, d), d, p) <==> NeutralAdmits(r, d, p)
      {
        FaithfulAdmits(r, d, p);
      }
    } else {
      var p := UnfaithfulDiffers(r, d);
    }
  }

  /**
   Dropped bounds only widen a rule: what the neutral rule admits is still admitted, unless it came from cloud
   services.
   */
  lemma TranslationNeverNarrows(r: NeutralRule, d: Direction, p: Packet)
    requires Wire(p) && !(d == Ingress && r.peer == CloudServices) && NeutralAdmits(r, d, p)
    ensures Admits(Translate(r, d), d, p)
  {
    hide SpeaksProtocol, ProtocolNumber, Contains;
    ProtocolsAgree(r.protocol, p);
    ProtocolPorts(r.protocol, p);
    PeersAgree(r.peer, d, p);
  }

  // ---- Whole rule sets -------------------------------------------------------------------------------

  datatype SecurityRules = SecurityRules(
    publicIngress: seq<NeutralRule>, publicEgress: seq<NeutralRule>,
    privateIngress: seq<NeutralRule>, privateEgress: seq<NeutralRule>,
    secureIngress: seq<NeutralRule>, secureEgress: seq<NeutralRule>,
    managementIngress: seq<NeutralRule>, managementEgress: seq<NeutralRule>)
  {
    function At(t: Tier, d: Direction): seq<NeutralRule> {
      match (t, d)
      case (Public, Ingress) => publicIngress
      case (Public, Egress) => publicEgress
      case (Private, Ingress) => privateIngress
      case (Private, Egress) => privateEgress
      case (Secure, Ingress) => secureIngress
      case (Secure, Egress) => secureEgress
      case (Management, Ingress) => managementIngress
      case (Management, Egress) => managementEgress
    }
  }

  function TranslateAll(rules: seq<NeutralRule>, d: Direction): seq<Rule> {
    seq(|rules|, i requires 0 <= i < |rules| => Translate(rules[i], d))
  }

  function TranslateRules(rules: SecurityRules): RuleLists {
    RuleLists(
      TranslateAll(rules.publicIngress, Ingress), TranslateAll(rules.publicEgress, Egress),
      TranslateAll(rules.privateIngress, Ingress), TranslateAll(rules.privateEgress, Egress),
      TranslateAll(rules.secureIngress, Ingress), TranslateAll(rules.secureEgress, Egress),
      TranslateAll(rules.managementIngress, Ingress), TranslateAll(rules.managementEgress, Egress))
  }

  predicate SomeAdmits(rules: seq<NeutralRule>, d: Direction, p: Packet) {
    exists r :: r in rules && NeutralAdmits(r, d, p)
  }

  /** Tier by tier, faithful rules admit after translation exactly what they admitted before. */
  lemma RulesKeepMeaning(rules: SecurityRules, t: Tier, d: Direction, p: Packet)
    requires Wire(p) && forall r :: r in rules.At(t, d) ==> Faithful(r, d)
    ensures ListAdmits(TranslateRules(rules).At(t, d), d, p) <==> SomeAdmits(rules.At(t, d), d, p)
  {
    hide Translate, Admits, NeutralAdmits, Faithful, Wire;
    var neutral := rules.At(t, d);
    var translated := TranslateAll(neutral, d);
    assert TranslateRules(rules).At(t, d) == translated;
    if ListAdmits(translated, d, p) {
      var q :| q in translated && Admits(q, d, p);
      var i :| 0 <= i < |translated| && translated[i] == q;
      FaithfulAdmits(neutral[i], d, p);
      assert neutral[i] in neutral;
    }
    if SomeAdmits(neutral, d, p) {
      var r :| r in neutral && NeutralAdmits(r, d, p);
      var i :| 0 <= i < |neutral| && neutral[i] == r;
      FaithfulAdmits(r, d, p);
      assert translated[i] in translated;
    }
  }

  /** `Vcn.add_security_rules`: translate list by list, then add. */
  method AddSecurityRules(vcn: Vcn, rules: SecurityRules) returns (raised: Option<Error>)
    modifies vcn
    ensures Outcome(vcn.State(), raised) == AddRules(old(vcn.State()), TranslateRules(rules))
  {
    raised := vcn.AddSecurityListRules(RuleLists(
      TranslateAll(rules.publicIngress, Ingress), TranslateAll(rules.publicEgress, Egress),
      TranslateAll(rules.privateIngress, Ingress), TranslateAll(rules.privateEgress, Egress),
      TranslateAll(rules.secureIngress, Ingress), TranslateAll(rules.secureEgress, Egress),
      TranslateAll(rules.managementIngress, Ingress), TranslateAll(rules.managementEgress, Egress)));
  }
}
