/** Network security groups: ambient rules from a role, and `serves` as a compiler to two firewall layers. */
module Nsgs {
  import opened Fingerprints
  import opened Networks
  import opened Rules
  import opened Text
  import opened VcnBuilder
  import opened Wrappers

  datatype Role = Role(name: string, tier: Tier, egressInternet: bool, egressServices: bool, acceptSsh: bool)

  const INTERNET_EDGE := Role("INTERNET_EDGE", Public, false, false, false)
  const APP_SERVER := Role("APP_SERVER", Private, true, true, true)
  const DATABASE := Role("DATABASE", Secure, false, true, true)
  const CACHE := Role("CACHE", Private, true, true, true)
  const MANAGEMENT := Role("MANAGEMENT", Management, false, true, true)

  predicate Predefined(r: Role) {
    r == INTERNET_EDGE || r == APP_SERVER || r == DATABASE || r == CACHE || r == MANAGEMENT
  }

  /**
   What the five roles have in common: one tier faces the internet, one may reach it, and only the edge takes no SSH.
   */
  lemma PredefinedRolesAre(r: Role)
    requires Predefined(r)
    ensures r.egressInternet <==> r.tier == Private
    ensures r.egressServices <==> r.tier != Public
    ensures r.acceptSsh <==> r.tier != Public
    ensures r.tier == match r.name
                      case "INTERNET_EDGE" => Public
                      case "DATABASE" => Secure
                      case "MANAGEMENT" => Management
                      case _ => Private
  {
    assert r.name[0] == match r.tier
                        case Public => 'I'
                        case Secure => 'D'
                        case Management => 'M'
                        case Private => r.name[0];
  }

  /** A rule with its label and the ordinal suffix of its resource name. */
  datatype NsgRule = NsgRule(tag: string, slot: string, dir: Direction, rule: Rule)

  datatype NsgState = NsgState(name: string, role: Option<Role>, labels: set<string>, nextIndex: nat,
      rules: seq<NsgRule>)

  function Empty(name: string, role: Option<Role>): NsgState {
    NsgState(name, role, {}, 0, [])
  }

  // ---- Adding rules ----------------------------------------------------------------------------------

  /** One `add_rule` call on the NSG with handle `owner`. */
  datatype Grant = Grant(owner: nat, tag: string, dir: Direction, rule: Rule)

  function WithRule(n: NsgState, tag: string, dir: Direction, rule: Rule): Outcome<NsgState, Error> {
    if tag in n.labels then Outcome(n, Some(DuplicateLabel))
    else Outcome(
      n.(labels := n.labels + {tag}, nextIndex := n.nextIndex + 1,
         rules := n.rules + [NsgRule(tag, OrdinalSuffix("nsg-rule", n.nextIndex), dir, rule)]),
      None)
  }

  type Groups = map<nat, NsgState>

  function RunGrant(m: Groups, g: Grant): Outcome<Groups, Error>
    requires g.owner in m
  {
    var o := WithRule(m[g.owner], g.tag, g.dir, g.rule);
    Outcome(m[g.owner := o.state], o.raised)
  }

  function RunGrants(m: Groups, grants: seq<Grant>): (o: Outcome<Groups, Error>)
    requires forall g :: g in grants ==> g.owner in m
    ensures o.state.Keys == m.Keys
    decreases |grants|
  {
    if grants == [] then Outcome(m, None)
    else
      var o := RunGrant(m, grants[0]);
      if !o.Ok() then o else RunGrants(o.state, grants[1..])
  }

  lemma RunGrantsStep(m: Groups, first: Grant, rest: seq<Grant>)
    requires first.owner in m && forall g :: g in rest ==> g.owner in m
    ensures RunGrants(m, [first] + rest) ==
            var o := RunGrant(m, first);
            if !o.Ok() then o else RunGrants(o.state, rest)
  {
    assert ([first] + rest)[1..] == rest;
  }

  lemma RunNoGrants(m: Groups)
    ensures RunGrants(m, []) == Outcome(m, None)
  {
  }

  lemma RunOneGrant(m: Groups, g: Grant)
    requires g.owner in m
    ensures RunGrants(m, [g]) == RunGrant(m, g)
  {
    RunGrantsStep(m, g, []);
    assert [g] + [] == [g];
  }

  lemma {:induction false} RunGrantsAppend(m: Groups, a: seq<Grant>, b: seq<Grant>)
    requires forall g :: g in a + b ==> g.owner in m
    ensures forall g :: g in a || g in b ==> g.owner in m
    ensures RunGrants(m, a + b) ==
            var o := RunGrants(m, a);
            if !o.Ok() then o else RunGrants(o.state, b)
    decreases |a|
  {
    assert forall g :: g in a || g in b ==> g in a + b;
    if a == [] {
      assert a + b == b;
    } else {
      assert a == [a[0]] + a[1..] && a + b == [a[0]] + (a[1..] + b);
      RunGrantsStep(m, a[0], a[1..]);
      RunGrantsStep(m, a[0], a[1..] + b);
      var o := RunGrant(m, a[0]);
      if o.Ok() {
        RunGrantsAppend(o.state, a[1..], b);
      }
    }
  }

  // ---- What a role and a relationship ask for --------------------------------------------------------

  function PortGrants(id: nat, ports: seq<nat>): (gs: seq<Grant>)
    ensures |gs| == |ports|
  {
    seq(|ports|, i requires 0 <= i < |ports| =>
      Grant(id, RenderLabel(InternetIn(ports[i])), Ingress, TcpRule(ports[i], Cidr(INTERNET), AmbientRule)))
  }

  function EgressGrants(id: nat, role: Role): seq<Grant> {
    (if role.egressServices then [Grant(id, RenderLabel(ServicesOut), Egress, AllRule(Services, AmbientRule))] else [])
    + (if role.egressInternet then [Grant(id, RenderLabel(InternetOut), Egress, AllRule(Cidr(INTERNET), AmbientRule))]
        else [])
  }

  function AmbientGrants(id: nat, role: Role, ports: seq<nat>): seq<Grant> {
    (if role.tier == Public then PortGrants(id, ports) else []) + EgressGrants(id, role)
  }

  function PortCalls(ports: seq<nat>): (cs: seq<Call>)
    ensures |cs| == |ports|
  {
    seq(|ports|, i requires 0 <= i < |ports| =>
      Unique(PublicIngress(ports[i]), Public, Ingress, TcpRule(ports[i], Cidr(INTERNET), AmbientRule)))
  }

  function EgressCalls(role: Role): seq<Call> {
    (if role.egressServices
        then [Unique(EgressServices(role.tier), role.tier, Egress, AllRule(Services, AmbientRule))] else [])
    + (if role.egressInternet
        then [Unique(EgressInternet(role.tier), role.tier, Egress, AllRule(Cidr(INTERNET), AmbientRule))] else [])
  }

  function AmbientCalls(role: Role, ports: seq<nat>): seq<Call> {
    (if role.tier == Public then PortCalls(ports) else []) + EgressCalls(role)
  }

  /** The SSH channel accompanies the application port unless switched off by the caller or the target's role. */
  predicate NeedsSsh(withSsh: bool, target: Option<Role>) {
    withSsh && (target.None? || target.value.acceptSsh)
  }

  /** One end of a relationship: its handle, its name and its role. */
  datatype Member = Member(id: nat, name: string, role: Option<Role>)

  function PortPair(src: Member, tgt: Member, port: nat): seq<Grant> {
    [Grant(src.id, RenderLabel(Out(tgt.name, port)), Egress, TcpRule(port, Group(tgt.id), Blank)),
     Grant(tgt.id, RenderLabel(In(src.name, port)), Ingress, TcpRule(port, Group(src.id), Blank))]
  }

  function SshPair(src: Member, tgt: Member): seq<Grant> {
    [Grant(src.id, RenderLabel(OutSsh(tgt.name)), Egress, TcpRule(SSH, Group(tgt.id), Blank)),
     Grant(tgt.id, RenderLabel(InSsh(src.name)), Ingress, TcpRule(SSH, Group(src.id), Blank))]
  }

  function ServesGrants(src: Member, tgt: Member, port: nat, withSsh: bool): seq<Grant> {
    PortPair(src, tgt, port) + (if NeedsSsh(withSsh, tgt.role) then SshPair(src, tgt) else [])
  }

  /** Security-list rules are emitted only when both roles are known and their tiers differ. */
  predicate CrossTier(src: Option<Role>, tgt: Option<Role>) {
    src.Some? && tgt.Some? && src.value.tier != tgt.value.tier
  }

  function CrossCalls(tiers: TierCidrs, src: Tier, tgt: Tier, port: nat, outNote: Note, inNote: Note): seq<Call> {
    [Unique(CrossEgress(src, port, tgt), src, Egress, TcpRule(port, Cidr(TierCidr(tiers, tgt)), outNote)),
     Unique(CrossIngress(tgt, port, src), tgt, Ingress, TcpRule(port, Cidr(TierCidr(tiers, src)), inNote))]
  }

  /** The list calls of a relationship between two tiers. */
  function LinkCalls(tiers: TierCidrs, src: Tier, tgt: Tier, port: nat, ssh: bool): seq<Call> {
    CrossCalls(tiers, src, tgt, port, ToTier(port, tgt), FromTier(port, src))
    + (if ssh then CrossCalls(tiers, src, tgt, SSH, SshToTier(tgt), SshFromTier(src)) else [])
  }

  function ServesCalls(tiers: TierCidrs, src: Option<Role>, tgt: Option<Role>, port: nat, withSsh: bool): seq<Call> {
    if CrossTier(src, tgt) then LinkCalls(tiers, src.value.tier, tgt.value.tier, port, NeedsSsh(withSsh, tgt)) else []
  }

  // ---- The object ------------------------------------------------------------------------------------

  class Nsg {
    const id: nat
    const vcn: Vcn
    const name: string
    const role: Option<Role>
    var labels: set<string>
    var nextIndex: nat
    var rules: seq<NsgRule>

    function State(): NsgState
      reads this
    {
      NsgState(name, role, labels, nextIndex, rules)
    }

    function AsMember(): Member {
      Member(id, name, role)
    }

    constructor (id: nat, vcn: Vcn, name: string, role: Option<Role>)
      ensures State() == Empty(name, role)
      ensures this.id == id && this.vcn == vcn
    {
      this.id, this.vcn, this.name, this.role := id, vcn, name, role;
      labels, nextIndex, rules := {}, 0, [];
    }

    method AddRule(tag: string, dir: Direction, rule: Rule) returns (raised: Option<Error>)
      modifies this
      ensures Outcome(State(), raised) == WithRule(old(State()), tag, dir, rule)
    {
      if tag in labels {
        return Some(DuplicateLabel);
      }
      labels := labels + {tag};
      var index := nextIndex;
      nextIndex := nextIndex + 1;
      rules := rules + [NsgRule(tag, OrdinalSuffix("nsg-rule", index), dir, rule)];
      return None;
    }

    method AllowFromCidr(tag: string, port: nat, cidr: Network, note: Note) returns (raised: Option<Error>)
      modifies this
      ensures Outcome(State(), raised) == WithRule(old(State()), tag, Ingress, TcpRule(port, Cidr(cidr), note))
    {
      raised := AddRule(tag, Ingress, TcpRule(port, Cidr(cidr), note));
    }

    method AllowFromNsg(tag: string, source: Nsg, port: nat) returns (raised: Option<Error>)
      modifies this
      ensures Outcome(State(), raised) == WithRule(old(State()), tag, Ingress, TcpRule(port, Group(source.id), Blank))
    {
      raised := AddRule(tag, Ingress, TcpRule(port, Group(source.id), Blank));
    }

    method AllowToNsg(tag: string, destination: Nsg, port: nat) returns (raised: Option<Error>)
      modifies this
      ensures Outcome(State(), raised)
          == WithRule(old(State()), tag, Egress, TcpRule(port, Group(destination.id), Blank))
    {
      raised := AddRule(tag, Egress, TcpRule(port, Group(destination.id), Blank));
    }

    method AllowToServices(tag: string, note: Note) returns (raised: Option<Error>)
      modifies this
      ensures Outcome(State(), raised) == WithRule(old(State()), tag, Egress, AllRule(Services, note))
    {
      raised := AddRule(tag, Egress, AllRule(Services, note));
    }

    method AllowToCidr(tag: string, cidr: Network, note: Note) returns (raised: Option<Error>)
      modifies this
      ensures Outcome(State(), raised) == WithRule(old(State()), tag, Egress, AllRule(Cidr(cidr), note))
    {
      raised := AddRule(tag, Egress, AllRule(Cidr(cidr), note));
    }

    /** Dispatch one fingerprinted contribution to the list of a tier. */
    method SlForTier(fingerprint: string, tier: Tier, dir: Direction, rules: seq<Rule>) returns (raised: Option<Error>)
      modifies vcn
      ensures Outcome(vcn.State(), raised) == AddUnique(old(vcn.State()), fingerprint, Only(tier, dir, rules))
    {
      var ingress := if dir == Ingress then rules else [];
      var egress := if dir == Egress then rules else [];
      match tier {
        case Public =>
          raised := vcn.AddUniqueSecurityListRules(fingerprint,
              NOTHING.(publicIngress := ingress, publicEgress := egress));
        case Private =>
          raised := vcn.AddUniqueSecurityListRules(fingerprint,
              NOTHING.(privateIngress := ingress, privateEgress := egress));
        case Secure =>
          raised := vcn.AddUniqueSecurityListRules(fingerprint,
              NOTHING.(secureIngress := ingress, secureEgress := egress));
        case Management =>
          raised := vcn.AddUniqueSecurityListRules(
            fingerprint, NOTHING.(managementIngress := ingress, managementEgress := egress));
      }
    }

    ghost function Alone(): Groups
      reads this
    {
      map[id := State()]
    }

    /** TCP ingress from the internet on each declared port. */
    method OpenPorts(ports: seq<nat>) returns (raised: Option<Error>)
      modifies this
      ensures Outcome(Alone(), raised) == RunGrants(old(Alone()), PortGrants(id, ports))
    {
      hide RunGrants, RenderLabel;
      ghost var before := Alone();
      ghost var grants := PortGrants(id, ports);
      for i := 0 to |ports|
        invariant forall g :: g in grants[i..] ==> g.owner == id
        invariant RunGrants(before, grants) == RunGrants(Alone(), grants[i..])
      {
        assert grants[i..] == [grants[i]] + grants[i + 1..];
        ghost var was := Alone();
        RunGrantsStep(was, grants[i], grants[i + 1..]);
        raised := AllowFromCidr(RenderLabel(InternetIn(ports[i])), ports[i], INTERNET, AmbientRule);
        assert was[id := State()] == Alone();
        if raised.Some? {
          return;
        }
      }
      RunNoGrants(Alone());
      return None;
    }

    method AllowAmbientEgress() returns (raised: Option<Error>)
      requires role.Some?
      modifies this
      ensures Outcome(Alone(), raised) == RunGrants(old(Alone()), EgressGrants(id, role.value))
    {
      ghost var before := Alone();
      ghost var svc := if role.value.egressServices
          then [Grant(id, RenderLabel(ServicesOut), Egress, AllRule(Services, AmbientRule))] else [];
      ghost var net := if role.value.egressInternet
          then [Grant(id, RenderLabel(InternetOut), Egress, AllRule(Cidr(INTERNET), AmbientRule))] else [];
      assert EgressGrants(id, role.value) == svc + net;
      RunGrantsAppend(before, svc, net);
      raised := None;
      if role.value.egressServices {
        RunOneGrant(before, svc[0]);
        raised := AllowToServices(RenderLabel(ServicesOut), AmbientRule);
        assert before[id := State()] == Alone();
        if raised.Some? {
          return;
        }
      }
      ghost var middle := Alone();
      if role.value.egressInternet {
        RunOneGrant(middle, net[0]);
        raised := AllowToCidr(RenderLabel(InternetOut), INTERNET, AmbientRule);
        assert middle[id := State()] == Alone();
      }
    }

    /** Register the internet ports on the public security list. */
    method RegisterPorts(ports: seq<nat>) returns (raised: Option<Error>)
      modifies vcn
      ensures Outcome(vcn.State(), raised) == RunCalls(old(vcn.State()), PortCalls(ports))
    {
      ghost var before := vcn.State();
      ghost var calls := PortCalls(ports);
      assert calls[0..] == calls;
      for i := 0 to |ports|
        invariant RunCalls(before, calls) == RunCalls(vcn.State(), calls[i..])
      {
        assert calls[i..] == [calls[i]] + calls[i + 1..];
        RunCallsStep(vcn.State(), calls[i], calls[i + 1..]);
        raised := vcn.AddUniqueSecurityListRules(
          Render(PublicIngress(ports[i])),
          NOTHING.(publicIngress := [TcpRule(ports[i], Cidr(INTERNET), AmbientRule)]));
        if raised.Some? {
          return;
        }
      }
      return None;
    }

    method RegisterAmbientEgress() returns (raised: Option<Error>)
      requires role.Some?
      modifies vcn
      ensures Outcome(vcn.State(), raised) == RunCalls(old(vcn.State()), EgressCalls(role.value))
    {
      var tier := role.value.tier;
      ghost var svc := if role.value.egressServices
          then [Unique(EgressServices(tier), tier, Egress, AllRule(Services, AmbientRule))] else [];
      ghost var net := if role.value.egressInternet
          then [Unique(EgressInternet(tier), tier, Egress, AllRule(Cidr(INTERNET), AmbientRule))] else [];
      assert EgressCalls(role.value) == svc + net;
      RunCallsAppend(vcn.State(), svc, net);
      raised := None;
      if role.value.egressServices {
        RunOneCall(vcn.State(), svc[0]);
        raised := SlForTier(Render(EgressServices(tier)), tier, Egress, [AllRule(Services, AmbientRule)]);
        if raised.Some? {
          return;
        }
      }
      if role.value.egressInternet {
        RunOneCall(vcn.State(), net[0]);
        raised := SlForTier(Render(EgressInternet(tier)), tier, Egress, [AllRule(Cidr(INTERNET), AmbientRule)]);
      }
    }

    /** The NSG rules of a role, then the matching security-list rules. */
    method ApplyRoleAmbientRules(ports: seq<nat>) returns (raised: Option<Error>)
      requires role.Some?
      modifies this, vcn
      ensures var grants := RunGrants(old(Alone()), AmbientGrants(id, role.value, ports));
              && Alone() == grants.state
              && (!grants.Ok() ==> raised == grants.raised && vcn.State() == old(vcn.State()))
              && (grants.Ok() ==>
                    Outcome(vcn.State(), raised) == RunCalls(old(vcn.State()), AmbientCalls(role.value, ports)))
    {
      var edge := role.value.tier == Public;
      ghost var open := if edge then PortGrants(id, ports) else [];
      ghost var listed := if edge then PortCalls(ports) else [];
      RunGrantsAppend(Alone(), open, EgressGrants(id, role.value));
      RunCallsAppend(vcn.State(), listed, EgressCalls(role.value));
      if edge {
        raised := OpenPorts(ports);
        if raised.Some? {
          return;
        }
      }
      raised := AllowAmbientEgress();
      if raised.Some? {
        return;
      }
      if edge {
        raised := RegisterPorts(ports);
        if raised.Some? {
          return;
        }
      }
      raised := RegisterAmbientEgress();
    }

    /** The public constructor: no object results when it raises, but the VCN keeps what was registered before. */
    static method Create(id: nat, vcn: Vcn, name: string, role: Option<Role>, ports: seq<nat>)
      returns (nsg: Nsg, raised: Option<Error>)
      modifies vcn
      ensures fresh(nsg) && nsg.id == id && nsg.vcn == vcn
      ensures var o := BuildGroup(old(vcn.State()), id, name, role, ports);
              && raised == o.raised && vcn.State() == o.state.0 && (o.Ok() ==> nsg.State() == o.state.1)
    {
      nsg := new Nsg(id, vcn, name, role);
      if role == Some(INTERNET_EDGE) && ports == [] {
        return nsg, Some(NoPorts);
      }
      raised := None;
      if role.Some? {
        ghost var alone := nsg.Alone();
        assert alone == map[id := Empty(name, role)];
        raised := nsg.ApplyRoleAmbientRules(ports);
        assert nsg.Alone()[id] == nsg.State();
      }
    }

    ghost function With(target: Nsg): Groups
      reads this, target
    {
      map[id := State(), target.id := target.State()]
    }

    /** The four NSG rules of a relationship; the source and the target may be the same object. */
    method LinkGroups(target: Nsg, port: nat, withSsh: bool) returns (raised: Option<Error>)
      requires id == target.id ==> this == target
      modifies this, target
      ensures Outcome(With(target), raised)
              == RunGrants(old(With(target)), ServesGrants(AsMember(), target.AsMember(), port, withSsh))
    {
      ghost var app, ssh := PortPair(AsMember(), target.AsMember(), port), SshPair(AsMember(), target.AsMember());
      RunGrantsAppend(With(target), app, if NeedsSsh(withSsh, target.role) then ssh else []);
      raised := LinkPort(target, RenderLabel(Out(target.name, port)), RenderLabel(In(name, port)), port);
      if raised.None? && NeedsSsh(withSsh, target.role) {
        raised := LinkPort(target, RenderLabel(OutSsh(target.name)), RenderLabel(InSsh(name)), SSH);
      }
    }

    /** One egress rule here and one ingress rule on the target. */
    method LinkPort(target: Nsg, outTag: string, inTag: string, port: nat) returns (raised: Option<Error>)
      requires id == target.id ==> this == target
      modifies this, target
      ensures Outcome(With(target), raised) == RunGrants(old(With(target)), [
                Grant(id, outTag, Egress, TcpRule(port, Group(target.id), Blank)),
                Grant(target.id, inTag, Ingress, TcpRule(port, Group(id), Blank))])
    {
      ghost var first := Grant(id, outTag, Egress, TcpRule(port, Group(target.id), Blank));
      ghost var second := Grant(target.id, inTag, Ingress, TcpRule(port, Group(id), Blank));
      ghost var before := With(target);
      assert [first, second] == [first] + [second];
      RunGrantsStep(before, first, [second]);
      raised := AllowToNsg(outTag, target, port);
      ghost var middle := With(target);
      assert middle == RunGrant(before, first).state;
      if raised.None? {
        RunOneGrant(middle, second);
        raised := target.AllowFromNsg(inTag, this, port);
        assert With(target) == RunGrant(middle, second).state;
      }
    }

    /** The security-list rules of one port of a relationship. */
    method LinkTiers(src: Tier, tgt: Tier, port: nat, outNote: Note, inNote: Note) returns (raised: Option<Error>)
      modifies vcn
      ensures Outcome(vcn.State(), raised)
              == RunCalls(old(vcn.State()), CrossCalls(vcn.tiers, src, tgt, port, outNote, inNote))
    {
      ghost var calls := CrossCalls(vcn.tiers, src, tgt, port, outNote, inNote);
      assert calls == [calls[0]] + [calls[1]];
      RunCallsStep(vcn.State(), calls[0], [calls[1]]);
      raised := SlForTier(Render(CrossEgress(src, port, tgt)), src, Egress,
                          [TcpRule(port, Cidr(TierCidr(vcn.tiers, tgt)), outNote)]);
      if raised.None? {
        RunOneCall(vcn.State(), calls[1]);
        raised := SlForTier(Render(CrossIngress(tgt, port, src)), tgt, Ingress,
                            [TcpRule(port, Cidr(TierCidr(vcn.tiers, src)), inNote)]);
      }
    }

    method Serves(target: Nsg, port: nat, withSsh: bool) returns (raised: Option<Error>)
      requires id == target.id ==> this == target
      modifies this, target, vcn
      ensures var grants := RunGrants(old(With(target)), ServesGrants(AsMember(), target.AsMember(), port, withSsh));
              && With(target) == grants.state
              && (!grants.Ok() ==> raised == grants.raised && vcn.State() == old(vcn.State()))
              && (grants.Ok() ==>
                    Outcome(vcn.State(), raised)
                    == RunCalls(old(vcn.State()), ServesCalls(vcn.tiers, role, target.role, port, withSsh)))
    {
      raised := LinkGroups(target, port, withSsh);
      if raised.Some? {
        return;
      }
      if role.None? || target.role.None? {
        return;
      }
      var src, tgt := role.value.tier, target.role.value.tier;
      if src == tgt {
        return;
      }
      var needsSsh := NeedsSsh(withSsh, target.role);
      RunCallsAppend(vcn.State(), CrossCalls(vcn.tiers, src, tgt, port, ToTier(port, tgt), FromTier(port, src)),
                     if needsSsh then CrossCalls(vcn.tiers, src, tgt, SSH, SshToTier(tgt), SshFromTier(src)) else []);
      raised := LinkTiers(src, tgt, port, ToTier(port, tgt), FromTier(port, src));
      if raised.None? && needsSsh {
        raised := LinkTiers(src, tgt, SSH, SshToTier(tgt), SshFromTier(src));
      }
    }
  }

  /** Building an NSG: what becomes of the VCN, and the NSG when nothing raised. */
  function BuildGroup(v: VcnState, id: nat, name: string, role: Option<Role>, ports: seq<nat>)
    : Outcome<(VcnState, NsgState), Error>
  {
    var empty := Empty(name, role);
    if role == Some(INTERNET_EDGE) && ports == [] then Outcome((v, empty), Some(NoPorts))
    else if role.None? then Outcome((v, empty), None)
    else
      var grants := RunGrants(map[id := empty], AmbientGrants(id, role.value, ports));
      if !grants.Ok() then Outcome((v, grants.state[id]), grants.raised)
      else
        var calls := RunCalls(v, AmbientCalls(role.value, ports));
        Outcome((calls.state, grants.state[id]), calls.raised)
  }
}
