/** The NSG layer after a program that raised nothing: exactly what was declared, mirrored at both ends. */
module NsgLayer {
  import opened Agreement
  import opened Fingerprints
  import opened History
  import opened Networks
  import opened Nsgs
  import opened Programs
  import opened Rules
  import opened Traffic
  import opened Wrappers

  predicate NoManualRules(h: seq<Step>) {
    forall j :: 0 <= j < |h| ==> !h[j].ManualRule?
  }

  // ---- Exactness -------------------------------------------------------------------------------------

  /** A relationship into the NSG was declared from an NSG the packet's sender carries. */
  predicate RelatedInto(h: seq<Step>, id: nat, p: Packet)
    requires id in Roster(h)
  {
    exists j :: 0 <= j < |h| && h[j].Relate? && h[j].tgt == id && h[j].src in p.source.groups
      && OpensPort(h[j], Roster(h)[id].role, p.port)
  }

  predicate RelatedFrom(h: seq<Step>, id: nat, p: Packet) {
    exists j :: 0 <= j < |h| && h[j].Relate? && h[j].src == id && h[j].tgt in p.destination.groups
      && h[j].tgt in Roster(h) && OpensPort(h[j], Roster(h)[h[j].tgt].role, p.port)
  }

  /** The NSG was built with a public role that opens the port to the internet. */
  predicate PortOpened(h: seq<Step>, id: nat, port: int) {
    exists j :: 0 <= j < |h| && h[j].BuildNsg? && h[j].id == id
      && h[j].role.Some? && h[j].role.value.tier == Public && port in h[j].ports
  }

  /** The user added a rule to the NSG by hand that admits the packet. */
  predicate ManuallyAdmitted(h: seq<Step>, id: nat, d: Direction, p: Packet) {
    exists j :: 0 <= j < |h| && h[j].ManualRule? && h[j].id == id && h[j].dir == d && Admits(h[j].rule, d, p)
  }

  lemma {:induction false} ManualGrant(h: seq<Step>, id: nat, d: Direction, p: Packet) returns (g: Grant)
    requires ManuallyAdmitted(h, id, d, p)
    ensures g in GrantsOf(h) && g.owner == id && g.dir == d && Admits(g.rule, d, p)
  {
    hide Admits, GrantsOf, Roster;
    var j :| 0 <= j < |h| && h[j].ManualRule? && h[j].id == id && h[j].dir == d && Admits(h[j].rule, d, p);
    g := Grant(id, h[j].tag, d, h[j].rule);
    assert g in StepGrants(Roster(h[..j]), h[j]);
    GrantsGrow(h, j, g);
  }

  /** The kinds of grant a step makes when it is not a manual rule. */
  lemma GrantShape(roster: map<nat, Member>, step: Step, g: Grant)
    requires g in StepGrants(roster, step) && !step.ManualRule?
    ensures step.Relate? || (step.BuildNsg? && step.role.Some? && g.owner == step.id)
    ensures step.BuildNsg? ==>
              || (g.dir == Ingress && step.role.value.tier == Public
                  && exists port :: port in step.ports && g.rule == TcpRule(port, Cidr(INTERNET), AmbientRule))
              || (g.dir == Egress && step.role.value.egressServices && g.rule == AllRule(Services, AmbientRule))
              || (g.dir == Egress && step.role.value.egressInternet && g.rule == AllRule(Cidr(INTERNET), AmbientRule))
    ensures step.Relate? ==>
              && step.src in roster && step.tgt in roster
              && g.rule.protocol == TCP && g.rule.icmp.None?
              && (g.rule == TcpRule(step.port, g.rule.peer, Blank)
                  || (NeedsSsh(step.withSsh, roster[step.tgt].role) && g.rule == TcpRule(SSH, g.rule.peer, Blank)))
              && (if g.dir == Egress then g.owner == roster[step.src].id && g.rule.peer == Group(roster[step.tgt].id)
                  else g.owner == roster[step.tgt].id && g.rule.peer == Group(roster[step.src].id))
  {
    if step.BuildNsg? {
      var ports := if step.role.value.tier == Public then PortGrants(step.id, step.ports) else [];
      if g in ports {
        var i :| 0 <= i < |ports| && ports[i] == g;
        assert step.ports[i] in step.ports;
      }
    }
  }

  /** What the NSG's role and the relationships declared with it let in. */
  predicate LetIn(h: seq<Step>, id: nat, p: Packet)
    requires id in Roster(h)
  {
    RelatedInto(h, id, p) || (PortOpened(h, id, p.port) && Contains(INTERNET, p.source.address))
  }

  lemma IngressGrantSource(site: Site, h: seq<Step>, g: Grant, p: Packet)
    requires AllAllowed(site, h) && g.owner in Roster(h) && p.protocol != ALL
    requires g in GrantsOf(h) && g.dir == Ingress && Admits(g.rule, Ingress, p)
    ensures ManuallyAdmitted(h, g.owner, Ingress, p) || (p.protocol == TCP && LetIn(h, g.owner, p))
  {
    var j := GrantOrigin(h, g);
    if h[j].ManualRule? {
      assert h[j].id == g.owner && h[j].rule == g.rule;
      return;
    }
    GrantShape(Roster(h[..j]), h[j], g);
    if h[j].Relate? {
      RelateEnds(site, h, j);
      MembersKnowTheirIds(h, h[j].src);
      MembersKnowTheirIds(h, h[j].tgt);
      assert OpensPort(h[j], Roster(h)[g.owner].role, p.port);
    } else {
      var port :| port in h[j].ports && g.rule == TcpRule(port, Cidr(INTERNET), AmbientRule);
      assert p.port == port;
      assert PortOpened(h, g.owner, port);
    }
  }

  lemma {:induction false} RelatedIntoGrant(site: Site, h: seq<Step>, id: nat, p: Packet) returns (g: Grant)
    requires AllAllowed(site, h) && id in Roster(h) && p.protocol == TCP && p.port >= 0 && RelatedInto(h, id, p)
    ensures g in GrantsOf(h) && g.owner == id && g.dir == Ingress && Admits(g.rule, Ingress, p)
  {
    var j :| 0 <= j < |h| && h[j].Relate? && h[j].tgt == id && h[j].src in p.source.groups
      && OpensPort(h[j], Roster(h)[id].role, p.port);
    var _, into := RelateGrants(site, h, j, p.port);
    g := into;
  }

  /** Ingress of an NSG: the declared relationships, the ports a public role opens, and the user's own rules. */
  lemma NsgIngressExact(site: Site, h: seq<Step>, id: nat, p: Packet)
    requires RunOn(site, h).Ok() && id in Roster(h) && p.protocol != ALL && p.port >= 0
    ensures id in RunOn(site, h).state.groups
    ensures NsgAdmits(RunOn(site, h).state.groups[id], Ingress, p) <==>
            || ManuallyAdmitted(h, id, Ingress, p)
            || (p.protocol == TCP
                && (RelatedInto(h, id, p) || (PortOpened(h, id, p.port) && Contains(INTERNET, p.source.address))))
  {
    RunsAgree(site, h);
    NsgAdmitsByGrant(h, RunOn(site, h).state.groups, id, Ingress, p);
    if ManuallyAdmitted(h, id, Ingress, p) {
      var g := ManualGrant(h, id, Ingress, p);
    }
    if g :| g in GrantsOf(h) && g.owner == id && g.dir == Ingress && Admits(g.rule, Ingress, p) {
      IngressGrantSource(site, h, g, p);
    }
    if p.protocol == TCP && RelatedInto(h, id, p) {
      var g := RelatedIntoGrant(site, h, id, p);
    }
    if p.protocol == TCP && PortOpened(h, id, p.port) && Contains(INTERNET, p.source.address) {
      OpenedPortAdmits(h, id, p);
    }
  }

  lemma OpenedPortAdmits(h: seq<Step>, id: nat, p: Packet)
    requires PortOpened(h, id, p.port) && Contains(INTERNET, p.source.address) && p.protocol == TCP
    ensures exists g :: g in GrantsOf(h) && g.owner == id && g.dir == Ingress && Admits(g.rule, Ingress, p)
  {
    hide Roster, GrantsOf, RenderLabel;
    var j :| 0 <= j < |h| && h[j].BuildNsg? && h[j].id == id
      && h[j].role.Some? && h[j].role.value.tier == Public && p.port in h[j].ports;
    var i :| 0 <= i < |h[j].ports| && h[j].ports[i] == p.port;
    var g := PortGrants(id, h[j].ports)[i];
    assert g in PortGrants(id, h[j].ports);
    assert g in StepGrants(Roster(h[..j]), h[j]);
    GrantsGrow(h, j, g);
  }

  lemma EgressGrantSource(site: Site, h: seq<Step>, g: Grant, p: Packet)
    requires AllAllowed(site, h) && g.owner in Roster(h) && p.protocol != ALL
    requires g in GrantsOf(h) && g.dir == Egress && Admits(g.rule, Egress, p)
    ensures var role := Roster(h)[g.owner].role;
            || ManuallyAdmitted(h, g.owner, Egress, p)
            || (p.protocol == TCP && RelatedFrom(h, g.owner, p))
            || (role.Some? && role.value.egressServices && p.destination.service)
            || (role.Some? && role.value.egressInternet && Contains(INTERNET, p.destination.address))
  {
    var j := GrantOrigin(h, g);
    if h[j].ManualRule? {
      assert h[j].id == g.owner && h[j].rule == g.rule;
      return;
    }
    GrantShape(Roster(h[..j]), h[j], g);
    if h[j].Relate? {
      RelateEnds(site, h, j);
      MembersKnowTheirIds(h, h[j].src);
      MembersKnowTheirIds(h, h[j].tgt);
      assert OpensPort(h[j], Roster(h)[h[j].tgt].role, p.port);
    } else {
      AllowedHandlesFresh(site, h);
      BuiltRole(h, j);
    }
  }

  lemma RelatedFromGrant(site: Site, h: seq<Step>, id: nat, p: Packet) returns (g: Grant)
    requires AllAllowed(site, h) && p.protocol == TCP && p.port >= 0 && RelatedFrom(h, id, p)
    ensures g in GrantsOf(h) && g.owner == id && g.dir == Egress && Admits(g.rule, Egress, p)
  {
    var j :| 0 <= j < |h| && h[j].Relate? && h[j].src == id && h[j].tgt in p.destination.groups
      && h[j].tgt in Roster(h) && OpensPort(h[j], Roster(h)[h[j].tgt].role, p.port);
    var out, _ := RelateGrants(site, h, j, p.port);
    g := out;
  }

  /** Egress of an NSG: the declared relationships, the ambient egress of its role, and the user's own rules. */
  lemma NsgEgressExact(site: Site, h: seq<Step>, id: nat, p: Packet)
    requires RunOn(site, h).Ok() && id in Roster(h) && p.protocol != ALL && p.port >= 0
    ensures id in RunOn(site, h).state.groups
    ensures var role := Roster(h)[id].role;
            NsgAdmits(RunOn(site, h).state.groups[id], Egress, p) <==>
            || ManuallyAdmitted(h, id, Egress, p)
            || (p.protocol == TCP && RelatedFrom(h, id, p))
            || (role.Some? && role.value.egressServices && p.destination.service)
            || (role.Some? && role.value.egressInternet && Contains(INTERNET, p.destination.address))
  {
    RunsAgree(site, h);
    NsgAdmitsByGrant(h, RunOn(site, h).state.groups, id, Egress, p);
    if ManuallyAdmitted(h, id, Egress, p) {
      var g := ManualGrant(h, id, Egress, p);
    }
    if g :| g in GrantsOf(h) && g.owner == id && g.dir == Egress && Admits(g.rule, Egress, p) {
      EgressGrantSource(site, h, g, p);
    }
    if p.protocol == TCP && RelatedFrom(h, id, p) {
      var g := RelatedFromGrant(site, h, id, p);
    }
    if Roster(h)[id].role.Some? {
      var j := BuildStep(h, id);
      AmbientEgressAdmits(h, j, p);
    }
  }

  lemma BuiltRole(h: seq<Step>, j: nat)
    requires HandlesFresh(h) && j < |h| && h[j].BuildNsg?
    ensures h[j].id in Roster(h) && Roster(h)[h[j].id] == Member(h[j].id, h[j].name, h[j].role)
  {
    assert h[..j + 1][..j] == h[..j];
    RosterStable(h, j + 1, h[j].id);
  }

  lemma {:induction false} BuildStep(h: seq<Step>, id: nat) returns (j: nat)
    requires id in Roster(h)
    ensures j < |h| && h[j].BuildNsg? && h[j].id == id && h[j].role == Roster(h)[id].role
    decreases |h|
  {
    var last := h[|h| - 1];
    if last.BuildNsg? && last.id == id {
      j := |h| - 1;
    } else {
      j := BuildStep(h[..|h| - 1], id);
    }
  }

  lemma AmbientEgressAdmits(h: seq<Step>, j: nat, p: Packet)
    requires j < |h| && h[j].BuildNsg? && h[j].role.Some?
    ensures h[j].role.value.egressServices && p.destination.service ==>
              exists g :: g in GrantsOf(h) && g.owner == h[j].id && g.dir == Egress && Admits(g.rule, Egress, p)
    ensures h[j].role.value.egressInternet && Contains(INTERNET, p.destination.address) ==>
              exists g :: g in GrantsOf(h) && g.owner == h[j].id && g.dir == Egress && Admits(g.rule, Egress, p)
  {
    var role, id := h[j].role.value, h[j].id;
    if role.egressServices {
      var g := Grant(id, RenderLabel(ServicesOut), Egress, AllRule(Services, AmbientRule));
      assert g in EgressGrants(id, role) && g in StepGrants(Roster(h[..j]), h[j]);
      GrantsGrow(h, j, g);
    }
    if role.egressInternet {
      var g := Grant(id, RenderLabel(InternetOut), Egress, AllRule(Cidr(INTERNET), AmbientRule));
      assert g in EgressGrants(id, role) && g in StepGrants(Roster(h[..j]), h[j]);
      GrantsGrow(h, j, g);
    }
  }

  // ---- SSH nobody asked for --------------------------------------------------------------------------

  /** The documentation's condition on the target of an SSH channel. */
  predicate AcceptsSsh(role: Option<Role>) {
    role.Some? && role.value.acceptSsh
  }

  /**
   A relationship opens port 22 of an NSG although no role of the NSG accepts SSH: by name, or because it has no role.
   */
  predicate SshRelated(h: seq<Step>, id: nat, p: Packet)
    requires id in Roster(h)
  {
    exists j :: 0 <= j < |h| && h[j].Relate? && h[j].tgt == id && h[j].src in p.source.groups
      && (h[j].port == SSH || (h[j].withSsh && Roster(h)[id].role.None?))
  }

  /**
   Exactly when SSH reaches an NSG whose role does not accept it: a relationship names port 22, or comes with its SSH
   channel and the NSG has no role, or a public role opens the port.
   */
  lemma {:induction false} SshWithoutConsent(site: Site, h: seq<Step>, id: nat, p: Packet)
    requires RunOn(site, h).Ok() && NoManualRules(h) && id in Roster(h) && !AcceptsSsh(Roster(h)[id].role)
    requires p.protocol == TCP && p.port == SSH
    ensures id in RunOn(site, h).state.groups
    ensures NsgAdmits(RunOn(site, h).state.groups[id], Ingress, p) <==>
            SshRelated(h, id, p) || (PortOpened(h, id, SSH) && Contains(INTERNET, p.source.address))
  {
    hide Run, Roster, NsgAdmits, PortOpened, Contains;
    NsgIngressExact(site, h, id, p);
    if RelatedInto(h, id, p) {
      var j :| 0 <= j < |h| && h[j].Relate? && h[j].tgt == id && h[j].src in p.source.groups
               && OpensPort(h[j], Roster(h)[id].role, p.port);
      assert h[j].port == SSH || (h[j].withSsh && Roster(h)[id].role.None?);
    }
    if SshRelated(h, id, p) {
      var j :| 0 <= j < |h| && h[j].Relate? && h[j].tgt == id && h[j].src in p.source.groups
               && (h[j].port == SSH || (h[j].withSsh && Roster(h)[id].role.None?));
      assert OpensPort(h[j], Roster(h)[id].role, p.port);
    }
  }

  /** Building an NSG without a role adds a member and nothing else. */
  lemma {:induction false} PlainNsg(site: Site, h: seq<Step>, id: nat, name: string)
    requires AllAllowed(site, h) && id !in Roster(h)
    ensures var after := h + [BuildNsg(id, name, None, [])];
            AllAllowed(site, after) && Roster(after) == Roster(h)[id := Member(id, name, None)]
                && GrantsOf(after) == GrantsOf(h)
  {
    hide AllAllowed, CallsOf, GrantsOf, Roster;
    SnocGroups(h, BuildNsg(id, name, None, []));
    AllAllowedSnoc(site, h, BuildNsg(id, name, None, []));
  }

  /** The first relationship between two NSGs without roles is always allowed. */
  lemma {:induction false} PlainRelation(site: Site, h: seq<Step>, src: nat, tgt: nat, port: nat, withSsh: bool)
    requires AllAllowed(site, h) && GrantsOf(h) == [] && src in Roster(h) && tgt in Roster(h)
    requires Roster(h)[src].role == Roster(h)[tgt].role == None
    ensures AllAllowed(site, h + [Relate(src, tgt, port, withSsh)])
        && Roster(h + [Relate(src, tgt, port, withSsh)]) == Roster(h)
  {
    hide AllAllowed, CallsOf, GrantsOf, Roster, ServesGrants;
    SnocGroups(h, Relate(src, tgt, port, withSsh));
    AllAllowedSnoc(site, h, Relate(src, tgt, port, withSsh));
  }

  /** Two NSGs without roles, related on any port with the default SSH channel: the target takes SSH from the source. */
  lemma {:induction false} RolelessTargetTakesSsh(site: Site, port: nat, p: Packet)
    requires p.protocol == TCP && p.port == SSH && 0 in p.source.groups
    ensures var o := RunOn(site, [BuildNsg(0, "a", None, []), BuildNsg(1, "b", None, []), Relate(0, 1, port, true)]);
            o.Ok() && 1 in o.state.groups && o.state.groups[1].role == None && NsgAdmits(o.state.groups[1], Ingress, p)
  {
    hide Run, NsgAdmits, CallsOf, ListsOf, AllAllowed, GrantsOf, Holds, Allowed;
    var a, b, r := BuildNsg(0, "a", None, []), BuildNsg(1, "b", None, []), Relate(0, 1, port, true);
    var h := [a, b, r];
    assert [] + [a] == [a] && [a] + [b] == [a, b] && [a, b] + [r] == h;
    NothingYet(site);
    PlainNsg(site, [], 0, "a");
    PlainNsg(site, [a], 1, "b");
    PlainRelation(site, [a, b], 0, 1, port, true);
    RunsAgree(site, h);
    assert h[2] == r;
    hide Roster;
    assert SshRelated(h, 1, p);
    SshWithoutConsent(site, h, 1, p);
  }

  lemma NothingYet(site: Site)
    ensures AllAllowed(site, []) && Roster([]) == map[] && GrantsOf([]) == []
  {
  }

  // ---- The bilateral mirror --------------------------------------------------------------------------

  /** How many grants of a sequence make the given rule. */
  function CountGrants(grants: seq<Grant>, d: Direction, rule: Rule): nat
    decreases |grants|
  {
    if grants == [] then 0
    else
      var last := grants[|grants| - 1];
      CountGrants(grants[..|grants| - 1], d, rule) + if last.dir == d && last.rule == rule then 1 else 0
  }

  function CountRules(rules: seq<NsgRule>, d: Direction, rule: Rule): nat
    decreases |rules|
  {
    if rules == [] then 0
    else
      var last := rules[|rules| - 1];
      CountRules(rules[..|rules| - 1], d, rule) + if last.dir == d && last.rule == rule then 1 else 0
  }

  lemma {:induction false} CountsAgree(rules: seq<NsgRule>, grants: seq<Grant>, d: Direction, rule: Rule)
    requires |rules| == |grants|
    requires forall i :: 0 <= i < |rules| ==> rules[i].dir == grants[i].dir && rules[i].rule == grants[i].rule
    ensures CountRules(rules, d, rule) == CountGrants(grants, d, rule)
    decreases |rules|
  {
    if rules != [] {
      CountsAgree(rules[..|rules| - 1], grants[..|grants| - 1], d, rule);
    }
  }

  lemma {:induction false} CountAppend(a: seq<Grant>, b: seq<Grant>, d: Direction, rule: Rule)
    ensures CountGrants(a + b, d, rule) == CountGrants(a, d, rule) + CountGrants(b, d, rule)
    decreases |b|
  {
    if b == [] {
      assert a + b == a;
    } else {
      assert (a + b)[..|a + b| - 1] == a + b[..|b| - 1];
      CountAppend(a, b[..|b| - 1], d, rule);
    }
  }

  lemma {:induction false} CountNone(grants: seq<Grant>, d: Direction, rule: Rule)
    requires forall g :: g in grants ==> g.rule != rule
    ensures CountGrants(grants, d, rule) == 0
    decreases |grants|
  {
    if grants != [] {
      assert grants[|grants| - 1] in grants;
      CountNone(grants[..|grants| - 1], d, rule);
    }
  }

  function Outbound(s: nat, t: nat, port: nat, grants: seq<Grant>): nat {
    CountGrants(OwnedBy(grants, s), Egress, TcpRule(port, Group(t), Blank))
  }

  function Inbound(s: nat, t: nat, port: nat, grants: seq<Grant>): nat {
    CountGrants(OwnedBy(grants, t), Ingress, TcpRule(port, Group(s), Blank))
  }

  /** One port of one relationship adds one rule at each end. */
  lemma PairMirrors(a: nat, b: nat, outTag: string, inTag: string, q: nat, s: nat, t: nat, port: nat)
    ensures var pair := [Grant(a, outTag, Egress, TcpRule(q, Group(b), Blank)),
        Grant(b, inTag, Ingress, TcpRule(q, Group(a), Blank))];
            Outbound(s, t, port, pair) == Inbound(s, t, port, pair) == if a == s && b == t && q == port then 1 else 0
  {
    var first, second := Grant(a, outTag, Egress, TcpRule(q, Group(b), Blank)),
        Grant(b, inTag, Ingress, TcpRule(q, Group(a), Blank));
    assert [first, second] == [first] + [second];
    MirrorAppend([first], [second], s, t, port);
    SingleBound(first, s, t, port);
    SingleBound(second, s, t, port);
  }

  lemma SingleBound(g: Grant, s: nat, t: nat, port: nat)
    ensures Outbound(s, t, port, [g]) == if g.owner == s && g.dir == Egress
        && g.rule == TcpRule(port, Group(t), Blank) then 1 else 0
    ensures Inbound(s, t, port, [g]) == if g.owner == t && g.dir == Ingress
        && g.rule == TcpRule(port, Group(s), Blank) then 1 else 0
  {
    SingleOwned(g, s);
    SingleOwned(g, t);
    SingleCount(g, Egress, TcpRule(port, Group(t), Blank));
    SingleCount(g, Ingress, TcpRule(port, Group(s), Blank));
  }

  lemma SingleOwned(g: Grant, id: nat)
    ensures OwnedBy([g], id) == if g.owner == id then [g] else []
  {
    assert [g][..0] == [] && [] + [g] == [g];
  }

  lemma SingleCount(g: Grant, d: Direction, rule: Rule)
    ensures CountGrants([g], d, rule) == if g.dir == d && g.rule == rule then 1 else 0
  {
    assert [g][..0] == [];
  }

  lemma MirrorAppend(a: seq<Grant>, b: seq<Grant>, s: nat, t: nat, port: nat)
    ensures Outbound(s, t, port, a + b) == Outbound(s, t, port, a) + Outbound(s, t, port, b)
    ensures Inbound(s, t, port, a + b) == Inbound(s, t, port, a) + Inbound(s, t, port, b)
  {
    OwnedByAppend(a, b, s);
    OwnedByAppend(a, b, t);
    CountAppend(OwnedBy(a, s), OwnedBy(b, s), Egress, TcpRule(port, Group(t), Blank));
    CountAppend(OwnedBy(a, t), OwnedBy(b, t), Ingress, TcpRule(port, Group(s), Blank));
  }

  lemma {:induction false} AmbientMirrors(id: nat, role: Role, ports: seq<nat>, s: nat, t: nat, port: nat)
    ensures Outbound(s, t, port, AmbientGrants(id, role, ports))
        == Inbound(s, t, port, AmbientGrants(id, role, ports)) == 0
  {
    var grants := AmbientGrants(id, role, ports);
    forall g | g in OwnedBy(grants, s) || g in OwnedBy(grants, t)
      ensures !g.rule.peer.Group?
    {
      OwnedByMember(grants, s, g);
      OwnedByMember(grants, t, g);
    }
    CountNone(OwnedBy(grants, s), Egress, TcpRule(port, Group(t), Blank));
    CountNone(OwnedBy(grants, t), Ingress, TcpRule(port, Group(s), Blank));
  }

  lemma StepMirrors(roster: map<nat, Member>, step: Step, s: nat, t: nat, port: nat)
    requires !step.ManualRule?
    ensures Outbound(s, t, port, StepGrants(roster, step)) == Inbound(s, t, port, StepGrants(roster, step))
  {
    if step.BuildNsg? && step.role.Some? {
      AmbientMirrors(step.id, step.role.value, step.ports, s, t, port);
    } else if step.Relate? && step.src in roster && step.tgt in roster {
      var a, b := roster[step.src], roster[step.tgt];
      var ssh := if NeedsSsh(step.withSsh, b.role) then SshPair(a, b) else [];
      MirrorAppend(PortPair(a, b, step.port), ssh, s, t, port);
      PairMirrors(a.id, b.id, RenderLabel(Out(b.name, step.port)), RenderLabel(In(a.name, step.port)), step.port, s,
          t, port);
      PairMirrors(a.id, b.id, RenderLabel(OutSsh(b.name)), RenderLabel(InSsh(a.name)), SSH, s, t, port);
    }
  }

  lemma {:induction false} GrantsMirror(h: seq<Step>, s: nat, t: nat, port: nat)
    requires NoManualRules(h)
    ensures Outbound(s, t, port, GrantsOf(h)) == Inbound(s, t, port, GrantsOf(h))
    decreases |h|
  {
    if h != [] {
      var init := h[..|h| - 1];
      GrantsMirror(init, s, t, port);
      MirrorAppend(GrantsOf(init), StepGrants(Roster(init), h[|h| - 1]), s, t, port);
      StepMirrors(Roster(init), h[|h| - 1], s, t, port);
    }
  }

  /** S may send to T on a port exactly as often as T accepts from S on it. */
  lemma BilateralMirror(site: Site, h: seq<Step>, s: nat, t: nat, port: nat)
    requires RunOn(site, h).Ok() && NoManualRules(h) && s in Roster(h) && t in Roster(h)
    ensures var m := RunOn(site, h).state.groups;
            && s in m && t in m
            && CountRules(m[s].rules, Egress, TcpRule(port, Group(t), Blank))
               == CountRules(m[t].rules, Ingress, TcpRule(port, Group(s), Blank))
  {
    RunsAgree(site, h);
    var m := RunOn(site, h).state.groups;
    GrantsMirror(h, s, t, port);
    CountsAgree(m[s].rules, OwnedBy(GrantsOf(h), s), Egress, TcpRule(port, Group(t), Blank));
    CountsAgree(m[t].rules, OwnedBy(GrantsOf(h), t), Ingress, TcpRule(port, Group(s), Blank));
  }
}
