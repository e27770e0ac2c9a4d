/** Where traffic leaving the secure and management tiers can go: security lists, and route tables. */
module Confinement {
  import opened Agreement
  import opened Contributions
  import opened Fingerprints
  import opened History
  import opened Networks
  import opened Nsgs
  import opened Programs
  import opened Rules
  import opened Traffic
  import opened VcnBuilder
  import opened Wrappers

  // ---- Egress of the isolated tiers, exactly ---------------------------------------------------------

  /** Some relationship out of the tier was declared towards the tier that owns the packet's destination address. */
  predicate DeclaredOutOf(site: Site, h: seq<Step>, t: Tier, p: Packet) {
    exists j :: 0 <= j < |h| && h[j].Relate? && h[j].src in Roster(h) && h[j].tgt in Roster(h)
      && RelationOutOf(site, Roster(h)[h[j].src].role, Roster(h)[h[j].tgt].role, h[j], t, p)
  }

  predicate RelationOutOf(site: Site, src: Option<Role>, tgt: Option<Role>, step: Step, t: Tier, p: Packet)
    requires step.Relate?
  {
    && CrossTier(src, tgt) && src.value.tier == t
    && Contains(TierCidr(site.tiers, tgt.value.tier), p.destination.address)
    && OpensPort(step, tgt, p.port)
  }

  /** An NSG was built with a role of the tier that may reach Oracle services, or the internet. */
  predicate ServicesGranted(h: seq<Step>, t: Tier) {
    exists j :: 0 <= j < |h| && h[j].BuildNsg? && h[j].role.Some? && h[j].role.value.tier == t
        && h[j].role.value.egressServices
  }

  predicate InternetGranted(h: seq<Step>, t: Tier) {
    exists j :: 0 <= j < |h| && h[j].BuildNsg? && h[j].role.Some? && h[j].role.value.tier == t
        && h[j].role.value.egressInternet
  }

  lemma IsolatedEgressCall(site: Site, roster: map<nat, Member>, step: Step, c: Call, t: Tier, r: Rule)
    requires Isolated(t) && c in StepCalls(site, roster, step) && !step.DirectRules?
    requires r in CallLists(c).At(t, Egress)
    ensures c.Unique? && r == c.rule && KeyTier(c.key) == t
    ensures c.key.CrossEgress? || c.key.EgressServices? || c.key.EgressInternet?
    ensures c.key.CrossEgress? ==>
              && step.Relate? && step.src in roster && step.tgt in roster
              && CrossTier(roster[step.src].role, roster[step.tgt].role)
              && c.key.source == roster[step.src].role.value.tier && c.key.target == roster[step.tgt].role.value.tier
              && OpensPort(step, roster[step.tgt].role, c.key.port)
    ensures !c.key.CrossEgress? ==>
              && step.BuildNsg? && step.role.Some? && step.role.value.tier == t
              && (c.key.EgressServices? ==> step.role.value.egressServices)
              && (c.key.EgressInternet? ==> step.role.value.egressInternet)
  {
    if c.Unique? {
      OnlyAt(c.tier, c.dir, [c.rule], t, Egress);
      StepCallsCoherent(site, roster, step, c);
    }
  }

  predicate EgressExplained(site: Site, h: seq<Step>, t: Tier, p: Packet) {
    || (p.destination.service && (Closed(h) || ServicesGranted(h, t)))
    || (InternetGranted(h, t) && Contains(INTERNET, p.destination.address))
    || (p.protocol == TCP && DeclaredOutOf(site, h, t, p))
  }

  /**
   Egress exactness: with no direct rule calls, the secure and management lists, pending and materialised, let a packet
   out if and only if it goes to Oracle services, was declared towards its destination's tier, or a role of the tier
   was given internet egress.
   */
  lemma IsolatedEgressExact(site: Site, h: seq<Step>, t: Tier, p: Packet)
    requires RunOn(site, h).Ok() && NoDirectRules(h) && Isolated(t) && p.protocol != ALL && p.port >= 0
    ensures var v := RunOn(site, h).state.vcn;
            && (ListAdmits(v.pending.At(t, Egress), Egress, p) <==> EgressExplained(site, h, t, p))
            && (v.finalized ==>
                  && |v.created| == 1
                  && (ListAdmits(v.created[0].lists.At(t, Egress), Egress, p) <==> EgressExplained(site, h, t, p)))
  {
    hide Run, Roster, Closed, ListsOf, ListAdmits, DeclaredOutOf, ServicesGranted, InternetGranted, Contains, Allowed,
        GroupsMatch;
    RunsAgree(site, h);
    if ListAdmits(ListsOf(site, h).At(t, Egress), Egress, p) {
      LeavingWasExplained(site, h, t, p);
    }
    if EgressExplained(site, h, t, p) {
      ExplainedMayLeave(site, h, t, p);
    }
  }

  lemma LeavingWasExplained(site: Site, h: seq<Step>, t: Tier, p: Packet)
    requires AllAllowed(site, h) && NoDirectRules(h) && Isolated(t) && p.protocol != ALL
    requires ListAdmits(ListsOf(site, h).At(t, Egress), Egress, p)
    ensures EgressExplained(site, h, t, p)
  {
    hide Roster, Closed, ListsOf, Contains, CallsOf, StepCalls;
    var r :| r in ListsOf(site, h).At(t, Egress) && Admits(r, Egress, p);
    ListedOrigin(site, h, t, Egress, r);
    if Closed(h) && r in BASELINE.At(t, Egress) {
      assert r == AllRule(Services, Baseline);
    } else {
      var c :| c in Accepted(CallsOf(site, h)) && r in CallLists(c).At(t, Egress);
      AcceptedWithin(CallsOf(site, h), c);
      var j := CallOrigin(site, h, c);
      IsolatedEgressCall(site, Roster(h[..j]), h[j], c, t, r);
      StepCallsCoherent(site, Roster(h[..j]), h[j], c);
      BareAdmits(r, Egress, p);
      if c.key.CrossEgress? {
        RelateEnds(site, h, j);
        assert RelationOutOf(site, Roster(h)[h[j].src].role, Roster(h)[h[j].tgt].role, h[j], t, p);
      }
    }
  }

  lemma ExplainedMayLeave(site: Site, h: seq<Step>, t: Tier, p: Packet)
    requires AllAllowed(site, h) && Isolated(t) && p.port >= 0 && EgressExplained(site, h, t, p)
    ensures ListAdmits(ListsOf(site, h).At(t, Egress), Egress, p)
  {
    hide Roster, Closed, ListsOf, Contains, CallsOf, StepCalls;
    if p.protocol == TCP && DeclaredOutOf(site, h, t, p) {
      DeclaredMayLeave(site, h, t, p);
    } else if p.destination.service && Closed(h) {
      ListedOrigin(site, h, t, Egress, AllRule(Services, Baseline));
    } else if p.destination.service && ServicesGranted(h, t) {
      var j :| 0 <= j < |h| && h[j].BuildNsg? && h[j].role.Some? && h[j].role.value.tier == t
          && h[j].role.value.egressServices;
      RoleEgressMayLeave(site, h, j, EgressServices(t), p);
    } else {
      var j :| 0 <= j < |h| && h[j].BuildNsg? && h[j].role.Some? && h[j].role.value.tier == t
          && h[j].role.value.egressInternet;
      RoleEgressMayLeave(site, h, j, EgressInternet(t), p);
    }
  }

  lemma RoleEgressMayLeave(site: Site, h: seq<Step>, j: nat, k: Key, p: Packet)
    requires AllAllowed(site, h) && j < |h| && h[j].BuildNsg? && h[j].role.Some?
    requires (k == EgressServices(h[j].role.value.tier) && h[j].role.value.egressServices)
          || (k == EgressInternet(h[j].role.value.tier) && h[j].role.value.egressInternet)
    requires Admits(KeyRule(site, k), Egress, p)
    ensures ListAdmits(ListsOf(site, h).At(KeyTier(k), Egress), Egress, p)
  {
    hide Roster, Closed, ListsOf, CallsOf;
    var role := h[j].role.value;
    var c := if k.EgressServices? then Unique(k, role.tier, Egress, AllRule(Services, AmbientRule))
             else Unique(k, role.tier, Egress, AllRule(Cidr(INTERNET), AmbientRule));
    assert c in EgressCalls(role) && c in StepCalls(site, Roster(h[..j]), h[j]);
    DeclaredKeysRegistered(site, h, j, c);
    RegisteredKeyAdmits(site, h, k, p);
  }

  lemma DeclaredMayLeave(site: Site, h: seq<Step>, t: Tier, p: Packet)
    requires AllAllowed(site, h) && p.protocol == TCP && p.port >= 0 && DeclaredOutOf(site, h, t, p)
    ensures ListAdmits(ListsOf(site, h).At(t, Egress), Egress, p)
  {
    hide Roster, Closed, ListsOf, CallsOf, StepCalls;
    var j :| 0 <= j < |h| && h[j].Relate? && h[j].src in Roster(h) && h[j].tgt in Roster(h)
      && RelationOutOf(site, Roster(h)[h[j].src].role, Roster(h)[h[j].tgt].role, h[j], t, p);
    RelateEnds(site, h, j);
    RelateKeys(site, Roster(h[..j]), h[j], p.port);
    var u := Roster(h)[h[j].tgt].role.value.tier;
    var out :| out in StepCalls(site, Roster(h[..j]), h[j]) && out.Unique? && out.key == CrossEgress(t, p.port, u);
    DeclaredKeysRegistered(site, h, j, out);
    RegisteredKeyAdmits(site, h, out.key, p);
  }

  predicate PredefinedRoles(h: seq<Step>) {
    forall j :: 0 <= j < |h| && h[j].BuildNsg? && h[j].role.Some? ==> Predefined(h[j].role.value)
  }

  /**
   Confinement: with the predefined roles, what leaves the isolated tiers goes to Oracle services or stays inside the
   VCN.
   */
  lemma IsolatedEgressConfined(site: Site, h: seq<Step>, t: Tier, p: Packet)
    requires Canonical(site.cidr) && SplitTiers(site.cidr) == Ok(site.tiers)
    requires RunOn(site, h).Ok() && NoDirectRules(h) && PredefinedRoles(h) && Isolated(t) && p.protocol != ALL
        && p.port >= 0
    requires var v := RunOn(site, h).state.vcn;
             || ListAdmits(v.pending.At(t, Egress), Egress, p)
             || (v.finalized && |v.created| == 1 && ListAdmits(v.created[0].lists.At(t, Egress), Egress, p))
    ensures p.destination.service || Contains(site.cidr, p.destination.address)
  {
    hide Run, Roster, Closed, ListAdmits, SplitTiers, ServicesGranted;
    IsolatedEgressExact(site, h, t, p);
    SplitTiersMatchesEqualSplit(site.cidr);
    TiersFit(site.cidr);
  }

  // ---- Route tables ----------------------------------------------------------------------------------

  datatype Gateway = InternetGateway | NatGateway | ServiceGateway | DynamicRoutingGateway

  datatype Route = Route(destination: Peer, gateway: Gateway)

  datatype RouteTables = RouteTables(public: seq<Route>, private: seq<Route>, secure: seq<Route>,
      management: seq<Route>)

  function DrgRoutes(cidrs: seq<Network>): (rs: seq<Route>)
    ensures |rs| == |cidrs|
  {
    seq(|cidrs|, i requires 0 <= i < |cidrs| => Route(Cidr(cidrs[i]), DynamicRoutingGateway))
  }

  function TableOf(tables: RouteTables, t: Tier): seq<Route> {
    match t
    case Public => tables.public
    case Private => tables.private
    case Secure => tables.secure
    case Management => tables.management
  }

  /** What the route tables must hold. */
  function TablesFor(drgEnabled: bool, onPremise: seq<Network>): RouteTables {
    var internal := [Route(Services, ServiceGateway)] + if drgEnabled then DrgRoutes(onPremise) else [];
    RouteTables(
      [Route(Cidr(INTERNET), InternetGateway)], [Route(Cidr(INTERNET), NatGateway)] + internal, internal, internal)
  }

  /** The four tables; on-premise routes are appended to three of them, one block at a time. */
  method CreateRouteTables(drgEnabled: bool, onPremise: seq<Network>) returns (tables: RouteTables)
    ensures tables == TablesFor(drgEnabled, onPremise)
  {
    var service := Route(Services, ServiceGateway);
    var private := [Route(Cidr(INTERNET), NatGateway), service];
    var public := [Route(Cidr(INTERNET), InternetGateway)];
    var secure, management := [service], [service];
    if drgEnabled && onPremise != [] {
      for i := 0 to |onPremise|
        invariant private == [Route(Cidr(INTERNET), NatGateway)] + ([service] + DrgRoutes(onPremise)[..i])
        invariant secure == management == [service] + DrgRoutes(onPremise)[..i]
      {
        var route := Route(Cidr(onPremise[i]), DynamicRoutingGateway);
        private := private + [route];
        secure := secure + [route];
        management := management + [route];
      }
      assert DrgRoutes(onPremise)[..|onPremise|] == DrgRoutes(onPremise);
    }
    tables := RouteTables(public, private, secure, management);
  }

  predicate Routed(table: seq<Route>, gateway: Gateway, e: Endpoint) {
    exists r :: r in table && r.gateway == gateway && PeerMatches(r.destination, e)
  }

  predicate OnPremise(drgEnabled: bool, blocks: seq<Network>, address: nat) {
    drgEnabled && exists n :: n in blocks && Contains(n, address)
  }

  /**
   Where each tier's table leads: the public one only to the internet gateway, the private one to the NAT gateway, and
   all but the public one to the service gateway and, exactly for on-premise destinations, to the DRG; never elsewhere.
   */
  lemma {:induction false} RoutesExact(drgEnabled: bool, blocks: seq<Network>, t: Tier, gateway: Gateway, e: Endpoint)
    ensures Routed(TableOf(TablesFor(drgEnabled, blocks), t), gateway, e) <==>
            match gateway
            case InternetGateway => t == Public && Contains(INTERNET, e.address)
            case NatGateway => t == Private && Contains(INTERNET, e.address)
            case ServiceGateway => t != Public && e.service
            case DynamicRoutingGateway => t != Public && OnPremise(drgEnabled, blocks, e.address)
  {
    var table := TableOf(TablesFor(drgEnabled, blocks), t);
    var drg := if drgEnabled then DrgRoutes(blocks) else [];
    assert forall r :: r in table <==>
             || (t == Public && r == Route(Cidr(INTERNET), InternetGateway))
             || (t == Private && r == Route(Cidr(INTERNET), NatGateway))
             || (t != Public && (r == Route(Services, ServiceGateway) || r in drg));
    DrgRoutesLead(blocks, e);
  }

  lemma {:induction false} DrgRoutesLead(blocks: seq<Network>, e: Endpoint)
    ensures forall r :: r in DrgRoutes(blocks) ==> r.gateway == DynamicRoutingGateway
    ensures (exists r :: r in DrgRoutes(blocks) && PeerMatches(r.destination, e))
            <==> exists n :: n in blocks && Contains(n, e.address)
  {
    if r :| r in DrgRoutes(blocks) && PeerMatches(r.destination, e) {
      var i :| 0 <= i < |blocks| && DrgRoutes(blocks)[i] == r;
      assert blocks[i] in blocks;
    }
    if n :| n in blocks && Contains(n, e.address) {
      var i :| 0 <= i < |blocks| && blocks[i] == n;
      assert DrgRoutes(blocks)[i] in DrgRoutes(blocks);
    }
  }
}
