/** Which packets the two firewall layers admit after a program that raised nothing. */
module Traffic {
  import opened Agreement
  import opened Contributions
  import opened Fingerprints
  import opened History
  import opened Networks
  import opened Nsgs
  import opened Programs
  import opened Rules
  import opened Spells
  import opened VcnBuilder
  import opened Wrappers

  predicate NsgAdmits(n: NsgState, d: Direction, p: Packet) {
    exists r :: r in n.rules && r.dir == d && Admits(r.rule, d, p)
  }

  // ---- Handles keep their meaning --------------------------------------------------------------------

  /** No handle is bound twice. */
  predicate HandlesFresh(h: seq<Step>) {
    forall j :: 0 <= j < |h| && h[j].BuildNsg? ==> h[j].id !in Roster(h[..j])
  }

  lemma AllowedHandlesFresh(site: Site, h: seq<Step>)
    requires AllAllowed(site, h)
    ensures HandlesFresh(h)
  {
    forall j | 0 <= j < |h| && h[j].BuildNsg?
      ensures h[j].id !in Roster(h[..j])
    {
      assert Allowed(site, h[..j], h[j]);
    }
  }

  lemma {:induction false} RosterStable(h: seq<Step>, j: nat, id: nat)
    requires HandlesFresh(h) && j <= |h| && id in Roster(h[..j])
    ensures id in Roster(h) && Roster(h)[id] == Roster(h[..j])[id]
    decreases |h|
  {
    if j == |h| {
      assert h[..j] == h;
    } else {
      var init := h[..|h| - 1];
      assert forall i :: 0 <= i <= |init| ==> init[..i] == h[..i];
      RosterStable(init, j, id);
    }
  }

  /** Both ends of a declared relationship, with the roles they have had from the start. */
  lemma RelateEnds(site: Site, h: seq<Step>, j: nat)
    requires AllAllowed(site, h) && j < |h| && h[j].Relate?
    ensures h[j].src in Roster(h[..j]) && h[j].tgt in Roster(h[..j])
    ensures h[j].src in Roster(h) && Roster(h)[h[j].src] == Roster(h[..j])[h[j].src]
    ensures h[j].tgt in Roster(h) && Roster(h)[h[j].tgt] == Roster(h[..j])[h[j].tgt]
  {
    assert Allowed(site, h[..j], h[j]);
    AllowedHandlesFresh(site, h);
    RosterStable(h, j, h[j].src);
    RosterStable(h, j, h[j].tgt);
  }

  lemma {:induction false} GrantsGrow(h: seq<Step>, j: nat, g: Grant)
    requires j < |h| && g in StepGrants(Roster(h[..j]), h[j])
    ensures g in GrantsOf(h)
    decreases |h|
  {
    if j < |h| - 1 {
      assert h[..|h| - 1][..j] == h[..j];
      GrantsGrow(h[..|h| - 1], j, g);
    }
  }

  lemma {:induction false} GrantOrigin(h: seq<Step>, g: Grant) returns (j: nat)
    requires g in GrantsOf(h)
    ensures j < |h| && g in StepGrants(Roster(h[..j]), h[j])
    decreases |h|
  {
    hide StepGrants;
    var init := h[..|h| - 1];
    if g in GrantsOf(init) {
      j := GrantOrigin(init, g);
      assert init[..j] == h[..j];
    } else {
      j := |h| - 1;
    }
  }

  /** The rules of an NSG admit a packet exactly when one of its grants does. */
  lemma {:induction false} NsgAdmitsByGrant(h: seq<Step>, m: Groups, id: nat, d: Direction, p: Packet)
    requires GroupsMatch(h, m) && id in m
    ensures NsgAdmits(m[id], d, p) <==>
            exists g :: g in GrantsOf(h) && g.owner == id && g.dir == d && Admits(g.rule, d, p)
  {
    hide GrantsOf, Roster, OwnedBy, Admits;
    var own := OwnedBy(GrantsOf(h), id);
    if NsgAdmits(m[id], d, p) {
      var r :| r in m[id].rules && r.dir == d && Admits(r.rule, d, p);
      var i :| 0 <= i < |m[id].rules| && m[id].rules[i] == r;
      OwnedByMember(GrantsOf(h), id, own[i]);
    }
    if g :| g in GrantsOf(h) && g.owner == id && g.dir == d && Admits(g.rule, d, p) {
      OwnedByMember(GrantsOf(h), id, g);
      var i :| 0 <= i < |own| && own[i] == g;
      assert m[id].rules[i] in m[id].rules;
    }
  }

  lemma {:induction false} GrantAdmits(h: seq<Step>, m: Groups, g: Grant, p: Packet)
    requires GroupsMatch(h, m) && g in GrantsOf(h) && Admits(g.rule, g.dir, p)
    ensures g.owner in m && NsgAdmits(m[g.owner], g.dir, p)
  {
    NsgAdmitsByGrant(h, m, g.owner, g.dir, p);
  }

  // ---- Declared traffic passes -----------------------------------------------------------------------

  /** The ports a relationship opens: its own, and 22 when an SSH channel comes with it. */
  predicate OpensPort(step: Step, target: Option<Role>, port: int)
    requires step.Relate?
  {
    port == step.port || (NeedsSsh(step.withSsh, target) && port == SSH)
  }

  /** A TCP packet of a declared relationship, between interfaces that carry its two NSGs. */
  predicate DeclaredPacket(h: seq<Step>, j: nat, p: Packet)
    requires j < |h| && h[j].Relate? && h[j].tgt in Roster(h)
  {
    && p.protocol == TCP
    && OpensPort(h[j], Roster(h)[h[j].tgt].role, p.port)
    && h[j].src in p.source.groups && h[j].tgt in p.destination.groups
  }

  /** The two grants behind each port of a relationship. */
  lemma {:induction false} RelateGrants(site: Site, h: seq<Step>, j: nat, port: nat) returns (out: Grant, into: Grant)
    requires AllAllowed(site, h) && j < |h| && h[j].Relate? && h[j].tgt in Roster(h)
    requires OpensPort(h[j], Roster(h)[h[j].tgt].role, port)
    ensures out in GrantsOf(h) && out.owner == h[j].src && out.dir == Egress
            && out.rule == TcpRule(port, Group(h[j].tgt), Blank)
    ensures into in GrantsOf(h) && into.owner == h[j].tgt && into.dir == Ingress
            && into.rule == TcpRule(port, Group(h[j].src), Blank)
  {
    RelateEnds(site, h, j);
    MembersKnowTheirIds(h, h[j].src);
    MembersKnowTheirIds(h, h[j].tgt);
    var a, b := Roster(h[..j])[h[j].src], Roster(h[..j])[h[j].tgt];
    var pair := if port == h[j].port then PortPair(a, b, h[j].port) else SshPair(a, b);
    out, into := pair[0], pair[1];
    assert out in StepGrants(Roster(h[..j]), h[j]) && into in StepGrants(Roster(h[..j]), h[j]);
    GrantsGrow(h, j, out);
    GrantsGrow(h, j, into);
  }

  /** Layer 2: the NSGs of both ends admit every declared packet. */
  lemma {:induction false} DeclaredPassesNsgs(site: Site, h: seq<Step>, j: nat, p: Packet)
    requires RunOn(site, h).Ok() && j < |h| && h[j].Relate? && h[j].tgt in Roster(h) && DeclaredPacket(h, j, p)
    requires p.port >= 0
    ensures var m := RunOn(site, h).state.groups;
            && h[j].src in m && h[j].tgt in m
            && NsgAdmits(m[h[j].src], Egress, p) && NsgAdmits(m[h[j].tgt], Ingress, p)
  {
    RunsAgree(site, h);
    RelateEnds(site, h, j);
    var m := RunOn(site, h).state.groups;
    var out, into := RelateGrants(site, h, j, p.port);
    assert Admits(out.rule, Egress, p) && Admits(into.rule, Ingress, p);
    GrantAdmits(h, m, out, p);
    GrantAdmits(h, m, into, p);
  }

  lemma {:induction false} MembersKnowTheirIds(h: seq<Step>, id: nat)
    requires id in Roster(h)
    ensures Roster(h)[id].id == id
    decreases |h|
  {
    if h != [] && id in Roster(h[..|h| - 1]) {
      MembersKnowTheirIds(h[..|h| - 1], id);
    }
  }

  /** The addresses of the packet lie in the tiers of the relationship's roles, which differ. */
  predicate CrossesTiers(site: Site, h: seq<Step>, j: nat, p: Packet)
    requires j < |h| && h[j].Relate? && h[j].src in Roster(h) && h[j].tgt in Roster(h)
  {
    var src, tgt := Roster(h)[h[j].src].role, Roster(h)[h[j].tgt].role;
    && CrossTier(src, tgt)
    && Contains(TierCidr(site.tiers, src.value.tier), p.source.address)
    && Contains(TierCidr(site.tiers, tgt.value.tier), p.destination.address)
  }

  lemma RelateKeys(site: Site, roster: map<nat, Member>, step: Step, port: nat)
    requires step.Relate? && step.src in roster && step.tgt in roster
    requires CrossTier(roster[step.src].role, roster[step.tgt].role) && OpensPort(step, roster[step.tgt].role, port)
    ensures var calls := StepCalls(site, roster, step);
            var s, t := roster[step.src].role.value.tier, roster[step.tgt].role.value.tier;
            && (exists c :: c in calls && c.Unique? && c.key == CrossEgress(s, port, t))
            && (exists c :: c in calls && c.Unique? && c.key == CrossIngress(t, port, s))
  {
    var calls := StepCalls(site, roster, step);
    var s, t := roster[step.src].role.value.tier, roster[step.tgt].role.value.tier;
    var pair := if port == step.port then CrossCalls(site.tiers, s, t, port, ToTier(port, t), FromTier(port, s))
                else CrossCalls(site.tiers, s, t, SSH, SshToTier(t), SshFromTier(s));
    assert pair[0] in calls && pair[1] in calls;
  }

  /** What a registered key admits passes its list, pending and materialised. */
  lemma {:induction false} RegisteredKeyPasses(site: Site, h: seq<Step>, k: Key, p: Packet)
    requires RunOn(site, h).Ok() && k in KeysIn(CallsOf(site, h)) && Admits(KeyRule(site, k), KeyDirection(k), p)
    ensures var v := RunOn(site, h).state.vcn;
            && ListAdmits(v.pending.At(KeyTier(k), KeyDirection(k)), KeyDirection(k), p)
            && (v.finalized ==>
                  |v.created| == 1 && ListAdmits(v.created[0].lists.At(KeyTier(k), KeyDirection(k)), KeyDirection(k),
                      p))
  {
    hide Run, Roster, CallsOf, KeysIn, ListsOf, GroupsMatch, ListAdmits, Admits, AllAllowed;
    RunsAgree(site, h);
    RegisteredKeyAdmits(site, h, k, p);
  }

  /** Layer 1: the lists of both tiers admit it too, even when its rules were duplicates or came after finalisation. */
  lemma {:induction false} DeclaredPassesLists(site: Site, h: seq<Step>, j: nat, p: Packet)
    requires RunOn(site, h).Ok() && j < |h| && h[j].Relate? && h[j].src in Roster(h) && h[j].tgt in Roster(h)
    requires DeclaredPacket(h, j, p) && CrossesTiers(site, h, j, p) && p.port >= 0
    ensures var v := RunOn(site, h).state.vcn;
            var s, t := Roster(h)[h[j].src].role.value.tier, Roster(h)[h[j].tgt].role.value.tier;
            && ListAdmits(v.pending.At(s, Egress), Egress, p) && ListAdmits(v.pending.At(t, Ingress), Ingress, p)
            && (v.finalized ==>
                  && |v.created| == 1
                  && ListAdmits(v.created[0].lists.At(s, Egress), Egress, p)
                  && ListAdmits(v.created[0].lists.At(t, Ingress), Ingress, p))
  {
    hide Run, Roster, StepCalls, CallsOf, KeysIn, GroupsMatch, VcnMatches, ListAdmits, ListsOf;
    RunsAgree(site, h);
    RelateEnds(site, h, j);
    var roster := Roster(h[..j]);
    var s, t := roster[h[j].src].role.value.tier, roster[h[j].tgt].role.value.tier;
    RelateKeys(site, roster, h[j], p.port);
    var out :| out in StepCalls(site, roster, h[j]) && out.Unique? && out.key == CrossEgress(s, p.port, t);
    var into :| into in StepCalls(site, roster, h[j]) && into.Unique? && into.key == CrossIngress(t, p.port, s);
    DeclaredKeysRegistered(site, h, j, out);
    DeclaredKeysRegistered(site, h, j, into);
    RegisteredKeyPasses(site, h, out.key, p);
    RegisteredKeyPasses(site, h, into.key, p);
  }

  // ---- Nothing else enters the isolated tiers --------------------------------------------------------

  predicate Isolated(t: Tier) {
    t == Secure || t == Management
  }

  predicate NoDirectRules(h: seq<Step>) {
    forall j :: 0 <= j < |h| ==> !h[j].DirectRules?
  }

  /** Some relationship into the tier was declared from the tier that owns the packet's source address. */
  predicate DeclaredInto(site: Site, h: seq<Step>, t: Tier, p: Packet) {
    exists j :: 0 <= j < |h| && h[j].Relate? && h[j].src in Roster(h) && h[j].tgt in Roster(h)
      && RelationInto(site, Roster(h)[h[j].src].role, Roster(h)[h[j].tgt].role, h[j], t, p)
  }

  predicate RelationInto(site: Site, src: Option<Role>, tgt: Option<Role>, step: Step, t: Tier, p: Packet)
    requires step.Relate?
  {
    && CrossTier(src, tgt) && tgt.value.tier == t
    && Contains(TierCidr(site.tiers, src.value.tier), p.source.address)
    && OpensPort(step, tgt, p.port)
  }

  /**
   The compute instance that first finalised the network sits in the tier, and the packet is SSH from the private tier.
   */
  predicate ComputeOpened(site: Site, h: seq<Step>, t: Tier, p: Packet) {
    && (exists j :: 0 <= j < |h| && h[j] == BuildCompute(t) && !Closed(h[..j]))
    && p.port == SSH && Contains(site.tiers.private, p.source.address)
  }

  /** What one step can put on the ingress list of an isolated tier. */
  predicate IngressExplained(site: Site, h: seq<Step>, t: Tier, p: Packet) {
    p.protocol == TCP && (DeclaredInto(site, h, t, p) || ComputeOpened(site, h, t, p))
  }

  lemma IsolatedIngressCall(site: Site, roster: map<nat, Member>, step: Step, c: Call, t: Tier, r: Rule)
    requires Isolated(t) && c in StepCalls(site, roster, step) && !step.DirectRules?
    requires r in CallLists(c).At(t, Ingress)
    ensures c.Unique? && r == c.rule && KeyTier(c.key) == t && (c.key.CrossIngress? || c.key == ComputeSsh(t))
    ensures c.key.CrossIngress? ==>
              && step.Relate? && step.src in roster && step.tgt in roster
              && CrossTier(roster[step.src].role, roster[step.tgt].role)
              && c.key.target == roster[step.tgt].role.value.tier && c.key.source == roster[step.src].role.value.tier
              && OpensPort(step, roster[step.tgt].role, c.key.port)
    ensures c.key == ComputeSsh(t) ==> step == BuildCompute(t)
  {
    if c.Unique? {
      OnlyAt(c.tier, c.dir, [c.rule], t, Ingress);
      StepCallsCoherent(site, roster, step, c);
    }
  }

  /**
   Ingress exactness: with no direct rule calls, the secure and management lists, pending and materialised, admit a
   packet if and only if it is TCP and was declared into the tier, or is the SSH of the compute instance that finalised
   the network there.
   */
  lemma IsolatedIngressExact(site: Site, h: seq<Step>, t: Tier, p: Packet)
    requires RunOn(site, h).Ok() && NoDirectRules(h) && Isolated(t) && p.protocol != ALL && p.port >= 0
    ensures var v := RunOn(site, h).state.vcn;
            && (ListAdmits(v.pending.At(t, Ingress), Ingress, p) <==> IngressExplained(site, h, t, p))
            && (v.finalized ==>
                  && |v.created| == 1
                  && (ListAdmits(v.created[0].lists.At(t, Ingress), Ingress, p) <==> IngressExplained(site, h, t, p)))
  {
    hide Run, Roster, Closed, ListsOf, ListAdmits, DeclaredInto, ComputeOpened, GroupsMatch;
    RunsAgree(site, h);
    if ListAdmits(ListsOf(site, h).At(t, Ingress), Ingress, p) {
      AdmittedWasDeclared(site, h, t, p);
    }
    if p.protocol == TCP && DeclaredInto(site, h, t, p) {
      DeclaredIsAdmitted(site, h, t, p);
    }
    if p.protocol == TCP && ComputeOpened(site, h, t, p) {
      ComputeIsAdmitted(site, h, t, p);
    }
  }

  lemma ComputeIsAdmitted(site: Site, h: seq<Step>, t: Tier, p: Packet)
    requires Isolated(t) && p.protocol == TCP && ComputeOpened(site, h, t, p)
    ensures ListAdmits(ListsOf(site, h).At(t, Ingress), Ingress, p)
  {
    var j :| 0 <= j < |h| && h[j] == BuildCompute(t) && !Closed(h[..j]);
    var c := ComputeCalls(site.tiers, t)[0];
    OpenCallsStay(site, h, j, c);
    RegisteredKeyAdmits(site, h, ComputeSsh(t), p);
  }

  lemma AdmittedWasDeclared(site: Site, h: seq<Step>, t: Tier, p: Packet)
    requires AllAllowed(site, h) && NoDirectRules(h) && Isolated(t) && p.protocol != ALL
    requires ListAdmits(ListsOf(site, h).At(t, Ingress), Ingress, p)
    ensures p.protocol == TCP && (DeclaredInto(site, h, t, p) || ComputeOpened(site, h, t, p))
  {
    hide Roster, CallsOf, ListsOf, Accepted, Closed, Contains, CrossTier, OpensPort;
    var r :| r in ListsOf(site, h).At(t, Ingress) && Admits(r, Ingress, p);
    ListedOrigin(site, h, t, Ingress, r);
    var c :| c in Accepted(CallsOf(site, h)) && r in CallLists(c).At(t, Ingress);
    AcceptedWithin(CallsOf(site, h), c);
    var j := CallOrigin(site, h, c);
    IsolatedIngressCall(site, Roster(h[..j]), h[j], c, t, r);
    StepCallsCoherent(site, Roster(h[..j]), h[j], c);
    BareAdmits(r, Ingress, p);
    if c.key.CrossIngress? {
      RelateEnds(site, h, j);
      assert RelationInto(site, Roster(h)[h[j].src].role, Roster(h)[h[j].tgt].role, h[j], t, p);
    }
  }

  lemma DeclaredIsAdmitted(site: Site, h: seq<Step>, t: Tier, p: Packet)
    requires AllAllowed(site, h) && p.protocol == TCP && p.port >= 0 && DeclaredInto(site, h, t, p)
    ensures ListAdmits(ListsOf(site, h).At(t, Ingress), Ingress, p)
  {
    var j :| 0 <= j < |h| && h[j].Relate? && h[j].src in Roster(h) && h[j].tgt in Roster(h)
      && RelationInto(site, Roster(h)[h[j].src].role, Roster(h)[h[j].tgt].role, h[j], t, p);
    RelateEnds(site, h, j);
    RelateKeys(site, Roster(h[..j]), h[j], p.port);
    var s := Roster(h)[h[j].src].role.value.tier;
    var into :| into in StepCalls(site, Roster(h[..j]), h[j]) && into.Unique? && into.key == CrossIngress(t, p.port, s);
    DeclaredKeysRegistered(site, h, j, into);
    RegisteredKeyAdmits(site, h, into.key, p);
  }
}
