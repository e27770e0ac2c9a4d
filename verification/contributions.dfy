/** Where the rules in the security lists come from, and what a registered fingerprint guarantees. */
module Contributions {
  import opened Agreement
  import opened Fingerprints
  import opened History
  import opened Networks
  import opened Nsgs
  import opened Programs
  import opened Rules
  import opened VcnBuilder

  // ---- A key determines its rule ---------------------------------------------------------------------

  function KeyTier(k: Key): Tier {
    match k
    case PublicIngress(_) => Public
    case EgressServices(tier) => tier
    case EgressInternet(tier) => tier
    case CrossEgress(source, _, _) => source
    case CrossIngress(target, _, _) => target
    case ComputeSsh(tier) => tier
    case BastionSsh => Private
    case LbPublic(_) => Public
    case LbPrivate => Private
  }

  function KeyDirection(k: Key): Direction {
    if k.EgressServices? || k.EgressInternet? || k.CrossEgress? then Egress else Ingress
  }

  /** The rule every caller of a key supplies, up to its description. */
  function KeyRule(site: Site, k: Key): Rule {
    match k
    case PublicIngress(port) => TcpRule(port, Cidr(INTERNET), Blank)
    case EgressServices(_) => AllRule(Services, Blank)
    case EgressInternet(_) => AllRule(Cidr(INTERNET), Blank)
    case CrossEgress(_, port, target) => TcpRule(port, Cidr(TierCidr(site.tiers, target)), Blank)
    case CrossIngress(_, port, source) => TcpRule(port, Cidr(TierCidr(site.tiers, source)), Blank)
    case ComputeSsh(tier) => TcpRule(SSH, Cidr(if tier == Private then site.tiers.public else site.tiers.private),
        Blank)
    case BastionSsh => TcpRule(SSH, Cidr(INTERNET), Blank)
    case LbPublic(port) => TcpRule(port, Cidr(INTERNET), Blank)
    case LbPrivate => TcpRule(80, Cidr(site.cidr), Blank)
  }

  predicate Coherent(site: Site, c: Call) {
    c.Unique? ==> c.tier == KeyTier(c.key) && c.dir == KeyDirection(c.key) && Bare(c.rule) == KeyRule(site, c.key)
  }

  /** Every spell that shares a fingerprint supplies the same rule to the same list. */
  lemma StepCallsCoherent(site: Site, roster: map<nat, Member>, step: Step, c: Call)
    requires c in StepCalls(site, roster, step)
    ensures Coherent(site, c)
  {
  }

  // ---- Calls and histories ---------------------------------------------------------------------------

  /** A contribution belongs to a step that ran while the network was open. */
  lemma {:induction false} CallOrigin(site: Site, h: seq<Step>, c: Call) returns (j: nat)
    requires c in CallsOf(site, h)
    ensures j < |h| && !Closed(h[..j]) && c in StepCalls(site, Roster(h[..j]), h[j])
    decreases |h|
  {
    var init := h[..|h| - 1];
    if c in CallsOf(site, init) {
      j := CallOrigin(site, init, c);
      assert init[..j] == h[..j];
    } else {
      j := |h| - 1;
    }
  }

  lemma {:induction false} AllCoherent(site: Site, h: seq<Step>, c: Call)
    requires c in CallsOf(site, h)
    ensures Coherent(site, c)
  {
    var j := CallOrigin(site, h, c);
    StepCallsCoherent(site, Roster(h[..j]), h[j], c);
  }

  lemma ClosedGrows(h: seq<Step>, j: nat)
    requires j <= |h| && Closed(h[..j])
    ensures Closed(h)
  {
    var k :| 0 <= k < j && Finalising(h[..j][k]);
    assert Finalising(h[k]);
  }

  lemma {:induction false} CallsGrow(site: Site, h: seq<Step>, j: nat, c: Call)
    requires j <= |h| && c in CallsOf(site, h[..j])
    ensures c in CallsOf(site, h)
    decreases |h|
  {
    if j == |h| {
      assert h[..j] == h;
    } else {
      assert h[..|h| - 1][..j] == h[..j];
      CallsGrow(site, h[..|h| - 1], j, c);
    }
  }

  /** What a step contributes to an open network stays contributed. */
  lemma OpenCallsStay(site: Site, h: seq<Step>, j: nat, c: Call)
    requires j < |h| && !Closed(h[..j]) && c in StepCalls(site, Roster(h[..j]), h[j])
    ensures c in CallsOf(site, h)
  {
    assert h[..j + 1] == h[..j] + [h[j]];
    Snoc(site, h[..j], h[j]);
    CallsGrow(site, h, j + 1, c);
  }

  /**
   Deduplication and late declarations lose nothing: in a run that raises nothing, every fingerprinted contribution of
   an NSG step is registered, whether it was first, repeated, or made after finalisation.
   */
  lemma DeclaredKeysRegistered(site: Site, h: seq<Step>, j: nat, c: Call)
    requires AllAllowed(site, h) && j < |h| && (GroupStep(h[j]) || !Closed(h[..j]))
    requires c in StepCalls(site, Roster(h[..j]), h[j]) && c.Unique?
    ensures c.key in KeysIn(CallsOf(site, h))
  {
    if Closed(h[..j]) {
      assert Allowed(site, h[..j], h[j]);
      var first :| first in CallsOf(site, h[..j]) && first.Unique? && first.key == c.key;
      CallsGrow(site, h, j, first);
    } else {
      OpenCallsStay(site, h, j, c);
    }
  }

  // ---- Accepted calls and gathered rules -------------------------------------------------------------

  lemma {:induction false} AcceptedWithin(calls: seq<Call>, c: Call)
    requires c in Accepted(calls)
    ensures c in calls
    decreases |calls|
  {
    if calls != [] && c in Accepted(calls[..|calls| - 1]) {
      AcceptedWithin(calls[..|calls| - 1], c);
    }
  }

  /** Exactly one call per key is accepted, and it is the first that asked for it. */
  lemma {:induction false} FirstCallerWins(calls: seq<Call>, k: Key) returns (i: nat, a: nat)
    requires k in KeysIn(calls)
    ensures i < |calls| && calls[i].Unique? && calls[i].key == k && k !in KeysIn(calls[..i])
    ensures a < |Accepted(calls)| && Accepted(calls)[a] == calls[i]
    ensures forall b :: 0 <= b < |Accepted(calls)| && Accepted(calls)[b].Unique? && Accepted(calls)[b].key == k ==>
        b == a
    decreases |calls|
  {
    var init, last := calls[..|calls| - 1], calls[|calls| - 1];
    assert calls == init + [last];
    KeysInAppend(init, [last]);
    if k in KeysIn(init) {
      i, a := FirstCallerWins(init, k);
      assert init[..i] == calls[..i];
    } else {
      assert last in [last];
      i, a := |calls| - 1, |Accepted(init)|;
      forall b | 0 <= b < |Accepted(init)|
        ensures !(Accepted(init)[b].Unique? && Accepted(init)[b].key == k)
      {
        AcceptedWithin(init, Accepted(init)[b]);
      }
    }
  }

  /** The gathered lists hold exactly the rules of the gathered calls. */
  lemma {:induction false} GatherMember(calls: seq<Call>, t: Tier, d: Direction, r: Rule)
    ensures r in Gather(calls).At(t, d) <==> exists c :: c in calls && r in CallLists(c).At(t, d)
    decreases |calls|
  {
    if calls != [] {
      var init, last := calls[..|calls| - 1], calls[|calls| - 1];
      assert calls == init + [last];
      GatherMember(init, t, d, r);
      JoinAt(Gather(init), CallLists(last), t, d);
    }
  }

  /** A rule of the lists is a standard rule or was contributed by an accepted call. */
  lemma {:induction false} ListedOrigin(site: Site, h: seq<Step>, t: Tier, d: Direction, r: Rule)
    ensures r in ListsOf(site, h).At(t, d) <==>
            || r in Seed(site.cidr).At(t, d)
            || (Closed(h) && r in BASELINE.At(t, d))
            || exists c :: c in Accepted(CallsOf(site, h)) && r in CallLists(c).At(t, d)
  {
    var gathered := Gather(Accepted(CallsOf(site, h)));
    GatherMember(Accepted(CallsOf(site, h)), t, d, r);
    JoinAt(Seed(site.cidr), gathered, t, d);
    JoinAt(Join(Seed(site.cidr), gathered), BASELINE, t, d);
  }

  /** A registered key's rule is in its list. */
  lemma {:induction false} RegisteredKeyListed(site: Site, h: seq<Step>, k: Key) returns (r: Rule)
    requires k in KeysIn(CallsOf(site, h))
    ensures r in ListsOf(site, h).At(KeyTier(k), KeyDirection(k)) && Bare(r) == KeyRule(site, k)
  {
    var i, a := FirstCallerWins(CallsOf(site, h), k);
    var c := CallsOf(site, h)[i];
    AllCoherent(site, h, c);
    r := c.rule;
    OnlyAt(c.tier, c.dir, [r], KeyTier(k), KeyDirection(k));
    assert c in Accepted(CallsOf(site, h)) && r in CallLists(c).At(KeyTier(k), KeyDirection(k));
    ListedOrigin(site, h, KeyTier(k), KeyDirection(k), r);
  }

  lemma BareAdmits(r: Rule, d: Direction, p: Packet)
    ensures Admits(r, d, p) == Admits(Bare(r), d, p)
  {
  }

  /** A packet the rule of a registered key admits is admitted by the list. */
  lemma {:induction false} RegisteredKeyAdmits(site: Site, h: seq<Step>, k: Key, p: Packet)
    requires k in KeysIn(CallsOf(site, h)) && Admits(KeyRule(site, k), KeyDirection(k), p)
    ensures ListAdmits(ListsOf(site, h).At(KeyTier(k), KeyDirection(k)), KeyDirection(k), p)
  {
    var r := RegisteredKeyListed(site, h, k);
    BareAdmits(r, KeyDirection(k), p);
  }

  /**
   Fingerprint soundness: after a run that raises nothing a fingerprint is registered if and only if exactly one
   accepted contribution carries its key; the pending lists are the standard rules and the accepted contributions.
   */
  lemma {:induction false} FingerprintSoundness(site: Site, h: seq<Step>, k: Key)
    requires RunOn(site, h).Ok()
    ensures var v, accepted := RunOn(site, h).state.vcn, Accepted(CallsOf(site, h));
            && (Render(k) in v.fingerprints <==>
                exists a :: 0 <= a < |accepted| && accepted[a].Unique? && accepted[a].key == k)
            && (forall a, b :: 0 <= a < b < |accepted| && accepted[a].Unique? && accepted[b].Unique?
                               ==> accepted[a].key != accepted[b].key)
            && (forall fp :: fp in v.fingerprints ==> exists key :: fp == Render(key) && key in KeysIn(accepted))
            && v.pending == ListsOf(site, h)
  {
    RunsAgree(site, h);
    var calls := CallsOf(site, h);
    var accepted := Accepted(calls);
    PrintsMember(k, KeysIn(calls));
    forall key | key in KeysIn(calls)
      ensures exists a :: 0 <= a < |accepted| && accepted[a].Unique? && accepted[a].key == key
    {
      var i, a := FirstCallerWins(calls, key);
    }
    forall a | 0 <= a < |accepted|
      ensures accepted[a] in calls
    {
      AcceptedWithin(calls, accepted[a]);
    }
    forall a, b | 0 <= a < b < |accepted| && accepted[a].Unique? && accepted[b].Unique?
      ensures accepted[a].key != accepted[b].key
    {
      if accepted[a].key == accepted[b].key {
        assert accepted[a] in calls && accepted[a].key in KeysIn(calls);
        var i, w := FirstCallerWins(calls, accepted[a].key);
      }
    }
    forall fp | fp in RunOn(site, h).state.vcn.fingerprints
      ensures exists key :: fp == Render(key) && key in KeysIn(accepted)
    {
      var key :| key in KeysIn(calls) && fp == Render(key);
      var a :| 0 <= a < |accepted| && accepted[a].Unique? && accepted[a].key == key;
      assert accepted[a] in accepted;
    }
  }
}
