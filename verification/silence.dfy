/**
 A program whose caught failures leave declared relationships without traffic: application and database NSGs, related
 too late.
 */
module SilencedPrograms {
  import opened Agreement
  import opened CaughtExceptions
  import opened Fingerprints
  import opened History
  import opened Nsgs
  import opened Programs
  import opened Retries
  import opened Rules
  import opened Text
  import opened VcnBuilder
  import opened Wrappers

  /** n application NSGs with even handles, each followed by a database NSG. */
  function Pairs(n: nat): seq<Step> {
    if n == 0 then []
    else Pairs(n - 1) + [BuildNsg(2 * n - 2, "app-" + Decimal(n), Some(APP_SERVER), [])]
                      + [BuildNsg(2 * n - 1, "db-" + Decimal(n), Some(DATABASE), [])]
  }

  /** Each application NSG serves its database NSG. */
  function Relations(n: nat, port: nat): seq<Step> {
    seq(n, i requires 0 <= i < n => Relate(2 * i, 2 * i + 1, port, true))
  }

  // ---- What the program builds -----------------------------------------------------------------------

  /** No cross-tier rule has been asked for, and nothing may enter the secure tier. */
  ghost predicate NoLinks(v: VcnState) {
    && (forall k: Key :: k.CrossEgress? || k.CrossIngress? ==> Render(k) !in v.fingerprints)
    && v.pending.At(Secure, Ingress) == []
  }

  ghost predicate NoRelationLabels(labels: set<string>) {
    forall l: Label :: l.Out? || l.In? || l.OutSsh? || l.InSsh? ==> RenderLabel(l) !in labels
  }

  ghost predicate Built(m: Groups, n: nat) {
    && (forall id: nat :: id in m <==> id < n)
    && forall id :: id in m ==>
        m[id].role == Some(if id % 2 == 0 then APP_SERVER else DATABASE) && NoRelationLabels(m[id].labels)
  }

  /** A fingerprinted rule that is no cross-tier rule and not for traffic into the secure tier. */
  predicate Ambient(c: Call) {
    c.Unique? && !c.key.CrossEgress? && !c.key.CrossIngress? && c.dir == Egress
  }

  lemma {:induction false} AmbientCallKeeps(v: VcnState, c: Call)
    requires !v.finalized && NoLinks(v) && Ambient(c)
    ensures RunCall(v, c).Ok() && !RunCall(v, c).state.finalized && NoLinks(RunCall(v, c).state)
  {
    hide Render;
    var after := RunCall(v, c).state;
    forall k: Key | k.CrossEgress? || k.CrossIngress?
      ensures Render(k) !in after.fingerprints
    {
      if Render(k) == Render(c.key) {
        RenderInjective(k, c.key);
      }
    }
    OnlyAt(c.tier, c.dir, [c.rule], Secure, Ingress);
    JoinAt(v.pending, Only(c.tier, c.dir, [c.rule]), Secure, Ingress);
  }

  lemma {:induction false} AmbientCallsKeep(v: VcnState, calls: seq<Call>)
    requires !v.finalized && NoLinks(v) && forall c :: c in calls ==> Ambient(c)
    ensures RunCalls(v, calls).Ok() && !RunCalls(v, calls).state.finalized && NoLinks(RunCalls(v, calls).state)
    decreases |calls|
  {
    hide NoLinks, RunCall, Ambient;
    if calls != [] {
      AmbientCallKeeps(v, calls[0]);
      AmbientCallsKeep(RunCall(v, calls[0]).state, calls[1..]);
    }
  }

  /** Every label in use was there before or belongs to one of the grants. */
  lemma {:induction false} LabelsFrom(m: Groups, grants: seq<Grant>, id: nat, tag: string)
    requires (forall g :: g in grants ==> g.owner in m) && id in m && tag in RunGrants(m, grants).state[id].labels
    ensures tag in m[id].labels || exists g :: g in grants && g.tag == tag
    decreases |grants|
  {
    if grants != [] {
      assert grants[0] in grants;
      if RunGrant(m, grants[0]).Ok() {
        LabelsFrom(RunGrant(m, grants[0]).state, grants[1..], id, tag);
      }
    }
  }

  lemma {:induction false} AmbientLabelsOnly(id: nat, name: string, role: Role)
    requires role.tier != Public
    ensures var n := RunGrants(map[id := Empty(name, Some(role))], AmbientGrants(id, role, [])).state[id];
            NoRelationLabels(n.labels)
  {
    hide RenderLabel, RunGrants;
    var m: Groups := map[id := Empty(name, Some(role))];
    var n := RunGrants(m, AmbientGrants(id, role, [])).state[id];
    forall l: Label | (l.Out? || l.In? || l.OutSsh? || l.InSsh?) && RenderLabel(l) in n.labels
      ensures false
    {
      LabelsFrom(m, AmbientGrants(id, role, []), id, RenderLabel(l));
      var g :| g in AmbientGrants(id, role, []) && g.tag == RenderLabel(l);
      LabelInjective(l, if g.tag == RenderLabel(ServicesOut) then ServicesOut else InternetOut);
    }
  }

  lemma AmbientCallsAre(role: Role)
    requires role.tier != Public
    ensures forall c :: c in AmbientCalls(role, []) ==> Ambient(c)
  {
  }

  lemma {:induction false} QuietGroup(v: VcnState, id: nat, name: string, role: Role)
    requires !v.finalized && NoLinks(v) && role.tier != Public
    ensures var o := BuildGroup(v, id, name, Some(role), []);
            && o.Ok() && !o.state.0.finalized && NoLinks(o.state.0)
            && o.state.1.role == Some(role) && NoRelationLabels(o.state.1.labels)
  {
    hide NoLinks, NoRelationLabels, RunCalls, RunGrants, RenderLabel, Holds, AmbientCalls, AmbientGrants, Ambient,
        OwnedBy;
    BuiltAlone(id, name, role, []);
    AmbientLabelsOnly(id, name, role);
    AmbientCallsAre(role);
    AmbientCallsKeep(v, AmbientCalls(role, []));
  }

  /** Building an NSG for an internal tier succeeds and links nothing. */
  lemma {:induction false} QuietBuild(s: ProgramState, n: nat, name: string)
    requires !s.vcn.finalized && NoLinks(s.vcn) && Built(s.groups, n)
    ensures var after := Exec(s, BuildNsg(n, name, Some(if n % 2 == 0 then APP_SERVER else DATABASE), [])).state;
            !after.vcn.finalized && NoLinks(after.vcn) && Built(after.groups, n + 1)
  {
    hide NoLinks, NoRelationLabels, BuildGroup;
    QuietGroup(s.vcn, n, name, if n % 2 == 0 then APP_SERVER else DATABASE);
  }

  lemma {:induction false} PairsBuilt(site: Site, n: nat)
    ensures var s := CatchingOn(site, Pairs(n));
            !s.vcn.finalized && NoLinks(s.vcn) && Built(s.groups, 2 * n)
  {
    hide NoLinks, Exec, RunCatching, Built, Decimal;
    if n == 0 {
      NothingLinked(site);
    } else {
      PairsBuilt(site, n - 1);
      var app := BuildNsg(2 * n - 2, "app-" + Decimal(n), Some(APP_SERVER), []);
      var db := BuildNsg(2 * n - 1, "db-" + Decimal(n), Some(DATABASE), []);
      var s := CatchingOn(site, Pairs(n - 1));
      assert (2 * n - 2) % 2 == 0 && (2 * n - 1) % 2 == 1;
      CatchingSnoc(site, Pairs(n - 1), app);
      CatchingSnoc(site, Pairs(n - 1) + [app], db);
      QuietBuild(s, 2 * n - 2, app.name);
      QuietBuild(Exec(s, app).state, 2 * n - 1, db.name);
    }
  }

  lemma NothingLinked(site: Site)
    ensures var s := CatchingOn(site, []);
            !s.vcn.finalized && NoLinks(s.vcn) && Built(s.groups, 0)
  {
  }

  /** Finalised, with the flow logs or without: the same groups, still nothing linked. */
  lemma {:induction false} PairsFinalised(site: Site, n: nat)
    ensures var s := CatchingOn(site, Pairs(n) + [FinalizeExplicitly]);
            s.vcn.finalized && NoLinks(s.vcn) && Built(s.groups, 2 * n)
  {
    hide RunCatching, Render, Built, Finalize;
    var s := CatchingOn(site, Pairs(n));
    PairsBuilt(site, n);
    FinalizeOnce(s.vcn);
    CatchingSnoc(site, Pairs(n), FinalizeExplicitly);
    JoinAt(s.vcn.pending, BASELINE, Secure, Ingress);
  }

  // ---- What the late relationships do ----------------------------------------------------------------

  lemma {:induction false} RelationsAreFresh(m: Groups, n: nat, port: nat)
    requires Built(m, 2 * n)
    ensures FreshPairs(m, Relations(n, port), Private, Secure, port, true)
  {
    hide RenderLabel, ServesGrants;
    forall i | 0 <= i < n
      ensures FreshAcross(m, Relations(n, port)[i], Private, Secure, port, true)
    {
      assert 2 * i in m && 2 * i + 1 in m && (2 * i) % 2 == 0 && (2 * i + 1) % 2 == 1;
      RelationTags(MemberOf(m, 2 * i), MemberOf(m, 2 * i + 1), port);
    }
  }

  lemma RelationTags(a: Member, b: Member, port: nat)
    ensures forall g :: g in ServesGrants(a, b, port, true) ==>
              && (g.owner == a.id || g.owner == b.id)
              && exists l: Label :: (l.Out? || l.In? || l.OutSsh? || l.InSsh?) && g.tag == RenderLabel(l)
  {
    hide RenderLabel;
  }

  /** Four rules are missing, two when the port is SSH itself. */
  lemma {:induction false} FourMissing(v: VcnState, port: nat)
    requires NoLinks(v)
    ensures |Missing(v, LinkCalls(v.tiers, Private, Secure, port, true))| == if port == SSH then 2 else 4
  {
    hide Render;
    var calls := LinkCalls(v.tiers, Private, Secure, port, true);
    var a, b := CrossEgress(Private, port, Secure), CrossIngress(Secure, port, Private);
    var c, d := CrossEgress(Private, SSH, Secure), CrossIngress(Secure, SSH, Private);
    assert calls[0].key == a && calls[1].key == b && calls[2].key == c && calls[3].key == d && |calls| == 4;
    assert Missing(v, calls) == {a, b, c, d};
  }

  /**
   n pairs of NSGs related after finalisation, every exception caught: the first four relationships raise (two on port
   22), all others succeed, and yet no packet is admitted into the databases' tier.
   */
  lemma {:induction false} LateRelationsSilenced(site: Site, n: nat, port: nat)
    ensures var start, again := CatchingOn(site, Pairs(n) + [FinalizeExplicitly]), Relations(n, port);
            forall i :: 0 <= i < n ==>
              Exec(RunCatching(start, again[..i]), again[i]).raised
              == if i < (if port == SSH then 2 else 4) then Some(AlreadyFinalized) else None
    ensures var v := CatchingOn(site, Pairs(n) + [FinalizeExplicitly] + Relations(n, port)).vcn;
            && v.finalized && |v.created| == 1
            && v.pending.At(Secure, Ingress) == v.created[0].lists.At(Secure, Ingress) == []
  {
    hide Exec, RunCatching, FreshPairs, Missing, LinkCalls, OneShot, NoLinks, Built;
    var h := Pairs(n) + [FinalizeExplicitly];
    var start, again := CatchingOn(site, h), Relations(n, port);
    PairsFinalised(site, n);
    RelationsAreFresh(start.groups, n, port);
    FourMissing(start.vcn, port);
    FailuresSilenceOthers(start, again, Private, Secure, port, true);
    CatchingAppend(site, h, again);
    NothingAdmitted(start.vcn);
    MaterialisedOnce(site, h + again);
  }

  lemma NothingAdmitted(v: VcnState)
    requires NoLinks(v)
    ensures v.pending.At(Secure, Ingress) == []
  {
  }

  /** After four of them every fingerprint is recorded. */
  lemma {:induction false} LateRelationsRecorded(site: Site, n: nat, port: nat)
    requires n >= 4
    ensures var v := CatchingOn(site, Pairs(n) + [FinalizeExplicitly] + Relations(n, port)).vcn;
            Render(CrossEgress(Private, port, Secure)) in v.fingerprints
                && Render(CrossIngress(Secure, port, Private)) in v.fingerprints
  {
    hide Exec, RunCatching, FreshPairs, FreshAcross, Missing, LinkCalls, NoLinks, Built;
    var h := Pairs(n) + [FinalizeExplicitly];
    var start, again := CatchingOn(site, h), Relations(n, port);
    PairsFinalised(site, n);
    RelationsAreFresh(start.groups, n, port);
    FourMissing(start.vcn, port);
    LatePrefix(start, again, n, Private, Secure, port, true);
    assert again[..n] == again;
    CatchingAppend(site, h, again);
    NoneMissing(CatchingOn(site, h + again).vcn, port);
  }

  lemma NoneMissing(v: VcnState, port: nat)
    requires Missing(v, LinkCalls(v.tiers, Private, Secure, port, true)) == {}
    ensures Render(CrossEgress(Private, port, Secure)) in v.fingerprints
        && Render(CrossIngress(Secure, port, Private)) in v.fingerprints
  {
    hide Render;
    var calls, missing := LinkCalls(v.tiers, Private, Secure, port, true),
        Missing(v, LinkCalls(v.tiers, Private, Secure, port, true));
    assert calls[0].key == CrossEgress(Private, port, Secure) && calls[1].key == CrossIngress(Secure, port, Private);
    assert calls[0].key !in missing && calls[1].key !in missing;
  }
}
