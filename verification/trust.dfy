/** When a recorded fingerprint can be trusted: its rule is in force, in programs that may catch exceptions. */
module FingerprintTrust {
  import opened Agreement
  import opened CaughtExceptions
  import opened Contributions
  import opened Fingerprints
  import opened History
  import opened Nsgs
  import opened Oke
  import opened Programs
  import opened Rules
  import opened SilencedPrograms
  import opened Spells
  import opened VcnBuilder
  import opened Wrappers

  predicate Recorded(v: VcnState, k: Key) {
    Render(k) in v.fingerprints
  }

  /** The rule the key stands for is in its list, up to its description. */
  predicate KeyListed(site: Site, lists: RuleLists, k: Key) {
    exists r :: r in lists.At(KeyTier(k), KeyDirection(k)) && Bare(r) == KeyRule(site, k)
  }

  // ---- From one state to a later one -----------------------------------------------------------------

  predicate OnSite(site: Site, v: VcnState) {
    v.cidr == site.cidr && v.tiers == site.tiers
  }

  /** Nothing recorded or listed is lost; a finalised network keeps its lists; an open one records what it lists. */
  predicate Advances(site: Site, v: VcnState, w: VcnState, k: Key) {
    && w.cidr == v.cidr && w.tiers == v.tiers
    && (Recorded(v, k) ==> Recorded(w, k))
    && (KeyListed(site, v.pending, k) ==> KeyListed(site, w.pending, k))
    && (v.finalized ==> w.finalized && w.pending == v.pending)
    && (!v.finalized && (Recorded(v, k) ==> KeyListed(site, v.pending, k)) ==>
        (Recorded(w, k) ==> KeyListed(site, w.pending, k)))
  }

  lemma JoinLists(site: Site, a: RuleLists, b: RuleLists, k: Key)
    ensures KeyListed(site, a, k) || KeyListed(site, b, k) <==> KeyListed(site, Join(a, b), k)
  {
    hide KeyRule;
    JoinAt(a, b, KeyTier(k), KeyDirection(k));
  }

  lemma OwnRuleListed(site: Site, c: Call)
    requires Coherent(site, c) && c.Unique?
    ensures KeyListed(site, CallLists(c), c.key)
  {
    hide KeyRule;
    OnlyAt(c.tier, c.dir, [c.rule], KeyTier(c.key), KeyDirection(c.key));
    assert c.rule in CallLists(c).At(KeyTier(c.key), KeyDirection(c.key));
  }

  lemma {:induction false} CallAdvances(site: Site, v: VcnState, c: Call, k: Key)
    requires Coherent(site, c)
    ensures Advances(site, v, RunCall(v, c).state, k) && RunCall(v, c).state.finalized == v.finalized
  {
    hide Render, KeyListed, Coherent, Join, CallLists;
    JoinLists(site, v.pending, CallLists(c), k);
    if c.Unique? {
      OwnRuleListed(site, c);
      if Render(c.key) == Render(k) {
        RenderInjective(c.key, k);
      }
    } else {
      DirectLists(c);
    }
  }

  lemma DirectLists(c: Call)
    requires c.Direct?
    ensures CallLists(c) == c.lists
  {
  }

  lemma {:induction false} CallsAdvance(site: Site, v: VcnState, calls: seq<Call>, k: Key)
    requires forall c :: c in calls ==> Coherent(site, c)
    ensures Advances(site, v, RunCalls(v, calls).state, k) && RunCalls(v, calls).state.finalized == v.finalized
    decreases |calls|
  {
    hide RunCall, Coherent, Recorded, KeyListed;
    if calls != [] {
      CallAdvances(site, v, calls[0], k);
      if RunCall(v, calls[0]).Ok() {
        CallsAdvance(site, RunCall(v, calls[0]).state, calls[1..], k);
      }
    }
  }

  lemma {:induction false} FinalizeAdvances(site: Site, v: VcnState, k: Key)
    ensures Advances(site, v, Finalize(v).state, k) && Finalize(v).state.fingerprints == v.fingerprints
  {
    hide Render, KeyListed, Join;
    FinalizeOnce(v);
    JoinLists(site, v.pending, BASELINE, k);
  }

  lemma {:induction false} ContributeAdvances(site: Site, v: VcnState, calls: seq<Call>, k: Key)
    requires forall c :: c in calls ==> Coherent(site, c)
    ensures Advances(site, v, Contribute(v, calls).state, k)
  {
    hide RunCalls, Finalize, KeyListed, Coherent;
    CallsAdvance(site, v, calls, k);
    FinalizeAdvances(site, RunCalls(v, calls).state, k);
  }

  /** What any step calls is coherent. */
  lemma StepCoherent(site: Site, step: Step, roster: map<nat, Member>)
    ensures forall c :: c in StepCalls(site, roster, step) ==> Coherent(site, c)
  {
    hide Coherent, StepCalls;
    forall c | c in StepCalls(site, roster, step)
      ensures Coherent(site, c)
    {
      StepCallsCoherent(site, roster, step, c);
    }
  }

  lemma {:induction false} EffectAdvances(site: Site, v: VcnState, step: Step, k: Key)
    requires OnSite(site, v) && !GroupStep(step)
    ensures Advances(site, v, VcnEffect(v, step).state, k)
  {
    hide Coherent, Contribute, Finalize, KeyListed, Recorded, LoadBalancerCalls, InternalLoadBalancerCalls,
        WorkloadCalls, OkeCalls, ComputeCalls;
    var calls := StepCalls(site, map[], step);
    StepCoherent(site, step, map[]);
    ContributeAdvances(site, v, calls, k);
    ContributeAdvances(site, v, [], k);
    FinalizeAdvances(site, v, k);
    if step.DirectRules? {
      CallAdvances(site, v, Direct(step.lists), k);
    } else if step.BuildFlowLogs? {
      LogsAdvance(site, v, step.retention, k);
    }
  }

  lemma LogsAdvance(site: Site, v: VcnState, retention: int, k: Key)
    ensures Advances(site, v, CreateFlowLogs(v, retention).state, k)
  {
    FinalizeAdvances(site, v, k);
  }

  lemma {:induction false} ExecAdvances(site: Site, s: ProgramState, step: Step, k: Key)
    requires OnSite(site, s.vcn)
    ensures Advances(site, s.vcn, Exec(s, step).state.vcn, k)
  {
    hide Coherent, RunCalls, RunGrants, KeyListed, Recorded, VcnEffect, AmbientCalls, ServesCalls;
    match step
    case BuildNsg(id, name, role, ports) =>
      StepCoherent(site, step, map[]);
      if role.Some? {
        CallsAdvance(site, s.vcn, AmbientCalls(role.value, ports), k);
      }
    case Relate(src, tgt, port, withSsh) =>
      if src in s.groups && tgt in s.groups {
        var roster := map[src := MemberOf(s.groups, src)][tgt := MemberOf(s.groups, tgt)];
        StepCoherent(site, step, roster);
        CallsAdvance(site, s.vcn, ServesCalls(site.tiers, s.groups[src].role, s.groups[tgt].role, port, withSsh), k);
      }
    case ManualRule(_, _, _, _) =>
    case _ => EffectAdvances(site, s.vcn, step, k);
  }

  // ---- Over a whole run ------------------------------------------------------------------------------

  /** The VCN after the first i steps of a program that catches every exception. */
  function VcnAt(site: Site, h: seq<Step>, i: nat): VcnState
    requires i <= |h|
  {
    CatchingOn(site, h[..i]).vcn
  }

  lemma {:induction false} OneStep(site: Site, h: seq<Step>, i: nat, k: Key)
    requires i < |h| && OnSite(site, VcnAt(site, h, i))
    ensures Advances(site, VcnAt(site, h, i), VcnAt(site, h, i + 1), k)
  {
    hide RunCatching, Exec, Advances;
    assert h[..i + 1] == h[..i] + [h[i]];
    CatchingSnoc(site, h[..i], h[i]);
    ExecAdvances(site, CatchingOn(site, h[..i]), h[i], k);
  }

  /** While the network is open, a recorded key is a listed one. */
  lemma {:induction false} OpenTrust(site: Site, h: seq<Step>, i: nat, k: Key)
    requires i <= |h|
    ensures var v := VcnAt(site, h, i);
            OnSite(site, v) && (!v.finalized && Recorded(v, k) ==> KeyListed(site, v.pending, k))
    decreases i
  {
    hide KeyListed, Render;
    if i > 0 {
      hide VcnAt;
      OpenTrust(site, h, i - 1, k);
      OneStep(site, h, i - 1, k);
    }
  }

  /** Nothing recorded or listed is lost later, and a finalised network keeps its lists. */
  lemma {:induction false} Keeps(site: Site, h: seq<Step>, i: nat, j: nat, k: Key)
    requires i <= j <= |h|
    ensures var v, w := VcnAt(site, h, i), VcnAt(site, h, j);
            && (Recorded(v, k) ==> Recorded(w, k)) && (KeyListed(site, v.pending, k) ==> KeyListed(site, w.pending, k))
            && (v.finalized ==> w.finalized && w.pending == v.pending)
    decreases j
  {
    hide KeyListed, Render, VcnAt;
    if i < j {
      Keeps(site, h, i, j - 1, k);
      OpenTrust(site, h, j - 1, k);
      OneStep(site, h, j - 1, k);
    }
  }

  /** Some step that found the network open left the key recorded. */
  predicate AskedWhileOpen(site: Site, h: seq<Step>, k: Key) {
    exists i :: 0 <= i < |h| && !VcnAt(site, h, i).finalized && Recorded(VcnAt(site, h, i + 1), k)
  }

  /** Before anyone asked for the key, the finalised list already held its rule. */
  predicate HeldBefore(site: Site, h: seq<Step>, k: Key) {
    exists i :: 0 <= i <= |h| && VcnAt(site, h, i).finalized && !Recorded(VcnAt(site, h, i), k)
      && KeyListed(site, VcnAt(site, h, i).pending, k)
  }

  /** The step at which the key was recorded. */
  lemma {:induction false} FirstRecorded(site: Site, h: seq<Step>, j: nat, k: Key) returns (i: nat)
    requires j <= |h| && Recorded(VcnAt(site, h, j), k)
    ensures i < j && !Recorded(VcnAt(site, h, i), k) && Recorded(VcnAt(site, h, i + 1), k)
    decreases j
  {
    hide Render, Exec;
    if Recorded(VcnAt(site, h, j - 1), k) {
      i := FirstRecorded(site, h, j - 1, k);
    } else {
      i := j - 1;
    }
  }

  /**
   How far a fingerprint can be trusted: in any program, whatever raises and whatever is caught, the rule of a recorded
   key is in its list, pending and materialised, if and only if the key was asked for while the network was open, or
   the finalised list already held that rule before the key was asked for.
   */
  lemma {:induction false} FingerprintTrustExact(site: Site, h: seq<Step>, k: Key)
    requires Recorded(CatchingOn(site, h).vcn, k)
    ensures var v := CatchingOn(site, h).vcn;
            && (KeyListed(site, v.pending, k) <==> AskedWhileOpen(site, h, k) || HeldBefore(site, h, k))
            && (v.finalized ==> |v.created| == 1 && v.created[0].lists == v.pending)
  {
    hide KeyListed, Render, RunCatching;
    assert h[..|h|] == h;
    MaterialisedOnce(site, h);
    var first := FirstRecorded(site, h, |h|, k);
    Keeps(site, h, first, |h|, k);
    if i :| 0 <= i < |h| && !VcnAt(site, h, i).finalized && Recorded(VcnAt(site, h, i + 1), k) {
      OpenTrust(site, h, i, k);
      OneStep(site, h, i, k);
      Keeps(site, h, i + 1, |h|, k);
    }
    if i :| 0 <= i <= |h| && VcnAt(site, h, i).finalized && KeyListed(site, VcnAt(site, h, i).pending, k) {
      Keeps(site, h, i, |h|, k);
    }
  }

  // ---- Both ways it can go ---------------------------------------------------------------------------

  /** Recorded and not in force: application and database NSGs related too late, four pairs or more. */
  lemma {:induction false} RecordedWithoutRule(site: Site, n: nat, port: nat)
    requires n >= 4
    ensures var h, k := Pairs(n) + [FinalizeExplicitly] + Relations(n, port), CrossIngress(Secure, port, Private);
            var v := CatchingOn(site, h).vcn;
            Recorded(v, k) && !KeyListed(site, v.pending, k) && !AskedWhileOpen(site, h, k) && !HeldBefore(site, h, k)
  {
    hide Render, RunCatching, AskedWhileOpen, HeldBefore, Pairs;
    var h, k := Pairs(n) + [FinalizeExplicitly] + Relations(n, port), CrossIngress(Secure, port, Private);
    LateRelationsSilenced(site, n, port);
    LateRelationsRecorded(site, n, port);
    FingerprintTrustExact(site, h, k);
  }

  lemma {:induction false} FinalisedFirst(site: Site)
    ensures var s := CatchingOn(site, [FinalizeExplicitly]);
            && s.vcn.finalized && s.vcn.fingerprints == {} && s.groups == map[]
            && KeyListed(site, s.vcn.pending, EgressServices(Private))
  {
    var start := Initial(site.cidr, site.tiers, site.settings);
    CatchingSnoc(site, [], FinalizeExplicitly);
    assert [] + [FinalizeExplicitly] == [FinalizeExplicitly];
    FinalizeOnce(start.vcn);
    assert KeyListed(site, BASELINE, EgressServices(Private)) by {
      var r := BASELINE.At(Private, Egress)[1];
      assert r in BASELINE.At(Private, Egress) && Bare(r) == KeyRule(site, EgressServices(Private));
    }
    JoinLists(site, start.vcn.pending, BASELINE, EgressServices(Private));
  }

  lemma {:induction false} LateApp(s: ProgramState, name: string)
    requires s.vcn.finalized && s.vcn.fingerprints == {} && s.groups == map[]
    ensures var o := Exec(s, BuildNsg(0, name, Some(APP_SERVER), []));
            && o.raised == Some(AlreadyFinalized)
            && o.state.vcn == s.vcn.(fingerprints := {Render(EgressServices(Private))})
  {
    hide Render, RunGrants, Holds, OwnedBy, RenderLabel;
    BuiltAlone(0, name, APP_SERVER, []);
    var calls := AmbientCalls(APP_SERVER, []);
    assert calls == [calls[0]] + [calls[1]];
    RunCallsStep(s.vcn, calls[0], [calls[1]]);
  }

  /** Recorded too late and still in force: an application NSG's services egress, which the baseline holds. */
  lemma {:induction false} LateServicesHeld(site: Site)
    ensures var h, k := [FinalizeExplicitly, BuildNsg(0, "app", Some(APP_SERVER), [])], EgressServices(Private);
            var v := CatchingOn(site, h).vcn;
            && Exec(CatchingOn(site, h[..1]), h[1]).raised == Some(AlreadyFinalized)
            && Recorded(v, k) && HeldBefore(site, h, k) && KeyListed(site, v.pending, k)
  {
    hide Render, RunCatching, KeyListed, Exec;
    var h, k := [FinalizeExplicitly, BuildNsg(0, "app", Some(APP_SERVER), [])], EgressServices(Private);
    assert h[..1] == [FinalizeExplicitly] && h == h[..1] + [h[1]];
    FinalisedFirst(site);
    LateApp(CatchingOn(site, h[..1]), "app");
    CatchingSnoc(site, h[..1], h[1]);
    assert VcnAt(site, h, 1) == CatchingOn(site, h[..1]).vcn;
    assert HeldBefore(site, h, k);
    FingerprintTrustExact(site, h, k);
  }
}
