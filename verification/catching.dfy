/** What holds after every run, including runs whose program catches exceptions and carries on, and what then fails. */
module CaughtExceptions {
  import opened History
  import opened Networks
  import opened Nsgs
  import opened Oke
  import opened Programs
  import opened Rules
  import opened Spells
  import opened Text
  import opened VcnBuilder
  import opened Wrappers

  // ---- Lists and subnets are created once and never change -------------------------------------------

  /**
   The network has been materialised at most once, from lists that still stand and that end with the baseline rules.
   */
  ghost predicate OneShot(v: VcnState) {
    && v.created == (if v.finalized then [Materialised(v.pending, v.tiers)] else [])
    && (v.finalized ==> exists open :: v.pending == Join(open, BASELINE))
  }

  /** From one state to a later one: a finalised network keeps its rules and what was created from them. */
  predicate Frozen(v: VcnState, w: VcnState) {
    v.finalized ==> SameNetwork(v, w)
  }

  lemma FinalizeKeeps(v: VcnState)
    requires OneShot(v)
    ensures OneShot(Finalize(v).state) && Frozen(v, Finalize(v).state)
  {
    FinalizeOnce(v);
    if !v.finalized {
      assert Finalized(v).pending == Join(v.pending, BASELINE);
    }
  }

  lemma FlowLogsKeep(v: VcnState, retention: int)
    requires OneShot(v)
    ensures OneShot(CreateFlowLogs(v, retention).state) && Frozen(v, CreateFlowLogs(v, retention).state)
  {
    FinalizeKeeps(v);
  }

  lemma CallKeeps(v: VcnState, c: Call)
    requires OneShot(v)
    ensures OneShot(RunCall(v, c).state) && Frozen(v, RunCall(v, c).state)
  {
    if v.finalized {
      var open :| v.pending == Join(open, BASELINE);
      assert RunCall(v, c).state.pending == Join(open, BASELINE);
    }
  }

  lemma {:induction false} CallsKeep(v: VcnState, calls: seq<Call>)
    requires OneShot(v)
    ensures OneShot(RunCalls(v, calls).state) && Frozen(v, RunCalls(v, calls).state)
    decreases |calls|
  {
    hide OneShot;
    if calls != [] {
      var o := RunCall(v, calls[0]);
      CallKeeps(v, calls[0]);
      if o.Ok() {
        CallsKeep(o.state, calls[1..]);
      }
    }
  }

  lemma ContributeKeeps(v: VcnState, calls: seq<Call>)
    requires OneShot(v)
    ensures OneShot(Contribute(v, calls).state) && Frozen(v, Contribute(v, calls).state)
  {
    hide OneShot, RunCalls, Finalize;
    CallsKeep(v, calls);
    if RunCalls(v, calls).Ok() {
      FinalizeKeeps(RunCalls(v, calls).state);
    }
  }

  lemma EffectKeeps(v: VcnState, step: Step)
    requires OneShot(v) && !GroupStep(step)
    ensures OneShot(VcnEffect(v, step).state) && Frozen(v, VcnEffect(v, step).state)
  {
    hide OneShot, Finalize, CreateFlowLogs, Contribute, ComputeCalls, LoadBalancerCalls, InternalLoadBalancerCalls,
        WorkloadCalls, OkeCalls;
    match step
    case DirectRules(lists) => CallKeeps(v, Direct(lists));
    case BuildCompute(subnet) => ContributeKeeps(v, if v.finalized then [] else ComputeCalls(v.tiers, subnet));
    case BuildBastion => ContributeKeeps(v, if v.finalized then [] else BASTION_CALLS);
    case BuildLoadBalancer(port) => ContributeKeeps(v, LoadBalancerCalls(v.tiers, port));
    case BuildInternalLoadBalancer(port) => ContributeKeeps(v, InternalLoadBalancerCalls(v.cidr, v.tiers, port));
    case BuildWorkload(isPublic, port) => ContributeKeeps(v, WorkloadCalls(v.cidr, v.tiers, isPublic, port));
    case BuildCluster(kubectl) => ContributeKeeps(v, OkeCalls(v.tiers, AllowedCidrs(kubectl)));
    case BuildFlowLogs(retention) => FlowLogsKeep(v, retention);
    case FinalizeExplicitly => FinalizeKeeps(v);
  }

  lemma ExecKeeps(s: ProgramState, step: Step)
    requires OneShot(s.vcn)
    ensures OneShot(Exec(s, step).state.vcn) && Frozen(s.vcn, Exec(s, step).state.vcn)
  {
    hide OneShot, RunCalls, RunGrants, VcnEffect;
    match step
    case BuildNsg(id, _, role, ports) =>
      if role.Some? {
        CallsKeep(s.vcn, AmbientCalls(role.value, ports));
      }
    case Relate(src, tgt, port, withSsh) =>
      if src in s.groups && tgt in s.groups {
        CallsKeep(s.vcn, ServesCalls(s.vcn.tiers, s.groups[src].role, s.groups[tgt].role, port, withSsh));
      }
    case ManualRule(_, _, _, _) =>
    case _ => EffectKeeps(s.vcn, step);
  }

  lemma {:induction false} CatchingKeeps(start: ProgramState, h: seq<Step>, j: nat)
    requires OneShot(start.vcn) && j <= |h|
    ensures var before, after := RunCatching(start, h[..j]).vcn, RunCatching(start, h).vcn;
            OneShot(after) && Frozen(before, after)
    decreases |h|
  {
    hide OneShot, Exec;
    assert h[..|h|] == h;
    if |h| > 0 {
      var init := h[..|h| - 1];
      CatchingKeeps(start, init, if j < |h| then j else |init|);
      assert j < |h| ==> init[..j] == h[..j];
      ExecKeeps(RunCatching(start, init), h[|h| - 1]);
      if j == |h| {
        FrozenReflexive(RunCatching(start, h).vcn);
      }
    }
  }

  lemma FrozenReflexive(v: VcnState)
    ensures Frozen(v, v)
  {
  }

  /** A fresh network meets the condition. */
  lemma StartsOneShot(cidr: Network, tiers: TierCidrs, settings: FlowLogSettings)
    ensures OneShot(Initial(cidr, tiers, settings).vcn)
  {
  }

  /**
   Finalisation is one-shot in every run, whatever raises and whatever is caught: the lists and subnets are created
   once, with the baseline egress, and no later step changes them.
   */
  lemma {:induction false} FinalisedOnceForAll(site: Site, h: seq<Step>, j: nat)
    requires j <= |h|
    ensures var before, after := CatchingOn(site, h[..j]).vcn, CatchingOn(site, h).vcn;
            OneShot(after) && Frozen(before, after)
  {
    hide OneShot, RunCatching;
    StartsOneShot(site.cidr, site.tiers, site.settings);
    CatchingKeeps(Initial(site.cidr, site.tiers, site.settings), h, j);
  }

  /** What was materialised is what the pending lists still say. */
  lemma {:induction false} MaterialisedOnce(site: Site, h: seq<Step>)
    ensures var v := CatchingOn(site, h).vcn;
            v.finalized ==> |v.created| == 1 && v.created[0].lists == v.pending
  {
    hide RunCatching;
    FinalisedOnceForAll(site, h, |h|);
  }

  lemma CatchingSnoc(site: Site, h: seq<Step>, step: Step)
    ensures CatchingOn(site, h + [step]) == Exec(CatchingOn(site, h), step).state
  {
    assert (h + [step])[..|h|] == h;
  }

  lemma {:induction false} CatchingAppend(site: Site, h: seq<Step>, more: seq<Step>)
    ensures CatchingOn(site, h + more) == RunCatching(CatchingOn(site, h), more)
    decreases |more|
  {
    hide Exec;
    if more == [] {
      assert h + more == h;
    } else {
      var init := more[..|more| - 1];
      assert h + more == h + init + [more[|more| - 1]];
      CatchingAppend(site, h, init);
      CatchingSnoc(site, h + init, more[|more| - 1]);
    }
  }

  // ---- NSG rules are labelled and numbered without repetition ----------------------------------------

  ghost predicate WellNumbered(n: NsgState) {
    && n.nextIndex == |n.rules| == |n.labels|
    && (forall i :: 0 <= i < |n.rules| ==>
        n.rules[i].tag in n.labels && n.rules[i].slot == OrdinalSuffix("nsg-rule", i))
    && (forall i, j :: 0 <= i < j < |n.rules| ==> n.rules[i].tag != n.rules[j].tag)
  }

  /** Equal resource names mean the same rule. */
  lemma SlotsDiffer(n: NsgState, i: nat, j: nat)
    requires WellNumbered(n) && i < j < |n.rules|
    ensures n.rules[i].slot != n.rules[j].slot
  {
    if n.rules[i].slot == n.rules[j].slot {
      OrdinalSuffixInjective("nsg-rule", i, "nsg-rule", j);
    }
  }

  lemma WithRuleNumbers(n: NsgState, tag: string, d: Direction, rule: Rule)
    requires WellNumbered(n)
    ensures WellNumbered(WithRule(n, tag, d, rule).state)
  {
  }

  lemma {:induction false} GrantsNumber(m: Groups, grants: seq<Grant>)
    requires forall g :: g in grants ==> g.owner in m
    requires forall id :: id in m ==> WellNumbered(m[id])
    ensures forall id :: id in m ==> WellNumbered(RunGrants(m, grants).state[id])
    decreases |grants|
  {
    hide WellNumbered, WithRule;
    if grants != [] {
      var g := grants[0];
      WithRuleNumbers(m[g.owner], g.tag, g.dir, g.rule);
      if RunGrant(m, g).Ok() {
        GrantsNumber(RunGrant(m, g).state, grants[1..]);
      }
    }
  }

  lemma ExecNumbers(s: ProgramState, step: Step)
    requires forall id :: id in s.groups ==> WellNumbered(s.groups[id])
    ensures forall id :: id in Exec(s, step).state.groups ==> WellNumbered(Exec(s, step).state.groups[id])
  {
    hide WellNumbered, RunCalls, WithRule, VcnEffect, ServesCalls, AmbientCalls;
    match step
    case BuildNsg(id, name, role, ports) =>
      EmptyNumbered(name, role);
      if role.Some? {
        GrantsNumber(map[id := Empty(name, role)], AmbientGrants(id, role.value, ports));
      }
    case Relate(src, tgt, port, withSsh) =>
      if src in s.groups && tgt in s.groups {
        GrantsNumber(s.groups, ServesGrants(MemberOf(s.groups, src), MemberOf(s.groups, tgt), port, withSsh));
      }
    case ManualRule(id, tag, d, rule) =>
      if id in s.groups {
        WithRuleNumbers(s.groups[id], tag, d, rule);
      }
    case _ =>
  }

  lemma EmptyNumbered(name: string, role: Option<Role>)
    ensures WellNumbered(Empty(name, role))
  {
  }

  /** In every NSG of every run the next index counts the labels, and all rule labels and resource names differ. */
  lemma {:induction false} RulesNumberedApart(start: ProgramState, h: seq<Step>, id: nat)
    requires start.groups == map[] && id in RunCatching(start, h).groups
    ensures var n := RunCatching(start, h).groups[id];
            && n.nextIndex == |n.labels| == |n.rules|
            && (forall i, j :: 0 <= i < j < |n.rules| ==>
                n.rules[i].tag != n.rules[j].tag && n.rules[i].slot != n.rules[j].slot)
  {
    AllNumbered(start, h);
    var n := RunCatching(start, h).groups[id];
    forall i, j | 0 <= i < j < |n.rules|
      ensures n.rules[i].slot != n.rules[j].slot
    {
      SlotsDiffer(n, i, j);
    }
  }

  lemma {:induction false} AllNumbered(start: ProgramState, h: seq<Step>)
    requires start.groups == map[]
    ensures forall id :: id in RunCatching(start, h).groups ==> WellNumbered(RunCatching(start, h).groups[id])
    decreases |h|
  {
    hide WellNumbered, Exec;
    if h != [] {
      AllNumbered(start, h[..|h| - 1]);
      ExecNumbers(RunCatching(start, h[..|h| - 1]), h[|h| - 1]);
    }
  }
}
