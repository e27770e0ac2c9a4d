/** Construction order: which programs raise, and what no order can break. */
module Ordering {
  import opened Agreement
  import opened Contributions
  import opened Fingerprints
  import opened History
  import opened Nsgs
  import opened Programs
  import opened Spells
  import opened VcnBuilder
  import opened Wrappers

  // ---- Which programs raise, in terms a reader can check ---------------------------------------------

  /** The step at i is the first to finalise the network. */
  predicate FirstFinaliser(h: seq<Step>, i: nat) {
    i < |h| && Finalising(h[i]) && !Closed(h[..i])
  }

  /**
   Spells with direct rule calls, and direct calls themselves, come before any finaliser; bastions follow only a
   bastion.
   */
  predicate OrderRespected(h: seq<Step>) {
    && (forall i, j :: 0 <= i < j < |h| && Finalising(h[i]) ==> !DirectCaller(h[j]) && !h[j].DirectRules?)
    && (forall i, j :: 0 <= i < j < |h| && FirstFinaliser(h, i) && h[j].BuildBastion? ==> h[i].BuildBastion?)
  }

  predicate ArgumentsValid(site: Site, step: Step) {
    && (step.BuildNsg? ==>
          && !(step.role == Some(INTERNET_EDGE) && step.ports == [])
          && (step.role.Some? && step.role.value.tier == Public ==> DistinctPorts(step.ports)))
    && (step.BuildLoadBalancer? || step.BuildInternalLoadBalancer? ==> ValidPort(step.backendPort))
    && (step.BuildFlowLogs? ==> step.retention in VALID_RETENTION)
    && (Finalising(step) ==> LogsCanBeMade(site))
  }

  /** NSGs are built once, before they are used. */
  predicate HandlesBound(h: seq<Step>, j: nat)
    requires j < |h|
  {
    && (h[j].BuildNsg? ==> h[j].id !in Roster(h[..j]))
    && (h[j].Relate? ==> h[j].src in Roster(h[..j]) && h[j].tgt in Roster(h[..j]))
    && (h[j].ManualRule? ==> h[j].id in Roster(h[..j]))
  }

  /** No NSG is asked to use a rule label twice. */
  predicate LabelsFresh(h: seq<Step>, j: nat)
    requires j < |h|
  {
    h[j].Relate? || h[j].ManualRule? ==>
      forall g :: g in StepGrants(Roster(h[..j]), h[j]) ==> !TagTaken(GrantsOf(h[..j]), g.owner, g.tag)
  }

  /** A step that ran on the open network registered the key. */
  predicate RegisteredBefore(site: Site, h: seq<Step>, j: nat, k: Key)
    requires j <= |h|
  {
    exists i :: 0 <= i < j && !Closed(h[..i]) && k in KeysIn(StepCalls(site, Roster(h[..i]), h[i]))
  }

  /** NSG steps after finalisation use only fingerprints registered before it. */
  predicate LateKeysKnown(site: Site, h: seq<Step>, j: nat)
    requires j < |h|
  {
    GroupStep(h[j]) && Closed(h[..j]) ==>
      forall c :: c in StepCalls(site, Roster(h[..j]), h[j]) ==> c.Unique? && RegisteredBefore(site, h, j, c.key)
  }

  predicate WellOrdered(site: Site, h: seq<Step>) {
    && OrderRespected(h)
    && forall j :: 0 <= j < |h| ==>
         ArgumentsValid(site, h[j]) && HandlesBound(h, j) && LabelsFresh(h, j) && LateKeysKnown(site, h, j)
  }

  lemma {:induction false} RegisteredIsKnown(site: Site, h: seq<Step>, j: nat, k: Key)
    requires j <= |h|
    ensures RegisteredBefore(site, h, j, k) <==> k in KeysIn(CallsOf(site, h[..j]))
  {
    hide StepCalls, Roster, Closed;
    var before := h[..j];
    if RegisteredBefore(site, h, j, k) {
      var i :| 0 <= i < j && !Closed(h[..i]) && k in KeysIn(StepCalls(site, Roster(h[..i]), h[i]));
      var c :| c in StepCalls(site, Roster(h[..i]), h[i]) && c.Unique? && c.key == k;
      assert before[..i] == h[..i] && before[i] == h[i];
      OpenCallsStay(site, before, i, c);
    }
    if k in KeysIn(CallsOf(site, before)) {
      var c :| c in CallsOf(site, before) && c.Unique? && c.key == k;
      var i := CallOrigin(site, before, c);
      assert before[..i] == h[..i] && before[i] == h[i];
    }
  }

  lemma PrefixClosed(h: seq<Step>, j: nat)
    requires j <= |h|
    ensures Closed(h[..j]) <==> exists i :: 0 <= i < j && Finalising(h[i])
  {
    if i :| 0 <= i < j && Finalising(h[i]) {
      assert h[..j][i] == h[i];
    }
  }

  lemma {:induction false} SomeFirstFinaliser(h: seq<Step>) returns (i: nat)
    requires Closed(h)
    ensures FirstFinaliser(h, i)
    decreases |h|
  {
    var init := h[..|h| - 1];
    PrefixClosed(h, |init|);
    if Closed(init) {
      i := SomeFirstFinaliser(init);
      assert init[..i] == h[..i];
    } else {
      i := |h| - 1;
    }
  }

  lemma FirstFinaliserUnique(h: seq<Step>, i: nat, k: nat)
    requires FirstFinaliser(h, i) && FirstFinaliser(h, k)
    ensures i == k
  {
    PrefixClosed(h, i);
    PrefixClosed(h, k);
  }

  /** Only a bastion registers the bastion's key. */
  lemma BastionKeySource(site: Site, roster: map<nat, Member>, step: Step)
    ensures BastionSsh in KeysIn(StepCalls(site, roster, step)) <==> step.BuildBastion?
  {
    if step.BuildBastion? {
      assert BASTION_CALLS[0] in StepCalls(site, roster, step);
    }
  }

  /** After finalisation, the bastion's key is registered exactly when a bastion finalised first. */
  lemma BastionKnown(site: Site, h: seq<Step>, j: nat, i: nat)
    requires j <= |h| && FirstFinaliser(h, i) && i < j
    ensures BastionSsh in KeysIn(CallsOf(site, h[..j])) <==> h[i].BuildBastion?
  {
    RegisteredIsKnown(site, h, j, BastionSsh);
    BastionKeySource(site, Roster(h[..i]), h[i]);
    if RegisteredBefore(site, h, j, BastionSsh) {
      var k :| 0 <= k < j && !Closed(h[..k]) && BastionSsh in KeysIn(StepCalls(site, Roster(h[..k]), h[k]));
      BastionKeySource(site, Roster(h[..k]), h[k]);
      FirstFinaliserUnique(h, i, k);
    }
  }

  /** The order conditions on one step, given what finalised before it. */
  predicate OrderAt(h: seq<Step>, j: nat)
    requires j < |h|
  {
    && (forall i :: 0 <= i < j && Finalising(h[i]) ==> !DirectCaller(h[j]) && !h[j].DirectRules?)
    && (forall i :: 0 <= i < j && FirstFinaliser(h, i) && h[j].BuildBastion? ==> h[i].BuildBastion?)
  }

  lemma {:induction false} CallsAllowedAt(site: Site, h: seq<Step>, j: nat)
    requires j < |h| && GroupStep(h[j])
    ensures CallsAllowed(site, h[..j], StepCalls(site, Roster(h[..j]), h[j])) <==> LateKeysKnown(site, h, j)
  {
    hide StepCalls, Roster, Closed, RegisteredBefore;
    forall c | c in StepCalls(site, Roster(h[..j]), h[j]) && c.Unique?
      ensures RegisteredBefore(site, h, j, c.key) <==> c.key in KeysIn(CallsOf(site, h[..j]))
    {
      RegisteredIsKnown(site, h, j, c.key);
    }
  }

  predicate StepConditions(site: Site, h: seq<Step>, j: nat)
    requires j < |h|
  {
    OrderAt(h, j) && ArgumentsValid(site, h[j]) && HandlesBound(h, j) && LabelsFresh(h, j) && LateKeysKnown(site, h, j)
  }

  lemma {:induction false} GroupStepConditions(site: Site, h: seq<Step>, j: nat)
    requires j < |h| && GroupStep(h[j])
    ensures Allowed(site, h[..j], h[j]) <==> StepConditions(site, h, j)
  {
    hide CallsAllowed, LateKeysKnown, TagTaken, Closed, CallsOf, StepCalls, DistinctPorts, Roster, GrantsOf;
    CallsAllowedAt(site, h, j);
    if h[j].ManualRule? {
      ManualConditions(site, h, j);
    }
  }

  lemma ManualConditions(site: Site, h: seq<Step>, j: nat)
    requires j < |h| && h[j].ManualRule?
    ensures LateKeysKnown(site, h, j)
    ensures LabelsFresh(h, j) <==> !TagTaken(GrantsOf(h[..j]), h[j].id, h[j].tag)
  {
    hide TagTaken, Roster, GrantsOf, Closed;
    var g := Grant(h[j].id, h[j].tag, h[j].dir, h[j].rule);
    assert StepGrants(Roster(h[..j]), h[j]) == [g] && g in [g];
  }

  lemma VcnStepConditions(site: Site, h: seq<Step>, j: nat)
    requires j < |h| && !GroupStep(h[j]) && (Closed(h[..j]) ==> LogsCanBeMade(site))
    ensures Allowed(site, h[..j], h[j]) <==> StepConditions(site, h, j)
  {
    hide LogsCanBeMade, CallsOf, StepCalls, Roster, GrantsOf, CallsAllowed;
    PrefixClosed(h, j);
    if Closed(h[..j]) {
      var i := SomeFirstFinaliser(h[..j]);
      assert h[..j][..i] == h[..i] && h[..j][i] == h[i];
      assert FirstFinaliser(h, i);
      BastionKnown(site, h, j, i);
      forall k | 0 <= k < j && FirstFinaliser(h, k)
        ensures k == i
      {
        FirstFinaliserUnique(h, i, k);
      }
    }
  }

  lemma LogsOnceClosed(site: Site, h: seq<Step>, j: nat)
    requires j <= |h| && Closed(h[..j]) && (AllAllowed(site, h) || WellOrdered(site, h))
    ensures LogsCanBeMade(site)
  {
    hide LogsCanBeMade, HandlesBound, LabelsFresh, LateKeysKnown;
    var i := SomeFirstFinaliser(h[..j]);
    assert h[..j][..i] == h[..i] && h[..j][i] == h[i];
    if AllAllowed(site, h) {
      assert Allowed(site, h[..i], h[i]);
    } else {
      assert ArgumentsValid(site, h[i]);
    }
  }

  /**
   Which programs raise, exactly: a program runs to the end if and only if its arguments are valid, its handles and rule
   labels fresh, the spells with direct rules (at most one load balancer, workload or cluster) come before any other
   finaliser, bastions follow only a bastion, and late NSG steps use only registered fingerprints.
   */
  lemma WhichProgramsRaise(site: Site, h: seq<Step>)
    ensures RunOn(site, h).Ok() <==> WellOrdered(site, h)
  {
    hide Allowed, LogsCanBeMade, HandlesBound, LabelsFresh, LateKeysKnown, ArgumentsValid, GroupStep, Run, Agrees;
    RunsAgree(site, h);
    if AllAllowed(site, h) || WellOrdered(site, h) {
      forall j | 0 <= j < |h|
        ensures Allowed(site, h[..j], h[j]) <==> StepConditions(site, h, j)
      {
        if GroupStep(h[j]) {
          GroupStepConditions(site, h, j);
        } else {
          if Closed(h[..j]) {
            LogsOnceClosed(site, h, j);
          }
          VcnStepConditions(site, h, j);
        }
      }
      OrderPointwise(h);
    }
  }

  lemma OrderPointwise(h: seq<Step>)
    ensures OrderRespected(h) <==> forall j :: 0 <= j < |h| ==> OrderAt(h, j)
  {
    hide Finalising, FirstFinaliser, DirectCaller;
    if forall j :: 0 <= j < |h| ==> OrderAt(h, j) {
      forall i, j | 0 <= i < j < |h|
        ensures Finalising(h[i]) ==> !DirectCaller(h[j]) && !h[j].DirectRules?
        ensures FirstFinaliser(h, i) && h[j].BuildBastion? ==> h[i].BuildBastion?
      {
        assert OrderAt(h, j);
      }
    }
  }

  // ---- What the documentation allows and the code rejects --------------------------------------------

  /** Two load balancers, workloads or clusters never share a VCN, in either order, whatever surrounds them. */
  lemma OneDirectCaller(site: Site, h: seq<Step>, i: nat, j: nat)
    requires i < j < |h| && DirectCaller(h[i]) && DirectCaller(h[j])
    ensures !RunOn(site, h).Ok()
  {
    hide Run, HandlesBound, LabelsFresh, LateKeysKnown, ArgumentsValid;
    WhichProgramsRaise(site, h);
    assert Finalising(h[i]);
  }

  /** An instance before its bastion, as the generated bastion stack builds them, always raises. */
  lemma InstanceBeforeBastionRaises(site: Site, subnet: Tier)
    ensures !RunOn(site, [BuildCompute(subnet), BuildBastion]).Ok()
    ensures RunOn(site, [BuildBastion, BuildCompute(subnet)]).Ok() <==> LogsCanBeMade(site)
  {
    hide Run;
    var bad, good := [BuildCompute(subnet), BuildBastion], [BuildBastion, BuildCompute(subnet)];
    WhichProgramsRaise(site, bad);
    assert FirstFinaliser(bad, 0) && bad[1].BuildBastion?;
    WhichProgramsRaise(site, good);
    if RunOn(site, good).Ok() {
      assert ArgumentsValid(site, good[0]);
    }
  }
}
