/** Which exception a program raises, read off what it did before. */
module Errors {
  import opened Agreement
  import opened Fingerprints
  import opened History
  import opened Nsgs
  import opened Programs
  import opened Serving
  import opened Spells
  import opened VcnBuilder
  import opened Wrappers

  /** A finalising step on an open network raises for want of a retention OCI offers, and for nothing else. */
  function FinalisingError(site: Site, h: seq<Step>): Option<Error> {
    if !Closed(h) && !LogsCanBeMade(site) then Some(BadRetention) else None
  }

  /** A spell with a direct rule call. */
  function DirectCallError(site: Site, h: seq<Step>): Option<Error> {
    if Closed(h) then Some(AlreadyFinalized) else FinalisingError(site, h)
  }

  function BalancerError(site: Site, h: seq<Step>, port: int): Option<Error> {
    if port < 1 || port > 65535 then Some(BadPort) else DirectCallError(site, h)
  }

  /** What list calls of an NSG step raise. */
  function LateError(site: Site, h: seq<Step>, step: Step): Option<Error> {
    if CallsAllowed(site, h, StepCalls(site, Roster(h), step)) then None else Some(AlreadyFinalized)
  }

  /**
   The exception a step raises after a program that raised nothing; the checks in the order in which they are made.
   */
  function ErrorOf(site: Site, h: seq<Step>, step: Step): Option<Error> {
    match step
    case BuildNsg(id, _, role, ports) =>
      if id in Roster(h) then Some(HandleInUse)
      else if role == Some(INTERNET_EDGE) && ports == [] then Some(NoPorts)
      else if role.Some? && role.value.tier == Public && !DistinctPorts(ports) then Some(DuplicateLabel)
      else LateError(site, h, step)
    case Relate(src, tgt, _, _) =>
      if src !in Roster(h) || tgt !in Roster(h) then Some(UnboundHandle)
      else if exists g :: g in StepGrants(Roster(h), step) && TagTaken(GrantsOf(h), g.owner, g.tag)
          then Some(DuplicateLabel)
      else LateError(site, h, step)
    case ManualRule(id, tag, _, _) =>
      if id !in Roster(h) then Some(UnboundHandle)
      else if TagTaken(GrantsOf(h), id, tag) then Some(DuplicateLabel)
      else None
    case DirectRules(_) => if Closed(h) then Some(AlreadyFinalized) else None
    case BuildCompute(_) => FinalisingError(site, h)
    case BuildBastion =>
      if Closed(h) && BastionSsh !in KeysIn(CallsOf(site, h)) then Some(BastionTooLate) else FinalisingError(site, h)
    case BuildLoadBalancer(port) => BalancerError(site, h, port)
    case BuildInternalLoadBalancer(port) => BalancerError(site, h, port)
    case BuildWorkload(_, _) => DirectCallError(site, h)
    case BuildCluster(_) => DirectCallError(site, h)
    case BuildFlowLogs(retention) =>
      if retention !in {30, 60, 90, 120, 150, 180} then Some(BadRetention) else FinalisingError(site, h)
    case FinalizeExplicitly => FinalisingError(site, h)
  }

  // ---- Steps on the VCN alone ------------------------------------------------------------------------

  lemma {:induction false} ContributeErrors(site: Site, h: seq<Step>, v: VcnState, calls: seq<Call>)
    requires VcnMatches(site, h, v)
    ensures !v.finalized ==> RunCalls(v, calls).Ok() && !RunCalls(v, calls).state.finalized
                             && RunCalls(v, calls).state.settings == v.settings
    ensures !v.finalized ==> Contribute(v, calls).raised == FinalisingError(site, h)
    ensures v.finalized && !RunCalls(v, calls).Ok() ==> Contribute(v, calls).raised == Some(AlreadyFinalized)
  {
    hide VcnMatches;
    CallErrors(v, calls);
    if !v.finalized {
      OpenCallsPass(v, calls);
      FinalizeOnce(RunCalls(v, calls).state);
      MatchesSite(site, h, v);
    }
  }

  lemma MatchesSite(site: Site, h: seq<Step>, v: VcnState)
    requires VcnMatches(site, h, v)
    ensures v.finalized == Closed(h) && v.settings == site.settings && v.cidr == site.cidr && v.tiers == site.tiers
    ensures forall k :: Render(k) in v.fingerprints <==> k in KeysIn(CallsOf(site, h))
  {
    forall k
      ensures Render(k) in v.fingerprints <==> k in KeysIn(CallsOf(site, h))
    {
      PrintsMember(k, KeysIn(CallsOf(site, h)));
    }
  }

  lemma {:induction false} OpenCallsPass(v: VcnState, calls: seq<Call>)
    requires !v.finalized
    ensures RunCalls(v, calls).Ok()
    ensures !RunCalls(v, calls).state.finalized && RunCalls(v, calls).state.settings == v.settings
    decreases |calls|
  {
    hide Render;
    if calls != [] {
      OpenCallsPass(RunCall(v, calls[0]).state, calls[1..]);
    }
  }

  lemma {:induction false} VcnErrors(site: Site, h: seq<Step>, v: VcnState, step: Step)
    requires VcnMatches(site, h, v) && !GroupStep(step)
    ensures VcnEffect(v, step).raised == ErrorOf(site, h, step)
  {
    hide VcnMatches, Contribute, RunCalls, Finalize, Closed, CallsOf, KeysIn, Render, ComputeCalls, LoadBalancerCalls,
        InternalLoadBalancerCalls, WorkloadCalls;
    MatchesSite(site, h, v);
    FinalizeOnce(v);
    match step
    case BuildCompute(subnet) =>
      ContributeErrors(site, h, v, ComputeCalls(v.tiers, subnet));
      ContributeNothing(v);
    case BuildBastion =>
      ContributeErrors(site, h, v, BASTION_CALLS);
      ContributeNothing(v);
    case BuildFlowLogs(retention) => FlowLogsExact(v, retention);
    case _ =>
      if !step.DirectRules? && !step.FinalizeExplicitly? {
        ContributeErrors(site, h, v, StepCalls(site, Roster(h), step));
        if Closed(h) {
          DirectCallersNeedOpen(site, h, v, step);
        }
      }
  }

  lemma ContributeNothing(v: VcnState)
    ensures Contribute(v, []) == Finalize(v)
  {
  }

  // ---- Steps on NSGs ---------------------------------------------------------------------------------

  lemma {:induction false} LateCallErrors(site: Site, h: seq<Step>, v: VcnState, step: Step)
    requires VcnMatches(site, h, v) && GroupStep(step)
    ensures RunCalls(v, StepCalls(site, Roster(h), step)).raised == LateError(site, h, step)
  {
    hide VcnMatches, RunCalls, CallsAllowed, StepCalls, Roster;
    GroupStepCalls(site, h, v, step);
    CallErrors(v, StepCalls(site, Roster(h), step));
  }

  lemma {:induction false} BuildErrors(site: Site, h: seq<Step>, s: ProgramState, step: Step)
    requires Agrees(site, h, s) && step.BuildNsg?
    ensures Exec(s, step).raised == ErrorOf(site, h, step)
  {
    hide VcnMatches, RunCalls, RunGrants, CallsAllowed, LateError, DistinctPorts, AmbientCalls, AmbientGrants, Holds,
        OwnedBy,
        GrantsOf, CallsOf;
    LateCallErrors(site, h, s.vcn, step);
    BuiltPlain(s.vcn, step.id, step.name);
    if step.role.Some? {
      BuiltAlone(step.id, step.name, step.role.value, step.ports);
      AmbientGrantErrors(step.id, step.name, step.role.value, step.ports);
    }
  }

  lemma {:induction false} AmbientGrantErrors(id: nat, name: string, role: Role, ports: seq<nat>)
    ensures var o := RunGrants(map[id := Empty(name, Some(role))], AmbientGrants(id, role, ports));
            o.Ok() || o.raised == Some(DuplicateLabel)
  {
    hide RunGrants;
    GrantErrors(map[id := Empty(name, Some(role))], AmbientGrants(id, role, ports));
  }

  lemma {:induction false} RelateErrors(site: Site, h: seq<Step>, s: ProgramState, step: Step)
    requires Agrees(site, h, s) && step.Relate?
    ensures Exec(s, step).raised == ErrorOf(site, h, step)
  {
    hide VcnMatches, RunCalls, RunGrants, CallsAllowed, LateError, ServesCalls, Holds, OwnedBy, GrantsOf, CallsOf,
        TagTaken,
        Roster, Clash, ServesGrants;
    if step.src in s.groups && step.tgt in s.groups {
      var a, b := MemberOf(s.groups, step.src), MemberOf(s.groups, step.tgt);
      var grants := ServesGrants(a, b, step.port, step.withSsh);
      RosterIds(h, s.groups, step.src);
      RosterIds(h, s.groups, step.tgt);
      assert grants == StepGrants(Roster(h), step);
      ServesGrantsDiffer(a, b, step.port, step.withSsh);
      ServesOwners(a, b, step.port, step.withSsh);
      GrantsMatch(h, s.groups, step, grants);
      GrantErrors(s.groups, grants);
      LateCallErrors(site, h, s.vcn, step);
      MatchesSite(site, h, s.vcn);
    }
  }

  lemma ServesOwners(a: Member, b: Member, port: nat, withSsh: bool)
    ensures forall g :: g in ServesGrants(a, b, port, withSsh) ==> g.owner == a.id || g.owner == b.id
  {
  }

  lemma {:induction false} ManualErrors(site: Site, h: seq<Step>, s: ProgramState, step: Step)
    requires Agrees(site, h, s) && step.ManualRule?
    ensures Exec(s, step).raised == ErrorOf(site, h, step)
  {
    hide VcnMatches, Holds, OwnedBy, GrantsOf, CallsOf, Roster;
    if step.id in s.groups {
      AllHolding(h, s.groups);
      TagTakenIsLabel(s.groups, GrantsOf(h), step.id, step.tag);
    }
  }

  lemma AllHolding(h: seq<Step>, m: Groups)
    requires GroupsMatch(h, m)
    ensures AllHold(m, GrantsOf(h))
  {
  }

  // ---- Whole programs --------------------------------------------------------------------------------

  /** After a program that raised nothing, the next step raises exactly the exception its history calls for. */
  lemma {:induction false} ErrorsExact(site: Site, h: seq<Step>, step: Step)
    requires RunOn(site, h).Ok()
    ensures Exec(RunOn(site, h).state, step).raised == ErrorOf(site, h, step)
  {
    hide Run, Exec, ErrorOf, GroupsMatch, VcnMatches;
    RunsAgree(site, h);
    var s := RunOn(site, h).state;
    match step
    case BuildNsg(_, _, _, _) => BuildErrors(site, h, s, step);
    case Relate(_, _, _, _) => RelateErrors(site, h, s, step);
    case ManualRule(_, _, _, _) => ManualErrors(site, h, s, step);
    case _ => OtherErrors(site, h, s, step);
  }

  lemma OtherErrors(site: Site, h: seq<Step>, s: ProgramState, step: Step)
    requires VcnMatches(site, h, s.vcn) && !GroupStep(step)
    ensures Exec(s, step).raised == ErrorOf(site, h, step)
  {
    hide VcnMatches, ErrorOf, VcnEffect;
    VcnErrors(site, h, s.vcn, step);
  }

  /** A program ends with the first exception its history calls for, whatever would follow. */
  lemma {:induction false} FirstErrorEnds(site: Site, h: seq<Step>, rest: seq<Step>)
    requires h != [] && RunOn(site, h[..|h| - 1]).Ok() && ErrorOf(site, h[..|h| - 1], h[|h| - 1]).Some?
    ensures RunOn(site, h + rest).raised == ErrorOf(site, h[..|h| - 1], h[|h| - 1])
    ensures RunOn(site, h + rest) == RunOn(site, h)
    decreases |rest|
  {
    hide Exec, ErrorOf;
    if rest == [] {
      assert h + rest == h;
      ErrorsExact(site, h[..|h| - 1], h[|h| - 1]);
    } else {
      var init := rest[..|rest| - 1];
      FirstErrorEnds(site, h, init);
      assert (h + rest)[..|h + rest| - 1] == h + init;
    }
  }
}
