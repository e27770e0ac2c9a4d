/** A stack program: a sequence of spells built against one fresh VCN, stopping at the first that raises. */
module Programs {
  import opened Fingerprints
  import opened Networks
  import opened Nsgs
  import opened Oke
  import opened Rules
  import opened Spells
  import opened VcnBuilder
  import opened Wrappers

  /** NSGs are named by handles, which stand for the Python objects; their `name` strings may coincide. */
  datatype Step =
    | BuildNsg(id: nat, name: string, role: Option<Role>, ports: seq<nat>)
    | Relate(src: nat, tgt: nat, port: nat, withSsh: bool)       // src.serves(tgt, port)
    | ManualRule(id: nat, tag: string, dir: Direction, rule: Rule) // Nsg.add_rule by the user
    | DirectRules(lists: RuleLists)                              // add_security_list_rules by the user
    | BuildCompute(subnet: Tier)
    | BuildBastion
    | BuildLoadBalancer(backendPort: int)
    | BuildInternalLoadBalancer(backendPort: int)
    | BuildWorkload(isPublic: bool, backendPort: int)
    | BuildCluster(kubectl: Option<seq<Network>>)
    | BuildFlowLogs(retention: int)
    | FinalizeExplicitly

  datatype ProgramState = ProgramState(vcn: VcnState, groups: Groups)

  function Initial(cidr: Network, tiers: TierCidrs, settings: FlowLogSettings): ProgramState {
    ProgramState(Fresh(cidr, tiers, settings), map[])
  }

  function AllowedCidrs(kubectl: Option<seq<Network>>): seq<Network> {
    if kubectl.Some? then kubectl.value else []
  }

  predicate GroupStep(step: Step) {
    step.BuildNsg? || step.Relate? || step.ManualRule?
  }

  /** What a step that involves no user NSG does to the VCN. */
  function VcnEffect(v: VcnState, step: Step): Outcome<VcnState, Error>
    requires !GroupStep(step)
  {
    match step
    case DirectRules(lists) => AddRules(v, lists)
    case BuildCompute(subnet) => ComputeSpell(v, subnet)
    case BuildBastion => BastionSpell(v)
    case BuildLoadBalancer(port) => LoadBalancerSpell(v, port)
    case BuildInternalLoadBalancer(port) => InternalLoadBalancerSpell(v, port)
    case BuildWorkload(isPublic, port) => Contribute(v, WorkloadCalls(v.cidr, v.tiers, isPublic, port))
    case BuildCluster(kubectl) => Contribute(v, OkeCalls(v.tiers, AllowedCidrs(kubectl)))
    case BuildFlowLogs(retention) => CreateFlowLogs(v, retention)
    case FinalizeExplicitly => Finalize(v)
  }

  function MemberOf(m: Groups, id: nat): Member
    requires id in m
  {
    Member(id, m[id].name, m[id].role)
  }

  function Exec(s: ProgramState, step: Step): Outcome<ProgramState, Error> {
    match step
    case BuildNsg(id, name, role, ports) =>
      if id in s.groups then Outcome(s, Some(HandleInUse))
      else
        var o := BuildGroup(s.vcn, id, name, role, ports);
        Outcome(ProgramState(o.state.0, if o.Ok() then s.groups[id := o.state.1] else s.groups), o.raised)
    case Relate(src, tgt, port, withSsh) =>
      if src !in s.groups || tgt !in s.groups then Outcome(s, Some(UnboundHandle))
      else
        var a, b := MemberOf(s.groups, src), MemberOf(s.groups, tgt);
        var grants := RunGrants(s.groups, ServesGrants(a, b, port, withSsh));
        if !grants.Ok() then Outcome(ProgramState(s.vcn, grants.state), grants.raised)
        else
          var calls := RunCalls(s.vcn, ServesCalls(s.vcn.tiers, a.role, b.role, port, withSsh));
          Outcome(ProgramState(calls.state, grants.state), calls.raised)
    case ManualRule(id, tag, dir, rule) =>
      if id !in s.groups then Outcome(s, Some(UnboundHandle))
      else
        var o := RunGrant(s.groups, Grant(id, tag, dir, rule));
        Outcome(ProgramState(s.vcn, o.state), o.raised)
    case _ =>
      var o := VcnEffect(s.vcn, step);
      Outcome(ProgramState(o.state, s.groups), o.raised)
  }

  /** A run ends at the first exception: what it leaves, and what it raised. */
  function Run(start: ProgramState, steps: seq<Step>): Outcome<ProgramState, Error>
    decreases |steps|
  {
    if steps == [] then Outcome(start, None)
    else
      var o := Run(start, steps[..|steps| - 1]);
      if !o.Ok() then o else Exec(o.state, steps[|steps| - 1])
  }

  /** A run whose program catches every exception and carries on. */
  function RunCatching(start: ProgramState, steps: seq<Step>): ProgramState
    decreases |steps|
  {
    if steps == [] then start
    else Exec(RunCatching(start, steps[..|steps| - 1]), steps[|steps| - 1]).state
  }

  // ---- The live objects ------------------------------------------------------------------------------

  method BuildSpell(vcn: Vcn, step: Step) returns (raised: Option<Error>)
    requires !GroupStep(step)
    modifies vcn
    ensures Outcome(vcn.State(), raised) == VcnEffect(old(vcn.State()), step)
  {
    match step {
      case DirectRules(lists) => raised := vcn.AddSecurityListRules(lists);
      case BuildCompute(subnet) => raised := ComputeInstance(vcn, subnet);
      case BuildBastion => raised := Bastion(vcn);
      case BuildLoadBalancer(port) => raised := LoadBalancer(vcn, port);
      case BuildInternalLoadBalancer(port) => raised := InternalLoadBalancer(vcn, port);
      case BuildWorkload(isPublic, port) => raised := ScalableWorkload(vcn, isPublic, port);
      case BuildCluster(kubectl) =>
        var cluster := new OkeCluster(vcn, ClusterGroups(0, 1, 2, 3), kubectl);
        raised := cluster.Build();
      case BuildFlowLogs(retention) => raised := vcn.AttachFlowLogs(retention);
      case FinalizeExplicitly => raised := vcn.FinalizeNetwork();
    }
  }

  class Program {
    const vcn: Vcn
    var nsgs: map<nat, Nsg>

    ghost predicate Valid()
      reads this
    {
      forall id :: id in nsgs ==> nsgs[id].id == id && nsgs[id].vcn == vcn
    }

    ghost function State(): ProgramState
      reads this, vcn, nsgs.Values
    {
      ProgramState(vcn.State(), map id | id in nsgs :: nsgs[id].State())
    }

    constructor (cidr: Network, tiers: TierCidrs, settings: FlowLogSettings)
      ensures Valid() && fresh(vcn) && State() == Initial(cidr, tiers, settings)
    {
      vcn := new Vcn(cidr, tiers, settings);
      nsgs := map[];
    }

    /** The objects follow the state machine step for step. */
    method Execute(step: Step) returns (raised: Option<Error>)
      requires Valid()
      modifies this, vcn, nsgs.Values
      ensures Valid()
      ensures Outcome(State(), raised) == Exec(old(State()), step)
    {
      if step.BuildNsg? {
        raised := ExecuteBuild(step.id, step.name, step.role, step.ports);
      } else if step.Relate? {
        raised := ExecuteRelate(step.src, step.tgt, step.port, step.withSsh);
      } else if step.ManualRule? {
        raised := ExecuteManual(step.id, step.tag, step.dir, step.rule);
      } else {
        raised := ExecuteVcn(step);
      }
    }

    method ExecuteVcn(step: Step) returns (raised: Option<Error>)
      requires Valid() && !GroupStep(step)
      modifies vcn
      ensures Valid() && Outcome(State(), raised) == Exec(old(State()), step)
    {
      ghost var before := State();
      raised := BuildSpell(vcn, step);
      assert State().groups == before.groups;
    }

    method ExecuteBuild(id: nat, name: string, role: Option<Role>, ports: seq<nat>) returns (raised: Option<Error>)
      requires Valid()
      modifies this, vcn
      ensures Valid() && Outcome(State(), raised) == Exec(old(State()), BuildNsg(id, name, role, ports))
    {
      hide BuildGroup;
      if id in nsgs {
        return Some(HandleInUse);
      }
      ghost var before := State();
      var nsg;
      nsg, raised := Nsg.Create(id, vcn, name, role, ports);
      if raised.None? {
        nsgs := nsgs[id := nsg];
        assert State().groups == before.groups[id := nsg.State()];
      } else {
        assert State().groups == before.groups;
      }
    }

    method ExecuteRelate(src: nat, tgt: nat, port: nat, withSsh: bool) returns (raised: Option<Error>)
      requires Valid()
      modifies vcn, nsgs.Values
      ensures Valid() && nsgs == old(nsgs)
      ensures Outcome(State(), raised) == Exec(old(State()), Relate(src, tgt, port, withSsh))
    {
      if src !in nsgs || tgt !in nsgs {
        return Some(UnboundHandle);
      }
      ghost var before := State();
      ghost var two := map[src := nsgs[src].State(), tgt := nsgs[tgt].State()];
      raised := RelateObjects(src, tgt, port, withSsh);
      RelateExec(before, src, tgt, port, withSsh, two, vcn.State(), raised);
    }

    method RelateObjects(src: nat, tgt: nat, port: nat, withSsh: bool) returns (raised: Option<Error>)
      requires Valid() && src in nsgs && tgt in nsgs
      modifies vcn, nsgs.Values
      ensures Valid() && nsgs == old(nsgs)
      ensures var two := map[src := old(nsgs[src].State()), tgt := old(nsgs[tgt].State())];
              var a, b := old(MemberOf(State().groups, src)), old(MemberOf(State().groups, tgt));
              var grants := RunGrants(two, ServesGrants(a, b, port, withSsh));
              && State().groups == old(State()).groups + grants.state
              && (!grants.Ok() ==> raised == grants.raised && vcn.State() == old(vcn.State()))
              && (grants.Ok() ==>
                    Outcome(vcn.State(), raised)
                        == RunCalls(old(vcn.State()), ServesCalls(vcn.tiers, a.role, b.role, port, withSsh)))
    {
      hide RunCalls, ServesCalls;
      ghost var before := State();
      var a, b := nsgs[src], nsgs[tgt];
      assert MemberOf(before.groups, src) == a.AsMember() && MemberOf(before.groups, tgt) == b.AsMember();
      raised := a.Serves(b, port, withSsh);
      ghost var after := a.With(b);
      forall id | id in nsgs
        ensures nsgs[id].State() == (before.groups + after)[id]
      {
        if id != src && id != tgt {
          assert nsgs[id] != a && nsgs[id] != b;
        }
      }
      assert State().groups == before.groups + after;
    }

    method ExecuteManual(id: nat, tag: string, dir: Direction, rule: Rule) returns (raised: Option<Error>)
      requires Valid()
      modifies nsgs.Values
      ensures Valid() && Outcome(State(), raised) == Exec(old(State()), ManualRule(id, tag, dir, rule))
    {
      if id !in nsgs {
        return Some(UnboundHandle);
      }
      ghost var before := State();
      raised := nsgs[id].AddRule(tag, dir, rule);
      assert State().groups == before.groups[id := nsgs[id].State()];
    }
  }

  /** A relationship worked out on its two ends alone is the relationship worked out on all groups. */
  lemma RelateExec(s: ProgramState, src: nat, tgt: nat, port: nat, withSsh: bool, two: Groups, after: VcnState,
      raised: Option<Error>)
    requires src in s.groups && tgt in s.groups && two == map[src := s.groups[src], tgt := s.groups[tgt]]
    requires var a, b := MemberOf(s.groups, src), MemberOf(s.groups, tgt);
             var grants := RunGrants(two, ServesGrants(a, b, port, withSsh));
             && (!grants.Ok() ==> raised == grants.raised && after == s.vcn)
             && (grants.Ok() ==>
                   Outcome(after, raised) == RunCalls(s.vcn, ServesCalls(s.vcn.tiers, a.role, b.role, port, withSsh)))
    ensures var grants := RunGrants(two, ServesGrants(MemberOf(s.groups, src), MemberOf(s.groups, tgt), port, withSsh));
            Exec(s, Relate(src, tgt, port, withSsh)) == Outcome(ProgramState(after, s.groups + grants.state), raised)
  {
    hide RunCalls, ServesCalls;
    RunGrantsWithin(two, s.groups, ServesGrants(MemberOf(s.groups, src), MemberOf(s.groups, tgt), port, withSsh));
  }

  /** Grants touch only the groups they name. */
  lemma {:induction false} RunGrantsWithin(small: Groups, all: Groups, grants: seq<Grant>)
    requires forall id :: id in small ==> id in all && all[id] == small[id]
    requires forall g :: g in grants ==> g.owner in small
    ensures RunGrants(all, grants).raised == RunGrants(small, grants).raised
    ensures RunGrants(all, grants).state == all + RunGrants(small, grants).state
    decreases |grants|
  {
    if grants == [] {
      assert all + small == all;
    } else {
      var g := grants[0];
      var o, o' := RunGrant(small, g), RunGrant(all, g);
      assert o'.state == all + o.state;
      if o.Ok() {
        RunGrantsWithin(o.state, o'.state, grants[1..]);
        assert o'.state + RunGrants(o.state, grants[1..]).state == all + RunGrants(o.state, grants[1..]).state;
      }
    }
  }
}
