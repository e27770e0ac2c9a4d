/**
 What a program has declared determines what its objects hold.  This module gives that reference reading of a step
 sequence, without executing it, and proves that the builder agrees with it on every run that raises nothing,
 and raises exactly where the reading says it must.
 */
module History {
  import opened Fingerprints
  import opened Networks
  import opened Nsgs
  import opened Oke
  import opened Programs
  import opened Rules
  import opened Spells
  import opened Text
  import opened VcnBuilder
  import opened Wrappers

  /** A fresh VCN: its block, the tiers it was split into, and its flow-log settings. */
  datatype Site = Site(cidr: Network, tiers: TierCidrs, settings: FlowLogSettings)

  function RunOn(site: Site, h: seq<Step>): Outcome<ProgramState, Error> {
    Run(Initial(site.cidr, site.tiers, site.settings), h)
  }

  /** The same program when it catches every exception and carries on. */
  function CatchingOn(site: Site, h: seq<Step>): ProgramState {
    RunCatching(Initial(site.cidr, site.tiers, site.settings), h)
  }

  // ---- Reading a history -----------------------------------------------------------------------------

  /** The NSGs built, by handle. */
  function Roster(h: seq<Step>): map<nat, Member>
    decreases |h|
  {
    if h == [] then map[]
    else
      var before, last := Roster(h[..|h| - 1]), h[|h| - 1];
      if last.BuildNsg? then before[last.id := Member(last.id, last.name, last.role)] else before
  }

  /** Every spell but the NSG steps and direct rule calls finalises the network. */
  predicate Finalising(step: Step) {
    !GroupStep(step) && !step.DirectRules?
  }

  predicate Closed(h: seq<Step>) {
    exists k :: 0 <= k < |h| && Finalising(h[k])
  }

  /** What a step contributes while the network is open. */
  function StepCalls(site: Site, roster: map<nat, Member>, step: Step): seq<Call> {
    match step
    case BuildNsg(_, _, role, ports) => if role.Some? then AmbientCalls(role.value, ports) else []
    case Relate(src, tgt, port, withSsh) =>
      if src in roster && tgt in roster
          then ServesCalls(site.tiers, roster[src].role, roster[tgt].role, port, withSsh) else []
    case ManualRule(_, _, _, _) => []
    case DirectRules(lists) => [Direct(lists)]
    case BuildCompute(subnet) => ComputeCalls(site.tiers, subnet)
    case BuildBastion => BASTION_CALLS
    case BuildLoadBalancer(port) => LoadBalancerCalls(site.tiers, port)
    case BuildInternalLoadBalancer(port) => InternalLoadBalancerCalls(site.cidr, site.tiers, port)
    case BuildWorkload(isPublic, port) => WorkloadCalls(site.cidr, site.tiers, isPublic, port)
    case BuildCluster(kubectl) => OkeCalls(site.tiers, AllowedCidrs(kubectl))
    case BuildFlowLogs(_) => []
    case FinalizeExplicitly => []
  }

  /** All contributions up to and including the first finalising step. */
  function CallsOf(site: Site, h: seq<Step>): seq<Call>
    decreases |h|
  {
    if h == [] then []
    else
      var init := h[..|h| - 1];
      if Closed(init) then CallsOf(site, init)
      else CallsOf(site, init) + StepCalls(site, Roster(init), h[|h| - 1])
  }

  function KeysIn(calls: seq<Call>): set<Key> {
    set c | c in calls && c.Unique? :: c.key
  }

  /** Keep every direct call, and the first call of each key. */
  function Accepted(calls: seq<Call>): seq<Call>
    decreases |calls|
  {
    if calls == [] then []
    else
      var init, last := calls[..|calls| - 1], calls[|calls| - 1];
      if last.Unique? && last.key in KeysIn(init) then Accepted(init) else Accepted(init) + [last]
  }

  function Gather(calls: seq<Call>): RuleLists
    decreases |calls|
  {
    if calls == [] then NOTHING else Join(Gather(calls[..|calls| - 1]), CallLists(calls[|calls| - 1]))
  }

  /** What the rule lists must hold after a history. */
  function ListsOf(site: Site, h: seq<Step>): RuleLists {
    var open := Join(Seed(site.cidr), Gather(Accepted(CallsOf(site, h))));
    if Closed(h) then Join(open, BASELINE) else open
  }

  function StepGrants(roster: map<nat, Member>, step: Step): seq<Grant> {
    match step
    case BuildNsg(id, _, role, ports) => if role.Some? then AmbientGrants(id, role.value, ports) else []
    case Relate(src, tgt, port, withSsh) =>
      if src in roster && tgt in roster then ServesGrants(roster[src], roster[tgt], port, withSsh) else []
    case ManualRule(id, tag, dir, rule) => [Grant(id, tag, dir, rule)]
    case _ => []
  }

  function GrantsOf(h: seq<Step>): seq<Grant>
    decreases |h|
  {
    if h == [] then []
    else
      var init := h[..|h| - 1];
      GrantsOf(init) + StepGrants(Roster(init), h[|h| - 1])
  }

  /** The grants to one NSG, in order. */
  function OwnedBy(grants: seq<Grant>, id: nat): seq<Grant>
    decreases |grants|
  {
    if grants == [] then []
    else
      var init, last := grants[..|grants| - 1], grants[|grants| - 1];
      if last.owner == id then OwnedBy(init, id) + [last] else OwnedBy(init, id)
  }

  // ---- When a step may follow a history --------------------------------------------------------------

  predicate LogsCanBeMade(site: Site) {
    site.settings.enabled ==> site.settings.retention in VALID_RETENTION
  }

  /** After finalisation only fingerprinted calls whose key is already registered pass. */
  predicate CallsAllowed(site: Site, h: seq<Step>, calls: seq<Call>) {
    Closed(h) ==> forall c :: c in calls ==> c.Unique? && c.key in KeysIn(CallsOf(site, h))
  }

  predicate DistinctPorts(ports: seq<nat>) {
    forall i, j :: 0 <= i < j < |ports| ==> ports[i] != ports[j]
  }

  predicate TagTaken(grants: seq<Grant>, owner: nat, tag: string) {
    exists g :: g in grants && g.owner == owner && g.tag == tag
  }

  /** The exact condition under which a step raises nothing, read off the history. */
  predicate Allowed(site: Site, h: seq<Step>, step: Step) {
    var roster, calls := Roster(h), StepCalls(site, Roster(h), step);
    match step
    case BuildNsg(id, _, role, ports) =>
      && id !in roster
      && !(role == Some(INTERNET_EDGE) && ports == [])
      && (role.Some? && role.value.tier == Public ==> DistinctPorts(ports))
      && CallsAllowed(site, h, calls)
    case Relate(src, tgt, _, _) =>
      && src in roster && tgt in roster
      && (forall g :: g in StepGrants(roster, step) ==> !TagTaken(GrantsOf(h), g.owner, g.tag))
      && CallsAllowed(site, h, calls)
    case ManualRule(id, tag, _, _) => id in roster && !TagTaken(GrantsOf(h), id, tag)
    case DirectRules(_) => !Closed(h)
    case BuildCompute(_) => Closed(h) || LogsCanBeMade(site)
    case BuildBastion => if Closed(h) then BastionSsh in KeysIn(CallsOf(site, h)) else LogsCanBeMade(site)
    case BuildLoadBalancer(port) => !Closed(h) && ValidPort(port) && LogsCanBeMade(site)
    case BuildInternalLoadBalancer(port) => !Closed(h) && ValidPort(port) && LogsCanBeMade(site)
    case BuildWorkload(_, _) => !Closed(h) && LogsCanBeMade(site)
    case BuildCluster(_) => !Closed(h) && LogsCanBeMade(site)
    case BuildFlowLogs(retention) => retention in VALID_RETENTION && (Closed(h) || LogsCanBeMade(site))
    case FinalizeExplicitly => Closed(h) || LogsCanBeMade(site)
  }

  // ---- What it means for the objects to agree with a history -----------------------------------------

  ghost predicate VcnMatches(site: Site, h: seq<Step>, v: VcnState) {
    && v.cidr == site.cidr && v.tiers == site.tiers && v.settings == site.settings
    && v.finalized == Closed(h)
    && v.fingerprints == Prints(KeysIn(CallsOf(site, h)))
    && v.pending == ListsOf(site, h)
    && v.created == if Closed(h) then [Materialised(v.pending, v.tiers)] else []
  }

  /** A group holds exactly the given grants, labelled and numbered. */
  ghost predicate Holds(n: NsgState, grants: seq<Grant>) {
    && n.nextIndex == |n.rules| == |grants|
    && (forall i :: 0 <= i < |grants| ==>
          n.rules[i] == NsgRule(grants[i].tag, OrdinalSuffix("nsg-rule", i), grants[i].dir, grants[i].rule))
    && (forall tag :: tag in n.labels <==> exists i :: 0 <= i < |grants| && grants[i].tag == tag)
  }

  ghost predicate GroupsMatch(h: seq<Step>, m: Groups) {
    && m.Keys == Roster(h).Keys
    && (forall g :: g in GrantsOf(h) ==> g.owner in m)
    && forall id :: id in m ==>
         && Roster(h)[id] == MemberOf(m, id)
         && Holds(m[id], OwnedBy(GrantsOf(h), id))
  }

  // ---- Small facts -----------------------------------------------------------------------------------

  lemma SnocGroups(h: seq<Step>, step: Step)
    ensures Roster(h + [step]) == if step.BuildNsg? then Roster(h)[step.id := Member(step.id, step.name, step.role)]
        else Roster(h)
    ensures GrantsOf(h + [step]) == GrantsOf(h) + StepGrants(Roster(h), step)
  {
    assert (h + [step])[..|h|] == h;
  }

  lemma Snoc(site: Site, h: seq<Step>, step: Step)
    ensures Roster(h + [step]) == if step.BuildNsg? then Roster(h)[step.id := Member(step.id, step.name, step.role)]
        else Roster(h)
    ensures Closed(h + [step]) == (Closed(h) || Finalising(step))
    ensures CallsOf(site, h + [step]) == if Closed(h) then CallsOf(site, h)
        else CallsOf(site, h) + StepCalls(site, Roster(h), step)
    ensures GrantsOf(h + [step]) == GrantsOf(h) + StepGrants(Roster(h), step)
  {
    assert (h + [step])[..|h|] == h;
    if Closed(h) {
      var k :| 0 <= k < |h| && Finalising(h[k]);
      assert Finalising((h + [step])[k]);
    }
    assert (h + [step])[|h|] == step;
  }

  lemma {:induction false} OwnedByAppend(a: seq<Grant>, b: seq<Grant>, id: nat)
    ensures OwnedBy(a + b, id) == OwnedBy(a, id) + OwnedBy(b, id)
    decreases |b|
  {
    if b == [] {
      assert a + b == a;
    } else {
      assert (a + b)[..|a + b| - 1] == a + b[..|b| - 1];
      OwnedByAppend(a, b[..|b| - 1], id);
    }
  }

  lemma {:induction false} OwnedByMember(grants: seq<Grant>, id: nat, g: Grant)
    ensures g in OwnedBy(grants, id) <==> g in grants && g.owner == id
    decreases |grants|
  {
    if grants != [] {
      OwnedByMember(grants[..|grants| - 1], id, g);
      assert grants == grants[..|grants| - 1] + [grants[|grants| - 1]];
    }
  }

  lemma KeysInAppend(a: seq<Call>, b: seq<Call>)
    ensures KeysIn(a + b) == KeysIn(a) + KeysIn(b)
  {
  }

  lemma PrintsAdd(keys: set<Key>, k: Key)
    ensures Prints(keys + {k}) == Prints(keys) + {Render(k)}
  {
  }

  lemma JoinAssociates(a: RuleLists, b: RuleLists, c: RuleLists)
    ensures Join(Join(a, b), c) == Join(a, Join(b, c))
  {
  }
}
