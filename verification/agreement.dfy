/** The builder, the NSGs and the history reading agree, step by step and over whole runs. */
module Agreement {
  import opened Fingerprints
  import opened History
  import opened Nsgs
  import opened Oke
  import opened Programs
  import opened Rules
  import opened Spells
  import opened VcnBuilder
  import opened Wrappers

  // ---- Calls on an open network ----------------------------------------------------------------------

  /** The state of an open builder after the given calls. */
  function OpenState(v: VcnState, calls: seq<Call>): VcnState {
    v.(pending := Join(Seed(v.cidr), Gather(Accepted(calls))), fingerprints := Prints(KeysIn(calls)),
        finalized := false)
  }

  lemma CallsSnoc(calls: seq<Call>, c: Call)
    ensures KeysIn(calls + [c]) == if c.Unique? then KeysIn(calls) + {c.key} else KeysIn(calls)
    ensures Accepted(calls + [c]) == if c.Unique? && c.key in KeysIn(calls) then Accepted(calls)
        else Accepted(calls) + [c]
  {
    assert (calls + [c])[..|calls|] == calls;
    KeysInAppend(calls, [c]);
    assert KeysIn([c]) == if c.Unique? then {c.key} else {};
  }

  lemma GatherSnoc(calls: seq<Call>, c: Call)
    ensures Gather(calls + [c]) == Join(Gather(calls), CallLists(c))
  {
    assert (calls + [c])[..|calls|] == calls;
  }

  /** On an open network a call never raises, and deduplication by fingerprint is deduplication by key. */
  lemma OpenCall(v: VcnState, calls: seq<Call>, c: Call)
    ensures RunCall(OpenState(v, calls), c) == Outcome(OpenState(v, calls + [c]), None)
  {
    CallsSnoc(calls, c);
    GatherSnoc(Accepted(calls), c);
    JoinAssociates(Seed(v.cidr), Gather(Accepted(calls)), CallLists(c));
    if c.Unique? {
      PrintsMember(c.key, KeysIn(calls));
      PrintsAdd(KeysIn(calls), c.key);
      assert c.key in KeysIn(calls) ==> KeysIn(calls) + {c.key} == KeysIn(calls);
    }
  }

  /** If every single call steps from one state of a family to the next, so does every sequence of calls. */
  lemma {:induction false} StepsCompose(family: seq<Call> -> VcnState, calls: seq<Call>, more: seq<Call>)
    requires forall cs: seq<Call>, c: Call :: RunCall(family(cs), c) == Outcome(family(cs + [c]), None)
    ensures RunCalls(family(calls), more) == Outcome(family(calls + more), None)
    decreases |more|
  {
    if more == [] {
      assert calls + more == calls;
    } else {
      StepsCompose(family, calls + [more[0]], more[1..]);
      assert calls + [more[0]] + more[1..] == calls + more;
    }
  }

  lemma OpenCalls(v: VcnState, calls: seq<Call>, more: seq<Call>)
    ensures RunCalls(OpenState(v, calls), more) == Outcome(OpenState(v, calls + more), None)
  {
    var family := cs => OpenState(v, cs);
    forall cs: seq<Call>, c: Call
      ensures RunCall(family(cs), c) == Outcome(family(cs + [c]), None)
    {
      OpenCall(v, cs, c);
    }
    StepsCompose(family, calls, more);
  }

  /** On a finalised network calls pass exactly when every one is fingerprinted and registered, and change nothing. */
  lemma {:induction false} ClosedCalls(v: VcnState, keys: set<Key>, more: seq<Call>)
    requires v.finalized && v.fingerprints == Prints(keys)
    ensures RunCalls(v, more).Ok() <==> forall c :: c in more ==> c.Unique? && c.key in keys
    ensures RunCalls(v, more).Ok() ==> RunCalls(v, more).state == v
    decreases |more|
  {
    if more != [] {
      if more[0].Unique? {
        PrintsMember(more[0].key, keys);
      }
      assert more == [more[0]] + more[1..];
      if RunCall(v, more[0]).Ok() {
        ClosedCalls(v, keys, more[1..]);
      }
    }
  }

  // ---- Grants ----------------------------------------------------------------------------------------

  predicate Clash(grants: seq<Grant>) {
    exists i, j :: 0 <= i < j < |grants| && grants[i].owner == grants[j].owner && grants[i].tag == grants[j].tag
  }

  lemma HoldsPush(n: NsgState, held: seq<Grant>, g: Grant)
    requires Holds(n, held) && g.tag !in n.labels
    ensures Holds(WithRule(n, g.tag, g.dir, g.rule).state, held + [g])
  {
    var n' := WithRule(n, g.tag, g.dir, g.rule).state;
    forall tag
      ensures tag in n'.labels <==> exists i :: 0 <= i < |held + [g]| && (held + [g])[i].tag == tag
    {
      if tag in n'.labels {
        if tag == g.tag {
          assert (held + [g])[|held|].tag == tag;
        } else {
          var i :| 0 <= i < |held| && held[i].tag == tag;
          assert (held + [g])[i].tag == tag;
        }
      }
    }
  }

  /** All groups hold the grants addressed to them. */
  ghost predicate AllHold(m: Groups, grants: seq<Grant>) {
    forall id :: id in m ==> Holds(m[id], OwnedBy(grants, id))
  }

  lemma TagTakenIsLabel(m: Groups, grants: seq<Grant>, id: nat, tag: string)
    requires id in m && AllHold(m, grants)
    ensures tag in m[id].labels <==> TagTaken(grants, id, tag)
  {
    var own := OwnedBy(grants, id);
    if TagTaken(grants, id, tag) {
      var g :| g in grants && g.owner == id && g.tag == tag;
      OwnedByMember(grants, id, g);
      var i :| 0 <= i < |own| && own[i] == g;
    }
    if tag in m[id].labels {
      var i :| 0 <= i < |own| && own[i].tag == tag;
      OwnedByMember(grants, id, own[i]);
    }
  }

  /** Granting raises exactly on a repeated label; otherwise every group gains the grants addressed to it. */
  lemma {:induction false} GrantsAgree(m: Groups, grants: seq<Grant>, more: seq<Grant>)
    requires AllHold(m, grants) && forall g :: g in more ==> g.owner in m
    ensures RunGrants(m, more).Ok() <==> FreshTags(grants, more)
    ensures RunGrants(m, more).Ok() ==> AllHold(RunGrants(m, more).state, grants + more)
    decreases |more|
  {
    hide Holds, TagTaken, WithRule;
    if more == [] {
      assert grants + more == grants;
    } else {
      var g, rest := more[0], more[1..];
      assert more == [g] + rest;
      FreshCons(grants, g, rest);
      FirstGrant(m, grants, g);
      if !TagTaken(grants, g.owner, g.tag) {
        GrantsAgree(RunGrant(m, g).state, grants + [g], rest);
        assert grants + [g] + rest == grants + more;
      }
    }
  }

  lemma {:induction false} FirstGrant(m: Groups, grants: seq<Grant>, g: Grant)
    requires AllHold(m, grants) && g.owner in m
    ensures RunGrant(m, g).Ok() <==> !TagTaken(grants, g.owner, g.tag)
    ensures RunGrant(m, g).Ok() ==> AllHold(RunGrant(m, g).state, grants + [g])
  {
    TagTakenIsLabel(m, grants, g.owner, g.tag);
    if !TagTaken(grants, g.owner, g.tag) {
      OneGrant(m, grants, g);
    }
  }

  /** Granting never changes who a group is, whether or not it raises. */
  lemma {:induction false} GrantsKeepMembers(m: Groups, more: seq<Grant>)
    requires forall g :: g in more ==> g.owner in m
    ensures forall id :: id in m ==> MemberOf(RunGrants(m, more).state, id) == MemberOf(m, id)
    decreases |more|
  {
    if more != [] && RunGrant(m, more[0]).Ok() {
      GrantsKeepMembers(RunGrant(m, more[0]).state, more[1..]);
    }
  }

  /** Labels a sequence of grants may use: none taken before, none repeated within. */
  predicate FreshTags(grants: seq<Grant>, more: seq<Grant>) {
    !Clash(more) && forall g :: g in more ==> !TagTaken(grants, g.owner, g.tag)
  }

  lemma FreshCons(grants: seq<Grant>, g: Grant, rest: seq<Grant>)
    ensures FreshTags(grants, [g] + rest) <==> !TagTaken(grants, g.owner, g.tag) && FreshTags(grants + [g], rest)
  {
    ClashCons(g, rest);
    assert g in [g] + rest;
    forall h | h in rest
      ensures h in [g] + rest
      ensures TagTaken(grants + [g], h.owner, h.tag) <==>
              TagTaken(grants, h.owner, h.tag) || (h.owner == g.owner && h.tag == g.tag)
    {
      TagTakenSnoc(grants, g, h.owner, h.tag);
    }
  }

  lemma {:induction false} OneGrant(m: Groups, grants: seq<Grant>, g: Grant)
    requires AllHold(m, grants) && g.owner in m && !TagTaken(grants, g.owner, g.tag)
    ensures RunGrant(m, g).Ok() && AllHold(RunGrant(m, g).state, grants + [g])
  {
    TagTakenIsLabel(m, grants, g.owner, g.tag);
    var m' := RunGrant(m, g).state;
    forall id | id in m'
      ensures Holds(m'[id], OwnedBy(grants + [g], id))
    {
      assert (grants + [g])[..|grants|] == grants;
      if id == g.owner {
        HoldsPush(m[id], OwnedBy(grants, id), g);
      }
    }
  }

  lemma TagTakenSnoc(grants: seq<Grant>, g: Grant, owner: nat, tag: string)
    ensures TagTaken(grants + [g], owner, tag) <==> TagTaken(grants, owner, tag) || (owner == g.owner && tag == g.tag)
  {
    assert g in grants + [g];
    if TagTaken(grants, owner, tag) {
      var h :| h in grants && h.owner == owner && h.tag == tag;
      assert h in grants + [g];
    }
  }

  lemma ClashCons(g: Grant, rest: seq<Grant>)
    ensures Clash([g] + rest) <==> Clash(rest) || exists h :: h in rest && h.owner == g.owner && h.tag == g.tag
  {
    var all := [g] + rest;
    if Clash(all) {
      var i, j :| 0 <= i < j < |all| && all[i].owner == all[j].owner && all[i].tag == all[j].tag;
      assert all[j] == rest[j - 1];
      if i > 0 {
        assert all[i] == rest[i - 1];
      } else {
        assert rest[j - 1] in rest;
      }
    }
    if Clash(rest) {
      var i, j :| 0 <= i < j < |rest| && rest[i].owner == rest[j].owner && rest[i].tag == rest[j].tag;
      assert all[i + 1] == rest[i] && all[j + 1] == rest[j];
    }
    if h :| h in rest && h.owner == g.owner && h.tag == g.tag {
      var j :| 0 <= j < |rest| && rest[j] == h;
      assert all[0] == g && all[j + 1] == h;
    }
  }

  /** The rules of one relationship never clash with each other, even when an NSG serves itself. */
  lemma ServesGrantsDiffer(a: Member, b: Member, port: nat, withSsh: bool)
    ensures !Clash(ServesGrants(a, b, port, withSsh))
  {
    var labels := [Out(b.name, port), In(a.name, port), OutSsh(b.name), InSsh(a.name)];
    var grants := ServesGrants(a, b, port, withSsh);
    forall i, j | 0 <= i < j < |grants|
      ensures grants[i].tag != grants[j].tag
    {
      assert grants[i].tag == RenderLabel(labels[i]) && grants[j].tag == RenderLabel(labels[j]);
      if grants[i].tag == grants[j].tag {
        LabelInjective(labels[i], labels[j]);
      }
    }
  }

  function AmbientLabels(role: Role, ports: seq<nat>): seq<Label> {
    (if role.tier == Public then seq(|ports|, i requires 0 <= i < |ports| => InternetIn(ports[i])) else [])
    + (if role.egressServices then [ServicesOut] else [])
    + (if role.egressInternet then [InternetOut] else [])
  }

  lemma AmbientTags(id: nat, role: Role, ports: seq<nat>, i: nat)
    requires i < |AmbientGrants(id, role, ports)|
    ensures |AmbientLabels(role, ports)| == |AmbientGrants(id, role, ports)|
    ensures AmbientGrants(id, role, ports)[i].tag == RenderLabel(AmbientLabels(role, ports)[i])
    ensures AmbientGrants(id, role, ports)[i].owner == id
  {
  }

  /** Ambient rules clash exactly when an internet-facing role lists a port twice. */
  lemma AmbientGrantsDiffer(id: nat, role: Role, ports: seq<nat>)
    ensures Clash(AmbientGrants(id, role, ports)) <==> role.tier == Public && !DistinctPorts(ports)
  {
    var grants := AmbientGrants(id, role, ports);
    if Clash(grants) {
      var i, j :| 0 <= i < j < |grants| && grants[i].owner == grants[j].owner && grants[i].tag == grants[j].tag;
      SameAmbientTag(id, role, ports, i, j);
    }
    if role.tier == Public && !DistinctPorts(ports) {
      var i, j :| 0 <= i < j < |ports| && ports[i] == ports[j];
      assert grants[i] == PortGrants(id, ports)[i] && grants[j] == PortGrants(id, ports)[j];
    }
  }

  lemma SameAmbientTag(id: nat, role: Role, ports: seq<nat>, i: nat, j: nat)
    requires i < j < |AmbientGrants(id, role, ports)|
    requires AmbientGrants(id, role, ports)[i].tag == AmbientGrants(id, role, ports)[j].tag
    ensures role.tier == Public && j < |ports| && ports[i] == ports[j]
  {
    AmbientTags(id, role, ports, i);
    AmbientTags(id, role, ports, j);
    LabelInjective(AmbientLabels(role, ports)[i], AmbientLabels(role, ports)[j]);
  }

  // ---- The VCN, step by step -------------------------------------------------------------------------

  lemma MatchesOpen(site: Site, h: seq<Step>, v: VcnState)
    requires VcnMatches(site, h, v) && !Closed(h)
    ensures v == OpenState(v, CallsOf(site, h))
  {
  }

  /** Contributions to an open network, by a step that leaves it open. */
  lemma {:induction false} OpenStep(site: Site, h: seq<Step>, v: VcnState, step: Step)
    requires VcnMatches(site, h, v) && !Closed(h)
    ensures var o := RunCalls(v, StepCalls(site, Roster(h), step));
            && o.Ok() && !o.state.finalized
            && (!Finalising(step) ==> VcnMatches(site, h + [step], o.state))
            && (Finalising(step) ==> VcnMatches(site, h + [step], Finalized(o.state)))
  {
    MatchesOpen(site, h, v);
    OpenCalls(v, CallsOf(site, h), StepCalls(site, Roster(h), step));
    Snoc(site, h, step);
  }

  lemma MatchesIgnoresLogs(site: Site, h: seq<Step>, v: VcnState, n: nat)
    requires VcnMatches(site, h, v)
    ensures VcnMatches(site, h, v.(flowLogs := n))
  {
  }

  /** A spell on an open network raises only for want of a valid log retention. */
  lemma OpenContribute(site: Site, h: seq<Step>, v: VcnState, step: Step)
    requires VcnMatches(site, h, v) && !Closed(h) && Finalising(step)
    ensures var o := Contribute(v, StepCalls(site, Roster(h), step));
            && (o.Ok() <==> LogsCanBeMade(site))
            && (o.Ok() ==> VcnMatches(site, h + [step], o.state))
  {
    OpenStep(site, h, v, step);
    FinalizeOnce(RunCalls(v, StepCalls(site, Roster(h), step)).state);
  }

  /** Calls on a closed network. */
  lemma {:induction false} ClosedStep(site: Site, h: seq<Step>, v: VcnState, calls: seq<Call>)
    requires VcnMatches(site, h, v) && Closed(h)
    ensures RunCalls(v, calls).Ok() <==> CallsAllowed(site, h, calls)
    ensures RunCalls(v, calls).Ok() ==> RunCalls(v, calls).state == v
  {
    ClosedCalls(v, KeysIn(CallsOf(site, h)), calls);
  }

  lemma ClosedStays(site: Site, h: seq<Step>, v: VcnState, step: Step)
    requires VcnMatches(site, h, v) && Closed(h)
    ensures VcnMatches(site, h + [step], v)
  {
    Snoc(site, h, step);
  }

  /** The contributions of an NSG step, on an open or a closed network. */
  lemma GroupStepCalls(site: Site, h: seq<Step>, v: VcnState, step: Step)
    requires VcnMatches(site, h, v) && GroupStep(step)
    ensures var calls := StepCalls(site, Roster(h), step);
            && (RunCalls(v, calls).Ok() <==> CallsAllowed(site, h, calls))
            && (RunCalls(v, calls).Ok() ==> VcnMatches(site, h + [step], RunCalls(v, calls).state))
  {
    if Closed(h) {
      ClosedStep(site, h, v, StepCalls(site, Roster(h), step));
      ClosedStays(site, h, v, step);
    } else {
      OpenStep(site, h, v, step);
    }
  }

  predicate DirectCaller(step: Step) {
    step.BuildLoadBalancer? || step.BuildInternalLoadBalancer? || step.BuildWorkload? || step.BuildCluster?
  }

  /** The four spells with a direct rule call always fail on a closed network. */
  lemma {:induction false} DirectCallersNeedOpen(site: Site, h: seq<Step>, v: VcnState, step: Step)
    requires VcnMatches(site, h, v) && Closed(h) && DirectCaller(step)
    ensures !RunCalls(v, StepCalls(site, Roster(h), step)).Ok()
  {
    hide VcnMatches, Closed, Roster, ForwardingLists, ClusterLists;
    var calls := StepCalls(site, Roster(h), step);
    ClosedStep(site, h, v, calls);
    assert calls[|calls| - 1].Direct? && calls[|calls| - 1] in calls;
  }

  /** A step that involves no NSG. */
  lemma VcnStepAgrees(site: Site, h: seq<Step>, v: VcnState, step: Step)
    requires VcnMatches(site, h, v) && !GroupStep(step)
    ensures VcnEffect(v, step).Ok() <==> Allowed(site, h, step)
    ensures VcnEffect(v, step).Ok() ==> VcnMatches(site, h + [step], VcnEffect(v, step).state)
  {
    hide CallsOf, KeysIn, Prints, ListsOf, Closed, Roster;
    if step.DirectRules? {
      DirectStepAgrees(site, h, v, step);
    } else if step.BuildFlowLogs? {
      LogStepAgrees(site, h, v, step);
    } else if Closed(h) {
      ClosedSpellAgrees(site, h, v, step);
    } else {
      OpenContribute(site, h, v, step);
      if step.FinalizeExplicitly? {
        assert Contribute(v, []) == Finalize(v);
      }
    }
  }

  lemma {:induction false} DirectStepAgrees(site: Site, h: seq<Step>, v: VcnState, step: Step)
    requires VcnMatches(site, h, v) && step.DirectRules?
    ensures VcnEffect(v, step).Ok() <==> Allowed(site, h, step)
    ensures VcnEffect(v, step).Ok() ==> VcnMatches(site, h + [step], VcnEffect(v, step).state)
  {
    RunOneCall(v, Direct(step.lists));
    if !Closed(h) {
      OpenStep(site, h, v, step);
    }
  }

  lemma LogStepAgrees(site: Site, h: seq<Step>, v: VcnState, step: Step)
    requires VcnMatches(site, h, v) && step.BuildFlowLogs?
    ensures VcnEffect(v, step).Ok() <==> Allowed(site, h, step)
    ensures VcnEffect(v, step).Ok() ==> VcnMatches(site, h + [step], VcnEffect(v, step).state)
  {
    hide ListsOf, CallsOf, KeysIn, Roster, Closed, Prints;
    var o := Finalize(v);
    FinalizeOnce(v);
    if Closed(h) {
      ClosedStays(site, h, v, step);
    } else {
      OpenContribute(site, h, v, step);
      assert Contribute(v, []) == o;
    }
    if o.Ok() {
      MatchesIgnoresLogs(site, h + [step], o.state, o.state.flowLogs + 1);
    }
  }

  lemma ClosedSpellAgrees(site: Site, h: seq<Step>, v: VcnState, step: Step)
    requires VcnMatches(site, h, v) && Closed(h) && Finalising(step) && !step.BuildFlowLogs?
    ensures VcnEffect(v, step).Ok() <==> Allowed(site, h, step)
    ensures VcnEffect(v, step).Ok() ==> VcnMatches(site, h + [step], VcnEffect(v, step).state)
  {
    hide ListsOf, Roster;
    ClosedStays(site, h, v, step);
    assert Contribute(v, []) == Outcome(v, None);
    PrintsMember(BastionSsh, KeysIn(CallsOf(site, h)));
    if DirectCaller(step) {
      DirectCallersNeedOpen(site, h, v, step);
    }
  }

  // ---- NSG steps -------------------------------------------------------------------------------------

  /** The program's objects agree with its history. */
  ghost predicate Agrees(site: Site, h: seq<Step>, s: ProgramState) {
    VcnMatches(site, h, s.vcn) && GroupsMatch(h, s.groups)
  }

  lemma RosterIds(h: seq<Step>, m: Groups, id: nat)
    requires GroupsMatch(h, m) && id in m
    ensures Roster(h)[id] == MemberOf(m, id)
  {
  }

  lemma {:induction false} GrantsMatch(h: seq<Step>, m: Groups, step: Step, more: seq<Grant>)
    requires GroupsMatch(h, m) && !step.BuildNsg? && more == StepGrants(Roster(h), step)
    requires forall g :: g in more ==> g.owner in m
    ensures RunGrants(m, more).Ok() <==> FreshTags(GrantsOf(h), more)
    ensures RunGrants(m, more).Ok() ==> GroupsMatch(h + [step], RunGrants(m, more).state)
  {
    assert (h + [step])[..|h|] == h;
    GrantsAgree(m, GrantsOf(h), more);
    GrantsKeepMembers(m, more);
  }

  lemma {:induction false} RelateAgrees(site: Site, h: seq<Step>, s: ProgramState, step: Step)
    requires Agrees(site, h, s) && step.Relate?
    ensures Exec(s, step).Ok() <==> Allowed(site, h, step)
    ensures Exec(s, step).Ok() ==> Agrees(site, h + [step], Exec(s, step).state)
  {
    hide ListsOf, CallsOf, CallsAllowed, TagTaken, RunGrants, RunCalls, ServesCalls, Holds, OwnedBy, GrantsOf, Roster,
        Closed, Prints;
    if step.src in s.groups && step.tgt in s.groups {
      var a, b := MemberOf(s.groups, step.src), MemberOf(s.groups, step.tgt);
      RosterIds(h, s.groups, step.src);
      RosterIds(h, s.groups, step.tgt);
      var grants := ServesGrants(a, b, step.port, step.withSsh);
      assert grants == StepGrants(Roster(h), step);
      ServesGrantsDiffer(a, b, step.port, step.withSsh);
      GrantsMatch(h, s.groups, step, grants);
      GroupStepCalls(site, h, s.vcn, step);
    }
  }

  lemma {:induction false} ManualAgrees(site: Site, h: seq<Step>, s: ProgramState, step: Step)
    requires Agrees(site, h, s) && step.ManualRule?
    ensures Exec(s, step).Ok() <==> Allowed(site, h, step)
    ensures Exec(s, step).Ok() ==> Agrees(site, h + [step], Exec(s, step).state)
  {
    hide ListsOf, CallsOf, CallsAllowed, TagTaken;
    if step.id in s.groups {
      var g := Grant(step.id, step.tag, step.dir, step.rule);
      RunOneGrant(s.groups, g);
      GrantsMatch(h, s.groups, step, [g]);
      GroupStepCalls(site, h, s.vcn, step);
      assert FreshTags(GrantsOf(h), [g]) <==> !TagTaken(GrantsOf(h), step.id, step.tag) by {
        assert g in [g];
      }
    }
  }

  lemma {:induction false} NoneOwned(grants: seq<Grant>, id: nat)
    requires forall g :: g in grants ==> g.owner != id
    ensures OwnedBy(grants, id) == []
    decreases |grants|
  {
    if grants != [] {
      assert grants[|grants| - 1] in grants;
      NoneOwned(grants[..|grants| - 1], id);
    }
  }

  /** The rules of a freshly built NSG. */
  lemma BuiltAlone(id: nat, name: string, role: Role, ports: seq<nat>)
    ensures var o := RunGrants(map[id := Empty(name, Some(role))], AmbientGrants(id, role, ports));
            && (o.Ok() <==> !(role.tier == Public && !DistinctPorts(ports)))
            && MemberOf(o.state, id) == Member(id, name, Some(role))
            && (o.Ok() ==> Holds(o.state[id], OwnedBy(AmbientGrants(id, role, ports), id)))
  {
    var alone: Groups := map[id := Empty(name, Some(role))];
    var grants := AmbientGrants(id, role, ports);
    assert [] + grants == grants;
    GrantsAgree(alone, [], grants);
    AmbientGrantsDiffer(id, role, ports);
    GrantsKeepMembers(alone, grants);
  }

  /** Adding a new NSG with its own grants to the roster. */
  lemma {:induction false} GroupsGain(h: seq<Step>, m: Groups, step: Step, n: NsgState)
    requires GroupsMatch(h, m) && step.BuildNsg? && step.id !in m
    requires n.name == step.name && n.role == step.role
    requires Holds(n, OwnedBy(StepGrants(Roster(h), step), step.id))
    requires forall g :: g in StepGrants(Roster(h), step) ==> g.owner == step.id
    ensures GroupsMatch(h + [step], m[step.id := n])
  {
    hide Holds, StepGrants, Roster, GrantsOf, OwnedBy;
    var more, m' := StepGrants(Roster(h), step), m[step.id := n];
    SnocGroups(h, step);
    forall id | id in m'
      ensures Holds(m'[id], OwnedBy(GrantsOf(h + [step]), id))
    {
      OwnedByAppend(GrantsOf(h), more, id);
      if id == step.id {
        NoneOwned(GrantsOf(h), id);
        assert [] + OwnedBy(more, id) == OwnedBy(more, id);
      } else {
        NoneOwned(more, id);
        assert OwnedBy(GrantsOf(h), id) + [] == OwnedBy(GrantsOf(h), id);
      }
    }
  }

  /** Building an NSG, apart from the roster. */
  lemma {:induction false} BuildGroupAgrees(site: Site, h: seq<Step>, v: VcnState, step: Step)
    requires VcnMatches(site, h, v) && step.BuildNsg? && step.id !in Roster(h)
    ensures var o := BuildGroup(v, step.id, step.name, step.role, step.ports);
            && (o.Ok() <==> Allowed(site, h, step))
            && (o.Ok() ==>
                  && VcnMatches(site, h + [step], o.state.0)
                  && o.state.1.name == step.name && o.state.1.role == step.role
                  && Holds(o.state.1, OwnedBy(StepGrants(Roster(h), step), step.id)))
  {
    hide VcnMatches, Holds, DistinctPorts, CallsAllowed, RunGrants, RunCalls, AmbientGrants, AmbientCalls, OwnedBy;
    GroupStepCalls(site, h, v, step);
    BuiltPlain(v, step.id, step.name);
    if step.role.Some? {
      BuiltAlone(step.id, step.name, step.role.value, step.ports);
    }
  }

  lemma BuiltPlain(v: VcnState, id: nat, name: string)
    ensures RunCalls(v, []) == Outcome(v, None) && Holds(Empty(name, None), OwnedBy([], id))
  {
  }

  lemma BuildAgrees(site: Site, h: seq<Step>, s: ProgramState, step: Step)
    requires Agrees(site, h, s) && step.BuildNsg?
    ensures Exec(s, step).Ok() <==> Allowed(site, h, step)
    ensures Exec(s, step).Ok() ==> Agrees(site, h + [step], Exec(s, step).state)
  {
    if step.id !in s.groups {
      BuildGroupAgrees(site, h, s.vcn, step);
      var o := BuildGroup(s.vcn, step.id, step.name, step.role, step.ports);
      if o.Ok() {
        AmbientOwners(step.id, step.role, step.ports, Roster(h), step);
        GroupsGain(h, s.groups, step, o.state.1);
      }
    }
  }

  lemma AmbientOwners(id: nat, role: Option<Role>, ports: seq<nat>, roster: map<nat, Member>, step: Step)
    requires step.BuildNsg? && step.id == id && step.role == role && step.ports == ports
    ensures forall g :: g in StepGrants(roster, step) ==> g.owner == id
  {
  }

  // ---- Whole runs ------------------------------------------------------------------------------------

  /** A step raises exactly when the history forbids it, and otherwise keeps objects and history in agreement. */
  lemma StepAgrees(site: Site, h: seq<Step>, s: ProgramState, step: Step)
    requires Agrees(site, h, s)
    ensures Exec(s, step).Ok() <==> Allowed(site, h, step)
    ensures Exec(s, step).Ok() ==> Agrees(site, h + [step], Exec(s, step).state)
  {
    match step
    case BuildNsg(_, _, _, _) => BuildAgrees(site, h, s, step);
    case Relate(_, _, _, _) => RelateAgrees(site, h, s, step);
    case ManualRule(_, _, _, _) => ManualAgrees(site, h, s, step);
    case _ => OtherAgrees(site, h, s, step);
  }

  lemma {:induction false} GroupsUntouched(h: seq<Step>, m: Groups, step: Step)
    requires GroupsMatch(h, m) && !GroupStep(step)
    ensures GroupsMatch(h + [step], m)
  {
    hide GrantsOf, Roster, OwnedBy, Holds;
    SnocGroups(h, step);
    assert GrantsOf(h) + [] == GrantsOf(h);
  }

  lemma OtherAgrees(site: Site, h: seq<Step>, s: ProgramState, step: Step)
    requires Agrees(site, h, s) && !GroupStep(step)
    ensures Exec(s, step).Ok() <==> Allowed(site, h, step)
    ensures Exec(s, step).Ok() ==> Agrees(site, h + [step], Exec(s, step).state)
  {
    hide VcnMatches, GroupsMatch, Allowed, VcnEffect;
    VcnStepAgrees(site, h, s.vcn, step);
    GroupsUntouched(h, s.groups, step);
  }

  /** Every step was allowed by what came before it. */
  predicate AllAllowed(site: Site, h: seq<Step>) {
    forall j {:trigger Allowed(site, h[..j], h[j])} :: 0 <= j < |h| ==> Allowed(site, h[..j], h[j])
  }

  /**
   Which programs raise, exactly: a program runs to the end if and only if each of its steps is allowed by the steps
   before it; and then every object holds what the history says.
   */
  lemma {:induction false} RunsAgree(site: Site, h: seq<Step>)
    ensures RunOn(site, h).Ok() <==> AllAllowed(site, h)
    ensures RunOn(site, h).Ok() ==> Agrees(site, h, RunOn(site, h).state)
    decreases |h|
  {
    if h == [] {
      AgreesInitially(site);
    } else {
      var init, last := h[..|h| - 1], h[|h| - 1];
      RunsAgree(site, init);
      assert init + [last] == h;
      AllAllowedSnoc(site, init, last);
      if RunOn(site, init).Ok() {
        StepAgrees(site, init, RunOn(site, init).state, last);
      }
    }
  }

  lemma AgreesInitially(site: Site)
    ensures Agrees(site, [], Initial(site.cidr, site.tiers, site.settings))
  {
  }

  lemma AllAllowedSnoc(site: Site, h: seq<Step>, step: Step)
    ensures AllAllowed(site, h + [step]) <==> AllAllowed(site, h) && Allowed(site, h, step)
  {
    var all := h + [step];
    assert all[..|h|] == h && all[|h|] == step;
    assert forall j :: 0 <= j < |h| ==> all[..j] == h[..j] && all[j] == h[j];
  }
}
