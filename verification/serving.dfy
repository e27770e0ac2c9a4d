/** When a `serves` call raises, read off the relationships declared before it. */
module Serving {
  import opened Agreement
  import opened Fingerprints
  import opened History
  import opened Nsgs
  import opened NsgLayer
  import opened Programs
  import opened Traffic
  import opened VcnBuilder
  import opened Wrappers

  predicate RelationLabel(l: Label) {
    l.Out? || l.In? || l.OutSsh? || l.InSsh?
  }

  /** A relationship between a and b puts the label on the NSG with handle `owner`. */
  predicate Puts(a: Member, b: Member, step: Step, owner: nat, l: Label)
    requires step.Relate? && RelationLabel(l)
  {
    match l
    case Out(name, port) => a.id == owner && b.name == name && step.port == port
    case In(name, port) => b.id == owner && a.name == name && step.port == port
    case OutSsh(name) => NeedsSsh(step.withSsh, b.role) && a.id == owner && b.name == name
    case InSsh(name) => NeedsSsh(step.withSsh, b.role) && b.id == owner && a.name == name
  }

  function RelationLabels(a: Member, b: Member, port: nat): seq<Label> {
    [Out(b.name, port), In(a.name, port), OutSsh(b.name), InSsh(a.name)]
  }

  lemma RelationPuts(a: Member, b: Member, step: Step, owner: nat, l: Label)
    requires step.Relate? && RelationLabel(l)
    ensures (exists g :: g in ServesGrants(a, b, step.port, step.withSsh)
                         && g.owner == owner && g.tag == RenderLabel(l))
            <==> Puts(a, b, step, owner, l)
  {
    hide RenderLabel;
    var grants, labels := ServesGrants(a, b, step.port, step.withSsh), RelationLabels(a, b, step.port);
    forall i | 0 <= i < |grants|
      ensures grants[i].tag == RenderLabel(labels[i]) && grants[i].owner == (if i % 2 == 0 then a.id else b.id)
    {
    }
    if g :| g in grants && g.owner == owner && g.tag == RenderLabel(l) {
      var i :| 0 <= i < |grants| && grants[i] == g;
      LabelInjective(labels[i], l);
    }
    if Puts(a, b, step, owner, l) {
      var i := if l.Out? then 0 else if l.In? then 1 else if l.OutSsh? then 2 else 3;
      assert l == labels[i] && grants[i] in grants;
    }
  }

  /** Ambient rules never use the labels of relationships. */
  lemma {:induction false} AmbientPutsNone(id: nat, role: Role, ports: seq<nat>, g: Grant, l: Label)
    requires g in AmbientGrants(id, role, ports) && RelationLabel(l)
    ensures g.tag != RenderLabel(l)
  {
    var i :| 0 <= i < |AmbientGrants(id, role, ports)| && AmbientGrants(id, role, ports)[i] == g;
    AmbientTags(id, role, ports, i);
    if g.tag == RenderLabel(l) {
      LabelInjective(AmbientLabels(role, ports)[i], l);
    }
  }

  predicate PutEarlier(h: seq<Step>, owner: nat, l: Label)
    requires RelationLabel(l)
  {
    exists j :: 0 <= j < |h| && h[j].Relate? && h[j].src in Roster(h) && h[j].tgt in Roster(h)
      && Puts(Roster(h)[h[j].src], Roster(h)[h[j].tgt], h[j], owner, l)
  }

  lemma {:induction false} TakenMeansPut(site: Site, h: seq<Step>, owner: nat, l: Label)
    requires AllAllowed(site, h) && NoManualRules(h) && RelationLabel(l)
    ensures TagTaken(GrantsOf(h), owner, RenderLabel(l)) <==> PutEarlier(h, owner, l)
  {
    hide RenderLabel, GrantsOf, Roster, Puts, ServesGrants, AmbientGrants;
    if TagTaken(GrantsOf(h), owner, RenderLabel(l)) {
      var g :| g in GrantsOf(h) && g.owner == owner && g.tag == RenderLabel(l);
      var j := GrantOrigin(h, g);
      if h[j].Relate? {
        RelateEnds(site, h, j);
        RelationPuts(Roster(h)[h[j].src], Roster(h)[h[j].tgt], h[j], owner, l);
      } else {
        AmbientPutsNone(h[j].id, h[j].role.value, h[j].ports, g, l);
      }
    }
    if PutEarlier(h, owner, l) {
      var j :| 0 <= j < |h| && h[j].Relate? && h[j].src in Roster(h) && h[j].tgt in Roster(h)
        && Puts(Roster(h)[h[j].src], Roster(h)[h[j].tgt], h[j], owner, l);
      RelateEnds(site, h, j);
      RelationPuts(Roster(h)[h[j].src], Roster(h)[h[j].tgt], h[j], owner, l);
      var g :| g in ServesGrants(Roster(h)[h[j].src], Roster(h)[h[j].tgt], h[j].port, h[j].withSsh)
        && g.owner == owner && g.tag == RenderLabel(l);
      GrantsGrow(h, j, g);
    }
  }

  // ---- The condition ---------------------------------------------------------------------------------

  /** The earlier relationship shares an end with this one and gives its other end the same name. */
  predicate SameEnds(roster: map<nat, Member>, earlier: Step, src: nat, tgt: nat)
    requires earlier.Relate? && src in roster && tgt in roster && earlier.src in roster && earlier.tgt in roster
  {
    || (earlier.src == src && roster[earlier.tgt].name == roster[tgt].name)
    || (earlier.tgt == tgt && roster[earlier.src].name == roster[src].name)
  }

  predicate SameChannel(roster: map<nat, Member>, earlier: Step, tgt: nat, port: nat, withSsh: bool)
    requires earlier.Relate? && tgt in roster && earlier.tgt in roster
  {
    earlier.port == port
    || (NeedsSsh(withSsh, roster[tgt].role) && NeedsSsh(earlier.withSsh, roster[earlier.tgt].role))
  }

  /** The port between these ends, or an SSH channel both need, was declared before. */
  predicate Repeats(h: seq<Step>, src: nat, tgt: nat, port: nat, withSsh: bool)
    requires src in Roster(h) && tgt in Roster(h)
  {
    exists j :: 0 <= j < |h| && h[j].Relate? && h[j].src in Roster(h) && h[j].tgt in Roster(h)
      && SameEnds(Roster(h), h[j], src, tgt) && SameChannel(Roster(h), h[j], tgt, port, withSsh)
  }

  lemma RepeatsIsPut(h: seq<Step>, src: nat, tgt: nat, port: nat, withSsh: bool)
    requires src in Roster(h) && tgt in Roster(h)
    requires forall id :: id in Roster(h) ==> Roster(h)[id].id == id
    ensures var a, b := Roster(h)[src], Roster(h)[tgt];
            Repeats(h, src, tgt, port, withSsh) <==>
            || PutEarlier(h, src, Out(b.name, port)) || PutEarlier(h, tgt, In(a.name, port))
            || (NeedsSsh(withSsh, b.role) && (PutEarlier(h, src, OutSsh(b.name)) || PutEarlier(h, tgt, InSsh(a.name))))
  {
    hide Roster;
  }

  /**
   A `serves` call raises the duplicate-label error if and only if the same port, or an SSH channel it needs, was
   declared before between these ends; it raises the finalised error if and only if it does not, and one of its
   fingerprints was not registered before finalisation; otherwise it raises nothing.
   */
  lemma {:induction false} ServesRaises(site: Site, h: seq<Step>, step: Step)
    requires RunOn(site, h).Ok() && NoManualRules(h) && step.Relate?
    requires step.src in Roster(h) && step.tgt in Roster(h)
    ensures var raised := Exec(RunOn(site, h).state, step).raised;
            var repeats := Repeats(h, step.src, step.tgt, step.port, step.withSsh);
            var known := CallsAllowed(site, h, StepCalls(site, Roster(h), step));
            raised == if repeats then Some(DuplicateLabel) else if known then None else Some(AlreadyFinalized)
  {
    hide RenderLabel, Run, Allowed, PutEarlier, Repeats, CallsAllowed, Roster, GrantsOf, TagTaken, Holds;
    RunsAgree(site, h);
    var s := RunOn(site, h).state;
    var a, b := Roster(h)[step.src], Roster(h)[step.tgt];
    forall id | id in Roster(h)
      ensures Roster(h)[id].id == id
    {
      MembersKnowTheirIds(h, id);
    }
    RepeatsIsPut(h, step.src, step.tgt, step.port, step.withSsh);
    TakenMeansPut(site, h, step.src, Out(b.name, step.port));
    TakenMeansPut(site, h, step.tgt, In(a.name, step.port));
    TakenMeansPut(site, h, step.src, OutSsh(b.name));
    TakenMeansPut(site, h, step.tgt, InSsh(a.name));
    RosterIds(h, s.groups, step.src);
    RosterIds(h, s.groups, step.tgt);
    FreshMeansUnput(GrantsOf(h), a, b, step.port, step.withSsh);
    GrantsMatch(h, s.groups, step, ServesGrants(a, b, step.port, step.withSsh));
    GrantErrors(s.groups, ServesGrants(a, b, step.port, step.withSsh));
    GroupStepCalls(site, h, s.vcn, step);
    CallErrors(s.vcn, StepCalls(site, Roster(h), step));
  }

  lemma FreshMeansUnput(grants: seq<Grant>, a: Member, b: Member, port: nat, withSsh: bool)
    ensures FreshTags(grants, ServesGrants(a, b, port, withSsh)) <==>
            && !TagTaken(grants, a.id, RenderLabel(Out(b.name, port)))
                && !TagTaken(grants, b.id, RenderLabel(In(a.name, port)))
            && (NeedsSsh(withSsh, b.role) ==>
                  !TagTaken(grants, a.id, RenderLabel(OutSsh(b.name)))
                      && !TagTaken(grants, b.id, RenderLabel(InSsh(a.name))))
  {
    hide RenderLabel, TagTaken, Clash;
    ServesGrantsDiffer(a, b, port, withSsh);
    var all := ServesGrants(a, b, port, withSsh);
    assert all[0] in all && all[1] in all;
    if NeedsSsh(withSsh, b.role) {
      assert all[2] in all && all[3] in all;
    }
  }

  lemma {:induction false} GrantErrors(m: Groups, grants: seq<Grant>)
    requires forall g :: g in grants ==> g.owner in m
    ensures RunGrants(m, grants).Ok() || RunGrants(m, grants).raised == Some(DuplicateLabel)
    decreases |grants|
  {
    if grants != [] && RunGrant(m, grants[0]).Ok() {
      GrantErrors(RunGrant(m, grants[0]).state, grants[1..]);
    }
  }

  lemma {:induction false} CallErrors(v: VcnState, calls: seq<Call>)
    ensures RunCalls(v, calls).Ok() || RunCalls(v, calls).raised == Some(AlreadyFinalized)
    decreases |calls|
  {
    if calls != [] && RunCall(v, calls[0]).Ok() {
      CallErrors(RunCall(v, calls[0]).state, calls[1..]);
    }
  }

  /** With distinct names the condition speaks of the very same two NSGs. */
  lemma RepeatsWithDistinctNames(h: seq<Step>, src: nat, tgt: nat, port: nat, withSsh: bool)
    requires src in Roster(h) && tgt in Roster(h)
    requires forall x, y :: x in Roster(h) && y in Roster(h) && Roster(h)[x].name == Roster(h)[y].name ==> x == y
    ensures Repeats(h, src, tgt, port, withSsh) <==>
            exists j :: 0 <= j < |h| && h[j].Relate? && h[j].src == src && h[j].tgt == tgt
              && (h[j].port == port
                  || (NeedsSsh(withSsh, Roster(h)[tgt].role) && NeedsSsh(h[j].withSsh, Roster(h)[tgt].role)))
  {
    hide Roster;
    if Repeats(h, src, tgt, port, withSsh) {
      var j :| 0 <= j < |h| && h[j].Relate? && h[j].src in Roster(h) && h[j].tgt in Roster(h)
        && SameEnds(Roster(h), h[j], src, tgt) && SameChannel(Roster(h), h[j], tgt, port, withSsh);
      SameNames(Roster(h), h[j], src, tgt);
    }
  }

  lemma SameNames(roster: map<nat, Member>, earlier: Step, src: nat, tgt: nat)
    requires earlier.Relate? && src in roster && tgt in roster && earlier.src in roster && earlier.tgt in roster
    requires forall x, y :: x in roster && y in roster && roster[x].name == roster[y].name ==> x == y
    ensures SameEnds(roster, earlier, src, tgt) <==> earlier.src == src && earlier.tgt == tgt
  {
  }
}
