/**
 Relationships declared too late, in programs that catch the exceptions: a retry always raises, but the failures of some
 pairs silence the calls of others until one succeeds without the traffic it declared.
 */
module Retries {
  import opened Agreement
  import opened Fingerprints
  import opened Nsgs
  import opened Programs
  import opened Rules
  import opened VcnBuilder
  import opened Wrappers

  // ---- NSGs only gain labels -------------------------------------------------------------------------

  /** The groups of a later state: none lost, none renamed, no label forgotten. */
  ghost predicate GroupsGrown(m: Groups, n: Groups) {
    forall id :: id in m ==> id in n && MemberOf(n, id) == MemberOf(m, id) && m[id].labels <= n[id].labels
  }

  lemma {:induction false} GrantsGrow(m: Groups, grants: seq<Grant>)
    requires forall g :: g in grants ==> g.owner in m
    ensures GroupsGrown(m, RunGrants(m, grants).state)
    decreases |grants|
  {
    if grants != [] && RunGrant(m, grants[0]).Ok() {
      GrantsGrow(RunGrant(m, grants[0]).state, grants[1..]);
    }
  }

  /** Whether or not it raises, a sequence of grants leaves its first label in use. */
  lemma {:induction false} FirstLabelStays(m: Groups, grants: seq<Grant>)
    requires grants != [] && forall g :: g in grants ==> g.owner in m
    ensures grants[0].tag in RunGrants(m, grants).state[grants[0].owner].labels
  {
    if RunGrant(m, grants[0]).Ok() {
      GrantsGrow(RunGrant(m, grants[0]).state, grants[1..]);
    }
  }

  lemma {:induction false} ExecGrows(s: ProgramState, step: Step)
    ensures GroupsGrown(s.groups, Exec(s, step).state.groups)
  {
    hide BuildGroup, ServesCalls, RunCalls, VcnEffect;
    match step
    case Relate(src, tgt, port, withSsh) =>
      if src in s.groups && tgt in s.groups {
        GrantsGrow(s.groups, ServesGrants(MemberOf(s.groups, src), MemberOf(s.groups, tgt), port, withSsh));
      }
    case ManualRule(id, tag, dir, rule) =>
    case _ =>
  }

  lemma {:induction false} RunGrows(start: ProgramState, h: seq<Step>, j: nat)
    requires j <= |h|
    ensures GroupsGrown(RunCatching(start, h[..j]).groups, RunCatching(start, h).groups)
    decreases |h|
  {
    hide Exec;
    assert h[..|h|] == h;
    if j < |h| {
      var init := h[..|h| - 1];
      assert init[..j] == h[..j];
      RunGrows(start, init, j);
      ExecGrows(RunCatching(start, init), h[|h| - 1]);
    }
  }

  // ---- Retrying the same relationship ----------------------------------------------------------------

  /** The same relationship up to its SSH channel. */
  predicate SameRelation(a: Step, b: Step) {
    a.Relate? && b.Relate? && a.src == b.src && a.tgt == b.tgt && a.port == b.port
  }

  lemma FirstGrantOf(a: Member, b: Member, port: nat, withSsh: bool)
    ensures var grants := ServesGrants(a, b, port, withSsh);
            && grants != [] && grants[0].owner == a.id && grants[0].tag == RenderLabel(Out(b.name, port))
            && forall g :: g in grants ==> g.owner == a.id || g.owner == b.id
  {
  }

  lemma FirstTaken(m: Groups, grants: seq<Grant>)
    requires grants != [] && forall g :: g in grants ==> g.owner in m
    requires grants[0].tag in m[grants[0].owner].labels
    ensures RunGrants(m, grants) == Outcome(m, Some(DuplicateLabel))
  {
    assert m[grants[0].owner := m[grants[0].owner]] == m;
  }

  predicate Bound(m: Groups, step: Step) {
    step.Relate? && step.src in m && step.tgt in m
  }

  /** The relationship's first label is in use. */
  predicate Attempted(m: Groups, step: Step)
    requires Bound(m, step)
  {
    RenderLabel(Out(m[step.tgt].name, step.port)) in m[step.src].labels
  }

  lemma {:induction false} AttemptStays(s: ProgramState, step: Step)
    requires Bound(s.groups, step)
    ensures Bound(Exec(s, step).state.groups, step) && Attempted(Exec(s, step).state.groups, step)
  {
    hide RunCalls, ServesCalls, RenderLabel, ServesGrants;
    var a, b := MemberOf(s.groups, step.src), MemberOf(s.groups, step.tgt);
    FirstGrantOf(a, b, step.port, step.withSsh);
    FirstLabelStays(s.groups, ServesGrants(a, b, step.port, step.withSsh));
    GrantsGrow(s.groups, ServesGrants(a, b, step.port, step.withSsh));
  }

  lemma {:induction false} AttemptedRaises(s: ProgramState, step: Step)
    requires Bound(s.groups, step) && Attempted(s.groups, step)
    ensures Exec(s, step).raised == Some(DuplicateLabel)
  {
    hide RunCalls, ServesCalls, RenderLabel, ServesGrants;
    var a, b := MemberOf(s.groups, step.src), MemberOf(s.groups, step.tgt);
    FirstGrantOf(a, b, step.port, step.withSsh);
    FirstTaken(s.groups, ServesGrants(a, b, step.port, step.withSsh));
  }

  /**
   Once attempted between NSGs that exist, a relationship raises the duplicate-label error ever after, whatever it
   raised first.
   */
  lemma {:induction false} RetryRaises(start: ProgramState, h: seq<Step>, i: nat, j: nat)
    requires i < j < |h| && SameRelation(h[i], h[j]) && Bound(RunCatching(start, h[..i]).groups, h[i])
    ensures Exec(RunCatching(start, h[..j]), h[j]).raised == Some(DuplicateLabel)
  {
    hide Exec, Attempted;
    var before, later := RunCatching(start, h[..i]), RunCatching(start, h[..j]);
    assert h[..i + 1][..i] == h[..i] && h[..j][..i + 1] == h[..i + 1];
    var after := RunCatching(start, h[..i + 1]);
    assert after == Exec(before, h[i]).state;
    AttemptStays(before, h[i]);
    RunGrows(start, h[..j], i + 1);
    SameAttempt(after.groups, later.groups, h[i], h[j]);
    AttemptedRaises(later, h[j]);
  }

  lemma SameAttempt(m: Groups, n: Groups, first: Step, again: Step)
    requires GroupsGrown(m, n) && SameRelation(first, again) && Bound(m, first) && Attempted(m, first)
    ensures Bound(n, again) && Attempted(n, again)
  {
    assert MemberOf(n, first.tgt) == MemberOf(m, first.tgt);
  }

  /** In particular: a relationship that came too late never succeeds on a retry. */
  lemma {:induction false} LateRelationNeverSucceeds(start: ProgramState, h: seq<Step>, i: nat, j: nat)
    requires i < j < |h| && SameRelation(h[i], h[j])
    requires Exec(RunCatching(start, h[..i]), h[i]).raised == Some(AlreadyFinalized)
    ensures Exec(RunCatching(start, h[..j]), h[j]).raised == Some(DuplicateLabel)
  {
    hide RunCatching, RunCalls, RunGrants;
    RetryRaises(start, h, i, j);
  }

  // ---- Different pairs across the same tiers ---------------------------------------------------------

  /** The keys that calls would still have to register. */
  function Missing(v: VcnState, calls: seq<Call>): set<Key> {
    set c | c in calls && c.Unique? && Render(c.key) !in v.fingerprints :: c.key
  }

  /** On a finalised network calls register one missing key and raise, until none is missing. */
  lemma {:induction false} OneMissingLess(v: VcnState, calls: seq<Call>)
    requires v.finalized && forall c :: c in calls ==> c.Unique?
    ensures Missing(v, calls) == {} ==> RunCalls(v, calls) == Outcome(v, None)
    ensures Missing(v, calls) != {} ==>
              exists k :: k in Missing(v, calls)
                && RunCalls(v, calls)
                    == Outcome(v.(fingerprints := v.fingerprints + {Render(k)}), Some(AlreadyFinalized))
    decreases |calls|
  {
    hide Render;
    if calls != [] {
      var c, rest := calls[0], calls[1..];
      if Render(c.key) in v.fingerprints {
        OneMissingLess(v, rest);
        assert Missing(v, calls) == Missing(v, rest);
      } else {
        assert c.key in Missing(v, calls);
      }
    }
  }

  lemma {:induction false} MissingShrinks(v: VcnState, calls: seq<Call>, k: Key)
    requires k in Missing(v, calls)
    ensures Missing(v.(fingerprints := v.fingerprints + {Render(k)}), calls) == Missing(v, calls) - {k}
  {
    hide Render;
    forall c | c in calls && c.Unique? && Render(c.key) == Render(k)
      ensures c.key == k
    {
      RenderInjective(c.key, k);
    }
  }

  /** The step relates two NSGs of the two tiers, and neither uses any of the labels it needs. */
  predicate FreshAcross(m: Groups, step: Step, s: Tier, t: Tier, port: nat, ssh: bool) {
    && step.Relate? && step.src in m && step.tgt in m && step.port == port
    && m[step.src].role.Some? && m[step.tgt].role.Some? && m[step.src].role.value.tier == s
        && m[step.tgt].role.value.tier == t
    && NeedsSsh(step.withSsh, m[step.tgt].role) == ssh
    && forall g :: g in ServesGrants(MemberOf(m, step.src), MemberOf(m, step.tgt), port, step.withSsh) ==>
        g.tag !in m[g.owner].labels
  }

  /** Relationships between different pairs of such NSGs. */
  predicate FreshPairs(m: Groups, again: seq<Step>, s: Tier, t: Tier, port: nat, ssh: bool) {
    && (forall i :: 0 <= i < |again| ==> FreshAcross(m, again[i], s, t, port, ssh))
    && forall i, j :: 0 <= i < j < |again| ==>
         again[i].src != again[j].src && again[i].src != again[j].tgt && again[i].tgt != again[j].src
             && again[i].tgt != again[j].tgt
  }

  /** Grants with fresh, different labels pass, and touch only their owners. */
  lemma {:induction false} GrantsPass(m: Groups, grants: seq<Grant>)
    requires forall g :: g in grants ==> g.owner in m && g.tag !in m[g.owner].labels
    requires !Clash(grants)
    ensures RunGrants(m, grants).Ok()
    ensures forall id :: id in m && (forall g :: g in grants ==> g.owner != id) ==>
        RunGrants(m, grants).state[id] == m[id]
    decreases |grants|
  {
    if grants != [] {
      var g, rest := grants[0], grants[1..];
      assert grants == [g] + rest && g in grants;
      ClashCons(g, rest);
      var m' := RunGrant(m, g).state;
      forall h | h in rest
        ensures h.owner in m' && h.tag !in m'[h.owner].labels
      {
        assert h in grants;
      }
      GrantsPass(m', rest);
    }
  }

  lemma {:induction false} FreshGrantsPass(m: Groups, step: Step, s: Tier, t: Tier, port: nat, ssh: bool)
    requires FreshAcross(m, step, s, t, port, ssh)
    ensures var o := RunGrants(m, ServesGrants(MemberOf(m, step.src), MemberOf(m, step.tgt), port, step.withSsh));
            && o.Ok() && o.state.Keys == m.Keys
            && forall id :: id in m && id != step.src && id != step.tgt ==> o.state[id] == m[id]
  {
    hide RunGrants, ServesGrants;
    var a, b := MemberOf(m, step.src), MemberOf(m, step.tgt);
    FirstGrantOf(a, b, port, step.withSsh);
    ServesGrantsDiffer(a, b, port, step.withSsh);
    GrantsPass(m, ServesGrants(a, b, port, step.withSsh));
  }

  /** What such a relationship does: its grants pass, and its list calls run. */
  lemma {:induction false} FreshPairCalls(st: ProgramState, step: Step, s: Tier, t: Tier, port: nat, ssh: bool)
    requires s != t && FreshAcross(st.groups, step, s, t, port, ssh)
    ensures var calls := RunCalls(st.vcn, LinkCalls(st.vcn.tiers, s, t, port, ssh));
            Exec(st, step).raised == calls.raised && Exec(st, step).state.vcn == calls.state
    ensures var m, m' := st.groups, Exec(st, step).state.groups;
            m'.Keys == m.Keys && forall id :: id in m && id != step.src && id != step.tgt ==> m'[id] == m[id]
  {
    hide RunCalls, RunGrants, CrossCalls, ServesGrants;
    FreshGrantsPass(st.groups, step, s, t, port, ssh);
  }

  /** One late relationship of a fresh pair. */
  lemma {:induction false} LatePair(st: ProgramState, step: Step, s: Tier, t: Tier, port: nat, ssh: bool)
    requires st.vcn.finalized && s != t && FreshAcross(st.groups, step, s, t, port, ssh)
    ensures var calls, o := LinkCalls(st.vcn.tiers, s, t, port, ssh), Exec(st, step);
            && SameNetwork(st.vcn, o.state.vcn)
            && (Missing(st.vcn, calls) == {} ==> o.Ok() && o.state.vcn == st.vcn)
            && (Missing(st.vcn, calls) != {} ==>
                  o.raised == Some(AlreadyFinalized) && |Missing(o.state.vcn, calls)| == |Missing(st.vcn, calls)| - 1)
    ensures var m, m' := st.groups, Exec(st, step).state.groups;
            m'.Keys == m.Keys && forall id :: id in m && id != step.src && id != step.tgt ==> m'[id] == m[id]
  {
    hide Exec, FreshAcross, RunCalls, Missing, Render, LinkCalls;
    var calls := LinkCalls(st.vcn.tiers, s, t, port, ssh);
    FreshPairCalls(st, step, s, t, port, ssh);
    LinksAreUnique(st.vcn, s, t, port, ssh);
    OneMissingLess(st.vcn, calls);
    if Missing(st.vcn, calls) != {} {
      var k :| k in Missing(st.vcn, calls)
               && RunCalls(st.vcn, calls)
                   == Outcome(st.vcn.(fingerprints := st.vcn.fingerprints + {Render(k)}), Some(AlreadyFinalized));
      MissingShrinks(st.vcn, calls, k);
    }
  }

  lemma LinksAreUnique(v: VcnState, s: Tier, t: Tier, port: nat, ssh: bool)
    ensures forall c :: c in LinkCalls(v.tiers, s, t, port, ssh) ==> c.Unique?
    ensures Missing(v, LinkCalls(v.tiers, s, t, port, ssh))
         <= {CrossEgress(s, port, t), CrossIngress(t, port, s), CrossEgress(s, SSH, t), CrossIngress(t, SSH, s)}
  {
  }

  lemma FreshSame(m: Groups, n: Groups, step: Step, s: Tier, t: Tier, port: nat, ssh: bool)
    requires FreshAcross(m, step, s, t, port, ssh) && m.Keys == n.Keys
    requires n[step.src] == m[step.src] && n[step.tgt] == m[step.tgt]
    ensures FreshAcross(n, step, s, t, port, ssh)
  {
  }

  predicate Untouched(m: Groups, n: Groups, steps: seq<Step>)
    requires forall step :: step in steps ==> step.Relate? && step.src in m && step.tgt in m
  {
    n.Keys == m.Keys && forall step :: step in steps ==> n[step.src] == m[step.src] && n[step.tgt] == m[step.tgt]
  }

  lemma PairsAreBound(m: Groups, again: seq<Step>, i: nat, s: Tier, t: Tier, port: nat, ssh: bool)
    requires FreshPairs(m, again, s, t, port, ssh) && i <= |again|
    ensures forall step :: step in again[i..] ==> step.Relate? && step.src in m && step.tgt in m
  {
  }

  /** After i of them, i keys fewer are missing and the other pairs are untouched. */
  lemma {:induction false} LatePrefix(st: ProgramState, again: seq<Step>, i: nat, s: Tier, t: Tier, port: nat,
      ssh: bool)
    requires st.vcn.finalized && s != t && FreshPairs(st.groups, again, s, t, port, ssh) && i <= |again|
    ensures var now := RunCatching(st, again[..i]);
            && SameNetwork(st.vcn, now.vcn)
            && Missed(st.vcn, now.vcn, LinkCalls(st.vcn.tiers, s, t, port, ssh), i)
            && (forall step :: step in again[i..] ==> step.Relate? && step.src in st.groups && step.tgt in st.groups)
            && Untouched(st.groups, now.groups, again[i..])
    decreases i
  {
    hide Exec, Missing, FreshAcross, LinkCalls;
    PairsAreBound(st.groups, again, i, s, t, port, ssh);
    if i > 0 {
      LatePrefix(st, again, i - 1, s, t, port, ssh);
      var before := RunCatching(st, again[..i - 1]);
      assert again[..i][..i - 1] == again[..i - 1];
      assert again[i - 1..] == [again[i - 1]] + again[i..];
      FreshSame(st.groups, before.groups, again[i - 1], s, t, port, ssh);
      LatePair(before, again[i - 1], s, t, port, ssh);
    }
  }

  /** How many keys are missing after i failures. */
  predicate Missed(v: VcnState, w: VcnState, calls: seq<Call>, i: nat) {
    var k := |Missing(v, calls)|;
    |Missing(w, calls)| == if i < k then k - i else 0
  }

  /**
   Failures silence other calls: after finalisation, when k list rules between two tiers are still unregistered, the
   first k relationships between fresh pairs of NSGs of these tiers raise the finalised error, and every later one
   raises nothing; none of them changes a list.  There are at most four such rules.
   */
  lemma {:induction false} FailuresSilenceOthers(st: ProgramState, again: seq<Step>, s: Tier, t: Tier, port: nat,
      ssh: bool)
    requires st.vcn.finalized && s != t && FreshPairs(st.groups, again, s, t, port, ssh)
    ensures var k := |Missing(st.vcn, LinkCalls(st.vcn.tiers, s, t, port, ssh))|;
            && k <= 4
            && forall i :: 0 <= i < |again| ==>
                 Exec(RunCatching(st, again[..i]), again[i]).raised == if i < k then Some(AlreadyFinalized) else None
    ensures SameNetwork(st.vcn, RunCatching(st, again).vcn)
  {
    hide Exec, RunCatching, Missing, LinkCalls, FreshAcross;
    AtMostFour(st.vcn, s, t, port, ssh);
    forall i | 0 <= i < |again|
      ensures Exec(RunCatching(st, again[..i]), again[i]).raised
           == if i < |Missing(st.vcn, LinkCalls(st.vcn.tiers, s, t, port, ssh))| then Some(AlreadyFinalized) else None
    {
      LatePrefix(st, again, i, s, t, port, ssh);
      var now := RunCatching(st, again[..i]);
      assert again[i] in again[i..];
      FreshSame(st.groups, now.groups, again[i], s, t, port, ssh);
      LatePair(now, again[i], s, t, port, ssh);
    }
    LatePrefix(st, again, |again|, s, t, port, ssh);
    assert again[..|again|] == again;
  }

  lemma AtMostFour(v: VcnState, s: Tier, t: Tier, port: nat, ssh: bool)
    ensures |Missing(v, LinkCalls(v.tiers, s, t, port, ssh))| <= 4
  {
    hide LinkCalls;
    LinksAreUnique(v, s, t, port, ssh);
    var four := {CrossEgress(s, port, t), CrossIngress(t, port, s), CrossEgress(s, SSH, t), CrossIngress(t, SSH, s)};
    SubsetSize(Missing(v, LinkCalls(v.tiers, s, t, port, ssh)), four);
  }

  lemma {:induction false} SubsetSize<T>(a: set<T>, b: set<T>)
    requires a <= b
    ensures |a| <= |b|
  {
    assert b == a + (b - a);
  }
}
