/**
 When a security list holds the same rule twice.  Fingerprints merge equal contributions only when they are spelled
 alike; this module says exactly which pairs of contributions end up side by side.
 */
module Duplicates {
  import opened Agreement
  import opened Contributions
  import opened Fingerprints
  import opened History
  import opened Networks
  import opened Nsgs
  import opened Ordering
  import opened Programs
  import opened Rules
  import opened Spells
  import opened SuccessOrder
  import opened VcnBuilder
  import opened Wrappers

  // ---- Twins -----------------------------------------------------------------------------------------

  /** Two positions hold the same rule, descriptions aside. */
  predicate HasTwin(rules: seq<Rule>) {
    exists i, j :: 0 <= i < j < |rules| && Bare(rules[i]) == Bare(rules[j])
  }

  predicate HoldsBare(rules: seq<Rule>, b: Rule) {
    exists r :: r in rules && Bare(r) == b
  }

  predicate Meets(a: seq<Rule>, b: seq<Rule>) {
    exists r :: r in b && HoldsBare(a, Bare(r))
  }

  lemma {:induction false} TwinAppend(a: seq<Rule>, b: seq<Rule>)
    ensures HasTwin(a + b) <==> HasTwin(a) || HasTwin(b) || Meets(a, b)
  {
    hide Bare;
    var all := a + b;
    if HasTwin(all) {
      TwinSplits(a, b);
    }
    if i, j :| 0 <= i < j < |a| && Bare(a[i]) == Bare(a[j]) {
      assert all[i] == a[i] && all[j] == a[j];
    }
    if i, j :| 0 <= i < j < |b| && Bare(b[i]) == Bare(b[j]) {
      assert all[|a| + i] == b[i] && all[|a| + j] == b[j];
    }
    if q, r :| q in a && r in b && Bare(q) == Bare(r) {
      var i :| 0 <= i < |a| && a[i] == q;
      var j :| 0 <= j < |b| && b[j] == r;
      assert all[i] == q && all[|a| + j] == r;
    }
  }

  lemma {:induction false} TwinSplits(a: seq<Rule>, b: seq<Rule>)
    requires HasTwin(a + b)
    ensures HasTwin(a) || HasTwin(b) || Meets(a, b)
  {
    hide Bare;
    var all := a + b;
    var i, j :| 0 <= i < j < |all| && Bare(all[i]) == Bare(all[j]);
    if j < |a| {
      assert all[i] == a[i] && all[j] == a[j];
    } else if i >= |a| {
      assert all[i] == b[i - |a|] && all[j] == b[j - |a|];
    } else {
      assert a[i] in a && b[j - |a|] in b && HoldsBare(a, Bare(b[j - |a|]));
    }
  }

  // ---- Gathered contributions ------------------------------------------------------------------------

  predicate KeyHere(k: Key, t: Tier, d: Direction) {
    KeyTier(k) == t && KeyDirection(k) == d
  }

  /** The rules of all direct calls, in order. */
  function DirectRules(calls: seq<Call>, t: Tier, d: Direction): seq<Rule>
    decreases |calls|
  {
    if calls == [] then []
    else
      var before, last := DirectRules(calls[..|calls| - 1], t, d), calls[|calls| - 1];
      if last.Direct? then before + last.lists.At(t, d) else before
  }

  predicate KeyHolds(site: Site, keys: set<Key>, t: Tier, d: Direction, b: Rule) {
    exists k :: k in keys && KeyHere(k, t, d) && KeyRule(site, k) == b
  }

  predicate KeysMeet(site: Site, keys: set<Key>, t: Tier, d: Direction) {
    exists k, l :: k in keys && l in keys && k != l && KeyHere(k, t, d) && KeyHere(l, t, d)
        && KeyRule(site, k) == KeyRule(site, l)
  }

  predicate DirectMeetsKey(site: Site, direct: seq<Rule>, keys: set<Key>, t: Tier, d: Direction) {
    exists r :: r in direct && KeyHolds(site, keys, t, d, Bare(r))
  }

  lemma HoldsAppend(a: seq<Rule>, b: seq<Rule>, r: Rule)
    ensures HoldsBare(a + b, r) <==> HoldsBare(a, r) || HoldsBare(b, r)
  {
  }

  /** One more accepted call adds its rules. */
  lemma {:induction false} GatherOne(calls: seq<Call>, c: Call, t: Tier, d: Direction)
    ensures Gather(calls + [c]).At(t, d) == Gather(calls).At(t, d) + CallLists(c).At(t, d)
  {
    assert (calls + [c])[..|calls|] == calls;
    JoinAt(Gather(calls), CallLists(c), t, d);
  }

  /** The accepted rules, up to description: one per key, and all direct ones. */
  lemma {:induction false} GatheredHolds(site: Site, calls: seq<Call>, t: Tier, d: Direction, b: Rule)
    requires forall c :: c in calls ==> Coherent(site, c)
    ensures HoldsBare(Gather(Accepted(calls)).At(t, d), b) <==>
            KeyHolds(site, KeysIn(calls), t, d, b) || HoldsBare(DirectRules(calls, t, d), b)
    decreases |calls|
  {
    hide KeyRule, Coherent;
    if calls != [] {
      var init, last := calls[..|calls| - 1], calls[|calls| - 1];
      assert calls == init + [last] && last in calls;
      GatheredHolds(site, init, t, d, b);
      KeysInAppend(init, [last]);
      GatherOne(Accepted(init), last, t, d);
      HoldsAppend(Gather(Accepted(init)).At(t, d), CallLists(last).At(t, d), b);
      LastHolds(site, init, last, t, d, b);
    }
  }

  lemma {:induction false} LastHolds(site: Site, init: seq<Call>, last: Call, t: Tier, d: Direction, b: Rule)
    requires Coherent(site, last)
    ensures KeysIn([last]) == if last.Unique? then {last.key} else {}
    ensures last.Unique? ==>
        (HoldsBare(CallLists(last).At(t, d), b) <==> KeyHere(last.key, t, d) && KeyRule(site, last.key) == b)
    ensures last.Direct? ==>
              (HoldsBare(DirectRules(init + [last], t, d), b) <==>
                HoldsBare(DirectRules(init, t, d), b) || HoldsBare(CallLists(last).At(t, d), b))
  {
    hide KeyRule;
    assert (init + [last])[..|init|] == init;
    if last.Unique? {
      OnlyAt(last.tier, last.dir, [last.rule], t, d);
      assert last.rule in [last.rule];
      assert last in [last];
    } else {
      HoldsAppend(DirectRules(init, t, d), last.lists.At(t, d), b);
    }
  }

  lemma {:induction false} KeysMeetOneMore(site: Site, keys: set<Key>, x: Key, t: Tier, d: Direction)
    requires x !in keys
    ensures KeysMeet(site, keys + {x}, t, d) <==>
            KeysMeet(site, keys, t, d) || (KeyHere(x, t, d) && KeyHolds(site, keys, t, d, KeyRule(site, x)))
  {
    hide KeyRule, KeyHere;
    if KeysMeet(site, keys + {x}, t, d) {
      var k, l :| k in keys + {x} && l in keys + {x} && k != l && KeyHere(k, t, d) && KeyHere(l, t, d)
                  && KeyRule(site, k) == KeyRule(site, l);
      if k in keys && l in keys {
        assert KeysMeet(site, keys, t, d);
      } else {
        assert (if k in keys then k else l) in keys;
      }
    }
    if KeyHere(x, t, d) && KeyHolds(site, keys, t, d, KeyRule(site, x)) {
      var k :| k in keys && KeyHere(k, t, d) && KeyRule(site, k) == KeyRule(site, x);
      assert k in keys + {x} && x in keys + {x};
    }
    if KeysMeet(site, keys, t, d) {
      var k, l :| k in keys && l in keys && k != l && KeyHere(k, t, d) && KeyHere(l, t, d)
          && KeyRule(site, k) == KeyRule(site, l);
      assert k in keys + {x} && l in keys + {x};
    }
  }

  lemma {:induction false} DirectMeetsOneMore(site: Site, direct: seq<Rule>, keys: set<Key>, x: Key, t: Tier,
      d: Direction)
    ensures DirectMeetsKey(site, direct, keys + {x}, t, d) <==>
            DirectMeetsKey(site, direct, keys, t, d) || (KeyHere(x, t, d) && HoldsBare(direct, KeyRule(site, x)))
  {
    hide KeyRule, KeyHere, Bare;
    forall b
      ensures KeyHolds(site, keys + {x}, t, d, b) <==>
          KeyHolds(site, keys, t, d, b) || (KeyHere(x, t, d) && KeyRule(site, x) == b)
    {
      assert x in keys + {x};
      assert forall k :: k in keys ==> k in keys + {x};
    }
  }

  lemma {:induction false} DirectMeetsMoreRules(site: Site, a: seq<Rule>, b: seq<Rule>, keys: set<Key>, t: Tier,
      d: Direction)
    ensures DirectMeetsKey(site, a + b, keys, t, d) <==>
        DirectMeetsKey(site, a, keys, t, d) || DirectMeetsKey(site, b, keys, t, d)
  {
    hide KeyHolds, Bare;
  }

  lemma MeetsOne(a: seq<Rule>, r: Rule)
    ensures Meets(a, [r]) <==> HoldsBare(a, Bare(r))
    ensures !HasTwin([r]) && !HasTwin([]) && !Meets(a, [])
  {
    assert r in [r];
  }

  /** A fingerprinted call with a new key. */
  lemma {:induction false} NewKeyTwins(site: Site, init: seq<Call>, c: Call, t: Tier, d: Direction)
    requires (forall b :: b in init ==> Coherent(site, b)) && Coherent(site, c) && c.Unique? && c.key !in KeysIn(init)
    ensures var g, more := Gather(Accepted(init)).At(t, d), CallLists(c).At(t, d);
            var keys, direct := KeysIn(init), DirectRules(init, t, d);
            HasTwin(g + more) <==>
              || HasTwin(g)
              || (KeyHere(c.key, t, d)
                  && (KeyHolds(site, keys, t, d, KeyRule(site, c.key)) || HoldsBare(direct, KeyRule(site, c.key))))
  {
    hide KeyRule, Gather, Accepted, KeysIn, DirectRules, HasTwin, HoldsBare, Meets, KeyHolds;
    var g := Gather(Accepted(init)).At(t, d);
    OnlyAt(c.tier, c.dir, [c.rule], t, d);
    GatheredHolds(site, init, t, d, KeyRule(site, c.key));
    TwinAppend(g, CallLists(c).At(t, d));
    MeetsOne(g, c.rule);
  }

  /** A direct call. */
  lemma {:induction false} DirectCallTwins(site: Site, init: seq<Call>, more: seq<Rule>, t: Tier, d: Direction)
    requires forall b :: b in init ==> Coherent(site, b)
    ensures var g, direct := Gather(Accepted(init)).At(t, d), DirectRules(init, t, d);
            HasTwin(g + more) <==>
              || HasTwin(g) || HasTwin(more) || Meets(direct, more) || DirectMeetsKey(site, more, KeysIn(init), t, d)
  {
    hide KeyRule, Gather, Accepted, KeysIn, DirectRules, HasTwin, HoldsBare, KeyHolds, Bare;
    var g := Gather(Accepted(init)).At(t, d);
    TwinAppend(g, more);
    forall r | r in more
      ensures HoldsBare(g, Bare(r)) <==>
          KeyHolds(site, KeysIn(init), t, d, Bare(r)) || HoldsBare(DirectRules(init, t, d), Bare(r))
    {
      GatheredHolds(site, init, t, d, Bare(r));
    }
  }

  lemma OneKey(c: Call)
    ensures KeysIn([c]) == if c.Unique? then {c.key} else {}
  {
    assert c in [c];
  }

  lemma NoTwins(site: Site, t: Tier, d: Direction)
    ensures !HasTwin([]) && !KeysMeet(site, {}, t, d) && !DirectMeetsKey(site, [], {}, t, d)
  {
  }

  /** Twins among the contributions: two keys, two direct rules, or one of each. */
  lemma {:induction false} GatheredTwins(site: Site, calls: seq<Call>, t: Tier, d: Direction)
    requires forall c :: c in calls ==> Coherent(site, c)
    ensures var direct := DirectRules(calls, t, d);
            HasTwin(Gather(Accepted(calls)).At(t, d)) <==>
              || KeysMeet(site, KeysIn(calls), t, d) || HasTwin(direct)
                  || DirectMeetsKey(site, direct, KeysIn(calls), t, d)
    decreases |calls|
  {
    hide Coherent, HasTwin, KeysMeet, DirectMeetsKey, KeyHolds, HoldsBare, Meets, KeyHere, KeyRule, KeysIn;
    if calls == [] {
      NoTwins(site, t, d);
      KeysOfNone();
    } else {
      var init, last := calls[..|calls| - 1], calls[|calls| - 1];
      assert calls == init + [last] && last in calls;
      GatheredTwins(site, init, t, d);
      KeysInAppend(init, [last]);
      OneKey(last);
      GatherOne(Accepted(init), last, t, d);
      var direct := DirectRules(init, t, d);
      match last
      case Unique(key, _, _, _) =>
        if key !in KeysIn(init) {
          NewKeyTwins(site, init, last, t, d);
          KeysMeetOneMore(site, KeysIn(init), key, t, d);
          DirectMeetsOneMore(site, direct, KeysIn(init), key, t, d);
        } else {
          assert KeysIn(calls) == KeysIn(init);
        }
      case Direct(lists) =>
        assert KeysIn(calls) == KeysIn(init);
        DirectCallTwins(site, init, lists.At(t, d), t, d);
        TwinAppend(direct, lists.At(t, d));
        DirectMeetsMoreRules(site, direct, lists.At(t, d), KeysIn(init), t, d);
    }
  }

  lemma KeysOfNone()
    ensures KeysIn([]) == {}
  {
  }

  // ---- Which keys stand for the same rule ------------------------------------------------------------

  /** The tier a compute instance accepts SSH from. */
  function SshSource(t: Tier): Tier {
    if t == Private then Public else Private
  }

  /**
   Two spellings of one rule: a public port by NSG and by load balancer, and cross-tier SSH by NSG and by instance.
   */
  predicate Colliding(k: Key, l: Key) {
    || (k.PublicIngress? && l.LbPublic? && k.port == l.port)
    || (k.CrossIngress? && l.ComputeSsh? && k.target == l.tier && k.port == SSH && k.source == SshSource(l.tier))
  }

  /** A key whose rule every finalisation adds as well. */
  predicate InBaseline(k: Key) {
    (k.EgressServices? && k.tier != Public) || k == EgressInternet(Private)
  }

  ghost predicate SplitSite(site: Site) {
    Canonical(site.cidr) && SplitTiers(site.cidr) == Ok(site.tiers)
  }

  /** Tiers, their VCN and the internet are different blocks. */
  lemma {:induction false} BlocksDiffer(site: Site, t: Tier, u: Tier)
    requires SplitSite(site)
    ensures TierCidr(site.tiers, t) == TierCidr(site.tiers, u) <==> t == u
    ensures TierCidr(site.tiers, t) != INTERNET && TierCidr(site.tiers, t) != site.cidr
  {
    hide SplitTiers;
    SplitTiersMatchesEqualSplit(site.cidr);
    TierLayout(site.cidr);
  }

  lemma {:induction false} SameRuleMeansColliding(site: Site, k: Key, l: Key)
    requires SplitSite(site) && k != l && KeyTier(k) == KeyTier(l) && KeyDirection(k) == KeyDirection(l)
    ensures KeyRule(site, k) == KeyRule(site, l) <==> Colliding(k, l) || Colliding(l, k)
  {
    hide SplitSite;
    forall t: Tier, u: Tier
      ensures TierCidr(site.tiers, t) == TierCidr(site.tiers, u) <==> t == u
      ensures TierCidr(site.tiers, t) != INTERNET && TierCidr(site.tiers, t) != site.cidr
    {
      BlocksDiffer(site, t, u);
    }
    assert TierCidr(site.tiers, Public) == site.tiers.public && TierCidr(site.tiers, Private) == site.tiers.private;
  }

  lemma {:induction false} StandardTwins(site: Site, k: Key, t: Tier, d: Direction)
    requires KeyHere(k, t, d)
    ensures !HoldsBare(Seed(site.cidr).At(t, d), KeyRule(site, k))
    ensures HoldsBare(BASELINE.At(t, d), KeyRule(site, k)) <==> InBaseline(k)
  {
    var base := BASELINE.At(t, d);
    assert t == Private && d == Egress ==> base[0] in base && base[1] in base;
    assert (t == Secure || t == Management) && d == Egress ==> base[0] in base;
  }

  // ---- The lists of a run ----------------------------------------------------------------------------

  function Keys(site: Site, h: seq<Step>): set<Key> {
    KeysIn(CallsOf(site, h))
  }

  /** The rules of the direct calls that spells and the user made. */
  function DirectOf(site: Site, h: seq<Step>, t: Tier, d: Direction): seq<Rule> {
    DirectRules(CallsOf(site, h), t, d)
  }

  predicate SpelledTwice(site: Site, h: seq<Step>, t: Tier, d: Direction) {
    exists k, l :: k in Keys(site, h) && l in Keys(site, h) && KeyHere(k, t, d) && KeyHere(l, t, d) && Colliding(k, l)
  }

  predicate RepeatsBaseline(site: Site, h: seq<Step>, t: Tier, d: Direction) {
    Closed(h) && exists k :: k in Keys(site, h) && KeyHere(k, t, d) && InBaseline(k)
  }

  /** A direct rule repeats a direct rule, a fingerprinted one, or a standard one. */
  predicate DirectRepeats(site: Site, h: seq<Step>, t: Tier, d: Direction) {
    var direct := DirectOf(site, h, t, d);
    || HasTwin(direct) || DirectMeetsKey(site, direct, Keys(site, h), t, d)
    || Meets(Seed(site.cidr).At(t, d), direct) || (Closed(h) && Meets(BASELINE.At(t, d), direct))
  }

  lemma {:induction false} KeysMeetColliding(site: Site, h: seq<Step>, t: Tier, d: Direction)
    requires SplitSite(site)
    ensures KeysMeet(site, Keys(site, h), t, d) <==> SpelledTwice(site, h, t, d)
  {
    hide SplitSite, Keys, KeyRule, Colliding;
    forall k, l | k != l && KeyHere(k, t, d) && KeyHere(l, t, d)
      ensures KeyRule(site, k) == KeyRule(site, l) <==> Colliding(k, l) || Colliding(l, k)
    {
      SameRuleMeansColliding(site, k, l);
    }
    CollidingDiffer();
  }

  lemma CollidingDiffer()
    ensures forall k: Key :: !Colliding(k, k)
  {
  }

  lemma {:induction false} StandardsHaveNoTwins(site: Site, t: Tier, d: Direction)
    ensures !HasTwin(Seed(site.cidr).At(t, d)) && !HasTwin(BASELINE.At(t, d))
    ensures !Meets(Seed(site.cidr).At(t, d), BASELINE.At(t, d))
  {
  }

  /** What a list has in common with standard rules. */
  lemma {:induction false} ListMeets(site: Site, calls: seq<Call>, t: Tier, d: Direction, standard: seq<Rule>)
    requires forall c :: c in calls ==> Coherent(site, c)
    ensures var list, direct := Gather(Accepted(calls)).At(t, d), DirectRules(calls, t, d);
            (Meets(standard, list) || Meets(list, standard)) <==>
              || Meets(standard, direct)
              || exists k :: k in KeysIn(calls) && KeyHere(k, t, d) && HoldsBare(standard, KeyRule(site, k))
  {
    hide KeyRule, Coherent, KeysIn, Gather, Accepted, DirectRules, Bare;
    var list, direct := Gather(Accepted(calls)).At(t, d), DirectRules(calls, t, d);
    forall b
      ensures HoldsBare(list, b) <==> KeyHolds(site, KeysIn(calls), t, d, b) || HoldsBare(direct, b)
    {
      GatheredHolds(site, calls, t, d, b);
    }
    MeetsSymmetric(list, standard);
    MeetsSymmetric(direct, standard);
    if Meets(list, standard) {
      var r :| r in standard && HoldsBare(list, Bare(r));
      if KeyHolds(site, KeysIn(calls), t, d, Bare(r)) {
        var k :| k in KeysIn(calls) && KeyHere(k, t, d) && KeyRule(site, k) == Bare(r);
        assert HoldsBare(standard, KeyRule(site, k));
      }
    }
    if k :| k in KeysIn(calls) && KeyHere(k, t, d) && HoldsBare(standard, KeyRule(site, k)) {
      var r :| r in standard && Bare(r) == KeyRule(site, k);
      assert KeyHolds(site, KeysIn(calls), t, d, Bare(r));
    }
  }

  lemma MeetsSymmetric(a: seq<Rule>, b: seq<Rule>)
    ensures Meets(a, b) <==> Meets(b, a)
  {
    hide Bare;
    if Meets(a, b) {
      var r :| r in b && HoldsBare(a, Bare(r));
      var q :| q in a && Bare(q) == Bare(r);
      assert HoldsBare(b, Bare(q));
    }
    if Meets(b, a) {
      var r :| r in a && HoldsBare(b, Bare(r));
      var q :| q in b && Bare(q) == Bare(r);
      assert HoldsBare(a, Bare(q));
    }
  }

  lemma MeetsAppend(a: seq<Rule>, b: seq<Rule>, c: seq<Rule>)
    ensures Meets(a + b, c) <==> Meets(a, c) || Meets(b, c)
  {
    hide Bare;
  }

  /** The same on lists that need not come from a run. */
  lemma {:induction false} ListTwins(site: Site, h: seq<Step>, t: Tier, d: Direction)
    ensures HasTwin(ListsOf(site, h).At(t, d)) <==>
            KeysMeet(site, Keys(site, h), t, d) || RepeatsBaseline(site, h, t, d) || DirectRepeats(site, h, t, d)
  {
    hide KeyRule, Coherent, KeysIn, Gather, Accepted, DirectRules, Bare, HasTwin, Meets, HoldsBare, CallsOf, KeysMeet,
        Closed;
    var calls := CallsOf(site, h);
    forall c | c in calls
      ensures Coherent(site, c)
    {
      AllCoherent(site, h, c);
    }
    var seed, list, base := Seed(site.cidr).At(t, d), Gather(Accepted(calls)).At(t, d), BASELINE.At(t, d);
    GatheredTwins(site, calls, t, d);
    StandardsHaveNoTwins(site, t, d);
    ListMeets(site, calls, t, d, seed);
    ListMeets(site, calls, t, d, base);
    forall k | KeyHere(k, t, d)
      ensures !HoldsBare(seed, KeyRule(site, k)) && (HoldsBare(base, KeyRule(site, k)) <==> InBaseline(k))
    {
      StandardTwins(site, k, t, d);
    }
    JoinAt(Seed(site.cidr), Gather(Accepted(calls)), t, d);
    JoinAt(Join(Seed(site.cidr), Gather(Accepted(calls))), BASELINE, t, d);
    TwinAppend(seed, list);
    TwinAppend(seed + list, base);
    MeetsAppend(seed, list, base);
    MeetsSymmetric(seed, list);
    MeetsSymmetric(list, base);
  }

  /**
   Exactly when a list holds one rule twice: some rule was contributed under two colliding fingerprints, or under a
   fingerprint although the baseline adds it, or directly although it is there already.
   */
  lemma {:induction false} TwinsExact(site: Site, h: seq<Step>, t: Tier, d: Direction)
    requires RunOn(site, h).Ok() && SplitSite(site)
    ensures var v := RunOn(site, h).state.vcn;
            && (HasTwin(v.pending.At(t, d)) <==>
                SpelledTwice(site, h, t, d) || RepeatsBaseline(site, h, t, d) || DirectRepeats(site, h, t, d))
            && (forall k :: k in Keys(site, h) <==> Render(k) in v.fingerprints)
            && (v.finalized ==> |v.created| == 1 && v.created[0].lists == v.pending)
  {
    hide Run, ListsOf, CallsOf, KeysIn, HasTwin, SpelledTwice, RepeatsBaseline, DirectRepeats, GroupsMatch, SplitSite,
        Render;
    RunsAgree(site, h);
    ListTwins(site, h, t, d);
    KeysMeetColliding(site, h, t, d);
    forall k
      ensures k in Keys(site, h) <==> Render(k) in RunOn(site, h).state.vcn.fingerprints
    {
      PrintsMember(k, Keys(site, h));
    }
  }

  // ---- Where merging works ---------------------------------------------------------------------------

  /** No load balancer, no cluster and no rules of the user's own. */
  predicate OnlyMerging(h: seq<Step>) {
    forall j :: 0 <= j < |h| ==> !h[j].BuildLoadBalancer? && !h[j].BuildCluster? && !h[j].DirectRules?
  }

  lemma {:induction false} MergingCalls(site: Site, h: seq<Step>, c: Call)
    requires OnlyMerging(h) && c in CallsOf(site, h)
    ensures c.Unique? ==> !c.key.LbPublic? && c.key != ComputeSsh(Public)
    ensures c.Direct? ==> c.lists.At(Public, Ingress) == []
  {
    hide CallsOf, Roster;
    var j := CallOrigin(site, h, c);
    if h[j].BuildNsg? && h[j].role.Some? {
      AmbientKeys(h[j].role.value, h[j].ports, c);
    }
  }

  lemma AmbientKeys(role: Role, ports: seq<nat>, c: Call)
    requires c in AmbientCalls(role, ports)
    ensures c.Unique? && (c.key.PublicIngress? || c.key.EgressServices? || c.key.EgressInternet?)
  {
  }

  lemma {:induction false} NoDirectRulesThere(calls: seq<Call>, t: Tier, d: Direction)
    requires forall c :: c in calls && c.Direct? ==> c.lists.At(t, d) == []
    ensures DirectRules(calls, t, d) == []
    decreases |calls|
  {
    if calls != [] {
      assert calls[|calls| - 1] in calls;
      NoDirectRulesThere(calls[..|calls| - 1], t, d);
    }
  }

  /**
   The documented merging works without load balancers: NSGs at the edge, public workloads, instances and bastions in
   any number and order never leave the same rule twice in the public ingress list.
   */
  lemma {:induction false} PublicIngressUnrepeated(site: Site, h: seq<Step>)
    requires RunOn(site, h).Ok() && SplitSite(site) && OnlyMerging(h)
    ensures !HasTwin(RunOn(site, h).state.vcn.pending.At(Public, Ingress))
  {
    hide Run, CallsOf, SplitSite, HasTwin, Colliding, KeyRule, Closed;
    forall c | c in CallsOf(site, h)
      ensures c.Unique? ==> !c.key.LbPublic? && c.key != ComputeSsh(Public)
      ensures c.Direct? ==> c.lists.At(Public, Ingress) == []
    {
      MergingCalls(site, h, c);
    }
    NoDirectRulesThere(CallsOf(site, h), Public, Ingress);
    NoTwins(site, Public, Ingress);
    forall k, l | k in Keys(site, h) && l in Keys(site, h) && KeyHere(k, Public, Ingress) && KeyHere(l, Public, Ingress)
      ensures !Colliding(k, l)
    {
      CollidingAtTheEdge(k, l);
    }
    forall k | KeyHere(k, Public, Ingress)
      ensures !InBaseline(k)
    {
    }
    NothingMeetsNone(site, Keys(site, h));
    TwinsExact(site, h, Public, Ingress);
  }

  lemma CollidingAtTheEdge(k: Key, l: Key)
    requires KeyHere(k, Public, Ingress) && KeyHere(l, Public, Ingress)
    ensures Colliding(k, l) ==> l.LbPublic? || l == ComputeSsh(Public)
  {
  }

  lemma NothingMeetsNone(site: Site, keys: set<Key>)
    ensures forall t, d :: !DirectMeetsKey(site, [], keys, t, d)
    ensures forall a :: !Meets(a, [])
  {
  }

  // ---- Programs with duplicates ----------------------------------------------------------------------

  predicate TwinAt(v: VcnState, t: Tier, d: Direction) {
    HasTwin(v.pending.At(t, d)) && v.finalized && |v.created| == 1 && HasTwin(v.created[0].lists.At(t, d))
  }

  /** One NSG and then a finalising spell. */
  lemma {:induction false} NsgThenSpell(site: Site, nsg: Step, last: Step)
    requires nsg.BuildNsg? && Finalising(last) && ArgumentsValid(site, nsg) && ArgumentsValid(site, last)
    ensures RunOn(site, [nsg, last]).Ok()
    ensures forall c :: c in StepCalls(site, map[], nsg) || c in StepCalls(site, Roster([nsg]), last) ==>
        c in CallsOf(site, [nsg, last])
  {
    hide Run, StepCalls, CallsOf, LogsCanBeMade, DistinctPorts;
    assert [] + [nsg] == [nsg] && [nsg] + [last] == [nsg, last];
    NsgAlone(site, nsg);
    ClosingSucceeds(site, [nsg], last);
    Snoc(site, [], nsg);
    Snoc(site, [nsg], last);
    NothingBefore(site);
  }

  lemma NothingBefore(site: Site)
    ensures Roster([]) == map[] && !Closed([]) && CallsOf(site, []) == [] && AllAllowed(site, []) && GrantsOf([]) == []
  {
  }

  lemma {:induction false} NsgAlone(site: Site, nsg: Step)
    requires nsg.BuildNsg? && ArgumentsValid(site, nsg)
    ensures RunOn(site, [nsg]).Ok() && !Closed([nsg])
  {
    hide Run, StepCalls, CallsOf, LogsCanBeMade, DistinctPorts, AllAllowed;
    assert [] + [nsg] == [nsg];
    NothingBefore(site);
    AllAllowedSnoc(site, [], nsg);
    RunsAgree(site, [nsg]);
    assert !Finalising([nsg][0]);
  }

  /** A run that raises nothing and ends finalised shows its lists' twins in both places. */
  lemma {:induction false} TwinsMaterialise(site: Site, h: seq<Step>, t: Tier, d: Direction)
    requires RunOn(site, h).Ok() && Closed(h) && HasTwin(ListsOf(site, h).At(t, d))
    ensures TwinAt(RunOn(site, h).state.vcn, t, d)
  {
    hide Run, ListsOf, HasTwin, GroupsMatch;
    RunsAgree(site, h);
  }

  /** HTTP from the internet, once for an NSG at the edge and once for the load balancer behind it. */
  lemma {:induction false} HttpRuleTwice(site: Site, backendPort: int)
    requires ValidPort(backendPort) && LogsCanBeMade(site)
    ensures var o := RunOn(site, [BuildNsg(0, "edge", Some(INTERNET_EDGE), [80]), BuildLoadBalancer(backendPort)]);
            o.Ok() && TwinAt(o.state.vcn, Public, Ingress)
  {
    hide Run, ListsOf, CallsOf, HasTwin, TwinAt, LogsCanBeMade;
    var nsg, lb := BuildNsg(0, "edge", Some(INTERNET_EDGE), [80]), BuildLoadBalancer(backendPort);
    var h := [nsg, lb];
    NsgThenSpell(site, nsg, lb);
    var k, l := PublicIngress(80), LbPublic(80);
    assert AmbientCalls(INTERNET_EDGE, [80])[0].key == k && LoadBalancerCalls(site.tiers, backendPort)[0].key == l;
    assert AmbientCalls(INTERNET_EDGE, [80])[0] in StepCalls(site, map[], nsg);
    assert LoadBalancerCalls(site.tiers, backendPort)[0] in StepCalls(site, Roster([nsg]), lb);
    assert k in Keys(site, h) && l in Keys(site, h);
    assert KeysMeet(site, Keys(site, h), Public, Ingress);
    ListTwins(site, h, Public, Ingress);
    assert Finalising(h[1]);
    TwinsMaterialise(site, h, Public, Ingress);
  }

  /** Services egress, once for the role of an application NSG and once for the baseline. */
  lemma {:induction false} ServicesRuleTwice(site: Site)
    requires LogsCanBeMade(site)
    ensures var o := RunOn(site, [BuildNsg(0, "app", Some(APP_SERVER), []), FinalizeExplicitly]);
            o.Ok() && TwinAt(o.state.vcn, Private, Egress)
  {
    hide Run, ListsOf, CallsOf, HasTwin, TwinAt, LogsCanBeMade;
    var nsg, last := BuildNsg(0, "app", Some(APP_SERVER), []), FinalizeExplicitly;
    var h := [nsg, last];
    NsgThenSpell(site, nsg, last);
    var k := EgressServices(Private);
    assert AmbientCalls(APP_SERVER, [])[0].key == k;
    assert AmbientCalls(APP_SERVER, [])[0] in StepCalls(site, map[], nsg);
    assert k in Keys(site, h);
    assert Finalising(h[1]);
    assert RepeatsBaseline(site, h, Private, Egress);
    ListTwins(site, h, Private, Egress);
    TwinsMaterialise(site, h, Private, Egress);
  }
}
