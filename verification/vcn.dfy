/** The VCN builder: rules accumulate until the network is finalised, once. */
module VcnBuilder {
  import opened Fingerprints
  import opened Networks
  import opened Rules
  import opened Wrappers

  /** Everything the modelled constructors and methods raise. */
  datatype Error =
    | AlreadyFinalized      // RuntimeError: rules after finalize_network
    | BastionTooLate        // RuntimeError: Bastion after another spell finalised
    | BadRetention          // ValueError: flow-log retention not offered by OCI
    | NoPorts               // ValueError: INTERNET_EDGE without ports
    | DuplicateLabel        // ValueError: NSG rule label used twice
    | BadPort               // ValueError: load balancer backend port out of range
    | UnboundHandle         // NameError: the program uses an NSG it never built
    | HandleInUse           // a handle stands for one object; the model never rebinds it

  datatype FlowLogSettings = FlowLogSettings(enabled: bool, retention: int)

  /** One creation of the four security lists and the four subnets. */
  datatype Materialised = Materialised(lists: RuleLists, subnets: TierCidrs)

  datatype VcnState = VcnState(
    cidr: Network,
    tiers: TierCidrs,
    settings: FlowLogSettings,
    pending: RuleLists,
    fingerprints: set<string>,
    finalized: bool,
    created: seq<Materialised>,
    flowLogs: nat)

  // ---- Constants of the source -----------------------------------------------------------------------

  const VALID_RETENTION: set<int> := {30, 60, 90, 120, 150, 180}

  /** The two ICMP rules every public list starts with. */
  function Seed(cidr: Network): RuleLists {
    NOTHING.(publicIngress := [
      Rule(ICMP, Cidr(INTERNET), None, Some(IcmpOptions(3, Some(4))), Baseline),
      Rule(ICMP, Cidr(cidr), None, Some(IcmpOptions(3, None)), Baseline)])
  }

  /** NAT and service-gateway egress, injected by every finalisation. */
  const BASELINE := NOTHING.(
      privateEgress := [AllRule(Cidr(INTERNET), Baseline), AllRule(Services, Baseline)],
      secureEgress := [AllRule(Services, Baseline)],
      managementEgress := [AllRule(Services, Baseline)])

  function Fresh(cidr: Network, tiers: TierCidrs, settings: FlowLogSettings): VcnState {
    VcnState(cidr, tiers, settings, Seed(cidr), {}, false, [], 0)
  }

  // ---- The builder as a function of its state --------------------------------------------------------

  function AddRules(v: VcnState, lists: RuleLists): Outcome<VcnState, Error> {
    if v.finalized then Outcome(v, Some(AlreadyFinalized))
    else Outcome(v.(pending := Join(v.pending, lists)), None)
  }

  /** The fingerprint is recorded before the guard in AddRules can raise. */
  function AddUnique(v: VcnState, fingerprint: string, lists: RuleLists): Outcome<VcnState, Error> {
    if fingerprint in v.fingerprints then Outcome(v, None)
    else AddRules(v.(fingerprints := v.fingerprints + {fingerprint}), lists)
  }

  /** With flow logs enabled the log component calls back into finalisation. */
  function Finalize(v: VcnState): (o: Outcome<VcnState, Error>)
    decreases if v.finalized then 0 else 1, 0
  {
    if v.finalized then Outcome(v, None)
    else
      var based := AddRules(v, BASELINE).state;
      var built := based.(created := based.created + [Materialised(based.pending, based.tiers)], finalized := true);
      if built.settings.enabled then CreateFlowLogs(built, built.settings.retention) else Outcome(built, None)
  }

  function CreateFlowLogs(v: VcnState, retention: int): (o: Outcome<VcnState, Error>)
    decreases if v.finalized then 0 else 1, 1
  {
    if retention !in VALID_RETENTION then Outcome(v, Some(BadRetention))
    else
      var o := Finalize(v);
      if !o.Ok() then o else Outcome(o.state.(flowLogs := o.state.flowLogs + 1), None)
  }

  /** One call a spell makes on the builder. */
  datatype Call = Unique(key: Key, tier: Tier, dir: Direction, rule: Rule) | Direct(lists: RuleLists)

  function CallLists(c: Call): RuleLists {
    match c
    case Unique(_, tier, dir, rule) => Only(tier, dir, [rule])
    case Direct(lists) => lists
  }

  function RunCall(v: VcnState, c: Call): Outcome<VcnState, Error> {
    match c
    case Unique(key, _, _, _) => AddUnique(v, Render(key), CallLists(c))
    case Direct(lists) => AddRules(v, lists)
  }

  /** Calls in order, up to the first that raises. */
  function RunCalls(v: VcnState, calls: seq<Call>): Outcome<VcnState, Error>
    decreases |calls|
  {
    if calls == [] then Outcome(v, None)
    else
      var o := RunCall(v, calls[0]);
      if !o.Ok() then o else RunCalls(o.state, calls[1..])
  }

  lemma RunCallsStep(v: VcnState, first: Call, rest: seq<Call>)
    ensures RunCalls(v, [first] + rest) ==
            var o := RunCall(v, first);
            if !o.Ok() then o else RunCalls(o.state, rest)
  {
    assert ([first] + rest)[1..] == rest;
  }

  lemma RunOneCall(v: VcnState, c: Call)
    ensures RunCalls(v, [c]) == RunCall(v, c)
  {
    RunCallsStep(v, c, []);
    assert [c] + [] == [c];
  }

  /** Running a list of calls in two parts. */
  lemma {:induction false} RunCallsAppend(v: VcnState, a: seq<Call>, b: seq<Call>)
    ensures RunCalls(v, a + b) ==
            var o := RunCalls(v, a);
            if !o.Ok() then o else RunCalls(o.state, b)
    decreases |a|
  {
    if a == [] {
      assert a + b == b;
    } else {
      assert (a + b)[1..] == a[1..] + b && (a + b)[0] == a[0];
      var o := RunCall(v, a[0]);
      if o.Ok() {
        RunCallsAppend(o.state, a[1..], b);
      }
    }
  }

  // ---- What finalisation does, once ------------------------------------------------------------------

  /** The state a successful first finalisation leaves, whether or not flow logs re-enter it. */
  function Finalized(v: VcnState): VcnState {
    var lists := Join(v.pending, BASELINE);
    v.(pending := lists, finalized := true, created := v.created + [Materialised(lists, v.tiers)],
       flowLogs := v.flowLogs + if v.settings.enabled then 1 else 0)
  }

  /**
   Finalisation is one-shot and re-entrant: it raises only on a retention OCI does not offer, creates the lists
   and subnets exactly once, and changes nothing afterwards.
   */
  lemma FinalizeOnce(v: VcnState)
    ensures v.finalized ==> Finalize(v) == Outcome(v, None)
    ensures !v.finalized ==>
              (Finalize(v).Ok() <==> (v.settings.enabled ==> v.settings.retention in VALID_RETENTION))
    ensures !v.finalized && Finalize(v).Ok() ==> Finalize(v).state == Finalized(v)
    ensures !v.finalized && !Finalize(v).Ok() ==>
              Finalize(v) == Outcome(Finalized(v).(flowLogs := v.flowLogs), Some(BadRetention))
    ensures Finalize(Finalize(v).state) == Outcome(Finalize(v).state, None)
  {
    if !v.finalized {
      var based := AddRules(v, BASELINE).state;
      var built := based.(created := based.created + [Materialised(based.pending, based.tiers)], finalized := true);
      assert Finalize(built) == Outcome(built, None);
      assert CreateFlowLogs(built, built.settings.retention) ==
             if built.settings.retention !in VALID_RETENTION then Outcome(built, Some(BadRetention))
             else Outcome(built.(flowLogs := built.flowLogs + 1), None);
    }
  }

  /**
   Flow logs: a bad retention raises before anything happens; otherwise the network is finalised, and one log more is
   made.
   */
  lemma FlowLogsExact(v: VcnState, retention: int)
    ensures !(retention in {30, 60, 90, 120, 150, 180}) ==>
        CreateFlowLogs(v, retention) == Outcome(v, Some(BadRetention))
    ensures retention in {30, 60, 90, 120, 150, 180} ==>
              var o, done := CreateFlowLogs(v, retention), Finalize(v);
              && o.raised == done.raised
              && o.state == if done.Ok() then done.state.(flowLogs := done.state.flowLogs + 1) else done.state
  {
  }

  /** Nothing a caller does to a finalised network changes its rules or what was created. */
  predicate SameNetwork(v: VcnState, w: VcnState) {
    && w.pending == v.pending && w.created == v.created && w.finalized == v.finalized
    && w.cidr == v.cidr && w.tiers == v.tiers && w.settings == v.settings
  }

  lemma {:induction false} FrozenCalls(v: VcnState, calls: seq<Call>)
    requires v.finalized
    ensures SameNetwork(v, RunCalls(v, calls).state)
    decreases |calls|
  {
    if calls != [] {
      var o := RunCall(v, calls[0]);
      if o.Ok() {
        FrozenCalls(o.state, calls[1..]);
      }
    }
  }

  // ---- The object ------------------------------------------------------------------------------------

  class Vcn {
    const cidr: Network
    const tiers: TierCidrs
    const settings: FlowLogSettings
    var publicIngress: seq<Rule>
    var publicEgress: seq<Rule>
    var privateIngress: seq<Rule>
    var privateEgress: seq<Rule>
    var secureIngress: seq<Rule>
    var secureEgress: seq<Rule>
    var managementIngress: seq<Rule>
    var managementEgress: seq<Rule>
    var fingerprints: set<string>
    var finalized: bool
    var created: seq<Materialised>
    var flowLogs: nat

    function Pending(): RuleLists
      reads this
    {
      RuleLists(publicIngress, publicEgress, privateIngress, privateEgress,
                secureIngress, secureEgress, managementIngress, managementEgress)
    }

    function State(): VcnState
      reads this
    {
      VcnState(cidr, tiers, settings, Pending(), fingerprints, finalized, created, flowLogs)
    }

    constructor (cidr: Network, tiers: TierCidrs, settings: FlowLogSettings)
      ensures State() == Fresh(cidr, tiers, settings)
    {
      this.cidr, this.tiers, this.settings := cidr, tiers, settings;
      fingerprints, finalized, created, flowLogs := {}, false, [], 0;
      publicEgress, privateIngress, privateEgress := [], [], [];
      secureIngress, secureEgress, managementIngress, managementEgress := [], [], [], [];
      publicIngress := [
        Rule(ICMP, Cidr(INTERNET), None, Some(IcmpOptions(3, Some(4))), Baseline),
        Rule(ICMP, Cidr(cidr), None, Some(IcmpOptions(3, None)), Baseline)];
    }

    /** The source's constructor fails when the block is too small to split into four tiers. */
    static method Create(cidr: Network, settings: FlowLogSettings) returns (r: Result<Vcn, NetworkError>)
      requires Canonical(cidr)
      ensures r.Ok? <==> cidr.prefix + 3 <= cidr.width
      ensures r.Ok? ==> fresh(r.value) && SplitTiers(cidr).Ok?
                        && r.value.State() == Fresh(cidr, SplitTiers(cidr).value, settings)
    {
      SplitTiersMatchesEqualSplit(cidr);
      match SplitTiers(cidr) {
        case Err(e) => r := Err(e);
        case Ok(tiers) =>
          var vcn := new Vcn(cidr, tiers, settings);
          r := Ok(vcn);
      }
    }

    predicate HasAmbientRule(fingerprint: string)
      reads this
    {
      fingerprint in fingerprints
    }

    method AddSecurityListRules(lists: RuleLists) returns (raised: Option<Error>)
      modifies this
      ensures Outcome(State(), raised) == AddRules(old(State()), lists)
    {
      if finalized {
        return Some(AlreadyFinalized);
      }
      publicIngress := publicIngress + lists.publicIngress;
      publicEgress := publicEgress + lists.publicEgress;
      privateIngress := privateIngress + lists.privateIngress;
      privateEgress := privateEgress + lists.privateEgress;
      secureIngress := secureIngress + lists.secureIngress;
      secureEgress := secureEgress + lists.secureEgress;
      managementIngress := managementIngress + lists.managementIngress;
      managementEgress := managementEgress + lists.managementEgress;
      return None;
    }

    method AddUniqueSecurityListRules(fingerprint: string, lists: RuleLists) returns (raised: Option<Error>)
      modifies this
      ensures Outcome(State(), raised) == AddUnique(old(State()), fingerprint, lists)
    {
      if fingerprint in fingerprints {
        return None;
      }
      fingerprints := fingerprints + {fingerprint};
      raised := AddSecurityListRules(lists);
    }

    method InjectBaselineRules()
      requires !finalized
      modifies this
      ensures State() == old(State()).(pending := Join(old(Pending()), BASELINE))
    {
      var natEgress := AllRule(Cidr(INTERNET), Baseline);
      var svcEgress := AllRule(Services, Baseline);
      var _ := AddSecurityListRules(
        NOTHING.(privateEgress := [natEgress, svcEgress], secureEgress := [svcEgress],
            managementEgress := [svcEgress]));
    }

    method FinalizeNetwork() returns (raised: Option<Error>)
      modifies this
      ensures Outcome(State(), raised) == Finalize(old(State()))
      decreases if finalized then 0 else 1, 0
    {
      if finalized {
        return None;
      }
      InjectBaselineRules();
      created := created + [Materialised(Pending(), tiers)];
      finalized := true;
      raised := None;
      if settings.enabled {
        raised := AttachFlowLogs(settings.retention);
      }
    }

    /** `VcnFlowLogs(vcn=self)`: finalises the network, then logs its four subnets. */
    method AttachFlowLogs(retention: int) returns (raised: Option<Error>)
      modifies this
      ensures Outcome(State(), raised) == CreateFlowLogs(old(State()), retention)
      decreases if finalized then 0 else 1, 1
    {
      if retention !in VALID_RETENTION {
        return Some(BadRetention);
      }
      raised := FinalizeNetwork();
      if raised.None? {
        flowLogs := flowLogs + 1;
      }
    }
  }
}
