# CloudSpells, modelled in Dafny

CloudSpells builds Oracle Cloud networks out of *spells*: Python objects that contribute firewall rules to a shared VCN and
then create cloud resources. This project models the parts of it that decide something and proves what they promise.

* **The VCN builder** (`vcn.dfy`, `spells.dfy`, `nsg.dfy`, `oke.dfy`, `program.dfy`). Rules accumulate in eight lists until the
  network is finalised, once. Contributions are direct, or merged by a string fingerprint. The source's classes are classes
  here, and every method is proved equal to a specification function on its abstract state; `Program.Execute` proves that a
  heap of such objects refines one state machine whose steps are the constructors and calls of a user's program.
* **Whole programs** (`history.dfy`, `agreement.dfy`, `contributions.dfy`, `admission.dfy`, `ordering.dfy`, `serving.dfy`,
  `errors.dfy`, `traffic.dfy`, `meaning.dfy`, `nsglayer.dfy`, `confinement.dfy`, `duplicates.dfy`, `independence.dfy`,
  `successorder.dfy`). A program is a
  sequence of steps of any length. `Agreement.RunsAgree` characterises the programs that raise nothing and what they leave
  behind; everything else about lists, NSGs, order and traffic rests on it. Packets have addresses, NSG memberships, a
  protocol, a port and ICMP fields; a list or NSG admits a packet when one of its rules does.
* **Programs that catch exceptions and carry on** (`catching.dfy`, `trust.dfy`, `retries.dfy`, `silence.dfy`): what still
  holds, when a recorded fingerprint can be trusted, and what a late relationship does to later ones.
* **CIDR arithmetic** (`networks.dfy`). Addresses are natural numbers below two to the address width, networks are an aligned
  base and a prefix.
* **The translation** of cloud-neutral rules to OCI rules (`translation.dfy`).
* **The project runner** (`runner.dfy`). Deploy in order, destroy in reverse; what each operation does is an input, so every
  combination of failures over any number of invocations is covered.
* **Two text cores** (`kebab.dfy`, `labels.dfy`) and the block volumes that use one of them (`volumes.dfy`).
* **Strings that identify rules** (`text.dfy`, `fingerprints.dfy`), and small shared definitions (`rules.dfy`,
  `permutations.dfy`, `wrappers.dfy`).

Exceptions are values: a call returns the state it leaves and what it raised (`Outcome`), because the source changes state
before some of its exceptions. `dafny verify dfyconfig.toml` checks everything.

## Where the code and its documentation differ

The model follows the code.

* The tier split fails for IPv4 prefixes /30 to /32; the documentation says the formula applies at any prefix length
  (docs/reference/vcn-architecture.md:28). See `Networks.SplitTiersMatchesEqualSplit`.
* Two load balancers, or a cluster and a workload, cannot share a VCN in any order; docs/how-to/loadbalancer.md:106 and
  docs/reference/oke-architecture.md:460 say they can. See `Ordering.OneDirectCaller`.
* The generated bastion stack builds the instance before the bastion, which raises. See `Ordering.InstanceBeforeBastionRaises`.
* A fingerprint is recorded before the call that raises, so once an exception has been caught a recorded fingerprint need not
  have its rule in force. See `FingerprintTrust.FingerprintTrustExact` for when it has, `FingerprintTrust.RecordedWithoutRule`
  for a program where it has not, and `Retries.FailuresSilenceOthers` for what this does to later relationships.
* `serves` opens SSH towards a target without a role, too; its documentation names only targets whose role accepts it
  (nsg.py:668-670 against nsg.py:708). See `NsgLayer.RolelessTargetTakesSsh` and `NsgLayer.SshWithoutConsent`.
* UDP port bounds are dropped and ingress from `"cloud-services"` is left as a literal string by the translation. See
  `Translation.TranslationExact` for the exact set of rules that keep their meaning.
* One newline after a volume label is accepted. See `Labels.NewlineSlipsThrough`.
* A load balancer's HTTP rule is documented as merged with the same rule of other spells (loadbalancer.py:303-305), but its
  fingerprint is spelled differently; ambient egress is repeated by the baseline. See `Duplicates.HttpRuleTwice`,
  `Duplicates.ServicesRuleTwice`, and `Duplicates.TwinsExact` for all such pairs. Merging never loses traffic
  (`Admission.ListsExact`).

## Model

| member | source | states |
|---|---|---|
| Networks.CalculateSubnets | packages/cloudspells-core/src/cloudspells/core/helper.py:107-114 | the search loop ends with the least number of extra prefix bits k with 2^k >= n; when prefix + k fits the address width the answer is the first n of the 2^k blocks of that size (a host route with k = 0 answers with itself), otherwise `ValueError` |
| Networks.EqualSplitIsSound | packages/cloudspells-core/src/cloudspells/core/helper.py:86-114 | those blocks are n in number, aligned, inside the supernet, of equal size, pairwise disjoint and in ascending address order |
| Networks.LeastBitsUnique | packages/cloudspells-core/src/cloudspells/core/helper.py:108-110 | the condition the loop reaches has only one solution |
| Networks.SubnetsAreBlocks | packages/cloudspells-core/src/cloudspells/core/helper.py:111-113 | stepping through the address range as `ipaddress` does gives exactly the blocks base + i * size |
| Networks.SplitTiersMatchesEqualSplit | packages/cloudspells-oci/src/cloudspells/providers/oci/network.py:592-608 | the unequal split succeeds if and only if prefix + 3 <= width (an IPv4 prefix of at most 29, although the documentation promises any prefix), and then private, secure, public and management are item 0 of 2, 2 of 4, 6 of 8 and 7 of 8 of the equal splits |
| Networks.TiersFit | packages/cloudspells-oci/src/cloudspells/providers/oci/network.py:545-608 | the four tiers are aligned, lie inside the VCN and have one half, one quarter, one eighth and one eighth of its addresses |
| Networks.TierPartition | packages/cloudspells-oci/src/cloudspells/providers/oci/network.py:545-608 | every address of the VCN is in exactly one tier, and no other address is in any |
| Fingerprints.RenderInjective | packages/cloudspells-oci/src/cloudspells/providers/oci/nsg.py:642-652 | the rendered fingerprint strings of ambient, cross-tier and spell rules are injective: equal strings mean the same kind, tier, port and peer tier |
| Fingerprints.LabelInjective | packages/cloudspells-oci/src/cloudspells/providers/oci/nsg.py:700-711 | the NSG rule labels `out-{name}-{port}`, `in-{name}-{port}`, `out-{name}-ssh`, `in-{name}-ssh`, `svc-out`, `inet-out` and `internet-in-{port}` are injective for arbitrary NSG names, hyphens included |
| Text.ValueOfDecimal | packages/cloudspells-oci/src/cloudspells/providers/oci/nsg.py:645 | reading a rendered port number back gives the number, which is why ports in fingerprints and labels are told apart |
| Text.OrdinalSuffixInjective | packages/cloudspells-oci/src/cloudspells/providers/oci/_naming.py:6-24 | ordinal resource suffixes of any prefixes never collide |
| Text.OrdinalCountsFromOne | packages/cloudspells-oci/src/cloudspells/providers/oci/_naming.py:21-24 | the suffix is the prefix, a hyphen and the decimal of the index plus one |
| VcnBuilder.Vcn.Create | packages/cloudspells-oci/src/cloudspells/providers/oci/network.py:463-545 | constructing a VCN fails exactly when its block cannot be split into four tiers; otherwise the eight lists hold only the two seeded ICMP rules |
| VcnBuilder.Vcn.AddSecurityListRules | packages/cloudspells-oci/src/cloudspells/providers/oci/network.py:1241-1262 | raises and changes nothing once finalised, otherwise appends to all eight lists in order |
| VcnBuilder.Vcn.AddUniqueSecurityListRules | packages/cloudspells-oci/src/cloudspells/providers/oci/network.py:1131-1143 | a known fingerprint changes nothing; a new one is recorded even when the call then raises |
| VcnBuilder.Vcn.InjectBaselineRules | packages/cloudspells-oci/src/cloudspells/providers/oci/network.py:1012-1061 | the NAT and service-gateway egress is appended to the private, secure and management egress lists and nowhere else |
| VcnBuilder.Vcn.FinalizeNetwork | packages/cloudspells-oci/src/cloudspells/providers/oci/network.py:1422-1487 | one call of the mutually recursive pair with flow logging, equal to the specification function `Finalize`; its recursion through `AttachFlowLogs` terminates because the flag is set first |
| VcnBuilder.Vcn.AttachFlowLogs | packages/cloudspells-oci/src/cloudspells/providers/oci/network_logging.py:140-261 | an invalid retention raises before anything happens; otherwise the network is finalised first and logged afterwards |
| VcnBuilder.FinalizeOnce | packages/cloudspells-oci/src/cloudspells/providers/oci/network.py:1455-1475 | finalisation creates lists and subnets once, directly or through flow logging; it raises only for a retention OCI does not offer, and then still leaves a finalised network; repeating it changes nothing |
| VcnBuilder.FlowLogsExact | packages/cloudspells-oci/src/cloudspells/providers/oci/network_logging.py:140-155 | creating flow logs raises on a retention OCI does not offer before anything happens, and otherwise finalises the network first and then makes one log more |
| VcnBuilder.FrozenCalls | packages/cloudspells-oci/src/cloudspells/providers/oci/network.py:1241-1245 | no sequence of rule calls changes the lists, subnets or flag of a finalised network |
| Spells.ComputeInstance | packages/cloudspells-oci/src/cloudspells/providers/oci/compute.py:306-308 | registers its tier's SSH rule only on an open network, then finalises; on a finalised network it silently contributes nothing |
| Spells.Bastion | packages/cloudspells-oci/src/cloudspells/providers/oci/bastion.py:160-173 | raises on a finalised network without the Bastion rule, is a no-op with it, and otherwise registers the rule and finalises |
| Spells.LoadBalancer | packages/cloudspells-oci/src/cloudspells/providers/oci/loadbalancer.py:192-204 | port check, two fingerprinted rules, one direct call, finalise, stopping at the first exception |
| Spells.InternalLoadBalancer | packages/cloudspells-oci/src/cloudspells/providers/oci/loadbalancer.py:469-480 | the same shape for the internal load balancer and its VCN-only ingress |
| Spells.ScalableWorkload | packages/cloudspells-oci/src/cloudspells/providers/oci/autoscale.py:346-491 | both load-balancer variants of the workload's rules, then finalisation |
| Oke.OkeCluster.AddSecurityListsRules | packages/cloudspells-oci/src/cloudspells/providers/oci/kubernetes.py:437-708 | appends exactly the cluster's four lists, with one kubectl ingress rule per allowed CIDR, in one direct call |
| Oke.OkeCluster.Build | packages/cloudspells-oci/src/cloudspells/providers/oci/kubernetes.py:279-305 | lists, finalisation, then the four NSG rule sets; nothing is added to an NSG when the lists raise |
| Oke.OkeCluster.AddApiNsgRules | packages/cloudspells-oci/src/cloudspells/providers/oci/kubernetes.py:831-959 | the API endpoint's NSG receives exactly its rule set, kubectl rules included |
| Oke.OkeCluster.AddLbNsgRules | packages/cloudspells-oci/src/cloudspells/providers/oci/kubernetes.py:961-1029 | the load-balancer NSG receives exactly its rule set |
| Oke.OkeCluster.AddWorkerNsgRules | packages/cloudspells-oci/src/cloudspells/providers/oci/kubernetes.py:1031-1200 | the worker NSG receives exactly its rule set |
| Oke.OkeCluster.AddPodNsgRules | packages/cloudspells-oci/src/cloudspells/providers/oci/kubernetes.py:1202-1345 | the pod NSG receives exactly its rule set |
| Oke.CrossSubnetCoherence | packages/cloudspells-oci/src/cloudspells/providers/oci/kubernetes.py:437-708 | for every VCN, kubectl CIDR list and packet: what the NSGs at both ends admit between two interfaces of different subnets, the egress list of one and the ingress list of the other admit |
| Oke.ClusterRulesMirror | packages/cloudspells-oci/src/cloudspells/providers/oci/kubernetes.py:831-1345 | between any two parts of a cluster the NSGs mirror each other: one has an egress rule to the other if and only if the other has the same ingress rule from it |
| Oke.ChannelsAreOpen | packages/cloudspells-oci/src/cloudspells/providers/oci/kubernetes.py:437-1345 | each of the cluster's channels (API to kubelets, load balancers to node ports, workers and pods to the API, pod and worker traffic) is open end to end: through both NSGs and, between subnets, through both lists |
| Oke.PartExact | packages/cloudspells-oci/src/cloudspells/providers/oci/kubernetes.py:831-1345 | what each of the four NSGs of a cluster admits, in both directions and for every peer, said with literal ports: the in-cluster channels, kubectl and web traffic in, services and web traffic out; nothing else |
| Oke.OutsideEgressExact | packages/cloudspells-oci/src/cloudspells/providers/oci/kubernetes.py:1031-1345 | towards destinations without NSGs: services from all parts but the load balancers, TCP 80 and 443 to the internet from workers and pods, and nothing else |
| Oke.OutsideIngressExact | packages/cloudspells-oci/src/cloudspells/providers/oci/kubernetes.py:831-1029 | from sources without NSGs: TCP 6443 from the allowed kubectl blocks to the API endpoint, TCP 80 and 443 from the internet to the load balancers, and nothing else |
| Oke.WebEgressListed | packages/cloudspells-oci/src/cloudspells/providers/oci/kubernetes.py:437-708 | what workers and pods may send to the web passes the cluster's private egress list |
| Oke.OutsideIngressCoherence | packages/cloudspells-oci/src/cloudspells/providers/oci/kubernetes.py:831-1029 | kubectl and load-balancer traffic from outside that the NSG admits is admitted by the public list |
| Oke.ServiceEgressMismatch | packages/cloudspells-oci/src/cloudspells/providers/oci/kubernetes.py:831-959 | the exception: API-endpoint egress to Oracle services passes the NSG for every protocol, but the cluster's public list only if and only if it is TCP |
| Nsgs.Nsg.AddRule | packages/cloudspells-oci/src/cloudspells/providers/oci/nsg.py:821-847 | a label used before raises and changes nothing; otherwise the rule takes the next ordinal name |
| Nsgs.Nsg.SlForTier | packages/cloudspells-oci/src/cloudspells/providers/oci/nsg.py:539-574 | the rule reaches exactly the list of its tier and direction, through the fingerprint check |
| Nsgs.Nsg.ApplyRoleAmbientRules | packages/cloudspells-oci/src/cloudspells/providers/oci/nsg.py:600-652 | NSG rules first, then list rules, both loops over ports included, stopping at the first exception |
| Nsgs.Nsg.Create | packages/cloudspells-oci/src/cloudspells/providers/oci/nsg.py:499-533 | `INTERNET_EDGE` without ports raises; otherwise the NSG and the VCN are as the specification function `BuildGroup` says |
| Nsgs.PredefinedRolesAre | packages/cloudspells-core/src/cloudspells/core/abstractions/roles.py:88-196 | of the five roles exactly the edge is public, takes no SSH and reaches no services, and exactly the private ones reach the internet |
| Nsgs.Nsg.Serves | packages/cloudspells-oci/src/cloudspells/providers/oci/nsg.py:654-748 | one call changes the source NSG, the target NSG and the VCN, which may also be one and the same NSG, exactly as the grants and contributions of the relationship do in order, stopping at the first exception |
| Programs.Program.Execute | packages/cloudspells-oci/src/cloudspells/providers/oci/nsg.py:369-748 | a program's heap of VCN and NSG objects refines the state machine: one step on the objects equals one `Exec` on their abstract state, exceptions included |
| Agreement.RunsAgree | packages/cloudspells-oci/src/cloudspells/providers/oci/network.py:1096-1143 | for every program: it raises nothing if and only if each step is allowed by the steps before it, and then every list, fingerprint and NSG is a function of the history |
| Contributions.StepCallsCoherent | packages/cloudspells-oci/src/cloudspells/providers/oci/network.py:1096-1115 | all spells that share a fingerprint supply the same rule, up to description, to the same list |
| Contributions.FirstCallerWins | packages/cloudspells-oci/src/cloudspells/providers/oci/network.py:1131-1143 | per fingerprint exactly one contribution is kept, and it is the first that asked |
| Contributions.DeclaredKeysRegistered | packages/cloudspells-oci/src/cloudspells/providers/oci/nsg.py:727-748 | in a run that raises nothing every list rule an NSG step asks for is registered, be it first, repeated or late |
| Contributions.FingerprintSoundness | packages/cloudspells-oci/src/cloudspells/providers/oci/network.py:1131-1143 | after a run that raises nothing a fingerprint is registered if and only if exactly one kept contribution carries it, and the pending lists are the standard rules plus the kept contributions |
| Admission.ListsExact | packages/cloudspells-oci/src/cloudspells/providers/oci/network.py:1096-1143 | deduplication is invisible to traffic: each of the eight lists admits a packet if and only if a standard rule or some unmerged contribution of some step admits it, late compute instances excepted; the materialised lists are those lists |
| ListMeaning.ListsMean | packages/cloudspells-oci/src/cloudspells/providers/oci/nsg.py:642-748 | what each of the eight lists lets through in every program that raises nothing, said with literal ports, tiers and blocks and without the rules: path-discovery ICMP and the baseline egress, and for each step what its kind opens (edge ports and role egress, relationships, instances, bastions, public and internal load balancers and workloads, clusters, the user's own rules); nothing else; an instance built too late opens nothing |
| ListMeaning.EachListMeans | packages/cloudspells-oci/src/cloudspells/providers/oci/network.py:1247-1262 | the same said of the eight lists by name |
| ListMeaning.EdgePortsOpen | packages/cloudspells-oci/src/cloudspells/providers/oci/nsg.py:642-647 | every port declared for a public NSG is open to the internet on the public list, pending and materialised, also when its rule was merged with another or came late |
| ListMeaning.FinalizeOpens | packages/cloudspells-oci/src/cloudspells/providers/oci/network.py:1040-1061 | finalisation opens, for every state, list and packet, exactly the egress to Oracle services outside the public tier and the private tier's egress to the internet, and materialises the result |
| ListMeaning.ClusterEgressPasses | packages/cloudspells-oci/src/cloudspells/providers/oci/kubernetes.py:1031-1345 | in every program with a cluster, whatever a worker or pod NSG lets out of the cluster passes the materialised private list |
| Admission.AskedIsAdmitted | packages/cloudspells-oci/src/cloudspells/providers/oci/network.py:1131-1134 | no rule that was merged with an earlier one, or asked for after finalisation in a run that raises nothing, is missing from the traffic its list admits |
| Duplicates.TwinsExact | packages/cloudspells-oci/src/cloudspells/providers/oci/network.py:1096-1143 | exactly when a list holds the same rule twice, descriptions aside, in a run that raises nothing: a pair of colliding fingerprints was contributed, or a fingerprinted rule that the baseline adds too, or a direct rule that repeats a direct, fingerprinted or standard rule |
| Duplicates.SameRuleMeansColliding | packages/cloudspells-oci/src/cloudspells/providers/oci/compute.py:549-563 | which different fingerprints stand for the same rule of the same list: a public port spelled by an NSG and by a load balancer, and cross-tier SSH spelled by an NSG and by a compute instance; no others |
| Duplicates.HttpRuleTwice | packages/cloudspells-oci/src/cloudspells/providers/oci/loadbalancer.py:303-305 | the documented merging fails: an edge NSG with port 80 and a load balancer leave the HTTP rule twice in the public list, pending and materialised |
| Duplicates.ServicesRuleTwice | packages/cloudspells-oci/src/cloudspells/providers/oci/network.py:1050-1061 | an application NSG and finalisation leave the services egress twice in the private list |
| Duplicates.PublicIngressUnrepeated | packages/cloudspells-oci/src/cloudspells/providers/oci/autoscale.py:353-356 | where the documented merging works: without load balancers, clusters and the user's own rules, no rule is ever twice in the public ingress list, for NSGs at the edge, workloads, instances and bastions in any number and order |
| Admission.ClusterListsMaterialised | packages/cloudspells-oci/src/cloudspells/providers/oci/kubernetes.py:279-305 | in every program that builds a cluster and raises nothing, all of the cluster's list rules are in the materialised lists, whatever other spells and NSGs the program holds |
| Admission.ClusterTrafficPasses | packages/cloudspells-oci/src/cloudspells/providers/oci/kubernetes.py:703-708 | the two layers of a cluster agree end to end in every such program |
| Traffic.DeclaredPassesNsgs | packages/cloudspells-oci/src/cloudspells/providers/oci/nsg.py:703-711 | every declared relationship's port, and SSH when it applies, passes the egress of the source NSG and the ingress of the target NSG in every later state of a run that raises nothing |
| Traffic.DeclaredPassesLists | packages/cloudspells-oci/src/cloudspells/providers/oci/nsg.py:713-748 | every declared cross-tier flow passes the egress list of its source tier and the ingress list of its target tier, pending and materialised, skipped duplicates and late calls included |
| Traffic.IsolatedIngressExact | packages/cloudspells-oci/src/cloudspells/providers/oci/nsg.py:713-748 | without direct rule calls the secure and management ingress lists, pending and materialised, admit a packet if and only if it is TCP and a declared relationship into the tier matches it, or it is the SSH of the compute instance that first finalised the network there |
| NsgLayer.NsgIngressExact | packages/cloudspells-oci/src/cloudspells/providers/oci/nsg.py:628-711 | an NSG's ingress admits exactly the declared relationships into it, the internet ports of a public role, and the rules the user added to it by hand |
| NsgLayer.NsgEgressExact | packages/cloudspells-oci/src/cloudspells/providers/oci/nsg.py:628-711 | an NSG's egress admits exactly the declared relationships out of it, its role's ambient egress, and the rules the user added to it by hand |
| NsgLayer.BilateralMirror | packages/cloudspells-oci/src/cloudspells/providers/oci/nsg.py:703-711 | the number of egress rules of S to T on a port equals the number of ingress rules of T from S on it |
| NsgLayer.SshWithoutConsent | packages/cloudspells-oci/src/cloudspells/providers/oci/nsg.py:708-711 | exactly when SSH is admitted into an NSG whose role does not accept it: a relationship names port 22, or has the default SSH channel and the NSG has no role, or a public role opens the port |
| NsgLayer.RolelessTargetTakesSsh | packages/cloudspells-oci/src/cloudspells/providers/oci/nsg.py:668-711 | a program that shows it: two NSGs without roles, related on any port, and the target admits SSH, which the documentation of `serves` does not say |
| Ordering.WhichProgramsRaise | packages/cloudspells-oci/src/cloudspells/providers/oci/network.py:1241-1245 | for every program on one VCN: it raises nothing if and only if no load balancer, workload, cluster or direct rule call follows a finalising step, the first finalising step before any Bastion is itself a Bastion, NSGs are built once before use, arguments are valid, labels are fresh, and late NSG steps use registered fingerprints |
| Ordering.OneDirectCaller | docs/how-to/loadbalancer.md:106 | two load balancers, workloads or clusters on one VCN always raise, in either order and whatever surrounds them, although the documentation allows any order |
| Ordering.InstanceBeforeBastionRaises | packages/cloudspells-cli/src/cloudspells/cli/templates/spells/bastion.py:50-63 | the generated bastion stack's order, instance first, raises for every subnet; the other order raises only for an invalid log retention |
| Serving.ServesRaises | packages/cloudspells-oci/src/cloudspells/providers/oci/nsg.py:700-711 | which of the two exceptions a `serves` call raises, and when: `ValueError` if and only if this port, or an SSH channel it needs, was declared before between these ends; else `RuntimeError` if and only if the network is finalised and a fingerprint is new |
| Serving.RepeatsWithDistinctNames | packages/cloudspells-oci/src/cloudspells/providers/oci/nsg.py:700-711 | when NSG names are distinct that condition speaks of the same two NSGs |
| Errors.ErrorsExact | packages/cloudspells-oci/src/cloudspells/providers/oci/nsg.py:512-517 | after any program that raised nothing, which exception the next step raises, if any, for every kind of step, with the checks in the order in which the code makes them |
| Errors.FirstErrorEnds | packages/cloudspells-oci/src/cloudspells/providers/oci/nsg.py:821-822 | a program ends with the first exception its history calls for, in the state it left, whatever would follow |
| CaughtExceptions.FinalisedOnceForAll | packages/cloudspells-oci/src/cloudspells/providers/oci/network.py:1455-1462 | in every program, even one that catches exceptions and goes on: lists and subnets are created at most once, with the baseline egress, and no later step changes them |
| CaughtExceptions.RulesNumberedApart | packages/cloudspells-oci/src/cloudspells/providers/oci/nsg.py:821-828 | in every NSG of every such program the next index equals the number of labels, and all labels and ordinal names differ |
| FingerprintTrust.FingerprintTrustExact | packages/cloudspells-oci/src/cloudspells/providers/oci/network.py:1131-1143 | in any program, whatever raises and whatever is caught, the rule of a recorded fingerprint is in its list, pending and materialised, if and only if some step that found the network open left the fingerprint recorded, or the finalised list already held that rule before the fingerprint was recorded |
| FingerprintTrust.RecordedWithoutRule | packages/cloudspells-oci/src/cloudspells/providers/oci/network.py:1131-1134 | the failing case: four or more pairs of application and database NSGs related after finalisation leave a recorded fingerprint whose rule is in no list |
| FingerprintTrust.LateServicesHeld | packages/cloudspells-oci/src/cloudspells/providers/oci/network.py:1050-1061 | the second good case: an application NSG built after finalisation raises, and its services fingerprint is recorded late, but the baseline holds the rule |
| Retries.RetryRaises | packages/cloudspells-oci/src/cloudspells/providers/oci/nsg.py:700-711 | in any program that catches exceptions, a relationship attempted once between existing NSGs raises the duplicate-label error on every later attempt, whatever it raised first |
| Retries.LateRelationNeverSucceeds | packages/cloudspells-oci/src/cloudspells/providers/oci/nsg.py:821-825 | in particular a relationship that raised the finalised error never succeeds on a retry |
| Retries.FailuresSilenceOthers | packages/cloudspells-oci/src/cloudspells/providers/oci/network.py:1131-1134 | on a finalised network, of any relationships between fresh, different pairs of NSGs across the same two tiers the first k raise the finalised error and all later ones raise nothing, where k, at most four, is the number of their list rules not yet registered; no list changes |
| SilencedPrograms.LateRelationsSilenced | packages/cloudspells-oci/src/cloudspells/providers/oci/network.py:1131-1134 | a program that reaches it: n application and database NSGs related after finalisation; the first four relationships raise (two on port 22), all others succeed, and no packet at all is admitted into the databases' tier |
| SuccessOrder.SuccessOrderIrrelevant | docs/concepts/design.md:109 | before finalisation, reordering a program whose NSGs stay bound before use does not change whether it raises |
| SuccessOrder.ContributionOrderIrrelevant | docs/concepts/design.md:109 | if a program raises nothing before finalisation, no reordering that builds NSGs before it uses them raises; both leave the same fingerprints and the same multiset of rules per list up to description; and any spell with valid arguments then finalises both, with the same multisets materialised |
| Confinement.IsolatedEgressExact | packages/cloudspells-oci/src/cloudspells/providers/oci/network.py:1012-1061 | without direct rule calls the secure and management egress lists, pending and materialised, admit a packet if and only if it goes to Oracle services (once finalised or granted by a role), matches a declared relationship out of the tier, or a role of that tier was given internet egress |
| Confinement.IsolatedEgressConfined | packages/cloudspells-oci/src/cloudspells/providers/oci/network.py:1012-1061 | with the predefined roles every packet that either list admits goes to Oracle services or stays inside the VCN |
| Confinement.CreateRouteTables | packages/cloudspells-oci/src/cloudspells/providers/oci/network.py:836-904 | the loop over on-premise CIDRs appends one DRG route each to private, secure and management, and the public table gets none |
| Confinement.RoutesExact | packages/cloudspells-oci/src/cloudspells/providers/oci/network.py:836-904 | where each tier's table leads: the public one only to the internet gateway (no DRG route), the private one to the NAT gateway, and private, secure and management to the service gateway exactly for Oracle services and to the DRG exactly for on-premise blocks; to no other gateway |
| Translation.TranslationExact | packages/cloudspells-oci/src/cloudspells/providers/oci/network.py:82-143 | a neutral rule and its OCI translation admit the same packets if and only if the rule is not ingress from cloud services (unless it admits nothing) and puts no effective port bound on anything but `tcp` |
| Translation.TranslationNeverNarrows | packages/cloudspells-oci/src/cloudspells/providers/oci/network.py:82-143 | apart from ingress from cloud services a translated rule never admits less; dropped UDP bounds only widen it |
| Translation.RulesKeepMeaning | packages/cloudspells-oci/src/cloudspells/providers/oci/network.py:1264-1308 | a rule set of faithful rules admits the same packets after translation, tier by tier and direction by direction |
| Translation.AddSecurityRules | packages/cloudspells-oci/src/cloudspells/providers/oci/network.py:1299-1308 | the whole set is translated and added in one call, or nothing is and the call raises |
| Runner.Project.EnsureSpellDir | packages/cloudspells-cli/src/cloudspells/cli/project/runner.py:33-41 | an unknown spell raises first; an existing directory is kept; a failing scaffold may or may not have written the directory |
| Runner.Project.DeployProject | packages/cloudspells-cli/src/cloudspells/cli/project/runner.py:69-75 | the loop in declaration order equals `Deploy` and stops at the first failure |
| Runner.Project.DestroyProject | packages/cloudspells-cli/src/cloudspells/cli/project/runner.py:99-104 | the loop in reverse order skips unscaffolded spells, equals `Destroy` and stops at the first failure |
| Runner.PrefixSafety | packages/cloudspells-cli/src/cloudspells/cli/project/runner.py:44-104 | with distinct spell names, after any sequence of deploy, preview and destroy invocations with arbitrary failures, the started stacks are a prefix of the project, and all of them are scaffolded |
| Runner.PrefixSafetyExact | packages/cloudspells-cli/src/cloudspells/cli/project/runner.py:72-104 | for every project, repeated names and unregistered spells included: all invocation sequences keep the started stacks a prefix if and only if the names first mentioned before the first unregistered spell are last mentioned in the order in which they are first mentioned |
| Runner.UninterruptedRuns | packages/cloudspells-cli/src/cloudspells/cli/project/runner.py:44-104 | from any prefix-safe state a destroy that does not fail leaves nothing started, and a deploy that does not fail leaves everything started |
| Runner.DeployExact | packages/cloudspells-cli/src/cloudspells/cli/project/runner.py:69-75 | a deploy goes through the spells in order up to the first with a fault and raises that fault, unregistered type, failed scaffolding where nothing was scaffolded, workspace or operation; what is scaffolded and started then, exactly; a preview starts nothing |
| Runner.ExistingKept | packages/cloudspells-cli/src/cloudspells/cli/project/runner.py:36-41 | how scaffolding an already scaffolded spell would go makes no difference to a deploy, result and exception included |
| Runner.ScaffoldedDeploy | packages/cloudspells-cli/src/cloudspells/cli/project/runner.py:33-41 | with everything scaffolded and registered a deploy succeeds if and only if every workspace opens and every operation succeeds, and it never fails on scaffolding |
| Runner.DestroyExact | packages/cloudspells-cli/src/cloudspells/cli/project/runner.py:99-104 | a destroy goes through the spells backwards up to the first scaffolded one with a fault, raises it, leaves started exactly what it did not get to, and removes no directory |
| Kebab.TwoPassesAreOneScan | packages/cloudspells-core/src/cloudspells/core/base.py:54-56 | for every class name the two sequential regex substitutions, greedy matching and backtracking included, equal one scan that puts a hyphen exactly before a capital that follows a small letter or digit, or that follows a capital and precedes a small letter |
| Kebab.FirstGroupExact | packages/cloudspells-core/src/cloudspells/core/base.py:54 | the first expression matches at a position if and only if at least two capitals start there and a small letter follows them, and then backtracking gives up exactly one capital |
| Kebab.RewriteKeepsLetters | packages/cloudspells-core/src/cloudspells/core/base.py:54-56 | without hyphens the result is the name in lower case |
| Kebab.SpellTypeIdempotent | packages/cloudspells-core/src/cloudspells/core/base.py:51-56 | the spell type of a spell type is itself |
| Kebab.ClassName | packages/cloudspells-core/src/cloudspells/core/base.py:51 | the part after the last colon: no colon in it, and the URN is it or ends with a colon and it |
| Kebab.ClassNamesBecomeKebab | packages/cloudspells-core/src/cloudspells/core/base.py:35-42 | every alphanumeric class name that starts with a letter becomes small letters, digits and single inner hyphens |
| Labels.AcceptsDecides | packages/cloudspells-oci/src/cloudspells/providers/oci/volume.py:91 | an executable matcher by derivatives decides the language of every regular expression over the three character classes |
| Labels.LabelLanguage | packages/cloudspells-oci/src/cloudspells/providers/oci/volume.py:127-132 | a label is accepted if and only if, one trailing newline aside, it starts with a small letter, ends with a small letter or digit, uses only those and hyphens, and has no two adjacent hyphens; and if and only if the regular expression's language says so |
| Labels.NewlineSlipsThrough | packages/cloudspells-oci/src/cloudspells/providers/oci/volume.py:127 | where code and documentation differ: every valid label is accepted with one newline after it, and never with two |
| Labels.SpellTypesAreLabels | packages/cloudspells-core/src/cloudspells/core/base.py:51-56 | the kebab-case form of every alphanumeric class name that starts with a letter is a valid volume label |
| Volumes.ValidationExact | packages/cloudspells-oci/src/cloudspells/providers/oci/volume.py:115-132 | a volume specification is accepted if and only if it meets all four demands, and the error names the first one missed |
| Volumes.ResolveExact | packages/cloudspells-oci/src/cloudspells/providers/oci/compute.py:280-294 | a list of volumes is accepted if and only if it is left out, or is not empty and repeats no label; left out, it is one balanced 100 GiB volume labelled `data` |
| Volumes.DuplicatesExact | packages/cloudspells-oci/src/cloudspells/providers/oci/compute.py:289-290 | the counting comprehension finds a duplicate if and only if two positions hold the same label |
| Volumes.InstanceDisks.AttachBlockVolumes | packages/cloudspells-oci/src/cloudspells/providers/oci/compute.py:415-457 | the loop creates one volume and one attachment per specification, in order, with ordinal names |
| Volumes.InstanceDisks.Create | packages/cloudspells-oci/src/cloudspells/providers/oci/compute.py:277-294 | an accepted list gives an instance whose volumes and attachments mirror it; a rejected one gives the error |
| Volumes.InstanceDisks.GetVolume | packages/cloudspells-oci/src/cloudspells/providers/oci/compute.py:681-696 | the search finds a volume if and only if the label was declared, and it carries that label and its specification's size and performance |
| Volumes.InstanceDisks.GetVolumeAttachment | packages/cloudspells-oci/src/cloudspells/providers/oci/compute.py:698-715 | the search finds an attachment if and only if the label was declared, and it attaches the volume with that label and no other, with its specification's access mode and device |

## Left out

- Creation of cloud resources, `Output` resolution, tags, display names, aliases and stack exports: calls into Pulumi without logic of their own. Created lists and subnets are recorded as values; load balancers, listeners, node pools and instances are not.
- `VcnRef`: it has no rule lists; the model has live `Vcn` objects only, and one VCN per program.
- Rebinding of names: a handle of the model stands for one NSG and is never reused, so a second `Nsg` under the same handle is the model's own error `HandleInUse`; using an unbound handle is Python's `NameError`.
- Role identity: the source tests `role is INTERNET_EDGE`, the model compares role values, so a user-made copy of that role counts as it.
- Tier names other than the four constants, and the `ValueError` for them.
- Negative port numbers: ports of `serves` and of roles are naturals; the load balancers' port check is modelled on all integers.
- UDP and ICMP options of manual NSG rules, and the `allow_icmp_from_cidr` helper: a manual rule of the model carries a protocol, a peer, TCP ports and ICMP type and code.
- A user's own call of `add_unique_security_list_rules` with a fingerprint of the user's choice: no step of the model makes one. With such calls two rules could share a fingerprint, and the results on fingerprints speak of the spells' fingerprints only. Direct calls of `add_security_list_rules` are steps.
- Wording of descriptions: a rule carries a tag for which description the source writes, so two rules that differ only there are told apart, but not the text.
- The `compartment_id is None` checks, the `allowed_client_cidrs` check of `Bastion`, and argument checks of the spells that happen before any rule is contributed, except those in the table.
- Traffic within one subnet at the security-list layer: the code emits no list rules for same-tier relationships.
- IPv6: the /64 slots of the subnets are one more equal split.
- Parsing and printing of CIDR text, and the rejection of host bits: `ipaddress` does both; networks are aligned by `Canonical`.
- Text outside ASCII in class names: Python's `\d` and `lower` know more digits and letters than `Kebab` does.
- Spells with equal paths but different names, and a stack name that changes between invocations, in the runner; `project_status`.
- What `up`, `preview`, `destroy`, scaffolding and opening a workspace do: each may succeed or fail, as the input `Fate` says.
- The command line, wizard, templates, SSH keys, kubeconfig, storage, identity, and schedule and tag handling: interface code, fixed text or one-branch checks.
- Contributions.FingerprintSoundness: holds on runs that raise nothing; `FingerprintTrust.FingerprintTrustExact` covers all others.
- Oke.CrossSubnetCoherence: API-endpoint egress to Oracle services is excluded, because the two layers differ there (`Oke.ServiceEgressMismatch`).
