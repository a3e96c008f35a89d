# Channel reconciliation, status conditions and chaincode: a Dafny model

This project models the parts of a Hyperledger Fabric operator, and of two chaincodes used with it, whose
correctness spans several functions, and proves what they promise. `dafny verify dfyconfig.toml` checks it all.

**One channel, two reconcilers, one script.** The main-channel reconciler drives a channel's stored
configuration towards a resource: organisations, raft or BFT consenters, endpoints, ACLs, capabilities, gated by
the Normal and Maintenance states. The follower reconciler sets one organisation's anchor peers and revocation
list. A script migrates a raft channel to BFT by patching the resource four times.

- `ChannelModel`, `ConfigTx` (module `ConfigTransaction`): the stored configuration, and the library it is edited
  through as a mutable class.
- `HostPort`, `Endpoints`, `Consenters`: endpoint texts, the endpoint reset, and the consenter edits as a plan
  decided from a snapshot and applied to the live list.
- `MainUpdate`, `ChannelMapping`, `Reconcilers`: the update functions with their loops, the mapping from the
  resource, and both reconciles, each method proved against a specification function.
- `ChannelRuns`, `Convergence`, `Migration`: all interleavings of reconciles; repeated reconciles of one spec; the
  script composed with the reconcilers.

**Status conditions.** `Conditions` (module `StatusConditions`) is the list over a shared backing array;
`ConditionHistory` is what it means: a map, a rule for transition times over whole histories, and an encoding that
depends on the map alone. `Sorting` holds the string order.

**Chaincode under execute-order-validate.** `Ledger` follows "Read-Write set semantics" in the Hyperledger Fabric
documentation: a program is simulated against a committed state, and its commit is valid when the versions it read
are still current. `Stub` is the chaincode's view; `AssetContract` and `AssetRuns` are the asset registry;
`Json`, `StixObjects`, `StixContract` and `StixRuns` are the STIX store.

**Smaller cores.** `NetworkConfig` and `NetworkOrder` (peer selection with a loop over a Go map), `OrdererCertificates`
(renewal timing), `CaCertificates` (the sort-and-compare renewal test). `Collections` holds shared list operations.

## Reading the results

Where the code and its own texts disagree the model follows the code:

- The orderer capability loop removes the *new* capabilities, not the current ones; on the raft path this makes
  every capability that is not already stored an error, and no orderer capability ever changes there.
- The error for a short BFT consenter list says "at least 4", but four are refused.
- Kept application organisations are never rewritten, so a changed root certificate in the spec has no effect.
- The migration's filter for already selected orderers compares a bare name with `name.namespace` texts, so an orderer
  whose name holds no dot is never withheld.
- A bracketed IPv6 orderer endpoint is accepted at most twice and then blocks every later reconcile of its channel.
- A change of addresses alone never renews a CA's TLS certificate, although the certificate carries addresses.
- A STIX reader does not check the type tag of what it reads.

The configuration library (`configtx`) is not part of the repository; `ConfigTx` assumes of it: raft edits are
refused on a configuration of another type; setting the orderer configuration replaces values and capabilities, not
organisations or policies; adding a present consenter, anchor peer, endpoint or capability does nothing; removing an
anchor peer drops all equal ones and fails when there is none; removing an absent capability fails; setting ACLs
merges and removing them never fails; policies set together must name Admins, Readers and Writers, and a single
policy must not be the zero policy of an absent name; an update is empty exactly when the configurations are equal;
an organisation that is not stored cannot be edited. Reading a group map lists each name once, in some order.

Preconditions of main results that a caller can check: consenter addresses distinct (the exact condition for the
wanted set is `Consenters.ReconciledSetIff`); endpoints canonical, that is, printing what was parsed gives the text
back. Other conditions are not assumed but shown to be exactly what is needed: wanted orderer hosts without a colon
and usable application policies for convergence (`Convergence.ThirdReconcileIsQuiet`), harmless steps between a
leave and its copy in the config map for what an observer of the map is promised
(`Migration.FrozenUntilObservedIff`), and peers acted on by one entry only for independence of the map's iteration
order (`NetworkOrder.OrderIrrelevantIff`, given that the lists stand under organisations that exist, without which
the loop panics). `Migration.Init` is a raft channel in Normal state whose config map is current.

## Model

| member | source | states |
|---|---|---|
| ChannelRuns.FollowerSettingsSurvive | bevel-operator-fabric/controllers/followerchannel/followerchannel_controller.go:260-317 | Over every interleaving of main and follower reconciles in which each main spec lists organisation m, m stays; its revocation list is, text by text, that of the last successful follower reconcile for m, its anchor peers are that reconcile's, each once and in order when none repeats, and its policies, endpoints and MSP identity are the original ones; without such a reconcile the whole group is |
| ChannelRuns.FollowersCommute | bevel-operator-fabric/controllers/followerchannel/followerchannel_controller.go:256-317 | Followers of different organisations commute: either order reaches the same configuration, and neither changes the other's outcome |
| ChannelRuns.FollowersSwap | bevel-operator-fabric/controllers/followerchannel/followerchannel_controller.go:256-317 | In any run two neighbouring follower reconciles of different organisations can be swapped without changing the configuration reached |
| ChannelRuns.MainKeepsOrg | bevel-operator-fabric/controllers/mainchannel/mainchannel_controller.go:1340-1368 | A main reconcile keeps a stored application organisation, unchanged, exactly when nothing is submitted, the application is frozen, or the spec lists the organisation |
| ChannelRuns.MaintenanceFreezes | bevel-operator-fabric/controllers/mainchannel/mainchannel_controller.go:619-635 | Into, inside and out of maintenance no step of either reconciler changes the application group, a follower always fails inside it, and the step that enters it leaves the channel capabilities alone |
| ChannelRuns.MaintenanceSpanFreezes | bevel-operator-fabric/controllers/mainchannel/mainchannel_controller.go:619-635 | Over every run, from the reconcile that enters maintenance through the one that leaves it, the application group is the same |
| Reconcilers.Channel.UpdateChannelConfig | bevel-operator-fabric/controllers/mainchannel/mainchannel_controller.go:599-680 | A main reconcile either submits, and then the stored configuration is the complete update and differs from before, or leaves it as it was; no difference is reported exactly when the complete update equals what is stored |
| ChannelRuns.ReachableWellFormed | bevel-operator-fabric/controllers/mainchannel/mainchannel_controller.go:1441-1733 | In every reachable configuration the state is Normal or Maintenance, consenter addresses are distinct and anchor peers are distinct, when the specs name each address once |
| ChannelRuns.SubmittedOrdererMeetsSpec | bevel-operator-fabric/controllers/mainchannel/mainchannel_controller.go:1441-1733 | After a submitted update the state, the consensus type, the consenters (counted), the raft options, the batch settings, on BFT the consenter mapping, options and capabilities, and the names of the orderer organisations are those of the spec; of the policies a raft update replaces all, a BFT update of a BFT channel Admins, Writers and Readers, and any other none |
| ChannelRuns.SubmittedApplicationMeetsSpec | bevel-operator-fabric/controllers/mainchannel/mainchannel_controller.go:1327-1439 | After a submitted update the channel capabilities are exactly the spec's (unless maintenance is being entered), and, unless frozen, so are the application policies, capabilities and organisations, with kept organisations untouched and ACLs merged name by name |
| ChannelRuns.RaftKeepsOrdererCapabilities | bevel-operator-fabric/controllers/mainchannel/mainchannel_controller.go:1712-1723 | So on the raft path no reconcile ever changes the orderer capabilities |
| Convergence.ThirdReconcileIsQuiet | bevel-operator-fabric/controllers/mainchannel/mainchannel_controller.go:619-644 | For a fixed spec and error-free calls, once the first reconcile succeeds from any stored configuration, the third finds no difference and submits nothing exactly for specs whose wanted orderer endpoints parse with hosts free of colons and whose application policies are complete or that ask for maintenance |
| Convergence.ThirdSucceedsIff | bevel-operator-fabric/controllers/mainchannel/mainchannel_controller.go:1327-1733 | Exactly those specs can still be applied after two reconciles |
| Convergence.OtherSpecsFailForGood | bevel-operator-fabric/controllers/mainchannel/mainchannel_controller.go:599-680 | Any other spec fails for good: from the second reconcile on the configuration stays as it is and every further reconcile fails |
| Convergence.TwoUpdatesSettle | bevel-operator-fabric/controllers/mainchannel/mainchannel_controller.go:622-635 | Three updates towards one spec that succeed end where the second ended, whatever they start from and whatever the endpoints look like |
| Convergence.MainSucceedsIff | bevel-operator-fabric/controllers/mainchannel/mainchannel_controller.go:1453-1733 | Exactly when an update succeeds, for specs with plain orderer endpoints: no raft target over a BFT channel, no repeated and on the raft path no missing orderer capability, parseable stored endpoints, complete application policies unless frozen |
| Convergence.OrdererOrgsClosedForm | bevel-operator-fabric/controllers/mainchannel/mainchannel_controller.go:1607-1686 | Every orderer organisation after an update: the wanted group if it was not stored, else the stored group with its endpoints reset and its revocation list replaced |
| Convergence.KeptOrgEndpoints | bevel-operator-fabric/controllers/mainchannel/mainchannel_controller.go:1628-1677 | A kept orderer organisation with canonical endpoints ends with exactly the wanted list, each endpoint once, and keeps the rest of its MSP |
| Convergence.NextResetIff | bevel-operator-fabric/controllers/mainchannel/mainchannel_controller.go:1634-1671 | On one group: once endpoints have been reset, the next reset towards the same list works exactly when no wanted host holds a colon |
| Convergence.Ipv6EndpointBlocksReconcile | bevel-operator-fabric/controllers/mainchannel/mainchannel_controller.go:1634-1671 | A spec that gives an orderer organisation a bracketed IPv6 endpoint is accepted at most twice; from then on every reconcile of its channel fails |
| Convergence.Ipv6AcceptedTwice | bevel-operator-fabric/controllers/mainchannel/mainchannel_controller.go:599-680 | With one new orderer organisation and a bracketed IPv6 endpoint, two error-free reconciles succeed and no later one does |
| Convergence.Ipv6AcceptedTwiceExample | bevel-operator-fabric/controllers/mainchannel/mainchannel_controller.go:1634-1680 | There is such a channel and such a spec |
| Convergence.Ipv6ResetWorksOnce | bevel-operator-fabric/controllers/mainchannel/mainchannel_controller.go:1634-1671 | On one group without endpoints: a bracketed IPv6 endpoint passes the first reset, which drops its brackets, and makes the next one fail |
| Consenters.ReconciledIsWanted | bevel-operator-fabric/controllers/mainchannel/mainchannel_controller.go:1461-1513 | With each host:port named once on either side, the remove/replace/add loops over the snapshot leave exactly the wanted consenters, certificates included, and no address is duplicated after any single edit |
| Consenters.ReconciledMember | bevel-operator-fabric/controllers/mainchannel/mainchannel_controller.go:1461-1513 | Exactly who is left after the loops, for any stored and any wanted list |
| Consenters.ReconciledSetIff | bevel-operator-fabric/controllers/mainchannel/mainchannel_controller.go:1461-1513 | The loops reach the wanted set exactly when each wanted consenter at an address stored before is the first wanted one there |
| Consenters.DuplicateAddressLosesConsenter | bevel-operator-fabric/controllers/mainchannel/mainchannel_controller.go:1466-1512 | A concrete wanted list that names a stored address twice, and so misses that condition, does not end up in the configuration |
| Consenters.ReconciledTwiceSettles | bevel-operator-fabric/controllers/mainchannel/mainchannel_controller.go:1461-1513 | Two passes towards any list reach a list that a third leaves untouched |
| MainUpdate.RemoveAndReplaceConsenters | bevel-operator-fabric/controllers/mainchannel/mainchannel_controller.go:1461-1496 | The removal loop, which walks a snapshot and edits the live configuration, performs the planned edits in order |
| MainUpdate.AddMissingConsenters | bevel-operator-fabric/controllers/mainchannel/mainchannel_controller.go:1498-1513 | The addition loop performs the planned additions in order |
| HostPort.ParsePrinted | bevel-operator-fabric/controllers/mainchannel/mainchannel_controller.go:1636-1643 | Splitting host:port and reading the port inverts printing them, for every host without a colon or bracket and every 64-bit port |
| HostPort.ParsesExactly | bevel-operator-fabric/controllers/mainchannel/mainchannel_controller.go:1636-1643 | Exactly which texts parse, and to what: a plain host, a colon and a number, or a host in brackets, which may hold colons, a colon and a number |
| HostPort.PrintedIsCanonical | bevel-operator-fabric/controllers/mainchannel/mainchannel_controller.go:1634-1668 | Printing a parsed endpoint gives a text that parses back to itself exactly when its host holds no colon |
| Endpoints.ResetMembers | bevel-operator-fabric/controllers/mainchannel/mainchannel_controller.go:1633-1671 | Exactly what removing all old and adding all new endpoints leaves: the old texts that are not canonical, and the new ones as printed |
| Endpoints.ResetCanonical | bevel-operator-fabric/controllers/mainchannel/mainchannel_controller.go:1633-1671 | With canonical endpoints on both sides the wanted list remains, in order, each endpoint once |
| Endpoints.NonCanonicalSurvives | bevel-operator-fabric/controllers/mainchannel/mainchannel_controller.go:1634-1653 | A stored endpoint that is not canonical outlives every reset |
| Endpoints.ResetParses | bevel-operator-fabric/controllers/mainchannel/mainchannel_controller.go:1634-1671 | The result of a reset parses again exactly when no wanted host holds a colon |
| MainUpdate.UpdateApplicationChannelConfigTx | bevel-operator-fabric/controllers/mainchannel/mainchannel_controller.go:1327-1416 | The application update succeeds exactly when the policies are complete and leaves kept organisations alone, adds the new ones, merges ACLs and replaces capabilities, as its specification function says |
| MainUpdate.ApplicationAfterMeets | bevel-operator-fabric/controllers/mainchannel/mainchannel_controller.go:1327-1416 | Policies and capabilities end as the target's; an ACL is the target's or, under a name it does not have, the stored one; an organisation is the stored one or, if it was not stored, the one given last |
| MainUpdate.UpdateChannelConfigTx | bevel-operator-fabric/controllers/mainchannel/mainchannel_controller.go:1418-1439 | Only the channel capabilities change, and they end as exactly the wanted set whatever they were |
| MainUpdate.UpdateOrdererChannelConfigTx | bevel-operator-fabric/controllers/mainchannel/mainchannel_controller.go:1441-1733 | The orderer update succeeds or fails, and changes the orderer group, as its specification function says, for every stored group and every target, incomplete policies included; the policies are stated name by name |
| MainUpdate.ConsensusAfterPolicies | bevel-operator-fabric/controllers/mainchannel/mainchannel_controller.go:1453-1588 | A raft target replaces all orderer policies; a BFT target replaces Admins, Writers and Readers, each by its own, and only when the stored type is BFT; every other policy, BlockValidation included, stays |
| MainUpdate.RemoveUnwantedApplicationOrgs | bevel-operator-fabric/controllers/mainchannel/mainchannel_controller.go:1340-1352 | Exactly the stored organisations that are wanted stay |
| MainUpdate.AddNewApplicationOrgs | bevel-operator-fabric/controllers/mainchannel/mainchannel_controller.go:1353-1368 | Kept organisations are never rewritten, and new ones get the group given last under their name |
| MainUpdate.ReplaceApplicationCapabilities | bevel-operator-fabric/controllers/mainchannel/mainchannel_controller.go:1402-1414 | Application capabilities end as exactly the wanted set |
| MainUpdate.UpdateRaftConsensus | bevel-operator-fabric/controllers/mainchannel/mainchannel_controller.go:1453-1543 | The raft branch: policies, consenters and options, refused on a stored configuration of another type |
| MainUpdate.UpdateBftConsensus | bevel-operator-fabric/controllers/mainchannel/mainchannel_controller.go:1544-1565 | The BFT branch replaces orderer values and capabilities but no organisation and no policy |
| MainUpdate.UpdateConsensus | bevel-operator-fabric/controllers/mainchannel/mainchannel_controller.go:1453-1606 | Type, policies and state together, including the three policies rewritten only while the stored type is BFT |
| MainUpdate.UpdateOrdererOrgs | bevel-operator-fabric/controllers/mainchannel/mainchannel_controller.go:1620-1686 | One turn per wanted organisation, decided by the snapshot's names |
| MainUpdate.RemoveEndpoints | bevel-operator-fabric/controllers/mainchannel/mainchannel_controller.go:1634-1653 | Fails exactly when a stored endpoint does not parse; otherwise drops the printed form of each |
| MainUpdate.AddEndpoints | bevel-operator-fabric/controllers/mainchannel/mainchannel_controller.go:1655-1671 | Fails exactly when a wanted endpoint does not parse; otherwise appends each printed form that is absent |
| MainUpdate.RenewOrdererCapabilities | bevel-operator-fabric/controllers/mainchannel/mainchannel_controller.go:1712-1723 | The loop that removes the new capabilities succeeds exactly on a list without repeats that is all present; the result is old and new together, and is the new set exactly when old is within it |
| ChannelMapping.MapToConfigTx | bevel-operator-fabric/controllers/mainchannel/mainchannel_controller.go:816-1171 | The target is built exactly when certificates, revocation lists and the batch timeout parse and the consensus part is acceptable (a BFT spec needs five mapped consenters), and is the resource field by field, as in the next row |
| ChannelMapping.TargetMirrors | bevel-operator-fabric/controllers/mainchannel/mainchannel_controller.go:825-1170 | Every target, in the resource's own fields: each organisation's name, MSP name, root and TLS root certificate, revocation lists, endpoints and four policies; each consenter's address and certificates; state, raft options, batch settings and their defaults; orderer and application policies, ACLs and capabilities |
| ChannelMapping.MapsIff | bevel-operator-fabric/controllers/mainchannel/mainchannel_controller.go:840-1062 | Which resources can be mapped, in their own fields |
| ChannelMapping.AdminRuleText | bevel-operator-fabric/controllers/mainchannel/mainchannel_controller.go:914-924 | The administrator rule is OR() around quoted, comma-separated terms, one for each organisation in order |
| ChannelMapping.BuildOrdererOrgs | bevel-operator-fabric/controllers/mainchannel/mainchannel_controller.go:826-872 | Orderer organisations whose certificates parse, or that have none, in order, each the resource's entry field by field |
| ChannelMapping.BuildExternalOrdererOrgs | bevel-operator-fabric/controllers/mainchannel/mainchannel_controller.go:873-891 | External orderer organisations, whose certificates are always parsed, in order, field by field |
| ChannelMapping.BuildAnyAdminRule | bevel-operator-fabric/controllers/mainchannel/mainchannel_controller.go:916-923 | The string-building loop yields OR('A.admin','B.admin',...) |
| ChannelMapping.TargetFacts | bevel-operator-fabric/controllers/mainchannel/mainchannel_controller.go:945-950 | A target's state is Maintenance exactly when the spec asks for it, its orderer policies are complete, and it names exactly the spec's peer organisations, without anchor peers |
| Reconcilers.Channel.ReconcileMain | bevel-operator-fabric/controllers/mainchannel/mainchannel_controller.go:148-158 | A main reconcile that nothing disturbs between its submission and the copy into the config map |
| Reconcilers.Channel.ReconcileFollower | bevel-operator-fabric/controllers/followerchannel/followerchannel_controller.go:250-359 | The follower reconcile: it can succeed exactly out of maintenance, for a stored organisation without repeated anchor peers and with readable revocation lists; then only that organisation's group changes, and it carries the resource's revocation lists and anchor peers over its other fields |
| Reconcilers.RemoveAnchorPeers | bevel-operator-fabric/controllers/followerchannel/followerchannel_controller.go:268-281 | Removing each stored anchor peer works exactly when they are distinct, and then leaves none |
| Reconcilers.AddAnchorPeers | bevel-operator-fabric/controllers/followerchannel/followerchannel_controller.go:283-293 | Adding the spec's anchor peers leaves each once, in order |
| Reconcilers.EditTowards | bevel-operator-fabric/controllers/mainchannel/mainchannel_controller.go:619-635 | Which of the three updates run, by stored and wanted state |
| Migration.TypeChangesInMaintenance | bevel-operator-fabric/scripts/migrate-channel-raft-bft.ts:649-740 | In every run of script and reconcilers the consensus type changes only in maintenance and only to BFT, and a BFT channel has V3_0 as its only channel capability |
| Migration.ApplicationFrozenInMaintenance | bevel-operator-fabric/scripts/migrate-channel-raft-bft.ts:216-249 | In every run the application group in maintenance, and through the step that leaves it, is the one maintenance was entered with |
| Migration.FrozenUntilObservedIff | bevel-operator-fabric/controllers/mainchannel/mainchannel_controller.go:148-158 | Submission, the later fetch and the write of the config map being separate steps that others come between: over every run, the application group is the one maintenance was entered with whenever an observer of the map sees maintenance, if and only if between a leave and the moment the map shows it every follower step and every further main step fails or finds the application group as it wants it |
| Migration.PromiseStep | bevel-operator-fabric/controllers/mainchannel/mainchannel_controller.go:148-158 | Step by step: what an observer is promised can only be broken after a leave the map does not show yet, and is broken there exactly by a step that changes the application group |
| Migration.ApplicationFrozenUntilObserved | bevel-operator-fabric/scripts/migrate-channel-raft-bft.ts:146-178 | In particular the promise holds throughout every run in which no reconcile comes between a leave and its copy in the map |
| Migration.WindowCanBreak | bevel-operator-fabric/controllers/mainchannel/mainchannel_controller.go:148-158 | At every leave the observer has not seen, with an organisation whose anchor peers are distinct, one follower step before the copy breaks the promise, although the copy follows |
| Migration.BrokenPromiseReachable | bevel-operator-fabric/controllers/mainchannel/mainchannel_controller.go:148-158 | The broken promise is reachable without any error: from every ready start, the confirmed migration in which one follower comes between the last submission and its copy |
| Migration.MigrationCompletes | bevel-operator-fabric/scripts/migrate-channel-raft-bft.ts:649-740 | For a resource that can be applied (readable certificates, plain endpoints, complete policies, orderer capabilities present) and usable picks for more than four consenters: whatever followers, failing reconciles and idle polls interleave, a confirmed run whose script gets five turns with an error-free main reconcile, its fetch and its write between them ends in a normal BFT channel with V3_0 alone that stores the consenters picked |
| Migration.UndisturbedMigrationCompletes | bevel-operator-fabric/scripts/migrate-channel-raft-bft.ts:649-740 | With one error-free reconcile and its copy after each patch and nothing else it also ends with the application group it started with |
| Migration.BuildBftPatch | bevel-operator-fabric/scripts/migrate-channel-raft-bft.ts:364-468 | The patch exists exactly when every pick has an identity and an MSP; it has one mapped consenter for each raft consenter, with its place from one on as id, its host and port, the MSP and identity picked, and its TLS certificate for both roles; it sets the type and changes nothing else but the BFT options |
| Migration.StoredConsentersArePicked | bevel-operator-fabric/scripts/migrate-channel-raft-bft.ts:364-468 | Over every run, a channel of type BFT stores exactly the consenters picked in one turn of the script, id, address, MSP, identity and TLS certificates |
| Migration.ScriptMoves | bevel-operator-fabric/scripts/migrate-channel-raft-bft.ts:112-178 | The script moves on, by one phase, exactly when the published map shows what it waits for |
| Migration.OfferedIff | bevel-operator-fabric/scripts/migrate-channel-raft-bft.ts:381-410 | The already-selected filter withholds an orderer exactly when its bare name is the name.namespace text of a pick |
| Migration.PickedOrdererStaysOffered | bevel-operator-fabric/scripts/migrate-channel-raft-bft.ts:381-410 | So for names without a dot every orderer stays offered whatever was picked |
| StatusConditions.Conditions.SetCondition | bevel-operator-fabric/pkg/status/conditions.go:119-136 | In place or by appending (into spare capacity or into a larger copy), the list becomes the updated one and holds the given condition; every other cell of the old array keeps its value; the result is true exactly when the type is new or its entry is no longer the same but for its time |
| StatusConditions.Conditions.RemoveCondition | bevel-operator-fabric/pkg/status/conditions.go:154-165 | The later conditions shift left in the shared array, the last used cell keeps its value, and the result says whether the type was found |
| StatusConditions.Conditions.MarshalJSON | bevel-operator-fabric/pkg/status/conditions.go:169-175 | The list is sorted in place in the shared array: a permutation in type order, the rest of the array untouched |
| StatusConditions.Conditions.NewConditions | bevel-operator-fabric/pkg/status/conditions.go:72-78 | The list built by setting each condition in turn, in an array of its own |
| StatusConditions.Conditions.IsTrueFor | bevel-operator-fabric/pkg/status/conditions.go:83-90 | Answers for the first condition of the type; an absent type is not true |
| StatusConditions.Conditions.IsFalseFor | bevel-operator-fabric/pkg/status/conditions.go:95-102 | Answers for the first condition of the type; an absent type is not false |
| StatusConditions.Conditions.IsUnknownFor | bevel-operator-fabric/pkg/status/conditions.go:107-114 | Answers for the first condition of the type; an absent type is unknown |
| StatusConditions.Conditions.GetCondition | bevel-operator-fabric/pkg/status/conditions.go:141-148 | A copy of the first condition of the type, if there is one |
| ConditionHistory.SetIsUpdate | bevel-operator-fabric/pkg/status/conditions.go:119-136 | Setting a condition is an update of the map the list stands for, for every list |
| ConditionHistory.RemoveIsDelete | bevel-operator-fabric/pkg/status/conditions.go:154-165 | Removing a type deletes it from the map exactly when the list holds the type at most once |
| ConditionHistory.ListRefinesMap | bevel-operator-fabric/pkg/status/conditions.go:72-175 | After every sequence of sets, removals and encodings from the empty list, types are distinct and the list stands for the map the same calls make |
| ConditionHistory.TransitionTimeOpensRun | bevel-operator-fabric/pkg/status/conditions.go:119-136 | After every history a type's transition time is the clock reading of the one call that opened its current run: the first of the latest unbroken series of calls for the type with its status since its last removal |
| ConditionHistory.TransitionNeverDecreases | bevel-operator-fabric/pkg/status/conditions.go:119-136 | With a clock that never runs backwards, the transition time never decreases while the type stays present |
| ConditionHistory.PresentIff | bevel-operator-fabric/pkg/status/conditions.go:119-165 | A type is present exactly when its last call sets it, with that call's status, reason and message |
| ConditionHistory.LastGivenWins | bevel-operator-fabric/pkg/status/conditions.go:72-78 | Of several initial conditions of a type the last one wins, but for its time |
| ConditionHistory.BuiltIsHistory | bevel-operator-fabric/pkg/status/conditions.go:72-78 | A list built from conditions has distinct types and is the history of setting them |
| ConditionHistory.SortKeepsMap | bevel-operator-fabric/pkg/status/conditions.go:169-175 | Sorting keeps types distinct and answers every lookup as before |
| ConditionHistory.SameMapSameEncoding | bevel-operator-fabric/pkg/status/conditions.go:169-175 | Two lists that stand for the same map are encoded as the same sequence |
| Ledger.Serializable | bevel-operator-fabric/fixtures/external-chaincode/asset-external/assetTransfer.go:71-185 | Over every interleaving of simulations and commits with read-version validation, the final state and the answer of every valid transaction are those of running the valid ones directly, one at a time, in commit order |
| Ledger.ValidIff | bevel-operator-fabric/fixtures/external-chaincode/asset-external/assetTransfer.go:155-162 | Over every run, exactly: a transaction is valid if and only if every key it asked for has the entry it was simulated on, value and version, in the world it is committed to |
| Ledger.UnwrittenIsValid | bevel-operator-fabric/fixtures/external-chaincode/asset-external/assetTransfer.go:155-162 | So it is valid whenever no valid commit since its simulation wrote a key it asked for, in particular when nothing was committed in between |
| Ledger.WrittenIsInvalid | bevel-operator-fabric/fixtures/external-chaincode/asset-external/assetTransfer.go:155-162 | And invalid whenever the last of them to write such a key put a value |
| Ledger.UndisturbedCommits | bevel-operator-fabric/fixtures/external-chaincode/asset-external/assetTransfer.go:71-185 | After any run, a program that is simulated on the current state and ordered next is valid, and answers and leaves what running it directly does |
| Ledger.DirectIsSimulated | bevel-operator-fabric/fixtures/external-chaincode/asset-external/assetTransfer.go:71-185 | A program that never reads a key it has written does the same on a snapshot with buffered writes as on the live state |
| Ledger.ReadingOwnWritesDiffers | bevel-operator-fabric/fixtures/external-chaincode/asset-external/assetTransfer.go:155-162 | A program that does read its own write answers differently when it is simulated |
| Ledger.SimulationDependsOnReads | bevel-operator-fabric/fixtures/external-chaincode/asset-external/assetTransfer.go:155-162 | A simulation is settled by the keys it read |
| Ledger.RunIsDated | bevel-operator-fabric/fixtures/external-chaincode/asset-external/assetTransfer.go:155-162 | In every run a version names the commit that wrote it and determines the value |
| AssetContract.SmartContract.InitLedger | bevel-operator-fabric/fixtures/external-chaincode/asset-external/assetTransfer.go:45-68 | Six puts, no read: one simulation of the program |
| AssetContract.SmartContract.CreateAsset | bevel-operator-fabric/fixtures/external-chaincode/asset-external/assetTransfer.go:71-93 | One simulation of its program; it succeeds exactly when the asset does not exist and the id is not empty, and then puts exactly the asset given |
| AssetContract.SmartContract.ReadAsset | bevel-operator-fabric/fixtures/external-chaincode/asset-external/assetTransfer.go:96-112 | Answers the stored asset decoded, or an error, and writes nothing |
| AssetContract.SmartContract.UpdateAsset | bevel-operator-fabric/fixtures/external-chaincode/asset-external/assetTransfer.go:115-139 | One simulation of its program; it succeeds exactly when the asset exists and the id is not empty, and then puts exactly the asset given |
| AssetContract.SmartContract.DeleteAsset | bevel-operator-fabric/fixtures/external-chaincode/asset-external/assetTransfer.go:142-152 | One simulation of its program; it succeeds exactly when the asset exists, and then deletes it |
| AssetContract.SmartContract.AssetExists | bevel-operator-fabric/fixtures/external-chaincode/asset-external/assetTransfer.go:155-162 | True exactly when the snapshot holds the key |
| AssetContract.SmartContract.TransferAsset | bevel-operator-fabric/fixtures/external-chaincode/asset-external/assetTransfer.go:165-185 | Succeeds exactly when the id is not empty and a readable asset stands under it; rewrites that asset with the new owner only and answers the old one |
| AssetContract.CallIsSafe | bevel-operator-fabric/fixtures/external-chaincode/asset-external/assetTransfer.go:45-185 | No function reads a key it has already written, and each ends within a fixed number of operations |
| AssetContract.AssetRoundTrip | bevel-operator-fabric/fixtures/external-chaincode/asset-external/assetTransfer.go:30-36 | Decoding an encoded asset gives it back, and each field stands under its own name |
| AssetRuns.DirectServes | bevel-operator-fabric/fixtures/external-chaincode/asset-external/assetTransfer.go:45-185 | Executing any function on encoded assets is serving the call on a plain map of assets |
| AssetRuns.SucceedsIff | bevel-operator-fabric/fixtures/external-chaincode/asset-external/assetTransfer.go:71-185 | When each call succeeds, asked through AssetExists, and that failing and reading calls change nothing |
| AssetRuns.ReadsBackWritten | bevel-operator-fabric/fixtures/external-chaincode/asset-external/assetTransfer.go:71-185 | What a successful call makes a later read answer: what was created or updated, nothing after a deletion, and after a transfer the asset with only its owner changed, the owner before being the answer |
| AssetRuns.OthersReadAlike | bevel-operator-fabric/fixtures/external-chaincode/asset-external/assetTransfer.go:71-185 | No call shows in the reads of another asset |
| AssetRuns.AssetRunsAreSerial | bevel-operator-fabric/fixtures/external-chaincode/asset-external/assetTransfer.go:45-185 | Over every concurrent run the stored assets and all answers of valid transactions are those of serving their calls one at a time on a map of assets |
| AssetRuns.ServingKeepsKeyed | bevel-operator-fabric/fixtures/external-chaincode/asset-external/assetTransfer.go:71-185 | Every stored asset carries its key as its id |
| AssetRuns.InitLedgerStores | bevel-operator-fabric/fixtures/external-chaincode/asset-external/assetTransfer.go:45-68 | Initialising stores exactly the six initial assets under their ids, over whatever stood there, and touches nothing else |
| AssetRuns.ConcurrentTransfersChain | bevel-operator-fabric/fixtures/external-chaincode/asset-external/assetTransfer.go:165-185 | No transfer is lost in any concurrent run: a valid transfer answers the owner that the last one gave, when nothing between them in commit order may write the asset |
| StixContract.CTIStixContract.CreateIndicator | cti_stix_chaincode.go:136-166 | One simulation of the creating program; it succeeds exactly when the argument is JSON that decodes, its type is "indicator" and its id is neither empty nor taken, and then puts exactly that object's encoding |
| StixContract.CTIStixContract.CreateRelationship | cti_stix_chaincode.go:190-213 | One simulation of the creating program; it succeeds exactly when the argument is JSON that decodes, its type is "relationship" and its id is neither empty nor taken, and then puts exactly that object's encoding |
| StixContract.CTIStixContract.CreateSighting | cti_stix_chaincode.go:237-260 | One simulation of the creating program; it succeeds exactly when the argument is JSON that decodes, its type is "sighting" and its id is neither empty nor taken, and then puts exactly that object's encoding |
| StixContract.CTIStixContract.CreateBundle | cti_stix_chaincode.go:284-308 | One simulation of the creating program; it succeeds exactly when the argument is JSON that decodes, its type is "bundle" and its id is neither empty nor taken, and then puts exactly that object's encoding |
| StixContract.CTIStixContract.ReadIndicator | cti_stix_chaincode.go:169-183 | One simulation of the reading program, which decodes whatever stands under the id and fails when nothing does |
| StixContract.CTIStixContract.ReadRelationship | cti_stix_chaincode.go:216-230 | One simulation of the reading program, which decodes whatever stands under the id and fails when nothing does |
| StixContract.CTIStixContract.ReadSighting | cti_stix_chaincode.go:263-277 | One simulation of the reading program, which decodes whatever stands under the id and fails when nothing does |
| StixContract.CTIStixContract.ReadBundle | cti_stix_chaincode.go:311-325 | One simulation of the reading program, which decodes whatever stands under the id and fails when nothing does |
| StixContract.CTIStixContract.PutAsset | cti_stix_chaincode.go:87-89 | Buffers the write, refused for the empty id |
| StixContract.CTIStixContract.GetAsset | cti_stix_chaincode.go:92-101 | The value in the snapshot, or an error when there is none |
| StixContract.CTIStixContract.AssetExists | cti_stix_chaincode.go:104-110 | True exactly when the snapshot holds the id |
| StixContract.CreateEffect | cti_stix_chaincode.go:136-166 | The effect of creating, case by case: rejected input, taken id, empty id, one write |
| StixContract.AcceptsEncoded | cti_stix_chaincode.go:136-308 | Creating from the encoding of an object tagged with its own kind: its creator accepts exactly that object, and no other creator accepts it |
| StixObjects.StixRoundTrip | cti_stix_chaincode.go:26-80 | Decoding the encoding of an object with its own kind gives the object back, nil and empty lists kept apart |
| StixObjects.ForeignReader | cti_stix_chaincode.go:168-325 | The reader of another kind succeeds too and shows the id and the foreign type tag |
| StixRuns.WriteOnce | cti_stix_chaincode.go:104-166 | In every concurrent run, what a key holds at some height (value and version) it holds ever after |
| StixRuns.AlwaysStored | cti_stix_chaincode.go:136-308 | In every world of every run each value is an object stored under its own non-empty id with the tag of its own kind |
| StixRuns.OneCreationPerId | cti_stix_chaincode.go:136-308 | Of all creations in a run, of any kinds, at most one for an id succeeds |
| StixRuns.FreshCreationSucceeds | cti_stix_chaincode.go:136-308 | After any run, creating an acceptable object under a fresh, non-empty id, undisturbed, succeeds and stores it |
| StixRuns.CreatedIsRead | cti_stix_chaincode.go:136-325 | After a valid creation every valid read of its id answers: the matching reader exactly the object created, any other an object with the foreign tag |
| NetworkConfig.ConfigureOrganizations | bevel-operator-fabric/controllers/networkconfig/networkconfig_controller.go:429-453 | The loop over the Go map, for whatever order it takes; it panics exactly when a non-empty list stands under an organisation that is not there |
| NetworkConfig.Reconcile | bevel-operator-fabric/controllers/networkconfig/networkconfig_controller.go:333-453 | The filters and loops together, as their specification functions say |
| NetworkOrder.ListedCount | bevel-operator-fabric/controllers/networkconfig/networkconfig_controller.go:419-428 | The top-level list before the map loop, peer by peer: in a listed namespace if any is listed and, if any organisation is, of a listed one and scaled up |
| NetworkOrder.OrganizationsThere | bevel-operator-fabric/controllers/networkconfig/networkconfig_controller.go:333-378 | The organisations before the map loop: the listed ones with a peer in the cluster or an orderer node in a listed namespace |
| NetworkOrder.OrganizationHolds | bevel-operator-fabric/controllers/networkconfig/networkconfig_controller.go:333-378 | What they hold, counted: their peers in a listed namespace, scaled up or not, and their orderer nodes in one |
| NetworkOrder.SelectInOrder | bevel-operator-fabric/controllers/networkconfig/networkconfig_controller.go:434-443 | Selected peers come in the order of the list |
| NetworkOrder.SelectOneInOrder | bevel-operator-fabric/controllers/networkconfig/networkconfig_controller.go:436-441 | Those of one reference come in their own order, and are the scaled-up peers of that name and namespace |
| NetworkOrder.TurnInOrder | bevel-operator-fabric/controllers/networkconfig/networkconfig_controller.go:444-451 | An organisation's turn lists its selected peers last, and the scaled-up others before them |
| NetworkOrder.OthersInOrder | bevel-operator-fabric/controllers/networkconfig/networkconfig_controller.go:444-449 | The others keep their order |
| NetworkConfig.OrganizationsOf | bevel-operator-fabric/controllers/networkconfig/networkconfig_controller.go:333-347 | Each listed organisation with its peers filtered by namespace and organisation |
| NetworkConfig.OrganizationsWithOrderers | bevel-operator-fabric/controllers/networkconfig/networkconfig_controller.go:360-378 | Every organisation ends with its stored orderer nodes followed by the nodes of its MSP that pass the filters, in order; an organisation is created exactly when it was missing and has such a node, with those nodes and no peers |
| NetworkConfig.GroupedAt | bevel-operator-fabric/kubectl-hlf/cmd/helpers/hlf.go:623-638 | The grouping of the cluster's peers gives each organisation its peers in order, and every peer an organisation |
| NetworkOrder.OrderIrrelevantIff | bevel-operator-fabric/controllers/networkconfig/networkconfig_controller.go:429-453 | Every iteration order gives the same peers, counted, and the same organisations if and only if no scaled-up peer is acted on by two non-empty entries, an entry acting on the peers of its organisation and on those it names |
| NetworkOrder.PeersNeverDependOnOrder | bevel-operator-fabric/controllers/networkconfig/networkconfig_controller.go:429-450 | The top-level list never depends on the order: whatever is listed where, every iteration order gives the same peers, counted |
| NetworkOrder.OrderDoesNotMatter | bevel-operator-fabric/controllers/networkconfig/networkconfig_controller.go:429-453 | In particular the order does not matter when scaled-up peers are listed under their own organisation only |
| NetworkOrder.NamedPeersListedIff | bevel-operator-fabric/controllers/networkconfig/networkconfig_controller.go:333-453 | Every peer named under an organisation is in the top-level list, in every order, if and only if each shown peer of an organisation without a list is scaled up (or nothing is filtered by organisation and there is no list at all) and each listed peer is named by the list of its own organisation too, if that has one |
| NetworkOrder.ListedPeersAppear | bevel-operator-fabric/controllers/networkconfig/networkconfig_controller.go:333-453 | In particular every one is when all peers are scaled up and lists name peers of their own organisation only |
| NetworkOrder.MisfiledPeerDependsOnOrder | bevel-operator-fabric/controllers/networkconfig/networkconfig_controller.go:435-451 | A scaled-up peer on which two entries act shows the order: two orders give one of the two organisations the peer a different number of times |
| OrdererCertificates.OrdererNode.Reconcile | bevel-operator-fabric/controllers/ordnode/ordnode_controller.go:210-310 | It renews exactly when a requested time lies after the last recorded update, or none is recorded, or, with auto-renewal, less than the margin is left; the time recorded is 300 s ahead, and only when all went well; when to look again, in every phase and after every failure |
| OrdererCertificates.NoRenewalAfterMargin | bevel-operator-fabric/controllers/ordnode/ordnode_controller.go:210-244 | Without auto-renewal no reconcile renews after one that renewed, recorded, at a time t with t + 5 min at or past the requested time |
| OrdererCertificates.RenewsAgainIff | bevel-operator-fabric/controllers/ordnode/ordnode_controller.go:210-283 | The reconcile after one that renewed renews again exactly when that renewal was not recorded or ended before the requested time less 5 min |
| OrdererCertificates.NothingRequested | bevel-operator-fabric/controllers/ordnode/ordnode_controller.go:210-217 | Without auto-renewal and without a requested time nothing is ever renewed |
| OrdererCertificates.RenewalsBounded | bevel-operator-fabric/controllers/ordnode/ordnode_controller.go:210-283 | So the renewals are at most one plus the reconciles that end before the requested time less 5 min or whose renewal was not recorded |
| OrdererCertificates.AlwaysLeft | bevel-operator-fabric/controllers/ordnode/ordnode_controller.go:218-225 | With auto-renewal, successful renewals of at least the margin, and each reconcile over within g of the start of the one before, the certificate always has at least the margin less g left |
| CaCertificates.DoesCertNeedToBeRenewed | bevel-operator-fabric/controllers/ca/ca_controller.go:444-472 | The in-place sort and comparison ask for renewal exactly when the certificate's names and the hosts that are no addresses differ as multisets |
| CaCertificates.GetDnsNames | bevel-operator-fabric/controllers/ca/ca_controller.go:171-180 | The hosts that are no addresses, each as often as listed |
| CaCertificates.GetIpAddresses | bevel-operator-fabric/controllers/ca/ca_controller.go:181-190 | The loopback address first, and every address as often as hosts stand for it |
| CaCertificates.GetTlsCertificate | bevel-operator-fabric/controllers/ca/ca_controller.go:473-490 | Keeps an existing certificate whose names are the hosts that are no addresses, counted; otherwise issues one, if it can, with the given serial number, those names, and the addresses of the hosts besides the loopback one |
| CaCertificates.IssuedAtMostOnce | bevel-operator-fabric/controllers/ca/ca_controller.go:475-490 | Once a reconcile has succeeded, no later one of the same spec issues again |
| CaCertificates.ChangedHostsKeepIff | bevel-operator-fabric/controllers/ca/ca_controller.go:467-471 | A changed host list keeps the issued certificate exactly when every host that is no address occurs as often as before, so a change of addresses alone is never carried out |

## Left out

- Kubernetes, Helm, SDK and gRPC calls, signatures, envelopes and policy evaluation: every outside call is a
  parameter that says whether it worked. Reading a channel's configuration, editing it and submitting the update is
  one atomic step of a run; copying the result into the config map is not part of that step in `Migration`.
- Creating a channel, joining orderers and peers, deletion, status patching and logs.
- The default application ACL table: the ACLs of a resource are one map, its own or the operator's constant.
- Modification policies and channel-level policies, which no reconcile edits, and the node-OU identifiers, which
  repeat the root certificate.
- Certificates, keys and revocation lists are opaque values with equality; a text either parses to one or does not.
- Nil and empty Go slices are told apart only in JSON. In the CA test both sides are nil when there are no names.
- Migration: declined steps, timeouts, the image upgrades and restarts, and a change from BFT back to raft.
- What the library does with a nil root certificate when an organisation is set: it is stored like any other.
- Conditions: encoded times are not rounded to seconds, and aliasing between two slice headers is stated as what
  happens to the cells of the shared array, not as a second header object. A nil receiver is not modelled.
- Sorting is by one particular sort; callers see only a sorted permutation.
- Ledger: one namespace; a state is identified by its place in the order of commits, so blocks need no model of their
  own; endorsers are honest and agree; range queries (`GetAllAssets`, `GetAllObjects` and their variants) and their
  phantom checks are not modelled, nor are ledger reads that fail.
- JSON: an object key is the struct field it matches, so case folding is not modelled and a repeated key counts once;
  texts of decoding errors are simplified, as is the offending type in the STIX type error.
- NetworkConfig.Reconcile: the identities, certificate authorities and top-level orderer lists are plain filters or
  lookups and are not modelled; neither is the template.
- OrdererCertificates.OrdererNode.Reconcile: installation, rollback of pending releases and the conditions in the
  status are not modelled; the node read twice in one reconcile is taken to be the same.
- CaCertificates.GetTlsCertificate: key generation and the signing certificates are not modelled.
- The CLI, the user interfaces, the chart builders and the workload scripts.
