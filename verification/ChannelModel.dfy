/** A channel's stored configuration and the target the main reconciler computes for it.
    Certificates and revocation lists are opaque texts compared by equality. */
module ChannelModel {
  import opened Collections
  import opened HostPort

  type Cert = string

  datatype Policy = Policy(kind: string, rule: string)

  /** Everything in an MSP definition except its revocation list; a root certificate may be nil. */
  datatype MspIdentity = MspIdentity(name: string, rootCerts: seq<Option<Cert>>, tlsRootCerts: seq<Option<Cert>>)

  datatype Msp = Msp(identity: MspIdentity, revocationList: seq<string>)

  /** An organisation's group; its name is the key it is stored under. */
  datatype OrgGroup = OrgGroup(
    policies: map<string, Policy>,
    msp: Msp,
    anchorPeers: seq<Address>,
    endpoints: seq<string>)

  datatype Organization = Organization(name: string, group: OrgGroup)

  datatype ConsensusState = StateUnset | StateNormal | StateMaintenance | StateOther(name: string)

  datatype ConsensusType = EtcdRaft | Bft

  datatype Consenter = Consenter(address: Address, clientTlsCert: Cert, serverTlsCert: Cert)

  datatype RaftOptions = RaftOptions(
    tickInterval: string,
    electionTick: nat,
    heartbeatTick: nat,
    maxInflightBlocks: nat,
    snapshotIntervalSize: nat)

  datatype BftConsenter = BftConsenter(
    id: nat,
    host: string,
    port: int,
    mspId: string,
    identity: Cert,
    clientTlsCert: Cert,
    serverTlsCert: Cert)

  datatype SmartBftOptions = SmartBftOptions(fields: map<string, string>)

  datatype BatchSize = BatchSize(maxMessageCount: nat, absoluteMaxBytes: nat, preferredMaxBytes: nat)

  /** The orderer group's values apart from its capabilities; `SetConfiguration` replaces both. */
  datatype OrdererValues = OrdererValues(
    kind: ConsensusType,
    state: ConsensusState,
    consenters: seq<Consenter>,
    raftOptions: RaftOptions,
    consenterMapping: seq<BftConsenter>,
    smartBft: Option<SmartBftOptions>,
    batchSize: BatchSize,
    batchTimeout: int)

  datatype OrdererGroup = OrdererGroup(
    values: OrdererValues,
    capabilities: set<string>,
    policies: map<string, Policy>,
    orgs: map<string, OrgGroup>)

  datatype ApplicationGroup = ApplicationGroup(
    policies: map<string, Policy>,
    acls: map<string, string>,
    capabilities: set<string>,
    orgs: map<string, OrgGroup>)

  datatype ChannelConfig = ChannelConfig(
    application: ApplicationGroup,
    orderer: OrdererGroup,
    capabilities: set<string>)

  // ----- The target a spec is mapped to -----

  datatype OrdererTarget = OrdererTarget(
    values: OrdererValues,
    capabilityList: seq<string>,
    policies: map<string, Policy>,
    orgs: seq<Organization>)

  datatype ApplicationTarget = ApplicationTarget(
    policies: map<string, Policy>,
    acls: map<string, string>,
    capabilityList: seq<string>,
    orgs: seq<Organization>)

  datatype ChannelTarget = ChannelTarget(
    application: ApplicationTarget,
    orderer: OrdererTarget,
    capabilityList: seq<string>)

  function Names(orgs: seq<Organization>): set<string> {
    set o | o in orgs :: o.name
  }

  /** The group given last under `name`. */
  function LastNamed(orgs: seq<Organization>, name: string): OrgGroup
    requires name in Names(orgs)
  {
    if orgs[|orgs| - 1].name == name then orgs[|orgs| - 1].group
    else
      assert orgs == orgs[..|orgs| - 1] + [orgs[|orgs| - 1]];
      LastNamed(orgs[..|orgs| - 1], name)
  }

  lemma {:induction false} LastNamedMember(orgs: seq<Organization>, name: string)
    requires name in Names(orgs)
    ensures Organization(name, LastNamed(orgs, name)) in orgs
  {
    var last := orgs[|orgs| - 1];
    if last.name != name {
      assert orgs == orgs[..|orgs| - 1] + [last];
      LastNamedMember(orgs[..|orgs| - 1], name);
    }
  }

  /** Reading a policy map by name. */
  function PolicyNamed(policies: map<string, Policy>, name: string): Option<Policy> {
    if name in policies then Some(policies[name]) else None
  }

  /** What `configtx` demands of a policy map it is given whole. */
  predicate PoliciesComplete(policies: map<string, Policy>) {
    "Admins" in policies && "Readers" in policies && "Writers" in policies
  }

  /** Consenter lists name each host and port once. */
  ghost predicate DistinctAddresses(consenters: seq<Consenter>) {
    forall i, j :: 0 <= i < j < |consenters| ==> consenters[i].address != consenters[j].address
  }
}
