/** From the channel resource to the target configuration. A certificate or revocation-list
    text is either one the parser accepts, with its contents, or one it rejects. */
module ChannelMapping {
  import opened Collections
  import opened HostPort
  import opened ChannelModel

  datatype Pem = Pem(contents: Cert) | BadPem

  datatype Duration = DurationUnset | Nanoseconds(count: int) | BadDuration

  /** An orderer organisation may refer to a certificate authority, hold its certificates inline, or
      do neither, and is then given nil certificates. */
  datatype OrgCerts = OrgCerts(caCert: Pem, tlsCaCert: Pem) | NoCerts

  datatype OrdererOrgSpec = OrdererOrgSpec(mspId: string, certs: OrgCerts, endpoints: seq<string>, revocations: seq<Pem>)

  /** The certificates of an external organisation are always parsed. */
  datatype ExternalOrdererOrgSpec = ExternalOrdererOrgSpec(
    mspId: string, caCert: Pem, tlsCaCert: Pem, endpoints: seq<string>, revocations: seq<Pem>)

  datatype PeerOrgSpec = PeerOrgSpec(mspId: string, caCert: Pem, tlsCaCert: Pem)

  datatype ConsenterSpec = ConsenterSpec(host: string, port: int, tlsCert: Pem)

  datatype BftConsenterSpec = BftConsenterSpec(
    id: nat, host: string, port: int, mspId: string, identity: Pem, clientTlsCert: Pem, serverTlsCert: Pem)

  /** `applicationAcls` is the resource's table, or the operator's constant default one when the
      resource has none. */
  datatype ChannelSpec = ChannelSpec(
    adminOrdererOrgs: Option<seq<string>>,
    adminPeerOrgs: seq<string>,
    ordererOrgs: seq<OrdererOrgSpec>,
    externalOrdererOrgs: seq<ExternalOrdererOrgSpec>,
    peerOrgs: seq<PeerOrgSpec>,
    externalPeerOrgs: seq<PeerOrgSpec>,
    consenters: seq<ConsenterSpec>,
    ordererType: string,
    state: string,
    consenterMapping: seq<BftConsenterSpec>,
    smartBft: SmartBftOptions,
    raftOptions: Option<RaftOptions>,
    batchTimeout: Duration,
    batchSize: Option<BatchSize>,
    ordererCapabilities: seq<string>,
    applicationPolicies: Option<map<string, Policy>>,
    applicationAcls: map<string, string>,
    applicationCapabilities: seq<string>,
    capabilities: seq<string>)

  const DEFAULT_RAFT_OPTIONS := RaftOptions("500ms", 10, 1, 5, 16 * 1024 * 1024)
  const NO_RAFT_OPTIONS := RaftOptions("", 0, 0, 0, 0)
  const DEFAULT_BATCH_SIZE := BatchSize(100, 1024 * 1024, 512 * 1024)
  const DEFAULT_BATCH_TIMEOUT: int := 2_000_000_000

  // ----- Policies -----

  function AdminTerm(mspId: string): string {
    "'" + mspId + ".admin'"
  }

  function AdminTerms(mspIds: seq<string>): string {
    if mspIds == [] then ""
    else if |mspIds| == 1 then AdminTerm(mspIds[0])
    else AdminTerm(mspIds[0]) + "," + AdminTerms(mspIds[1..])
  }

  function AnyAdminRule(mspIds: seq<string>): string {
    "OR(" + AdminTerms(mspIds) + ")"
  }

  method BuildAnyAdminRule(mspIds: seq<string>) returns (rule: string)
    ensures rule == AnyAdminRule(mspIds)
  {
    rule := "OR(";
    for idx := 0 to |mspIds|
      invariant rule + AdminTerms(mspIds[idx..]) == "OR(" + AdminTerms(mspIds)
    {
      ghost var before := rule;
      rule := rule + AdminTerm(mspIds[idx]);
      assert mspIds[idx..][1..] == mspIds[idx + 1..];
      if idx < |mspIds| - 1 {
        rule := rule + ",";
        assert rule + AdminTerms(mspIds[idx + 1..]) == before + AdminTerms(mspIds[idx..]);
      } else {
        assert rule + AdminTerms(mspIds[idx + 1..]) == before + AdminTerms(mspIds[idx..]);
      }
    }
    assert rule + AdminTerms(mspIds[|mspIds|..]) == rule;
    rule := rule + ")";
  }

  function Signature(rule: string): Policy {
    Policy("Signature", rule)
  }

  function ImplicitMeta(rule: string): Policy {
    Policy("ImplicitMeta", rule)
  }

  function OrdererAdminRule(spec: ChannelSpec): string {
    if spec.adminOrdererOrgs.None? then "MAJORITY Admins" else AnyAdminRule(spec.adminOrdererOrgs.value)
  }

  function ApplicationAdminRule(spec: ChannelSpec): string {
    if spec.adminPeerOrgs == [] then "MAJORITY Admins" else AnyAdminRule(spec.adminPeerOrgs)
  }

  function OrdererPolicies(adminRule: string): map<string, Policy> {
    map["Readers" := ImplicitMeta("ANY Readers"),
        "Writers" := ImplicitMeta("ANY Writers"),
        "Admins" := Signature(adminRule),
        "BlockValidation" := ImplicitMeta("ANY Writers")]
  }

  function DefaultApplicationPolicies(adminRule: string): map<string, Policy> {
    map["Readers" := ImplicitMeta("ANY Readers"),
        "Writers" := ImplicitMeta("ANY Writers"),
        "Admins" := Signature(adminRule),
        "Endorsement" := ImplicitMeta("MAJORITY Endorsement"),
        "LifecycleEndorsement" := ImplicitMeta("MAJORITY Endorsement")]
  }

  function OrgPolicies(mspId: string): map<string, Policy> {
    var members := Signature("OR('" + mspId + ".member')");
    map["Admins" := Signature("OR('" + mspId + ".admin')"),
        "Readers" := members,
        "Writers" := members,
        "Endorsement" := members]
  }

  // ----- Organisations and consenters -----

  function MapOrg(mspId: string, caCert: Option<Cert>, tlsCaCert: Option<Cert>, endpoints: seq<string>,
                  revocations: seq<string>): Organization
  {
    var msp := Msp(MspIdentity(mspId, [caCert], [tlsCaCert]), revocations);
    Organization(mspId, OrgGroup(OrgPolicies(mspId), msp, [], endpoints))
  }

  predicate PemsParse(texts: seq<Pem>) {
    forall t :: t in texts ==> t.Pem?
  }

  function Contents(texts: seq<Pem>): seq<Cert>
    requires PemsParse(texts)
  {
    seq(|texts|, i requires 0 <= i < |texts| => assert texts[i] in texts; texts[i].contents)
  }

  predicate OrdererOrgParses(o: OrdererOrgSpec) {
    (o.certs.OrgCerts? ==> o.certs.caCert.Pem? && o.certs.tlsCaCert.Pem?) && PemsParse(o.revocations)
  }

  function MapOrdererOrg(o: OrdererOrgSpec): Organization
    requires OrdererOrgParses(o)
  {
    var (caCert, tlsCaCert) :=
      if o.certs.OrgCerts? then (Some(o.certs.caCert.contents), Some(o.certs.tlsCaCert.contents)) else (None, None);
    MapOrg(o.mspId, caCert, tlsCaCert, o.endpoints, Contents(o.revocations))
  }

  predicate ExternalOrdererOrgParses(o: ExternalOrdererOrgSpec) {
    o.caCert.Pem? && o.tlsCaCert.Pem? && PemsParse(o.revocations)
  }

  function MapExternalOrdererOrg(o: ExternalOrdererOrgSpec): Organization
    requires ExternalOrdererOrgParses(o)
  {
    MapOrg(o.mspId, Some(o.caCert.contents), Some(o.tlsCaCert.contents), o.endpoints, Contents(o.revocations))
  }

  predicate PeerOrgParses(o: PeerOrgSpec) {
    o.caCert.Pem? && o.tlsCaCert.Pem?
  }

  function MapPeerOrg(o: PeerOrgSpec): Organization
    requires PeerOrgParses(o)
  {
    MapOrg(o.mspId, Some(o.caCert.contents), Some(o.tlsCaCert.contents), [], [])
  }

  function MapConsenter(c: ConsenterSpec): Consenter
    requires c.tlsCert.Pem?
  {
    Consenter(Address(c.host, c.port), c.tlsCert.contents, c.tlsCert.contents)
  }

  predicate BftConsenterParses(c: BftConsenterSpec) {
    c.identity.Pem? && c.clientTlsCert.Pem? && c.serverTlsCert.Pem?
  }

  function MapBftConsenter(c: BftConsenterSpec): BftConsenter
    requires BftConsenterParses(c)
  {
    BftConsenter(c.id, c.host, c.port, c.mspId, c.identity.contents, c.clientTlsCert.contents, c.serverTlsCert.contents)
  }

  // ----- The whole target -----

  function WantedState(spec: ChannelSpec): ConsensusState {
    if spec.state == "STATE_MAINTENANCE" then StateMaintenance else StateNormal
  }

  predicate OrganizationsParse(spec: ChannelSpec) {
    (forall o :: o in spec.ordererOrgs ==> OrdererOrgParses(o))
    && (forall o :: o in spec.externalOrdererOrgs ==> ExternalOrdererOrgParses(o))
    && (forall o :: o in spec.peerOrgs + spec.externalPeerOrgs ==> PeerOrgParses(o))
  }

  /** A BFT channel needs more than four mapped consenters, a raft channel only readable ones;
      no other consensus type is accepted. */
  predicate ConsensusParses(spec: ChannelSpec) {
    if spec.ordererType == "BFT" then
      |spec.consenterMapping| > 4 && forall c :: c in spec.consenterMapping ==> BftConsenterParses(c)
    else
      spec.ordererType == "etcdraft" && forall c :: c in spec.consenters ==> c.tlsCert.Pem?
  }

  predicate Maps(spec: ChannelSpec) {
    OrganizationsParse(spec) && ConsensusParses(spec) && !spec.batchTimeout.BadDuration?
  }

  function MapAll<S, T>(items: seq<S>, f: S --> T): (r: seq<T>)
    requires forall s :: s in items ==> f.requires(s)
    ensures |r| == |items| && forall i :: 0 <= i < |r| ==> f.requires(items[i]) && r[i] == f(items[i])
  {
    seq(|items|, i requires 0 <= i < |items| => assert items[i] in items; f(items[i]))
  }

  function MapConsensus(spec: ChannelSpec): OrdererValues
    requires ConsensusParses(spec)
  {
    var size := if spec.batchSize.Some? then spec.batchSize.value else DEFAULT_BATCH_SIZE;
    var timeout := if spec.batchTimeout.Nanoseconds? then spec.batchTimeout.count else DEFAULT_BATCH_TIMEOUT;
    if spec.ordererType == "BFT" then
      OrdererValues(Bft, WantedState(spec), [], NO_RAFT_OPTIONS,
                    MapAll(spec.consenterMapping, MapBftConsenter), Some(spec.smartBft), size, timeout)
    else
      OrdererValues(EtcdRaft, WantedState(spec),
                    MapAll(spec.consenters, MapConsenter),
                    if spec.raftOptions.Some? then spec.raftOptions.value else DEFAULT_RAFT_OPTIONS,
                    [], None, size, timeout)
  }

  function MapTarget(spec: ChannelSpec): ChannelTarget
    requires Maps(spec)
  {
    ChannelTarget(
      ApplicationTarget(
        if spec.applicationPolicies.Some? then spec.applicationPolicies.value
        else DefaultApplicationPolicies(ApplicationAdminRule(spec)),
        spec.applicationAcls,
        spec.applicationCapabilities,
        MapAll(spec.peerOrgs + spec.externalPeerOrgs, MapPeerOrg)),
      OrdererTarget(
        MapConsensus(spec),
        spec.ordererCapabilities,
        OrdererPolicies(OrdererAdminRule(spec)),
        MapAll(spec.ordererOrgs, MapOrdererOrg) + MapAll(spec.externalOrdererOrgs, MapExternalOrdererOrg)),
      spec.capabilities)
  }

  function TargetOf(spec: ChannelSpec): Result<ChannelTarget> {
    if Maps(spec) then Ok(MapTarget(spec)) else Err("error mapping channel to configtx channel")
  }

  // ----- The loops that build it -----

  method ParseRevocations(texts: seq<Pem>) returns (ok: bool, crls: seq<string>)
    ensures ok == PemsParse(texts)
    ensures ok ==> crls == Contents(texts)
  {
    crls := [];
    for i := 0 to |texts|
      invariant |crls| == i
      invariant forall k :: 0 <= k < i ==> texts[k].Pem? && crls[k] == texts[k].contents
    {
      if texts[i].BadPem? {
        assert texts[i] in texts;
        return false, [];
      }
      crls := crls + [texts[i].contents];
    }
    ok := true;
  }

  method BuildOrdererOrgs(specs: seq<OrdererOrgSpec>) returns (ok: bool, orgs: seq<Organization>)
    ensures ok == forall o :: o in specs ==> OrdererOrgParses(o)
    ensures ok ==> orgs == MapAll(specs, MapOrdererOrg)
    ensures ok ==> |orgs| == |specs| && forall i :: 0 <= i < |specs| ==> MirrorsOrdererOrg(orgs[i], specs[i])
  {
    orgs := [];
    for i := 0 to |specs|
      invariant |orgs| == i
      invariant forall k :: 0 <= k < i ==> OrdererOrgParses(specs[k]) && orgs[k] == MapOrdererOrg(specs[k])
    {
      var o := specs[i];
      assert o in specs;
      var tlsCaCert: Option<Cert> := None;
      var caCert: Option<Cert> := None;
      if o.certs.OrgCerts? {
        if o.certs.tlsCaCert.BadPem? { return false, []; }
        tlsCaCert := Some(o.certs.tlsCaCert.contents);
        if o.certs.caCert.BadPem? { return false, []; }
        caCert := Some(o.certs.caCert.contents);
      }
      var parsed, crls := ParseRevocations(o.revocations);
      if !parsed { return false, []; }
      orgs := orgs + [MapOrg(o.mspId, caCert, tlsCaCert, o.endpoints, crls)];
    }
    forall i | 0 <= i < |specs| ensures MirrorsOrdererOrg(orgs[i], specs[i]) {
      OrdererOrgMirrors(specs[i]);
    }
    ok := true;
  }

  method BuildExternalOrdererOrgs(specs: seq<ExternalOrdererOrgSpec>) returns (ok: bool, orgs: seq<Organization>)
    ensures ok == forall o :: o in specs ==> ExternalOrdererOrgParses(o)
    ensures ok ==> orgs == MapAll(specs, MapExternalOrdererOrg)
    ensures ok ==> |orgs| == |specs| && forall i :: 0 <= i < |specs| ==> MirrorsExternalOrdererOrg(orgs[i], specs[i])
  {
    orgs := [];
    for i := 0 to |specs|
      invariant |orgs| == i
      invariant forall k :: 0 <= k < i ==> ExternalOrdererOrgParses(specs[k]) && orgs[k] == MapExternalOrdererOrg(specs[k])
    {
      var o := specs[i];
      assert o in specs;
      if o.tlsCaCert.BadPem? || o.caCert.BadPem? { return false, []; }
      var parsed, crls := ParseRevocations(o.revocations);
      if !parsed { return false, []; }
      orgs := orgs + [MapOrg(o.mspId, Some(o.caCert.contents), Some(o.tlsCaCert.contents), o.endpoints, crls)];
    }
    forall i | 0 <= i < |specs| ensures MirrorsExternalOrdererOrg(orgs[i], specs[i]) {
      ExternalOrdererOrgMirrors(specs[i]);
    }
    ok := true;
  }

  method BuildPeerOrgs(specs: seq<PeerOrgSpec>) returns (ok: bool, orgs: seq<Organization>)
    ensures ok == forall o :: o in specs ==> PeerOrgParses(o)
    ensures ok ==> orgs == MapAll(specs, MapPeerOrg)
    ensures ok ==> |orgs| == |specs| && forall i :: 0 <= i < |specs| ==> MirrorsPeerOrg(orgs[i], specs[i])
  {
    orgs := [];
    for i := 0 to |specs|
      invariant |orgs| == i
      invariant forall k :: 0 <= k < i ==> PeerOrgParses(specs[k]) && orgs[k] == MapPeerOrg(specs[k])
    {
      var o := specs[i];
      assert o in specs;
      if o.tlsCaCert.BadPem? || o.caCert.BadPem? { return false, []; }
      orgs := orgs + [MapOrg(o.mspId, Some(o.caCert.contents), Some(o.tlsCaCert.contents), [], [])];
    }
    forall i | 0 <= i < |specs| ensures MirrorsPeerOrg(orgs[i], specs[i]) {
      PeerOrgMirrors(specs[i]);
    }
    ok := true;
  }

  method BuildConsensus(spec: ChannelSpec) returns (ok: bool, values: OrdererValues)
    ensures ok == ConsensusParses(spec)
    ensures ok ==> values == MapConsensus(spec)
  {
    var state := if spec.state == "STATE_MAINTENANCE" then StateMaintenance else StateNormal;
    values := OrdererValues(EtcdRaft, state, [], NO_RAFT_OPTIONS, [], None, DEFAULT_BATCH_SIZE, DEFAULT_BATCH_TIMEOUT);
    if spec.batchSize.Some? { values := values.(batchSize := spec.batchSize.value); }
    if spec.batchTimeout.Nanoseconds? { values := values.(batchTimeout := spec.batchTimeout.count); }
    if spec.ordererType == "BFT" {
      if |spec.consenterMapping| <= 4 { return false, values; }
      var mapping: seq<BftConsenter> := [];
      for i := 0 to |spec.consenterMapping|
        invariant |mapping| == i
        invariant forall k :: 0 <= k < i ==>
          BftConsenterParses(spec.consenterMapping[k]) && mapping[k] == MapBftConsenter(spec.consenterMapping[k])
      {
        var c := spec.consenterMapping[i];
        assert c in spec.consenterMapping;
        if c.identity.BadPem? || c.clientTlsCert.BadPem? || c.serverTlsCert.BadPem? { return false, values; }
        mapping := mapping + [BftConsenter(c.id, c.host, c.port, c.mspId, c.identity.contents,
                                           c.clientTlsCert.contents, c.serverTlsCert.contents)];
      }
      values := values.(kind := Bft, consenterMapping := mapping, smartBft := Some(spec.smartBft));
    } else if spec.ordererType == "etcdraft" {
      var consenters: seq<Consenter> := [];
      for i := 0 to |spec.consenters|
        invariant |consenters| == i
        invariant forall k :: 0 <= k < i ==>
          spec.consenters[k].tlsCert.Pem? && consenters[k] == MapConsenter(spec.consenters[k])
      {
        var c := spec.consenters[i];
        assert c in spec.consenters;
        if c.tlsCert.BadPem? { return false, values; }
        consenters := consenters + [Consenter(Address(c.host, c.port), c.tlsCert.contents, c.tlsCert.contents)];
      }
      var options := DEFAULT_RAFT_OPTIONS;
      if spec.raftOptions.Some? { options := spec.raftOptions.value; }
      values := values.(consenters := consenters, raftOptions := options);
    } else {
      return false, values;
    }
    ok := true;
  }

  method MapToConfigTx(spec: ChannelSpec) returns (r: Result<ChannelTarget>)
    ensures r.Ok? == Maps(spec) == Readable(spec)
    ensures r.Ok? ==> r == TargetOf(spec) && Mirrors(spec, r.value)
  {
    MapsIff(spec);
    if Maps(spec) { TargetMirrors(spec); }
    var ok, ordererOrgs := BuildOrdererOrgs(spec.ordererOrgs);
    if !ok { return Err("error mapping an orderer organization"); }
    var externalOrgs;
    ok, externalOrgs := BuildExternalOrdererOrgs(spec.externalOrdererOrgs);
    if !ok { return Err("error mapping an external orderer organization"); }
    var ordererRule := "MAJORITY Admins";
    if spec.adminOrdererOrgs.Some? {
      ordererRule := BuildAnyAdminRule(spec.adminOrdererOrgs.value);
    }
    var values;
    ok, values := BuildConsensus(spec);
    if !ok { return Err("error mapping the consensus configuration"); }
    if spec.batchTimeout.BadDuration? { return Err("error parsing the batch timeout"); }
    var peerOrgs;
    ok, peerOrgs := BuildPeerOrgs(spec.peerOrgs + spec.externalPeerOrgs);
    if !ok { return Err("error mapping a peer organization"); }
    var applicationRule := "MAJORITY Admins";
    if spec.adminPeerOrgs != [] {
      applicationRule := BuildAnyAdminRule(spec.adminPeerOrgs);
    }
    var policies := DefaultApplicationPolicies(applicationRule);
    if spec.applicationPolicies.Some? { policies := spec.applicationPolicies.value; }
    r := Ok(ChannelTarget(
      ApplicationTarget(policies, spec.applicationAcls, spec.applicationCapabilities, peerOrgs),
      OrdererTarget(values, spec.ordererCapabilities, OrdererPolicies(ordererRule), ordererOrgs + externalOrgs),
      spec.capabilities));
  }

  // ----- What a target holds, entry by entry in the resource's own fields -----

  /** Which resources can be mapped. */
  ghost predicate Readable(spec: ChannelSpec) {
    && (forall o :: o in spec.ordererOrgs ==>
          (o.certs.OrgCerts? ==> o.certs.caCert.Pem? && o.certs.tlsCaCert.Pem?) && forall t :: t in o.revocations ==> t.Pem?)
    && (forall o :: o in spec.externalOrdererOrgs ==>
          o.caCert.Pem? && o.tlsCaCert.Pem? && forall t :: t in o.revocations ==> t.Pem?)
    && (forall o :: o in spec.peerOrgs || o in spec.externalPeerOrgs ==> o.caCert.Pem? && o.tlsCaCert.Pem?)
    && (|| (spec.ordererType == "etcdraft" && forall c :: c in spec.consenters ==> c.tlsCert.Pem?)
        || (&& spec.ordererType == "BFT" && |spec.consenterMapping| >= 5
            && forall c :: c in spec.consenterMapping ==> c.identity.Pem? && c.clientTlsCert.Pem? && c.serverTlsCert.Pem?))
    && (spec.batchTimeout == DurationUnset || spec.batchTimeout.Nanoseconds?)
  }

  lemma {:induction false} MapsIff(spec: ChannelSpec)
    ensures Maps(spec) <==> Readable(spec)
  {
    assert forall o :: o in spec.peerOrgs + spec.externalPeerOrgs <==> o in spec.peerOrgs || o in spec.externalPeerOrgs;
  }

  ghost predicate MirrorsTexts(contents: seq<string>, texts: seq<Pem>) {
    |contents| == |texts| && forall i :: 0 <= i < |texts| ==> texts[i].Pem? && contents[i] == texts[i].contents
  }

  ghost predicate MirrorsOrg(o: Organization, mspId: string, caCert: Option<Cert>, tlsCaCert: Option<Cert>,
                             endpoints: seq<string>, revocations: seq<Pem>)
  {
    && o.name == mspId && o.group.msp.identity.name == mspId
    && o.group.msp.identity.rootCerts == [caCert] && o.group.msp.identity.tlsRootCerts == [tlsCaCert]
    && MirrorsTexts(o.group.msp.revocationList, revocations)
    && o.group.endpoints == endpoints && o.group.anchorPeers == []
    && o.group.policies == map["Admins" := Policy("Signature", "OR('" + mspId + ".admin')"),
                               "Readers" := Policy("Signature", "OR('" + mspId + ".member')"),
                               "Writers" := Policy("Signature", "OR('" + mspId + ".member')"),
                               "Endorsement" := Policy("Signature", "OR('" + mspId + ".member')")]
  }

  ghost predicate MirrorsOrdererOrg(o: Organization, s: OrdererOrgSpec) {
    match s.certs
    case OrgCerts(Pem(ca), Pem(tls)) => MirrorsOrg(o, s.mspId, Some(ca), Some(tls), s.endpoints, s.revocations)
    case NoCerts => MirrorsOrg(o, s.mspId, None, None, s.endpoints, s.revocations)
    case _ => false
  }

  ghost predicate MirrorsExternalOrdererOrg(o: Organization, s: ExternalOrdererOrgSpec) {
    s.caCert.Pem? && s.tlsCaCert.Pem?
    && MirrorsOrg(o, s.mspId, Some(s.caCert.contents), Some(s.tlsCaCert.contents), s.endpoints, s.revocations)
  }

  ghost predicate MirrorsPeerOrg(o: Organization, s: PeerOrgSpec) {
    s.caCert.Pem? && s.tlsCaCert.Pem?
    && MirrorsOrg(o, s.mspId, Some(s.caCert.contents), Some(s.tlsCaCert.contents), [], [])
  }

  /** The organisations of a target, those of the cluster first, the external ones after them. */
  ghost predicate MirrorsOrgs(spec: ChannelSpec, orderers: seq<Organization>, peers: seq<Organization>) {
    var n, m := |spec.ordererOrgs|, |spec.peerOrgs|;
    && |orderers| == n + |spec.externalOrdererOrgs|
    && (forall i :: 0 <= i < n ==> MirrorsOrdererOrg(orderers[i], spec.ordererOrgs[i]))
    && (forall i :: 0 <= i < |spec.externalOrdererOrgs| ==>
          MirrorsExternalOrdererOrg(orderers[n + i], spec.externalOrdererOrgs[i]))
    && |peers| == m + |spec.externalPeerOrgs|
    && (forall i :: 0 <= i < m ==> MirrorsPeerOrg(peers[i], spec.peerOrgs[i]))
    && (forall i :: 0 <= i < |spec.externalPeerOrgs| ==> MirrorsPeerOrg(peers[m + i], spec.externalPeerOrgs[i]))
  }

  /** A raft consenter has one certificate for both roles. */
  ghost predicate MirrorsConsenter(c: Consenter, s: ConsenterSpec) {
    && c.address.host == s.host && c.address.port == s.port
    && s.tlsCert.Pem? && c.clientTlsCert == s.tlsCert.contents && c.serverTlsCert == s.tlsCert.contents
  }

  ghost predicate MirrorsBftConsenter(c: BftConsenter, s: BftConsenterSpec) {
    && c.id == s.id && c.host == s.host && c.port == s.port && c.mspId == s.mspId
    && s.identity.Pem? && s.clientTlsCert.Pem? && s.serverTlsCert.Pem?
    && c.identity == s.identity.contents
    && c.clientTlsCert == s.clientTlsCert.contents && c.serverTlsCert == s.serverTlsCert.contents
  }

  ghost predicate MirrorsConsensus(spec: ChannelSpec, v: OrdererValues) {
    && v.state == (if spec.state == "STATE_MAINTENANCE" then StateMaintenance else StateNormal)
    && v.batchSize == (if spec.batchSize.Some? then spec.batchSize.value else BatchSize(100, 1048576, 524288))
    && v.batchTimeout == (if spec.batchTimeout.Nanoseconds? then spec.batchTimeout.count else 2_000_000_000)
    && (spec.ordererType == "etcdraft" ==>
          && v.kind == EtcdRaft && v.consenterMapping == [] && v.smartBft == None
          && v.raftOptions == (if spec.raftOptions.Some? then spec.raftOptions.value
                               else RaftOptions("500ms", 10, 1, 5, 16777216))
          && |v.consenters| == |spec.consenters|
          && forall i :: 0 <= i < |spec.consenters| ==> MirrorsConsenter(v.consenters[i], spec.consenters[i]))
    && (spec.ordererType == "BFT" ==>
          && v.kind == Bft && v.consenters == [] && v.smartBft == Some(spec.smartBft)
          && |v.consenterMapping| == |spec.consenterMapping|
          && forall i :: 0 <= i < |spec.consenterMapping| ==>
               MirrorsBftConsenter(v.consenterMapping[i], spec.consenterMapping[i]))
  }

  ghost predicate MirrorsPolicies(spec: ChannelSpec, orderer: map<string, Policy>, application: map<string, Policy>) {
    && orderer == map["Readers" := Policy("ImplicitMeta", "ANY Readers"),
                      "Writers" := Policy("ImplicitMeta", "ANY Writers"),
                      "BlockValidation" := Policy("ImplicitMeta", "ANY Writers"),
                      "Admins" := Policy("Signature", match spec.adminOrdererOrgs
                                                      case None => "MAJORITY Admins"
                                                      case Some(orgs) => AnyAdminRule(orgs))]
    && application ==
       match spec.applicationPolicies
       case Some(policies) => policies
       case None => map["Readers" := Policy("ImplicitMeta", "ANY Readers"),
                        "Writers" := Policy("ImplicitMeta", "ANY Writers"),
                        "Endorsement" := Policy("ImplicitMeta", "MAJORITY Endorsement"),
                        "LifecycleEndorsement" := Policy("ImplicitMeta", "MAJORITY Endorsement"),
                        "Admins" := Policy("Signature", if spec.adminPeerOrgs == [] then "MAJORITY Admins"
                                                        else AnyAdminRule(spec.adminPeerOrgs))]
  }

  ghost predicate Mirrors(spec: ChannelSpec, t: ChannelTarget) {
    && MirrorsOrgs(spec, t.orderer.orgs, t.application.orgs)
    && MirrorsConsensus(spec, t.orderer.values)
    && MirrorsPolicies(spec, t.orderer.policies, t.application.policies)
    && t.application.acls == spec.applicationAcls
    && t.capabilityList == spec.capabilities
    && t.orderer.capabilityList == spec.ordererCapabilities
    && t.application.capabilityList == spec.applicationCapabilities
  }

  lemma OrgMirrors(mspId: string, caCert: Option<Cert>, tlsCaCert: Option<Cert>, endpoints: seq<string>, texts: seq<Pem>)
    requires PemsParse(texts)
    ensures MirrorsOrg(MapOrg(mspId, caCert, tlsCaCert, endpoints, Contents(texts)), mspId, caCert, tlsCaCert, endpoints, texts)
  {
    forall i | 0 <= i < |texts| ensures texts[i].Pem? {
      assert texts[i] in texts;
    }
  }

  lemma {:induction false} OrdererOrgMirrors(s: OrdererOrgSpec)
    requires OrdererOrgParses(s)
    ensures MirrorsOrdererOrg(MapOrdererOrg(s), s)
  {
    if s.certs.OrgCerts? {
      OrgMirrors(s.mspId, Some(s.certs.caCert.contents), Some(s.certs.tlsCaCert.contents), s.endpoints, s.revocations);
    } else {
      OrgMirrors(s.mspId, None, None, s.endpoints, s.revocations);
    }
  }

  lemma {:induction false} ExternalOrdererOrgMirrors(s: ExternalOrdererOrgSpec)
    requires ExternalOrdererOrgParses(s)
    ensures MirrorsExternalOrdererOrg(MapExternalOrdererOrg(s), s)
  {
    OrgMirrors(s.mspId, Some(s.caCert.contents), Some(s.tlsCaCert.contents), s.endpoints, s.revocations);
  }

  lemma {:induction false} OrdererOrgsMirror(spec: ChannelSpec)
    requires Maps(spec)
    ensures var n, orgs := |spec.ordererOrgs|, MapTarget(spec).orderer.orgs;
      && |orgs| == n + |spec.externalOrdererOrgs|
      && (forall i :: 0 <= i < n ==> MirrorsOrdererOrg(orgs[i], spec.ordererOrgs[i]))
      && (forall i :: 0 <= i < |spec.externalOrdererOrgs| ==>
            MirrorsExternalOrdererOrg(orgs[n + i], spec.externalOrdererOrgs[i]))
  {
    var n, orgs := |spec.ordererOrgs|, MapTarget(spec).orderer.orgs;
    forall i | 0 <= i < n ensures MirrorsOrdererOrg(orgs[i], spec.ordererOrgs[i]) {
      assert spec.ordererOrgs[i] in spec.ordererOrgs;
      OrdererOrgMirrors(spec.ordererOrgs[i]);
    }
    forall i | 0 <= i < |spec.externalOrdererOrgs|
      ensures MirrorsExternalOrdererOrg(orgs[n + i], spec.externalOrdererOrgs[i])
    {
      assert spec.externalOrdererOrgs[i] in spec.externalOrdererOrgs;
      ExternalOrdererOrgMirrors(spec.externalOrdererOrgs[i]);
    }
  }

  lemma {:induction false} PeerOrgMirrors(s: PeerOrgSpec)
    requires PeerOrgParses(s)
    ensures MirrorsPeerOrg(MapPeerOrg(s), s)
  {
    OrgMirrors(s.mspId, Some(s.caCert.contents), Some(s.tlsCaCert.contents), [], []);
    assert Contents([]) == [];
  }

  lemma {:induction false} PeerOrgsMirror(spec: ChannelSpec)
    requires Maps(spec)
    ensures var m, orgs := |spec.peerOrgs|, MapTarget(spec).application.orgs;
      && |orgs| == m + |spec.externalPeerOrgs|
      && (forall i :: 0 <= i < m ==> MirrorsPeerOrg(orgs[i], spec.peerOrgs[i]))
      && (forall i :: 0 <= i < |spec.externalPeerOrgs| ==> MirrorsPeerOrg(orgs[m + i], spec.externalPeerOrgs[i]))
  {
    var m, orgs, specs := |spec.peerOrgs|, MapTarget(spec).application.orgs, spec.peerOrgs + spec.externalPeerOrgs;
    forall i | 0 <= i < |specs| ensures MirrorsPeerOrg(orgs[i], specs[i]) {
      assert specs[i] in specs && orgs[i] == MapPeerOrg(specs[i]);
      PeerOrgMirrors(specs[i]);
    }
    forall i | 0 <= i < |spec.externalPeerOrgs| ensures MirrorsPeerOrg(orgs[m + i], spec.externalPeerOrgs[i]) {
      assert specs[m + i] == spec.externalPeerOrgs[i];
    }
  }

  lemma {:induction false} ConsensusMirrors(spec: ChannelSpec)
    requires ConsensusParses(spec)
    ensures MirrorsConsensus(spec, MapConsensus(spec))
  {
    if spec.ordererType == "BFT" {
      assert forall i :: 0 <= i < |spec.consenterMapping| ==> spec.consenterMapping[i] in spec.consenterMapping;
    } else {
      assert forall i :: 0 <= i < |spec.consenters| ==> spec.consenters[i] in spec.consenters;
    }
  }

  lemma {:induction false} PoliciesMirror(spec: ChannelSpec)
    requires Maps(spec)
    ensures MirrorsPolicies(spec, MapTarget(spec).orderer.policies, MapTarget(spec).application.policies)
  {
  }

  /** Every target is the resource, organisation by organisation, consenter by consenter, policy by
      policy. */
  lemma {:induction false} TargetMirrors(spec: ChannelSpec)
    requires Maps(spec)
    ensures Mirrors(spec, MapTarget(spec))
  {
    OrdererOrgsMirror(spec);
    PeerOrgsMirror(spec);
    ConsensusMirrors(spec);
    PoliciesMirror(spec);
  }

  /** The administrator rule grows by one quoted term for each organisation. */
  lemma {:induction false} AdminRuleText(mspIds: seq<string>, mspId: string)
    ensures AnyAdminRule([]) == "OR()"
    ensures AnyAdminRule([mspId]) == "OR('" + mspId + ".admin')"
    ensures mspIds != [] ==>
      var rule := AnyAdminRule(mspIds);
      rule != "" && AnyAdminRule(mspIds + [mspId]) == rule[..|rule| - 1] + ",'" + mspId + ".admin')"
  {
    assert "'" + mspId + ".admin'" + ")" == "'" + mspId + ".admin')";
    assert "OR(" + ("'" + mspId + ".admin'") + ")" == "OR('" + mspId + ".admin')";
    if mspIds != [] {
      AdminTermsGrow(mspIds, mspId);
      var rule := AnyAdminRule(mspIds);
      assert rule[..|rule| - 1] == "OR(" + AdminTerms(mspIds);
      assert AnyAdminRule(mspIds + [mspId]) == "OR(" + AdminTerms(mspIds) + ",'" + mspId + ".admin')";
    }
  }

  lemma {:induction false} AdminTermsGrow(mspIds: seq<string>, mspId: string)
    requires mspIds != []
    ensures AdminTerms(mspIds + [mspId]) == AdminTerms(mspIds) + ",'" + mspId + ".admin'"
  {
    var all := mspIds + [mspId];
    if |mspIds| == 1 {
      assert all[1..] == [mspId];
    } else {
      assert all[1..] == mspIds[1..] + [mspId];
      AdminTermsGrow(mspIds[1..], mspId);
    }
  }

  // ----- What every target satisfies -----

  function PeerMspIds(spec: ChannelSpec): set<string> {
    set o | o in spec.peerOrgs + spec.externalPeerOrgs :: o.mspId
  }

  /** Each address of a raft spec is listed once. */
  ghost predicate DistinctSpecAddresses(spec: ChannelSpec) {
    forall i, j :: 0 <= i < j < |spec.consenters| ==>
      (spec.consenters[i].host, spec.consenters[i].port) != (spec.consenters[j].host, spec.consenters[j].port)
  }

  /** A target names exactly the spec's peer organisations, adds them without anchor peers or
      revocations, and asks for the state the spec does: one of the two known ones. */
  lemma {:induction false} TargetFacts(spec: ChannelSpec)
    requires Maps(spec)
    ensures var t := MapTarget(spec);
      && Names(t.application.orgs) == PeerMspIds(spec)
      && (forall o :: o in t.application.orgs ==> o.group.anchorPeers == [] && o.group.msp.revocationList == [])
      && PoliciesComplete(t.orderer.policies)
      && t.orderer.values.state == WantedState(spec) && t.orderer.values.state in {StateNormal, StateMaintenance}
      && (t.orderer.values.kind.Bft? ==> |t.orderer.values.consenterMapping| > 4 && t.orderer.values.consenters == [])
      && (DistinctSpecAddresses(spec) ==> DistinctAddresses(t.orderer.values.consenters))
  {
    TargetPeerOrgs(spec);
    TargetConsensus(spec);
  }

  lemma {:induction false} TargetPeerOrgs(spec: ChannelSpec)
    requires Maps(spec)
    ensures var orgs := MapTarget(spec).application.orgs;
      Names(orgs) == PeerMspIds(spec)
      && forall o :: o in orgs ==> o.group.anchorPeers == [] && o.group.msp.revocationList == []
  {
    var specs := spec.peerOrgs + spec.externalPeerOrgs;
    var orgs := MapAll(specs, MapPeerOrg);
    forall n
      ensures n in Names(orgs) <==> n in PeerMspIds(spec)
    {
      if n in Names(orgs) {
        var i :| 0 <= i < |orgs| && orgs[i].name == n;
        assert specs[i] in specs;
      }
      if n in PeerMspIds(spec) {
        var i :| 0 <= i < |specs| && specs[i].mspId == n;
        assert orgs[i] in orgs;
      }
    }
  }

  lemma {:induction false} TargetConsensus(spec: ChannelSpec)
    requires ConsensusParses(spec)
    ensures var v := MapConsensus(spec);
      && v.state == WantedState(spec)
      && (v.kind.Bft? ==> |v.consenterMapping| > 4 && v.consenters == [])
      && (DistinctSpecAddresses(spec) ==> DistinctAddresses(v.consenters))
  {
  }
}
