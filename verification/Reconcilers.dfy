/** The two reconcilers of one channel. Each reads the stored configuration, edits a copy
    through the library object, and submits the copy only when every step has succeeded. */
module Reconcilers {
  import opened Collections
  import opened HostPort
  import opened ChannelModel
  import opened ConfigTransaction
  import opened Endpoints
  import opened MainUpdate
  import opened ChannelMapping

  /** How the calls outside this model went: fetching the block, collecting signatures, and having
      the orderers accept the update. */
  datatype MainIo = MainIo(fetched: bool, signed: bool, saved: bool)

  datatype FollowerSpec = FollowerSpec(mspId: string, anchorPeers: seq<Address>, revocations: seq<Pem>)

  /** `joined` covers everything up to the fetched block. */
  datatype FollowerIo = FollowerIo(joined: bool, saved: bool)

  datatype Outcome = Submitted | NoDifference | Failed

  predicate InMaintenance(c: ChannelConfig) {
    c.orderer.values.state == StateMaintenance
  }

  predicate EntersMaintenance(c: ChannelConfig, t: ChannelTarget) {
    !InMaintenance(c) && t.orderer.values.state == StateMaintenance
  }

  /** No application edit is made in maintenance or on the way into it. */
  predicate Frozen(c: ChannelConfig, t: ChannelTarget) {
    InMaintenance(c) || EntersMaintenance(c, t)
  }

  ghost function MainAfter(c: ChannelConfig, t: ChannelTarget): Result<ChannelConfig> {
    var application := if Frozen(c, t) then Ok(c.application) else ApplicationAfter(c.application, t.application);
    match application
    case Err(e) => Err(e)
    case Ok(app) =>
      match OrdererAfter(c.orderer, t.orderer)
      case Err(e) => Err(e)
      case Ok(ord) =>
        Ok(ChannelConfig(app, ord, if EntersMaintenance(c, t) then c.capabilities else ToSet(t.capabilityList)))
  }

  ghost function MainStep(c: ChannelConfig, spec: ChannelSpec, io: MainIo): (ChannelConfig, Outcome) {
    if !io.fetched || !Maps(spec) then (c, Failed)
    else
      match MainAfter(c, MapTarget(spec))
      case Err(_) => (c, Failed)
      case Ok(next) =>
        if next == c then (c, NoDifference)
        else if !io.signed || !io.saved then (c, Failed)
        else (next, Submitted)
  }

  function Configured(g: OrgGroup, f: FollowerSpec): OrgGroup
    requires PemsParse(f.revocations)
  {
    g.(anchorPeers := AddAll([], f.anchorPeers), msp := g.msp.(revocationList := Contents(f.revocations)))
  }

  /** Out of maintenance, with the organisation stored, no anchor peer stored twice, and revocation lists
      that can be read. */
  ghost predicate MayConfigure(c: ChannelConfig, f: FollowerSpec) {
    && c.orderer.values.state != StateMaintenance && f.mspId in c.application.orgs
    && (var stored := c.application.orgs[f.mspId].anchorPeers;
        forall i, j :: 0 <= i < j < |stored| ==> stored[i] != stored[j])
    && forall t :: t in f.revocations ==> t.Pem?
  }

  /** What a configured group holds: the revocation lists of the resource, text by text; its anchor peers,
      each once, in their order when none is repeated; and for the rest what it was. */
  ghost predicate Carries(after: OrgGroup, before: OrgGroup, f: FollowerSpec) {
    && |after.msp.revocationList| == |f.revocations|
    && (forall i :: 0 <= i < |f.revocations| ==>
          f.revocations[i].Pem? && after.msp.revocationList[i] == f.revocations[i].contents)
    && Distinct(after.anchorPeers) && (forall a :: a in after.anchorPeers <==> a in f.anchorPeers)
    && (Distinct(f.anchorPeers) ==> after.anchorPeers == f.anchorPeers)
    && after.policies == before.policies && after.endpoints == before.endpoints
    && after.msp.identity == before.msp.identity
  }

  lemma {:induction false} ConfiguredCarries(g: OrgGroup, f: FollowerSpec)
    requires PemsParse(f.revocations)
    ensures Carries(Configured(g, f), g, f)
  {
    EachOnce(f.anchorPeers);
    AddAllMembers([], f.anchorPeers);
    forall i | 0 <= i < |f.revocations| ensures f.revocations[i].Pem? {
      assert f.revocations[i] in f.revocations;
    }
  }

  /** A follower acts on its own organisation only, and not in maintenance. A stored anchor-peer
      list that repeats an address makes the removal loop fail. */
  ghost function FollowerAfter(c: ChannelConfig, f: FollowerSpec): Result<ChannelConfig> {
    if InMaintenance(c) then Err("the orderer is in maintenance mode")
    else if f.mspId !in c.application.orgs then Err("organization not found")
    else if !Distinct(c.application.orgs[f.mspId].anchorPeers) then Err("failed to remove anchor peer")
    else if !PemsParse(f.revocations) then Err("failed to parse CRL")
    else
      Ok(c.(application := c.application.(orgs :=
        c.application.orgs[f.mspId := Configured(c.application.orgs[f.mspId], f)])))
  }

  ghost function FollowerStep(c: ChannelConfig, f: FollowerSpec, io: FollowerIo): (ChannelConfig, Outcome) {
    if !io.joined then (c, Failed)
    else
      match FollowerAfter(c, f)
      case Err(_) => (c, Failed)
      case Ok(next) =>
        if next == c then (c, NoDifference)
        else if !io.saved then (c, Failed)
        else (next, Submitted)
  }

  /** The channel as the orderers store it, and the copy kept in the `<name>-config` map. */
  class Channel {
    var config: ChannelConfig
    var configMap: ChannelConfig

    constructor (genesis: ChannelConfig)
      ensures config == genesis && configMap == genesis
    {
      config, configMap := genesis, genesis;
    }

    method UpdateChannelConfig(spec: ChannelSpec, io: MainIo) returns (outcome: Outcome)
      modifies this`config
      ensures (config, outcome) == MainStep(old(config), spec, io)
      ensures outcome != Submitted ==> config == old(config)
      ensures outcome == Submitted ==>
        config != old(config) && Maps(spec) && MainAfter(old(config), MapTarget(spec)) == Ok(config)
      ensures outcome == NoDifference <==>
        io.fetched && Maps(spec) && MainAfter(old(config), MapTarget(spec)) == Ok(old(config))
    {
      if !io.fetched { return Failed; }
      var tx := new ConfigTx(config);
      var target := MapToConfigTx(spec);
      if target.Err? { return Failed; }
      var t := target.value;
      var ok := EditTowards(tx, t);
      if !ok { return Failed; }
      var updated := tx.UpdatedConfig();
      if updated == config { return NoDifference; }
      if !io.signed || !io.saved { return Failed; }
      config := updated;
      outcome := Submitted;
    }

    /** Copies the stored configuration as it is by then into the map, if the map can be written. */
    method SaveChannelConfig(written: bool)
      modifies this`configMap
      ensures configMap == if written then config else old(configMap)
    {
      if written { configMap := config; }
    }

    /** A main reconcile that nothing disturbs between its submission and the copy. */
    method ReconcileMain(spec: ChannelSpec, io: MainIo, written: bool) returns (outcome: Outcome)
      modifies this
      ensures (config, outcome) == MainStep(old(config), spec, io)
      ensures configMap == if outcome != Failed && written then config else old(configMap)
    {
      outcome := UpdateChannelConfig(spec, io);
      if outcome != Failed { SaveChannelConfig(written); }
    }

    method ReconcileFollower(f: FollowerSpec, io: FollowerIo) returns (outcome: Outcome)
      modifies this`config
      ensures (config, outcome) == FollowerStep(old(config), f, io)
      ensures outcome == Submitted <==> config != old(config)
      ensures outcome != Failed ==> io.joined && MayConfigure(old(config), f)
      ensures io.joined && io.saved && MayConfigure(old(config), f) ==> outcome != Failed
      ensures outcome != Failed ==>
        && config.orderer == old(config.orderer) && config.capabilities == old(config.capabilities)
        && f.mspId in old(config.application.orgs) && f.mspId in config.application.orgs
        && Carries(config.application.orgs[f.mspId], old(config.application.orgs[f.mspId]), f)
        && config.application == old(config.application).(
             orgs := old(config.application.orgs)[f.mspId := config.application.orgs[f.mspId]])
    {
      if f.mspId in config.application.orgs && PemsParse(f.revocations) {
        ConfiguredCarries(config.application.orgs[f.mspId], f);
      }
      if !io.joined { return Failed; }
      var tx := new ConfigTx(config);
      if tx.orderer.values.state == StateMaintenance { return Failed; }
      if f.mspId !in tx.application.orgs { return Failed; }
      var ok := RemoveAnchorPeers(tx, f.mspId);
      if !ok { return Failed; }
      AddAnchorPeers(tx, f.mspId, f.anchorPeers);
      AnchorPeersTwice(config.application, f.mspId, [], AddAll([], f.anchorPeers));
      var parsed, crls := ParseRevocations(f.revocations);
      if !parsed { return Failed; }
      var group := tx.application.orgs[f.mspId];
      tx.SetApplicationOrganization(Organization(f.mspId, group.(msp := group.msp.(revocationList := crls))));
      var updated := tx.UpdatedConfig();
      ghost var g := config.application.orgs[f.mspId];
      assert tx.application.orgs == config.application.orgs[f.mspId := Configured(g, f)];
      if updated == config { return NoDifference; }
      if !io.saved { return Failed; }
      config := updated;
      outcome := Submitted;
    }
  }

  method EditTowards(tx: ConfigTx, t: ChannelTarget) returns (ok: bool)
    modifies tx
    ensures ok == MainAfter(old(tx.UpdatedConfig()), t).Ok?
    ensures ok ==> tx.UpdatedConfig() == MainAfter(old(tx.UpdatedConfig()), t).value
  {
    var maintenance := tx.orderer.values.state == StateMaintenance;
    var entering := !maintenance && t.orderer.values.state == StateMaintenance;
    if !maintenance && !entering {
      ok := UpdateApplicationChannelConfigTx(tx, t.application);
      if !ok { return; }
    }
    if !entering {
      ok := UpdateChannelConfigTx(tx, t.capabilityList);
      if !ok { return; }
    }
    ok := UpdateOrdererChannelConfigTx(tx, t.orderer);
  }

  method RemoveAnchorPeers(tx: ConfigTx, name: string) returns (ok: bool)
    requires name in tx.application.orgs
    modifies tx`application
    ensures ok == Distinct(old(tx.application.orgs[name].anchorPeers))
    ensures ok ==> tx.application == WithAnchorPeers(old(tx.application), name, [])
  {
    ghost var app := tx.application;
    var stored := tx.application.orgs[name].anchorPeers;
    ghost var live := stored;
    WithoutNone(stored, {});
    assert ToSet(stored[..0]) == {};
    SameAnchorPeers(app, name);
    for i := 0 to |stored|
      invariant Distinct(stored[..i])
      invariant live == Without(stored, ToSet(stored[..i]))
      invariant tx.application == WithAnchorPeers(app, name, live)
    {
      AnchorPeerRemovalSnoc(stored, i);
      AnchorPeersTwice(app, name, live, Without(live, {stored[i]}));
      ok := tx.RemoveAnchorPeer(name, stored[i]);
      if !ok {
        var j :| 0 <= j < i && stored[j] == stored[i];
        return;
      }
      live := Without(live, {stored[i]});
    }
    assert stored[..|stored|] == stored;
    WithoutAll(stored, ToSet(stored));
    ok := true;
  }

  method AddAnchorPeers(tx: ConfigTx, name: string, peers: seq<Address>)
    requires name in tx.application.orgs && tx.application.orgs[name].anchorPeers == []
    modifies tx`application
    ensures tx.application == WithAnchorPeers(old(tx.application), name, AddAll([], peers))
  {
    ghost var app := tx.application;
    SameAnchorPeers(app, name);
    for i := 0 to |peers|
      invariant tx.application == WithAnchorPeers(app, name, AddAll([], peers[..i]))
    {
      assert peers[..i + 1] == peers[..i] + [peers[i]];
      AddAllSnoc([], peers[..i], peers[i]);
      AnchorPeersTwice(app, name, AddAll([], peers[..i]), AddAll([], peers[..i + 1]));
      tx.AddAnchorPeer(name, peers[i]);
    }
    assert peers[..|peers|] == peers;
  }

  lemma {:induction false} AnchorPeerRemovalSnoc(stored: seq<Address>, i: nat)
    requires i < |stored|
    ensures Without(Without(stored, ToSet(stored[..i])), {stored[i]}) == Without(stored, ToSet(stored[..i + 1]))
    ensures stored[i] in Without(stored, ToSet(stored[..i])) <==> stored[i] !in stored[..i]
    ensures Distinct(stored[..i]) && stored[i] !in stored[..i] ==> Distinct(stored[..i + 1])
  {
    WithoutMembers(stored, ToSet(stored[..i]));
    assert stored[..i + 1] == stored[..i] + [stored[i]];
    assert ToSet(stored[..i + 1]) == ToSet(stored[..i]) + {stored[i]};
    WithoutTwice(stored, ToSet(stored[..i]), {stored[i]});
  }
}
