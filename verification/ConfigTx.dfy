/** The channel-configuration library the operators edit through. Its source is not part of
    this repository; every method states what is assumed of it. An edit that the library
    refuses leaves the configuration as it was. */
module ConfigTransaction {
  import opened Collections
  import opened HostPort
  import opened ChannelModel
  import opened Consenters

  /** `orgs` enumerates a group map in some order, as ranging over a Go map does. */
  ghost predicate Lists(orgs: seq<Organization>, groups: map<string, OrgGroup>) {
    Names(orgs) == groups.Keys
    && (forall o :: o in orgs ==> o.name in groups && o.group == groups[o.name])
  }

  method ListOrganizations(groups: map<string, OrgGroup>) returns (orgs: seq<Organization>)
    ensures Lists(orgs, groups)
  {
    orgs := [];
    var rest := groups.Keys;
    while rest != {}
      invariant rest <= groups.Keys
      invariant Names(orgs) == groups.Keys - rest
      invariant forall o :: o in orgs ==> o.name in groups && o.group == groups[o.name]
      decreases |rest|
    {
      var name :| name in rest;
      ghost var before := orgs;
      orgs := orgs + [Organization(name, groups[name])];
      assert Names(orgs) == Names(before) + {name};
      rest := rest - {name};
    }
  }

  method ListCapabilities(capabilities: set<string>) returns (list: seq<string>)
    ensures Distinct(list) && ToSet(list) == capabilities
  {
    list := [];
    var rest := capabilities;
    while rest != {}
      invariant rest <= capabilities
      invariant Distinct(list) && ToSet(list) == capabilities - rest
      decreases |rest|
    {
      var c :| c in rest;
      ghost var before := list;
      assert c !in ToSet(list);
      list := list + [c];
      assert ToSet(list) == ToSet(before) + {c};
      rest := rest - {c};
    }
  }

  class ConfigTx {
    var application: ApplicationGroup
    var orderer: OrdererGroup
    var capabilities: set<string>

    constructor (config: ChannelConfig)
      ensures UpdatedConfig() == config
    {
      application, orderer, capabilities := config.application, config.orderer, config.capabilities;
    }

    function UpdatedConfig(): ChannelConfig
      reads this
    {
      ChannelConfig(application, orderer, capabilities)
    }

    // ----- Application group -----

    method SetApplicationPolicies(policies: map<string, Policy>) returns (ok: bool)
      modifies this`application
      ensures ok == PoliciesComplete(policies)
      ensures application == if ok then old(application).(policies := policies) else old(application)
    {
      ok := PoliciesComplete(policies);
      if ok { application := application.(policies := policies); }
    }

    method RemoveApplicationOrganization(name: string)
      modifies this`application
      ensures application == old(application).(orgs := old(application).orgs - {name})
    {
      application := application.(orgs := application.orgs - {name});
    }

    method SetApplicationOrganization(org: Organization)
      modifies this`application
      ensures application == old(application).(orgs := old(application).orgs[org.name := org.group])
    {
      application := application.(orgs := application.orgs[org.name := org.group]);
    }

    method RemoveAcls(keys: set<string>)
      modifies this`application
      ensures application == old(application).(acls := old(application).acls - keys)
    {
      application := application.(acls := application.acls - keys);
    }

    method SetAcls(acls: map<string, string>)
      modifies this`application
      ensures application == old(application).(acls := old(application).acls + acls)
    {
      application := application.(acls := application.acls + acls);
    }

    method RemoveApplicationCapability(capability: string) returns (ok: bool)
      modifies this`application
      ensures ok == (capability in old(application).capabilities)
      ensures application == old(application).(capabilities := old(application).capabilities - {capability})
    {
      ok := capability in application.capabilities;
      application := application.(capabilities := application.capabilities - {capability});
    }

    method AddApplicationCapability(capability: string)
      modifies this`application
      ensures application == old(application).(capabilities := old(application).capabilities + {capability})
    {
      application := application.(capabilities := application.capabilities + {capability});
    }

    /** Drops every equal anchor peer, and refuses when there is none. */
    method RemoveAnchorPeer(name: string, peer: Address) returns (ok: bool)
      requires name in application.orgs
      modifies this`application
      ensures ok == (peer in old(application).orgs[name].anchorPeers)
      ensures application
           == WithAnchorPeers(old(application), name, Without(old(application).orgs[name].anchorPeers, {peer}))
    {
      ok := peer in application.orgs[name].anchorPeers;
      application := WithAnchorPeers(application, name, Without(application.orgs[name].anchorPeers, {peer}));
    }

    method AddAnchorPeer(name: string, peer: Address)
      requires name in application.orgs
      modifies this`application
      ensures application
           == WithAnchorPeers(old(application), name, AddIfAbsent(old(application).orgs[name].anchorPeers, peer))
    {
      application := WithAnchorPeers(application, name, AddIfAbsent(application.orgs[name].anchorPeers, peer));
    }

    // ----- Channel group -----

    method RemoveChannelCapability(capability: string) returns (ok: bool)
      modifies this`capabilities
      ensures ok == (capability in old(capabilities))
      ensures capabilities == old(capabilities) - {capability}
    {
      ok := capability in capabilities;
      capabilities := capabilities - {capability};
    }

    method AddChannelCapability(capability: string)
      modifies this`capabilities
      ensures capabilities == old(capabilities) + {capability}
    {
      capabilities := capabilities + {capability};
    }

    // ----- Orderer group -----

    method SetOrdererPolicies(policies: map<string, Policy>) returns (ok: bool)
      modifies this`orderer
      ensures ok == PoliciesComplete(policies)
      ensures orderer == if ok then old(orderer).(policies := policies) else old(orderer)
    {
      ok := PoliciesComplete(policies);
      if ok { orderer := orderer.(policies := policies); }
    }

    /** `None` is the zero policy that an absent name reads as; it has no type and is refused. */
    method SetOrdererPolicy(name: string, policy: Option<Policy>) returns (ok: bool)
      modifies this`orderer
      ensures ok == policy.Some?
      ensures ok ==> orderer == old(orderer).(policies := old(orderer).policies[name := policy.value])
      ensures !ok ==> orderer == old(orderer)
    {
      ok := policy.Some?;
      if ok { orderer := orderer.(policies := orderer.policies[name := policy.value]); }
    }

    /** Raft edits are refused on a configuration of another consensus type. */
    method RemoveConsenter(c: Consenter) returns (ok: bool)
      modifies this`orderer
      ensures ok == old(orderer).values.kind.EtcdRaft?
      ensures ok ==> orderer == WithConsenters(old(orderer), Apply(old(orderer).values.consenters, Remove(c)))
      ensures !ok ==> orderer == old(orderer)
    {
      ok := orderer.values.kind.EtcdRaft?;
      if ok { orderer := WithConsenters(orderer, Without(orderer.values.consenters, {c})); }
    }

    method AddConsenter(c: Consenter) returns (ok: bool)
      modifies this`orderer
      ensures ok == old(orderer).values.kind.EtcdRaft?
      ensures ok ==> orderer == WithConsenters(old(orderer), Apply(old(orderer).values.consenters, Add(c)))
      ensures !ok ==> orderer == old(orderer)
    {
      ok := orderer.values.kind.EtcdRaft?;
      if ok { orderer := WithConsenters(orderer, AddIfAbsent(orderer.values.consenters, c)); }
    }

    method SetElectionInterval(ticks: nat) returns (ok: bool)
      modifies this`orderer
      ensures ok == old(orderer).values.kind.EtcdRaft?
      ensures ok ==> orderer == WithRaft(old(orderer), old(orderer).values.raftOptions.(electionTick := ticks))
    {
      ok := orderer.values.kind.EtcdRaft?;
      if ok { orderer := WithRaft(orderer, orderer.values.raftOptions.(electionTick := ticks)); }
    }

    method SetHeartbeatTick(ticks: nat) returns (ok: bool)
      modifies this`orderer
      ensures ok == old(orderer).values.kind.EtcdRaft?
      ensures ok ==> orderer == WithRaft(old(orderer), old(orderer).values.raftOptions.(heartbeatTick := ticks))
    {
      ok := orderer.values.kind.EtcdRaft?;
      if ok { orderer := WithRaft(orderer, orderer.values.raftOptions.(heartbeatTick := ticks)); }
    }

    method SetTickInterval(interval: string) returns (ok: bool)
      modifies this`orderer
      ensures ok == old(orderer).values.kind.EtcdRaft?
      ensures ok ==> orderer == WithRaft(old(orderer), old(orderer).values.raftOptions.(tickInterval := interval))
    {
      ok := orderer.values.kind.EtcdRaft?;
      if ok { orderer := WithRaft(orderer, orderer.values.raftOptions.(tickInterval := interval)); }
    }

    method SetSnapshotIntervalSize(size: nat) returns (ok: bool)
      modifies this`orderer
      ensures ok == old(orderer).values.kind.EtcdRaft?
      ensures ok ==> orderer == WithRaft(old(orderer), old(orderer).values.raftOptions.(snapshotIntervalSize := size))
    {
      ok := orderer.values.kind.EtcdRaft?;
      if ok { orderer := WithRaft(orderer, orderer.values.raftOptions.(snapshotIntervalSize := size)); }
    }

    method SetMaxInflightBlocks(blocks: nat) returns (ok: bool)
      modifies this`orderer
      ensures ok == old(orderer).values.kind.EtcdRaft?
      ensures ok ==> orderer == WithRaft(old(orderer), old(orderer).values.raftOptions.(maxInflightBlocks := blocks))
    {
      ok := orderer.values.kind.EtcdRaft?;
      if ok { orderer := WithRaft(orderer, orderer.values.raftOptions.(maxInflightBlocks := blocks)); }
    }

    /** Replaces the orderer values and capabilities, not its organisations or policies. */
    method SetConfiguration(t: OrdererTarget)
      modifies this`orderer
      ensures orderer == old(orderer).(values := t.values, capabilities := ToSet(t.capabilityList))
    {
      orderer := orderer.(values := t.values, capabilities := ToSet(t.capabilityList));
    }

    method SetConsenterMapping(mapping: seq<BftConsenter>)
      modifies this`orderer
      ensures orderer == old(orderer).(values := old(orderer).values.(consenterMapping := mapping))
    {
      orderer := orderer.(values := orderer.values.(consenterMapping := mapping));
    }

    method SetConsensusState(state: ConsensusState)
      modifies this`orderer
      ensures orderer == old(orderer).(values := old(orderer).values.(state := state))
    {
      orderer := orderer.(values := orderer.values.(state := state));
    }

    method RemoveOrdererOrganization(name: string)
      modifies this`orderer
      ensures orderer == old(orderer).(orgs := old(orderer).orgs - {name})
    {
      orderer := orderer.(orgs := orderer.orgs - {name});
    }

    method SetOrdererOrganization(org: Organization)
      modifies this`orderer
      ensures orderer == old(orderer).(orgs := old(orderer).orgs[org.name := org.group])
    {
      orderer := orderer.(orgs := orderer.orgs[org.name := org.group]);
    }

    method RemoveEndpoint(name: string, a: Address)
      requires name in orderer.orgs
      modifies this`orderer
      ensures orderer == WithEndpoints(old(orderer), name, Without(old(orderer).orgs[name].endpoints, {PrintAddress(a)}))
    {
      orderer := WithEndpoints(orderer, name, Without(orderer.orgs[name].endpoints, {PrintAddress(a)}));
    }

    method SetEndpoint(name: string, a: Address)
      requires name in orderer.orgs
      modifies this`orderer
      ensures orderer == WithEndpoints(old(orderer), name, AddIfAbsent(old(orderer).orgs[name].endpoints, PrintAddress(a)))
    {
      orderer := WithEndpoints(orderer, name, AddIfAbsent(orderer.orgs[name].endpoints, PrintAddress(a)));
    }

    method SetOrdererMsp(name: string, msp: Msp)
      requires name in orderer.orgs
      modifies this`orderer
      ensures orderer == old(orderer).(orgs := old(orderer).orgs[name := old(orderer).orgs[name].(msp := msp)])
    {
      orderer := orderer.(orgs := orderer.orgs[name := orderer.orgs[name].(msp := msp)]);
    }

    method SetMaxMessageCount(count: nat)
      modifies this`orderer
      ensures orderer == WithBatch(old(orderer), old(orderer).values.batchSize.(maxMessageCount := count))
    {
      orderer := WithBatch(orderer, orderer.values.batchSize.(maxMessageCount := count));
    }

    method SetAbsoluteMaxBytes(bytes: nat)
      modifies this`orderer
      ensures orderer == WithBatch(old(orderer), old(orderer).values.batchSize.(absoluteMaxBytes := bytes))
    {
      orderer := WithBatch(orderer, orderer.values.batchSize.(absoluteMaxBytes := bytes));
    }

    method SetPreferredMaxBytes(bytes: nat)
      modifies this`orderer
      ensures orderer == WithBatch(old(orderer), old(orderer).values.batchSize.(preferredMaxBytes := bytes))
    {
      orderer := WithBatch(orderer, orderer.values.batchSize.(preferredMaxBytes := bytes));
    }

    method SetBatchTimeout(timeout: int)
      modifies this`orderer
      ensures orderer == old(orderer).(values := old(orderer).values.(batchTimeout := timeout))
    {
      orderer := orderer.(values := orderer.values.(batchTimeout := timeout));
    }

    method RemoveOrdererCapability(capability: string) returns (ok: bool)
      modifies this`orderer
      ensures ok == (capability in old(orderer).capabilities)
      ensures orderer == old(orderer).(capabilities := old(orderer).capabilities - {capability})
    {
      ok := capability in orderer.capabilities;
      orderer := orderer.(capabilities := orderer.capabilities - {capability});
    }

    method AddOrdererCapability(capability: string)
      modifies this`orderer
      ensures orderer == old(orderer).(capabilities := old(orderer).capabilities + {capability})
    {
      orderer := orderer.(capabilities := orderer.capabilities + {capability});
    }
  }

  function WithConsenters(o: OrdererGroup, consenters: seq<Consenter>): OrdererGroup {
    o.(values := o.values.(consenters := consenters))
  }

  function WithRaft(o: OrdererGroup, options: RaftOptions): OrdererGroup {
    o.(values := o.values.(raftOptions := options))
  }

  function WithBatch(o: OrdererGroup, size: BatchSize): OrdererGroup {
    o.(values := o.values.(batchSize := size))
  }

  function WithEndpoints(o: OrdererGroup, name: string, endpoints: seq<string>): OrdererGroup
    requires name in o.orgs
  {
    o.(orgs := o.orgs[name := o.orgs[name].(endpoints := endpoints)])
  }

  function WithAnchorPeers(app: ApplicationGroup, name: string, peers: seq<Address>): ApplicationGroup
    requires name in app.orgs
  {
    app.(orgs := app.orgs[name := app.orgs[name].(anchorPeers := peers)])
  }

  lemma SameAnchorPeers(app: ApplicationGroup, name: string)
    requires name in app.orgs
    ensures WithAnchorPeers(app, name, app.orgs[name].anchorPeers) == app
  {
    assert app.orgs[name := app.orgs[name]] == app.orgs;
  }

  lemma AnchorPeersTwice(app: ApplicationGroup, name: string, first: seq<Address>, second: seq<Address>)
    requires name in app.orgs
    ensures WithAnchorPeers(WithAnchorPeers(app, name, first), name, second) == WithAnchorPeers(app, name, second)
  {
    var group := app.orgs[name];
    assert app.orgs[name := group.(anchorPeers := first)][name := group.(anchorPeers := second)]
        == app.orgs[name := group.(anchorPeers := second)];
  }
}
