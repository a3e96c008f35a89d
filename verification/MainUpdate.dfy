/** The three update functions of the main-channel reconciler: what each one makes of the
    stored configuration, and the loops that do it through the live library object. */
module MainUpdate {
  import opened Collections
  import opened HostPort
  import opened ChannelModel
  import opened Consenters
  import opened Endpoints
  import opened ConfigTransaction

  // ----- Specification: the application group -----

  /** A stored organisation that is still wanted keeps its whole group; one that is new gets the
      group given last under its name; one no longer wanted goes. */
  ghost function ApplicationOrgsAfter(stored: map<string, OrgGroup>, wanted: seq<Organization>): map<string, OrgGroup> {
    map n | n in Names(wanted) :: if n in stored then stored[n] else LastNamed(wanted, n)
  }

  ghost function ApplicationAfter(app: ApplicationGroup, t: ApplicationTarget): Result<ApplicationGroup> {
    if !PoliciesComplete(t.policies) then Err("failed to set application policies")
    else Ok(ApplicationGroup(t.policies, app.acls + t.acls, ToSet(t.capabilityList),
                             ApplicationOrgsAfter(app.orgs, t.orgs)))
  }

  /** What an updated application group holds: the target's policies and capabilities; its ACLs, and those
      stored under other names; and, of the organisations it names, the stored group, or else the one it
      gives last. */
  ghost predicate ApplicationMeets(app: ApplicationGroup, t: ApplicationTarget, after: ApplicationGroup) {
    && after.policies == t.policies
    && (forall k :: k in after.acls <==> k in app.acls || k in t.acls)
    && (forall k :: k in after.acls ==> after.acls[k] == if k in t.acls then t.acls[k] else app.acls[k])
    && (forall n :: n in after.capabilities <==> n in t.capabilityList)
    && (forall n :: n in after.orgs <==> n in Names(t.orgs))
    && (forall n :: n in after.orgs && n in app.orgs ==> after.orgs[n] == app.orgs[n])
    && (forall n :: n in after.orgs && n !in app.orgs ==> after.orgs[n] == LastNamed(t.orgs, n))
  }

  lemma {:induction false} ApplicationAfterMeets(app: ApplicationGroup, t: ApplicationTarget)
    requires ApplicationAfter(app, t).Ok?
    ensures ApplicationMeets(app, t, ApplicationAfter(app, t).value)
  {
  }

  // ----- Specification: the orderer group -----

  function StateAfter(stored: ConsensusState, wanted: ConsensusState): ConsensusState {
    match wanted
    case StateUnset => stored
    case StateMaintenance => StateMaintenance
    case _ => StateNormal
  }

  /** The three policies rewritten while the stored type is BFT; `BlockValidation` is not among
      them. */
  function BftPolicies(stored: map<string, Policy>, wanted: map<string, Policy>): map<string, Policy>
    requires PoliciesComplete(wanted)
  {
    stored["Admins" := wanted["Admins"]]["Writers" := wanted["Writers"]]["Readers" := wanted["Readers"]]
  }

  ghost function ConsensusAfter(o: OrdererGroup, t: OrdererTarget): Result<OrdererGroup> {
    if t.values.kind.EtcdRaft? then
      if !PoliciesComplete(t.policies) then Err("failed to set application")
      else if o.values.kind != EtcdRaft then Err("consensus type is not etcdraft")
      else
        Ok(o.(policies := t.policies,
              values := o.values.(consenters := Reconciled(o.values.consenters, t.values.consenters),
                                  raftOptions := t.values.raftOptions,
                                  state := StateAfter(o.values.state, t.values.state))))
    else if o.values.kind.Bft? && !PoliciesComplete(t.policies) then Err("failed to set policy for orderer")
    else
      Ok(o.(policies := if o.values.kind.Bft? then BftPolicies(o.policies, t.policies) else o.policies,
            values := t.values.(state := StateAfter(t.values.state, t.values.state)),
            capabilities := ToSet(t.capabilityList)))
  }

  /** The orderer policies after an update, name by name: a raft target replaces all of them; a BFT target
      replaces three, and only when the stored type is BFT already. */
  ghost predicate PoliciesMeet(o: OrdererGroup, t: OrdererTarget, after: map<string, Policy>) {
    forall n :: PolicyNamed(after, n) ==
      if t.values.kind.EtcdRaft? || (o.values.kind.Bft? && (n == "Admins" || n == "Writers" || n == "Readers"))
      then PolicyNamed(t.policies, n) else PolicyNamed(o.policies, n)
  }

  lemma {:induction false} ConsensusAfterPolicies(o: OrdererGroup, t: OrdererTarget)
    requires ConsensusAfter(o, t).Ok?
    ensures PoliciesMeet(o, t, ConsensusAfter(o, t).value.policies)
  {
  }

  ghost function KeptGroup(g: OrgGroup, wanted: OrgGroup): Result<OrgGroup> {
    match Reset(g.endpoints, wanted.endpoints)
    case Err(e) => Err(e)
    case Ok(endpoints) =>
      Ok(g.(endpoints := endpoints, msp := g.msp.(revocationList := wanted.msp.revocationList)))
  }

  /** One turn of the orderer-organisation loop; `stored` is the snapshot's name set. */
  ghost function OrgTurn(orgs: map<string, OrgGroup>, stored: set<string>, o: Organization): Result<map<string, OrgGroup>> {
    if o.name !in stored then Ok(orgs[o.name := o.group])
    else if o.name !in orgs then Err("failed to get orderer organization configuration")
    else
      match KeptGroup(orgs[o.name], o.group)
      case Err(e) => Err(e)
      case Ok(g) => Ok(orgs[o.name := g])
  }

  ghost function OrgTurns(orgs: map<string, OrgGroup>, stored: set<string>, wanted: seq<Organization>): Result<map<string, OrgGroup>>
    decreases |wanted|
  {
    if wanted == [] then Ok(orgs)
    else
      match OrgTurn(orgs, stored, wanted[0])
      case Err(e) => Err(e)
      case Ok(next) => OrgTurns(next, stored, wanted[1..])
  }

  ghost function KeptOrgs(stored: map<string, OrgGroup>, wanted: seq<Organization>): map<string, OrgGroup> {
    map n | n in stored && n in Names(wanted) :: stored[n]
  }

  ghost function OrdererOrgsAfter(stored: map<string, OrgGroup>, wanted: seq<Organization>): Result<map<string, OrgGroup>> {
    OrgTurns(KeptOrgs(stored, wanted), stored.Keys, wanted)
  }

  lemma {:induction false} OrgTurnsKeys(orgs: map<string, OrgGroup>, stored: set<string>, wanted: seq<Organization>)
    requires OrgTurns(orgs, stored, wanted).Ok?
    ensures OrgTurns(orgs, stored, wanted).value.Keys == orgs.Keys + Names(wanted)
    decreases |wanted|
  {
    if wanted != [] {
      assert wanted == [wanted[0]] + wanted[1..];
      assert Names(wanted) == {wanted[0].name} + Names(wanted[1..]);
      OrgTurnsKeys(OrgTurn(orgs, stored, wanted[0]).value, stored, wanted[1..]);
    }
  }

  /** The orderer capability loops remove and then re-add the wanted list: they succeed only on
      a list that is present already and repeats nothing, and then change nothing. */
  ghost function RenewedCapabilities(current: set<string>, list: seq<string>): Result<set<string>> {
    if Distinct(list) && ToSet(list) <= current then Ok(current) else Err("failed to remove capability")
  }

  ghost function OrdererAfter(o: OrdererGroup, t: OrdererTarget): Result<OrdererGroup> {
    match ConsensusAfter(o, t)
    case Err(e) => Err(e)
    case Ok(c) =>
      match OrdererOrgsAfter(o.orgs, t.orgs)
      case Err(e) => Err(e)
      case Ok(orgs) =>
        match RenewedCapabilities(c.capabilities, t.capabilityList)
        case Err(e) => Err(e)
        case Ok(capabilities) =>
          Ok(c.(orgs := orgs,
                values := c.values.(batchSize := t.values.batchSize, batchTimeout := t.values.batchTimeout),
                capabilities := capabilities))
  }

  // ----- Loops over names -----

  method Listed(name: string, orgs: seq<Organization>) returns (found: bool)
    ensures found <==> name in Names(orgs)
  {
    found := false;
    for i := 0 to |orgs|
      invariant !found
      invariant name !in Names(orgs[..i])
    {
      assert orgs[..i + 1] == orgs[..i] + [orgs[i]];
      if orgs[i].name == name {
        found := true;
        assert orgs[i] in orgs;
        return;
      }
    }
    assert orgs[..|orgs|] == orgs;
  }

  lemma NamesSnoc(orgs: seq<Organization>, i: nat)
    requires i < |orgs|
    ensures Names(orgs[..i + 1]) == Names(orgs[..i]) + {orgs[i].name}
    ensures orgs[i].name in Names(orgs)
  {
    assert orgs[..i + 1] == orgs[..i] + [orgs[i]];
    assert orgs[i] in orgs;
  }

  // ----- The application update -----

  /** The stored organisations once the first `i` of the snapshot have been visited. */
  ghost function KeptSoFar(before: map<string, OrgGroup>, stored: seq<Organization>, wanted: seq<Organization>, i: nat): map<string, OrgGroup>
    requires i <= |stored|
  {
    map n | n in before && (n in Names(wanted) || n !in Names(stored[..i])) :: before[n]
  }

  lemma {:induction false} KeptStep(before: map<string, OrgGroup>, stored: seq<Organization>, wanted: seq<Organization>, i: nat)
    requires i < |stored|
    ensures KeptSoFar(before, stored, wanted, i + 1)
         == if stored[i].name in Names(wanted) then KeptSoFar(before, stored, wanted, i)
            else KeptSoFar(before, stored, wanted, i) - {stored[i].name}
  {
    NamesSnoc(stored, i);
  }

  lemma KeptEnds(before: map<string, OrgGroup>, stored: seq<Organization>, wanted: seq<Organization>)
    requires Lists(stored, before)
    ensures KeptSoFar(before, stored, wanted, 0) == before
    ensures KeptSoFar(before, stored, wanted, |stored|) == KeptOrgs(before, wanted)
  {
    assert stored[..|stored|] == stored;
  }

  method RemoveUnwantedApplicationOrgs(tx: ConfigTx, stored: seq<Organization>, wanted: seq<Organization>)
    requires Lists(stored, tx.application.orgs)
    modifies tx`application
    ensures tx.application == old(tx.application).(orgs := KeptOrgs(old(tx.application.orgs), wanted))
  {
    ghost var before := tx.application;
    KeptEnds(before.orgs, stored, wanted);
    for i := 0 to |stored|
      invariant tx.application == before.(orgs := KeptSoFar(before.orgs, stored, wanted, i))
    {
      KeptStep(before.orgs, stored, wanted, i);
      var kept := Listed(stored[i].name, wanted);
      if !kept {
        tx.RemoveApplicationOrganization(stored[i].name);
      }
    }
  }

  /** The application organisations once the first `i` wanted ones have been visited. */
  ghost function AddedSoFar(before: map<string, OrgGroup>, wanted: seq<Organization>, i: nat): map<string, OrgGroup>
    requires i <= |wanted|
  {
    map n | n in Names(wanted) && (n in before || n in Names(wanted[..i]))
      :: if n in before then before[n] else LastNamed(wanted[..i], n)
  }

  lemma {:induction false} AddedStep(before: map<string, OrgGroup>, wanted: seq<Organization>, i: nat)
    requires i < |wanted|
    ensures AddedSoFar(before, wanted, i + 1)
         == if wanted[i].name in before then AddedSoFar(before, wanted, i)
            else AddedSoFar(before, wanted, i)[wanted[i].name := wanted[i].group]
  {
    NamesSnoc(wanted, i);
    assert wanted[..i + 1][..i] == wanted[..i];
    var now, next := AddedSoFar(before, wanted, i), AddedSoFar(before, wanted, i + 1);
    forall n | n in next && n !in before && n != wanted[i].name
      ensures n in now && next[n] == now[n]
    {
    }
  }

  method AddNewApplicationOrgs(tx: ConfigTx, stored: seq<Organization>, ghost before: map<string, OrgGroup>, wanted: seq<Organization>)
    requires Lists(stored, before)
    requires tx.application.orgs == KeptOrgs(before, wanted)
    modifies tx`application
    ensures tx.application == old(tx.application).(orgs := ApplicationOrgsAfter(before, wanted))
  {
    ghost var app := tx.application;
    for i := 0 to |wanted|
      invariant tx.application == app.(orgs := tx.application.orgs)
      invariant tx.application.orgs == AddedSoFar(before, wanted, i)
    {
      AddedStep(before, wanted, i);
      var found := Listed(wanted[i].name, stored);
      if !found {
        tx.SetApplicationOrganization(wanted[i]);
      }
    }
    assert wanted[..|wanted|] == wanted;
  }

  method ReplaceApplicationCapabilities(tx: ConfigTx, current: seq<string>, wanted: seq<string>) returns (ok: bool)
    requires Distinct(current) && ToSet(current) == tx.application.capabilities
    modifies tx`application
    ensures ok
    ensures tx.application == old(tx.application).(capabilities := ToSet(wanted))
  {
    ghost var app := tx.application;
    for i := 0 to |current|
      invariant tx.application == app.(capabilities := ToSet(current[i..]))
    {
      assert current[i..] == [current[i]] + current[i + 1..];
      assert current[i] !in current[i + 1..];
      assert ToSet(current[i..]) == ToSet(current[i + 1..]) + {current[i]};
      ok := tx.RemoveApplicationCapability(current[i]);
      if !ok { return; }
    }
    for i := 0 to |wanted|
      invariant tx.application == app.(capabilities := ToSet(wanted[..i]))
    {
      assert wanted[..i + 1] == wanted[..i] + [wanted[i]];
      assert ToSet(wanted[..i + 1]) == ToSet(wanted[..i]) + {wanted[i]};
      tx.AddApplicationCapability(wanted[i]);
    }
    assert wanted[..|wanted|] == wanted;
    ok := true;
  }

  method UpdateApplicationChannelConfigTx(tx: ConfigTx, t: ApplicationTarget) returns (ok: bool)
    modifies tx
    ensures ok == ApplicationAfter(old(tx.application), t).Ok?
    ensures ok ==>
      tx.UpdatedConfig() == old(tx.UpdatedConfig()).(application := ApplicationAfter(old(tx.application), t).value)
    ensures ok ==> ApplicationMeets(old(tx.application), t, tx.application)
    ensures !ok ==> !("Admins" in t.policies && "Readers" in t.policies && "Writers" in t.policies)
  {
    ghost var before := tx.application;
    ok := tx.SetApplicationPolicies(t.policies);
    if !ok { return; }
    var storedOrgs := ListOrganizations(tx.application.orgs);
    var capabilities := ListCapabilities(tx.application.capabilities);
    RemoveUnwantedApplicationOrgs(tx, storedOrgs, t.orgs);
    AddNewApplicationOrgs(tx, storedOrgs, before.orgs, t.orgs);
    ok := tx.SetApplicationPolicies(t.policies);
    if !ok { return; }
    tx.RemoveAcls(t.acls.Keys);
    tx.SetAcls(t.acls);
    assert before.acls - t.acls.Keys + t.acls == before.acls + t.acls;
    ok := ReplaceApplicationCapabilities(tx, capabilities, t.capabilityList);
    ApplicationAfterMeets(before, t);
  }

  // ----- The channel update -----

  method UpdateChannelConfigTx(tx: ConfigTx, wanted: seq<string>) returns (ok: bool)
    modifies tx
    ensures ok
    ensures tx.UpdatedConfig() == old(tx.UpdatedConfig()).(capabilities := ToSet(wanted))
  {
    var current := ListCapabilities(tx.capabilities);
    for i := 0 to |current|
      invariant tx.UpdatedConfig() == old(tx.UpdatedConfig()).(capabilities := ToSet(current[i..]))
    {
      assert current[i..] == [current[i]] + current[i + 1..];
      assert current[i] !in current[i + 1..];
      assert ToSet(current[i..]) == ToSet(current[i + 1..]) + {current[i]};
      ok := tx.RemoveChannelCapability(current[i]);
      if !ok { return; }
    }
    for i := 0 to |wanted|
      invariant tx.UpdatedConfig() == old(tx.UpdatedConfig()).(capabilities := ToSet(wanted[..i]))
    {
      assert wanted[..i + 1] == wanted[..i] + [wanted[i]];
      assert ToSet(wanted[..i + 1]) == ToSet(wanted[..i]) + {wanted[i]};
      tx.AddChannelCapability(wanted[i]);
    }
    assert wanted[..|wanted|] == wanted;
    ok := true;
  }

  // ----- The orderer update -----

  method FindConsenter(wanted: seq<Consenter>, a: Address) returns (match_: Option<Consenter>)
    ensures match_ == FirstAt(wanted, a)
  {
    for i := 0 to |wanted|
      invariant FirstAt(wanted, a) == FirstAt(wanted[i..], a)
    {
      if wanted[i].address == a {
        return Some(wanted[i]);
      }
    }
    match_ := None;
  }

  method RemoveAndReplaceConsenters(tx: ConfigTx, stored: seq<Consenter>, wanted: seq<Consenter>) returns (ok: bool)
    requires tx.orderer.values.kind.EtcdRaft?
    modifies tx`orderer
    ensures ok
    ensures tx.orderer == WithConsenters(old(tx.orderer),
      ApplyAll(old(tx.orderer.values.consenters), RemovalPlan(stored, wanted)))
  {
    ghost var o := tx.orderer;
    ghost var final := ApplyAll(o.values.consenters, RemovalPlan(stored, wanted));
    for i := 0 to |stored|
      invariant tx.orderer == WithConsenters(o, tx.orderer.values.consenters)
      invariant ApplyAll(tx.orderer.values.consenters, RemovalPlan(stored[i..], wanted)) == final
    {
      var c := stored[i];
      ghost var live := tx.orderer.values.consenters;
      assert stored[i..][1..] == stored[i + 1..];
      ApplySplit(live, EditsFor(c, wanted), RemovalPlan(stored[i + 1..], wanted));
      var found := FindConsenter(wanted, c.address);
      match found {
        case None =>
          assert [Remove(c)][1..] == [] && ApplyAll(Apply(live, Remove(c)), []) == Apply(live, Remove(c));
          ok := tx.RemoveConsenter(c);
          if !ok { return; }
        case Some(m) =>
          FirstAtProperties(wanted, c.address);
          if m.clientTlsCert != c.clientTlsCert || m.serverTlsCert != c.serverTlsCert {
            TwoEdits(live, Remove(c), Add(m));
            ok := tx.RemoveConsenter(c);
            if !ok { return; }
            ok := tx.AddConsenter(m);
            if !ok { return; }
          }
      }
    }
    ok := true;
  }

  method AddMissingConsenters(tx: ConfigTx, stored: seq<Consenter>, wanted: seq<Consenter>) returns (ok: bool)
    requires tx.orderer.values.kind.EtcdRaft?
    modifies tx`orderer
    ensures ok
    ensures tx.orderer == WithConsenters(old(tx.orderer),
      ApplyAll(old(tx.orderer.values.consenters), AdditionPlan(stored, wanted)))
  {
    ghost var o := tx.orderer;
    ghost var final := ApplyAll(o.values.consenters, AdditionPlan(stored, wanted));
    for i := 0 to |wanted|
      invariant tx.orderer == WithConsenters(o, tx.orderer.values.consenters)
      invariant ApplyAll(tx.orderer.values.consenters, AdditionPlan(stored, wanted[i..])) == final
    {
      assert wanted[i..][1..] == wanted[i + 1..];
      var found := FindConsenter(stored, wanted[i].address);
      FirstAtProperties(stored, wanted[i].address);
      if found.None? {
        assert ([Add(wanted[i])] + AdditionPlan(stored, wanted[i + 1..]))[1..] == AdditionPlan(stored, wanted[i + 1..]);
        ok := tx.AddConsenter(wanted[i]);
        if !ok { return; }
      } else {
        assert [] + AdditionPlan(stored, wanted[i + 1..]) == AdditionPlan(stored, wanted[i + 1..]);
      }
    }
    ok := true;
  }

  method UpdateRaftConsensus(tx: ConfigTx, snapshot: OrdererGroup, t: OrdererTarget) returns (ok: bool)
    requires snapshot == tx.orderer
    modifies tx`orderer
    ensures ok == (PoliciesComplete(t.policies) && snapshot.values.kind.EtcdRaft?)
    ensures ok ==> tx.orderer == snapshot.(policies := t.policies,
      values := snapshot.values.(consenters := Reconciled(snapshot.values.consenters, t.values.consenters),
                                 raftOptions := t.values.raftOptions))
  {
    ok := tx.SetOrdererPolicies(t.policies);
    if !ok { return; }
    if !snapshot.values.kind.EtcdRaft? {
      // A BFT configuration carries no raft consenters, so the first raft edit is refused.
      ok := tx.SetElectionInterval(t.values.raftOptions.electionTick);
      return;
    }
    ApplySplit(snapshot.values.consenters, RemovalPlan(snapshot.values.consenters, t.values.consenters),
               AdditionPlan(snapshot.values.consenters, t.values.consenters));
    ok := RemoveAndReplaceConsenters(tx, snapshot.values.consenters, t.values.consenters);
    if !ok { return; }
    ok := AddMissingConsenters(tx, snapshot.values.consenters, t.values.consenters);
    if !ok { return; }
    ok := tx.SetElectionInterval(t.values.raftOptions.electionTick);
    if !ok { return; }
    ok := tx.SetHeartbeatTick(t.values.raftOptions.heartbeatTick);
    if !ok { return; }
    ok := tx.SetTickInterval(t.values.raftOptions.tickInterval);
    if !ok { return; }
    ok := tx.SetSnapshotIntervalSize(t.values.raftOptions.snapshotIntervalSize);
    if !ok { return; }
    ok := tx.SetMaxInflightBlocks(t.values.raftOptions.maxInflightBlocks);
  }

  method UpdateBftConsensus(tx: ConfigTx, t: OrdererTarget)
    modifies tx`orderer
    ensures tx.orderer == old(tx.orderer).(values := t.values, capabilities := ToSet(t.capabilityList))
  {
    tx.SetConfiguration(t);
    var mapping: seq<BftConsenter> := [];
    for i := 0 to |t.values.consenterMapping|
      invariant mapping == t.values.consenterMapping[..i]
    {
      var c := t.values.consenterMapping[i];
      mapping := mapping + [BftConsenter(c.id, c.host, c.port, c.mspId, c.identity, c.clientTlsCert, c.serverTlsCert)];
    }
    tx.SetConsenterMapping(mapping);
  }

  method UpdateConsensus(tx: ConfigTx, snapshot: OrdererGroup, t: OrdererTarget) returns (ok: bool)
    requires snapshot == tx.orderer
    modifies tx`orderer
    ensures ok == ConsensusAfter(snapshot, t).Ok?
    ensures ok ==> tx.orderer == ConsensusAfter(snapshot, t).value
    ensures ok ==> PoliciesMeet(snapshot, t, tx.orderer.policies)
  {
    if ConsensusAfter(snapshot, t).Ok? { ConsensusAfterPolicies(snapshot, t); }
    if t.values.kind.EtcdRaft? {
      ok := UpdateRaftConsensus(tx, snapshot, t);
      if !ok { return; }
    } else {
      UpdateBftConsensus(tx, t);
    }
    if snapshot.values.kind.Bft? {
      tx.SetConfiguration(t);
      ok := tx.SetOrdererPolicy("Admins", PolicyNamed(t.policies, "Admins"));
      if !ok { return; }
      ok := tx.SetOrdererPolicy("Writers", PolicyNamed(t.policies, "Writers"));
      if !ok { return; }
      ok := tx.SetOrdererPolicy("Readers", PolicyNamed(t.policies, "Readers"));
      if !ok { return; }
    }
    if t.values.state != StateUnset {
      var state := StateNormal;
      match t.values.state {
        case StateMaintenance => state := StateMaintenance;
        case _ => state := StateNormal;
      }
      tx.SetConsensusState(state);
    }
    ok := true;
  }

  method RemoveUnwantedOrdererOrgs(tx: ConfigTx, stored: seq<Organization>, ghost before: map<string, OrgGroup>, wanted: seq<Organization>)
    requires Lists(stored, before) && tx.orderer.orgs == before
    modifies tx`orderer
    ensures tx.orderer == old(tx.orderer).(orgs := KeptOrgs(before, wanted))
  {
    ghost var o := tx.orderer;
    KeptEnds(before, stored, wanted);
    for i := 0 to |stored|
      invariant tx.orderer == o.(orgs := KeptSoFar(before, stored, wanted, i))
    {
      KeptStep(before, stored, wanted, i);
      var kept := Listed(stored[i].name, wanted);
      if !kept {
        tx.RemoveOrdererOrganization(stored[i].name);
      }
    }
  }

  lemma {:induction false} PrintedSnoc(endpoints: seq<string>, i: nat)
    requires i < |endpoints| && AllParse(endpoints[..i + 1])
    ensures AllParse(endpoints[..i]) && ParseEndpoint(endpoints[i]).Ok?
    ensures PrintedAll(endpoints[..i + 1]) == PrintedAll(endpoints[..i]) + [Printed(endpoints[i])]
  {
    assert endpoints[..i + 1] == endpoints[..i] + [endpoints[i]];
    assert forall e :: e in endpoints[..i] ==> e in endpoints[..i + 1];
    assert endpoints[i] in endpoints[..i + 1];
  }

  lemma PrefixParses(endpoints: seq<string>, i: nat)
    requires i < |endpoints| && AllParse(endpoints[..i])
    ensures ParseEndpoint(endpoints[i]).Ok? ==> AllParse(endpoints[..i + 1])
    ensures ParseEndpoint(endpoints[i]).Err? ==> !AllParse(endpoints)
  {
    assert endpoints[..i + 1] == endpoints[..i] + [endpoints[i]];
    assert endpoints[i] in endpoints;
  }

  method RemoveEndpoints(tx: ConfigTx, name: string, endpoints: seq<string>) returns (ok: bool)
    requires name in tx.orderer.orgs && endpoints == tx.orderer.orgs[name].endpoints
    modifies tx`orderer
    ensures ok == AllParse(endpoints)
    ensures ok ==> tx.orderer == WithEndpoints(old(tx.orderer), name, Leftover(endpoints))
  {
    ghost var o := tx.orderer;
    ghost var live := endpoints;
    WithoutNone(endpoints, {});
    assert ToSet(PrintedAll(endpoints[..0])) == {};
    SameEndpoints(o, name);
    for i := 0 to |endpoints|
      invariant AllParse(endpoints[..i])
      invariant live == Without(endpoints, ToSet(PrintedAll(endpoints[..i])))
      invariant tx.orderer == WithEndpoints(o, name, live)
    {
      PrefixParses(endpoints, i);
      var parsed := ParseEndpoint(endpoints[i]);
      if parsed.Err? { return false; }
      RemovalSnoc(endpoints, i);
      EndpointsTwice(o, name, live, Without(live, {PrintAddress(parsed.value)}));
      tx.RemoveEndpoint(name, parsed.value);
      live := Without(live, {PrintAddress(parsed.value)});
    }
    assert endpoints[..|endpoints|] == endpoints;
    ok := true;
  }

  lemma EndpointsTwice(o: OrdererGroup, name: string, first: seq<string>, second: seq<string>)
    requires name in o.orgs
    ensures WithEndpoints(WithEndpoints(o, name, first), name, second) == WithEndpoints(o, name, second)
  {
    var group := o.orgs[name];
    assert o.orgs[name := group.(endpoints := first)][name := group.(endpoints := second)]
        == o.orgs[name := group.(endpoints := second)];
  }

  lemma SameEndpoints(o: OrdererGroup, name: string)
    requires name in o.orgs
    ensures WithEndpoints(o, name, o.orgs[name].endpoints) == o
  {
    assert o.orgs[name := o.orgs[name]] == o.orgs;
  }

  lemma {:induction false} RemovalSnoc(endpoints: seq<string>, i: nat)
    requires i < |endpoints| && AllParse(endpoints[..i + 1]) && AllParse(endpoints[..i])
    requires ParseEndpoint(endpoints[i]).Ok?
    ensures Without(Without(endpoints, ToSet(PrintedAll(endpoints[..i]))), {Printed(endpoints[i])})
         == Without(endpoints, ToSet(PrintedAll(endpoints[..i + 1])))
  {
    PrintedSnoc(endpoints, i);
    ToSetSnoc(PrintedAll(endpoints[..i]), Printed(endpoints[i]));
    WithoutTwice(endpoints, ToSet(PrintedAll(endpoints[..i])), {Printed(endpoints[i])});
  }

  method AddEndpoints(tx: ConfigTx, name: string, endpoints: seq<string>) returns (ok: bool)
    requires name in tx.orderer.orgs
    modifies tx`orderer
    ensures ok == AllParse(endpoints)
    ensures ok ==>
      tx.orderer == WithEndpoints(old(tx.orderer), name, AddAll(old(tx.orderer.orgs[name].endpoints), PrintedAll(endpoints)))
  {
    ghost var o := tx.orderer;
    ghost var base := o.orgs[name].endpoints;
    for i := 0 to |endpoints|
      invariant AllParse(endpoints[..i])
      invariant tx.orderer == WithEndpoints(o, name, AddAll(base, PrintedAll(endpoints[..i])))
    {
      PrefixParses(endpoints, i);
      var parsed := ParseEndpoint(endpoints[i]);
      if parsed.Err? { return false; }
      PrintedSnoc(endpoints, i);
      AddAllSnoc(base, PrintedAll(endpoints[..i]), Printed(endpoints[i]));
      EndpointsTwice(o, name, AddAll(base, PrintedAll(endpoints[..i])), AddAll(base, PrintedAll(endpoints[..i + 1])));
      tx.SetEndpoint(name, parsed.value);
    }
    assert endpoints[..|endpoints|] == endpoints;
    ok := true;
  }

  method UpdateOrdererOrg(tx: ConfigTx, stored: seq<Organization>, o: Organization) returns (ok: bool)
    requires o.name in Names(stored) ==> o.name in tx.orderer.orgs
    modifies tx`orderer
    ensures ok == OrgTurn(old(tx.orderer.orgs), Names(stored), o).Ok?
    ensures ok ==> tx.orderer == old(tx.orderer).(orgs := OrgTurn(old(tx.orderer.orgs), Names(stored), o).value)
  {
    var found := Listed(o.name, stored);
    if found {
      var snapshot := tx.orderer.orgs[o.name];
      ok := RemoveEndpoints(tx, o.name, snapshot.endpoints);
      if !ok { return; }
      ok := AddEndpoints(tx, o.name, o.group.endpoints);
      if !ok { return; }
      tx.SetOrdererMsp(o.name, snapshot.msp.(revocationList := o.group.msp.revocationList));
    } else {
      tx.SetOrdererOrganization(o);
      ok := true;
    }
  }

  method UpdateOrdererOrgs(tx: ConfigTx, stored: seq<Organization>, ghost before: map<string, OrgGroup>, wanted: seq<Organization>) returns (ok: bool)
    requires Lists(stored, before) && tx.orderer.orgs == before
    modifies tx`orderer
    ensures ok == OrdererOrgsAfter(before, wanted).Ok?
    ensures ok ==> tx.orderer == old(tx.orderer).(orgs := OrdererOrgsAfter(before, wanted).value)
  {
    ghost var o := tx.orderer;
    RemoveUnwantedOrdererOrgs(tx, stored, before, wanted);
    for i := 0 to |wanted|
      invariant tx.orderer == o.(orgs := tx.orderer.orgs)
      invariant forall n :: n in before && n in Names(wanted) ==> n in tx.orderer.orgs
      invariant OrdererOrgsAfter(before, wanted) == OrgTurns(tx.orderer.orgs, before.Keys, wanted[i..])
    {
      NamesSnoc(wanted, i);
      assert wanted[i..][1..] == wanted[i + 1..];
      ok := UpdateOrdererOrg(tx, stored, wanted[i]);
      if !ok { return; }
    }
    ok := true;
  }

  method RenewOrdererCapabilities(tx: ConfigTx, list: seq<string>) returns (ok: bool)
    modifies tx`orderer
    ensures ok == (Distinct(list) && ToSet(list) <= old(tx.orderer.capabilities))
    ensures ok == RenewedCapabilities(old(tx.orderer.capabilities), list).Ok?
    ensures ok ==> tx.orderer == old(tx.orderer)
    ensures ok ==> tx.orderer.capabilities == old(tx.orderer.capabilities) + ToSet(list)
    ensures ok ==> (tx.orderer.capabilities == ToSet(list) <==> old(tx.orderer.capabilities) <= ToSet(list))
  {
    ghost var o := tx.orderer;
    for i := 0 to |list|
      invariant tx.orderer == o.(capabilities := o.capabilities - ToSet(list[..i]))
      invariant Distinct(list[..i]) && ToSet(list[..i]) <= o.capabilities
    {
      assert list[..i + 1] == list[..i] + [list[i]];
      assert ToSet(list[..i + 1]) == ToSet(list[..i]) + {list[i]};
      ok := tx.RemoveOrdererCapability(list[i]);
      if !ok {
        if list[i] in list[..i] {
          var j :| 0 <= j < i && list[j] == list[i];
        } else {
          assert list[i] in ToSet(list);
        }
        return;
      }
    }
    assert list[..|list|] == list;
    for i := 0 to |list|
      invariant tx.orderer == o.(capabilities := o.capabilities - ToSet(list) + ToSet(list[..i]))
    {
      assert list[..i + 1] == list[..i] + [list[i]];
      assert ToSet(list[..i + 1]) == ToSet(list[..i]) + {list[i]};
      tx.AddOrdererCapability(list[i]);
    }
    assert o.capabilities - ToSet(list) + ToSet(list) == o.capabilities;
    ok := true;
  }

  method UpdateOrdererChannelConfigTx(tx: ConfigTx, t: OrdererTarget) returns (ok: bool)
    modifies tx
    ensures ok == OrdererAfter(old(tx.orderer), t).Ok?
    ensures ok ==>
      tx.UpdatedConfig() == old(tx.UpdatedConfig()).(orderer := OrdererAfter(old(tx.orderer), t).value)
    ensures ok ==> PoliciesMeet(old(tx.orderer), t, tx.orderer.policies)
  {
    if OrdererAfter(tx.orderer, t).Ok? { ConsensusAfterPolicies(tx.orderer, t); }
    var snapshot := tx.orderer;
    var storedOrgs := ListOrganizations(snapshot.orgs);
    ok := UpdateConsensus(tx, snapshot, t);
    if !ok { return; }
    ok := UpdateOrdererOrgs(tx, storedOrgs, snapshot.orgs, t.orgs);
    if !ok { return; }
    tx.SetMaxMessageCount(t.values.batchSize.maxMessageCount);
    tx.SetAbsoluteMaxBytes(t.values.batchSize.absoluteMaxBytes);
    tx.SetPreferredMaxBytes(t.values.batchSize.preferredMaxBytes);
    tx.SetBatchTimeout(t.values.batchTimeout);
    ok := RenewOrdererCapabilities(tx, t.capabilityList);
  }
}
