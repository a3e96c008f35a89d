/** Repeating the main reconcile with one spec: when it succeeds, and that two updates reach a
    configuration a third leaves alone. */
module Convergence {
  import opened Collections
  import opened HostPort
  import opened ChannelModel
  import opened Consenters
  import opened Endpoints
  import opened MainUpdate
  import opened ChannelMapping
  import opened Reconcilers

  // ----- The orderer organisations in closed form -----

  lemma {:induction false} LastNamedTail(orgs: seq<Organization>, name: string)
    requires orgs != [] && name in Names(orgs)
    ensures name in Names(orgs[1..]) ==> LastNamed(orgs, name) == LastNamed(orgs[1..], name)
    ensures name !in Names(orgs[1..]) ==> orgs[0].name == name && LastNamed(orgs, name) == orgs[0].group
  {
    var last := orgs[|orgs| - 1];
    assert orgs == [orgs[0]] + orgs[1..];
    assert orgs == orgs[..|orgs| - 1] + [last];
    if |orgs| > 1 {
      assert orgs[1..][|orgs| - 2] == last && last in orgs[1..];
      if last.name != name {
        assert orgs[..|orgs| - 1][1..] == orgs[1..][..|orgs| - 2];
        assert orgs[1..] == orgs[1..][..|orgs| - 2] + [last];
        LastNamedTail(orgs[..|orgs| - 1], name);
      }
    }
  }

  /** A second turn on a kept group starts from the same leftovers as the first. */
  lemma {:induction false} KeptTwice(g: OrgGroup, first: OrgGroup, second: OrgGroup)
    requires KeptGroup(g, first).Ok? && KeptGroup(KeptGroup(g, first).value, second).Ok?
    ensures KeptGroup(g, second) == KeptGroup(KeptGroup(g, first).value, second)
  {
    LeftoverStable(g.endpoints, first.endpoints);
  }

  /** What the turns leave under one name: a group kept from the snapshot is updated once,
      towards the entry given last, and a new one is that entry. */
  lemma {:induction false} OrgTurnsGroup(orgs: map<string, OrgGroup>, stored: set<string>, wanted: seq<Organization>, n: string)
    requires OrgTurns(orgs, stored, wanted).Ok?
    ensures var after := OrgTurns(orgs, stored, wanted).value;
      && (n !in Names(wanted) && n in orgs ==> n in after && after[n] == orgs[n])
      && (n in Names(wanted) && n !in stored ==> n in after && after[n] == LastNamed(wanted, n))
      && (n in Names(wanted) && n in stored ==>
            n in orgs && n in after && KeptGroup(orgs[n], LastNamed(wanted, n)) == Ok(after[n]))
    decreases |wanted|
  {
    if wanted != [] {
      var o, rest := wanted[0], wanted[1..];
      assert wanted == [o] + rest;
      assert Names(wanted) == {o.name} + Names(rest);
      var next := OrgTurn(orgs, stored, o).value;
      OrgTurnsGroup(next, stored, rest, n);
      if n in Names(wanted) {
        LastNamedTail(wanted, n);
        if n in stored && o.name == n && n in Names(rest) {
          KeptTwice(orgs[n], o.group, LastNamed(rest, n));
        }
      }
    }
  }

  /** Wanted endpoints that parse, and parse again once printed. */
  predicate PlainEndpoints(endpoints: seq<string>) {
    forall e :: e in endpoints ==> ParseEndpoint(e).Ok? && ':' !in ParseEndpoint(e).value.host
  }

  predicate PlainOrgs(orgs: seq<Organization>) {
    forall o :: o in orgs ==> PlainEndpoints(o.group.endpoints)
  }

  predicate KeptParse(stored: map<string, OrgGroup>, wanted: seq<Organization>) {
    forall n :: n in stored && n in Names(wanted) ==> AllParse(stored[n].endpoints)
  }

  lemma {:induction false} KeptSucceeds(g: OrgGroup, wanted: OrgGroup)
    requires AllParse(g.endpoints) && PlainEndpoints(wanted.endpoints)
    ensures KeptGroup(g, wanted).Ok? && AllParse(KeptGroup(g, wanted).value.endpoints)
  {
    ResetParses(g.endpoints, wanted.endpoints);
  }

  lemma {:induction false} OrgTurnsSucceed(orgs: map<string, OrgGroup>, stored: set<string>, wanted: seq<Organization>)
    requires PlainOrgs(wanted)
    requires forall n :: n in Names(wanted) && n in stored ==> n in orgs && AllParse(orgs[n].endpoints)
    ensures OrgTurns(orgs, stored, wanted).Ok?
    decreases |wanted|
  {
    if wanted != [] {
      var o, rest := wanted[0], wanted[1..];
      assert wanted == [o] + rest;
      assert o in wanted && o.name in Names(wanted);
      assert forall x :: x in rest ==> x in wanted;
      if o.name in stored { KeptSucceeds(orgs[o.name], o.group); }
      var next := OrgTurn(orgs, stored, o).value;
      forall n | n in Names(rest) && n in stored
        ensures n in next && AllParse(next[n].endpoints)
      {
        assert n in Names(wanted);
      }
      OrgTurnsSucceed(next, stored, rest);
    }
  }

  /** With plain wanted endpoints the organisation update succeeds exactly when the stored
      endpoints of every kept organisation parse. */
  lemma {:induction false} OrdererOrgsSucceed(stored: map<string, OrgGroup>, wanted: seq<Organization>)
    requires PlainOrgs(wanted)
    ensures OrdererOrgsAfter(stored, wanted).Ok? <==> KeptParse(stored, wanted)
  {
    if KeptParse(stored, wanted) {
      OrgTurnsSucceed(KeptOrgs(stored, wanted), stored.Keys, wanted);
    }
    if OrdererOrgsAfter(stored, wanted).Ok? {
      forall n | n in stored && n in Names(wanted)
        ensures AllParse(stored[n].endpoints)
      {
        OrgTurnsGroup(KeptOrgs(stored, wanted), stored.Keys, wanted, n);
      }
    }
  }

  /** Every orderer organisation after an update: its stored group with the endpoints reset and
      the revocation list replaced, or its wanted group when it was not stored. */
  lemma {:induction false} OrdererOrgsClosedForm(stored: map<string, OrgGroup>, wanted: seq<Organization>, n: string)
    requires OrdererOrgsAfter(stored, wanted).Ok?
    ensures var after := OrdererOrgsAfter(stored, wanted).value;
      && (n in after <==> n in Names(wanted))
      && (n in after && n !in stored ==> after[n] == LastNamed(wanted, n))
      && (n in after && n in stored ==>
            Reset(stored[n].endpoints, LastNamed(wanted, n).endpoints) == Ok(after[n].endpoints)
            && after[n].msp == Msp(stored[n].msp.identity, LastNamed(wanted, n).msp.revocationList)
            && after[n].policies == stored[n].policies && after[n].anchorPeers == stored[n].anchorPeers)
  {
    OrgTurnsGroup(KeptOrgs(stored, wanted), stored.Keys, wanted, n);
    OrgTurnsKeys(KeptOrgs(stored, wanted), stored.Keys, wanted);
  }

  /** A kept organisation with canonical endpoints ends with exactly the wanted list, each
      endpoint once, and keeps the rest of its MSP. */
  lemma {:induction false} KeptOrgEndpoints(stored: map<string, OrgGroup>, wanted: seq<Organization>, n: string)
    requires OrdererOrgsAfter(stored, wanted).Ok?
    requires n in stored && n in Names(wanted)
    requires AllCanonical(stored[n].endpoints) && AllCanonical(LastNamed(wanted, n).endpoints)
    ensures var after, target := OrdererOrgsAfter(stored, wanted).value, LastNamed(wanted, n);
      && n in after
      && after[n].endpoints == AddAll([], target.endpoints)
      && Distinct(after[n].endpoints) && ToSet(after[n].endpoints) == ToSet(target.endpoints)
      && (Distinct(target.endpoints) ==> after[n].endpoints == target.endpoints)
      && after[n].msp.identity == stored[n].msp.identity
      && after[n].msp.revocationList == target.msp.revocationList
  {
    OrdererOrgsClosedForm(stored, wanted, n);
    ResetCanonical(stored[n].endpoints, LastNamed(wanted, n).endpoints);
  }

  lemma {:induction false} KeptSettles(g: OrgGroup, wanted: OrgGroup)
    requires KeptGroup(g, wanted).Ok? && AllParse(KeptGroup(g, wanted).value.endpoints)
    ensures KeptGroup(KeptGroup(g, wanted).value, wanted) == KeptGroup(g, wanted)
  {
    ResetSettles(g.endpoints, wanted.endpoints);
  }

  /** Once every wanted organisation is stored, one more update settles the map. */
  lemma {:induction false} OrdererOrgsSettle(stored: map<string, OrgGroup>, wanted: seq<Organization>)
    requires stored.Keys == Names(wanted)
    requires OrdererOrgsAfter(stored, wanted).Ok?
    requires OrdererOrgsAfter(OrdererOrgsAfter(stored, wanted).value, wanted).Ok?
    ensures OrdererOrgsAfter(OrdererOrgsAfter(stored, wanted).value, wanted).value
         == OrdererOrgsAfter(stored, wanted).value
  {
    var first := OrdererOrgsAfter(stored, wanted).value;
    var second := OrdererOrgsAfter(first, wanted).value;
    OrgTurnsKeys(KeptOrgs(stored, wanted), stored.Keys, wanted);
    OrgTurnsKeys(KeptOrgs(first, wanted), first.Keys, wanted);
    assert first.Keys == Names(wanted) && second.Keys == Names(wanted);
    forall n | n in Names(wanted)
      ensures second[n] == first[n]
    {
      OrdererOrgSettles(stored, wanted, n);
    }
  }

  lemma {:induction false} OrdererOrgSettles(stored: map<string, OrgGroup>, wanted: seq<Organization>, n: string)
    requires n in stored && n in Names(wanted)
    requires OrdererOrgsAfter(stored, wanted).Ok?
    requires OrdererOrgsAfter(OrdererOrgsAfter(stored, wanted).value, wanted).Ok?
    ensures var first := OrdererOrgsAfter(stored, wanted).value;
      var second := OrdererOrgsAfter(first, wanted).value;
      n in first && n in second && second[n] == first[n]
  {
    var first := OrdererOrgsAfter(stored, wanted).value;
    OrgTurnsGroup(KeptOrgs(stored, wanted), stored.Keys, wanted, n);
    OrgTurnsGroup(KeptOrgs(first, wanted), first.Keys, wanted, n);
    KeptSettles(stored[n], LastNamed(wanted, n));
  }

  // ----- The groups -----

  /** The orderer group apart from its organisations, after one update. */
  lemma {:induction false} OrdererAfterShape(o: OrdererGroup, t: OrdererTarget)
    requires PoliciesComplete(t.policies) && t.values.state in {StateNormal, StateMaintenance}
    ensures OrdererAfter(o, t).Ok? <==>
      && (t.values.kind.EtcdRaft? ==> o.values.kind.EtcdRaft? && ToSet(t.capabilityList) <= o.capabilities)
      && Distinct(t.capabilityList)
      && OrdererOrgsAfter(o.orgs, t.orgs).Ok?
    ensures OrdererAfter(o, t).Ok? ==>
      var a := OrdererAfter(o, t).value;
      && a.orgs == OrdererOrgsAfter(o.orgs, t.orgs).value
      && a.values.kind == t.values.kind && a.values.state == t.values.state
      && (t.values.kind.EtcdRaft? ==>
            a.values == o.values.(consenters := Reconciled(o.values.consenters, t.values.consenters),
                                  raftOptions := t.values.raftOptions, state := t.values.state,
                                  batchSize := t.values.batchSize, batchTimeout := t.values.batchTimeout)
            && a.policies == t.policies && a.capabilities == o.capabilities)
      && (t.values.kind.Bft? ==>
            a.values == t.values && a.capabilities == ToSet(t.capabilityList)
            && a.policies == (if o.values.kind.Bft? then BftPolicies(o.policies, t.policies) else o.policies))
  {
  }

  lemma {:induction false} OrdererSettles(o: OrdererGroup, t: OrdererTarget)
    requires PoliciesComplete(t.policies) && t.values.state in {StateNormal, StateMaintenance}
    requires OrdererAfter(o, t).Ok?
    requires var first := OrdererAfter(o, t).value;
      OrdererAfter(first, t).Ok? && OrdererAfter(OrdererAfter(first, t).value, t).Ok?
    ensures var second := OrdererAfter(OrdererAfter(o, t).value, t).value;
      OrdererAfter(second, t).value == second
  {
    var first := OrdererAfter(o, t).value;
    var second := OrdererAfter(first, t).value;
    OrdererAfterShape(o, t);
    OrdererAfterShape(first, t);
    OrdererAfterShape(second, t);
    OrgTurnsKeys(KeptOrgs(o.orgs, t.orgs), o.orgs.Keys, t.orgs);
    OrdererOrgsSettle(first.orgs, t.orgs);
    if t.values.kind.EtcdRaft? {
      ReconciledTwiceSettles(o.values.consenters, t.values.consenters);
    }
  }

  lemma {:induction false} ApplicationSettles(app: ApplicationGroup, t: ApplicationTarget)
    requires ApplicationAfter(app, t).Ok?
    ensures ApplicationAfter(ApplicationAfter(app, t).value, t) == ApplicationAfter(app, t)
  {
    var first := ApplicationAfter(app, t).value;
    assert ApplicationOrgsAfter(first.orgs, t.orgs) == first.orgs;
    assert app.acls + t.acls + t.acls == app.acls + t.acls;
  }

  /** A successful update as its three groups. */
  lemma {:induction false} MainAfterShape(c: ChannelConfig, t: ChannelTarget)
    ensures MainAfter(c, t).Ok? <==>
      OrdererAfter(c.orderer, t.orderer).Ok? && (Frozen(c, t) || PoliciesComplete(t.application.policies))
    ensures MainAfter(c, t).Ok? ==>
      var a := MainAfter(c, t).value;
      && a.orderer == OrdererAfter(c.orderer, t.orderer).value
      && (if Frozen(c, t) then a.application == c.application
          else ApplicationAfter(c.application, t.application) == Ok(a.application))
      && a.capabilities == (if EntersMaintenance(c, t) then c.capabilities else ToSet(t.capabilityList))
  {
  }

  // ----- Success and convergence of a whole reconcile -----

  predicate PlainSpec(spec: ChannelSpec)
    requires Maps(spec)
  {
    PlainOrgs(MapTarget(spec).orderer.orgs)
  }

  /** Exactly when the update of a spec with plain orderer endpoints succeeds: no raft target
      over a BFT channel, no repeated orderer capability, on the raft path none that is missing,
      stored endpoints that parse, and complete application policies unless frozen. */
  lemma {:induction false} MainSucceedsIff(c: ChannelConfig, spec: ChannelSpec)
    requires Maps(spec) && PlainSpec(spec)
    ensures var t := MapTarget(spec);
      MainAfter(c, t).Ok? <==>
      && (t.orderer.values.kind.EtcdRaft? ==>
            c.orderer.values.kind.EtcdRaft? && ToSet(spec.ordererCapabilities) <= c.orderer.capabilities)
      && Distinct(spec.ordererCapabilities)
      && KeptParse(c.orderer.orgs, t.orderer.orgs)
      && (Frozen(c, t) || PoliciesComplete(t.application.policies))
  {
    var t := MapTarget(spec);
    TargetFacts(spec);
    MainAfterShape(c, t);
    OrdererAfterShape(c.orderer, t.orderer);
    OrdererOrgsSucceed(c.orderer.orgs, t.orderer.orgs);
  }

  lemma {:induction false} KeptParseAgain(stored: map<string, OrgGroup>, wanted: seq<Organization>)
    requires PlainOrgs(wanted) && OrdererOrgsAfter(stored, wanted).Ok?
    ensures KeptParse(OrdererOrgsAfter(stored, wanted).value, wanted)
  {
    var after := OrdererOrgsAfter(stored, wanted).value;
    forall n | n in after && n in Names(wanted)
      ensures AllParse(after[n].endpoints)
    {
      OrgTurnsGroup(KeptOrgs(stored, wanted), stored.Keys, wanted, n);
      LastNamedMember(wanted, n);
      if n in stored {
        KeptSucceeds(stored[n], LastNamed(wanted, n));
      }
    }
  }

  /** Application policies only matter to a spec that does not ask for maintenance. */
  predicate PoliciesUsable(spec: ChannelSpec)
    requires Maps(spec)
  {
    WantedState(spec) == StateMaintenance || PoliciesComplete(MapTarget(spec).application.policies)
  }

  /** A reconcile that succeeded once succeeds again with the same spec. */
  lemma {:induction false} SucceedsAgain(c: ChannelConfig, spec: ChannelSpec)
    requires Maps(spec) && PlainSpec(spec) && PoliciesUsable(spec)
    requires MainAfter(c, MapTarget(spec)).Ok?
    ensures MainAfter(MainAfter(c, MapTarget(spec)).value, MapTarget(spec)).Ok?
  {
    var t := MapTarget(spec);
    TargetFacts(spec);
    MainAfterShape(c, t);
    OrdererAfterShape(c.orderer, t.orderer);
    KeptParseAgain(c.orderer.orgs, t.orderer.orgs);
    MainSucceedsIff(c, spec);
    MainSucceedsIff(MainAfter(c, t).value, spec);
  }

  /** Three updates towards one spec that all succeed end where the second ended, whatever
      the configuration they start from. */
  lemma {:induction false} TwoUpdatesSettle(c: ChannelConfig, spec: ChannelSpec)
    requires Maps(spec) && MainAfter(c, MapTarget(spec)).Ok?
    requires var t := MapTarget(spec); var first := MainAfter(c, t).value;
      MainAfter(first, t).Ok? && MainAfter(MainAfter(first, t).value, t).Ok?
    ensures var t := MapTarget(spec); var second := MainAfter(MainAfter(c, t).value, t).value;
      MainAfter(second, t) == Ok(second)
  {
    var t := MapTarget(spec);
    var first := MainAfter(c, t).value;
    var second := MainAfter(first, t).value;
    TargetFacts(spec);
    MainAfterShape(c, t);
    MainAfterShape(first, t);
    MainAfterShape(second, t);
    OrdererAfterShape(c.orderer, t.orderer);
    OrdererAfterShape(first.orderer, t.orderer);
    OrdererAfterShape(second.orderer, t.orderer);
    OrdererSettles(c.orderer, t.orderer);
    if !Frozen(first, t) {
      ApplicationSettles(first.application, t.application);
    }
  }

  const ALL_WELL := MainIo(true, true, true)

  lemma {:induction false} ErrorFreeStep(c: ChannelConfig, spec: ChannelSpec)
    requires Maps(spec) && MainAfter(c, MapTarget(spec)).Ok?
    ensures var next := MainAfter(c, MapTarget(spec)).value;
      MainStep(c, spec, ALL_WELL) == (next, if next == c then NoDifference else Submitted)
  {
  }

  /** When an update of organisations that are all stored succeeds and what it leaves parses, every
      wanted endpoint is plain: an entry given again for its name is parsed by the next turn. */
  lemma {:induction false} TurnsPlain(orgs: map<string, OrgGroup>, stored: set<string>, wanted: seq<Organization>)
    requires OrgTurns(orgs, stored, wanted).Ok? && Names(wanted) <= stored
    requires forall n :: n in Names(wanted) ==>
      n in OrgTurns(orgs, stored, wanted).value && AllParse(OrgTurns(orgs, stored, wanted).value[n].endpoints)
    ensures PlainOrgs(wanted)
    decreases |wanted|
  {
    if wanted != [] {
      var o, rest := wanted[0], wanted[1..];
      assert wanted == [o] + rest;
      assert Names(wanted) == {o.name} + Names(rest);
      var next := OrgTurn(orgs, stored, o).value;
      TurnsPlain(next, stored, rest);
      OrgTurnsGroup(next, stored, rest, o.name);
      assert AllParse(next[o.name].endpoints);
      ResetParses(orgs[o.name].endpoints, o.group.endpoints);
    }
  }

  /** Two updates in a row over organisations that are all stored: only with plain endpoints. */
  lemma {:induction false} TwiceOnlyPlain(stored: map<string, OrgGroup>, wanted: seq<Organization>)
    requires Names(wanted) <= stored.Keys && OrdererOrgsAfter(stored, wanted).Ok?
    requires OrdererOrgsAfter(OrdererOrgsAfter(stored, wanted).value, wanted).Ok?
    ensures PlainOrgs(wanted)
  {
    var after := OrdererOrgsAfter(stored, wanted).value;
    OrgTurnsKeys(KeptOrgs(stored, wanted), stored.Keys, wanted);
    forall n | n in Names(wanted)
      ensures n in after && AllParse(after[n].endpoints)
    {
      OrgTurnsGroup(KeptOrgs(after, wanted), after.Keys, wanted, n);
    }
    TurnsPlain(KeptOrgs(stored, wanted), stored.Keys, wanted);
  }

  /** The configuration two error-free reconciles lead to, failed ones leaving it as it is. */
  ghost function AfterTwo(c: ChannelConfig, spec: ChannelSpec): ChannelConfig {
    MainStep(MainStep(c, spec, ALL_WELL).0, spec, ALL_WELL).0
  }

  lemma {:induction false} SecondOnlyUsable(first: ChannelConfig, spec: ChannelSpec)
    requires Maps(spec) && first.orderer.orgs.Keys == Names(MapTarget(spec).orderer.orgs)
    requires MainAfter(first, MapTarget(spec)).Ok?
    requires MainAfter(MainAfter(first, MapTarget(spec)).value, MapTarget(spec)).Ok?
    ensures PlainSpec(spec) && PoliciesUsable(spec)
  {
    var t := MapTarget(spec);
    var second := MainAfter(first, t).value;
    TargetFacts(spec);
    TargetConsensus(spec);
    MainAfterShape(first, t);
    MainAfterShape(second, t);
    OrdererAfterShape(first.orderer, t.orderer);
    OrdererAfterShape(second.orderer, t.orderer);
    TwiceOnlyPlain(first.orderer.orgs, t.orderer.orgs);
  }

  /** After a first update that succeeds, the third succeeds exactly for specs with plain orderer
      endpoints and, when they ask for the normal state, complete application policies. */
  lemma {:induction false} ThirdSucceedsIff(c: ChannelConfig, spec: ChannelSpec)
    requires Maps(spec) && MainAfter(c, MapTarget(spec)).Ok?
    ensures MainAfter(AfterTwo(c, spec), MapTarget(spec)).Ok? <==> PlainSpec(spec) && PoliciesUsable(spec)
  {
    var t := MapTarget(spec);
    var first := MainAfter(c, t).value;
    ErrorFreeStep(c, spec);
    TargetFacts(spec);
    MainAfterShape(c, t);
    OrdererAfterShape(c.orderer, t.orderer);
    OrgTurnsKeys(KeptOrgs(c.orderer.orgs, t.orderer.orgs), c.orderer.orgs.Keys, t.orderer.orgs);
    if PlainSpec(spec) && PoliciesUsable(spec) {
      SucceedsAgain(c, spec);
      ErrorFreeStep(first, spec);
      SucceedsAgain(first, spec);
    }
    if MainAfter(AfterTwo(c, spec), t).Ok? {
      if MainAfter(first, t).Ok? {
        ErrorFreeStep(first, spec);
        SecondOnlyUsable(first, spec);
      }
    }
  }

  /** Repeated error-free reconciles of one spec, the first of which succeeds: the third finds no
      difference exactly for specs with plain orderer endpoints and usable policies. */
  lemma {:induction false} ThirdReconcileIsQuiet(c: ChannelConfig, spec: ChannelSpec)
    requires Maps(spec) && MainAfter(c, MapTarget(spec)).Ok?
    ensures MainStep(AfterTwo(c, spec), spec, ALL_WELL) == (AfterTwo(c, spec), NoDifference) <==>
            PlainSpec(spec) && PoliciesUsable(spec)
  {
    var t := MapTarget(spec);
    var first := MainAfter(c, t).value;
    ThirdSucceedsIff(c, spec);
    if PlainSpec(spec) && PoliciesUsable(spec) {
      ErrorFreeStep(c, spec);
      SucceedsAgain(c, spec);
      ErrorFreeStep(first, spec);
      TwoUpdatesSettle(c, spec);
      ErrorFreeStep(AfterTwo(c, spec), spec);
    }
  }

  ghost function Repeated(c: ChannelConfig, spec: ChannelSpec, ios: seq<MainIo>): ChannelConfig {
    if ios == [] then c else MainStep(Repeated(c, spec, ios[..|ios| - 1]), spec, ios[|ios| - 1]).0
  }

  /** Any other spec fails for good: after two reconciles every further one fails, however its
      outside calls go. */
  lemma {:induction false} OtherSpecsFailForGood(c: ChannelConfig, spec: ChannelSpec, ios: seq<MainIo>, io: MainIo)
    requires Maps(spec) && MainAfter(c, MapTarget(spec)).Ok?
    requires !(PlainSpec(spec) && PoliciesUsable(spec))
    ensures Repeated(AfterTwo(c, spec), spec, ios) == AfterTwo(c, spec)
    ensures MainStep(Repeated(AfterTwo(c, spec), spec, ios), spec, io) == (AfterTwo(c, spec), Failed)
  {
    if ios != [] {
      OtherSpecsFailForGood(c, spec, ios[..|ios| - 1], ios[|ios| - 1]);
    }
    ThirdSucceedsIff(c, spec);
  }

  /** On one group the condition on endpoints is exact: once endpoints have been reset, the next
      reset towards the same list works if and only if no wanted host holds a colon. */
  lemma {:induction false} NextResetIff(g: OrgGroup, wanted: OrgGroup)
    requires KeptGroup(g, wanted).Ok?
    ensures KeptGroup(KeptGroup(g, wanted).value, wanted).Ok? <==> PlainEndpoints(wanted.endpoints)
  {
    ResetParses(g.endpoints, wanted.endpoints);
  }

  /** A bracketed IPv6 endpoint passes the first reset, which drops its brackets, and makes the next
      one fail. */
  lemma {:induction false} Ipv6ResetWorksOnce(g: OrgGroup, host: string, port: int)
    requires g.endpoints == []
    requires ':' in host && '[' !in host && ']' !in host && MIN_INT64 <= port <= MAX_INT64
    ensures var wanted := g.(endpoints := ["[" + host + "]:" + Itoa(port)]);
      KeptGroup(g, wanted).Ok? && KeptGroup(KeptGroup(g, wanted).value, wanted).Err?
  {
    var e := "[" + host + "]:" + Itoa(port);
    var wanted := g.(endpoints := [e]);
    AtoiItoa(port);
    SplitBracketed(host, Itoa(port));
    assert ParseEndpoint(e) == Ok(Address(host, port));
    assert wanted.endpoints[0] in wanted.endpoints;
    NextResetIff(g, wanted);
  }

  /** A spec that gives an orderer organisation a bracketed IPv6 endpoint is accepted at most twice;
      from then on its channel cannot be reconciled. */
  lemma {:induction false} Ipv6EndpointBlocksReconcile(
    c: ChannelConfig, spec: ChannelSpec, o: Organization, host: string, port: int, ios: seq<MainIo>, io: MainIo)
    requires Maps(spec) && MainAfter(c, MapTarget(spec)).Ok?
    requires ':' in host && '[' !in host && ']' !in host && MIN_INT64 <= port <= MAX_INT64
    requires o in MapTarget(spec).orderer.orgs && "[" + host + "]:" + Itoa(port) in o.group.endpoints
    ensures MainStep(Repeated(AfterTwo(c, spec), spec, ios), spec, io) == (AfterTwo(c, spec), Failed)
  {
    var e := "[" + host + "]:" + Itoa(port);
    AtoiItoa(port);
    SplitBracketed(host, Itoa(port));
    assert ParseEndpoint(e) == Ok(Address(host, port));
    assert !PlainEndpoints(o.group.endpoints);
    OtherSpecsFailForGood(c, spec, ios, io);
  }

  // ----- A spec that is accepted twice -----

  /** One orderer organisation, new to the channel, with one endpoint. */
  ghost predicate OneNewOrg(c: ChannelConfig, spec: ChannelSpec, name: string, e: string)
    requires Maps(spec)
  {
    var orgs := MapTarget(spec).orderer.orgs;
    |orgs| == 1 && orgs[0].name == name && orgs[0].group.endpoints == [e] && name !in c.orderer.orgs
  }

  lemma {:induction false} NewOrgStored(stored: map<string, OrgGroup>, o: Organization)
    requires o.name !in stored
    ensures OrdererOrgsAfter(stored, [o]) == Ok(map[o.name := o.group])
  {
    assert Names([o]) == {o.name};
    assert KeptOrgs(stored, [o]) == map[];
    assert [o][1..] == [];
    assert OrgTurns(map[o.name := o.group], stored.Keys, []) == Ok(map[o.name := o.group]);
  }

  lemma {:induction false} StoredOrgReset(o: Organization)
    requires AllParse(o.group.endpoints)
    ensures OrdererOrgsAfter(map[o.name := o.group], [o]).Ok?
  {
    var stored := map[o.name := o.group];
    assert Names([o]) == {o.name};
    assert KeptOrgs(stored, [o]) == stored;
    assert [o][1..] == [];
    var next := OrgTurn(stored, stored.Keys, o).value;
    assert OrgTurns(next, stored.Keys, []) == Ok(next);
  }

  /** A spec with one new orderer organisation and a bracketed IPv6 endpoint: two error-free
      reconciles succeed, and no later one does. */
  lemma {:induction false} Ipv6AcceptedTwice(c: ChannelConfig, spec: ChannelSpec, name: string, host: string, port: int)
    requires Maps(spec) && spec.ordererType == "etcdraft" && PoliciesUsable(spec)
    requires ':' in host && '[' !in host && ']' !in host && MIN_INT64 <= port <= MAX_INT64
    requires OneNewOrg(c, spec, name, "[" + host + "]:" + Itoa(port))
    requires c.orderer.values.kind.EtcdRaft?
    requires Distinct(spec.ordererCapabilities) && ToSet(spec.ordererCapabilities) <= c.orderer.capabilities
    requires Frozen(c, MapTarget(spec)) || PoliciesComplete(MapTarget(spec).application.policies)
    ensures var t := MapTarget(spec);
      && MainAfter(c, t).Ok? && MainAfter(MainAfter(c, t).value, t).Ok?
      && forall io :: MainStep(AfterTwo(c, spec), spec, io).1 == Failed
  {
    var t := MapTarget(spec);
    var o := t.orderer.orgs[0];
    assert t.orderer.orgs == [o];
    var e := "[" + host + "]:" + Itoa(port);
    AtoiItoa(port);
    SplitBracketed(host, Itoa(port));
    assert ParseEndpoint(e) == Ok(Address(host, port));
    TargetFacts(spec);
    NewOrgStored(c.orderer.orgs, o);
    StoredOrgReset(o);
    MainAfterShape(c, t);
    OrdererAfterShape(c.orderer, t.orderer);
    var first := MainAfter(c, t).value;
    MainAfterShape(first, t);
    OrdererAfterShape(first.orderer, t.orderer);
    assert o in t.orderer.orgs && e in o.group.endpoints;
    forall io ensures MainStep(AfterTwo(c, spec), spec, io).1 == Failed {
      Ipv6EndpointBlocksReconcile(c, spec, o, host, port, [], io);
    }
  }

  /** There is such a channel and such a spec. */
  lemma {:induction false} Ipv6AcceptedTwiceExample() returns (c: ChannelConfig, spec: ChannelSpec)
    ensures Maps(spec)
    ensures var t := MapTarget(spec);
      && MainAfter(c, t).Ok? && MainAfter(MainAfter(c, t).value, t).Ok?
      && forall io :: MainStep(AfterTwo(c, spec), spec, io).1 == Failed
  {
    var host: string := "::1";
    var e := "[" + host + "]:" + Itoa(7050);
    var org := OrdererOrgSpec("OrdererMSP", NoCerts, [e], []);
    spec := ChannelSpec(None, [], [org], [], [], [], [], "etcdraft", "STATE_NORMAL", [], SmartBftOptions(map[]), None,
                        DurationUnset, None, [], None, map[], [], []);
    var values := OrdererValues(EtcdRaft, StateNormal, [], NO_RAFT_OPTIONS, [], None, DEFAULT_BATCH_SIZE, 0);
    c := ChannelConfig(ApplicationGroup(map[], map[], {}, map[]), OrdererGroup(values, {}, map[], map[]), {});
    assert host[0] == ':';
    ExampleMaps(spec, org);
    Ipv6AcceptedTwice(c, spec, "OrdererMSP", host, 7050);
  }

  lemma {:induction false} ExampleMaps(spec: ChannelSpec, org: OrdererOrgSpec)
    requires spec.ordererOrgs == [org] && org.certs.NoCerts? && org.revocations == [] && spec.externalOrdererOrgs == []
    requires spec.peerOrgs == [] && spec.externalPeerOrgs == [] && spec.consenters == [] && spec.ordererType == "etcdraft"
    requires spec.batchTimeout == DurationUnset && spec.applicationPolicies.None?
    ensures Maps(spec) && PoliciesComplete(MapTarget(spec).application.policies)
    ensures var orgs := MapTarget(spec).orderer.orgs;
      |orgs| == 1 && orgs[0].name == org.mspId && orgs[0].group.endpoints == org.endpoints
  {
  }
}
