/** Runs of one channel: any interleaving of main and follower reconciles, each atomic. */
module ChannelRuns {
  import opened Collections
  import opened ChannelModel
  import opened Consenters
  import opened MainUpdate
  import opened ChannelMapping
  import opened Reconcilers

  datatype Event =
    | Main(spec: ChannelSpec, io: MainIo)
    | Follower(follower: FollowerSpec, fio: FollowerIo)

  ghost function Step(c: ChannelConfig, e: Event): (ChannelConfig, Outcome) {
    match e
    case Main(spec, io) => MainStep(c, spec, io)
    case Follower(f, io) => FollowerStep(c, f, io)
  }

  ghost function Run(c: ChannelConfig, events: seq<Event>): ChannelConfig {
    if events == [] then c else Step(Run(c, events[..|events| - 1]), events[|events| - 1]).0
  }

  lemma RunSnoc(c: ChannelConfig, events: seq<Event>, k: nat)
    requires k < |events|
    ensures Run(c, events[..k + 1]) == Step(Run(c, events[..k]), events[k]).0
  {
    assert events[..k + 1][..k] == events[..k];
  }

  // ----- Invariants of every reachable configuration -----

  ghost predicate WellFormed(c: ChannelConfig) {
    && c.orderer.values.state in {StateNormal, StateMaintenance}
    && DistinctAddresses(c.orderer.values.consenters)
    && forall m :: m in c.application.orgs ==> Distinct(c.application.orgs[m].anchorPeers)
  }

  ghost predicate SpecsDistinct(events: seq<Event>) {
    forall e :: e in events && e.Main? ==> DistinctSpecAddresses(e.spec)
  }

  /** The orderer values a successful update leaves, whatever the organisations do. */
  lemma {:induction false} OrdererAfterValues(o: OrdererGroup, t: OrdererTarget)
    requires OrdererAfter(o, t).Ok? && t.values.state in {StateNormal, StateMaintenance}
    ensures var v := OrdererAfter(o, t).value.values;
      && v.state == t.values.state && v.kind == t.values.kind
      && v.batchSize == t.values.batchSize && v.batchTimeout == t.values.batchTimeout
      && v.consenters == (if t.values.kind.EtcdRaft? then Reconciled(o.values.consenters, t.values.consenters)
                          else t.values.consenters)
      && v.raftOptions == t.values.raftOptions
      && (t.values.kind.Bft? ==> v.consenterMapping == t.values.consenterMapping && v.smartBft == t.values.smartBft)
  {
  }

  lemma {:induction false} StepKeepsWellFormed(c: ChannelConfig, e: Event)
    requires WellFormed(c) && (e.Main? ==> DistinctSpecAddresses(e.spec))
    ensures WellFormed(Step(c, e).0)
  {
    var next := Step(c, e).0;
    match e {
      case Main(spec, io) =>
        if next != c {
          var t := MapTarget(spec);
          TargetFacts(spec);
          OrdererAfterValues(c.orderer, t.orderer);
          if t.orderer.values.kind.EtcdRaft? {
            ReconciledIsWanted(c.orderer.values.consenters, t.orderer.values.consenters);
          }
          MainAnchorPeers(c, spec);
        }
      case Follower(f, io) =>
        AddAllMembers([], f.anchorPeers);
    }
  }

  lemma {:induction false} MainAnchorPeers(c: ChannelConfig, spec: ChannelSpec)
    requires WellFormed(c) && Maps(spec) && MainAfter(c, MapTarget(spec)).Ok?
    ensures forall m :: m in MainAfter(c, MapTarget(spec)).value.application.orgs ==>
      Distinct(MainAfter(c, MapTarget(spec)).value.application.orgs[m].anchorPeers)
  {
    var t := MapTarget(spec);
    var next := MainAfter(c, t).value;
    TargetFacts(spec);
    forall m | m in next.application.orgs
      ensures Distinct(next.application.orgs[m].anchorPeers)
    {
      if !Frozen(c, t) && m !in c.application.orgs {
        LastNamedMember(t.application.orgs, m);
      }
    }
  }

  /** From a well-formed configuration, and with specs that name each consenter address once,
      every reachable configuration is well-formed. */
  lemma {:induction false} ReachableWellFormed(c: ChannelConfig, events: seq<Event>)
    requires WellFormed(c) && SpecsDistinct(events)
    ensures WellFormed(Run(c, events))
  {
    if events != [] {
      var prefix := events[..|events| - 1];
      assert forall e :: e in prefix ==> e in events;
      ReachableWellFormed(c, prefix);
      StepKeepsWellFormed(Run(c, prefix), events[|events| - 1]);
    }
  }

  // ----- What a submitted update leaves -----

  lemma {:induction false} OrdererAfterOrgs(o: OrdererGroup, t: OrdererTarget)
    requires OrdererAfter(o, t).Ok?
    ensures OrdererOrgsAfter(o.orgs, t.orgs).Ok?
    ensures OrdererAfter(o, t).value.orgs == OrdererOrgsAfter(o.orgs, t.orgs).value
    ensures OrdererAfter(o, t).value.orgs.Keys == Names(t.orgs)
  {
    OrgTurnsKeys(KeptOrgs(o.orgs, t.orgs), o.orgs.Keys, t.orgs);
  }

  lemma {:induction false} SubmittedOrderer(c: ChannelConfig, spec: ChannelSpec, io: MainIo)
    requires MainStep(c, spec, io).1 == Submitted
    ensures Maps(spec) && OrdererAfter(c.orderer, MapTarget(spec).orderer).Ok?
    ensures MainStep(c, spec, io).0.orderer == OrdererAfter(c.orderer, MapTarget(spec).orderer).value
  {
  }

  /** What the orderer group of a submitted update has in common with its spec. */
  lemma {:induction false} SubmittedOrdererMeetsSpec(c: ChannelConfig, spec: ChannelSpec, io: MainIo)
    requires WellFormed(c) && MainStep(c, spec, io).1 == Submitted && DistinctSpecAddresses(spec)
    ensures var after, t := MainStep(c, spec, io).0.orderer, MapTarget(spec).orderer;
      && after.values.state == t.values.state && after.values.kind == t.values.kind
      && multiset(after.values.consenters) == multiset(t.values.consenters)
      && after.values.batchSize == t.values.batchSize && after.values.batchTimeout == t.values.batchTimeout
      && after.values.raftOptions == t.values.raftOptions
      && (t.values.kind.Bft? ==>
            after.values.consenterMapping == t.values.consenterMapping && after.values.smartBft == t.values.smartBft)
      && PoliciesMeet(c.orderer, t, after.policies)
      && after.capabilities == (if t.values.kind.Bft? then ToSet(spec.ordererCapabilities) else c.orderer.capabilities)
      && after.orgs.Keys == Names(t.orgs)
  {
    var t := MapTarget(spec);
    TargetFacts(spec);
    SubmittedOrderer(c, spec, io);
    OrdererAfterValues(c.orderer, t.orderer);
    OrdererAfterOrgs(c.orderer, t.orderer);
    ConsensusAfterPolicies(c.orderer, t.orderer);
    if t.orderer.values.kind.EtcdRaft? {
      ReconciledIsWanted(c.orderer.values.consenters, t.orderer.values.consenters);
    }
  }

  /** What the channel and application groups of a submitted update have in common with it. */
  lemma {:induction false} SubmittedApplicationMeetsSpec(c: ChannelConfig, spec: ChannelSpec, io: MainIo)
    requires MainStep(c, spec, io).1 == Submitted
    ensures var next, t := MainStep(c, spec, io).0, MapTarget(spec);
      && (!EntersMaintenance(c, t) ==> next.capabilities == ToSet(spec.capabilities))
      && (!Frozen(c, t) ==>
            next.application.orgs.Keys == PeerMspIds(spec)
            && next.application.capabilities == ToSet(spec.applicationCapabilities)
            && ApplicationMeets(c.application, t.application, next.application)
            && forall m :: m in PeerMspIds(spec) && m in c.application.orgs ==>
                 next.application.orgs[m] == c.application.orgs[m])
  {
    TargetFacts(spec);
    if !Frozen(c, MapTarget(spec)) { ApplicationAfterMeets(c.application, MapTarget(spec).application); }
  }

  // ----- Capabilities -----

  /** On the raft path no reconcile changes the orderer capabilities. */
  lemma {:induction false} RaftKeepsOrdererCapabilities(c: ChannelConfig, spec: ChannelSpec, io: MainIo)
    requires spec.ordererType == "etcdraft"
    ensures MainStep(c, spec, io).0.orderer.capabilities == c.orderer.capabilities
  {
  }

  // ----- Maintenance -----

  /** Into, inside and out of maintenance no step of either reconciler changes the application
      group; a follower does nothing at all inside it; and the step that enters it leaves the
      channel capabilities alone. */
  lemma {:induction false} MaintenanceFreezes(c: ChannelConfig, e: Event)
    requires InMaintenance(c) || InMaintenance(Step(c, e).0)
    ensures Step(c, e).0.application == c.application
    ensures !InMaintenance(c) ==> Step(c, e).0.capabilities == c.capabilities
    ensures InMaintenance(c) && e.Follower? ==> Step(c, e) == (c, Failed)
  {
    if e.Main? {
      if MainStep(c, e.spec, e.io).1 == Submitted {
        TargetFacts(e.spec);
        SubmittedOrderer(c, e.spec, e.io);
        OrdererAfterValues(c.orderer, MapTarget(e.spec).orderer);
      }
    }
  }

  lemma RunStepFreezes(c: ChannelConfig, events: seq<Event>, k: nat)
    requires k < |events|
    requires InMaintenance(Run(c, events[..k])) || InMaintenance(Run(c, events[..k + 1]))
    ensures Run(c, events[..k + 1]).application == Run(c, events[..k]).application
  {
    RunSnoc(c, events, k);
    MaintenanceFreezes(Run(c, events[..k]), events[k]);
  }

  /** Over every run: between a configuration and a later one with only maintenance in between,
      the application group is the same. */
  lemma {:induction false} MaintenanceSpanFreezes(c: ChannelConfig, events: seq<Event>, i: nat, j: nat)
    requires i < j <= |events|
    requires forall k :: i < k < j ==> InMaintenance(Run(c, events[..k]))
    requires j == i + 1 ==> InMaintenance(Run(c, events[..i])) || InMaintenance(Run(c, events[..j]))
    ensures Run(c, events[..j]).application == Run(c, events[..i]).application
    decreases j - i
  {
    RunStepFreezes(c, events, j - 1);
    if j > i + 1 {
      MaintenanceSpanFreezes(c, events, i, j - 1);
    }
  }

  // ----- Non-interference -----

  ghost predicate SucceedsFor(c: ChannelConfig, e: Event, m: string) {
    e.Follower? && e.follower.mspId == m && Step(c, e).1 != Failed
  }

  /** The last follower reconcile for `m` that succeeded in the run. */
  ghost function LastFollower(c: ChannelConfig, events: seq<Event>, m: string): Option<FollowerSpec> {
    if events == [] then None
    else
      var prefix, e := events[..|events| - 1], events[|events| - 1];
      if SucceedsFor(Run(c, prefix), e, m) then Some(e.follower) else LastFollower(c, prefix, m)
  }

  ghost predicate NamesOrg(e: Event, m: string) {
    e.Main? ==> m in PeerMspIds(e.spec)
  }

  /** One main reconcile keeps a stored application organisation, unchanged, exactly when its
      spec lists the organisation or the application is frozen or nothing is submitted. */
  lemma {:induction false} MainKeepsOrg(c: ChannelConfig, spec: ChannelSpec, io: MainIo, m: string)
    requires m in c.application.orgs
    ensures var (next, outcome) := MainStep(c, spec, io);
      && (m in next.application.orgs <==>
            (outcome != Submitted || Frozen(c, MapTarget(spec)) || m in PeerMspIds(spec)))
      && (m in next.application.orgs ==> next.application.orgs[m] == c.application.orgs[m])
  {
    if MainStep(c, spec, io).1 == Submitted { TargetFacts(spec); }
  }

  lemma {:induction false} FollowerSucceeds(c: ChannelConfig, e: Event, m: string)
    requires m in c.application.orgs && SucceedsFor(c, e, m)
    ensures PemsParse(e.follower.revocations)
    ensures Step(c, e).0.application.orgs == c.application.orgs[m := Configured(c.application.orgs[m], e.follower)]
  {
    var next := FollowerAfter(c, e.follower).value;
    assert next.application.orgs == c.application.orgs[m := Configured(c.application.orgs[m], e.follower)];
  }

  lemma {:induction false} StepKeepsOrg(c: ChannelConfig, e: Event, m: string)
    requires m in c.application.orgs && NamesOrg(e, m) && !SucceedsFor(c, e, m)
    ensures m in Step(c, e).0.application.orgs && Step(c, e).0.application.orgs[m] == c.application.orgs[m]
  {
    if e.Main? { MainKeepsOrg(c, e.spec, e.io, m); }
  }

  /** Reconfiguring twice is the same as only the second time. */
  lemma {:induction false} ConfiguredTwice(g: OrgGroup, f: FollowerSpec, h: FollowerSpec)
    requires PemsParse(f.revocations) && PemsParse(h.revocations)
    ensures Configured(Configured(g, f), h) == Configured(g, h)
  {
  }

  /** However main and follower reconciles interleave, as long as every main spec lists `m`,
      the organisation stays and its whole group is its original one with the anchor peers and
      revocation list of the last follower reconcile for `m` that succeeded. */
  lemma {:induction false} FollowerSettingsSurvive(c: ChannelConfig, events: seq<Event>, m: string)
    requires m in c.application.orgs
    requires forall e :: e in events ==> NamesOrg(e, m)
    ensures var after, last := Run(c, events).application.orgs, LastFollower(c, events, m);
      m in after
      && match last
         case None => after[m] == c.application.orgs[m]
         case Some(f) =>
           PemsParse(f.revocations) && after[m] == Configured(c.application.orgs[m], f)
           && Carries(after[m], c.application.orgs[m], f)
  {
    if events != [] {
      var prefix, e := events[..|events| - 1], events[|events| - 1];
      assert forall x :: x in prefix ==> x in events;
      FollowerSettingsSurvive(c, prefix, m);
      var before := Run(c, prefix);
      if SucceedsFor(before, e, m) {
        FollowerSucceeds(before, e, m);
        ConfiguredCarries(c.application.orgs[m], e.follower);
        var last := LastFollower(c, prefix, m);
        if last.Some? { ConfiguredTwice(c.application.orgs[m], last.value, e.follower); }
      } else {
        StepKeepsOrg(before, e, m);
      }
    }
  }

  /** Followers of different organisations commute: either order reaches the same
      configuration, and neither changes the other's outcome. */
  lemma {:induction false} FollowersCommute(c: ChannelConfig, e: Event, f: Event)
    requires e.Follower? && f.Follower? && e.follower.mspId != f.follower.mspId
    ensures Step(Step(c, e).0, f).0 == Step(Step(c, f).0, e).0
    ensures Step(Step(c, e).0, f).1 == Step(c, f).1
    ensures Step(Step(c, f).0, e).1 == Step(c, e).1
  {
    FollowerOutcomeLocal(c, e, f);
    FollowerOutcomeLocal(c, f, e);
    FollowerEffect(c, e);
    FollowerEffect(c, f);
    FollowerEffect(Step(c, e).0, f);
    FollowerEffect(Step(c, f).0, e);
    var m, n := e.follower.mspId, f.follower.mspId;
    var orgs := c.application.orgs;
    if Step(c, e).1 != Failed && Step(c, f).1 != Failed {
      var g := Configured(orgs[m], e.follower);
      var h := Configured(orgs[n], f.follower);
      var there: map<string, OrgGroup> := orgs[m := g][n := h];
      assert there == orgs[n := h][m := g];
    }
  }

  ghost function WithGroup(c: ChannelConfig, m: string, g: OrgGroup): ChannelConfig {
    c.(application := c.application.(orgs := c.application.orgs[m := g]))
  }

  /** A follower reconcile as an update of one group. */
  lemma {:induction false} FollowerEffect(c: ChannelConfig, e: Event)
    requires e.Follower?
    ensures Step(c, e).1 == Failed ==> Step(c, e).0 == c
    ensures Step(c, e).1 != Failed ==>
      e.follower.mspId in c.application.orgs && PemsParse(e.follower.revocations)
      && Step(c, e).0
         == WithGroup(c, e.follower.mspId, Configured(c.application.orgs[e.follower.mspId], e.follower))
  {
  }

  lemma {:induction false} FollowerOutcomeLocal(c: ChannelConfig, e: Event, f: Event)
    requires e.Follower? && f.Follower? && e.follower.mspId != f.follower.mspId
    ensures Step(Step(c, e).0, f).1 == Step(c, f).1
  {
    FollowerEffect(c, e);
    FollowerDecision(c, f);
    FollowerDecision(Step(c, e).0, f);
  }

  /** A follower's outcome depends only on the state and on its own group. */
  lemma {:induction false} FollowerDecision(c: ChannelConfig, e: Event)
    requires e.Follower?
    ensures Step(c, e).1
      == if !e.fio.joined || InMaintenance(c) || e.follower.mspId !in c.application.orgs
            || !Distinct(c.application.orgs[e.follower.mspId].anchorPeers) || !PemsParse(e.follower.revocations)
         then Failed
         else if Configured(c.application.orgs[e.follower.mspId], e.follower) == c.application.orgs[e.follower.mspId]
         then NoDifference
         else if e.fio.saved then Submitted else Failed
  {
    var m := e.follower.mspId;
    if FollowerAfter(c, e.follower).Ok? {
      var g := Configured(c.application.orgs[m], e.follower);
      assert c.application.orgs[m := g][m] == g;
      if g == c.application.orgs[m] {
        assert c.application.orgs[m := g] == c.application.orgs;
      }
    }
  }

  lemma RunConcat(c: ChannelConfig, a: seq<Event>, b: seq<Event>)
    ensures Run(c, a + b) == Run(Run(c, a), b)
    decreases |b|
  {
    if b == [] {
      assert a + b == a;
    } else {
      assert (a + b)[..|a + b| - 1] == a + b[..|b| - 1];
      RunConcat(c, a, b[..|b| - 1]);
    }
  }

  lemma RunTwo(c: ChannelConfig, e: Event, f: Event)
    ensures Run(c, [e, f]) == Step(Step(c, e).0, f).0
  {
    var both := [e, f];
    RunSnoc(c, both, 0);
    RunSnoc(c, both, 1);
    assert both[..0] == [] && both[..0 + 1] == both[..1] && both[..1 + 1] == both;
  }

  /** In any run two neighbouring follower reconciles of different organisations can be swapped. */
  lemma {:induction false} FollowersSwap(c: ChannelConfig, before: seq<Event>, e: Event, f: Event, after: seq<Event>)
    requires e.Follower? && f.Follower? && e.follower.mspId != f.follower.mspId
    ensures Run(c, before + [e, f] + after) == Run(c, before + [f, e] + after)
  {
    RunConcat(c, before, [e, f]);
    RunConcat(c, before, [f, e]);
    RunTwo(Run(c, before), e, f);
    RunTwo(Run(c, before), f, e);
    FollowersCommute(Run(c, before), e, f);
    RunConcat(c, before + [e, f], after);
    RunConcat(c, before + [f, e], after);
  }
}
