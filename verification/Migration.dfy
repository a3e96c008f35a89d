/** The raft-to-BFT migration script driving the main reconciler. The script patches the channel
    resource four times and after each patch waits until the published config map shows the
    change. Submissions of the main reconciler, its later copying of the configuration into the
    map, and follower reconciles interleave with it freely. */
module Migration {
  import opened Collections
  import opened HostPort
  import opened MainUpdate
  import opened ChannelModel
  import opened ChannelMapping
  import opened Reconcilers
  import opened ChannelRuns
  import opened Convergence

  /** Where the script is: which patch it has made last and is waiting for. */
  datatype Phase = Started | SettingMaintenance | SettingCapabilities | SettingBft | SettingNormal | Done

  function Rank(p: Phase): nat {
    match p
    case Started => 0
    case SettingMaintenance => 1
    case SettingCapabilities => 2
    case SettingBft => 3
    case SettingNormal => 4
    case Done => 5
  }

  /** The identity certificate and MSP the operator supplies for one consenter. */
  datatype Pick = Pick(identity: Option<Pem>, mspId: string)

  // ----- The patches -----

  const V3: string := "V3_0"

  function SetState(spec: ChannelSpec, state: string): ChannelSpec {
    spec.(state := state)
  }

  function SetCapabilities(spec: ChannelSpec): ChannelSpec {
    spec.(capabilities := [V3])
  }

  predicate PicksUsable(consenters: seq<ConsenterSpec>, picks: seq<Pick>) {
    |picks| >= |consenters|
    && forall i :: 0 <= i < |consenters| ==> picks[i].identity.Some? && picks[i].mspId != ""
  }

  function MapPick(c: ConsenterSpec, p: Pick, id: nat): BftConsenterSpec
    requires p.identity.Some?
  {
    BftConsenterSpec(id, c.host, c.port, p.mspId, p.identity.value, c.tlsCert, c.tlsCert)
  }

  function MapPicks(consenters: seq<ConsenterSpec>, picks: seq<Pick>): seq<BftConsenterSpec>
    requires PicksUsable(consenters, picks)
  {
    seq(|consenters|, i requires 0 <= i < |consenters| => MapPick(consenters[i], picks[i], i + 1))
  }

  const SMART_BFT_DEFAULTS := SmartBftOptions(map[
    "collectTimeout" := "1s", "decisionsPerLeader" := "3", "incomingMessageBufferSize" := "200",
    "leaderHeartbeatCount" := "10", "leaderHeartbeatTimeout" := "1m0s", "leaderRotation" := "0",
    "requestAutoRemoveTimeout" := "3m", "requestBatchMaxBytes" := "10485760",
    "requestBatchMaxCount" := "100", "requestBatchMaxInterval" := "50ms",
    "requestComplainTimeout" := "20s", "requestForwardTimeout" := "2s", "requestMaxBytes" := "10485760",
    "requestPoolSize" := "100000", "speedUpViewChange" := "false", "syncOnStart" := "true",
    "viewChangeResendInterval" := "5s", "viewChangeTimeout" := "20s"])

  function SetBft(spec: ChannelSpec, picks: seq<Pick>): ChannelSpec
    requires PicksUsable(spec.consenters, picks)
  {
    spec.(ordererType := "BFT",
          consenterMapping := MapPicks(spec.consenters, picks),
          smartBft := SMART_BFT_DEFAULTS)
  }

  /** One mapped consenter for each raft consenter: its place from one on, its host and port, the MSP and
      identity picked for it, and its TLS certificate for both roles. */
  ghost predicate Picked(mapping: seq<BftConsenterSpec>, consenters: seq<ConsenterSpec>, picks: seq<Pick>) {
    && |mapping| == |consenters| <= |picks|
    && forall i :: 0 <= i < |mapping| ==>
         && mapping[i].id == i + 1
         && mapping[i].host == consenters[i].host && mapping[i].port == consenters[i].port
         && mapping[i].mspId == picks[i].mspId && picks[i].identity == Some(mapping[i].identity)
         && mapping[i].clientTlsCert == consenters[i].tlsCert && mapping[i].serverTlsCert == consenters[i].tlsCert
  }

  /** The patch changes the type, the mapping and the BFT options, and nothing else. */
  ghost predicate IsBftPatch(spec: ChannelSpec, picks: seq<Pick>, patched: ChannelSpec) {
    && patched.ordererType == "BFT" && Picked(patched.consenterMapping, spec.consenters, picks)
    && patched == spec.(ordererType := patched.ordererType, consenterMapping := patched.consenterMapping,
                        smartBft := patched.smartBft)
  }

  lemma PatchIsBft(spec: ChannelSpec, picks: seq<Pick>)
    requires PicksUsable(spec.consenters, picks)
    ensures IsBftPatch(spec, picks, SetBft(spec, picks))
  {
  }

  method BuildBftPatch(spec: ChannelSpec, picks: seq<Pick>) returns (r: Option<ChannelSpec>)
    requires |picks| >= |spec.consenters|
    ensures r.Some? <==> PicksUsable(spec.consenters, picks)
    ensures r.Some? <==> forall i :: 0 <= i < |spec.consenters| ==> picks[i].identity.Some? && picks[i].mspId != ""
    ensures r.Some? ==> r.value == SetBft(spec, picks)
    ensures r.Some? ==> IsBftPatch(spec, picks, r.value)
  {
    var mapping: seq<BftConsenterSpec> := [];
    var idx: nat := 1;
    for i := 0 to |spec.consenters|
      invariant idx == i + 1 && |mapping| == i
      invariant forall k :: 0 <= k < i ==>
        picks[k].identity.Some? && picks[k].mspId != "" && mapping[k] == MapPick(spec.consenters[k], picks[k], k + 1)
    {
      var orderer := spec.consenters[i];
      if picks[i].identity.None? || picks[i].mspId == "" { return None; }
      mapping := mapping + [BftConsenterSpec(idx, orderer.host, orderer.port, picks[i].mspId,
                                             picks[i].identity.value, orderer.tlsCert, orderer.tlsCert)];
      idx := idx + 1;
    }
    assert mapping == MapPicks(spec.consenters, picks);
    PatchIsBft(spec, picks);
    r := Some(spec.(ordererType := "BFT", consenterMapping := mapping, smartBft := SMART_BFT_DEFAULTS));
  }

  // ----- The composed system -----

  /** What the main reconciler still has to do after a submission that did not fail: fetch the stored
      configuration again, and then write what it fetched into the map. */
  datatype Saving = NotSaving | ToFetch | ToWrite(fetched: ChannelConfig)

  /** `entry` remembers the application group at the last entry into maintenance. */
  datatype System = System(
    spec: ChannelSpec,
    config: ChannelConfig,
    configMap: ChannelConfig,
    saving: Saving,
    phase: Phase,
    entry: Option<ApplicationGroup>)

  /** A fetch or a write that fails is a step that does not happen; the next reconcile of the channel
      starts over. */
  datatype Action =
    | Script(picks: seq<Pick>)
    | ReconcileMain(io: MainIo)
    | FetchBlock
    | WriteMap
    | ReconcileFollower(follower: FollowerSpec, fio: FollowerIo)

  /** One turn of the script: move on once the published map shows the last patch. */
  ghost function ScriptTurn(s: System, picks: seq<Pick>): System {
    match s.phase
    case Started => s.(spec := SetState(s.spec, "STATE_MAINTENANCE"), phase := SettingMaintenance)
    case SettingMaintenance =>
      if InMaintenance(s.configMap) then s.(spec := SetCapabilities(s.spec), phase := SettingCapabilities) else s
    case SettingCapabilities =>
      if s.configMap.capabilities == {V3} && PicksUsable(s.spec.consenters, picks)
      then s.(spec := SetBft(s.spec, picks), phase := SettingBft) else s
    case SettingBft =>
      if s.configMap.orderer.values.kind.Bft? then s.(spec := SetState(s.spec, "STATE_NORMAL"), phase := SettingNormal)
      else s
    case SettingNormal =>
      if s.configMap.orderer.values.state == StateNormal then s.(phase := Done) else s
    case Done => s
  }

  ghost function WithConfig(s: System, next: ChannelConfig): System {
    s.(config := next,
       entry := if !InMaintenance(s.config) && InMaintenance(next) then Some(s.config.application) else s.entry)
  }

  ghost function AfterMain(s: System, next: ChannelConfig, succeeded: bool): System {
    WithConfig(s, next).(saving := if succeeded then ToFetch else NotSaving)
  }

  ghost function Next(s: System, a: Action): System {
    match a
    case Script(picks) => ScriptTurn(s, picks)
    case ReconcileMain(io) =>
      var (next, outcome) := MainStep(s.config, s.spec, io);
      AfterMain(s, next, outcome != Failed)
    case FetchBlock => if s.saving.ToFetch? then s.(saving := ToWrite(s.config)) else s
    case WriteMap => if s.saving.ToWrite? then s.(configMap := s.saving.fetched, saving := NotSaving) else s
    case ReconcileFollower(f, io) => WithConfig(s, FollowerStep(s.config, f, io).0)
  }

  ghost function RunSystem(s: System, actions: seq<Action>): System {
    if actions == [] then s else Next(RunSystem(s, actions[..|actions| - 1]), actions[|actions| - 1])
  }

  /** A raft channel out of maintenance, with a resource and a published map that agree. */
  ghost predicate Init(s: System) {
    && s.phase == Started && s.entry == None
    && s.spec.ordererType == "etcdraft" && WantedState(s.spec) == StateNormal
    && s.config.orderer.values.kind == EtcdRaft && s.config.orderer.values.state == StateNormal
    && s.configMap == s.config && s.saving == NotSaving
  }

  // ----- The invariant -----

  ghost predicate SpecFollowsPhase(s: System) {
    && (s.spec.ordererType == if Rank(s.phase) < 3 then "etcdraft" else "BFT")
    && (WantedState(s.spec) == if 1 <= Rank(s.phase) <= 3 then StateMaintenance else StateNormal)
    && (Rank(s.phase) >= 2 ==> s.spec.capabilities == [V3])
  }

  ghost predicate StateFollowsPhase(s: System) {
    && s.config.orderer.values.state in {StateNormal, StateMaintenance}
    && (Rank(s.phase) == 0 ==> !InMaintenance(s.config) && !InMaintenance(s.configMap))
    && (Rank(s.phase) <= 3 && InMaintenance(s.configMap) ==> InMaintenance(s.config))
    && (2 <= Rank(s.phase) <= 3 ==> InMaintenance(s.config))
  }

  ghost predicate KindFollowsPhase(s: System) {
    && (s.config.orderer.values.kind.Bft? ==> Rank(s.phase) >= 3 && s.config.capabilities == {V3})
    && (s.configMap.orderer.values.kind.Bft? ==> s.config.orderer.values.kind.Bft?)
    && (Rank(s.phase) >= 4 ==> s.config.orderer.values.kind.Bft?)
  }

  /** Followers do not touch the orderer group or the channel capabilities. */
  ghost predicate FetchedFollowsConfig(s: System) {
    s.saving.ToWrite? ==>
      s.saving.fetched.orderer == s.config.orderer && s.saving.fetched.capabilities == s.config.capabilities
  }

  ghost predicate Inv(s: System) {
    && SpecFollowsPhase(s) && StateFollowsPhase(s) && KindFollowsPhase(s) && FetchedFollowsConfig(s)
    && (InMaintenance(s.config) ==> s.entry == Some(s.config.application))
  }

  /** All the invariant needs to know of a main reconcile from `c` to `next`. */
  ghost predicate MainMove(c: ChannelConfig, spec: ChannelSpec, next: ChannelConfig) {
    next == c
    || (&& next.orderer.values.state == WantedState(spec)
        && (next.orderer.values.kind == if spec.ordererType == "BFT" then Bft else EtcdRaft)
        && (InMaintenance(c) || WantedState(spec) == StateNormal ==> next.capabilities == ToSet(spec.capabilities))
        && (InMaintenance(c) || InMaintenance(next) ==> next.application == c.application))
  }

  lemma {:induction false} MainFacts(c: ChannelConfig, spec: ChannelSpec, io: MainIo)
    ensures MainMove(c, spec, MainStep(c, spec, io).0)
    ensures MainStep(c, spec, io).1 != Submitted ==> MainStep(c, spec, io).0 == c
  {
    if MainStep(c, spec, io).1 == Submitted {
      TargetFacts(spec);
      TargetConsensus(spec);
      SubmittedOrderer(c, spec, io);
      OrdererAfterValues(c.orderer, MapTarget(spec).orderer);
      SubmittedApplicationMeetsSpec(c, spec, io);
      if InMaintenance(c) || InMaintenance(MainStep(c, spec, io).0) {
        MaintenanceFreezes(c, Main(spec, io));
      }
    }
  }

  lemma {:induction false} FollowerFacts(c: ChannelConfig, f: FollowerSpec, io: FollowerIo)
    ensures var next := FollowerStep(c, f, io).0;
      next.orderer == c.orderer && next.capabilities == c.capabilities && (InMaintenance(c) ==> next == c)
  {
  }

  lemma {:induction false} MoveKeepsInv(s: System, next: ChannelConfig, succeeded: bool)
    requires Inv(s) && MainMove(s.config, s.spec, next)
    ensures Inv(AfterMain(s, next, succeeded))
  {
    assert ToSet([V3]) == {V3};
  }

  lemma {:induction false} MainKeepsInv(s: System, io: MainIo)
    requires Inv(s)
    ensures Inv(Next(s, ReconcileMain(io)))
  {
    MainFacts(s.config, s.spec, io);
    var (next, outcome) := MainStep(s.config, s.spec, io);
    MoveKeepsInv(s, next, outcome != Failed);
  }

  lemma {:induction false} NextKeepsInv(s: System, a: Action)
    requires Inv(s)
    ensures Inv(Next(s, a))
  {
    match a {
      case Script(picks) =>
      case FetchBlock =>
      case WriteMap =>
      case ReconcileMain(io) => MainKeepsInv(s, io);
      case ReconcileFollower(f, io) => FollowerFacts(s.config, f, io);
    }
  }

  lemma {:induction false} InvHolds(s: System, actions: seq<Action>)
    requires Init(s)
    ensures Inv(RunSystem(s, actions))
  {
    if actions != [] {
      var prefix := actions[..|actions| - 1];
      InvHolds(s, prefix);
      NextKeepsInv(RunSystem(s, prefix), actions[|actions| - 1]);
    }
  }

  // ----- Safety over every run -----

  /** The consensus type changes only in maintenance, and only from raft to BFT; a BFT channel
      always has V3_0 as its only capability. */
  lemma {:induction false} TypeChangesInMaintenance(s: System, actions: seq<Action>, a: Action)
    requires Init(s)
    ensures var before := RunSystem(s, actions).config;
      var after := Next(RunSystem(s, actions), a).config;
      && (after.orderer.values.kind != before.orderer.values.kind ==>
            InMaintenance(before) && InMaintenance(after) && after.orderer.values.kind == Bft)
      && (after.orderer.values.kind == Bft ==> after.capabilities == {V3})
  {
    var t := RunSystem(s, actions);
    InvHolds(s, actions);
    NextKeepsInv(t, a);
    match a {
      case Script(picks) =>
      case FetchBlock =>
      case WriteMap =>
      case ReconcileMain(io) => MainFacts(t.config, t.spec, io);
      case ReconcileFollower(f, io) => FollowerFacts(t.config, f, io);
    }
  }

  /** While the channel is in maintenance, and through the step that leaves it, the application
      group is the one it was entered with. */
  lemma {:induction false} ApplicationFrozenInMaintenance(s: System, actions: seq<Action>, a: Action)
    requires Init(s)
    ensures var t := RunSystem(s, actions);
      InMaintenance(t.config) ==>
        t.entry == Some(t.config.application) && Next(t, a).config.application == t.config.application
  {
    var t := RunSystem(s, actions);
    InvHolds(s, actions);
    if InMaintenance(t.config) {
      match a {
        case Script(picks) =>
        case FetchBlock =>
        case WriteMap =>
        case ReconcileMain(io) => MaintenanceFreezes(t.config, Main(t.spec, io));
        case ReconcileFollower(f, io) => FollowerFacts(t.config, f, io);
      }
    }
  }

  /** What an observer of the published map is promised: while it shows maintenance, the application
      group is the one maintenance was entered with. */
  ghost predicate Promise(t: System) {
    InMaintenance(t.configMap) ==> t.entry == Some(t.config.application)
  }

  /** The channel has left maintenance and the map does not show it yet. */
  ghost predicate InWindow(t: System) {
    InMaintenance(t.configMap) && !InMaintenance(t.config)
  }

  /** A follower step that leaves the application group alone: something fails, or its organisation
      is configured so already. */
  ghost predicate FollowerHarmless(c: ChannelConfig, f: FollowerSpec, io: FollowerIo) {
    || !io.joined || !io.saved
    || f.mspId !in c.application.orgs
    || !Distinct(c.application.orgs[f.mspId].anchorPeers)
    || !PemsParse(f.revocations)
    || Configured(c.application.orgs[f.mspId], f) == c.application.orgs[f.mspId]
  }

  /** A main step that leaves it alone: something fails, or the group is as the resource wants it. */
  ghost predicate MainHarmless(c: ChannelConfig, spec: ChannelSpec, io: MainIo) {
    || !io.fetched || !io.signed || !io.saved
    || !Maps(spec)
    || MainAfter(c, MapTarget(spec)).Err?
    || ApplicationAfter(c.application, MapTarget(spec).application) == Ok(c.application)
  }

  ghost predicate Harmless(t: System, a: Action) {
    match a
    case ReconcileMain(io) => MainHarmless(t.config, t.spec, io)
    case ReconcileFollower(f, io) => FollowerHarmless(t.config, f, io)
    case _ => true
  }

  lemma {:induction false} FollowerHarmlessIff(c: ChannelConfig, f: FollowerSpec, io: FollowerIo)
    requires !InMaintenance(c)
    ensures FollowerStep(c, f, io).0.application == c.application <==> FollowerHarmless(c, f, io)
  {
    if f.mspId in c.application.orgs && PemsParse(f.revocations) {
      var g := Configured(c.application.orgs[f.mspId], f);
      var next := c.application.orgs[f.mspId := g];
      assert next[f.mspId] == g;
      if g == c.application.orgs[f.mspId] { assert next == c.application.orgs; }
    }
  }

  lemma {:induction false} MainHarmlessIff(c: ChannelConfig, spec: ChannelSpec, io: MainIo)
    requires !InMaintenance(c) && WantedState(spec) == StateNormal
    ensures MainStep(c, spec, io).0.application == c.application <==> MainHarmless(c, spec, io)
  {
    if Maps(spec) {
      TargetFacts(spec);
      TargetConsensus(spec);
      MainAfterShape(c, MapTarget(spec));
    }
  }

  /** What a step does to the promise: it can only break it in the window, by not being harmless. */
  lemma {:induction false} PromiseStep(t: System, a: Action)
    requires Inv(t) && Promise(t)
    ensures Promise(Next(t, a)) <==> (InWindow(t) ==> Harmless(t, a))
  {
    NextKeepsInv(t, a);
    match a {
      case Script(picks) =>
      case FetchBlock =>
      case WriteMap =>
      case ReconcileMain(io) =>
        MainFacts(t.config, t.spec, io);
        if InMaintenance(t.config) {
          MaintenanceFreezes(t.config, Main(t.spec, io));
        } else if InMaintenance(t.configMap) {
          MainHarmlessIff(t.config, t.spec, io);
        }
      case ReconcileFollower(f, io) =>
        FollowerFacts(t.config, f, io);
        if !InMaintenance(t.config) { FollowerHarmlessIff(t.config, f, io); }
    }
  }

  /** The promise holds at every point of the run. */
  ghost predicate Kept(s: System, actions: seq<Action>) {
    Promise(RunSystem(s, actions)) && (actions == [] || Kept(s, actions[..|actions| - 1]))
  }

  /** Every step made in the window is harmless when it is made. */
  ghost predicate QuietWindows(s: System, actions: seq<Action>) {
    actions == []
    || (var prefix := actions[..|actions| - 1];
        && QuietWindows(s, prefix)
        && (InWindow(RunSystem(s, prefix)) ==> Harmless(RunSystem(s, prefix), actions[|actions| - 1])))
  }

  /** Over every run, exactly: the observer's promise holds throughout if and only if between a leave
      and the moment the map shows it every follower step and every further main step fails or finds
      the application group as it wants it. */
  lemma {:induction false} FrozenUntilObservedIff(s: System, actions: seq<Action>)
    requires Init(s)
    ensures Kept(s, actions) <==> QuietWindows(s, actions)
  {
    if actions != [] {
      var prefix := actions[..|actions| - 1];
      FrozenUntilObservedIff(s, prefix);
      InvHolds(s, prefix);
      if Kept(s, prefix) {
        PromiseStep(RunSystem(s, prefix), actions[|actions| - 1]);
      }
    }
  }

  /** No reconcile runs in the window. */
  ghost predicate UntouchedWindows(s: System, actions: seq<Action>) {
    forall k :: 0 <= k < |actions| && InWindow(RunSystem(s, actions[..k])) ==>
      !actions[k].ReconcileMain? && !actions[k].ReconcileFollower?
  }

  lemma {:induction false} UntouchedIsQuiet(s: System, actions: seq<Action>, n: nat)
    requires n <= |actions| && UntouchedWindows(s, actions)
    ensures QuietWindows(s, actions[..n])
  {
    if n > 0 {
      UntouchedIsQuiet(s, actions, n - 1);
      assert actions[..n][..n - 1] == actions[..n - 1];
    }
  }

  /** In particular in every run in which no reconcile comes between a leave and its copy in the map
      the application group is the one maintenance was entered with, for as long as an observer of
      the map sees maintenance. */
  lemma ApplicationFrozenUntilObserved(s: System, actions: seq<Action>)
    requires Init(s) && UntouchedWindows(s, actions)
    ensures Kept(s, actions)
  {
    UntouchedIsQuiet(s, actions, |actions|);
    assert actions[..|actions|] == actions;
    FrozenUntilObservedIff(s, actions);
  }

  /** The main reconcile with these outcomes takes the channel out of maintenance. */
  ghost predicate Leaves(t: System, io: MainIo) {
    InMaintenance(t.config) && !InMaintenance(Next(t, ReconcileMain(io)).config)
  }

  /** A follower that gives an organisation other anchor peers than it has. */
  function Changing(g: OrgGroup, m: string): FollowerSpec {
    FollowerSpec(m, if g.anchorPeers == [] then [Address("peer", 7051)] else [], [])
  }

  lemma {:induction false} ChangingHarms(c: ChannelConfig, m: string)
    requires m in c.application.orgs && Distinct(c.application.orgs[m].anchorPeers)
    ensures !FollowerHarmless(c, Changing(c.application.orgs[m], m), FollowerIo(true, true))
  {
    var g := c.application.orgs[m];
    var f := Changing(g, m);
    assert AddAll([], f.anchorPeers) == f.anchorPeers != g.anchorPeers;
  }

  lemma {:induction false} LeavesIntoWindow(t: System, leave: MainIo)
    requires Inv(t) && InMaintenance(t.configMap) && Leaves(t, leave)
    ensures var left := Next(t, ReconcileMain(leave));
      Inv(left) && Promise(left) && InWindow(left) && left.saving == ToFetch && left.config.application == t.config.application
  {
    NextKeepsInv(t, ReconcileMain(leave));
    MaintenanceFreezes(t.config, Main(t.spec, leave));
    NotFailed(t.config, t.spec, leave);
  }

  lemma CopyFollows(t: System)
    requires t.saving == ToFetch
    ensures Next(Next(t, FetchBlock), WriteMap).configMap == t.config
  {
  }

  lemma FollowerKeepsSaving(t: System, f: FollowerSpec, io: FollowerIo)
    ensures Next(t, ReconcileFollower(f, io)).saving == t.saving
  {
  }

  /** Every window can break it: at each leave the observer has not seen, with an organisation whose
      anchor peers are distinct, one follower step before the copy does, although the copy follows. */
  lemma {:induction false} WindowCanBreak(t: System, leave: MainIo, m: string) returns (a: Action)
    requires Inv(t) && InMaintenance(t.configMap) && Leaves(t, leave)
    requires m in t.config.application.orgs && Distinct(t.config.application.orgs[m].anchorPeers)
    ensures var u := Next(Next(t, ReconcileMain(leave)), a);
      !Promise(u) && u.saving == ToFetch && Next(Next(u, FetchBlock), WriteMap).configMap == u.config
  {
    var left := Next(t, ReconcileMain(leave));
    LeavesIntoWindow(t, leave);
    var f := Changing(left.config.application.orgs[m], m);
    a := ReconcileFollower(f, FollowerIo(true, true));
    ChangingHarms(left.config, m);
    PromiseStep(left, a);
    FollowerKeepsSaving(left, f, FollowerIo(true, true));
    CopyFollows(Next(left, a));
  }

  /** A main reconcile that does not fail makes the complete update, also when it finds no difference. */
  lemma {:induction false} NotFailed(c: ChannelConfig, spec: ChannelSpec, io: MainIo)
    ensures MainStep(c, spec, io).1 != Failed ==>
      Maps(spec) && MainAfter(c, MapTarget(spec)) == Ok(MainStep(c, spec, io).0)
    ensures MainStep(c, spec, io).1 == Failed ==> MainStep(c, spec, io).0 == c
  {
  }

  // ----- Completion -----

  /** What the operator has to have in order beforehand: readable certificates, plain orderer
      endpoints, orderer capabilities already present, and more than four consenters. */
  ghost predicate Ready(s: System, picks: seq<Pick>) {
    && Maps(s.spec) && PlainSpec(s.spec)
    && KeptParse(s.config.orderer.orgs, MapTarget(s.spec).orderer.orgs)
    && Distinct(s.spec.ordererCapabilities) && ToSet(s.spec.ordererCapabilities) <= s.config.orderer.capabilities
    && |s.spec.consenters| > 4 && PicksUsable(s.spec.consenters, picks)
    && forall i :: 0 <= i < |s.spec.consenters| ==> picks[i].identity.value.Pem?
  }

  /** A patched resource keeps its organisations and orderer capabilities. */
  lemma {:induction false} PatchedSpecMaps(spec: ChannelSpec, patched: ChannelSpec)
    requires Maps(spec) && PlainSpec(spec) && ConsensusParses(patched)
    requires patched.ordererOrgs == spec.ordererOrgs && patched.externalOrdererOrgs == spec.externalOrdererOrgs
    requires patched.peerOrgs == spec.peerOrgs && patched.externalPeerOrgs == spec.externalPeerOrgs
    requires patched.batchTimeout == spec.batchTimeout
    ensures Maps(patched) && PlainSpec(patched)
    ensures MapTarget(patched).orderer.orgs == MapTarget(spec).orderer.orgs
  {
  }

  lemma {:induction false} BftSpecParses(spec: ChannelSpec, picks: seq<Pick>)
    requires PicksUsable(spec.consenters, picks) && |spec.consenters| > 4
    requires forall c :: c in spec.consenters ==> c.tlsCert.Pem?
    requires forall i :: 0 <= i < |spec.consenters| ==> picks[i].identity.value.Pem?
    ensures ConsensusParses(SetBft(spec, picks))
  {
    var mapping := MapPicks(spec.consenters, picks);
    forall c | c in mapping
      ensures BftConsenterParses(c)
    {
      var i :| 0 <= i < |mapping| && mapping[i] == c;
      assert spec.consenters[i] in spec.consenters;
    }
  }

  /** What a successful update of a spec with plain endpoints leaves. */
  lemma {:induction false} UpdateFacts(c: ChannelConfig, spec: ChannelSpec)
    requires Maps(spec) && PlainSpec(spec) && MainAfter(c, MapTarget(spec)).Ok?
    ensures var next := MainAfter(c, MapTarget(spec)).value;
      && KeptParse(next.orderer.orgs, MapTarget(spec).orderer.orgs)
      && next.orderer.values.state == WantedState(spec)
      && (next.orderer.values.kind == if spec.ordererType == "BFT" then Bft else EtcdRaft)
      && (InMaintenance(c) ==> next.capabilities == ToSet(spec.capabilities))
      && next.orderer.capabilities ==
         (if spec.ordererType == "etcdraft" then c.orderer.capabilities else ToSet(spec.ordererCapabilities))
      && (InMaintenance(c) || WantedState(spec) == StateMaintenance ==> next.application == c.application)
  {
    var t := MapTarget(spec);
    TargetFacts(spec);
    TargetConsensus(spec);
    MainAfterShape(c, t);
    OrdererAfterShape(c.orderer, t.orderer);
    KeptParseAgain(c.orderer.orgs, t.orderer.orgs);
  }

  /** One error-free reconcile with the copy that follows it. */
  ghost function WellReconciled(s: System): System {
    Next(Next(Next(s, ReconcileMain(ALL_WELL)), FetchBlock), WriteMap)
  }

  /** One patch and one such reconcile. */
  ghost function PatchAndReconcile(s: System, picks: seq<Pick>): System {
    WellReconciled(Next(s, Script(picks)))
  }

  lemma WellReconciledCopies(s: System)
    requires Maps(s.spec) && MainAfter(s.config, MapTarget(s.spec)).Ok?
    ensures var t := WellReconciled(s);
      var next := MainAfter(s.config, MapTarget(s.spec)).value;
      t.config == next && t.configMap == next && t.spec == s.spec && t.phase == s.phase
  {
    ErrorFreeStep(s.config, s.spec);
  }

  /** A reconcile that succeeds, submitted or without difference, and is published. */
  lemma {:induction false} MainTurn(s: System)
    requires Maps(s.spec) && PlainSpec(s.spec) && MainAfter(s.config, MapTarget(s.spec)).Ok?
    ensures var t := WellReconciled(s);
      var next := MainAfter(s.config, MapTarget(s.spec)).value;
      && t.config == next && t.configMap == next && t.spec == s.spec && t.phase == s.phase
      && KeptParse(next.orderer.orgs, MapTarget(s.spec).orderer.orgs)
      && next.orderer.values.state == WantedState(s.spec)
      && (next.orderer.values.kind == if s.spec.ordererType == "BFT" then Bft else EtcdRaft)
      && (InMaintenance(s.config) ==> next.capabilities == ToSet(s.spec.capabilities))
      && (s.spec.ordererType == "etcdraft" ==> next.orderer.capabilities == s.config.orderer.capabilities)
      && (InMaintenance(s.config) || WantedState(s.spec) == StateMaintenance ==>
            next.application == s.config.application)
  {
    UpdateFacts(s.config, s.spec);
    WellReconciledCopies(s);
  }

  /** The state of a run before its next patch: published, settled, and not yet disturbed. */
  ghost predicate Settled(t: System, original: ChannelSpec, application: ApplicationGroup) {
    && t.configMap == t.config && t.config.application == application
    && Maps(original) && PlainSpec(original) && original.ordererType == "etcdraft"
    && Distinct(original.ordererCapabilities)
    && KeptParse(t.config.orderer.orgs, MapTarget(original).orderer.orgs)
  }

  /** The first half of a completed run, maintenance entered. */
  lemma {:induction false} CompletesMaintenance(s: System, picks: seq<Pick>)
    requires Init(s) && Ready(s, picks)
    ensures var t := PatchAndReconcile(s, picks);
      && t.phase == SettingMaintenance && t.spec == SetState(s.spec, "STATE_MAINTENANCE")
      && Settled(t, s.spec, s.config.application) && InMaintenance(t.config)
      && t.config.orderer.values.kind == EtcdRaft && t.config.orderer.capabilities == s.config.orderer.capabilities
  {
    var s1 := Next(s, Script(picks));
    PatchedSpecMaps(s.spec, s1.spec);
    MainSucceedsIff(s.config, s1.spec);
    MainTurn(s1);
  }

  /** Then V3_0 published. */
  lemma {:induction false} CompletesCapabilities(t: System, original: ChannelSpec, application: ApplicationGroup, picks: seq<Pick>)
    requires t.phase == SettingMaintenance && t.spec == SetState(original, "STATE_MAINTENANCE")
    requires Settled(t, original, application) && InMaintenance(t.config)
    requires t.config.orderer.values.kind == EtcdRaft
    requires ToSet(original.ordererCapabilities) <= t.config.orderer.capabilities
    ensures var u := PatchAndReconcile(t, picks);
      && u.phase == SettingCapabilities && u.spec == SetCapabilities(SetState(original, "STATE_MAINTENANCE"))
      && Settled(u, original, application) && InMaintenance(u.config) && u.config.capabilities == {V3}
  {
    var t1 := Next(t, Script(picks));
    PatchedSpecMaps(original, t1.spec);
    MainSucceedsIff(t.config, t1.spec);
    MainTurn(t1);
    assert ToSet([V3]) == {V3};
  }

  /** Then BFT published. */
  lemma {:induction false} CompletesBft(t: System, original: ChannelSpec, application: ApplicationGroup, picks: seq<Pick>)
    requires t.phase == SettingCapabilities && t.spec == SetCapabilities(SetState(original, "STATE_MAINTENANCE"))
    requires Settled(t, original, application) && InMaintenance(t.config) && t.config.capabilities == {V3}
    requires |original.consenters| > 4 && PicksUsable(original.consenters, picks)
    requires forall i :: 0 <= i < |original.consenters| ==> picks[i].identity.value.Pem?
    ensures var u := PatchAndReconcile(t, picks);
      && u.phase == SettingBft && u.spec == SetBft(SetCapabilities(SetState(original, "STATE_MAINTENANCE")), picks)
      && Settled(u, original, application) && InMaintenance(u.config) && u.config.capabilities == {V3}
      && u.config.orderer.values.kind == Bft && ConsensusParses(u.spec)
  {
    var t1 := Next(t, Script(picks));
    BftSpecParses(t.spec, picks);
    PatchedSpecMaps(original, t1.spec);
    MainSucceedsIff(t.config, t1.spec);
    MainTurn(t1);
    assert ToSet([V3]) == {V3};
  }

  /** And maintenance left. */
  lemma {:induction false} CompletesNormal(t: System, original: ChannelSpec, application: ApplicationGroup, picks: seq<Pick>)
    requires PicksUsable(original.consenters, picks)
    requires t.phase == SettingBft && t.spec == SetBft(SetCapabilities(SetState(original, "STATE_MAINTENANCE")), picks)
    requires Settled(t, original, application) && InMaintenance(t.config)
    requires t.config.orderer.values.kind == Bft && ConsensusParses(t.spec)
    ensures var u := Next(PatchAndReconcile(t, picks), Script(picks));
      && u.phase == Done && u.config.orderer.values.state == StateNormal
      && u.config.orderer.values.kind == Bft && u.config.capabilities == {V3}
      && u.config.application == application
  {
    var t1 := Next(t, Script(picks));
    PatchedSpecMaps(original, t1.spec);
    MainSucceedsIff(t.config, t1.spec);
    MainTurn(t1);
    assert ToSet([V3]) == {V3};
  }

  /** A confirmed run with one error-free reconcile after each patch and nothing else ends in a normal
      BFT channel with V3_0 alone and the application group it started with. */
  lemma {:induction false} UndisturbedMigrationCompletes(s: System, picks: seq<Pick>)
    requires Init(s) && Ready(s, picks)
    ensures var t := PatchAndReconcile(PatchAndReconcile(PatchAndReconcile(PatchAndReconcile(s, picks), picks), picks), picks);
      var u := Next(t, Script(picks));
      && u.phase == Done && u.config.orderer.values.state == StateNormal
      && u.config.orderer.values.kind == Bft && u.config.capabilities == {V3}
      && u.config.application == s.config.application
  {
    var s1 := PatchAndReconcile(s, picks);
    CompletesMaintenance(s, picks);
    var s2 := PatchAndReconcile(s1, picks);
    CompletesCapabilities(s1, s.spec, s.config.application, picks);
    var s3 := PatchAndReconcile(s2, picks);
    CompletesBft(s2, s.spec, s.config.application, picks);
    CompletesNormal(s3, s.spec, s.config.application, picks);
  }

  // ----- Completion of every run that reconciles often enough -----

  ghost predicate GoodPicks(consenters: seq<ConsenterSpec>, picks: seq<Pick>) {
    && |consenters| > 4 && PicksUsable(consenters, picks)
    && forall i :: 0 <= i < |consenters| ==> picks[i].identity.value.Pem?
  }

  /** A resource that can be mapped and applied to the configuration, whatever its state. */
  ghost predicate Applicable(c: ChannelConfig, spec: ChannelSpec) {
    && Maps(spec) && PlainSpec(spec) && PoliciesComplete(MapTarget(spec).application.policies)
    && KeptParse(c.orderer.orgs, MapTarget(spec).orderer.orgs)
    && Distinct(spec.ordererCapabilities) && ToSet(spec.ordererCapabilities) <= c.orderer.capabilities
    && forall n :: n in spec.consenters ==> n.tlsCert.Pem?
  }

  ghost predicate MapFollowsPhase(t: System) {
    && (2 <= Rank(t.phase) <= 3 ==> InMaintenance(t.configMap))
    && (Rank(t.phase) >= 4 && !InMaintenance(t.configMap) ==> !InMaintenance(t.config))
    && (Rank(t.phase) == 5 ==> !InMaintenance(t.configMap))
  }

  ghost predicate Live(t: System) {
    Inv(t) && MapFollowsPhase(t) && Applicable(t.config, t.spec)
  }

  /** A configuration shows what the script waits for in the phase. */
  ghost predicate Shows(phase: Phase, c: ChannelConfig) {
    match phase
    case Started => true
    case SettingMaintenance => InMaintenance(c)
    case SettingCapabilities => c.capabilities == {V3}
    case SettingBft => c.orderer.values.kind.Bft?
    case SettingNormal => c.orderer.values.state == StateNormal
    case Done => true
  }

  /** The published map does. */
  ghost predicate Met(t: System) {
    Shows(t.phase, t.configMap)
  }

  /** The stored configuration does. */
  ghost predicate ConfigMet(t: System) {
    Shows(t.phase, t.config)
  }

  lemma {:induction false} PatchedApplicable(c: ChannelConfig, spec: ChannelSpec, patched: ChannelSpec)
    requires Applicable(c, spec) && ConsensusParses(patched)
    requires patched == spec.(state := patched.state, capabilities := patched.capabilities, ordererType := patched.ordererType,
                              consenterMapping := patched.consenterMapping, smartBft := patched.smartBft)
    ensures Applicable(c, patched)
  {
    PatchedSpecMaps(spec, patched);
    assert MapTarget(patched).application.policies == MapTarget(spec).application.policies;
  }

  lemma BftApplicable(c: ChannelConfig, spec: ChannelSpec, picks: seq<Pick>)
    requires Applicable(c, spec) && GoodPicks(spec.consenters, picks)
    ensures Applicable(c, SetBft(spec, picks))
  {
    BftSpecParses(spec, picks);
    PatchedApplicable(c, spec, SetBft(spec, picks));
  }

  lemma {:induction false} PatchApplicable(t: System, picks: seq<Pick>)
    requires Applicable(t.config, t.spec) && GoodPicks(t.spec.consenters, picks)
    ensures var u := Next(t, Script(picks));
      Applicable(u.config, u.spec) && u.spec.consenters == t.spec.consenters
  {
    match t.phase {
      case Started => PatchedApplicable(t.config, t.spec, SetState(t.spec, "STATE_MAINTENANCE"));
      case SettingMaintenance => PatchedApplicable(t.config, t.spec, SetCapabilities(t.spec));
      case SettingCapabilities => BftApplicable(t.config, t.spec, picks);
      case SettingBft => PatchedApplicable(t.config, t.spec, SetState(t.spec, "STATE_NORMAL"));
      case SettingNormal =>
      case Done =>
    }
  }

  /** The script moves on, by one phase, exactly when the published map shows what it waits for. */
  lemma {:induction false} ScriptMoves(t: System, picks: seq<Pick>)
    requires Inv(t) && MapFollowsPhase(t) && PicksUsable(t.spec.consenters, picks)
    ensures var u := Next(t, Script(picks));
      && MapFollowsPhase(u)
      && (u == t || Rank(u.phase) == Rank(t.phase) + 1)
      && (u != t <==> Met(t) && Rank(t.phase) < 5)
  {
  }

  lemma ScriptKeepsLive(t: System, picks: seq<Pick>)
    requires Live(t) && GoodPicks(t.spec.consenters, picks)
    ensures Live(Next(t, Script(picks))) && Next(t, Script(picks)).spec.consenters == t.spec.consenters
  {
    NextKeepsInv(t, Script(picks));
    ScriptMoves(t, picks);
    PatchApplicable(t, picks);
  }

  lemma {:induction false} MainKeepsApplicable(t: System, io: MainIo)
    requires Applicable(t.config, t.spec)
    ensures Applicable(Next(t, ReconcileMain(io)).config, t.spec)
  {
    NotFailed(t.config, t.spec, io);
    if MainStep(t.config, t.spec, io).1 != Failed { UpdateFacts(t.config, t.spec); }
  }

  lemma {:induction false} MainKeepsMap(t: System, io: MainIo)
    requires Inv(t) && MapFollowsPhase(t)
    ensures var u := Next(t, ReconcileMain(io));
      MapFollowsPhase(u) && u.phase == t.phase && u.spec == t.spec && u.configMap == t.configMap
  {
    MainFacts(t.config, t.spec, io);
  }

  lemma {:induction false} UpdateShows(t: System)
    requires Inv(t) && Applicable(t.config, t.spec) && MainAfter(t.config, MapTarget(t.spec)).Ok?
    ensures Shows(t.phase, MainAfter(t.config, MapTarget(t.spec)).value)
  {
    UpdateFacts(t.config, t.spec);
    assert ToSet([V3]) == {V3};
  }

  lemma {:induction false} MainMeets(t: System, io: MainIo)
    requires Inv(t) && Applicable(t.config, t.spec)
    ensures var u := Next(t, ReconcileMain(io));
      u.phase == t.phase && (u.saving == NotSaving || (u.saving == ToFetch && Shows(t.phase, u.config)))
  {
    NotFailed(t.config, t.spec, io);
    if MainStep(t.config, t.spec, io).1 != Failed { UpdateShows(t); }
  }

  lemma MainKeepsLive(t: System, io: MainIo)
    requires Live(t)
    ensures var u := Next(t, ReconcileMain(io));
      && Live(u) && u.phase == t.phase && u.spec == t.spec && u.configMap == t.configMap
      && (u.saving == NotSaving || (u.saving == ToFetch && ConfigMet(u)))
  {
    NextKeepsInv(t, ReconcileMain(io));
    MainKeepsApplicable(t, io);
    MainKeepsMap(t, io);
    MainMeets(t, io);
  }

  lemma {:induction false} WellMainSucceeds(t: System)
    requires Live(t)
    ensures Next(t, ReconcileMain(ALL_WELL)).saving == ToFetch
  {
    MainSucceedsIff(t.config, t.spec);
    ErrorFreeStep(t.config, t.spec);
  }

  lemma {:induction false} SavingKeepsLive(t: System, a: Action)
    requires Live(t) && (a.FetchBlock? || a.WriteMap?)
    ensures var u := Next(t, a);
      && Live(u) && u.phase == t.phase && u.spec == t.spec && (ConfigMet(t) <==> ConfigMet(u))
      && (u.configMap == t.configMap || (ConfigMet(t) ==> Met(u)))
      && (a.WriteMap? && t.saving.ToWrite? && ConfigMet(t) ==> Met(u))
  {
    NextKeepsInv(t, a);
  }

  lemma {:induction false} FollowerKeepsLive(t: System, f: FollowerSpec, io: FollowerIo)
    requires Live(t)
    ensures var u := Next(t, ReconcileFollower(f, io));
      Live(u) && u.phase == t.phase && u.spec == t.spec && u.saving == t.saving
      && (Met(t) <==> Met(u)) && (ConfigMet(t) <==> ConfigMet(u))
  {
    NextKeepsInv(t, ReconcileFollower(f, io));
    FollowerFacts(t.config, f, io);
  }

  /** How many turns of the script must have moved it on: the first, and then each that comes after a
      further error-free reconcile, its fetch and its write; and how much of those is done: all (3),
      the fetch (2), the submission (1) or nothing. A reconcile that may fail undoes unfinished ones. */
  function SureTurns(actions: seq<Action>): (nat, nat) {
    if actions == [] then (0, 3)
    else CountTurn(SureTurns(actions[..|actions| - 1]), actions[|actions| - 1])
  }

  function CountTurn(sure: (nat, nat), a: Action): (nat, nat) {
    var (n, done) := sure;
    match a
    case Script(_) => if done == 3 then (n + 1, 0) else sure
    case ReconcileMain(io) => if done == 3 then sure else if io == ALL_WELL then (n, 1) else (n, 0)
    case FetchBlock => if done == 1 then (n, 2) else sure
    case WriteMap => if done == 2 then (n, 3) else sure
    case ReconcileFollower(_, _) => sure
  }

  /** The script is at least as far as its sure turns, and what is done towards the next one holds. */
  ghost predicate Ahead(t: System, sure: (nat, nat)) {
    || Rank(t.phase) == 5
    || Rank(t.phase) > sure.0
    || (&& Rank(t.phase) == sure.0
        && (sure.1 == 1 ==> t.saving == ToFetch && ConfigMet(t))
        && (sure.1 == 2 ==> t.saving.ToWrite? && ConfigMet(t))
        && (sure.1 == 3 ==> Met(t) && (t.saving != NotSaving ==> ConfigMet(t))))
  }

  ghost predicate AllGood(consenters: seq<ConsenterSpec>, actions: seq<Action>) {
    forall i :: 0 <= i < |actions| && actions[i].Script? ==> GoodPicks(consenters, actions[i].picks)
  }

  ghost predicate OnCourse(t: System, consenters: seq<ConsenterSpec>, sure: (nat, nat)) {
    Live(t) && Ahead(t, sure) && sure.1 <= 3 && t.spec.consenters == consenters
  }

  lemma {:induction false} NextStaysOnCourse(t: System, a: Action, consenters: seq<ConsenterSpec>, sure: (nat, nat))
    requires OnCourse(t, consenters, sure) && (a.Script? ==> GoodPicks(consenters, a.picks))
    ensures OnCourse(Next(t, a), consenters, CountTurn(sure, a))
  {
    match a {
      case Script(picks) =>
        ScriptKeepsLive(t, picks);
        ScriptMoves(t, picks);
      case ReconcileMain(io) =>
        MainKeepsLive(t, io);
        if io == ALL_WELL { WellMainSucceeds(t); }
      case FetchBlock =>
        SavingKeepsLive(t, a);
      case WriteMap =>
        SavingKeepsLive(t, a);
      case ReconcileFollower(f, io) =>
        FollowerKeepsLive(t, f, io);
    }
  }

  lemma {:induction false} Progress(s: System, actions: seq<Action>)
    requires OnCourse(s, s.spec.consenters, (0, 3)) && AllGood(s.spec.consenters, actions)
    ensures OnCourse(RunSystem(s, actions), s.spec.consenters, SureTurns(actions))
  {
    if actions != [] {
      var prefix := actions[..|actions| - 1];
      Progress(s, prefix);
      NextStaysOnCourse(RunSystem(s, prefix), actions[|actions| - 1], s.spec.consenters, SureTurns(prefix));
    }
  }

  /** Whatever followers, failing reconciles and idle polls interleave: a run whose script gets five
      turns with an error-free main reconcile and its copy between them ends in a normal BFT channel
      with V3_0 alone. */
  lemma {:induction false} MigrationCompletes(s: System, actions: seq<Action>)
    requires Init(s) && Applicable(s.config, s.spec) && AllGood(s.spec.consenters, actions)
    requires SureTurns(actions).0 >= 5
    ensures var t := RunSystem(s, actions);
      && t.phase == Done && t.config.orderer.values.state == StateNormal
      && t.config.orderer.values.kind == Bft && t.config.capabilities == {V3}
      && exists i :: 0 <= i < |actions| && actions[i].Script?
                     && StoredAsPicked(t.config.orderer.values.consenterMapping, s.spec.consenters, actions[i].picks)
  {
    Progress(s, actions);
    StoredConsentersArePicked(s, actions);
  }

  // ----- The stored consenters of a migrated channel -----

  /** A stored consenter for each raft consenter of the resource: what was picked for it, and the contents
      of its certificates. */
  ghost predicate StoredAsPicked(stored: seq<BftConsenter>, consenters: seq<ConsenterSpec>, picks: seq<Pick>) {
    && |stored| == |consenters| <= |picks|
    && forall i :: 0 <= i < |stored| ==>
         && stored[i].id == i + 1
         && stored[i].host == consenters[i].host && stored[i].port == consenters[i].port
         && stored[i].mspId == picks[i].mspId
         && picks[i].identity.Some? && picks[i].identity.value.Pem? && consenters[i].tlsCert.Pem?
         && stored[i].identity == picks[i].identity.value.contents
         && stored[i].clientTlsCert == consenters[i].tlsCert.contents
         && stored[i].serverTlsCert == consenters[i].tlsCert.contents
  }

  /** The resource's mapping comes from the picks of one script turn, and a BFT channel's from it. */
  ghost predicate MappingFollows(t: System, consenters: seq<ConsenterSpec>, actions: seq<Action>) {
    Rank(t.phase) >= 3 ==>
      exists i :: 0 <= i < |actions| && actions[i].Script? && FollowsPicks(t, consenters, actions[i].picks)
  }

  ghost predicate FollowsPicks(t: System, consenters: seq<ConsenterSpec>, picks: seq<Pick>) {
    && Picked(t.spec.consenterMapping, consenters, picks)
    && (t.config.orderer.values.kind.Bft? ==> StoredAsPicked(t.config.orderer.values.consenterMapping, consenters, picks))
  }

  lemma {:induction false} StepFollowsPicks(t: System, a: Action, consenters: seq<ConsenterSpec>, picks: seq<Pick>)
    requires Inv(t) && Rank(t.phase) >= 3 && FollowsPicks(t, consenters, picks)
    ensures FollowsPicks(Next(t, a), consenters, picks)
  {
    match a {
      case Script(_) =>
      case FetchBlock =>
      case WriteMap =>
      case ReconcileMain(io) => MainStoresPicks(t.config, t.spec, io, consenters, picks);
      case ReconcileFollower(f, io) => FollowerFacts(t.config, f, io);
    }
  }

  lemma {:induction false} MainStoresPicks(
    c: ChannelConfig, spec: ChannelSpec, io: MainIo, consenters: seq<ConsenterSpec>, picks: seq<Pick>)
    requires spec.ordererType == "BFT" && Picked(spec.consenterMapping, consenters, picks)
    requires c.orderer.values.kind.Bft? ==> StoredAsPicked(c.orderer.values.consenterMapping, consenters, picks)
    ensures var next := MainStep(c, spec, io).0.orderer.values;
      next.kind.Bft? ==> StoredAsPicked(next.consenterMapping, consenters, picks)
  {
    if MainStep(c, spec, io).1 == Submitted {
      var stored := MapTarget(spec).orderer.values.consenterMapping;
      TargetFacts(spec);
      SubmittedOrderer(c, spec, io);
      OrdererAfterValues(c.orderer, MapTarget(spec).orderer);
      ConsensusMirrors(spec);
      forall i | 0 <= i < |stored| ensures MirrorsBftConsenter(stored[i], spec.consenterMapping[i]) {
      }
      assert StoredAsPicked(stored, consenters, picks);
    }
  }

  lemma {:induction false} StepMappingFollows(t: System, a: Action, consenters: seq<ConsenterSpec>, actions: seq<Action>)
    requires Inv(t) && t.spec.consenters == consenters && MappingFollows(t, consenters, actions)
    ensures Next(t, a).spec.consenters == consenters && MappingFollows(Next(t, a), consenters, actions + [a])
  {
    var all := actions + [a];
    assert Next(t, a).spec.consenters == consenters;
    if Rank(t.phase) >= 3 {
      var i :| 0 <= i < |actions| && actions[i].Script? && FollowsPicks(t, consenters, actions[i].picks);
      StepFollowsPicks(t, a, consenters, actions[i].picks);
      assert all[i] == actions[i];
    } else if a.Script? && Rank(Next(t, a).phase) >= 3 {
      PatchIsBft(t.spec, a.picks);
      assert all[|actions|] == a && FollowsPicks(Next(t, a), consenters, a.picks);
    }
  }

  lemma {:induction false} MappingAlwaysFollows(s: System, actions: seq<Action>)
    requires Init(s)
    ensures RunSystem(s, actions).spec.consenters == s.spec.consenters
    ensures MappingFollows(RunSystem(s, actions), s.spec.consenters, actions)
  {
    if actions != [] {
      var prefix := actions[..|actions| - 1];
      MappingAlwaysFollows(s, prefix);
      InvHolds(s, prefix);
      StepMappingFollows(RunSystem(s, prefix), actions[|actions| - 1], s.spec.consenters, prefix);
      assert prefix + [actions[|actions| - 1]] == actions;
    }
  }

  /** Over every run, a channel of type BFT stores exactly the consenters picked in one turn of the
      script. */
  lemma {:induction false} StoredConsentersArePicked(s: System, actions: seq<Action>)
    requires Init(s)
    ensures var t := RunSystem(s, actions);
      t.config.orderer.values.kind.Bft? ==>
        exists i :: 0 <= i < |actions| && actions[i].Script?
                    && StoredAsPicked(t.config.orderer.values.consenterMapping, s.spec.consenters, actions[i].picks)
  {
    MappingAlwaysFollows(s, actions);
    InvHolds(s, actions);
    var t := RunSystem(s, actions);
    if t.config.orderer.values.kind.Bft? {
      var i :| 0 <= i < |actions| && actions[i].Script? && FollowsPicks(t, s.spec.consenters, actions[i].picks);
    }
  }

  // ----- A run that breaks the observer's promise -----

  lemma RunMore(s: System, actions: seq<Action>, a: Action)
    ensures RunSystem(s, actions + [a]) == Next(RunSystem(s, actions), a)
  {
    assert (actions + [a])[..|actions|] == actions;
  }

  lemma PatchMore(s: System, actions: seq<Action>, picks: seq<Pick>) returns (more: seq<Action>)
    ensures RunSystem(s, more) == PatchAndReconcile(RunSystem(s, actions), picks)
  {
    more := actions + [Script(picks)];
    RunMore(s, actions, Script(picks));
    RunMore(s, more, ReconcileMain(ALL_WELL));
    more := more + [ReconcileMain(ALL_WELL)];
    RunMore(s, more, FetchBlock);
    more := more + [FetchBlock];
    RunMore(s, more, WriteMap);
    more := more + [WriteMap];
  }

  lemma {:induction false} WellReconcileLeaves(t: System, original: ChannelSpec, application: ApplicationGroup, picks: seq<Pick>)
    requires PicksUsable(original.consenters, picks)
    requires t.phase == SettingBft && t.spec == SetBft(SetCapabilities(SetState(original, "STATE_MAINTENANCE")), picks)
    requires Settled(t, original, application) && InMaintenance(t.config)
    requires t.config.orderer.values.kind == Bft && ConsensusParses(t.spec)
    ensures var u := Next(t, Script(picks));
      u.config.application == application && InMaintenance(u.configMap) && Leaves(u, ALL_WELL)
  {
    var u := Next(t, Script(picks));
    PatchedSpecMaps(original, u.spec);
    MainSucceedsIff(u.config, u.spec);
    UpdateFacts(u.config, u.spec);
  }

  /** The broken promise is reachable without any error: from every ready start, the confirmed run in
      which one follower comes between the last submission and its copy, which then follows. */
  lemma {:induction false} BrokenPromiseReachable(s: System, picks: seq<Pick>, m: string) returns (actions: seq<Action>)
    requires Init(s) && Ready(s, picks)
    requires m in s.config.application.orgs && Distinct(s.config.application.orgs[m].anchorPeers)
    ensures var t := RunSystem(s, actions);
      !Promise(t) && t.saving == ToFetch && Next(Next(t, FetchBlock), WriteMap).configMap == t.config
  {
    actions := PatchMore(s, [], picks);
    CompletesMaintenance(s, picks);
    var s1 := RunSystem(s, actions);
    actions := PatchMore(s, actions, picks);
    CompletesCapabilities(s1, s.spec, s.config.application, picks);
    var s2 := RunSystem(s, actions);
    actions := PatchMore(s, actions, picks);
    CompletesBft(s2, s.spec, s.config.application, picks);
    var s3 := RunSystem(s, actions);
    RunMore(s, actions, Script(picks));
    actions := actions + [Script(picks)];
    WellReconcileLeaves(s3, s.spec, s.config.application, picks);
    InvHolds(s, actions);
    var a := WindowCanBreak(RunSystem(s, actions), ALL_WELL, m);
    RunMore(s, actions, ReconcileMain(ALL_WELL));
    actions := actions + [ReconcileMain(ALL_WELL)];
    RunMore(s, actions, a);
    actions := actions + [a];
  }

  // ----- The offered orderers -----

  datatype OrdererNode = OrdererNode(name: string, namespace: string)

  /** What the script remembers of a pick. */
  function PickValue(o: OrdererNode): string {
    o.name + "." + o.namespace
  }

  /** The orderers still offered: those whose bare name is not among the remembered values. */
  function Offered(orderers: seq<OrdererNode>, selected: set<string>): seq<OrdererNode> {
    if orderers == [] then []
    else if orderers[0].name in selected then Offered(orderers[1..], selected)
    else [orderers[0]] + Offered(orderers[1..], selected)
  }

  /** The filter compares a bare name with `name.namespace` texts: an orderer is withheld exactly
      when its name is another pick's full value. */
  lemma {:induction false} OfferedIff(orderers: seq<OrdererNode>, picked: seq<OrdererNode>, o: OrdererNode)
    ensures o in Offered(orderers, set p | p in picked :: PickValue(p)) <==>
            o in orderers && forall p :: p in picked ==> o.name != p.name + "." + p.namespace
  {
    var selected := set p | p in picked :: PickValue(p);
    if orderers != [] {
      OfferedIff(orderers[1..], picked, o);
      assert orderers == [orderers[0]] + orderers[1..];
      SelectedIff(picked, orderers[0].name);
    }
  }

  lemma SelectedIff(picked: seq<OrdererNode>, name: string)
    ensures name in (set p | p in picked :: PickValue(p)) <==>
            exists p :: p in picked && name == p.name + "." + p.namespace
  {
    if name in (set p | p in picked :: PickValue(p)) {
      var p :| p in picked && PickValue(p) == name;
      assert name == p.name + "." + p.namespace;
    }
    if p :| p in picked && name == p.name + "." + p.namespace {
      assert PickValue(p) == name;
    }
  }

  /** So names without a dot are never withheld, and the same orderer can be picked for every
      consenter. */
  lemma {:induction false} PickedOrdererStaysOffered(orderers: seq<OrdererNode>, picked: seq<OrdererNode>)
    requires forall o :: o in orderers ==> '.' !in o.name
    ensures Offered(orderers, set p | p in picked :: PickValue(p)) == orderers
  {
    forall p | p in picked
      ensures '.' in PickValue(p)
    {
      assert PickValue(p)[|p.name|] == '.';
    }
    if orderers != [] {
      assert orderers[0] in orderers;
      assert forall o :: o in orderers[1..] ==> o in orderers;
      PickedOrdererStaysOffered(orderers[1..], picked);
    }
  }
}
