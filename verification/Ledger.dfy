/** Fabric's execute-order-validate: chaincode is simulated against a committed state, its reads
    are recorded with their versions and its writes are buffered, and a commit applies the writes
    only when every version read is still current. */
module Ledger {
  import opened Collections
  import opened Json

  type Key = string

  /** What a chaincode call answers: a payload, or the error it fails with. */
  type Answer = Result<Json>

  /** A chaincode function with its arguments fixed: it asks for keys, puts or deletes keys
      (`None` deletes), and ends with its answer. */
  datatype Program =
    | Done(answer: Answer)
    | Get(key: Key, next: Option<Json> -> Program)
    | Put(key: Key, value: Option<Json>, rest: Program)

  /** The program ends within `n` operations whatever the state answers. */
  ghost predicate Within(p: Program, n: nat)
    decreases n
  {
    match p
    case Done(_) => true
    case Get(_, next) => n > 0 && forall v :: Within(next(v), n - 1)
    case Put(_, _, rest) => n > 0 && Within(rest, n - 1)
  }

  datatype Tx = Tx(program: Program, bound: nat)

  /** No path of the program asks for a key that it has put before. */
  ghost predicate NeverReadsOwn(p: Program, n: nat, done: set<Key>)
    requires Within(p, n)
    decreases n
  {
    match p
    case Done(_) => true
    case Get(k, next) => k !in done && forall v :: NeverReadsOwn(next(v), n - 1, done)
    case Put(k, _, rest) => NeverReadsOwn(rest, n - 1, done + {k})
  }

  ghost predicate Safe(tx: Tx) {
    Within(tx.program, tx.bound) && NeverReadsOwn(tx.program, tx.bound, {})
  }

  function Lookup<V>(s: map<Key, V>, k: Key): Option<V> {
    if k in s then Some(s[k]) else None
  }

  // ----- Two ways to run a program -----

  datatype Effect = Effect(answer: Answer, asked: set<Key>, written: map<Key, Option<Json>>)

  /** Simulation: reads see the snapshot only, writes are buffered and the last one wins. */
  ghost function Simulate(p: Program, n: nat, snapshot: map<Key, Json>): Effect
    requires Within(p, n)
    decreases n
  {
    match p
    case Done(r) => Effect(r, {}, map[])
    case Get(k, next) =>
      var e := Simulate(next(Lookup(snapshot, k)), n - 1, snapshot);
      Effect(e.answer, {k} + e.asked, e.written)
    case Put(k, v, rest) =>
      var e := Simulate(rest, n - 1, snapshot);
      Effect(e.answer, e.asked, map[k := v] + e.written)
  }

  ghost function Store(s: map<Key, Json>, k: Key, v: Option<Json>): map<Key, Json> {
    match v
    case Some(x) => s[k := x]
    case None => s - {k}
  }

  /** Direct execution: reads see the live state and writes take effect at once. */
  ghost function Direct(p: Program, n: nat, s: map<Key, Json>): (Answer, map<Key, Json>)
    requires Within(p, n)
    decreases n
  {
    match p
    case Done(r) => (r, s)
    case Get(k, next) => Direct(next(Lookup(s, k)), n - 1, s)
    case Put(k, v, rest) => Direct(rest, n - 1, Store(s, k, v))
  }

  ghost function After(s: map<Key, Json>, written: map<Key, Option<Json>>): map<Key, Json> {
    map k | k in s.Keys + written.Keys && (if k in written then written[k].Some? else k in s)
      :: if k in written then written[k].value else s[k]
  }

  /** A simulation is settled by what it read. */
  lemma {:induction false} SimulationDependsOnReads(
    p: Program, n: nat, s: map<Key, Json>, u: map<Key, Json>)
    requires Within(p, n)
    requires forall k :: k in Simulate(p, n, s).asked ==> Lookup(s, k) == Lookup(u, k)
    ensures Simulate(p, n, u) == Simulate(p, n, s)
    decreases n
  {
    match p {
      case Done(_) =>
      case Get(k, next) =>
        assert k in Simulate(p, n, s).asked;
        assert forall j :: j in Simulate(next(Lookup(s, k)), n - 1, s).asked ==> j in Simulate(p, n, s).asked;
        SimulationDependsOnReads(next(Lookup(s, k)), n - 1, s, u);
      case Put(_, _, rest) =>
        SimulationDependsOnReads(rest, n - 1, s, u);
    }
  }

  lemma AfterStore(s: map<Key, Json>, k: Key, v: Option<Json>, written: map<Key, Option<Json>>)
    ensures After(Store(s, k, v), written) == After(s, map[k := v] + written)
  {
  }

  /** A program that never reads its own writes does the same either way. */
  lemma {:induction false} DirectIsSimulated(
    p: Program, n: nat, snapshot: map<Key, Json>, live: map<Key, Json>, done: set<Key>)
    requires Within(p, n) && NeverReadsOwn(p, n, done)
    requires forall k :: k !in done ==> Lookup(live, k) == Lookup(snapshot, k)
    ensures var e := Simulate(p, n, snapshot); Direct(p, n, live) == (e.answer, After(live, e.written))
    decreases n
  {
    match p {
      case Done(_) =>
        assert After(live, map[]) == live;
      case Get(k, next) =>
        DirectIsSimulated(next(Lookup(live, k)), n - 1, snapshot, live, done);
      case Put(k, v, rest) =>
        DirectIsSimulated(rest, n - 1, snapshot, Store(live, k, v), done + {k});
        AfterStore(live, k, v, Simulate(rest, n - 1, snapshot).written);
    }
  }

  // ----- The chain -----

  datatype Versioned = Versioned(value: Json, version: nat)

  type World = map<Key, Versioned>

  ghost function Values(w: World): map<Key, Json> {
    map k | k in w :: w[k].value
  }

  ghost function VersionOf(w: World, k: Key): Option<nat> {
    if k in w then Some(w[k].version) else None
  }

  /** A simulated transaction: which state it saw, the versions it read, and its effect. */
  datatype Endorsement = Endorsement(tx: Tx, at: nat, seen: map<Key, Option<nat>>, effect: Effect)

  /** `worlds[h]` is the state after `h` commits, valid or not. */
  datatype Chain = Chain(
    worlds: seq<World>, endorsed: seq<Endorsement>, committed: seq<(Endorsement, bool)>)

  datatype Event =
    | Endorse(tx: Tx, at: nat)
    | Commit(which: nat)

  ghost predicate SafeEvent(e: Event) {
    e.Endorse? ==> Safe(e.tx)
  }

  ghost function Current(c: Chain): World
    requires c.worlds != []
  {
    c.worlds[|c.worlds| - 1]
  }

  ghost predicate StillCurrent(w: World, e: Endorsement) {
    forall k :: k in e.seen ==> VersionOf(w, k) == e.seen[k]
  }

  ghost function Applied(w: World, written: map<Key, Option<Json>>, version: nat): World {
    map k | k in w.Keys + written.Keys && (if k in written then written[k].Some? else k in w)
      :: if k in written then Versioned(written[k].value, version) else w[k]
  }

  /** The world after an endorsement is ordered: an invalid one leaves it. */
  ghost function Next(worlds: seq<World>, e: Endorsement): World
    requires worlds != []
  {
    var w := worlds[|worlds| - 1];
    if StillCurrent(w, e) then Applied(w, e.effect.written, |worlds|) else w
  }

  ghost function Endorsed(w: World, tx: Tx, at: nat): Endorsement
    requires Within(tx.program, tx.bound)
  {
    var effect := Simulate(tx.program, tx.bound, Values(w));
    Endorsement(tx, at, map k | k in effect.asked :: VersionOf(w, k), effect)
  }

  /** An endorsement may be against any state committed so far, and may be ordered at any time
      later, or more than once; an event that names nothing changes nothing. */
  ghost function Step(c: Chain, e: Event): Chain
    requires c.worlds != [] && SafeEvent(e)
  {
    match e
    case Endorse(tx, at) =>
      if at < |c.worlds| then c.(endorsed := c.endorsed + [Endorsed(c.worlds[at], tx, at)]) else c
    case Commit(i) =>
      if i < |c.endorsed| then
        var e := c.endorsed[i];
        c.(worlds := c.worlds + [Next(c.worlds, e)], committed := c.committed + [(e, StillCurrent(Current(c), e))])
      else c
  }

  ghost predicate SafeEvents(events: seq<Event>) {
    forall i :: 0 <= i < |events| ==> SafeEvent(events[i])
  }

  ghost function Run(genesis: World, events: seq<Event>): (c: Chain)
    requires SafeEvents(events)
    ensures c.worlds != []
  {
    if events == [] then Chain([genesis], [], [])
    else Step(Run(genesis, events[..|events| - 1]), events[|events| - 1])
  }

  // ----- What one version means -----

  /** A version names the commit that wrote it, and the value has not changed since. */
  ghost predicate Dated(worlds: seq<World>) {
    forall h, k {:trigger DatedAt(worlds, h, k)} :: 0 <= h < |worlds| && k in worlds[h] ==> DatedAt(worlds, h, k)
  }

  ghost predicate DatedAt(worlds: seq<World>, h: nat, k: Key)
    requires h < |worlds| && k in worlds[h]
  {
    var v := worlds[h][k].version;
    v <= h && k in worlds[v] && worlds[v][k] == worlds[h][k]
  }

  ghost predicate Honest(c: Chain) {
    forall i :: 0 <= i < |c.endorsed| ==>
      HonestOne(c.worlds, c.endorsed[i])
  }

  ghost predicate HonestOne(worlds: seq<World>, e: Endorsement) {
    Safe(e.tx) && e.at < |worlds| && e == Endorsed(worlds[e.at], e.tx, e.at)
  }

  lemma AppliedAt(w: World, written: map<Key, Option<Json>>, version: nat, k: Key)
    ensures Lookup(Applied(w, written, version), k) ==
            if k !in written then Lookup(w, k)
            else if written[k].Some? then Some(Versioned(written[k].value, version))
            else None
  {
  }

  /** A next world whose entries are either the current ones or dated with its own height. */
  lemma {:induction false} ExtendDated(worlds: seq<World>, next: World)
    requires worlds != [] && Dated(worlds)
    requires forall k :: k in next ==>
      Lookup(worlds[|worlds| - 1], k) == Some(next[k]) || next[k].version == |worlds|
    ensures Dated(worlds + [next])
  {
    var all := worlds + [next];
    forall h: nat, k: Key | h < |all| && k in all[h]
      ensures DatedAt(all, h, k)
    {
      if h < |worlds| {
        assert DatedAt(worlds, h, k);
      } else if next[k].version != |worlds| {
        assert DatedAt(worlds, h - 1, k);
      }
    }
  }

  lemma AppliedDated(worlds: seq<World>, written: map<Key, Option<Json>>)
    requires worlds != [] && Dated(worlds)
    ensures Dated(worlds + [Applied(worlds[|worlds| - 1], written, |worlds|)])
  {
    var w := worlds[|worlds| - 1];
    var next := Applied(w, written, |worlds|);
    forall k | k in next ensures Lookup(w, k) == Some(next[k]) || next[k].version == |worlds| {
      AppliedAt(w, written, |worlds|, k);
    }
    ExtendDated(worlds, next);
  }

  lemma PrefixDated(worlds: seq<World>, n: nat)
    requires n <= |worlds| && Dated(worlds)
    ensures Dated(worlds[..n])
  {
    forall h: nat, k: Key | h < n && k in worlds[h] ensures DatedAt(worlds[..n], h, k) {
      assert DatedAt(worlds, h, k);
    }
  }

  lemma {:induction false} StepKeepsDated(c: Chain, e: Event)
    requires c.worlds != [] && SafeEvent(e) && Dated(c.worlds) && Honest(c)
    ensures Step(c, e).worlds != [] && Dated(Step(c, e).worlds) && Honest(Step(c, e))
  {
    var next := Step(c, e);
    if next.worlds != c.worlds {
      if StillCurrent(Current(c), c.endorsed[e.which]) {
        AppliedDated(c.worlds, c.endorsed[e.which].effect.written);
      } else {
        ExtendDated(c.worlds, Current(c));
      }
    }
  }

  lemma {:induction false} RunIsDated(genesis: World, events: seq<Event>)
    requires SafeEvents(events) && forall k :: k in genesis ==> genesis[k].version == 0
    ensures Dated(Run(genesis, events).worlds) && Honest(Run(genesis, events))
  {
    if events != [] {
      var prefix := events[..|events| - 1];
      RunIsDated(genesis, prefix);
      StepKeepsDated(Run(genesis, prefix), events[|events| - 1]);
    }
  }

  /** A commit that passes the version check does what the program would do on the current state. */
  lemma {:induction false} ValidCommitIsDirect(worlds: seq<World>, e: Endorsement)
    requires worlds != [] && Dated(worlds) && HonestOne(worlds, e)
    requires StillCurrent(worlds[|worlds| - 1], e)
    ensures var w := worlds[|worlds| - 1];
      Direct(e.tx.program, e.tx.bound, Values(w)) == (e.effect.answer, Values(Applied(w, e.effect.written, |worlds|)))
  {
    var w, was := worlds[|worlds| - 1], worlds[e.at];
    forall k | k in e.effect.asked ensures Lookup(Values(was), k) == Lookup(Values(w), k) {
      assert k in e.seen && VersionOf(w, k) == VersionOf(was, k);
      if k in w {
        assert DatedAt(worlds, |worlds| - 1, k) && DatedAt(worlds, e.at, k);
      }
    }
    SimulationDependsOnReads(e.tx.program, e.tx.bound, Values(was), Values(w));
    DirectIsSimulated(e.tx.program, e.tx.bound, Values(w), Values(w), {});
    ValuesApplied(w, e.effect.written, |worlds|);
  }

  lemma ValuesApplied(w: World, written: map<Key, Option<Json>>, version: nat)
    ensures After(Values(w), written) == Values(Applied(w, written, version))
  {
  }

  // ----- Serial equivalence -----

  /** The valid transactions in commit order. */
  ghost function ValidOnes(committed: seq<(Endorsement, bool)>): seq<Endorsement> {
    if committed == [] then []
    else
      var n := |committed| - 1;
      ValidOnes(committed[..n]) + (if committed[n].1 then [committed[n].0] else [])
  }

  /** The same programs one at a time, each on the state the one before left. */
  ghost function Serial(s: map<Key, Json>, txs: seq<Endorsement>): (map<Key, Json>, seq<Answer>)
    requires forall i :: 0 <= i < |txs| ==> Within(txs[i].tx.program, txs[i].tx.bound)
  {
    if txs == [] then (s, [])
    else
      var n := |txs| - 1;
      var (state, answers) := Serial(s, txs[..n]);
      var (answer, next) := Direct(txs[n].tx.program, txs[n].tx.bound, state);
      (next, answers + [answer])
  }

  ghost function Answers(txs: seq<Endorsement>): seq<Answer> {
    seq(|txs|, i requires 0 <= i < |txs| => txs[i].effect.answer)
  }

  ghost predicate AllSafe(txs: seq<Endorsement>) {
    forall i :: 0 <= i < |txs| ==> Safe(txs[i].tx)
  }

  ghost predicate MatchesSerial(genesis: World, w: World, committed: seq<(Endorsement, bool)>) {
    LeadsTo(genesis, ValidOnes(committed), w)
  }

  ghost predicate LeadsTo(genesis: World, txs: seq<Endorsement>, w: World) {
    AllSafe(txs) && Serial(Values(genesis), txs) == (Values(w), Answers(txs))
  }

  /** Over every interleaving of simulations and commits, the final state and the answer of every
      valid transaction are those of running the valid ones serially in commit order. */
  lemma {:induction false} Serializable(genesis: World, events: seq<Event>)
    requires SafeEvents(events) && forall k :: k in genesis ==> genesis[k].version == 0
    ensures var c := Run(genesis, events);
      MatchesSerial(genesis, Current(c), c.committed)
  {
    if events != [] {
      var prefix, e := events[..|events| - 1], events[|events| - 1];
      Serializable(genesis, prefix);
      RunIsDated(genesis, prefix);
      StepIsSerial(genesis, Run(genesis, prefix), e);
    } else {
      assert Answers([]) == [];
    }
  }

  lemma {:induction false} LeadsOn(genesis: World, txs: seq<Endorsement>, w: World, e: Endorsement, next: World)
    requires LeadsTo(genesis, txs, w) && Safe(e.tx)
    requires Direct(e.tx.program, e.tx.bound, Values(w)) == (e.effect.answer, Values(next))
    ensures LeadsTo(genesis, txs + [e], next)
  {
    assert (txs + [e])[..|txs|] == txs;
    assert Answers(txs + [e]) == Answers(txs) + [e.effect.answer];
  }

  lemma ValidSnoc(committed: seq<(Endorsement, bool)>, e: Endorsement, valid: bool)
    ensures ValidOnes(committed + [(e, valid)]) == ValidOnes(committed) + (if valid then [e] else [])
  {
    assert (committed + [(e, valid)])[..|committed|] == committed;
  }

  lemma ValidCommitIsSerial(genesis: World, worlds: seq<World>, committed: seq<(Endorsement, bool)>, e: Endorsement)
    requires worlds != [] && Dated(worlds) && HonestOne(worlds, e)
    requires StillCurrent(worlds[|worlds| - 1], e)
    requires MatchesSerial(genesis, worlds[|worlds| - 1], committed)
    ensures MatchesSerial(genesis, Applied(worlds[|worlds| - 1], e.effect.written, |worlds|), committed + [(e, true)])
  {
    var w := worlds[|worlds| - 1];
    ValidSnoc(committed, e, true);
    ValidCommitIsDirect(worlds, e);
    LeadsOn(genesis, ValidOnes(committed), w, e, Applied(w, e.effect.written, |worlds|));
  }

  lemma InvalidCommitIsSerial(genesis: World, w: World, committed: seq<(Endorsement, bool)>, e: Endorsement)
    requires MatchesSerial(genesis, w, committed)
    ensures MatchesSerial(genesis, w, committed + [(e, false)])
  {
    ValidSnoc(committed, e, false);
    assert ValidOnes(committed) + [] == ValidOnes(committed);
  }

  lemma CommitIsSerial(genesis: World, worlds: seq<World>, committed: seq<(Endorsement, bool)>, e: Endorsement)
    requires worlds != [] && Dated(worlds) && HonestOne(worlds, e)
    requires MatchesSerial(genesis, worlds[|worlds| - 1], committed)
    ensures MatchesSerial(genesis, Next(worlds, e), committed + [(e, StillCurrent(worlds[|worlds| - 1], e))])
  {
    if StillCurrent(worlds[|worlds| - 1], e) {
      ValidCommitIsSerial(genesis, worlds, committed, e);
    } else {
      InvalidCommitIsSerial(genesis, worlds[|worlds| - 1], committed, e);
    }
  }

  ghost predicate Appends(c: Chain, i: nat, next: Chain)
    requires c.worlds != [] && i < |c.endorsed|
  {
    && next.worlds == c.worlds + [Next(c.worlds, c.endorsed[i])]
    && next.committed == c.committed + [(c.endorsed[i], StillCurrent(Current(c), c.endorsed[i]))]
  }

  lemma AppendIsSerial(genesis: World, c: Chain, i: nat, next: Chain)
    requires c.worlds != [] && i < |c.endorsed| && Appends(c, i, next)
    requires Dated(c.worlds) && HonestOne(c.worlds, c.endorsed[i])
    requires MatchesSerial(genesis, Current(c), c.committed)
    ensures next.worlds != [] && MatchesSerial(genesis, Current(next), next.committed)
  {
    CommitIsSerial(genesis, c.worlds, c.committed, c.endorsed[i]);
  }

  lemma StepAppends(c: Chain, e: Event)
    requires c.worlds != [] && SafeEvent(e)
    ensures var next := Step(c, e);
      if e.Commit? && e.which < |c.endorsed| then Appends(c, e.which, next)
      else next.worlds == c.worlds && next.committed == c.committed
  {
  }

  lemma {:induction false} StepIsSerial(genesis: World, c: Chain, e: Event)
    requires c.worlds != [] && SafeEvent(e) && Dated(c.worlds) && Honest(c)
    requires MatchesSerial(genesis, Current(c), c.committed)
    ensures Step(c, e).worlds != [] && MatchesSerial(genesis, Current(Step(c, e)), Step(c, e).committed)
  {
    StepAppends(c, e);
    if e.Commit? && e.which < |c.endorsed| {
      AppendIsSerial(genesis, c, e.which, Step(c, e));
    }
  }

  // ----- What each commit did -----

  /** Commit `i` was checked against `worlds[i]` and made `worlds[i + 1]`. */
  ghost predicate CommitMade(worlds: seq<World>, i: nat, e: Endorsement, valid: bool)
    requires i + 1 < |worlds|
  {
    && HonestOne(worlds[..i + 1], e)
    && valid == StillCurrent(worlds[i], e)
    && worlds[i + 1] == Next(worlds[..i + 1], e)
  }

  ghost predicate CommitsMade(c: Chain) {
    && |c.worlds| == |c.committed| + 1
    && forall i {:trigger c.committed[i]} :: 0 <= i < |c.committed| ==>
         CommitMade(c.worlds, i, c.committed[i].0, c.committed[i].1)
  }

  lemma {:induction false} AppendMade(c: Chain, i: nat, next: Chain)
    requires CommitsMade(c) && c.worlds != [] && i < |c.endorsed| && Appends(c, i, next)
    requires HonestOne(c.worlds, c.endorsed[i])
    ensures CommitsMade(next)
  {
    forall j | 0 <= j < |next.committed|
      ensures CommitMade(next.worlds, j, next.committed[j].0, next.committed[j].1)
    {
      assert next.worlds[..j + 1] == c.worlds[..j + 1];
      if j < |c.committed| {
        assert CommitMade(c.worlds, j, c.committed[j].0, c.committed[j].1);
      } else {
        assert c.worlds[..j + 1] == c.worlds;
      }
    }
  }

  lemma {:induction false} RunCommitsMade(genesis: World, events: seq<Event>)
    requires SafeEvents(events) && forall k :: k in genesis ==> genesis[k].version == 0
    ensures CommitsMade(Run(genesis, events))
  {
    if events != [] {
      var prefix, e := events[..|events| - 1], events[|events| - 1];
      RunCommitsMade(genesis, prefix);
      RunIsDated(genesis, prefix);
      var c := Run(genesis, prefix);
      StepAppends(c, e);
      if e.Commit? && e.which < |c.endorsed| { AppendMade(c, e.which, Step(c, e)); }
    }
  }

  // ----- Which transactions are valid -----

  /** Under dating the version check compares whole entries. */
  lemma {:induction false} CurrentIff(worlds: seq<World>, e: Endorsement)
    requires worlds != [] && Dated(worlds) && HonestOne(worlds, e)
    ensures StillCurrent(worlds[|worlds| - 1], e) <==>
            forall k :: k in e.effect.asked ==> Lookup(worlds[e.at], k) == Lookup(worlds[|worlds| - 1], k)
  {
    var w, was := worlds[|worlds| - 1], worlds[e.at];
    assert forall k :: k in e.seen <==> k in e.effect.asked;
    forall k | k in e.effect.asked
      ensures VersionOf(w, k) == e.seen[k] <==> Lookup(was, k) == Lookup(w, k)
    {
      assert e.seen[k] == VersionOf(was, k);
      if k in w && k in was {
        assert DatedAt(worlds, |worlds| - 1, k) && DatedAt(worlds, e.at, k);
      }
    }
  }

  /** Commit `i` of a run, and how the world it made differs from the one before. */
  lemma {:induction false} CommitDoes(genesis: World, events: seq<Event>, i: nat)
    requires SafeEvents(events) && forall k :: k in genesis ==> genesis[k].version == 0
    requires i < |Run(genesis, events).committed|
    ensures var c := Run(genesis, events);
      && |c.worlds| == |c.committed| + 1 && Dated(c.worlds[..i + 1]) && HonestOne(c.worlds[..i + 1], c.committed[i].0)
      && c.committed[i].1 == StillCurrent(c.worlds[i], c.committed[i].0)
      && c.worlds[i + 1] == (if c.committed[i].1 then Applied(c.worlds[i], c.committed[i].0.effect.written, i + 1)
                             else c.worlds[i])
  {
    var c := Run(genesis, events);
    RunCommitsMade(genesis, events);
    RunIsDated(genesis, events);
    PrefixDated(c.worlds, i + 1);
    assert CommitMade(c.worlds, i, c.committed[i].0, c.committed[i].1);
  }

  /** A valid commit answers for, and acts on, the world it is committed to. */
  lemma {:induction false} ValidCommitActs(genesis: World, events: seq<Event>, i: nat)
    requires SafeEvents(events) && forall k :: k in genesis ==> genesis[k].version == 0
    requires i < |Run(genesis, events).committed| && Run(genesis, events).committed[i].1
    ensures var c := Run(genesis, events);
      var e := c.committed[i].0;
      && |c.worlds| == |c.committed| + 1 && Within(e.tx.program, e.tx.bound)
      && (var again := Simulate(e.tx.program, e.tx.bound, Values(c.worlds[i]));
          e.effect.answer == again.answer && Values(c.worlds[i + 1]) == After(Values(c.worlds[i]), again.written))
  {
    var c := Run(genesis, events);
    CommitDoes(genesis, events, i);
    ValidCommitSimulates(c.worlds[..i + 1], c.committed[i].0);
  }

  lemma {:induction false} ValidCommitSimulates(worlds: seq<World>, e: Endorsement)
    requires worlds != [] && Dated(worlds) && HonestOne(worlds, e) && StillCurrent(worlds[|worlds| - 1], e)
    ensures var w := worlds[|worlds| - 1];
      var again := Simulate(e.tx.program, e.tx.bound, Values(w));
      && e.effect.answer == again.answer
      && Values(Applied(w, e.effect.written, |worlds|)) == After(Values(w), again.written)
  {
    var w := worlds[|worlds| - 1];
    ValidCommitIsDirect(worlds, e);
    DirectIsSimulated(e.tx.program, e.tx.bound, Values(w), Values(w), {});
  }

  /** Over every run, exactly: a transaction is valid if and only if every key it asked for has the
      entry it was simulated on, value and version, in the world it is committed to. */
  lemma {:induction false} ValidIff(genesis: World, events: seq<Event>, i: nat)
    requires SafeEvents(events) && forall k :: k in genesis ==> genesis[k].version == 0
    requires i < |Run(genesis, events).committed|
    ensures var c := Run(genesis, events);
      var e := c.committed[i].0;
      && e.at <= i < |c.worlds|
      && (c.committed[i].1 <==> forall k :: k in e.effect.asked ==> Lookup(c.worlds[e.at], k) == Lookup(c.worlds[i], k))
  {
    var c := Run(genesis, events);
    CommitDoes(genesis, events, i);
    CurrentIff(c.worlds[..i + 1], c.committed[i].0);
  }

  /** Commit `j` is valid and puts or deletes the key. */
  ghost predicate Writes(c: Chain, j: nat, k: Key) {
    j < |c.committed| && c.committed[j].1 && k in c.committed[j].0.effect.written
  }

  /** A key that no valid commit writes keeps its entry. */
  lemma {:induction false} UnwrittenKept(genesis: World, events: seq<Event>, lo: nat, hi: nat, k: Key)
    requires SafeEvents(events) && forall k :: k in genesis ==> genesis[k].version == 0
    requires lo <= hi <= |Run(genesis, events).committed|
    requires forall j :: lo <= j < hi ==> !Writes(Run(genesis, events), j, k)
    ensures |Run(genesis, events).worlds| == |Run(genesis, events).committed| + 1
    ensures Lookup(Run(genesis, events).worlds[hi], k) == Lookup(Run(genesis, events).worlds[lo], k)
    decreases hi
  {
    RunCommitsMade(genesis, events);
    if lo < hi {
      var c := Run(genesis, events);
      UnwrittenKept(genesis, events, lo, hi - 1, k);
      CommitDoes(genesis, events, hi - 1);
      AppliedAt(c.worlds[hi - 1], c.committed[hi - 1].0.effect.written, hi, k);
      assert !Writes(c, hi - 1, k);
    }
  }

  /** A transaction is valid whenever no valid commit since its simulation wrote a key it asked for;
      in particular when nothing was committed in between. */
  lemma {:induction false} UnwrittenIsValid(genesis: World, events: seq<Event>, i: nat)
    requires SafeEvents(events) && forall k :: k in genesis ==> genesis[k].version == 0
    requires i < |Run(genesis, events).committed|
    requires var c := Run(genesis, events);
      forall j, k :: c.committed[i].0.at <= j < i && k in c.committed[i].0.effect.asked ==> !Writes(c, j, k)
    ensures Run(genesis, events).committed[i].1
  {
    var c := Run(genesis, events);
    var e := c.committed[i].0;
    ValidIff(genesis, events, i);
    forall k | k in e.effect.asked ensures Lookup(c.worlds[e.at], k) == Lookup(c.worlds[i], k) {
      UnwrittenKept(genesis, events, e.at, i, k);
    }
  }

  /** And it is invalid whenever the last of them to write such a key put a value. */
  lemma {:induction false} WrittenIsInvalid(genesis: World, events: seq<Event>, i: nat, j: nat, k: Key)
    requires SafeEvents(events) && forall k :: k in genesis ==> genesis[k].version == 0
    requires i < |Run(genesis, events).committed| && Run(genesis, events).committed[i].0.at <= j < i
    requires k in Run(genesis, events).committed[i].0.effect.asked
    requires Writes(Run(genesis, events), j, k) && Run(genesis, events).committed[j].0.effect.written[k].Some?
    requires forall l :: j < l < i ==> !Writes(Run(genesis, events), l, k)
    ensures !Run(genesis, events).committed[i].1
  {
    var c := Run(genesis, events);
    var e := c.committed[i].0;
    ValidIff(genesis, events, i);
    CommitDoes(genesis, events, j);
    AppliedAt(c.worlds[j], c.committed[j].0.effect.written, j + 1, k);
    UnwrittenKept(genesis, events, j + 1, i, k);
    RunIsDated(genesis, events);
    if k in c.worlds[e.at] { assert DatedAt(c.worlds, e.at, k); }
  }

  /** Simulating a program on the current state and ordering it next. */
  ghost predicate CommitsNext(c: Chain, tx: Tx, d: Chain)
    requires c.worlds != [] && Within(tx.program, tx.bound)
  {
    && d.worlds != [] && |d.committed| == |c.committed| + 1 && d.committed[|c.committed|].1
    && d.committed[|c.committed|].0.tx == tx
    && Direct(tx.program, tx.bound, Values(Current(c))) ==
       (d.committed[|c.committed|].0.effect.answer, Values(Current(d)))
  }

  lemma {:induction false} StepsCommitNext(c: Chain, tx: Tx)
    requires c.worlds != [] && Dated(c.worlds) && Safe(tx)
    ensures var b := Step(c, Endorse(tx, |c.worlds| - 1));
      b.worlds != [] && CommitsNext(c, tx, Step(b, Commit(|c.endorsed|)))
  {
    var e := Endorsed(Current(c), tx, |c.worlds| - 1);
    var b := Step(c, Endorse(tx, |c.worlds| - 1));
    assert b.endorsed[|c.endorsed|] == e && b.worlds == c.worlds && b.committed == c.committed;
    CurrentIff(c.worlds, e);
    ValidCommitIsDirect(c.worlds, e);
    StepAppends(b, Commit(|c.endorsed|));
  }

  lemma RunTwo(genesis: World, events: seq<Event>, first: Event, second: Event)
    requires SafeEvents(events) && SafeEvent(first) && SafeEvent(second)
    ensures SafeEvents(events + [first, second])
    ensures var b := Step(Run(genesis, events), first);
      b.worlds != [] && Run(genesis, events + [first, second]) == Step(b, second)
  {
    var more := events + [first, second];
    assert more[..|more| - 1] == events + [first] && (events + [first])[..|events|] == events;
    assert Run(genesis, events + [first]) == Step(Run(genesis, events), first);
  }

  /** After any run, a safe program that is simulated on the current state and ordered next is valid:
      it answers, and leaves, what running it directly does. */
  lemma {:induction false} UndisturbedCommits(genesis: World, events: seq<Event>, tx: Tx)
    requires SafeEvents(events) && forall k :: k in genesis ==> genesis[k].version == 0
    requires Safe(tx)
    ensures var c := Run(genesis, events);
      var more := events + [Endorse(tx, |c.worlds| - 1), Commit(|c.endorsed|)];
      SafeEvents(more) && CommitsNext(c, tx, Run(genesis, more))
  {
    var c := Run(genesis, events);
    RunIsDated(genesis, events);
    RunTwo(genesis, events, Endorse(tx, |c.worlds| - 1), Commit(|c.endorsed|));
    StepsCommitNext(c, tx);
  }

  /** World `i` holds only entries of the one before and good ones. */
  ghost predicate Inherits(worlds: seq<World>, i: nat, good: (Key, Json) -> bool)
    requires 0 < i < |worlds|
  {
    forall k :: k in worlds[i] ==> Lookup(worlds[i - 1], k) == Some(worlds[i][k]) || good(k, worlds[i][k].value)
  }

  lemma {:induction false} Inherited(worlds: seq<World>, good: (Key, Json) -> bool, h: nat)
    requires h < |worlds| && forall k :: k in worlds[0] ==> good(k, worlds[0][k].value)
    requires forall i :: 0 < i < |worlds| ==> Inherits(worlds, i, good)
    ensures forall k :: k in worlds[h] ==> good(k, worlds[h][k].value)
  {
    if h > 0 {
      Inherited(worlds, good, h - 1);
      assert Inherits(worlds, h, good);
    }
  }

  // ----- Only what was endorsed is ever ordered -----

  ghost predicate AllGiven(events: seq<Event>, given: Tx -> bool) {
    forall i :: 0 <= i < |events| && events[i].Endorse? ==> given(events[i].tx)
  }

  ghost predicate TxsGiven(txs: seq<Endorsement>, given: Tx -> bool) {
    forall i :: 0 <= i < |txs| ==> given(txs[i].tx)
  }

  ghost predicate OrderedGiven(c: Chain, given: Tx -> bool) {
    forall i :: 0 <= i < |c.committed| ==> given(c.committed[i].0.tx)
  }

  lemma StepEndorsed(c: Chain, e: Event, i: nat)
    requires c.worlds != [] && SafeEvent(e) && i < |Step(c, e).endorsed|
    ensures (i < |c.endorsed| && Step(c, e).endorsed[i] == c.endorsed[i]) || (e.Endorse? && Step(c, e).endorsed[i].tx == e.tx)
  {
  }

  lemma ValidGiven(committed: seq<(Endorsement, bool)>, e: Endorsement, valid: bool, given: Tx -> bool)
    requires TxsGiven(ValidOnes(committed), given) && given(e.tx)
    ensures TxsGiven(ValidOnes(committed + [(e, valid)]), given)
  {
    ValidSnoc(committed, e, valid);
  }

  lemma AppendGiven(c: Chain, i: nat, next: Chain, given: Tx -> bool)
    requires c.worlds != [] && i < |c.endorsed| && Appends(c, i, next) && given(c.endorsed[i].tx)
    requires TxsGiven(ValidOnes(c.committed), given) && OrderedGiven(c, given)
    ensures TxsGiven(ValidOnes(next.committed), given) && OrderedGiven(next, given)
  {
    ValidGiven(c.committed, c.endorsed[i], StillCurrent(Current(c), c.endorsed[i]), given);
  }

  lemma {:induction false} StepGiven(c: Chain, e: Event, given: Tx -> bool)
    requires c.worlds != [] && SafeEvent(e) && (e.Endorse? ==> given(e.tx))
    requires TxsGiven(c.endorsed, given) && TxsGiven(ValidOnes(c.committed), given) && OrderedGiven(c, given)
    ensures TxsGiven(Step(c, e).endorsed, given) && TxsGiven(ValidOnes(Step(c, e).committed), given)
    ensures OrderedGiven(Step(c, e), given)
  {
    var next := Step(c, e);
    forall i | 0 <= i < |next.endorsed| ensures given(next.endorsed[i].tx) {
      StepEndorsed(c, e, i);
    }
    StepAppends(c, e);
    if e.Commit? && e.which < |c.endorsed| {
      AppendGiven(c, e.which, next, given);
    }
  }

  lemma {:induction false} OnlyGivenEndorsed(genesis: World, events: seq<Event>, given: Tx -> bool)
    requires SafeEvents(events) && AllGiven(events, given)
    ensures var c := Run(genesis, events);
      TxsGiven(c.endorsed, given) && TxsGiven(ValidOnes(c.committed), given) && OrderedGiven(c, given)
  {
    if events != [] {
      var prefix := events[..|events| - 1];
      OnlyGivenEndorsed(genesis, prefix, given);
      StepGiven(Run(genesis, prefix), events[|events| - 1], given);
    }
  }

  // ----- Why the programs must not read their own writes -----

  function PutThenGet(k: Key, v: Json): Program {
    Put(k, Some(v), Get(k, (was: Option<Json>) => Done(if was.Some? then Ok(was.value) else Err("absent"))))
  }

  /** A program that puts a key and then reads it answers differently when it is simulated. */
  lemma ReadingOwnWritesDiffers(k: Key, v: Json)
    ensures var p := PutThenGet(k, v);
      && Within(p, 2) && !NeverReadsOwn(p, 2, {})
      && Simulate(p, 2, map[]).answer == Err("absent") && Direct(p, 2, map[]).0 == Ok(v)
  {
    var rest := PutThenGet(k, v).rest;
    assert Within(rest, 1);
    assert !NeverReadsOwn(rest, 1, {k});
    assert Simulate(rest, 1, map[]).answer == Err("absent");
    assert Store(map[], k, Some(v)) == map[k := v];
    assert Direct(rest, 1, map[k := v]).0 == Ok(v);
  }
}
