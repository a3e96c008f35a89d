/** The STIX contract under concurrent use: every id names one object for good. */
module StixRuns {
  import opened Collections
  import opened Json
  import opened Ledger
  import opened StixObjects
  import opened StixContract

  ghost predicate IsCall(tx: Tx) {
    exists call :: tx == TxOf(call)
  }

  /** What may stand in the world state: an object under its own id, tagged with its own kind. */
  ghost predicate Stored(k: Key, v: Json) {
    k != "" && exists o :: IsStored(o, k, v)
  }

  ghost predicate IsStored(o: StixObject, k: Key, v: Json) {
    v == Encode(o) && IdOf(o) == k && TypeOf(o) == Tag(KindOf(o))
  }

  ghost predicate AllStored(w: World) {
    forall k :: k in w ==> Stored(k, w[k].value)
  }

  /** A run of this contract alone: simulations of its functions, and commits. */
  ghost predicate StixRun(genesis: World, events: seq<Event>) {
    && AllStored(genesis) && (forall k :: k in genesis ==> genesis[k].version == 0)
    && SafeEvents(events) && AllGiven(events, IsCall)
  }

  ghost predicate Extends(w: World, next: World) {
    && (forall k :: k in w ==> k in next && next[k] == w[k])
    && (forall k :: k in next && k !in w ==> Stored(k, next[k].value))
  }

  /** A call writes only a key it found absent, and writes an object there that belongs there. */
  lemma {:induction false} WritesFresh(call: Call, snapshot: map<Key, Json>)
    ensures var e := SimulateCall(call, snapshot);
      forall k :: k in e.written ==>
        k in e.asked && k !in snapshot && e.written[k].Some? && Stored(k, e.written[k].value)
  {
    match call {
      case Create(kind, input) =>
        CreateEffect(kind, input, snapshot);
        if Accepted(kind, input).Ok? {
          var o := Accepted(kind, input).value;
          assert KindOf(o) == kind;
          assert IsStored(o, IdOf(o), Encode(o));
        }
      case Read(kind, id) =>
        ReadEffect(kind, id, snapshot);
    }
  }

  lemma {:induction false} NextExtends(worlds: seq<World>, e: Endorsement)
    requires worlds != [] && HonestOne(worlds, e) && IsCall(e.tx)
    ensures Extends(worlds[|worlds| - 1], Next(worlds, e))
  {
    var w := worlds[|worlds| - 1];
    if StillCurrent(w, e) {
      var call :| e.tx == TxOf(call);
      WritesFresh(call, Values(worlds[e.at]));
      var written := e.effect.written;
      forall k | k in written ensures k !in w && written[k].Some? && Stored(k, written[k].value) {
        assert k in e.seen && e.seen[k] == VersionOf(worlds[e.at], k) == None;
        assert VersionOf(w, k) == None;
      }
      forall k ensures k in w ==> Lookup(Next(worlds, e), k) == Some(w[k]) {
        AppliedAt(w, written, |worlds|, k);
      }
      forall k | k in Next(worlds, e) && k !in w ensures Stored(k, Next(worlds, e)[k].value) {
        AppliedAt(w, written, |worlds|, k);
      }
    }
  }

  lemma {:induction false} WorldExtends(genesis: World, events: seq<Event>, h: nat)
    requires StixRun(genesis, events) && h + 1 < |Run(genesis, events).worlds|
    ensures Extends(Run(genesis, events).worlds[h], Run(genesis, events).worlds[h + 1])
  {
    var c := Run(genesis, events);
    RunCommitsMade(genesis, events);
    OnlyGivenEndorsed(genesis, events, IsCall);
    var e := c.committed[h].0;
    assert CommitMade(c.worlds, h, e, c.committed[h].1);
    assert IsCall(e.tx);
    NextExtends(c.worlds[..h + 1], e);
    assert c.worlds[..h + 1][h] == c.worlds[h];
  }

  /** Write-once: what a key holds at some height, value and version, it holds ever after, in every
      concurrent run; so each key is written by at most one commit. */
  lemma {:induction false} WriteOnce(genesis: World, events: seq<Event>, h: nat, l: nat, k: Key)
    requires StixRun(genesis, events) && h <= l < |Run(genesis, events).worlds|
    requires k in Run(genesis, events).worlds[h]
    ensures k in Run(genesis, events).worlds[l]
    ensures Run(genesis, events).worlds[l][k] == Run(genesis, events).worlds[h][k]
    decreases l
  {
    if h < l {
      WriteOnce(genesis, events, h, l - 1, k);
      WorldExtends(genesis, events, l - 1);
    }
  }

  lemma {:induction false} GenesisFirst(genesis: World, events: seq<Event>)
    requires SafeEvents(events)
    ensures Run(genesis, events).worlds[0] == genesis
  {
    if events != [] { GenesisFirst(genesis, events[..|events| - 1]); }
  }

  /** In every world of every run each value stands under its own id and carries its kind's tag. */
  lemma {:induction false} AlwaysStored(genesis: World, events: seq<Event>, h: nat)
    requires StixRun(genesis, events) && h < |Run(genesis, events).worlds|
    ensures AllStored(Run(genesis, events).worlds[h])
  {
    var worlds: seq<World> := Run(genesis, events).worlds;
    forall i | 0 < i < |worlds| ensures Inherits(worlds, i, Stored) {
      WorldExtends(genesis, events, i - 1);
    }
    GenesisFirst(genesis, events);
    Inherited(worlds, Stored, h);
  }

  // ----- Creating and reading -----

  /** Commit `i` of the run is valid and is the given call. */
  ghost predicate Commits(c: Chain, i: nat, call: Call) {
    i < |c.committed| && c.committed[i].1 && c.committed[i].0.tx == TxOf(call)
  }

  /** A valid call answers for, and acts on, the world it is committed to. */
  lemma {:induction false} CommitActs(genesis: World, events: seq<Event>, i: nat, call: Call)
    requires StixRun(genesis, events) && Commits(Run(genesis, events), i, call)
    ensures var c := Run(genesis, events);
      && |c.worlds| == |c.committed| + 1
      && (var e := SimulateCall(call, Values(c.worlds[i]));
          c.committed[i].0.effect.answer == e.answer && Values(c.worlds[i + 1]) == After(Values(c.worlds[i]), e.written))
  {
    ValidCommitActs(genesis, events, i);
  }

  /** A successful creation leaves the object, encoded, under its id. */
  lemma {:induction false} CreationStores(genesis: World, events: seq<Event>, i: nat, kind: Kind, input: Option<Json>)
    requires StixRun(genesis, events) && Commits(Run(genesis, events), i, Create(kind, input))
    requires Run(genesis, events).committed[i].0.effect.answer.Ok?
    ensures var c := Run(genesis, events);
      && Accepted(kind, input).Ok? && |c.worlds| == |c.committed| + 1
      && (var o := Accepted(kind, input).value;
          IdOf(o) !in c.worlds[i] && IdOf(o) in c.worlds[i + 1] && c.worlds[i + 1][IdOf(o)].value == Encode(o))
  {
    var c := Run(genesis, events);
    CommitActs(genesis, events, i, Create(kind, input));
    CreateEffect(kind, input, Values(c.worlds[i]));
    var o := Accepted(kind, input).value;
    assert IdOf(o) in Values(c.worlds[i + 1]) && Values(c.worlds[i + 1])[IdOf(o)] == Encode(o);
  }

  /** And it stays there. */
  lemma CreationLasts(genesis: World, events: seq<Event>, i: nat, kind: Kind, input: Option<Json>, j: nat)
    requires StixRun(genesis, events) && i < j < |Run(genesis, events).worlds|
    requires Commits(Run(genesis, events), i, Create(kind, input))
    requires Run(genesis, events).committed[i].0.effect.answer.Ok?
    ensures Accepted(kind, input).Ok?
    ensures Lookup(Values(Run(genesis, events).worlds[j]), IdOf(Accepted(kind, input).value)) ==
            Some(Encode(Accepted(kind, input).value))
  {
    CreationStores(genesis, events, i, kind, input);
    WriteOnce(genesis, events, i + 1, j, IdOf(Accepted(kind, input).value));
  }

  /** One id never names two objects: of all the creations in a run, of any kinds, at most one for
      an id succeeds. */
  lemma {:induction false} OneCreationPerId(
    genesis: World, events: seq<Event>, i: nat, a: Kind, x: Option<Json>, j: nat, b: Kind, y: Option<Json>)
    requires StixRun(genesis, events) && i < j
    requires Commits(Run(genesis, events), i, Create(a, x)) && Commits(Run(genesis, events), j, Create(b, y))
    requires Run(genesis, events).committed[i].0.effect.answer.Ok?
    requires Run(genesis, events).committed[j].0.effect.answer.Ok?
    ensures Accepted(a, x).Ok? && Accepted(b, y).Ok?
    ensures IdOf(Accepted(a, x).value) != IdOf(Accepted(b, y).value)
  {
    CreationStores(genesis, events, j, b, y);
    CreationLasts(genesis, events, i, a, x, j);
  }

  lemma LaterRead(genesis: World, events: seq<Event>, j: nat, reader: Kind, id: string, v: Json)
    requires StixRun(genesis, events) && Commits(Run(genesis, events), j, Read(reader, id))
    requires j < |Run(genesis, events).worlds| && Lookup(Values(Run(genesis, events).worlds[j]), id) == Some(v)
    ensures Run(genesis, events).committed[j].0.effect.answer == Payload(DecodeAs(reader, v))
  {
    CommitActs(genesis, events, j, Read(reader, id));
    ReadEffect(reader, id, Values(Run(genesis, events).worlds[j]));
  }

  /** The answer is the object, or, from the reader of another kind, one with its id and its foreign
      type tag. */
  ghost predicate ReadsBack(answer: Answer, o: StixObject, reader: Kind) {
    if reader == KindOf(o) then answer == Ok(Encode(o)) && DecodeAs(reader, answer.value) == Ok(o)
    else exists p :: answer == Ok(Encode(p)) && IdOf(p) == IdOf(o) && TypeOf(p) == Tag(KindOf(o)) != Tag(reader)
  }

  lemma AcceptedKind(kind: Kind, input: Option<Json>)
    requires Accepted(kind, input).Ok?
    ensures KindOf(Accepted(kind, input).value) == kind && TypeOf(Accepted(kind, input).value) == Tag(kind)
  {
  }

  lemma {:induction false} PayloadReadsBack(o: StixObject, reader: Kind)
    requires TypeOf(o) == Tag(KindOf(o))
    ensures ReadsBack(Payload(DecodeAs(reader, Encode(o))), o, reader)
  {
    if reader == KindOf(o) {
      StixRoundTrip(o);
    } else {
      ForeignReader(reader, o);
      TagsDiffer(reader, KindOf(o));
    }
  }

  /** After a creation every valid read of its id answers: the reader of its kind exactly the object
      created, any other reader an object with the foreign type tag. */
  lemma {:induction false} CreatedIsRead(
    genesis: World, events: seq<Event>, i: nat, kind: Kind, input: Option<Json>, j: nat, reader: Kind)
    requires StixRun(genesis, events) && i < j
    requires Commits(Run(genesis, events), i, Create(kind, input)) && Accepted(kind, input).Ok?
    requires Run(genesis, events).committed[i].0.effect.answer.Ok?
    requires Commits(Run(genesis, events), j, Read(reader, IdOf(Accepted(kind, input).value)))
    ensures KindOf(Accepted(kind, input).value) == kind
    ensures ReadsBack(Run(genesis, events).committed[j].0.effect.answer, Accepted(kind, input).value, reader)
  {
    var o := Accepted(kind, input).value;
    RunCommitsMade(genesis, events);
    CreationLasts(genesis, events, i, kind, input, j);
    LaterRead(genesis, events, j, reader, IdOf(o), Encode(o));
    AcceptedKind(kind, input);
    PayloadReadsBack(o, reader);
  }

  /** After any run, creating an acceptable object under a fresh, non-empty id, undisturbed, succeeds and
      stores it. */
  lemma {:induction false} FreshCreationSucceeds(genesis: World, events: seq<Event>, kind: Kind, input: Option<Json>)
    requires StixRun(genesis, events) && Accepted(kind, input).Ok?
    requires IdOf(Accepted(kind, input).value) != ""
    requires IdOf(Accepted(kind, input).value) !in Current(Run(genesis, events))
    ensures var c, o := Run(genesis, events), Accepted(kind, input).value;
      var more := events + [Endorse(TxOf(Create(kind, input)), |c.worlds| - 1), Commit(|c.endorsed|)];
      && SafeEvents(more)
      && (var d := Run(genesis, more);
          && |d.committed| == |c.committed| + 1 && d.committed[|c.committed|].1
          && d.committed[|c.committed|].0.effect.answer == Ok(Null)
          && Values(Current(d)) == Values(Current(c))[IdOf(o) := Encode(o)])
  {
    var c, o, tx := Run(genesis, events), Accepted(kind, input).value, TxOf(Create(kind, input));
    UndisturbedCommits(genesis, events, tx);
    CreateEffect(kind, input, Values(Current(c)));
    DirectIsSimulated(tx.program, tx.bound, Values(Current(c)), Values(Current(c)), {});
    assert After(Values(Current(c)), map[IdOf(o) := Some(Encode(o))]) == Values(Current(c))[IdOf(o) := Encode(o)];
  }
}
