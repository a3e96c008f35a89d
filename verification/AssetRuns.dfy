/** What the asset contract means: a map of assets served one call at a time, also when the calls
    are simulated and ordered concurrently. */
module AssetRuns {
  import opened Collections
  import opened Json
  import opened Ledger
  import opened Stub
  import opened AssetContract

  type Registry = map<string, Asset>

  function Enter(reg: Registry, assets: seq<Asset>): Registry
    decreases |assets|
  {
    if assets == [] then reg else Enter(reg[assets[0].id := assets[0]], assets[1..])
  }

  /** The contract on plain assets: no encoding, no stub, no versions. */
  function Serve(reg: Registry, call: Call): (Answer, Registry) {
    match call
    case InitLedger => (Ok(Null), Enter(reg, INITIAL_ASSETS))
    case CreateAsset(a) =>
      if a.id in reg then (Err(Exists(a.id)), reg)
      else if a.id == "" then (Err(EMPTY_KEY), reg)
      else (Ok(Null), reg[a.id := a])
    case ReadAsset(id) =>
      (if id in reg then Ok(EncodeAsset(reg[id])) else Err(Missing(id)), reg)
    case UpdateAsset(a) =>
      if a.id !in reg then (Err(Missing(a.id)), reg)
      else if a.id == "" then (Err(EMPTY_KEY), reg)
      else (Ok(Null), reg[a.id := a])
    case DeleteAsset(id) =>
      if id in reg then (Ok(Null), reg - {id}) else (Err(Missing(id)), reg)
    case AssetExists(id) =>
      (Ok(Bool(id in reg)), reg)
    case TransferAsset(id, newOwner) =>
      if id !in reg then (Err(Missing(id)), reg)
      else if id == "" then (Err(EMPTY_KEY), reg)
      else (Ok(Str(reg[id].owner)), reg[id := reg[id].(owner := newOwner)])
  }

  ghost function Encoded(reg: Registry): map<Key, Json> {
    map k | k in reg :: EncodeAsset(reg[k])
  }

  lemma {:induction false} EncodedEntered(reg: Registry, assets: seq<Asset>, n: nat)
    requires forall i :: 0 <= i < |assets| ==> assets[i].id != ""
    requires Within(PutAll(assets), n)
    ensures Direct(PutAll(assets), n, Encoded(reg)) == (Ok(Null), Encoded(Enter(reg, assets)))
    decreases |assets|
  {
    if assets != [] {
      var a := assets[0];
      assert Encoded(reg)[a.id := EncodeAsset(a)] == Encoded(reg[a.id := a]);
      EncodedEntered(reg[a.id := a], assets[1..], n - 1);
    }
  }

  lemma EncodedLookup(reg: Registry, id: string)
    ensures Lookup(Encoded(reg), id) == if id in reg then Some(EncodeAsset(reg[id])) else None
    ensures ReadResult(id, Lookup(Encoded(reg), id)) == if id in reg then Ok(reg[id]) else Err(Missing(id))
  {
    if id in reg { AssetRoundTrip(reg[id]); }
  }

  lemma EncodedUpdate(reg: Registry, id: string, a: Asset)
    ensures Store(Encoded(reg), id, Some(EncodeAsset(a))) == Encoded(reg[id := a])
    ensures Store(Encoded(reg), id, None) == Encoded(reg - {id})
  {
  }

  /** Executing a function on encoded assets is serving the call on the assets. */
  lemma {:induction false} DirectServes(call: Call, reg: Registry)
    ensures var tx := TxOf(call);
      Direct(tx.program, tx.bound, Encoded(reg)) == (Serve(reg, call).0, Encoded(Serve(reg, call).1))
  {
    var tx := TxOf(call);
    if call.InitLedger? {
      EncodedEntered(reg, INITIAL_ASSETS, tx.bound);
    } else {
      var id := tx.program.key;
      EncodedLookup(reg, id);
      DirectOneRead(tx.program, Encoded(reg));
      match call {
        case CreateAsset(a) => EncodedUpdate(reg, id, a);
        case UpdateAsset(a) => EncodedUpdate(reg, id, a);
        case TransferAsset(_, newOwner) =>
          if id in reg { EncodedUpdate(reg, id, reg[id].(owner := newOwner)); }
        case DeleteAsset(_) => EncodedUpdate(reg, id, Asset("", "", 0, "", 0));
        case _ =>
      }
    }
  }

  function ServeAll(reg: Registry, calls: seq<Call>): (seq<Answer>, Registry) {
    if calls == [] then ([], reg)
    else
      var n := |calls| - 1;
      var (answers, before) := ServeAll(reg, calls[..n]);
      var (answer, after) := Serve(before, calls[n]);
      (answers + [answer], after)
  }

  ghost predicate Makes(calls: seq<Call>, txs: seq<Endorsement>) {
    |calls| == |txs| && forall i :: 0 <= i < |txs| ==> txs[i].tx == TxOf(calls[i])
  }

  lemma {:induction false} SerialServes(reg: Registry, txs: seq<Endorsement>, calls: seq<Call>)
    requires Makes(calls, txs)
    ensures AllSafe(txs)
    ensures var (state, answers) := Serial(Encoded(reg), txs);
      answers == ServeAll(reg, calls).0 && state == Encoded(ServeAll(reg, calls).1)
  {
    if txs != [] {
      var n := |txs| - 1;
      SerialServes(reg, txs[..n], calls[..n]);
      DirectServes(calls[n], ServeAll(reg, calls[..n]).1);
    }
  }

  ghost predicate IsCall(tx: Tx) {
    exists call :: tx == TxOf(call)
  }

  lemma {:induction false} CallsOf(txs: seq<Endorsement>) returns (calls: seq<Call>)
    requires TxsGiven(txs, IsCall)
    ensures Makes(calls, txs)
  {
    if txs == [] { return []; }
    var n := |txs| - 1;
    var before := CallsOf(txs[..n]);
    assert IsCall(txs[n].tx);
    var call :| txs[n].tx == TxOf(call);
    calls := before + [call];
    forall i | 0 <= i < |txs| ensures txs[i].tx == TxOf(calls[i]) {
      if i < n { assert txs[..n][i].tx == TxOf(before[i]); }
    }
  }

  /** Over every interleaving of simulations and commits of asset calls, the stored assets and the
      answers of the valid transactions are those of serving their calls one at a time. */
  lemma {:induction false} AssetRunsAreSerial(genesis: World, reg: Registry, events: seq<Event>) returns (calls: seq<Call>)
    requires Values(genesis) == Encoded(reg) && forall k :: k in genesis ==> genesis[k].version == 0
    requires SafeEvents(events) && AllGiven(events, IsCall)
    ensures var c := Run(genesis, events);
      var txs := ValidOnes(c.committed);
      && Makes(calls, txs)
      && Answers(txs) == ServeAll(reg, calls).0
      && Values(Current(c)) == Encoded(ServeAll(reg, calls).1)
  {
    var c := Run(genesis, events);
    OnlyGivenEndorsed(genesis, events, IsCall);
    calls := CallsOf(ValidOnes(c.committed));
    Serializable(genesis, events);
    SerialServes(reg, ValidOnes(c.committed), calls);
  }

  // ----- What serving keeps -----

  ghost predicate Keyed(reg: Registry) {
    forall k :: k in reg ==> reg[k].id == k && k != ""
  }

  lemma {:induction false} EnterKeepsKeyed(reg: Registry, assets: seq<Asset>)
    requires Keyed(reg) && forall i :: 0 <= i < |assets| ==> assets[i].id != ""
    ensures Keyed(Enter(reg, assets))
    decreases |assets|
  {
    if assets != [] { EnterKeepsKeyed(reg[assets[0].id := assets[0]], assets[1..]); }
  }

  lemma ServeKeepsKeyed(reg: Registry, call: Call)
    requires Keyed(reg)
    ensures Keyed(Serve(reg, call).1)
  {
    EnterKeepsKeyed(reg, INITIAL_ASSETS);
  }

  /** Every stored asset carries its key as its id. */
  lemma {:induction false} ServingKeepsKeyed(reg: Registry, calls: seq<Call>)
    requires Keyed(reg)
    ensures Keyed(ServeAll(reg, calls).1)
  {
    if calls != [] {
      var n := |calls| - 1;
      ServingKeepsKeyed(reg, calls[..n]);
      ServeKeepsKeyed(ServeAll(reg, calls[..n]).1, calls[n]);
    }
  }

  // ----- What the calls mean to each other -----

  /** What the registry says about an asset, asked through the calls themselves. */
  function Present(reg: Registry, id: string): bool {
    Serve(reg, AssetExists(id)).0 == Ok(Bool(true))
  }

  function ReadBack(reg: Registry, id: string): Answer {
    Serve(reg, ReadAsset(id)).0
  }

  /** When each call succeeds, and that a failing call and a reading one change nothing. */
  lemma {:induction false} SucceedsIff(reg: Registry, call: Call)
    requires !call.InitLedger?
    ensures var (answer, after) := Serve(reg, call);
      && (match call
          case CreateAsset(a) => answer.Ok? <==> !Present(reg, a.id) && a.id != ""
          case UpdateAsset(a) => answer.Ok? <==> Present(reg, a.id) && a.id != ""
          case TransferAsset(id, _) => answer.Ok? <==> Present(reg, id) && id != ""
          case DeleteAsset(id) => answer.Ok? <==> Present(reg, id)
          case ReadAsset(id) => answer.Ok? <==> Present(reg, id)
          case _ => answer.Ok?)
      && (answer.Err? || call.ReadAsset? || call.AssetExists? ==> after == reg)
  {
  }

  /** What a successful call makes a later read of its asset answer; a transfer changes the owner only,
      and answers the one before. */
  lemma {:induction false} ReadsBackWritten(reg: Registry, call: Call)
    requires Serve(reg, call).0.Ok?
    ensures var (answer, after) := Serve(reg, call);
      match call
      case CreateAsset(a) => ReadBack(after, a.id) == Ok(EncodeAsset(a)) && answer == Ok(Null)
      case UpdateAsset(a) => ReadBack(after, a.id) == Ok(EncodeAsset(a)) && answer == Ok(Null)
      case DeleteAsset(id) => !Present(after, id) && ReadBack(after, id).Err? && answer == Ok(Null)
      case TransferAsset(id, newOwner) =>
        exists a :: && ReadBack(reg, id) == Ok(EncodeAsset(a)) && answer == Ok(Str(a.owner))
                    && ReadBack(after, id) == Ok(EncodeAsset(a.(owner := newOwner)))
      case _ => true
  {
  }

  /** No call shows in the reads of another asset. */
  lemma {:induction false} OthersReadAlike(reg: Registry, call: Call, id: string)
    requires match call
      case CreateAsset(a) => a.id != id
      case UpdateAsset(a) => a.id != id
      case DeleteAsset(k) => k != id
      case TransferAsset(k, _) => k != id
      case InitLedger => forall i :: 0 <= i < |INITIAL_ASSETS| ==> INITIAL_ASSETS[i].id != id
      case _ => true
    ensures ReadBack(Serve(reg, call).1, id) == ReadBack(reg, id)
    ensures Present(Serve(reg, call).1, id) == Present(reg, id)
  {
    if call.InitLedger? { EnterKeepsOthers(reg, INITIAL_ASSETS, id); }
  }

  predicate MayWrite(call: Call, id: string) {
    match call
    case InitLedger => exists i :: 0 <= i < |INITIAL_ASSETS| && INITIAL_ASSETS[i].id == id
    case CreateAsset(a) => a.id == id
    case UpdateAsset(a) => a.id == id
    case DeleteAsset(k) => k == id
    case TransferAsset(k, _) => k == id
    case _ => false
  }

  lemma {:induction false} EnterKeepsOthers(reg: Registry, assets: seq<Asset>, id: string)
    requires forall i :: 0 <= i < |assets| ==> assets[i].id != id
    ensures Lookup(Enter(reg, assets), id) == Lookup(reg, id)
    decreases |assets|
  {
    if assets != [] { EnterKeepsOthers(reg[assets[0].id := assets[0]], assets[1..], id); }
  }

  lemma OtherKeeps(reg: Registry, call: Call, id: string)
    requires !MayWrite(call, id)
    ensures Lookup(Serve(reg, call).1, id) == Lookup(reg, id)
  {
    if call.InitLedger? { EnterKeepsOthers(reg, INITIAL_ASSETS, id); }
  }

  lemma ServedNext(reg: Registry, calls: seq<Call>, j: nat)
    requires j < |calls|
    ensures ServeAll(reg, calls[..j + 1]).1 == Serve(ServeAll(reg, calls[..j]).1, calls[j]).1
  {
    assert calls[..j + 1][..j] == calls[..j];
  }

  lemma {:induction false} OthersKeep(reg: Registry, calls: seq<Call>, i: nat, j: nat, id: string)
    requires i <= j <= |calls| && forall k :: i <= k < j ==> !MayWrite(calls[k], id)
    ensures Lookup(ServeAll(reg, calls[..j]).1, id) == Lookup(ServeAll(reg, calls[..i]).1, id)
    decreases j
  {
    if i < j {
      OthersKeep(reg, calls, i, j - 1, id);
      ServedNext(reg, calls, j - 1);
      OtherKeeps(ServeAll(reg, calls[..j - 1]).1, calls[j - 1], id);
    }
  }

  lemma {:induction false} AnswerAt(reg: Registry, calls: seq<Call>, i: nat)
    requires i < |calls|
    ensures |ServeAll(reg, calls).0| == |calls|
    ensures ServeAll(reg, calls).0[i] == Serve(ServeAll(reg, calls[..i]).1, calls[i]).0
    decreases |calls|
  {
    var n := |calls| - 1;
    if n > 0 { AnswerAt(reg, calls[..n], if i < n then i else 0); }
    if i < n { assert calls[..n][..i] == calls[..i]; }
  }

  lemma {:induction false} EnteredAt(reg: Registry, assets: seq<Asset>, i: nat)
    requires i < |assets| && forall j :: i < j < |assets| ==> assets[j].id != assets[i].id
    ensures Lookup(Enter(reg, assets), assets[i].id) == Some(assets[i])
    decreases |assets|
  {
    var next := reg[assets[0].id := assets[0]];
    if i == 0 {
      forall j | 0 <= j < |assets| - 1 ensures assets[1..][j].id != assets[0].id {
        assert assets[1..][j] == assets[j + 1];
      }
      EnterKeepsOthers(next, assets[1..], assets[0].id);
    } else {
      EnteredAt(next, assets[1..], i - 1);
    }
  }

  /** Initialising stores exactly the six initial assets, over whatever stood under their ids, and
      touches nothing else. */
  lemma {:induction false} InitLedgerStores(reg: Registry, id: string)
    ensures var after := Serve(reg, InitLedger).1;
      && (MayWrite(InitLedger, id) ==> id in after && after[id].id == id && after[id] in INITIAL_ASSETS)
      && (!MayWrite(InitLedger, id) ==> Lookup(after, id) == Lookup(reg, id))
  {
    if MayWrite(InitLedger, id) {
      var i :| 0 <= i < |INITIAL_ASSETS| && INITIAL_ASSETS[i].id == id;
      forall j | i < j < |INITIAL_ASSETS| ensures INITIAL_ASSETS[j].id != id {
        assert INITIAL_ASSETS[j].id[5] != INITIAL_ASSETS[i].id[5];
      }
      EnteredAt(reg, INITIAL_ASSETS, i);
    } else {
      OtherKeeps(reg, InitLedger, id);
    }
  }

  lemma TransferLeaves(reg: Registry, calls: seq<Call>, i: nat)
    requires i < |calls| && calls[i].TransferAsset? && Serve(ServeAll(reg, calls[..i]).1, calls[i]).0.Ok?
    ensures var after := ServeAll(reg, calls[..i + 1]).1;
      calls[i].id != "" && calls[i].id in after && after[calls[i].id].owner == calls[i].newOwner
  {
    ServedNext(reg, calls, i);
  }

  /** No transfer is lost: a transfer answers the owner the last transfer gave the asset, when
      nothing between them in commit order writes that asset. */
  lemma {:induction false} TransfersChain(reg: Registry, calls: seq<Call>, i: nat, j: nat)
    requires i < j < |calls| && calls[i].TransferAsset? && calls[j].TransferAsset? && calls[i].id == calls[j].id
    requires |ServeAll(reg, calls).0| == |calls| && ServeAll(reg, calls).0[i].Ok?
    requires forall k :: i < k < j ==> !MayWrite(calls[k], calls[i].id)
    ensures ServeAll(reg, calls).0[j] == Ok(Str(calls[i].newOwner))
  {
    var id := calls[i].id;
    AnswerAt(reg, calls, i);
    AnswerAt(reg, calls, j);
    OthersKeep(reg, calls, i + 1, j, id);
    TransferLeaves(reg, calls, i);
  }

  /** The same in every concurrent run: the valid transfers of an asset form a chain. */
  lemma ConcurrentTransfersChain(genesis: World, reg: Registry, events: seq<Event>, calls: seq<Call>, i: nat, j: nat)
    requires Values(genesis) == Encoded(reg) && forall k :: k in genesis ==> genesis[k].version == 0
    requires SafeEvents(events) && Makes(calls, ValidOnes(Run(genesis, events).committed))
    requires i < j < |calls| && calls[i].TransferAsset? && calls[j].TransferAsset? && calls[i].id == calls[j].id
    requires ValidOnes(Run(genesis, events).committed)[i].effect.answer.Ok?
    requires forall k :: i < k < j ==> !MayWrite(calls[k], calls[i].id)
    ensures ValidOnes(Run(genesis, events).committed)[j].effect.answer == Ok(Str(calls[i].newOwner))
  {
    var txs := ValidOnes(Run(genesis, events).committed);
    Serializable(genesis, events);
    SerialServes(reg, txs, calls);
    assert Answers(txs)[i] == txs[i].effect.answer && Answers(txs)[j] == txs[j].effect.answer;
    TransfersChain(reg, calls, i, j);
  }
}
