/** The asset contract: a registry of assets in the world state, one function a transaction. */
module AssetContract {
  import opened Collections
  import opened Json
  import opened Ledger
  import opened Stub

  datatype Asset = Asset(id: string, color: string, size: int64, owner: string, appraisedValue: int64)

  function EncodeAsset(a: Asset): Json {
    Obj(map[Id := Str(a.id), Color := Str(a.color), Size := Int(a.size as int),
        Owner := Str(a.owner), AppraisedValue := Int(a.appraisedValue as int)])
  }

  function DecodeAsset(j: Json): Result<Asset> {
    match j
    case Null => Ok(Asset("", "", 0, "", 0))
    case Obj(f) =>
      (match (DecodeString(Field(f, Id)), DecodeString(Field(f, Color)), DecodeInt(Field(f, Size)),
              DecodeString(Field(f, Owner)), DecodeInt(Field(f, AppraisedValue)))
       case (Ok(id), Ok(color), Ok(size), Ok(owner), Ok(value)) => Ok(Asset(id, color, size, owner, value))
       case _ => Err("cannot unmarshal asset"))
    case _ => Err("cannot unmarshal asset")
  }

  function FieldsOf(j: Json): map<FieldName, Json> {
    if j.Obj? then j.fields else map[]
  }

  /** Decoding an encoded asset gives it back, and each field stands under its own name. */
  lemma AssetRoundTrip(a: Asset)
    ensures DecodeAsset(EncodeAsset(a)) == Ok(a)
    ensures var f := FieldsOf(EncodeAsset(a));
      && Field(f, Id) == Str(a.id) && Field(f, Color) == Str(a.color) && Field(f, Owner) == Str(a.owner)
      && Field(f, Size) == Int(a.size as int) && Field(f, AppraisedValue) == Int(a.appraisedValue as int)
  {
    var f := EncodeAsset(a).fields;
    assert Field(f, Id) == Str(a.id) && Field(f, Color) == Str(a.color) && Field(f, Owner) == Str(a.owner);
    assert Field(f, Size) == Int(a.size as int) && Field(f, AppraisedValue) == Int(a.appraisedValue as int);
  }

  const INITIAL_ASSETS: seq<Asset> := [
    Asset("asset1", "blue", 5, "Tomoko", 300), Asset("asset2", "red", 5, "Brad", 400),
    Asset("asset3", "green", 10, "Jin Soo", 500), Asset("asset4", "yellow", 10, "Max", 600),
    Asset("asset5", "black", 15, "Adriana", 700), Asset("asset6", "white", 15, "Michel", 800)
  ]

  function Exists(id: string): string { "the asset " + id + " already exists" }

  function Missing(id: string): string { "the asset " + id + " does not exist" }

  // ----- The functions as programs -----

  datatype Call =
    | InitLedger
    | CreateAsset(asset: Asset)
    | ReadAsset(id: string)
    | UpdateAsset(asset: Asset)
    | DeleteAsset(id: string)
    | AssetExists(id: string)
    | TransferAsset(id: string, newOwner: string)

  function PutAll(assets: seq<Asset>): Program {
    if assets == [] then Done(Ok(Null)) else
    if assets[0].id == "" then Done(Err(EMPTY_KEY)) else
      Put(assets[0].id, Some(EncodeAsset(assets[0])), PutAll(assets[1..]))
  }

  function ProgramOf(call: Call): Program {
    match call
    case InitLedger => PutAll(INITIAL_ASSETS)
    case CreateAsset(a) =>
      Get(a.id, (v: Option<Json>) =>
            if v.Some? then Done(Err(Exists(a.id))) else PutLast(a.id, EncodeAsset(a), Ok(Null)))
    case ReadAsset(id) =>
      Get(id, (v: Option<Json>) => match ReadResult(id, v)
              case Ok(a) => Done(Ok(EncodeAsset(a)))
              case Err(error) => Done(Err(error)))
    case UpdateAsset(a) =>
      Get(a.id, (v: Option<Json>) =>
            if v.None? then Done(Err(Missing(a.id))) else PutLast(a.id, EncodeAsset(a), Ok(Null)))
    case DeleteAsset(id) =>
      Get(id, (v: Option<Json>) =>
            if v.None? then Done(Err(Missing(id))) else Put(id, None, Done(Ok(Null))))
    case AssetExists(id) =>
      Get(id, (v: Option<Json>) => Done(Ok(Bool(v.Some?))))
    case TransferAsset(id, newOwner) =>
      Get(id, (v: Option<Json>) => match ReadResult(id, v)
              case Ok(a) => PutLast(id, EncodeAsset(a.(owner := newOwner)), Ok(Str(a.owner)))
              case Err(error) => Done(Err(error)))
  }

  function ReadResult(id: string, v: Option<Json>): Result<Asset> {
    if v.None? then Err(Missing(id)) else DecodeAsset(v.value)
  }

  lemma {:induction false} PutAllSafe(assets: seq<Asset>, done: set<Key>)
    ensures Within(PutAll(assets), |assets|) && NeverReadsOwn(PutAll(assets), |assets|, done)
  {
    if assets != [] && assets[0].id != "" {
      PutAllSafe(assets[1..], done + {assets[0].id});
    }
  }

  ghost function PutEffect(assets: seq<Asset>, snapshot: map<Key, Json>): Effect {
    PutAllSafe(assets, {});
    Simulate(PutAll(assets), |assets|, snapshot)
  }

  lemma PutOne(assets: seq<Asset>, i: nat, snapshot: map<Key, Json>)
    requires i < |assets|
    ensures var rest := PutEffect(assets[i + 1..], snapshot);
      PutEffect(assets[i..], snapshot) ==
      if assets[i].id == "" then Effect(Err(EMPTY_KEY), {}, map[])
      else Effect(rest.answer, rest.asked, map[assets[i].id := Some(EncodeAsset(assets[i]))] + rest.written)
  {
    PutAllSafe(assets[i..], {});
    assert assets[i..][1..] == assets[i + 1..];
  }

  lemma NoAssets(snapshot: map<Key, Json>)
    ensures PutEffect([], snapshot) == Effect(Ok(Null), {}, map[])
  {
  }

  lemma MergePut(w: map<Key, Option<Json>>, k: Key, v: Option<Json>, more: map<Key, Option<Json>>)
    ensures w[k := v] + more == w + (map[k := v] + more)
  {
  }

  function Bound(call: Call): nat {
    if call.InitLedger? then |INITIAL_ASSETS| else 2
  }

  /** No function reads a key it has written. */
  lemma {:induction false} CallIsSafe(call: Call)
    ensures Safe(Tx(ProgramOf(call), Bound(call)))
  {
    if call.InitLedger? {
      PutAllSafe(INITIAL_ASSETS, {});
    } else {
      var p := ProgramOf(call);
      assert p.Get? && forall v :: AtMostOnePut(p.next(v));
      ReadThenPutSafe(p.key, p.next);
    }
  }

  ghost function TxOf(call: Call): (tx: Tx)
    ensures tx.program == ProgramOf(call) && Safe(tx)
  {
    CallIsSafe(call);
    Tx(ProgramOf(call), Bound(call))
  }

  ghost function SimulateCall(call: Call, snapshot: map<Key, Json>): Effect {
    Simulate(TxOf(call).program, TxOf(call).bound, snapshot)
  }

  // ----- The functions themselves -----

  class SmartContract {

    static method PutEach(stub: Stub, assets: seq<Asset>) returns (answer: Answer)
      requires Within(PutAll(assets), |assets|)
      modifies stub
      ensures stub.Simulated(Tx(PutAll(assets), |assets|), old(stub.asked), old(stub.written), answer)
    {
      ghost var e := PutEffect(assets, stub.snapshot);
      ghost var rest := e;
      assert assets[0..] == assets;
      for i := 0 to |assets|
        invariant stub.asked == old(stub.asked)
        invariant rest == PutEffect(assets[i..], stub.snapshot)
        invariant rest.answer == e.answer && rest.asked == e.asked
        invariant stub.written + rest.written == old(stub.written) + e.written
      {
        PutOne(assets, i, stub.snapshot);
        ghost var before := stub.written;
        answer := stub.PutState(assets[i].id, EncodeAsset(assets[i]));
        if answer.Err? {
          assert stub.written + map[] == stub.written;
          return;
        }
        rest := PutEffect(assets[i + 1..], stub.snapshot);
        MergePut(before, assets[i].id, Some(EncodeAsset(assets[i])), rest.written);
      }
      assert assets[|assets|..] == [];
      NoAssets(stub.snapshot);
      assert stub.written + map[] == stub.written;
      return Ok(Null);
    }

    static method InitLedger(stub: Stub) returns (answer: Answer)
      modifies stub
      ensures stub.Simulated(TxOf(Call.InitLedger), old(stub.asked), old(stub.written), answer)
    {
      PutAllSafe(INITIAL_ASSETS, {});
      answer := PutEach(stub, INITIAL_ASSETS);
    }

    static method AssetExists(stub: Stub, id: string) returns (present: bool)
      modifies stub`asked
      ensures stub.Simulated(TxOf(Call.AssetExists(id)), old(stub.asked), old(stub.written), Ok(Bool(present)))
      ensures present <==> id in stub.snapshot
      ensures stub.asked == old(stub.asked) + {id} && stub.written == old(stub.written)
    {
      var asset := stub.GetState(id);
      OneRead(Call.AssetExists(id), stub.snapshot);
      return asset.Some?;
    }

    static method CreateAsset(stub: Stub, id: string, color: string, size: int64, owner: string, appraisedValue: int64)
      returns (answer: Answer)
      modifies stub
      ensures stub.Simulated(TxOf(Call.CreateAsset(Asset(id, color, size, owner, appraisedValue))),
                             old(stub.asked), old(stub.written), answer)
      ensures answer.Ok? <==> id !in stub.snapshot && id != ""
      ensures stub.written ==
        (if answer.Ok? then old(stub.written)[id := Some(EncodeAsset(Asset(id, color, size, owner, appraisedValue)))]
         else old(stub.written))
    {
      var asset := Asset(id, color, size, owner, appraisedValue);
      OneRead(Call.CreateAsset(asset), stub.snapshot);
      var present := AssetExists(stub, id);
      if present { return Err(Exists(id)); }
      answer := stub.PutState(id, EncodeAsset(asset));
    }

    static method ReadAsset(stub: Stub, id: string) returns (asset: Result<Asset>)
      modifies stub`asked
      ensures stub.Simulated(TxOf(Call.ReadAsset(id)), old(stub.asked), old(stub.written),
                             match asset case Ok(a) => Ok(EncodeAsset(a)) case Err(error) => Err(error))
      ensures asset == ReadResult(id, Lookup(stub.snapshot, id))
      ensures id in stub.snapshot ==> asset == DecodeAsset(stub.snapshot[id])
      ensures id !in stub.snapshot ==> asset.Err?
      ensures stub.asked == old(stub.asked) + {id} && stub.written == old(stub.written)
    {
      OneRead(Call.ReadAsset(id), stub.snapshot);
      var assetJSON := stub.GetState(id);
      if assetJSON.None? { return Err(Missing(id)); }
      return DecodeAsset(assetJSON.value);
    }

    static method UpdateAsset(stub: Stub, id: string, color: string, size: int64, owner: string, appraisedValue: int64)
      returns (answer: Answer)
      modifies stub
      ensures stub.Simulated(TxOf(Call.UpdateAsset(Asset(id, color, size, owner, appraisedValue))),
                             old(stub.asked), old(stub.written), answer)
      ensures answer.Ok? <==> id in stub.snapshot && id != ""
      ensures stub.written ==
        (if answer.Ok? then old(stub.written)[id := Some(EncodeAsset(Asset(id, color, size, owner, appraisedValue)))]
         else old(stub.written))
    {
      var asset := Asset(id, color, size, owner, appraisedValue);
      OneRead(Call.UpdateAsset(asset), stub.snapshot);
      var present := AssetExists(stub, id);
      if !present { return Err(Missing(id)); }
      answer := stub.PutState(id, EncodeAsset(asset));
    }

    static method DeleteAsset(stub: Stub, id: string) returns (answer: Answer)
      modifies stub
      ensures stub.Simulated(TxOf(Call.DeleteAsset(id)), old(stub.asked), old(stub.written), answer)
      ensures answer.Ok? <==> id in stub.snapshot
      ensures stub.written == if answer.Ok? then old(stub.written)[id := None] else old(stub.written)
    {
      OneRead(Call.DeleteAsset(id), stub.snapshot);
      var present := AssetExists(stub, id);
      if !present { return Err(Missing(id)); }
      stub.DelState(id);
      return Ok(Null);
    }

    static method TransferAsset(stub: Stub, id: string, newOwner: string) returns (oldOwner: Result<string>)
      modifies stub
      ensures stub.Simulated(TxOf(Call.TransferAsset(id, newOwner)), old(stub.asked), old(stub.written),
                             match oldOwner case Ok(o) => Ok(Str(o)) case Err(error) => Err(error))
      ensures oldOwner.Ok? <==> id in stub.snapshot && id != "" && DecodeAsset(stub.snapshot[id]).Ok?
      ensures oldOwner.Ok? ==>
        var asset := DecodeAsset(stub.snapshot[id]).value;
        oldOwner.value == asset.owner
        && stub.written == old(stub.written)[id := Some(EncodeAsset(asset.(owner := newOwner)))]
      ensures oldOwner.Err? ==> stub.written == old(stub.written)
    {
      TransferEffect(id, newOwner, stub.snapshot);
      var read := ReadAsset(stub, id);
      if read.Err? { return Err(read.error); }
      var asset := read.value;
      var was := asset.owner;
      asset := asset.(owner := newOwner);
      var put := stub.PutState(id, EncodeAsset(asset));
      if put.Err? { return Err(put.error); }
      return Ok(was);
    }
  }

  lemma {:induction false} OneRead(call: Call, snapshot: map<Key, Json>)
    requires !call.InitLedger?
    ensures var p := ProgramOf(call);
      ReadThen(p.key, p.next(Lookup(snapshot, p.key)), SimulateCall(call, snapshot))
  {
    var p := ProgramOf(call);
    CallIsSafe(call);
    assert AtMostOnePut(p.next(Lookup(snapshot, p.key)));
    ReadThenEffect(p, snapshot);
  }

  lemma TransferEffect(id: string, newOwner: string, snapshot: map<Key, Json>)
    ensures var e := SimulateCall(TransferAsset(id, newOwner), snapshot);
      match ReadResult(id, Lookup(snapshot, id))
      case Err(error) => e == Effect(Err(error), {id}, map[])
      case Ok(a) =>
        if id == "" then e == Effect(Err(EMPTY_KEY), {id}, map[])
        else e == Effect(Ok(Str(a.owner)), {id}, map[id := Some(EncodeAsset(a.(owner := newOwner)))])
  {
    OneRead(TransferAsset(id, newOwner), snapshot);
  }
}
