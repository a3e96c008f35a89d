/** The STIX contract: objects are created under their ids, once, and read back by id. A call's JSON
    argument is its parsed value, `None` when it is not JSON at all. */
module StixContract {
  import opened Collections
  import opened Json
  import opened Ledger
  import opened Stub
  import opened StixObjects

  function AssetMissing(id: string): string { "asset " + id + " does not exist" }

  function TypeError(kind: Kind): string { "asset type must be '" + Tag(kind) + "'" }

  function IdTaken(kind: Kind, id: string): string { Tag(kind) + " with ID " + id + " already exists" }

  function ParseError(kind: Kind): string { "failed to parse " + Tag(kind) + " JSON" }

  // ----- The functions as programs -----

  datatype Call =
    | Create(kind: Kind, input: Option<Json>)
    | Read(kind: Kind, id: string)

  /** What a creator accepts: an object of its own kind and with its own type tag. */
  function Accepted(kind: Kind, input: Option<Json>): Result<StixObject> {
    if input.None? || DecodeAs(kind, input.value).Err? then Err(ParseError(kind))
    else if TypeOf(DecodeAs(kind, input.value).value) != Tag(kind) then Err(TypeError(kind))
    else DecodeAs(kind, input.value)
  }

  /** What a reader answers for what it finds. */
  function Fetched(kind: Kind, id: string, v: Option<Json>): Result<StixObject> {
    if v.None? then Err(AssetMissing(id)) else DecodeAs(kind, v.value)
  }

  function Payload(o: Result<StixObject>): Answer {
    match o
    case Ok(x) => Ok(Encode(x))
    case Err(error) => Err(error)
  }

  function ProgramOf(call: Call): Program {
    match call
    case Create(kind, input) =>
      (match Accepted(kind, input)
       case Err(error) => Done(Err(error))
       case Ok(o) =>
         Get(IdOf(o), (v: Option<Json>) =>
               if v.Some? then Done(Err(IdTaken(kind, IdOf(o)))) else PutLast(IdOf(o), Encode(o), Ok(Null))))
    case Read(kind, id) =>
      Get(id, (v: Option<Json>) => Done(Payload(Fetched(kind, id, v))))
  }

  lemma {:induction false} CallIsSafe(call: Call)
    ensures Safe(Tx(ProgramOf(call), 2))
  {
    var p := ProgramOf(call);
    if p.Get? {
      assert forall v :: AtMostOnePut(p.next(v));
      ReadThenPutSafe(p.key, p.next);
    }
  }

  /** No function reads a key it has written. */
  ghost function TxOf(call: Call): (tx: Tx)
    ensures tx.program == ProgramOf(call) && tx.bound == 2 && Safe(tx)
  {
    CallIsSafe(call);
    Tx(ProgramOf(call), 2)
  }

  ghost function SimulateCall(call: Call, snapshot: map<Key, Json>): Effect {
    Simulate(TxOf(call).program, TxOf(call).bound, snapshot)
  }

  /** The effect of creating, case by case. */
  lemma {:induction false} CreateEffect(kind: Kind, input: Option<Json>, snapshot: map<Key, Json>)
    ensures var e := SimulateCall(Create(kind, input), snapshot);
      match Accepted(kind, input)
      case Err(error) => e == Effect(Err(error), {}, map[])
      case Ok(o) =>
        var id := IdOf(o);
        if id in snapshot then e == Effect(Err(IdTaken(kind, id)), {id}, map[])
        else if id == "" then e == Effect(Err(EMPTY_KEY), {id}, map[])
        else e == Effect(Ok(Null), {id}, map[id := Some(Encode(o))])
  {
    var p := ProgramOf(Create(kind, input));
    if p.Get? {
      assert AtMostOnePut(p.next(Lookup(snapshot, p.key)));
      ReadThenEffect(p, snapshot);
    }
  }

  lemma {:induction false} ReadEffect(kind: Kind, id: string, snapshot: map<Key, Json>)
    ensures SimulateCall(Read(kind, id), snapshot) ==
            Effect(Payload(Fetched(kind, id, Lookup(snapshot, id))), {id}, map[])
  {
    var p := ProgramOf(Read(kind, id));
    assert AtMostOnePut(p.next(Lookup(snapshot, id)));
    ReadThenEffect(p, snapshot);
  }

  /** Creating from the encoding of an object tagged with its own kind: its creator accepts exactly that
      object, and no other creator accepts it. */
  lemma {:induction false} AcceptsEncoded(kind: Kind, o: StixObject)
    requires TypeOf(o) == Tag(KindOf(o))
    ensures if kind == KindOf(o) then Accepted(kind, Some(Encode(o))) == Ok(o)
            else Accepted(kind, Some(Encode(o))).Err?
  {
    if kind == KindOf(o) {
      StixRoundTrip(o);
    } else {
      ForeignReader(kind, o);
      TagsDiffer(kind, KindOf(o));
    }
  }

  // ----- The functions themselves -----

  class CTIStixContract {

    static method PutAsset(stub: Stub, id: string, assetJSON: Json) returns (answer: Answer)
      modifies stub`written
      ensures id == "" ==> answer == Err(EMPTY_KEY) && stub.written == old(stub.written)
      ensures id != "" ==> answer == Ok(Null) && stub.written == old(stub.written)[id := Some(assetJSON)]
    {
      answer := stub.PutState(id, assetJSON);
    }

    static method GetAsset(stub: Stub, id: string) returns (data: Result<Json>)
      modifies stub`asked
      ensures stub.asked == old(stub.asked) + {id}
      ensures data == if id in stub.snapshot then Ok(stub.snapshot[id]) else Err(AssetMissing(id))
    {
      var value := stub.GetState(id);
      if value.None? { return Err(AssetMissing(id)); }
      return Ok(value.value);
    }

    static method AssetExists(stub: Stub, id: string) returns (present: bool)
      modifies stub`asked
      ensures stub.asked == old(stub.asked) + {id} && (present <==> id in stub.snapshot)
    {
      var value := stub.GetState(id);
      return value.Some?;
    }

    static method CreateIndicator(stub: Stub, json: Option<Json>) returns (answer: Answer)
      modifies stub
      ensures stub.Simulated(TxOf(Create(IndicatorKind, json)), old(stub.asked), old(stub.written), answer)
      ensures answer.Ok? <==>
        && json.Some? && DecodeIndicator(json.value).Ok? && DecodeIndicator(json.value).value.kind == "indicator"
        && DecodeIndicator(json.value).value.id != "" && DecodeIndicator(json.value).value.id !in stub.snapshot
      ensures answer.Ok? ==>
        var ind := DecodeIndicator(json.value).value;
        stub.written == old(stub.written)[ind.id := Some(EncodeIndicator(ind))]
      ensures answer.Err? ==> stub.written == old(stub.written)
    {
      CreateEffect(IndicatorKind, json, stub.snapshot);
      if json.None? { return Err(ParseError(IndicatorKind)); }
      var ind := DecodeIndicator(json.value);
      if ind.Err? { return Err(ParseError(IndicatorKind)); }
      if ind.value.kind != Tag(IndicatorKind) { return Err(TypeError(IndicatorKind)); }
      var present := AssetExists(stub, ind.value.id);
      if present { return Err(IdTaken(IndicatorKind, ind.value.id)); }
      answer := PutAsset(stub, ind.value.id, EncodeIndicator(ind.value));
    }

    static method ReadIndicator(stub: Stub, id: string) returns (r: Result<Indicator>)
      modifies stub`asked
      ensures stub.Simulated(TxOf(Read(IndicatorKind, id)), old(stub.asked), old(stub.written),
                             match r case Ok(ind) => Ok(EncodeIndicator(ind)) case Err(error) => Err(error))
      ensures if id in stub.snapshot then r == DecodeIndicator(stub.snapshot[id]) else r.Err?
    {
      ReadEffect(IndicatorKind, id, stub.snapshot);
      var bytes := GetAsset(stub, id);
      if bytes.Err? { return Err(bytes.error); }
      return DecodeIndicator(bytes.value);
    }

    static method CreateRelationship(stub: Stub, json: Option<Json>) returns (answer: Answer)
      modifies stub
      ensures stub.Simulated(TxOf(Create(RelationshipKind, json)), old(stub.asked), old(stub.written), answer)
      ensures answer.Ok? <==>
        && json.Some? && DecodeRelationship(json.value).Ok? && DecodeRelationship(json.value).value.kind == "relationship"
        && DecodeRelationship(json.value).value.id != "" && DecodeRelationship(json.value).value.id !in stub.snapshot
      ensures answer.Ok? ==>
        var rel := DecodeRelationship(json.value).value;
        stub.written == old(stub.written)[rel.id := Some(EncodeRelationship(rel))]
      ensures answer.Err? ==> stub.written == old(stub.written)
    {
      CreateEffect(RelationshipKind, json, stub.snapshot);
      if json.None? { return Err(ParseError(RelationshipKind)); }
      var rel := DecodeRelationship(json.value);
      if rel.Err? { return Err(ParseError(RelationshipKind)); }
      if rel.value.kind != Tag(RelationshipKind) { return Err(TypeError(RelationshipKind)); }
      var present := AssetExists(stub, rel.value.id);
      if present { return Err(IdTaken(RelationshipKind, rel.value.id)); }
      answer := PutAsset(stub, rel.value.id, EncodeRelationship(rel.value));
    }

    static method ReadRelationship(stub: Stub, id: string) returns (r: Result<Relationship>)
      modifies stub`asked
      ensures stub.Simulated(TxOf(Read(RelationshipKind, id)), old(stub.asked), old(stub.written),
                             match r case Ok(rel) => Ok(EncodeRelationship(rel)) case Err(error) => Err(error))
      ensures if id in stub.snapshot then r == DecodeRelationship(stub.snapshot[id]) else r.Err?
    {
      ReadEffect(RelationshipKind, id, stub.snapshot);
      var bytes := GetAsset(stub, id);
      if bytes.Err? { return Err(bytes.error); }
      return DecodeRelationship(bytes.value);
    }

    static method CreateSighting(stub: Stub, json: Option<Json>) returns (answer: Answer)
      modifies stub
      ensures stub.Simulated(TxOf(Create(SightingKind, json)), old(stub.asked), old(stub.written), answer)
      ensures answer.Ok? <==>
        && json.Some? && DecodeSighting(json.value).Ok? && DecodeSighting(json.value).value.kind == "sighting"
        && DecodeSighting(json.value).value.id != "" && DecodeSighting(json.value).value.id !in stub.snapshot
      ensures answer.Ok? ==>
        var sit := DecodeSighting(json.value).value;
        stub.written == old(stub.written)[sit.id := Some(EncodeSighting(sit))]
      ensures answer.Err? ==> stub.written == old(stub.written)
    {
      CreateEffect(SightingKind, json, stub.snapshot);
      if json.None? { return Err(ParseError(SightingKind)); }
      var sit := DecodeSighting(json.value);
      if sit.Err? { return Err(ParseError(SightingKind)); }
      if sit.value.kind != Tag(SightingKind) { return Err(TypeError(SightingKind)); }
      var present := AssetExists(stub, sit.value.id);
      if present { return Err(IdTaken(SightingKind, sit.value.id)); }
      answer := PutAsset(stub, sit.value.id, EncodeSighting(sit.value));
    }

    static method ReadSighting(stub: Stub, id: string) returns (r: Result<Sighting>)
      modifies stub`asked
      ensures stub.Simulated(TxOf(Read(SightingKind, id)), old(stub.asked), old(stub.written),
                             match r case Ok(sit) => Ok(EncodeSighting(sit)) case Err(error) => Err(error))
      ensures if id in stub.snapshot then r == DecodeSighting(stub.snapshot[id]) else r.Err?
    {
      ReadEffect(SightingKind, id, stub.snapshot);
      var bytes := GetAsset(stub, id);
      if bytes.Err? { return Err(bytes.error); }
      return DecodeSighting(bytes.value);
    }

    static method CreateBundle(stub: Stub, json: Option<Json>) returns (answer: Answer)
      modifies stub
      ensures stub.Simulated(TxOf(Create(BundleKind, json)), old(stub.asked), old(stub.written), answer)
      ensures answer.Ok? <==>
        && json.Some? && DecodeBundle(json.value).Ok? && DecodeBundle(json.value).value.kind == "bundle"
        && DecodeBundle(json.value).value.id != "" && DecodeBundle(json.value).value.id !in stub.snapshot
      ensures answer.Ok? ==>
        var b := DecodeBundle(json.value).value;
        stub.written == old(stub.written)[b.id := Some(EncodeBundle(b))]
      ensures answer.Err? ==> stub.written == old(stub.written)
    {
      CreateEffect(BundleKind, json, stub.snapshot);
      if json.None? { return Err(ParseError(BundleKind)); }
      var b := DecodeBundle(json.value);
      if b.Err? { return Err(ParseError(BundleKind)); }
      if b.value.kind != Tag(BundleKind) { return Err(TypeError(BundleKind)); }
      var present := AssetExists(stub, b.value.id);
      if present { return Err(IdTaken(BundleKind, b.value.id)); }
      answer := PutAsset(stub, b.value.id, EncodeBundle(b.value));
    }

    static method ReadBundle(stub: Stub, id: string) returns (r: Result<Bundle>)
      modifies stub`asked
      ensures stub.Simulated(TxOf(Read(BundleKind, id)), old(stub.asked), old(stub.written),
                             match r case Ok(b) => Ok(EncodeBundle(b)) case Err(error) => Err(error))
      ensures if id in stub.snapshot then r == DecodeBundle(stub.snapshot[id]) else r.Err?
    {
      ReadEffect(BundleKind, id, stub.snapshot);
      var bytes := GetAsset(stub, id);
      if bytes.Err? { return Err(bytes.error); }
      return DecodeBundle(bytes.value);
    }
  }
}
