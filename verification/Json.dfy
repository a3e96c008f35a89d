/** JSON values and the rules of Go's `encoding/json` for decoding them into struct fields: a missing
    or null field keeps its zero value, a value of another kind is an error. */
module Json {
  import opened Collections

  /** An object key, by the struct field it matches in the two contracts. */
  datatype FieldName =
    | Type | Id | SpecVersion | Created | Modified
    | Name | Description | Pattern | PatternType | ValidFrom | Labels | Confidence | ExternalReferences
    | SourceName | Url
    | RelationshipType | SourceRef | TargetRef
    | FirstSeen | LastSeen | Count | SightingOfRef | WhereSightedRefs
    | Objects
    | Color | Size | Owner | AppraisedValue
    | Other(key: string)

  datatype Json =
    | Null
    | Bool(flag: bool)
    | Int(number: int)
    | Real
    | Str(text: string)
    | Arr(items: seq<Json>)
    | Obj(fields: map<FieldName, Json>)

  newtype int64 = x: int | -0x8000_0000_0000_0000 <= x < 0x8000_0000_0000_0000

  function Field(fields: map<FieldName, Json>, name: FieldName): Json {
    if name in fields then fields[name] else Null
  }

  function DecodeString(j: Json): Result<string> {
    match j
    case Null => Ok("")
    case Str(s) => Ok(s)
    case _ => Err("cannot unmarshal value into string")
  }

  function DecodeInt(j: Json): Result<int64> {
    match j
    case Null => Ok(0)
    case Int(n) =>
      if -0x8000_0000_0000_0000 <= n < 0x8000_0000_0000_0000 then Ok(n as int64)
      else Err("cannot unmarshal number into int")
    case _ => Err("cannot unmarshal value into int")
  }

  /** A slice: `None` is Go's nil, which null leaves and which is encoded as null. */
  function DecodeItems<T>(j: Json, item: Json -> Result<T>): Result<Option<seq<T>>> {
    match j
    case Null => Ok(None)
    case Arr(items) =>
      (match DecodeAll(items, item)
       case Ok(values) => Ok(Some(values))
       case Err(error) => Err(error))
    case _ => Err("cannot unmarshal value into slice")
  }

  function DecodeAll<T>(items: seq<Json>, item: Json -> Result<T>): Result<seq<T>> {
    if items == [] then Ok([])
    else
      match (item(items[0]), DecodeAll(items[1..], item))
      case (Ok(value), Ok(values)) => Ok([value] + values)
      case (Err(error), _) => Err(error)
      case (_, Err(error)) => Err(error)
  }

  function EncodeItems<T>(values: Option<seq<T>>, item: T -> Json): Json {
    match values
    case None => Null
    case Some(s) => Arr(seq(|s|, i requires 0 <= i < |s| => item(s[i])))
  }

  lemma {:induction false} DecodeAllEncoded<T(!new)>(s: seq<T>, items: seq<Json>, encode: T -> Json, decode: Json -> Result<T>)
    requires forall x :: decode(encode(x)) == Ok(x)
    requires |items| == |s| && forall i :: 0 <= i < |s| ==> items[i] == encode(s[i])
    ensures DecodeAll(items, decode) == Ok(s)
  {
    if s != [] {
      DecodeAllEncoded(s[1..], items[1..], encode, decode);
      assert s == [s[0]] + s[1..];
    }
  }

  /** A slice comes back from its encoding when its elements do, nil as nil and empty as empty. */
  lemma {:induction false} ItemsRoundTrip<T(!new)>(values: Option<seq<T>>, encode: T -> Json, decode: Json -> Result<T>)
    requires forall x :: decode(encode(x)) == Ok(x)
    ensures DecodeItems(EncodeItems(values, encode), decode) == Ok(values)
  {
    if values.Some? {
      DecodeAllEncoded(values.value, EncodeItems(values, encode).items, encode, decode);
    }
  }
}
