/** The four kinds of object the STIX contract stores (Indicator, Relationship, Sighting and Bundle of
    OASIS STIX Version 2.1, sections 4.7, 5.1, 5.2 and 8) and their JSON forms. */
module StixObjects {
  import opened Collections
  import opened Json

  datatype ExternalReference = ExternalReference(sourceName: string, url: string)

  datatype Indicator = Indicator(
    kind: string, id: string, specVersion: string, created: string, modified: string,
    name: string, description: string, pattern: string, patternType: string, validFrom: string,
    labels: Option<seq<string>>, confidence: int64, externalReferences: Option<seq<ExternalReference>>)

  datatype Relationship = Relationship(
    kind: string, id: string, specVersion: string, created: string, modified: string,
    relationshipType: string, sourceRef: string, targetRef: string)

  datatype Sighting = Sighting(
    kind: string, id: string, specVersion: string, created: string, modified: string,
    firstSeen: string, lastSeen: string, count: int64, sightingOfRef: string, whereSightedRefs: Option<seq<string>>)

  datatype Bundle = Bundle(kind: string, id: string, specVersion: string, objects: Option<seq<Json>>)

  // ----- Encoding and decoding -----

  function EncodeReference(r: ExternalReference): Json {
    Obj(map[SourceName := Str(r.sourceName), Url := Str(r.url)])
  }

  function DecodeReference(j: Json): Result<ExternalReference> {
    match j
    case Null => Ok(ExternalReference("", ""))
    case Obj(f) =>
      (match (DecodeString(Field(f, SourceName)), DecodeString(Field(f, Url)))
       case (Ok(name), Ok(url)) => Ok(ExternalReference(name, url))
       case _ => Err(MISMATCH))
    case _ => Err(MISMATCH)
  }

  const MISMATCH := "cannot unmarshal value"

  function EncodeText(s: string): Json { Str(s) }

  function EncodeRaw(j: Json): Json { j }

  function DecodeRaw(j: Json): Result<Json> { Ok(j) }

  /** The fields of an object; null stands for an object without any. */
  function FieldsOf(j: Json): Option<map<FieldName, Json>> {
    match j
    case Null => Some(map[])
    case Obj(f) => Some(f)
    case _ => None
  }

  predicate IsText(f: map<FieldName, Json>, name: FieldName) {
    DecodeString(Field(f, name)).Ok?
  }

  predicate Texts(f: map<FieldName, Json>, a: FieldName, b: FieldName, c: FieldName) {
    IsText(f, a) && IsText(f, b) && IsText(f, c)
  }

  predicate Common(f: map<FieldName, Json>) {
    Texts(f, Type, Id, SpecVersion) && IsText(f, Created) && IsText(f, Modified)
  }

  function Text(f: map<FieldName, Json>, name: FieldName): string
    requires IsText(f, name)
  {
    DecodeString(Field(f, name)).value
  }

  function EncodeIndicator(o: Indicator): Json {
    Obj(map[Type := Str(o.kind), Id := Str(o.id), SpecVersion := Str(o.specVersion), Created := Str(o.created),
        Modified := Str(o.modified), Name := Str(o.name), Description := Str(o.description),
        Pattern := Str(o.pattern), PatternType := Str(o.patternType), ValidFrom := Str(o.validFrom),
        Labels := EncodeItems(o.labels, EncodeText), Confidence := Int(o.confidence as int),
        ExternalReferences := EncodeItems(o.externalReferences, EncodeReference)])
  }

  function DecodeIndicator(j: Json): Result<Indicator> {
    if FieldsOf(j).None? then Err(MISMATCH) else
      var f := FieldsOf(j).value;
      var labels := DecodeItems(Field(f, Labels), DecodeString);
      var confidence := DecodeInt(Field(f, Confidence));
      var references := DecodeItems(Field(f, ExternalReferences), DecodeReference);
      if Common(f) && Texts(f, Name, Description, Pattern) && Texts(f, PatternType, ValidFrom, Type)
         && labels.Ok? && confidence.Ok? && references.Ok?
      then Ok(Indicator(Text(f, Type), Text(f, Id), Text(f, SpecVersion), Text(f, Created), Text(f, Modified),
                        Text(f, Name), Text(f, Description), Text(f, Pattern), Text(f, PatternType), Text(f, ValidFrom),
                        labels.value, confidence.value, references.value))
      else Err(MISMATCH)
  }

  function EncodeRelationship(o: Relationship): Json {
    Obj(map[Type := Str(o.kind), Id := Str(o.id), SpecVersion := Str(o.specVersion), Created := Str(o.created),
        Modified := Str(o.modified), RelationshipType := Str(o.relationshipType),
        SourceRef := Str(o.sourceRef), TargetRef := Str(o.targetRef)])
  }

  function DecodeRelationship(j: Json): Result<Relationship> {
    if FieldsOf(j).None? then Err(MISMATCH) else
      var f := FieldsOf(j).value;
      if Common(f) && Texts(f, RelationshipType, SourceRef, TargetRef)
      then Ok(Relationship(Text(f, Type), Text(f, Id), Text(f, SpecVersion), Text(f, Created), Text(f, Modified),
                           Text(f, RelationshipType), Text(f, SourceRef), Text(f, TargetRef)))
      else Err(MISMATCH)
  }

  function EncodeSighting(o: Sighting): Json {
    Obj(map[Type := Str(o.kind), Id := Str(o.id), SpecVersion := Str(o.specVersion), Created := Str(o.created),
        Modified := Str(o.modified), FirstSeen := Str(o.firstSeen), LastSeen := Str(o.lastSeen),
        Count := Int(o.count as int), SightingOfRef := Str(o.sightingOfRef),
        WhereSightedRefs := EncodeItems(o.whereSightedRefs, EncodeText)])
  }

  function DecodeSighting(j: Json): Result<Sighting> {
    if FieldsOf(j).None? then Err(MISMATCH) else
      var f := FieldsOf(j).value;
      var count := DecodeInt(Field(f, Count));
      var refs := DecodeItems(Field(f, WhereSightedRefs), DecodeString);
      if Common(f) && Texts(f, FirstSeen, LastSeen, SightingOfRef) && count.Ok? && refs.Ok?
      then Ok(Sighting(Text(f, Type), Text(f, Id), Text(f, SpecVersion), Text(f, Created), Text(f, Modified),
                       Text(f, FirstSeen), Text(f, LastSeen), count.value, Text(f, SightingOfRef), refs.value))
      else Err(MISMATCH)
  }

  function EncodeBundle(o: Bundle): Json {
    Obj(map[Type := Str(o.kind), Id := Str(o.id), SpecVersion := Str(o.specVersion),
        Objects := EncodeItems(o.objects, EncodeRaw)])
  }

  function DecodeBundle(j: Json): Result<Bundle> {
    if FieldsOf(j).None? then Err(MISMATCH) else
      var f := FieldsOf(j).value;
      var objects := DecodeItems(Field(f, Objects), DecodeRaw);
      if Texts(f, Type, Id, SpecVersion) && objects.Ok?
      then Ok(Bundle(Text(f, Type), Text(f, Id), Text(f, SpecVersion), objects.value))
      else Err(MISMATCH)
  }

  // ----- The four kinds together -----

  datatype Kind = IndicatorKind | RelationshipKind | SightingKind | BundleKind

  datatype StixObject =
    | AnIndicator(indicator: Indicator)
    | ARelationship(relationship: Relationship)
    | ASighting(sighting: Sighting)
    | ABundle(bundle: Bundle)

  function Tag(kind: Kind): string {
    match kind
    case IndicatorKind => "indicator"
    case RelationshipKind => "relationship"
    case SightingKind => "sighting"
    case BundleKind => "bundle"
  }

  function KindOf(o: StixObject): Kind {
    match o
    case AnIndicator(_) => IndicatorKind
    case ARelationship(_) => RelationshipKind
    case ASighting(_) => SightingKind
    case ABundle(_) => BundleKind
  }

  function IdOf(o: StixObject): string {
    match o
    case AnIndicator(i) => i.id
    case ARelationship(r) => r.id
    case ASighting(s) => s.id
    case ABundle(b) => b.id
  }

  function TypeOf(o: StixObject): string {
    match o
    case AnIndicator(i) => i.kind
    case ARelationship(r) => r.kind
    case ASighting(s) => s.kind
    case ABundle(b) => b.kind
  }

  function Encode(o: StixObject): Json {
    match o
    case AnIndicator(i) => EncodeIndicator(i)
    case ARelationship(r) => EncodeRelationship(r)
    case ASighting(s) => EncodeSighting(s)
    case ABundle(b) => EncodeBundle(b)
  }

  function DecodeAs(kind: Kind, j: Json): Result<StixObject> {
    match kind
    case IndicatorKind => (match DecodeIndicator(j) case Ok(i) => Ok(AnIndicator(i)) case Err(e) => Err(e))
    case RelationshipKind => (match DecodeRelationship(j) case Ok(r) => Ok(ARelationship(r)) case Err(e) => Err(e))
    case SightingKind => (match DecodeSighting(j) case Ok(s) => Ok(ASighting(s)) case Err(e) => Err(e))
    case BundleKind => (match DecodeBundle(j) case Ok(b) => Ok(ABundle(b)) case Err(e) => Err(e))
  }

  ghost predicate ShowsCommon(f: map<FieldName, Json>, kind: string, id: string, version: string, created: string, modified: string) {
    && Field(f, Type) == Str(kind) && Field(f, Id) == Str(id) && Field(f, SpecVersion) == Str(version)
    && Field(f, Created) == Str(created) && Field(f, Modified) == Str(modified)
  }

  ghost predicate ShowsIndicator(f: map<FieldName, Json>, o: Indicator) {
    ShowsCommon(f, o.kind, o.id, o.specVersion, o.created, o.modified) && ShowsPattern(f, o)
  }

  ghost predicate ShowsPattern(f: map<FieldName, Json>, o: Indicator) {
    && Field(f, Name) == Str(o.name) && Field(f, Description) == Str(o.description)
    && Field(f, Pattern) == Str(o.pattern) && Field(f, PatternType) == Str(o.patternType)
    && Field(f, ValidFrom) == Str(o.validFrom) && Field(f, Confidence) == Int(o.confidence as int)
    && Field(f, Labels) == EncodeItems(o.labels, EncodeText)
    && Field(f, ExternalReferences) == EncodeItems(o.externalReferences, EncodeReference)
  }

  ghost predicate ShowsSighting(f: map<FieldName, Json>, o: Sighting) {
    && ShowsCommon(f, o.kind, o.id, o.specVersion, o.created, o.modified)
    && Field(f, FirstSeen) == Str(o.firstSeen) && Field(f, LastSeen) == Str(o.lastSeen)
    && Field(f, Count) == Int(o.count as int) && Field(f, SightingOfRef) == Str(o.sightingOfRef)
    && Field(f, WhereSightedRefs) == EncodeItems(o.whereSightedRefs, EncodeText)
  }

  ghost predicate ShowsRelationship(f: map<FieldName, Json>, o: Relationship) {
    && ShowsCommon(f, o.kind, o.id, o.specVersion, o.created, o.modified)
    && Field(f, RelationshipType) == Str(o.relationshipType)
    && Field(f, SourceRef) == Str(o.sourceRef) && Field(f, TargetRef) == Str(o.targetRef)
  }

  ghost predicate ShowsBundle(f: map<FieldName, Json>, o: Bundle) {
    && Field(f, Type) == Str(o.kind) && Field(f, Id) == Str(o.id) && Field(f, SpecVersion) == Str(o.specVersion)
    && Field(f, Created) == Field(f, Modified) == Null
    && Field(f, Objects) == EncodeItems(o.objects, EncodeRaw)
  }

  lemma RelationshipFields(o: Relationship)
    ensures ShowsRelationship(EncodeRelationship(o).fields, o)
  {
  }

  lemma BundleFields(o: Bundle)
    ensures ShowsBundle(EncodeBundle(o).fields, o)
  {
  }

  lemma IndicatorCommon(o: Indicator)
    ensures ShowsCommon(EncodeIndicator(o).fields, o.kind, o.id, o.specVersion, o.created, o.modified)
  {
  }

  lemma IndicatorPattern(o: Indicator)
    ensures ShowsPattern(EncodeIndicator(o).fields, o)
  {
  }

  lemma IndicatorFields(o: Indicator)
    ensures ShowsIndicator(EncodeIndicator(o).fields, o)
  {
    IndicatorCommon(o);
    IndicatorPattern(o);
  }

  lemma SightingFields(o: Sighting)
    ensures ShowsSighting(EncodeSighting(o).fields, o)
  {
  }

  lemma TextsRoundTrip(values: Option<seq<string>>)
    ensures DecodeItems(EncodeItems(values, EncodeText), DecodeString) == Ok(values)
  {
    ItemsRoundTrip(values, EncodeText, DecodeString);
  }

  lemma ReferencesRoundTrip(values: Option<seq<ExternalReference>>)
    ensures DecodeItems(EncodeItems(values, EncodeReference), DecodeReference) == Ok(values)
  {
    ItemsRoundTrip(values, EncodeReference, DecodeReference);
  }

  lemma IndicatorTexts(f: map<FieldName, Json>, o: Indicator)
    requires ShowsIndicator(f, o)
    ensures Common(f) && Texts(f, Name, Description, Pattern) && Texts(f, PatternType, ValidFrom, Type)
    ensures Text(f, Type) == o.kind && Text(f, Id) == o.id && Text(f, SpecVersion) == o.specVersion
    ensures Text(f, Created) == o.created && Text(f, Modified) == o.modified && Text(f, Name) == o.name
    ensures Text(f, Description) == o.description && Text(f, Pattern) == o.pattern
    ensures Text(f, PatternType) == o.patternType && Text(f, ValidFrom) == o.validFrom
  {
  }

  lemma IndicatorShown(f: map<FieldName, Json>, o: Indicator)
    requires ShowsIndicator(f, o)
    ensures DecodeIndicator(Obj(f)) == Ok(o)
  {
    IndicatorTexts(f, o);
    TextsRoundTrip(o.labels);
    ReferencesRoundTrip(o.externalReferences);
  }

  lemma SightingShown(f: map<FieldName, Json>, o: Sighting)
    requires ShowsSighting(f, o)
    ensures DecodeSighting(Obj(f)) == Ok(o)
  {
    TextsRoundTrip(o.whereSightedRefs);
  }

  lemma RelationshipShown(f: map<FieldName, Json>, o: Relationship)
    requires ShowsRelationship(f, o)
    ensures DecodeRelationship(Obj(f)) == Ok(o)
  {
  }

  lemma BundleShown(f: map<FieldName, Json>, o: Bundle)
    requires ShowsBundle(f, o)
    ensures DecodeBundle(Obj(f)) == Ok(o)
  {
    ItemsRoundTrip(o.objects, EncodeRaw, DecodeRaw);
  }

  /** Decoding with the object's own kind gives the object back, field by field. */
  lemma {:induction false} StixRoundTrip(o: StixObject)
    ensures DecodeAs(KindOf(o), Encode(o)) == Ok(o)
  {
    match o {
      case AnIndicator(i) =>
        IndicatorFields(i);
        IndicatorShown(EncodeIndicator(i).fields, i);
      case ARelationship(r) =>
        RelationshipFields(r);
        RelationshipShown(EncodeRelationship(r).fields, r);
      case ASighting(s) =>
        SightingFields(s);
        SightingShown(EncodeSighting(s).fields, s);
      case ABundle(b) =>
        BundleFields(b);
        BundleShown(EncodeBundle(b).fields, b);
    }
  }

  /** The fields that only the kind has are missing. */
  ghost predicate Lacks(f: map<FieldName, Json>, kind: Kind) {
    match kind
    case IndicatorKind =>
      && Name !in f && Description !in f && Pattern !in f && PatternType !in f && ValidFrom !in f
      && Labels !in f && Confidence !in f && ExternalReferences !in f
    case RelationshipKind => RelationshipType !in f && SourceRef !in f && TargetRef !in f
    case SightingKind =>
      FirstSeen !in f && LastSeen !in f && Count !in f && SightingOfRef !in f && WhereSightedRefs !in f
    case BundleKind => Objects !in f
  }

  lemma IndicatorLacks(o: Indicator, reader: Kind)
    requires !reader.IndicatorKind?
    ensures Lacks(EncodeIndicator(o).fields, reader)
  {
  }

  lemma RelationshipLacks(o: Relationship, reader: Kind)
    requires !reader.RelationshipKind?
    ensures Lacks(EncodeRelationship(o).fields, reader)
  {
  }

  lemma SightingLacks(o: Sighting, reader: Kind)
    requires !reader.SightingKind?
    ensures Lacks(EncodeSighting(o).fields, reader)
  {
  }

  lemma BundleLacks(o: Bundle, reader: Kind)
    requires !reader.BundleKind?
    ensures Lacks(EncodeBundle(o).fields, reader)
  {
  }

  lemma ForeignFields(reader: Kind, f: map<FieldName, Json>)
    requires Common(f) && Lacks(f, reader)
    ensures DecodeAs(reader, Obj(f)).Ok?
    ensures var o := DecodeAs(reader, Obj(f)).value; IdOf(o) == Text(f, Id) && TypeOf(o) == Text(f, Type)
  {
  }

  /** What a reader of the kind makes of a value. */
  ghost predicate ReadAs(reader: Kind, j: Json, kind: string, id: string) {
    var r := DecodeAs(reader, j);
    r.Ok? && KindOf(r.value) == reader && TypeOf(r.value) == kind && IdOf(r.value) == id
  }

  lemma IndicatorAbroad(f: map<FieldName, Json>, o: Indicator, reader: Kind)
    requires ShowsIndicator(f, o) && Lacks(f, reader)
    ensures ReadAs(reader, Obj(f), o.kind, o.id)
  {
    ForeignFields(reader, f);
  }

  lemma RelationshipAbroad(f: map<FieldName, Json>, o: Relationship, reader: Kind)
    requires ShowsRelationship(f, o) && Lacks(f, reader)
    ensures ReadAs(reader, Obj(f), o.kind, o.id)
  {
    ForeignFields(reader, f);
  }

  lemma SightingAbroad(f: map<FieldName, Json>, o: Sighting, reader: Kind)
    requires ShowsSighting(f, o) && Lacks(f, reader)
    ensures ReadAs(reader, Obj(f), o.kind, o.id)
  {
    ForeignFields(reader, f);
  }

  lemma BundleAbroad(f: map<FieldName, Json>, o: Bundle, reader: Kind)
    requires ShowsBundle(f, o) && Lacks(f, reader)
    ensures ReadAs(reader, Obj(f), o.kind, o.id)
  {
    ForeignFields(reader, f);
  }

  /** Decoding with another kind succeeds too, and keeps the id and the foreign type tag. */
  lemma {:induction false} ForeignReader(reader: Kind, o: StixObject)
    ensures ReadAs(reader, Encode(o), TypeOf(o), IdOf(o))
  {
    if reader == KindOf(o) {
      StixRoundTrip(o);
    } else {
      match o {
        case AnIndicator(i) =>
          IndicatorFields(i);
          IndicatorLacks(i, reader);
          IndicatorAbroad(EncodeIndicator(i).fields, i, reader);
        case ARelationship(r) =>
          RelationshipFields(r);
          RelationshipLacks(r, reader);
          RelationshipAbroad(EncodeRelationship(r).fields, r, reader);
        case ASighting(s) =>
          SightingFields(s);
          SightingLacks(s, reader);
          SightingAbroad(EncodeSighting(s).fields, s, reader);
        case ABundle(b) =>
          BundleFields(b);
          BundleLacks(b, reader);
          BundleAbroad(EncodeBundle(b).fields, b, reader);
      }
    }
  }

  lemma TagsDiffer(a: Kind, b: Kind)
    ensures Tag(a) == Tag(b) <==> a == b
  {
    assert Tag(a)[0] == Tag(b)[0] ==> a == b;
  }
}
