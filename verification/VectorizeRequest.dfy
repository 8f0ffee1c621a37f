/** Reading a whole document.vectorize request, and writing it back in its normal form. */
module VectorizeRequest {
  import opened Wrappers
  import opened JsonValues
  import opened VectorizePayload
  import opened VectorizeInput

  // ---------- Reading ----------

  function VersionFromPayload(p: Object): Parsed<Version> {
    match Get(p, "manifestVersion")
    case Str(s) => if Blank(s) then Failure("manifestVersion") else Success(Text(s))
    case Int(n) => Success(Number(n))
    case _ => Failure("manifestVersion")
  }

  /** `chunks` must be a list with at least one entry. */
  function ChunkItems(p: Object): Parsed<seq<Json>> {
    match Get(p, "chunks")
    case Arr(items) => if items == [] then Failure("chunks") else Success(items)
    case _ => Failure("chunks")
  }

  /** The required fields and the lists, in the order they are read. */
  datatype Front = Front(routeId: string, documentId: string, manifestVersion: Version, destination: string,
                         qualityScore: real, rawDocument: Object, document: DocumentReference)

  datatype Lists = Lists(chunks: seq<ChunkReference>, storages: seq<StorageReference>, artifacts: seq<ArtifactRequest>)

  function FrontFromPayload(p: Object): Parsed<Front> {
    var routeId :- RequiredString(p, "routeId", "routeId");
    var documentId :- RequiredString(p, "documentId", "documentId");
    var manifestVersion :- VersionFromPayload(p);
    var destination :- RequiredString(p, "destination", "destination");
    if destination != "vectorize" then Failure("destination")
    else
      var qualityScore :- RequiredNumber(p, "qualityScore", "qualityScore");
      match Get(p, "document")
      case Obj(rawDocument) =>
        var document :- DocumentFromPayload(rawDocument);
        Success(Front(routeId, documentId, manifestVersion, destination, qualityScore, rawDocument, document))
      case _ => Failure("document")
  }

  function ListsFromPayload(p: Object): Parsed<Lists> {
    var rawChunks :- ChunkItems(p);
    var chunks :- ParseChunks(rawChunks, 0);
    var rawStorages :- ListOrMissing(p, "storageReferences", "storageReferences");
    var storages :- ParseStorages(rawStorages, 0);
    var rawArtifacts :- ListOrMissing(p, "artifactRequests", "artifactRequests");
    var artifacts :- ParseArtifacts(rawArtifacts, 0);
    Success(Lists(chunks, storages, artifacts))
  }

  /** The schema fields may be given at the root, inside the document, or in both places alike. */
  predicate AliasClash(p: Object, d: Object, key: string) {
    !Get(p, key).Null? && !Get(d, key).Null? && Get(p, key) != Get(d, key)
  }

  function AliasProblem(p: Object, d: Object): Option<string> {
    if AliasClash(p, d, "documentType") then Some("documentType")
    else if AliasClash(p, d, "schemaId") then Some("schemaId")
    else if AliasClash(p, d, "schemaVersion") then Some("schemaVersion")
    else None
  }

  /** A key present at the root wins, even when its value is null. */
  function RootOrDocument(p: Object, d: Object, key: string): Parsed<Option<string>> {
    if key in p then OptionalString(p, key, key) else OptionalString(d, key, "document." + key)
  }

  /** The remaining fields, which are optional. */
  datatype Back = Back(
    metadata: Object, classification: Json, options: VectorizeOptions, documentType: Option<string>,
    schemaId: Option<string>, schemaVersion: Option<string>, provenance: Object, correlationId: Option<string>,
    embeddingModel: Option<string>)

  function BackFromPayload(p: Object, d: Object): Parsed<Back> {
    match AliasProblem(p, d)
    case Some(key) => Failure(key)
    case None =>
      var metadata :- OptionalMapping(p, "metadata", "metadata");
      var classification := Get(p, "classification");
      if !Finite(classification) then Failure("classification")
      else
        var options :- OptionsFromPayload(Get(p, "options"));
        var documentType :- RootOrDocument(p, d, "documentType");
        var schemaId :- RootOrDocument(p, d, "schemaId");
        var schemaVersion :- RootOrDocument(p, d, "schemaVersion");
        var provenance :- OptionalMapping(p, "provenance", "provenance");
        var correlationId :- OptionalString(p, "correlationId", "correlationId");
        var embeddingModel :- OptionalString(p, "embeddingModel", "embeddingModel");
        Success(Back(metadata, classification, options, documentType, schemaId, schemaVersion, provenance, correlationId,
                     embeddingModel))
  }

  function Assemble(f: Front, l: Lists, b: Back): DocumentVectorizeInput {
    DocumentVectorizeInput(
      f.routeId, f.documentId, f.manifestVersion, f.destination, f.qualityScore, f.document, l.chunks, l.storages,
      l.artifacts, b.documentType, b.schemaId, b.schemaVersion, b.provenance, b.correlationId, b.embeddingModel,
      b.classification, b.metadata, b.options)
  }

  /** Reading one field after another, then checking how the fields relate. */
  function FromPayload(j: Json): Parsed<DocumentVectorizeInput> {
    match j
    case Obj(p) =>
      var front :- FrontFromPayload(p);
      var lists :- ListsFromPayload(p);
      var back :- BackFromPayload(p, front.rawDocument);
      var request := Assemble(front, lists, back);
      if RelationProblem(request).Some? then Failure(RelationProblem(request).value) else Success(request)
    case _ => Failure("payload")
  }

  // ---------- Writing ----------

  function VersionToPayload(v: Version): Json {
    match v
    case Text(s) => Str(s)
    case Number(n) => Int(n)
  }

  function ToPayload(r: DocumentVectorizeInput): Object {
    map["routeId" := Str(r.routeId), "documentId" := Str(r.documentId),
        "manifestVersion" := VersionToPayload(r.manifestVersion), "destination" := Str(r.destination),
        "qualityScore" := Float(r.qualityScore), "correlationId" := OptStr(r.correlationId),
        "embeddingModel" := OptStr(r.embeddingModel), "classification" := r.classification,
        "documentType" := OptStr(r.documentType), "schemaId" := OptStr(r.schemaId),
        "schemaVersion" := OptStr(r.schemaVersion), "provenance" := Obj(r.provenance),
        "artifactRequests" := Arr(Payloads(r.artifactRequests, ArtifactToPayload)),
        "document" := Obj(DocumentToPayload(r.document)), "chunks" := Arr(Payloads(r.chunks, ChunkToPayload)),
        "storageReferences" := Arr(Payloads(r.storageReferences, StorageToPayload)), "metadata" := Obj(r.metadata),
        "options" := OptionsToPayload(r.options)]
  }

  // ---------- What an accepted request looks like ----------

  predicate VersionOk(v: Version) {
    v.Text? ==> !Blank(v.text)
  }

  predicate FrontOk(r: DocumentVectorizeInput) {
    !Blank(r.routeId) && !Blank(r.documentId) && VersionOk(r.manifestVersion) && r.destination == "vectorize" && DocumentOk(r.document)
  }

  predicate ListsOk(r: DocumentVectorizeInput) {
    r.chunks != [] && ChunksOk(r.chunks) && StoragesOk(r.storageReferences) && ArtifactsOk(r.artifactRequests)
  }

  predicate BackOk(r: DocumentVectorizeInput) {
    && Finite(Obj(r.metadata)) && Finite(r.classification) && OptionsOk(r.options) && Named(r.documentType)
    && Named(r.schemaId) && Named(r.schemaVersion) && Finite(Obj(r.provenance)) && Named(r.correlationId)
    && Named(r.embeddingModel)
  }

  /** Every field well formed on its own, and the fields related as the contract asks. */
  predicate RequestOk(r: DocumentVectorizeInput) {
    FrontOk(r) && ListsOk(r) && BackOk(r) && Related(r)
  }

  lemma FrontParseOk(p: Object, l: Lists, b: Back)
    ensures FrontFromPayload(p).Success? ==> FrontOk(Assemble(FrontFromPayload(p).value, l, b))
  {
    hide DocumentFromPayload, DocumentOk;
    if Get(p, "document").Obj? {
      DocumentParsesOk(Get(p, "document").fields);
    }
  }

  lemma ListsParseOk(p: Object, f: Front, b: Back)
    ensures ListsFromPayload(p).Success? ==> ListsOk(Assemble(f, ListsFromPayload(p).value, b))
  {
    hide ChunkOk, StorageOk, ArtifactOk, ChunkFromPayload, StorageFromPayload, ArtifactFromPayload;
    if ListsFromPayload(p).Success? {
      ChunksParseOk(ChunkItems(p).value, 0);
      StoragesParseOk(ListOrMissing(p, "storageReferences", "storageReferences").value, 0);
      ArtifactsParseOk(ListOrMissing(p, "artifactRequests", "artifactRequests").value, 0);
    }
  }

  lemma BackParseOk(p: Object, d: Object, f: Front, l: Lists)
    ensures BackFromPayload(p, d).Success? ==> BackOk(Assemble(f, l, BackFromPayload(p, d).value))
  {
    hide OptionsFromPayload, OptionsOk, AliasProblem, Blank;
    OptionsParseOk(Get(p, "options"));
  }

  lemma ParsesOk(j: Json)
    ensures FromPayload(j).Success? ==> RequestOk(FromPayload(j).value)
  {
    hide FrontFromPayload, ListsFromPayload, BackFromPayload, FrontOk, ListsOk, BackOk, Related, RelationProblem, Assemble;
    if FromPayload(j).Success? {
      var front := FrontFromPayload(j.fields).value;
      var lists := ListsFromPayload(j.fields).value;
      var back := BackFromPayload(j.fields, front.rawDocument).value;
      FrontParseOk(j.fields, lists, back);
      ListsParseOk(j.fields, front, back);
      BackParseOk(j.fields, front.rawDocument, front, lists);
      NoProblemIffRelated(Assemble(front, lists, back));
    }
  }

  // ---------- Round trip ----------

  lemma FrontFields(r: DocumentVectorizeInput)
    ensures
      var p := ToPayload(r);
      && Get(p, "routeId") == Str(r.routeId) && Get(p, "documentId") == Str(r.documentId)
      && Get(p, "manifestVersion") == VersionToPayload(r.manifestVersion) && Get(p, "destination") == Str(r.destination)
      && Get(p, "qualityScore") == Float(r.qualityScore) && Get(p, "document") == Obj(DocumentToPayload(r.document))
  {
    hide VersionToPayload, DocumentToPayload, Payloads, OptStr, OptionsToPayload;
  }

  lemma ListFields(r: DocumentVectorizeInput)
    ensures
      var p := ToPayload(r);
      && Get(p, "chunks") == Arr(Payloads(r.chunks, ChunkToPayload))
      && "storageReferences" in p && p["storageReferences"] == Arr(Payloads(r.storageReferences, StorageToPayload))
      && "artifactRequests" in p && p["artifactRequests"] == Arr(Payloads(r.artifactRequests, ArtifactToPayload))
  {}

  lemma BackFields(r: DocumentVectorizeInput)
    ensures
      var p := ToPayload(r);
      && Get(p, "metadata") == Obj(r.metadata) && Get(p, "classification") == r.classification
      && Get(p, "options") == OptionsToPayload(r.options) && Get(p, "provenance") == Obj(r.provenance)
      && Get(p, "correlationId") == OptStr(r.correlationId) && Get(p, "embeddingModel") == OptStr(r.embeddingModel)
  {
    hide VersionToPayload, DocumentToPayload, Payloads, OptStr, OptionsToPayload;
  }

  lemma SchemaFields(r: DocumentVectorizeInput)
    ensures
      var p := ToPayload(r);
      && "documentType" in p && p["documentType"] == OptStr(r.documentType)
      && "schemaId" in p && p["schemaId"] == OptStr(r.schemaId)
      && "schemaVersion" in p && p["schemaVersion"] == OptStr(r.schemaVersion)
  {
    hide VersionToPayload, DocumentToPayload, Payloads, OptStr, OptionsToPayload;
  }

  lemma DestinationIsNamed()
    ensures !Blank("vectorize")
  {
    assert !IsSpace("vectorize"[0]);
  }

  lemma FrontRoundTrip(r: DocumentVectorizeInput)
    requires FrontOk(r)
    ensures FrontFromPayload(ToPayload(r)) == Success(
              Front(r.routeId, r.documentId, r.manifestVersion, r.destination, r.qualityScore, DocumentToPayload(r.document),
                    r.document))
  {
    hide ToPayload, DocumentToPayload, DocumentFromPayload, DocumentOk, Blank;
    FrontFields(r);
    DocumentRoundTrip(r.document);
    DestinationIsNamed();
  }

  lemma ListsRoundTrip(r: DocumentVectorizeInput)
    requires r.chunks != [] && StoragesOk(r.storageReferences) && ArtifactsOk(r.artifactRequests)
    ensures if ChunksOk(r.chunks)
            then ListsFromPayload(ToPayload(r)) == Success(Lists(r.chunks, r.storageReferences, r.artifactRequests))
            else ListsFromPayload(ToPayload(r)).Failure?
  {
    hide ToPayload, ChunkToPayload, StorageToPayload, ArtifactToPayload, ChunksOk, StoragesOk, ArtifactsOk;
    hide ParseChunks, ParseStorages, ParseArtifacts;
    ListFields(r);
    ChunksRoundTrip(r.chunks, 0);
    StoragesRoundTrip(r.storageReferences, 0);
    ArtifactsRoundTrip(r.artifactRequests, 0);
    assert r.chunks[0..] == r.chunks && r.storageReferences[0..] == r.storageReferences;
    assert r.artifactRequests[0..] == r.artifactRequests;
  }

  lemma BackRoundTrip(r: DocumentVectorizeInput)
    requires BackOk(r)
    ensures BackFromPayload(ToPayload(r), DocumentToPayload(r.document)) == Success(
              Back(r.metadata, r.classification, r.options, r.documentType, r.schemaId, r.schemaVersion, r.provenance,
                   r.correlationId, r.embeddingModel))
  {
    hide ToPayload, DocumentToPayload, OptionsFromPayload, OptionsToPayload, OptionsOk, OptStr, OptionalString, OptionalMapping;
    hide Named;
    BackFields(r);
    SchemaFields(r);
    DocumentFields(r.document);
    OptionsRoundTrip(r.options);
    var p := ToPayload(r);
    ReadsMapping(p, "metadata", "metadata", r.metadata);
    ReadsString(p, "documentType", "documentType", r.documentType);
    ReadsString(p, "schemaId", "schemaId", r.schemaId);
    ReadsString(p, "schemaVersion", "schemaVersion", r.schemaVersion);
    ReadsMapping(p, "provenance", "provenance", r.provenance);
    ReadsString(p, "correlationId", "correlationId", r.correlationId);
    ReadsString(p, "embeddingModel", "embeddingModel", r.embeddingModel);
  }

  /** A request is read back from its own payload unchanged exactly when it is one the parser could have produced. */
  lemma RoundTrip(r: DocumentVectorizeInput)
    ensures FromPayload(Obj(ToPayload(r))) == Success(r) <==> RequestOk(r)
  {
    hide FrontFromPayload, ListsFromPayload, BackFromPayload, FrontOk, BackOk, Related, RelationProblem, ToPayload;
    hide DocumentToPayload, ChunksOk, StoragesOk, ArtifactsOk;
    ParsesOk(Obj(ToPayload(r)));
    if RequestOk(r) {
      FrontRoundTrip(r);
      ListsRoundTrip(r);
      BackRoundTrip(r);
      NoProblemIffRelated(r);
    }
  }

  /** Whatever was accepted once is accepted again after normalization, as the same request. */
  lemma NormalizationIsIdempotent(j: Json)
    requires FromPayload(j).Success?
    ensures
      var r := FromPayload(j).value;
      FromPayload(Obj(ToPayload(r))) == Success(r)
  {
    ParsesOk(j);
    RoundTrip(FromPayload(j).value);
  }
}
