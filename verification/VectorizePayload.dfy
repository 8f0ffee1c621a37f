/** The document.vectorize payload: readers, records, and the payload a record is written back to. */
module VectorizePayload {
  import opened Wrappers
  import opened JsonValues

  /** A rejected payload names the field that was rejected. */
  type Parsed<T> = Result<T, string>

  // ---------- Readers ----------

  /** The characters Python's `str.strip` removes. */
  predicate IsSpace(c: char) {
    var n := c as int;
    || 9 <= n <= 13 || 28 <= n <= 32 || n == 0x85 || n == 0xA0 || n == 0x1680 || 0x2000 <= n <= 0x200A
    || n == 0x2028 || n == 0x2029 || n == 0x202F || n == 0x205F || n == 0x3000
  }

  predicate Blank(s: string) {
    forall i | 0 <= i < |s| :: IsSpace(s[i])
  }

  /** `payload.get(key)`: a missing key reads as null. */
  function Get(p: Object, key: string): Json {
    if key in p then p[key] else Null
  }

  function RequiredString(p: Object, key: string, path: string): Parsed<string> {
    match Get(p, key)
    case Str(s) => if Blank(s) then Failure(path) else Success(s)
    case _ => Failure(path)
  }

  function OptionalString(p: Object, key: string, path: string): Parsed<Option<string>> {
    match Get(p, key)
    case Null => Success(None)
    case Str(s) => if Blank(s) then Failure(path) else Success(Some(s))
    case _ => Failure(path)
  }

  /** A count: an integer that is not negative. */
  function OptionalCount(p: Object, key: string, path: string): Parsed<Option<int>> {
    match Get(p, key)
    case Null => Success(None)
    case Int(i) => if i < 0 then Failure(path) else Success(Some(i))
    case _ => Failure(path)
  }

  function RequiredCount(p: Object, key: string, path: string): Parsed<int> {
    match Get(p, key)
    case Int(i) => if i < 0 then Failure(path) else Success(i)
    case _ => Failure(path)
  }

  /** `_required_number`: integers become floats, nan and infinity are rejected. */
  function RequiredNumber(p: Object, key: string, path: string): Parsed<real> {
    match Get(p, key)
    case Int(i) => Success(i as real)
    case Float(x) => Success(x)
    case _ => Failure(path)
  }

  function OptionalMapping(p: Object, key: string, path: string): Parsed<Object> {
    match Get(p, key)
    case Null => Success(map[])
    case Obj(fields) => if Finite(Obj(fields)) then Success(fields) else Failure(path)
    case _ => Failure(path)
  }

  /** `payload.get(key, False)`: only a missing key defaults. */
  function Flag(p: Object, key: string, path: string): Parsed<bool> {
    if key !in p then Success(false)
    else match p[key]
         case Bool(b) => Success(b)
         case _ => Failure(path)
  }

  /** `payload.get(key, [])`: only a missing key defaults. */
  function ListOrMissing(p: Object, key: string, path: string): Parsed<seq<Json>> {
    if key !in p then Success([])
    else match p[key]
         case Arr(items) => Success(items)
         case _ => Failure(path)
  }

  function Decimal(n: nat): string {
    if n < 10 then [ '0' + n as char ] else Decimal(n / 10) + [ '0' + (n % 10) as char ]
  }

  function At(list: string, i: nat): string {
    list + "[" + Decimal(i) + "]"
  }

  function OptStr(s: Option<string>): Json {
    match s
    case None => Null
    case Some(v) => Str(v)
  }

  function OptInt(i: Option<int>): Json {
    match i
    case None => Null
    case Some(v) => Int(v)
  }

  predicate Named(s: Option<string>) {
    s.Some? ==> !Blank(s.value)
  }

  predicate Counted(i: Option<int>) {
    i.Some? ==> i.value >= 0
  }

  lemma ReadsString(p: Object, key: string, path: string, s: Option<string>)
    requires Get(p, key) == OptStr(s)
    ensures OptionalString(p, key, path) == if Named(s) then Success(s) else Failure(path)
  {}

  lemma ReadsCount(p: Object, key: string, path: string, i: Option<int>)
    requires Get(p, key) == OptInt(i)
    ensures OptionalCount(p, key, path) == if Counted(i) then Success(i) else Failure(path)
  {}

  lemma ReadsMapping(p: Object, key: string, path: string, m: Object)
    requires Get(p, key) == Obj(m)
    ensures OptionalMapping(p, key, path) == if Finite(Obj(m)) then Success(m) else Failure(path)
  {}

  lemma ReadsName(p: Object, key: string, path: string, s: string)
    requires Get(p, key) == Str(s)
    ensures RequiredString(p, key, path) == if Blank(s) then Failure(path) else Success(s)
  {}

  // ---------- Storage references ----------

  datatype StorageReference = StorageReference(
    provider: Option<string>, bucket: Option<string>, key: Option<string>, uri: Option<string>,
    versionId: Option<string>, contentType: Option<string>, checksum: Option<string>, sizeBytes: Option<int>,
    metadata: Object)

  function StorageFromPayload(j: Json, path: string): Parsed<StorageReference> {
    match j
    case Obj(p) =>
      var sizeBytes :- OptionalCount(p, "sizeBytes", path + ".sizeBytes");
      var provider :- OptionalString(p, "provider", path + ".provider");
      var bucket :- OptionalString(p, "bucket", path + ".bucket");
      var key :- OptionalString(p, "key", path + ".key");
      var uri :- OptionalString(p, "uri", path + ".uri");
      var versionId :- OptionalString(p, "versionId", path + ".versionId");
      var contentType :- OptionalString(p, "contentType", path + ".contentType");
      var checksum :- OptionalString(p, "checksum", path + ".checksum");
      var metadata :- OptionalMapping(p, "metadata", path + ".metadata");
      if uri.None? && key.None? then Failure(path)
      else if bucket.Some? && key.None? then Failure(path + ".key")
      else Success(StorageReference(provider, bucket, key, uri, versionId, contentType, checksum, sizeBytes, metadata))
    case _ => Failure(path)
  }

  function StorageToPayload(s: StorageReference): Json {
    Obj(map["provider" := OptStr(s.provider), "bucket" := OptStr(s.bucket), "key" := OptStr(s.key), "uri" := OptStr(s.uri),
            "versionId" := OptStr(s.versionId), "contentType" := OptStr(s.contentType), "checksum" := OptStr(s.checksum),
            "sizeBytes" := OptInt(s.sizeBytes), "metadata" := Obj(s.metadata)])
  }

  predicate StorageOk(s: StorageReference) {
    && Named(s.provider) && Named(s.bucket) && Named(s.key) && Named(s.uri) && Named(s.versionId) && Named(s.contentType)
    && Named(s.checksum) && Counted(s.sizeBytes) && Finite(Obj(s.metadata))
    && (s.uri.Some? || s.key.Some?) && (s.bucket.Some? ==> s.key.Some?)
  }

  lemma StorageFields(s: StorageReference)
    ensures StorageToPayload(s).Obj?
    ensures
      var p := StorageToPayload(s).fields;
      && Get(p, "provider") == OptStr(s.provider) && Get(p, "bucket") == OptStr(s.bucket)
      && Get(p, "key") == OptStr(s.key) && Get(p, "uri") == OptStr(s.uri) && Get(p, "versionId") == OptStr(s.versionId)
      && Get(p, "contentType") == OptStr(s.contentType) && Get(p, "checksum") == OptStr(s.checksum)
      && Get(p, "sizeBytes") == OptInt(s.sizeBytes) && Get(p, "metadata") == Obj(s.metadata)
  {}

  lemma StorageParsesOk(j: Json, path: string)
    ensures StorageFromPayload(j, path).Success? ==> StorageOk(StorageFromPayload(j, path).value)
  {}

  /** Writing a reference and reading it back succeeds exactly for well-formed references, and gives it back. */
  lemma StorageRoundTrip(s: StorageReference, path: string)
    ensures StorageOk(s) ==> StorageFromPayload(StorageToPayload(s), path) == Success(s)
    ensures !StorageOk(s) ==> StorageFromPayload(StorageToPayload(s), path).Failure?
  {
    hide Get, StorageToPayload, OptionalString, OptionalCount, OptionalMapping, Named, Counted, OptStr, OptInt;
    StorageFields(s);
    var p := StorageToPayload(s).fields;
    ReadsCount(p, "sizeBytes", path + ".sizeBytes", s.sizeBytes);
    ReadsString(p, "provider", path + ".provider", s.provider);
    ReadsString(p, "bucket", path + ".bucket", s.bucket);
    ReadsString(p, "key", path + ".key", s.key);
    ReadsString(p, "uri", path + ".uri", s.uri);
    ReadsString(p, "versionId", path + ".versionId", s.versionId);
    ReadsString(p, "contentType", path + ".contentType", s.contentType);
    ReadsString(p, "checksum", path + ".checksum", s.checksum);
    ReadsMapping(p, "metadata", path + ".metadata", s.metadata);
  }

  /** `storage` inside a document or a chunk. */
  function OptionalStorage(p: Object, key: string, path: string): Parsed<Option<StorageReference>> {
    match Get(p, key)
    case Null => Success(None)
    case j =>
      var storage :- StorageFromPayload(j, path);
      Success(Some(storage))
  }

  function OptStorage(s: Option<StorageReference>): Json {
    match s
    case None => Null
    case Some(v) => StorageToPayload(v)
  }

  predicate OptStorageOk(s: Option<StorageReference>) {
    s.Some? ==> StorageOk(s.value)
  }

  lemma ReadsStorage(p: Object, key: string, path: string, s: Option<StorageReference>)
    requires Get(p, key) == OptStorage(s)
    ensures if OptStorageOk(s) then OptionalStorage(p, key, path) == Success(s) else OptionalStorage(p, key, path).Failure?
  {
    hide StorageFromPayload, StorageOk;
    if s.Some? {
      StorageRoundTrip(s.value, path);
      assert StorageToPayload(s.value).Obj?;
    }
  }

  lemma StorageReadOk(p: Object, key: string, path: string)
    ensures OptionalStorage(p, key, path).Success? ==> OptStorageOk(OptionalStorage(p, key, path).value)
  {
    hide StorageFromPayload, StorageOk;
    StorageParsesOk(Get(p, key), path);
  }

  // ---------- Documents ----------

  datatype DocumentReference = DocumentReference(
    documentId: string, title: Option<string>, sourceType: Option<string>, mimeType: Option<string>,
    fingerprint: Option<string>, storage: Option<StorageReference>, metadata: Object)

  function DocumentFromPayload(p: Object): Parsed<DocumentReference> {
    var storage :- OptionalStorage(p, "storage", "document.storage");
    var documentId :- RequiredString(p, "documentId", "document.documentId");
    var title :- OptionalString(p, "title", "document.title");
    var sourceType :- OptionalString(p, "sourceType", "document.sourceType");
    var mimeType :- OptionalString(p, "mimeType", "document.mimeType");
    var fingerprint :- OptionalString(p, "fingerprint", "document.fingerprint");
    var metadata :- OptionalMapping(p, "metadata", "document.metadata");
    Success(DocumentReference(documentId, title, sourceType, mimeType, fingerprint, storage, metadata))
  }

  function DocumentToPayload(d: DocumentReference): Object {
    map["documentId" := Str(d.documentId), "title" := OptStr(d.title), "sourceType" := OptStr(d.sourceType),
        "mimeType" := OptStr(d.mimeType), "fingerprint" := OptStr(d.fingerprint), "storage" := OptStorage(d.storage),
        "metadata" := Obj(d.metadata)]
  }

  predicate DocumentOk(d: DocumentReference) {
    && !Blank(d.documentId) && Named(d.title) && Named(d.sourceType) && Named(d.mimeType) && Named(d.fingerprint)
    && OptStorageOk(d.storage) && Finite(Obj(d.metadata))
  }

  lemma DocumentParsesOk(p: Object)
    ensures DocumentFromPayload(p).Success? ==> DocumentOk(DocumentFromPayload(p).value)
  {
    hide OptionalStorage, StorageOk, OptStorageOk;
    StorageReadOk(p, "storage", "document.storage");
  }

  lemma DocumentFields(d: DocumentReference)
    ensures
      var p := DocumentToPayload(d);
      && Get(p, "documentId") == Str(d.documentId) && Get(p, "title") == OptStr(d.title)
      && Get(p, "sourceType") == OptStr(d.sourceType) && Get(p, "mimeType") == OptStr(d.mimeType)
      && Get(p, "fingerprint") == OptStr(d.fingerprint) && Get(p, "storage") == OptStorage(d.storage)
      && Get(p, "metadata") == Obj(d.metadata)
      && "documentType" !in p && "schemaId" !in p && "schemaVersion" !in p
  {
    hide OptStr, OptStorage;
  }

  lemma DocumentRoundTrip(d: DocumentReference)
    ensures if DocumentOk(d) then DocumentFromPayload(DocumentToPayload(d)) == Success(d)
            else DocumentFromPayload(DocumentToPayload(d)).Failure?
  {
    hide Get, DocumentToPayload, OptionalString, RequiredString, OptionalStorage, OptionalMapping, Named, OptStr;
    hide OptStorage, OptStorageOk, Blank;
    DocumentFields(d);
    var p := DocumentToPayload(d);
    ReadsStorage(p, "storage", "document.storage", d.storage);
    ReadsName(p, "documentId", "document.documentId", d.documentId);
    ReadsString(p, "title", "document.title", d.title);
    ReadsString(p, "sourceType", "document.sourceType", d.sourceType);
    ReadsString(p, "mimeType", "document.mimeType", d.mimeType);
    ReadsString(p, "fingerprint", "document.fingerprint", d.fingerprint);
    ReadsMapping(p, "metadata", "document.metadata", d.metadata);
  }

  // ---------- Chunks ----------

  datatype ChunkReference = ChunkReference(
    chunkId: string, documentId: Option<string>, index: int, text: Option<string>, tokenCount: Option<int>,
    storage: Option<StorageReference>, metadata: Object)

  function ChunkFromPayload(j: Json, path: string): Parsed<ChunkReference> {
    match j
    case Obj(p) =>
      var index :- RequiredCount(p, "index", path + ".index");
      var tokenCount :- OptionalCount(p, "tokenCount", path + ".tokenCount");
      var storage :- OptionalStorage(p, "storage", path + ".storage");
      var chunkId :- RequiredString(p, "chunkId", path + ".chunkId");
      var documentId :- OptionalString(p, "documentId", path + ".documentId");
      var text :- OptionalString(p, "text", path + ".text");
      var metadata :- OptionalMapping(p, "metadata", path + ".metadata");
      Success(ChunkReference(chunkId, documentId, index, text, tokenCount, storage, metadata))
    case _ => Failure(path)
  }

  function ChunkToPayload(c: ChunkReference): Json {
    Obj(map["chunkId" := Str(c.chunkId), "documentId" := OptStr(c.documentId), "index" := Int(c.index),
            "text" := OptStr(c.text), "tokenCount" := OptInt(c.tokenCount), "storage" := OptStorage(c.storage),
            "metadata" := Obj(c.metadata)])
  }

  predicate ChunkOk(c: ChunkReference) {
    && !Blank(c.chunkId) && Named(c.documentId) && c.index >= 0 && Named(c.text) && Counted(c.tokenCount)
    && OptStorageOk(c.storage) && Finite(Obj(c.metadata))
  }

  lemma ChunkParsesOk(j: Json, path: string)
    ensures ChunkFromPayload(j, path).Success? ==> ChunkOk(ChunkFromPayload(j, path).value)
  {
    hide OptionalStorage, OptStorageOk;
    if j.Obj? {
      StorageReadOk(j.fields, "storage", path + ".storage");
    }
  }

  lemma ChunkFields(c: ChunkReference)
    ensures ChunkToPayload(c).Obj?
    ensures
      var p := ChunkToPayload(c).fields;
      && Get(p, "chunkId") == Str(c.chunkId) && Get(p, "documentId") == OptStr(c.documentId)
      && Get(p, "index") == Int(c.index) && Get(p, "text") == OptStr(c.text)
      && Get(p, "tokenCount") == OptInt(c.tokenCount) && Get(p, "storage") == OptStorage(c.storage)
      && Get(p, "metadata") == Obj(c.metadata)
  {}

  lemma ChunkRoundTrip(c: ChunkReference, path: string)
    ensures if ChunkOk(c) then ChunkFromPayload(ChunkToPayload(c), path) == Success(c)
            else ChunkFromPayload(ChunkToPayload(c), path).Failure?
  {
    hide Get, ChunkToPayload, OptionalString, RequiredString, OptionalStorage, OptionalMapping, OptionalCount, Named;
    hide OptStr, OptInt, OptStorage, OptStorageOk, Blank, Counted;
    ChunkFields(c);
    var p := ChunkToPayload(c).fields;
    assert RequiredCount(p, "index", path + ".index") == if c.index < 0 then Failure(path + ".index") else Success(c.index);
    ReadsCount(p, "tokenCount", path + ".tokenCount", c.tokenCount);
    ReadsStorage(p, "storage", path + ".storage", c.storage);
    ReadsName(p, "chunkId", path + ".chunkId", c.chunkId);
    ReadsString(p, "documentId", path + ".documentId", c.documentId);
    ReadsString(p, "text", path + ".text", c.text);
    ReadsMapping(p, "metadata", path + ".metadata", c.metadata);
  }

  // ---------- Artifact requests ----------

  datatype ArtifactRequest = ArtifactRequest(artifactType: string, required: bool, parameters: Object, raw: Object)

  predicate PositiveInt(j: Json) {
    j.Int? && j.i > 0
  }

  function ArtifactFromPayload(j: Json, path: string): Parsed<ArtifactRequest> {
    match j
    case Obj(p) =>
      var artifactType :- RequiredString(p, "artifactType", path + ".artifactType");
      var required :- Flag(p, "required", path + ".required");
      var parameters :- OptionalMapping(p, "parameters", path + ".parameters");
      if !(p.Keys <= {"artifactType", "required", "parameters"}) then Failure(path)
      else if artifactType == "embedding" && "dimensions" in parameters && !PositiveInt(parameters["dimensions"]) then
        Failure(path + ".parameters.dimensions")
      else if required && artifactType != "embedding" then Failure(path + ".artifactType")
      else Success(ArtifactRequest(artifactType, required, parameters, p))
    case _ => Failure(path)
  }

  function ArtifactToPayload(a: ArtifactRequest): Json {
    if a.raw != map[] then Obj(a.raw)
    else Obj(map["artifactType" := Str(a.artifactType), "required" := Bool(a.required), "parameters" := Obj(a.parameters)])
  }

  /** The kept payload carries exactly the allowed fields with the stored values, and the values are acceptable. */
  predicate ArtifactOk(a: ArtifactRequest) {
    && a.raw.Keys <= {"artifactType", "required", "parameters"}
    && Get(a.raw, "artifactType") == Str(a.artifactType) && !Blank(a.artifactType)
    && (if "required" in a.raw then a.raw["required"] == Bool(a.required) else !a.required)
    && (if Get(a.raw, "parameters").Null? then a.parameters == map[] else a.raw["parameters"] == Obj(a.parameters))
    && Finite(Obj(a.parameters))
    && (a.artifactType == "embedding" && "dimensions" in a.parameters ==> PositiveInt(a.parameters["dimensions"]))
    && (a.required ==> a.artifactType == "embedding")
  }

  /** A parsed artifact request is well formed and is written back as the very payload it was read from. */
  lemma ArtifactKeepsPayload(j: Json, path: string)
    ensures ArtifactFromPayload(j, path).Success? ==>
              ArtifactToPayload(ArtifactFromPayload(j, path).value) == j && ArtifactOk(ArtifactFromPayload(j, path).value)
  {
    hide Blank;
  }

  lemma ArtifactReadsBack(a: ArtifactRequest, path: string)
    requires ArtifactOk(a)
    ensures ArtifactFromPayload(ArtifactToPayload(a), path) == Success(a)
  {
    hide Blank;
    assert a.raw != map[];
  }

  /** An artifact request is read back from its payload unchanged exactly when it is well formed. */
  lemma ArtifactRoundTrip(a: ArtifactRequest, path: string)
    ensures ArtifactFromPayload(ArtifactToPayload(a), path) == Success(a) <==> ArtifactOk(a)
  {
    hide ArtifactFromPayload, ArtifactOk, ArtifactToPayload;
    ArtifactKeepsPayload(ArtifactToPayload(a), path);
    if ArtifactOk(a) {
      ArtifactReadsBack(a, path);
    }
  }

  // ---------- Options ----------

  datatype VectorizeOptions = VectorizeOptions(dimensions: Option<int>, normalize: bool, metadata: Object)

  function OptionsFromPayload(j: Json): Parsed<VectorizeOptions> {
    match j
    case Null => Success(VectorizeOptions(None, false, map[]))
    case Obj(p) =>
      var dimensions := Get(p, "dimensions");
      if !dimensions.Null? && !PositiveInt(dimensions) then Failure("options.dimensions")
      else
        var normalize :- Flag(p, "normalize", "options.normalize");
        var metadata :- OptionalMapping(p, "metadata", "options.metadata");
        Success(VectorizeOptions(if dimensions.Null? then None else Some(dimensions.i), normalize, metadata))
    case _ => Failure("options")
  }

  function OptionsToPayload(o: VectorizeOptions): Json {
    Obj(map["dimensions" := OptInt(o.dimensions), "normalize" := Bool(o.normalize), "metadata" := Obj(o.metadata)])
  }

  predicate OptionsOk(o: VectorizeOptions) {
    (o.dimensions.Some? ==> o.dimensions.value > 0) && Finite(Obj(o.metadata))
  }

  lemma OptionsParseOk(j: Json)
    ensures OptionsFromPayload(j).Success? ==> OptionsOk(OptionsFromPayload(j).value)
  {}

  lemma OptionsRoundTrip(o: VectorizeOptions)
    ensures if OptionsOk(o) then OptionsFromPayload(OptionsToPayload(o)) == Success(o)
            else OptionsFromPayload(OptionsToPayload(o)).Failure?
  {}
}
