/** What a payload says, entry by entry: the requests it means, stated without the parser, and that the parser reads them. */
module PayloadMeaning {
  import opened Wrappers
  import opened JsonValues
  import opened VectorizePayload
  import opened VectorizeInput
  import opened VectorizeRequest

  // ---------- Entries ----------

  /** A missing or null entry is None; any other is the text it holds. */
  predicate TextIs(p: Object, key: string, v: Option<string>) {
    (v == None && (key !in p || p[key] == Null)) || (v.Some? && key in p && p[key] == Str(v.value))
  }

  predicate CountIs(p: Object, key: string, v: Option<int>) {
    (v == None && (key !in p || p[key] == Null)) || (v.Some? && key in p && p[key] == Int(v.value))
  }

  /** A missing or null mapping is empty. */
  predicate MappingIs(p: Object, key: string, m: Object) {
    (m == map[] && (key !in p || p[key] == Null)) || (key in p && p[key] == Obj(m))
  }

  /** A missing flag is false; a null one is not allowed. */
  predicate FlagIs(p: Object, key: string, b: bool) {
    (!b && key !in p) || (key in p && p[key] == Bool(b))
  }

  predicate EntryIs(p: Object, key: string, j: Json) {
    key in p && p[key] == j
  }

  lemma TextReads(p: Object, key: string, path: string, v: Option<string>)
    ensures OptionalString(p, key, path) == Success(v) <==> TextIs(p, key, v) && Named(v)
  {}

  lemma CountReads(p: Object, key: string, path: string, v: Option<int>)
    ensures OptionalCount(p, key, path) == Success(v) <==> CountIs(p, key, v) && Counted(v)
  {}

  lemma MappingReads(p: Object, key: string, path: string, m: Object)
    ensures OptionalMapping(p, key, path) == Success(m) <==> MappingIs(p, key, m) && Finite(Obj(m))
  {}

  lemma FlagReads(p: Object, key: string, path: string, b: bool)
    ensures Flag(p, key, path) == Success(b) <==> FlagIs(p, key, b)
  {}

  lemma NameReads(p: Object, key: string, path: string, s: string)
    ensures RequiredString(p, key, path) == Success(s) <==> EntryIs(p, key, Str(s)) && !Blank(s)
  {}

  // ---------- Records ----------

  predicate StorageMeans(j: Json, s: StorageReference) {
    j.Obj? &&
    var p := j.fields;
    && TextIs(p, "provider", s.provider) && TextIs(p, "bucket", s.bucket) && TextIs(p, "key", s.key) && TextIs(p, "uri", s.uri)
    && TextIs(p, "versionId", s.versionId) && TextIs(p, "contentType", s.contentType) && TextIs(p, "checksum", s.checksum)
    && CountIs(p, "sizeBytes", s.sizeBytes) && MappingIs(p, "metadata", s.metadata)
  }

  /** A payload is read as a storage reference exactly when it says that reference and the reference is well formed. */
  lemma StorageMeaning(j: Json, path: string, s: StorageReference)
    ensures StorageFromPayload(j, path) == Success(s) <==> StorageMeans(j, s) && StorageOk(s)
  {
    hide OptionalString, OptionalCount, OptionalMapping, TextIs, CountIs, MappingIs, Named, Counted;
    if j.Obj? {
      var p := j.fields;
      CountReads(p, "sizeBytes", path + ".sizeBytes", s.sizeBytes);
      TextReads(p, "provider", path + ".provider", s.provider);
      TextReads(p, "bucket", path + ".bucket", s.bucket);
      TextReads(p, "key", path + ".key", s.key);
      TextReads(p, "uri", path + ".uri", s.uri);
      TextReads(p, "versionId", path + ".versionId", s.versionId);
      TextReads(p, "contentType", path + ".contentType", s.contentType);
      TextReads(p, "checksum", path + ".checksum", s.checksum);
      MappingReads(p, "metadata", path + ".metadata", s.metadata);
    }
  }

  /** A missing or null reference is None. */
  predicate OptStorageMeans(p: Object, key: string, s: Option<StorageReference>) {
    if key !in p || p[key] == Null then s == None else s.Some? && StorageMeans(p[key], s.value)
  }

  lemma OptStorageMeaning(p: Object, key: string, path: string, s: Option<StorageReference>)
    ensures OptionalStorage(p, key, path) == Success(s) <==> OptStorageMeans(p, key, s) && OptStorageOk(s)
  {
    hide StorageFromPayload, StorageMeans, StorageOk;
    if s.Some? {
      StorageMeaning(Get(p, key), path, s.value);
    }
    if key in p && p[key] != Null && OptionalStorage(p, key, path).Success? {
      StorageMeaning(p[key], path, OptionalStorage(p, key, path).value.value);
    }
  }

  predicate DocumentMeans(p: Object, d: DocumentReference) {
    && EntryIs(p, "documentId", Str(d.documentId)) && TextIs(p, "title", d.title) && TextIs(p, "sourceType", d.sourceType)
    && TextIs(p, "mimeType", d.mimeType) && TextIs(p, "fingerprint", d.fingerprint)
    && OptStorageMeans(p, "storage", d.storage) && MappingIs(p, "metadata", d.metadata)
  }

  lemma DocumentMeaning(p: Object, d: DocumentReference)
    ensures DocumentFromPayload(p) == Success(d) <==> DocumentMeans(p, d) && DocumentOk(d)
  {
    hide OptionalString, RequiredString, OptionalMapping, OptionalStorage, TextIs, MappingIs, Named, EntryIs, Blank;
    hide OptStorageMeans, OptStorageOk;
    OptStorageMeaning(p, "storage", "document.storage", d.storage);
    NameReads(p, "documentId", "document.documentId", d.documentId);
    TextReads(p, "title", "document.title", d.title);
    TextReads(p, "sourceType", "document.sourceType", d.sourceType);
    TextReads(p, "mimeType", "document.mimeType", d.mimeType);
    TextReads(p, "fingerprint", "document.fingerprint", d.fingerprint);
    MappingReads(p, "metadata", "document.metadata", d.metadata);
  }

  predicate ChunkMeans(j: Json, c: ChunkReference) {
    j.Obj? &&
    var p := j.fields;
    && EntryIs(p, "chunkId", Str(c.chunkId)) && EntryIs(p, "index", Int(c.index)) && TextIs(p, "documentId", c.documentId)
    && TextIs(p, "text", c.text) && CountIs(p, "tokenCount", c.tokenCount) && OptStorageMeans(p, "storage", c.storage)
    && MappingIs(p, "metadata", c.metadata)
  }

  lemma ChunkMeaning(j: Json, path: string, c: ChunkReference)
    ensures ChunkFromPayload(j, path) == Success(c) <==> ChunkMeans(j, c) && ChunkOk(c)
  {
    hide OptionalString, RequiredString, OptionalMapping, OptionalStorage, OptionalCount, TextIs, CountIs, MappingIs, Named;
    hide OptStorageMeans, OptStorageOk, Counted, Blank;
    if j.Obj? {
      var p := j.fields;
      CountReads(p, "tokenCount", path + ".tokenCount", c.tokenCount);
      OptStorageMeaning(p, "storage", path + ".storage", c.storage);
      NameReads(p, "chunkId", path + ".chunkId", c.chunkId);
      TextReads(p, "documentId", path + ".documentId", c.documentId);
      TextReads(p, "text", path + ".text", c.text);
      MappingReads(p, "metadata", path + ".metadata", c.metadata);
    }
  }

  /** The whole payload is kept, and the three fields it may have are what it says. */
  predicate ArtifactMeans(j: Json, a: ArtifactRequest) {
    && j == Obj(a.raw) && EntryIs(a.raw, "artifactType", Str(a.artifactType)) && FlagIs(a.raw, "required", a.required)
    && MappingIs(a.raw, "parameters", a.parameters)
  }

  lemma ArtifactMeaning(j: Json, path: string, a: ArtifactRequest)
    ensures ArtifactFromPayload(j, path) == Success(a) <==> ArtifactMeans(j, a) && ArtifactOk(a)
  {
    hide RequiredString, Flag, OptionalMapping, Blank;
    if j.Obj? {
      NameReads(j.fields, "artifactType", path + ".artifactType", a.artifactType);
      FlagReads(j.fields, "required", path + ".required", a.required);
      MappingReads(j.fields, "parameters", path + ".parameters", a.parameters);
    }
  }

  /** Missing or null options are no options at all. */
  predicate OptionsMeans(root: Object, o: VectorizeOptions) {
    if "options" !in root || root["options"] == Null then o == VectorizeOptions(None, false, map[])
    else
      root["options"].Obj? &&
      var p := root["options"].fields;
      CountIs(p, "dimensions", o.dimensions) && FlagIs(p, "normalize", o.normalize) && MappingIs(p, "metadata", o.metadata)
  }

  lemma OptionsMeaning(root: Object, o: VectorizeOptions)
    ensures OptionsFromPayload(Get(root, "options")) == Success(o) <==> OptionsMeans(root, o) && OptionsOk(o)
  {
    hide Flag, OptionalMapping, FlagIs, MappingIs;
    if Get(root, "options").Obj? {
      var p := Get(root, "options").fields;
      FlagReads(p, "normalize", "options.normalize", o.normalize);
      MappingReads(p, "metadata", "options.metadata", o.metadata);
    }
  }

  // ---------- Lists ----------

  /** One record for every item, in order. */
  predicate ChunksMean(items: seq<Json>, chunks: seq<ChunkReference>) {
    |chunks| == |items| && forall k | 0 <= k < |chunks| :: ChunkMeans(items[k], chunks[k])
  }

  lemma OneChunkMore(item: Json, items: seq<Json>, x: ChunkReference, chunks: seq<ChunkReference>)
    ensures ChunksMean([item] + items, [x] + chunks) <==> ChunkMeans(item, x) && ChunksMean(items, chunks)
    ensures ChunksOk([x] + chunks) <==> ChunkOk(x) && ChunksOk(chunks)
  {
    hide ChunkMeans, ChunkOk;
    var items', chunks' := [item] + items, [x] + chunks;
    assert items'[0] == item && chunks'[0] == x && items'[1..] == items && chunks'[1..] == chunks;
    assert forall k | 1 <= k < |chunks'| :: chunks'[k] == chunks[k - 1];
    assert forall k | 0 <= k < |chunks| :: chunks[k] == chunks'[k + 1];
    assert forall k | 1 <= k < |items'| :: items'[k] == items[k - 1];
    assert forall k | 0 <= k < |items| :: items[k] == items'[k + 1];
  }

  lemma {:induction false} ChunksMeaning(items: seq<Json>, i: nat, chunks: seq<ChunkReference>)
    requires i <= |items|
    ensures ParseChunks(items, i) == Success(chunks) <==> ChunksMean(items[i..], chunks) && ChunksOk(chunks)
    decreases |items| - i
  {
    hide ChunkFromPayload, ChunkMeans, ChunkOk;
    if i < |items| && chunks != [] {
      hide ChunksMean, ChunksOk;
      assert chunks == [chunks[0]] + chunks[1..] && items[i..] == [items[i]] + items[i + 1..];
      ChunkMeaning(items[i], At("chunks", i), chunks[0]);
      ChunksMeaning(items, i + 1, chunks[1..]);
      OneChunkMore(items[i], items[i + 1..], chunks[0], chunks[1..]);
    }
  }

  predicate StoragesMean(items: seq<Json>, storages: seq<StorageReference>) {
    |storages| == |items| && forall k | 0 <= k < |storages| :: StorageMeans(items[k], storages[k])
  }

  lemma OneStorageMore(item: Json, items: seq<Json>, x: StorageReference, storages: seq<StorageReference>)
    ensures StoragesMean([item] + items, [x] + storages) <==> StorageMeans(item, x) && StoragesMean(items, storages)
    ensures StoragesOk([x] + storages) <==> StorageOk(x) && StoragesOk(storages)
  {
    hide StorageMeans, StorageOk;
    var items', storages' := [item] + items, [x] + storages;
    assert items'[0] == item && storages'[0] == x && items'[1..] == items && storages'[1..] == storages;
    assert forall k | 1 <= k < |storages'| :: storages'[k] == storages[k - 1];
    assert forall k | 0 <= k < |storages| :: storages[k] == storages'[k + 1];
    assert forall k | 1 <= k < |items'| :: items'[k] == items[k - 1];
    assert forall k | 0 <= k < |items| :: items[k] == items'[k + 1];
  }

  lemma {:induction false} StoragesMeaning(items: seq<Json>, i: nat, storages: seq<StorageReference>)
    requires i <= |items|
    ensures ParseStorages(items, i) == Success(storages) <==> StoragesMean(items[i..], storages) && StoragesOk(storages)
    decreases |items| - i
  {
    hide StorageFromPayload, StorageMeans, StorageOk;
    if i < |items| && storages != [] {
      hide StoragesMean, StoragesOk;
      assert storages == [storages[0]] + storages[1..] && items[i..] == [items[i]] + items[i + 1..];
      StorageMeaning(items[i], At("storageReferences", i), storages[0]);
      StoragesMeaning(items, i + 1, storages[1..]);
      OneStorageMore(items[i], items[i + 1..], storages[0], storages[1..]);
    }
  }

  predicate ArtifactsMean(items: seq<Json>, artifacts: seq<ArtifactRequest>) {
    |artifacts| == |items| && forall k | 0 <= k < |artifacts| :: ArtifactMeans(items[k], artifacts[k])
  }

  lemma OneArtifactMore(item: Json, items: seq<Json>, x: ArtifactRequest, artifacts: seq<ArtifactRequest>)
    ensures ArtifactsMean([item] + items, [x] + artifacts) <==> ArtifactMeans(item, x) && ArtifactsMean(items, artifacts)
    ensures ArtifactsOk([x] + artifacts) <==> ArtifactOk(x) && ArtifactsOk(artifacts)
  {
    hide ArtifactMeans, ArtifactOk;
    var items', artifacts' := [item] + items, [x] + artifacts;
    assert items'[0] == item && artifacts'[0] == x && items'[1..] == items && artifacts'[1..] == artifacts;
    assert forall k | 1 <= k < |artifacts'| :: artifacts'[k] == artifacts[k - 1];
    assert forall k | 0 <= k < |artifacts| :: artifacts[k] == artifacts'[k + 1];
    assert forall k | 1 <= k < |items'| :: items'[k] == items[k - 1];
    assert forall k | 0 <= k < |items| :: items[k] == items'[k + 1];
  }

  lemma {:induction false} ArtifactsMeaning(items: seq<Json>, i: nat, artifacts: seq<ArtifactRequest>)
    requires i <= |items|
    ensures ParseArtifacts(items, i) == Success(artifacts) <==> ArtifactsMean(items[i..], artifacts) && ArtifactsOk(artifacts)
    decreases |items| - i
  {
    hide ArtifactFromPayload, ArtifactMeans, ArtifactOk;
    if i < |items| && artifacts != [] {
      hide ArtifactsMean, ArtifactsOk;
      assert artifacts == [artifacts[0]] + artifacts[1..] && items[i..] == [items[i]] + items[i + 1..];
      ArtifactMeaning(items[i], At("artifactRequests", i), artifacts[0]);
      ArtifactsMeaning(items, i + 1, artifacts[1..]);
      OneArtifactMore(items[i], items[i + 1..], artifacts[0], artifacts[1..]);
    }
  }

  // ---------- Requests ----------

  /** A field that stands at the root, or in the document when the root does not have the key at all. */
  predicate SchemaFieldIs(p: Object, d: Object, key: string, v: Option<string>) {
    if key in p then TextIs(p, key, v) else TextIs(d, key, v)
  }

  /** Both places give a value, and not the same one. */
  predicate Contradicts(p: Object, d: Object, key: string) {
    key in p && key in d && p[key] != Null && d[key] != Null && p[key] != d[key]
  }

  predicate FrontMeans(p: Object, d: Object, r: DocumentVectorizeInput) {
    && EntryIs(p, "routeId", Str(r.routeId)) && EntryIs(p, "documentId", Str(r.documentId))
    && EntryIs(p, "manifestVersion", if r.manifestVersion.Text? then Str(r.manifestVersion.text) else Int(r.manifestVersion.n))
    && EntryIs(p, "destination", Str(r.destination))
    && "qualityScore" in p && (p["qualityScore"] == Float(r.qualityScore) ||
                               (p["qualityScore"].Int? && p["qualityScore"].i as real == r.qualityScore))
    && EntryIs(p, "document", Obj(d)) && DocumentMeans(d, r.document)
  }

  predicate ListsMean(p: Object, r: DocumentVectorizeInput) {
    && "chunks" in p && p["chunks"].Arr? && ChunksMean(p["chunks"].items, r.chunks)
    && (if "storageReferences" !in p then r.storageReferences == []
        else p["storageReferences"].Arr? && StoragesMean(p["storageReferences"].items, r.storageReferences))
    && (if "artifactRequests" !in p then r.artifactRequests == []
        else p["artifactRequests"].Arr? && ArtifactsMean(p["artifactRequests"].items, r.artifactRequests))
  }

  predicate BackMeans(p: Object, d: Object, r: DocumentVectorizeInput) {
    && !Contradicts(p, d, "documentType") && !Contradicts(p, d, "schemaId") && !Contradicts(p, d, "schemaVersion")
    && SchemaFieldIs(p, d, "documentType", r.documentType) && SchemaFieldIs(p, d, "schemaId", r.schemaId)
    && SchemaFieldIs(p, d, "schemaVersion", r.schemaVersion)
    && MappingIs(p, "metadata", r.metadata) && MappingIs(p, "provenance", r.provenance)
    && r.classification == (if "classification" in p then p["classification"] else Null)
    && OptionsMeans(p, r.options) && TextIs(p, "correlationId", r.correlationId)
    && TextIs(p, "embeddingModel", r.embeddingModel)
  }

  /** Every field of the request is the stated entry of the payload. */
  predicate RequestMeans(j: Json, r: DocumentVectorizeInput) {
    j.Obj? &&
    var p := j.fields;
    "document" in p && p["document"].Obj? &&
    var d := p["document"].fields;
    FrontMeans(p, d, r) && ListsMean(p, r) && BackMeans(p, d, r)
  }

  function FrontOf(r: DocumentVectorizeInput, d: Object): Front {
    Front(r.routeId, r.documentId, r.manifestVersion, r.destination, r.qualityScore, d, r.document)
  }

  function ListsOf(r: DocumentVectorizeInput): Lists {
    Lists(r.chunks, r.storageReferences, r.artifactRequests)
  }

  function BackOf(r: DocumentVectorizeInput): Back {
    Back(r.metadata, r.classification, r.options, r.documentType, r.schemaId, r.schemaVersion, r.provenance, r.correlationId,
         r.embeddingModel)
  }

  lemma FrontMeaning(p: Object, d: Object, r: DocumentVectorizeInput)
    ensures FrontFromPayload(p) == Success(FrontOf(r, d)) <==> FrontMeans(p, d, r) && FrontOk(r)
  {
    hide RequiredString, DocumentFromPayload, DocumentMeans, DocumentOk, Blank;
    NameReads(p, "routeId", "routeId", r.routeId);
    NameReads(p, "documentId", "documentId", r.documentId);
    NameReads(p, "destination", "destination", r.destination);
    DestinationIsNamed();
    DocumentMeaning(d, r.document);
  }

  lemma ListsMeaning(p: Object, r: DocumentVectorizeInput)
    ensures ListsFromPayload(p) == Success(ListsOf(r)) <==> ListsMean(p, r) && ListsOk(r)
  {
    hide ParseChunks, ParseStorages, ParseArtifacts, ChunksMean, StoragesMean, ArtifactsMean, ChunksOk, StoragesOk;
    hide ArtifactsOk;
    EmptyLists(r);
    WholeChunks(Get(p, "chunks"), r.chunks);
    WholeStorages(ListOrMissing(p, "storageReferences", "storageReferences"), r.storageReferences);
    WholeArtifacts(ListOrMissing(p, "artifactRequests", "artifactRequests"), r.artifactRequests);
  }

  lemma EmptyLists(r: DocumentVectorizeInput)
    ensures StoragesMean([], r.storageReferences) <==> r.storageReferences == []
    ensures ArtifactsMean([], r.artifactRequests) <==> r.artifactRequests == []
  {}

  lemma WholeChunks(j: Json, chunks: seq<ChunkReference>)
    ensures j.Arr? ==> (ParseChunks(j.items, 0) == Success(chunks) <==> ChunksMean(j.items, chunks) && ChunksOk(chunks))
    ensures j.Arr? && ChunksMean(j.items, chunks) ==> (j.items == [] <==> chunks == [])
  {
    if j.Arr? {
      assert j.items[0..] == j.items;
      ChunksMeaning(j.items, 0, chunks);
    }
  }

  lemma WholeStorages(items: Parsed<seq<Json>>, storages: seq<StorageReference>)
    ensures items.Success? ==>
      (ParseStorages(items.value, 0) == Success(storages) <==> StoragesMean(items.value, storages) && StoragesOk(storages))
  {
    if items.Success? {
      assert items.value[0..] == items.value;
      StoragesMeaning(items.value, 0, storages);
    }
  }

  lemma WholeArtifacts(items: Parsed<seq<Json>>, artifacts: seq<ArtifactRequest>)
    ensures items.Success? ==>
      (ParseArtifacts(items.value, 0) == Success(artifacts) <==>
       ArtifactsMean(items.value, artifacts) && ArtifactsOk(artifacts))
  {
    if items.Success? {
      assert items.value[0..] == items.value;
      ArtifactsMeaning(items.value, 0, artifacts);
    }
  }

  lemma BackMeaning(p: Object, d: Object, r: DocumentVectorizeInput)
    ensures BackFromPayload(p, d) == Success(BackOf(r)) <==> BackMeans(p, d, r) && BackOk(r)
  {
    hide OptionalString, OptionalMapping, OptionsFromPayload, OptionsMeans, OptionsOk, TextIs, MappingIs, Named;
    MappingReads(p, "metadata", "metadata", r.metadata);
    OptionsMeaning(p, r.options);
    SchemaFieldReads(p, d, "documentType", r.documentType);
    SchemaFieldReads(p, d, "schemaId", r.schemaId);
    SchemaFieldReads(p, d, "schemaVersion", r.schemaVersion);
    hide RootOrDocument, SchemaFieldIs;
    MappingReads(p, "provenance", "provenance", r.provenance);
    TextReads(p, "correlationId", "correlationId", r.correlationId);
    TextReads(p, "embeddingModel", "embeddingModel", r.embeddingModel);
  }

  lemma SchemaFieldReads(p: Object, d: Object, key: string, v: Option<string>)
    ensures RootOrDocument(p, d, key) == Success(v) <==> SchemaFieldIs(p, d, key, v) && Named(v)
  {
    hide OptionalString, TextIs, Named;
    TextReads(p, key, key, v);
    TextReads(d, key, "document." + key, v);
  }

  /**
   * The parser, exactly: a payload is accepted as a request if and only if every field of the request is the stated entry
   * of the payload, no schema field is given two values, and the request is well formed field by field and related.
   */
  lemma PayloadMeansRequest(j: Json, r: DocumentVectorizeInput)
    ensures FromPayload(j) == Success(r) <==> RequestMeans(j, r) && RequestOk(r)
  {
    hide FrontFromPayload, ListsFromPayload, BackFromPayload, FrontOk, ListsOk, BackOk, Related, RelationProblem;
    hide FrontMeans, ListsMean, BackMeans;
    NoProblemIffRelated(r);
    if j.Obj? {
      var p := j.fields;
      ListsMeaning(p, r);
      if Get(p, "document").Obj? {
        FrontMeaning(p, Get(p, "document").fields, r);
        BackMeaning(p, Get(p, "document").fields, r);
      }
      FrontHasDocument(p);
    }
  }

  lemma FrontHasDocument(p: Object)
    ensures FrontFromPayload(p).Success? ==> Get(p, "document") == Obj(FrontFromPayload(p).value.rawDocument)
  {
    hide DocumentFromPayload, RequiredString;
  }

  /** Whatever else the payload says, a schema field given two values makes it unacceptable. */
  lemma ContradictionIsRejected(p: Object, d: Object, key: string)
    requires "document" in p && p["document"] == Obj(d) && key in {"documentType", "schemaId", "schemaVersion"}
    requires key in p && key in d && p[key] != Null && d[key] != Null && p[key] != d[key]
    ensures FromPayload(Obj(p)).Failure?
  {
    if FromPayload(Obj(p)).Success? {
      PayloadMeansRequest(Obj(p), FromPayload(Obj(p)).value);
    }
  }
}
