/** The document.vectorize request: parsing, cross-field checks, normal form and the node's second parse. */
module VectorizeInput {
  import opened Wrappers
  import opened JsonValues
  import opened VectorizePayload

  datatype Version = Text(text: string) | Number(n: int)

  datatype DocumentVectorizeInput = DocumentVectorizeInput(
    routeId: string, documentId: string, manifestVersion: Version, destination: string, qualityScore: real,
    document: DocumentReference, chunks: seq<ChunkReference>, storageReferences: seq<StorageReference>,
    artifactRequests: seq<ArtifactRequest>, documentType: Option<string>, schemaId: Option<string>,
    schemaVersion: Option<string>, provenance: Object, correlationId: Option<string>, embeddingModel: Option<string>,
    classification: Json, metadata: Object, options: VectorizeOptions)

  // ---------- Lists ----------

  function ParseChunks(items: seq<Json>, i: nat): Parsed<seq<ChunkReference>>
    requires i <= |items|
    decreases |items| - i
  {
    if i == |items| then Success([])
    else
      var first :- ChunkFromPayload(items[i], At("chunks", i));
      var rest :- ParseChunks(items, i + 1);
      Success([first] + rest)
  }

  function ParseStorages(items: seq<Json>, i: nat): Parsed<seq<StorageReference>>
    requires i <= |items|
    decreases |items| - i
  {
    if i == |items| then Success([])
    else
      var first :- StorageFromPayload(items[i], At("storageReferences", i));
      var rest :- ParseStorages(items, i + 1);
      Success([first] + rest)
  }

  function ParseArtifacts(items: seq<Json>, i: nat): Parsed<seq<ArtifactRequest>>
    requires i <= |items|
    decreases |items| - i
  {
    if i == |items| then Success([])
    else
      var first :- ArtifactFromPayload(items[i], At("artifactRequests", i));
      var rest :- ParseArtifacts(items, i + 1);
      Success([first] + rest)
  }

  function Payloads<T>(xs: seq<T>, f: T -> Json): seq<Json> {
    seq(|xs|, i requires 0 <= i < |xs| => f(xs[i]))
  }

  predicate ChunksOk(chunks: seq<ChunkReference>) {
    forall i | 0 <= i < |chunks| :: ChunkOk(chunks[i])
  }

  lemma {:induction false} ChunksParseOk(items: seq<Json>, i: nat)
    requires i <= |items|
    ensures ParseChunks(items, i).Success? ==> ChunksOk(ParseChunks(items, i).value) && |ParseChunks(items, i).value| == |items| - i
    decreases |items| - i
  {
    hide ChunkFromPayload, ChunkOk;
    if i < |items| {
      ChunkParsesOk(items[i], At("chunks", i));
      ChunksParseOk(items, i + 1);
    }
  }

  lemma {:induction false} ChunksRoundTrip(chunks: seq<ChunkReference>, i: nat)
    requires i <= |chunks|
    ensures
      var items := Payloads(chunks, ChunkToPayload);
      if ChunksOk(chunks[i..]) then ParseChunks(items, i) == Success(chunks[i..]) else ParseChunks(items, i).Failure?
    decreases |chunks| - i
  {
    hide ChunkFromPayload, ChunkToPayload, ChunkOk;
    var items := Payloads(chunks, ChunkToPayload);
    if i == |chunks| {
      assert chunks[i..] == [];
    } else {
      assert items[i] == ChunkToPayload(chunks[i]);
      ChunkRoundTrip(chunks[i], At("chunks", i));
      ChunksRoundTrip(chunks, i + 1);
      assert chunks[i..] == [chunks[i]] + chunks[i + 1..];
      assert ChunksOk(chunks[i..]) <==> ChunkOk(chunks[i]) && ChunksOk(chunks[i + 1..]);
    }
  }

  predicate StoragesOk(storages: seq<StorageReference>) {
    forall i | 0 <= i < |storages| :: StorageOk(storages[i])
  }

  lemma {:induction false} StoragesParseOk(items: seq<Json>, i: nat)
    requires i <= |items|
    ensures ParseStorages(items, i).Success? ==> StoragesOk(ParseStorages(items, i).value)
    decreases |items| - i
  {
    hide StorageFromPayload, StorageOk;
    if i < |items| {
      StorageParsesOk(items[i], At("storageReferences", i));
      StoragesParseOk(items, i + 1);
    }
  }

  lemma {:induction false} StoragesRoundTrip(storages: seq<StorageReference>, i: nat)
    requires i <= |storages| && StoragesOk(storages)
    ensures ParseStorages(Payloads(storages, StorageToPayload), i) == Success(storages[i..])
    decreases |storages| - i
  {
    hide StorageFromPayload, StorageToPayload, StorageOk;
    var items := Payloads(storages, StorageToPayload);
    if i == |storages| {
      assert storages[i..] == [];
    } else {
      assert items[i] == StorageToPayload(storages[i]);
      StorageRoundTrip(storages[i], At("storageReferences", i));
      StoragesRoundTrip(storages, i + 1);
      assert storages[i..] == [storages[i]] + storages[i + 1..];
    }
  }

  predicate ArtifactsOk(artifacts: seq<ArtifactRequest>) {
    forall i | 0 <= i < |artifacts| :: ArtifactOk(artifacts[i])
  }

  lemma {:induction false} ArtifactsParseOk(items: seq<Json>, i: nat)
    requires i <= |items|
    ensures ParseArtifacts(items, i).Success? ==> ArtifactsOk(ParseArtifacts(items, i).value)
    decreases |items| - i
  {
    hide ArtifactFromPayload, ArtifactOk;
    if i < |items| {
      ArtifactKeepsPayload(items[i], At("artifactRequests", i));
      ArtifactsParseOk(items, i + 1);
    }
  }

  lemma {:induction false} ArtifactsRoundTrip(artifacts: seq<ArtifactRequest>, i: nat)
    requires i <= |artifacts| && ArtifactsOk(artifacts)
    ensures ParseArtifacts(Payloads(artifacts, ArtifactToPayload), i) == Success(artifacts[i..])
    decreases |artifacts| - i
  {
    hide ArtifactFromPayload, ArtifactToPayload, ArtifactOk;
    var items := Payloads(artifacts, ArtifactToPayload);
    if i == |artifacts| {
      assert artifacts[i..] == [];
    } else {
      assert items[i] == ArtifactToPayload(artifacts[i]);
      ArtifactRoundTrip(artifacts[i], At("artifactRequests", i));
      ArtifactsRoundTrip(artifacts, i + 1);
      assert artifacts[i..] == [artifacts[i]] + artifacts[i + 1..];
    }
  }

  // ---------- Relationships ----------

  /** What is wrong with the chunk at this position, given the chunks before it. */
  function ChunkProblem(documentId: string, chunks: seq<ChunkReference>, i: nat): Option<string>
    requires i < |chunks|
  {
    var c := chunks[i];
    if c.documentId.Some? && c.documentId.value != documentId then Some(At("chunks", i) + ".documentId")
    else if exists j | 0 <= j < i :: chunks[j].chunkId == c.chunkId then Some(At("chunks", i) + ".chunkId")
    else if (exists j | 0 <= j < i :: chunks[j].index == c.index) || c.index != i then Some(At("chunks", i) + ".index")
    else if c.text.None? && c.storage.None? then Some(At("chunks", i))
    else None
  }

  function FirstChunkProblem(documentId: string, chunks: seq<ChunkReference>, i: nat): Option<string>
    requires i <= |chunks|
    decreases |chunks| - i
  {
    if i == |chunks| then None
    else if ChunkProblem(documentId, chunks, i).Some? then ChunkProblem(documentId, chunks, i)
    else FirstChunkProblem(documentId, chunks, i + 1)
  }

  /** An embedding request asks for other dimensions than the options. */
  predicate DimensionsClash(a: ArtifactRequest, options: VectorizeOptions) {
    a.artifactType == "embedding" && !Get(a.parameters, "dimensions").Null? && options.dimensions.Some?
    && Get(a.parameters, "dimensions") != Int(options.dimensions.value)
  }

  function FirstArtifactProblem(artifacts: seq<ArtifactRequest>, options: VectorizeOptions, i: nat): Option<string>
    requires i <= |artifacts|
    decreases |artifacts| - i
  {
    if i == |artifacts| then None
    else if DimensionsClash(artifacts[i], options) then Some(At("artifactRequests", i) + ".parameters.dimensions")
    else FirstArtifactProblem(artifacts, options, i + 1)
  }

  function RelationProblem(r: DocumentVectorizeInput): Option<string> {
    if !(0.0 <= r.qualityScore <= 1.0) then Some("qualityScore")
    else if r.document.documentId != r.documentId then Some("document.documentId")
    else if r.schemaId.None? != r.schemaVersion.None? then Some("schemaId")
    else
      match FirstChunkProblem(r.documentId, r.chunks, 0)
      case Some(problem) => Some(problem)
      case None => FirstArtifactProblem(r.artifactRequests, r.options, 0)
  }

  /** The same as statements about the whole request. */
  predicate Related(r: DocumentVectorizeInput) {
    && 0.0 <= r.qualityScore <= 1.0 && r.document.documentId == r.documentId && r.schemaId.None? == r.schemaVersion.None?
    && (forall i | 0 <= i < |r.chunks| ::
          && (r.chunks[i].documentId.Some? ==> r.chunks[i].documentId.value == r.documentId)
          && r.chunks[i].index == i && (r.chunks[i].text.Some? || r.chunks[i].storage.Some?))
    && (forall i, j | 0 <= i < j < |r.chunks| :: r.chunks[i].chunkId != r.chunks[j].chunkId)
    && (forall i | 0 <= i < |r.artifactRequests| :: DimensionsAgree(r.artifactRequests[i], r.options))
  }

  /** An embedding request that says how many dimensions it wants wants as many as the options, if those say so too. */
  predicate DimensionsAgree(a: ArtifactRequest, options: VectorizeOptions) {
    && (a.artifactType == "embedding" && "dimensions" in a.parameters && a.parameters["dimensions"] != Null
        && options.dimensions.Some? ==>
          a.parameters["dimensions"] == Int(options.dimensions.value))
  }

  lemma ClashIffNotAgreeing(a: ArtifactRequest, options: VectorizeOptions)
    ensures DimensionsClash(a, options) <==> !DimensionsAgree(a, options)
  {}

  lemma {:induction false} ChunkProblems(documentId: string, chunks: seq<ChunkReference>, i: nat)
    requires i <= |chunks|
    ensures FirstChunkProblem(documentId, chunks, i).None? <==>
            forall k | i <= k < |chunks| :: ChunkProblem(documentId, chunks, k).None?
    decreases |chunks| - i
  {
    if i < |chunks| {
      ChunkProblems(documentId, chunks, i + 1);
    }
  }

  lemma {:induction false} ArtifactProblems(artifacts: seq<ArtifactRequest>, options: VectorizeOptions, i: nat)
    requires i <= |artifacts|
    ensures FirstArtifactProblem(artifacts, options, i).None? <==>
            forall k | i <= k < |artifacts| :: !DimensionsClash(artifacts[k], options)
    decreases |artifacts| - i
  {
    hide DimensionsClash;
    if i < |artifacts| {
      ArtifactProblems(artifacts, options, i + 1);
    }
  }

  /** Checking field by field, stopping at the first problem, accepts exactly the related requests. */
  lemma NoProblemIffRelated(r: DocumentVectorizeInput)
    ensures RelationProblem(r).None? <==> Related(r)
  {
    forall i | 0 <= i < |r.artifactRequests|
      ensures DimensionsClash(r.artifactRequests[i], r.options) <==> !DimensionsAgree(r.artifactRequests[i], r.options)
    {
      ClashIffNotAgreeing(r.artifactRequests[i], r.options);
    }
    hide DimensionsClash, DimensionsAgree;
    ChunkProblems(r.documentId, r.chunks, 0);
    ArtifactProblems(r.artifactRequests, r.options, 0);
    if RelationProblem(r).None? {
      forall i | 0 <= i < |r.chunks|
        ensures r.chunks[i].documentId.Some? ==> r.chunks[i].documentId.value == r.documentId
        ensures r.chunks[i].index == i && (r.chunks[i].text.Some? || r.chunks[i].storage.Some?)
      {
        assert ChunkProblem(r.documentId, r.chunks, i).None?;
      }
      forall i, j | 0 <= i < j < |r.chunks| ensures r.chunks[i].chunkId != r.chunks[j].chunkId {
        assert ChunkProblem(r.documentId, r.chunks, j).None?;
      }
    }
    if Related(r) {
      forall k | 0 <= k < |r.chunks| ensures ChunkProblem(r.documentId, r.chunks, k).None? {}
    }
  }

  /** `_validate_relationships`: one pass over the chunks with the ids and indices seen so far. */
  method ValidateRelationships(r: DocumentVectorizeInput) returns (problem: Option<string>)
    ensures problem == RelationProblem(r)
    ensures problem.None? <==> Related(r)
  {
    NoProblemIffRelated(r);
    hide Related, DimensionsClash, At;
    if !(0.0 <= r.qualityScore <= 1.0) {
      return Some("qualityScore");
    }
    if r.document.documentId != r.documentId {
      return Some("document.documentId");
    }
    if r.schemaId.None? != r.schemaVersion.None? {
      return Some("schemaId");
    }
    var chunkIds: set<string>, chunkIndices: set<int> := {}, {};
    for position := 0 to |r.chunks|
      invariant chunkIds == set j | 0 <= j < position :: r.chunks[j].chunkId
      invariant chunkIndices == set j | 0 <= j < position :: r.chunks[j].index
      invariant FirstChunkProblem(r.documentId, r.chunks, 0) == FirstChunkProblem(r.documentId, r.chunks, position)
    {
      var chunk := r.chunks[position];
      if chunk.documentId.Some? && chunk.documentId.value != r.documentId {
        return Some(At("chunks", position) + ".documentId");
      }
      if chunk.chunkId in chunkIds {
        return Some(At("chunks", position) + ".chunkId");
      }
      if chunk.index in chunkIndices || chunk.index != position {
        return Some(At("chunks", position) + ".index");
      }
      if chunk.text.None? && chunk.storage.None? {
        return Some(At("chunks", position));
      }
      chunkIds, chunkIndices := chunkIds + {chunk.chunkId}, chunkIndices + {chunk.index};
    }
    for position := 0 to |r.artifactRequests|
      invariant FirstArtifactProblem(r.artifactRequests, r.options, 0)
             == FirstArtifactProblem(r.artifactRequests, r.options, position)
    {
      if DimensionsClash(r.artifactRequests[position], r.options) {
        return Some(At("artifactRequests", position) + ".parameters.dimensions");
      }
    }
    return None;
  }
}
