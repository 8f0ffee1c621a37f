/** Filling in chunk texts from storage before the node parses the request a second time. */
module ChunkContent {
  import opened Wrappers
  import opened JsonValues
  import opened VectorizePayload
  import opened VectorizeInput
  import opened VectorizeRequest

  /** What a storage load may return: text, bytes (with their UTF-8 reading, if any), a mapping, or anything else. */
  datatype Content = Chars(text: string) | Bytes(utf8: Option<string>) | Fields(fields: Object) | Other

  datatype Load = Unavailable | Absent | Found(content: Content)

  type Storage = string -> Load

  datatype ProcessingError = ProcessingError(code: string, position: nat, retryable: bool)

  /** `storage_key`: the address a reference is loaded from, if it has one. */
  function StorageKey(s: StorageReference): Option<string> {
    if s.uri.GetOr("") != "" then s.uri
    else if s.bucket.GetOr("") != "" then
      Some((if s.provider.GetOr("") != "" then s.provider.value else "storage") + "://" + s.bucket.value + "/" + s.key.GetOr("None"))
    else if s.key.GetOr("") != "" then s.key
    else None
  }

  /** `_decode_chunk_content`: the non-empty text in the content, if there is one. */
  function DecodeContent(content: Content): Option<string> {
    match content
    case Chars(text) => if text != "" then Some(text) else None
    case Bytes(utf8) => if utf8.GetOr("") != "" then utf8 else None
    case Fields(m) =>
      (match if "text" in m then m["text"] else Get(m, "content")
       case Str(s) => if s != "" then Some(s) else None
       case _ => None)
    case Other => None
  }

  /** A chunk as it goes to the vectorizer: inline text stays, a chunk without text gets its storage content. */
  function ResolvedChunk(c: ChunkReference, position: nat, load: Storage): Result<ChunkReference, ProcessingError> {
    if c.text.Some? then Success(c)
    else if c.storage.None? then Failure(ProcessingError("INVALID_STORAGE_REFERENCE", position, false))
    else
      match StorageKey(c.storage.value)
      case None => Failure(ProcessingError("STORAGE_UNAVAILABLE", position, true))
      case Some(key) =>
        match load(key)
        case Unavailable => Failure(ProcessingError("STORAGE_UNAVAILABLE", position, true))
        case Absent => Failure(ProcessingError("STORAGE_CONTENT_NOT_FOUND", position, false))
        case Found(content) =>
          match DecodeContent(content)
          case None => Failure(ProcessingError("INVALID_STORAGE_CONTENT", position, false))
          case Some(text) => Success(c.(text := Some(text)))
  }

  /** The loaded request differs only in the texts of chunks that had none, and each of those is its decoded content. */
  predicate IsResolved(r: DocumentVectorizeInput, loaded: DocumentVectorizeInput, load: Storage) {
    && |loaded.chunks| == |r.chunks| && loaded == r.(chunks := loaded.chunks)
    && (forall i | 0 <= i < |r.chunks| :: ResolvedChunk(r.chunks[i], i, load) == Success(loaded.chunks[i]))
  }

  /** `_resolve_chunk_content`: chunk after chunk on a copy, stopping at the first chunk that cannot be filled. */
  method ResolveChunkContent(request: DocumentVectorizeInput, load: Storage)
    returns (outcome: Result<DocumentVectorizeInput, ProcessingError>)
    ensures outcome.Success? ==> IsResolved(request, outcome.value, load)
    ensures outcome.Failure? ==>
              var p := outcome.error.position;
              && p < |request.chunks| && ResolvedChunk(request.chunks[p], p, load) == Failure(outcome.error)
              && forall i | 0 <= i < p :: ResolvedChunk(request.chunks[i], i, load).Success?
  {
    var loaded := request;
    for position := 0 to |request.chunks|
      invariant |loaded.chunks| == |request.chunks| && loaded == request.(chunks := loaded.chunks)
      invariant forall i | 0 <= i < position :: ResolvedChunk(request.chunks[i], i, load) == Success(loaded.chunks[i])
      invariant forall i | position <= i < |request.chunks| :: loaded.chunks[i] == request.chunks[i]
    {
      var chunk := loaded.chunks[position];
      if chunk.text.Some? {
        continue;
      }
      if chunk.storage.None? {
        return Failure(ProcessingError("INVALID_STORAGE_REFERENCE", position, false));
      }
      var key := StorageKey(chunk.storage.value);
      if key.None? {
        return Failure(ProcessingError("STORAGE_UNAVAILABLE", position, true));
      }
      var content := load(key.value);
      if content.Unavailable? {
        return Failure(ProcessingError("STORAGE_UNAVAILABLE", position, true));
      }
      if content.Absent? {
        return Failure(ProcessingError("STORAGE_CONTENT_NOT_FOUND", position, false));
      }
      var text := DecodeContent(content.content);
      if text.None? {
        return Failure(ProcessingError("INVALID_STORAGE_CONTENT", position, false));
      }
      loaded := loaded.(chunks := loaded.chunks[position := chunk.(text := text)]);
    }
    return Success(loaded);
  }

  /** The uri; or provider, bucket and key, with "storage" for a missing provider; or the key alone. */
  function Address(s: StorageReference): string
    requires StorageOk(s)
  {
    if s.uri.Some? then s.uri.value
    else if s.bucket.None? then s.key.value
    else (if s.provider.None? then "storage" else s.provider.value) + "://" + s.bucket.value + "/" + s.key.value
  }

  /** The content is this text: directly, as UTF-8, or in a mapping under `text`, or `content` if there is no `text`. */
  predicate Says(content: Content, text: string) {
    text != "" &&
    match content
    case Chars(chars) => chars == text
    case Bytes(utf8) => utf8 == Some(text)
    case Fields(m) => if "text" in m then m["text"] == Str(text) else "content" in m && m["content"] == Str(text)
    case Other => false
  }

  lemma ContentSays(content: Content, text: string)
    ensures DecodeContent(content) == Some(text) <==> Says(content, text)
  {}

  /**
   * A chunk of an accepted request keeps its inline text; without one it is loaded from its address, filled with
   * exactly what the content there says, and fails otherwise, to be tried again exactly when storage is unavailable.
   */
  lemma AcceptedChunksHaveAnAddress(r: DocumentVectorizeInput, i: nat, load: Storage, text: string)
    requires RequestOk(r) && i < |r.chunks|
    ensures
      var c := r.chunks[i];
      var resolved := ResolvedChunk(c, i, load);
      if c.text.Some? then resolved == Success(c)
      else
        && c.storage.Some? && StorageOk(c.storage.value)
        && var found := load(Address(c.storage.value));
           && (resolved == Success(c.(text := Some(text))) <==> found.Found? && Says(found.content, text))
           && (resolved.Success? ==> exists t :: resolved == Success(c.(text := Some(t))))
           && (resolved.Failure? ==> resolved.error.position == i && (resolved.error.retryable <==> found == Unavailable))
  {
    hide DecodeContent, Says;
    var c := r.chunks[i];
    assert ChunkOk(c);
    if c.text.None? {
      AddressIsKey(c.storage.value);
      var found := load(Address(c.storage.value));
      if found.Found? {
        ContentSays(found.content, text);
      }
    }
  }

  lemma AddressIsKey(s: StorageReference)
    requires StorageOk(s)
    ensures StorageKey(s) == Some(Address(s))
  {}

  lemma ChunksDoNotMatterElsewhere(r: DocumentVectorizeInput, chunks: seq<ChunkReference>)
    ensures FrontOk(r.(chunks := chunks)) <==> FrontOk(r)
    ensures BackOk(r.(chunks := chunks)) <==> BackOk(r)
  {}

  lemma ResolvingKeepsTheRest(r: DocumentVectorizeInput, loaded: DocumentVectorizeInput, load: Storage)
    requires RequestOk(r) && IsResolved(r, loaded, load)
    ensures FrontOk(loaded) && BackOk(loaded) && Related(loaded)
    ensures loaded.chunks != [] && StoragesOk(loaded.storageReferences) && ArtifactsOk(loaded.artifactRequests)
    ensures ChunksOk(loaded.chunks) <==> forall i | 0 <= i < |loaded.chunks| :: !Blank(loaded.chunks[i].text.GetOr(""))
  {
    hide StoragesOk, ArtifactsOk, FrontOk, BackOk, DimensionsAgree, DecodeContent, StorageKey;
    ChunksDoNotMatterElsewhere(r, loaded.chunks);
    forall i | 0 <= i < |loaded.chunks|
      ensures loaded.chunks[i].text.Some? && loaded.chunks[i] == r.chunks[i].(text := loaded.chunks[i].text)
      ensures ChunkOk(loaded.chunks[i]) <==> !Blank(loaded.chunks[i].text.GetOr(""))
    {
      assert ChunkOk(r.chunks[i]);
    }
  }

  /** The node's second parse takes a loaded request exactly when no chunk text is whitespace only, and then unchanged. */
  lemma SecondParse(r: DocumentVectorizeInput, loaded: DocumentVectorizeInput, load: Storage)
    requires RequestOk(r) && IsResolved(r, loaded, load)
    ensures
      var again := FromPayload(Obj(ToPayload(loaded)));
      if forall i | 0 <= i < |loaded.chunks| :: !Blank(loaded.chunks[i].text.GetOr("")) then again == Success(loaded)
      else again.Failure?
  {
    hide FrontFromPayload, ListsFromPayload, BackFromPayload, FrontOk, BackOk, Related, RelationProblem, ToPayload;
    hide StoragesOk, ArtifactsOk, ChunkOk;
    ResolvingKeepsTheRest(r, loaded, load);
    ListsRoundTrip(loaded);
    RoundTrip(loaded);
  }
}
