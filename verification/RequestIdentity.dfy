/** Idempotency keys and fingerprints. A digest stands for what is hashed, so equal digests mean equal contents. */
module RequestIdentity {
  import opened Wrappers
  import opened JsonValues
  import opened VectorizePayload
  import opened VectorizeInput
  import opened VectorizeRequest

  /** The identity that is hashed into a key; `messageId` is present only when nothing else identifies the request. */
  datatype Identity = Identity(
    documentId: Json, manifestVersion: Json, routeId: Json, correlationId: Json, operationId: Json,
    messageId: Option<string>)

  /** Python's truth value. */
  predicate Truthy(j: Json) {
    match j
    case Null => false
    case Bool(b) => b
    case Int(i) => i != 0
    case Float(x) => x != 0.0
    case NonFinite => true
    case Str(s) => s != ""
    case Arr(items) => items != []
    case Obj(fields) => fields != map[]
  }

  /** `a or b or c`. */
  function Either(a: Json, b: Json, c: Json): Json {
    if Truthy(a) then a else if Truthy(b) then b else c
  }

  /** `build_document_idempotency_key`. */
  function IdempotencyKey(payload: Object, messageId: string, headers: Object): Identity {
    var routeId := Get(payload, "routeId");
    var correlationId := Either(Get(payload, "correlationId"), Get(headers, "correlationId"), Get(headers, "correlation_id"));
    var operationId := Either(Get(payload, "operationId"), Get(headers, "operationId"), Get(headers, "operation_id"));
    Identity(Get(payload, "documentId"), Get(payload, "manifestVersion"), routeId, correlationId, operationId,
             if Truthy(routeId) || Truthy(correlationId) || Truthy(operationId) then None else Some(messageId))
  }

  /** null, false, zero and everything empty. */
  predicate Falsy(j: Json) {
    j in {Null, Bool(false), Int(0), Float(0.0), Str(""), Arr([]), Obj(map[])}
  }

  /** `v` is the first of the three that says anything, and the last one if none does. */
  predicate IsFirst(a: Json, b: Json, c: Json, v: Json) {
    if !Falsy(a) then v == a else if !Falsy(b) then v == b else v == c
  }

  /**
   * The key of any payload, valid or not: document, version and route as they stand there, the correlation id and the
   * operation id from the payload or else from either header spelling; and the message id takes part exactly when
   * route, correlation id and operation id all say nothing.
   */
  lemma KeyOfAnyPayload(payload: Object, messageId: string, headers: Object)
    ensures
      var key := IdempotencyKey(payload, messageId, headers);
      && key.documentId == Get(payload, "documentId") && key.manifestVersion == Get(payload, "manifestVersion")
      && key.routeId == Get(payload, "routeId")
      && IsFirst(Get(payload, "correlationId"), Get(headers, "correlationId"), Get(headers, "correlation_id"),
                 key.correlationId)
      && IsFirst(Get(payload, "operationId"), Get(headers, "operationId"), Get(headers, "operation_id"), key.operationId)
      && key.messageId ==
           if Falsy(key.routeId) && Falsy(key.correlationId) && Falsy(key.operationId) then Some(messageId) else None
  {
    hide Get, Truthy, Falsy;
    TruthyIffNotFalsy(Get(payload, "routeId"));
    TruthyIffNotFalsy(Get(payload, "correlationId"));
    TruthyIffNotFalsy(Get(headers, "correlationId"));
    TruthyIffNotFalsy(Get(headers, "correlation_id"));
    TruthyIffNotFalsy(Get(payload, "operationId"));
    TruthyIffNotFalsy(Get(headers, "operationId"));
    TruthyIffNotFalsy(Get(headers, "operation_id"));
  }

  lemma TruthyIffNotFalsy(j: Json)
    ensures Truthy(j) <==> !Falsy(j)
  {}

  /** `build_document_request_fingerprint`. */
  function Fingerprint(payload: Object): Object {
    payload
  }

  /** Two accepted payloads carry the same fingerprint exactly when they were read as the same request. */
  lemma SameFingerprintIffSameRequest(j1: Json, j2: Json)
    requires FromPayload(j1).Success? && FromPayload(j2).Success?
    ensures
      var r1, r2 := FromPayload(j1).value, FromPayload(j2).value;
      Fingerprint(ToPayload(r1)) == Fingerprint(ToPayload(r2)) <==> r1 == r2
  {
    hide FromPayload, ToPayload;
    NormalizationIsIdempotent(j1);
    NormalizationIsIdempotent(j2);
  }

  /** The correlation id a key is built with: the request's own, or one of the two header spellings. */
  function EffectiveCorrelation(r: DocumentVectorizeInput, headers: Object): Json {
    if r.correlationId.Some? then Str(r.correlationId.value)
    else if Falsy(Get(headers, "correlationId")) then Get(headers, "correlation_id")
    else Get(headers, "correlationId")
  }

  function EffectiveOperation(headers: Object): Json {
    if Falsy(Get(headers, "operationId")) then Get(headers, "operation_id") else Get(headers, "operationId")
  }

  /** The key of an accepted request names its document, version and route; the message that carried it does not matter,
      and neither does an `operationId` in the payload. */
  lemma KeyOfAcceptedRequest(j: Json, messageId: string, headers: Object)
    requires FromPayload(j).Success?
    ensures
      var r := FromPayload(j).value;
      var key := IdempotencyKey(ToPayload(r), messageId, headers);
      && key.documentId == Str(r.documentId) && key.manifestVersion == VersionToPayload(r.manifestVersion)
      && key.routeId == Str(r.routeId) && key.messageId == None
      && key.operationId == EffectiveOperation(headers)
      && key.correlationId == EffectiveCorrelation(r, headers)
  {
    hide FromPayload, ToPayload, Related, ListsOk, DocumentOk, OptionsOk, Finite, Blank;
    ParsesOk(j);
    var r := FromPayload(j).value;
    FrontFields(r);
    BackFields(r);
    NoOperationId(r);
    BlankIfEmpty();
  }

  lemma NoOperationId(r: DocumentVectorizeInput)
    ensures Get(ToPayload(r), "operationId") == Null
  {}

  lemma BlankIfEmpty()
    ensures Blank("")
  {}

  predicate SameIdentity(r1: DocumentVectorizeInput, headers1: Object, r2: DocumentVectorizeInput, headers2: Object) {
    && r1.documentId == r2.documentId && r1.manifestVersion == r2.manifestVersion && r1.routeId == r2.routeId
    && EffectiveCorrelation(r1, headers1) == EffectiveCorrelation(r2, headers2)
    && EffectiveOperation(headers1) == EffectiveOperation(headers2)
  }

  /** Two accepted requests share a key exactly when they agree on document, version, route, effective correlation id and
      the operation id of their headers, whatever messages carried them; and the later one then conflicts with the
      earlier one exactly when it is a different request. */
  lemma ConflictIffDifferentRequest(j1: Json, m1: string, headers1: Object, j2: Json, m2: string, headers2: Object)
    requires FromPayload(j1).Success? && FromPayload(j2).Success?
    ensures
      var r1, r2 := FromPayload(j1).value, FromPayload(j2).value;
      var same := SameIdentity(r1, headers1, r2, headers2);
      var sameKey := IdempotencyKey(ToPayload(r1), m1, headers1) == IdempotencyKey(ToPayload(r2), m2, headers2);
      && (sameKey <==> same)
      && (sameKey && Fingerprint(ToPayload(r1)) != Fingerprint(ToPayload(r2)) <==> same && r1 != r2)
  {
    hide FromPayload, ToPayload, IdempotencyKey, Either, Fingerprint;
    KeyOfAcceptedRequest(j1, m1, headers1);
    KeyOfAcceptedRequest(j2, m2, headers2);
    SameFingerprintIffSameRequest(j1, j2);
  }
}
