/** Context.go: the per-request context. It stamps the correlation id on
    every response, writes JSON responses and problem envelopes, and offers
    the assertion helpers route handlers use. Responses are stated as pure
    effects on the measured writer's state (`Meter`); the `Context` class
    performs them and is proved against those effects. */
module Contexts {
  import opened Wrappers
  import opened Text
  import opened Http
  import opened Measured
  import opened Problems

  const CorrelationIdHeader := "Correlation-ID"
  const ContentTypeHeader := "Content-Type"
  const ContentLengthHeader := "Content-Length"
  /** The one content type `FromJSON` accepts. */
  const JsonContentType := "application/json"
  const JsonContentTypes: seq<string> := [JsonContentType]

  /** What `RespondWithJSON` is asked to serialize. */
  datatype Payload = ProblemBody(problem: Problem) | ModelBody(model: Value)

  /** `json.Marshal`, an oracle: the encoded bytes or the error text. */
  type Marshal = Payload -> Result<seq<byte>>

  /** `di.Container.Resolve` on the forked container, an oracle: the error
      text when the named dependencies cannot be resolved. */
  type Resolver = seq<string> -> Option<string>

  /** Everything about a context that does not change while it lives. */
  datatype RequestScope = RequestScope(
    request: Request,
    config: Config,
    correlationID: string,
    marshal: Marshal,
    resolve: Resolver)

  // ---------------------------------------------------------------------------
  // Responding
  // ---------------------------------------------------------------------------

  /** The status and bytes `RespondWithJSON` sends: the requested code and
      the encoding, or 500 and the serialization-error envelope when the
      payload cannot be encoded. */
  function Serialize(scope: RequestScope, code: int, payload: Payload): (r: (int, seq<byte>))
  {
    match scope.marshal(payload)
    case Ok(raw) => (code, raw)
    case Err(e) => (StatusInternalServerError, Utf8(SerializationErrorJson(scope.config, Some(e))))
  }

  /** The model sends the corrected serialization envelope; it differs from
      the bytes Context.go sends only when the error text has a character
      JSON must escape. Otherwise the two agree byte for byte. */
  lemma SerializeAgreesWithSourceOnPlainErrors(scope: RequestScope, code: int, payload: Payload)
    ensures match scope.marshal(payload)
      case Ok(raw) => Serialize(scope, code, payload) == (code, raw)
      case Err(e) =>
        && Serialize(scope, code, payload).0 == StatusInternalServerError
        && ((forall i :: 0 <= i < |e| ==> !NeedsEscape(e[i])) ==>
              Serialize(scope, code, payload).1 == Utf8(SerializationErrorJsonAsWritten(scope.config, Some(e))))
  {
    if scope.marshal(payload).Err? {
      var e := scope.marshal(payload).error;
      if forall i :: 0 <= i < |e| ==> !NeedsEscape(e[i]) {
        SerializationErrorJsonAgreesOnPlainText(scope.config, Some(e));
      }
    }
  }

  /** `Respond(code)`. */
  function RespondEffect(scope: RequestScope, m: Meter, code: int): (r: Meter)
    ensures r.hasWrittenHeaders
    ensures m.hasWrittenHeaders ==> r.statusCode == m.statusCode
    ensures r.wire.header == m.wire.header[CorrelationIdHeader := scope.correlationID]
    ensures r.volume == m.volume && r.wire.body == m.wire.body
  {
    MeterWriteHeader(MeterSetHeader(m, CorrelationIdHeader, scope.correlationID), code)
  }

  /** `RespondWithJSON(code, payload)`. */
  function RespondWithJsonEffect(scope: RequestScope, m: Meter, code: int, payload: Payload): (r: Meter)
    ensures r.hasWrittenHeaders
    ensures m.hasWrittenHeaders ==> r.statusCode == m.statusCode
  {
    var (status, raw) := Serialize(scope, code, payload);
    var withType := MeterSetHeader(m, ContentTypeHeader, JsonContentType);
    var withLength := MeterSetHeader(withType, ContentLengthHeader, NatToString(|raw|));
    MeterWrite(RespondEffect(scope, withLength, status), raw).0
  }

  /** `NotFound(subjectType, subject)`. */
  function NotFoundEffect(scope: RequestScope, m: Meter, subjectType: string, subject: string): Meter {
    RespondWithJsonEffect(scope, m, StatusNotFound, ProblemBody(NotFound(scope.config, subjectType, subject)))
  }

  /** `InternalServerError(err)`; `None` is a nil error. */
  function InternalServerErrorEffect(scope: RequestScope, m: Meter, err: Option<string>): Meter {
    RespondWithJsonEffect(scope, m, StatusInternalServerError, ProblemBody(InternalServerError(scope.config, err)))
  }

  /** The response a client sees when `RespondWithJSON` runs on a writer
      that has committed nothing yet: one status line carrying the
      correlation id, the JSON content type and a `Content-Length` that reads
      back as the number of bytes sent; the status is the requested code, or
      500 with the serialization-error envelope when encoding fails. */
  lemma {:induction false} RespondWithJsonOnFreshWriter(scope: RequestScope, m: Meter, code: int, payload: Payload)
    requires !m.hasWrittenHeaders && !m.wire.committed
    ensures var r := RespondWithJsonEffect(scope, m, code, payload);
      var raw := match scope.marshal(payload)
        case Ok(bytes) => bytes
        case Err(e) => Utf8(SerializationErrorJson(scope.config, Some(e)));
      var status := if scope.marshal(payload).Ok? then code else StatusInternalServerError;
      && r.hasWrittenHeaders && r.statusCode == status
      && r.wire.committed && r.wire.status == status
      && r.wire.headerWrites == m.wire.headerWrites + [status]
      && r.wire.sentHeader == m.wire.header[ContentTypeHeader := JsonContentType]
           [ContentLengthHeader := NatToString(|raw|)][CorrelationIdHeader := scope.correlationID]
      && ParseDecimal(r.wire.sentHeader[ContentLengthHeader]) == |raw|
      && (|raw| <= m.wire.room ==> r.wire.body == m.wire.body + raw && r.volume == m.volume + |raw|)
  {
    var (status, raw) := Serialize(scope, code, payload);
    ParseNatToString(|raw|);
    if |raw| <= m.wire.room {
      assert raw[..|raw|] == raw;
    }
  }

  /** `Respond` on a writer that has committed nothing yet records `code`,
      calls the wrapped `WriteHeader` once with it, and sends the status line
      with the correlation id among the headers. */
  lemma RespondOnFreshWriter(scope: RequestScope, m: Meter, code: int)
    requires !m.hasWrittenHeaders && !m.wire.committed
    ensures var r := RespondEffect(scope, m, code);
      && r.statusCode == code
      && r.wire.committed && r.wire.status == code
      && r.wire.headerWrites == m.wire.headerWrites + [code]
      && r.wire.sentHeader == m.wire.header[CorrelationIdHeader := scope.correlationID]
  {
  }

  /** The part of `RespondWithJsonOnFreshWriter` about the correlation id. */
  lemma RespondWithJsonStampsCorrelationId(scope: RequestScope, m: Meter, code: int, payload: Payload)
    requires !m.hasWrittenHeaders && !m.wire.committed
    ensures var r := RespondWithJsonEffect(scope, m, code, payload);
      CorrelationIdHeader in r.wire.sentHeader && r.wire.sentHeader[CorrelationIdHeader] == scope.correlationID
  {
  }

  /** Once headers are written, a further response changes neither the
      status nor the headers the client received, nor the recorded code. */
  lemma RespondWithJsonAfterCommit(scope: RequestScope, m: Meter, code: int, payload: Payload)
    requires m.hasWrittenHeaders && m.wire.committed
    ensures var r := RespondWithJsonEffect(scope, m, code, payload);
      && r.hasWrittenHeaders && r.statusCode == m.statusCode
      && r.wire.status == m.wire.status && r.wire.sentHeader == m.wire.sentHeader
      && r.wire.headerWrites == m.wire.headerWrites
  {
  }

  // ---------------------------------------------------------------------------
  // Assertions
  // ---------------------------------------------------------------------------

  /** What an assertion decides: go on, or answer with this status and
      envelope. */
  datatype Verdict = Pass | Reject(code: int, problem: Problem)

  /** Carrying out a verdict: a pass leaves the writer alone and returns
      true; a rejection sends the one JSON response and returns false. */
  function Perform(scope: RequestScope, m: Meter, v: Verdict): (r: (bool, Meter))
    ensures r.0 <==> v.Pass?
    ensures v.Pass? ==> r.1 == m
  {
    match v
    case Pass => (true, m)
    case Reject(code, problem) => (false, RespondWithJsonEffect(scope, m, code, ProblemBody(problem)))
  }

  /** The request's content type, upper-cased and trimmed, equals some
      allowed entry, upper-cased but not trimmed. */
  predicate ContentTypeAccepted(contentType: string, allowed: seq<string>) {
    exists i :: 0 <= i < |allowed| && TrimSpace(ToUpper(contentType)) == ToUpper(allowed[i])
  }

  function ContentTypeVerdict(scope: RequestScope, allowed: seq<string>): (v: Verdict)
    ensures v.Reject? ==> v.code == StatusUnsupportedMediaType
  {
    var contentType := HeaderGet(scope.request.header, ContentTypeHeader);
    if ContentTypeAccepted(contentType, allowed) then Pass
    else Reject(StatusUnsupportedMediaType, UnsupportedMediaType(scope.config, contentType, allowed))
  }

  /** The loop of `AssertContentType`: whether the trimmed, upper-cased
      content type equals some upper-cased allowed entry. */
  method MatchContentType(contentType: string, allowed: seq<string>) returns (found: bool)
    ensures found <==> ContentTypeAccepted(contentType, allowed)
  {
    var contentTypeUppercase := TrimSpace(ToUpper(contentType));
    for i := 0 to |allowed|
      invariant forall j :: 0 <= j < i ==> contentTypeUppercase != ToUpper(allowed[j])
    {
      if contentTypeUppercase == ToUpper(allowed[i]) {
        return true;
      }
    }
    return false;
  }

  /** `AssertContentType(allowed...)`: the result and the writer after it. */
  function AssertContentTypeEffect(scope: RequestScope, m: Meter, allowed: seq<string>): (bool, Meter) {
    Perform(scope, m, ContentTypeVerdict(scope, allowed))
  }

  /** The outcome of the length check. */
  datatype LengthCheck = LengthAccepted | EntityTooLarge | LengthMissing

  /** The length check, with the too-large test first. */
  function CheckContentLength(contentLength: int, max: int): LengthCheck {
    if contentLength > max then EntityTooLarge
    else if contentLength <= 0 then LengthMissing
    else LengthAccepted
  }

  function ContentLengthVerdict(scope: RequestScope, max: int): (v: Verdict)
    ensures v.Reject? ==> v.code == StatusRequestEntityTooLarge || v.code == StatusLengthRequired
  {
    var contentLength := scope.request.contentLength;
    match CheckContentLength(contentLength, max)
    case EntityTooLarge => Reject(StatusRequestEntityTooLarge, RequestEntityTooLarge(scope.config, contentLength, max))
    case LengthMissing => Reject(StatusLengthRequired, LengthRequired(scope.config))
    case LengthAccepted => Pass
  }

  /** `AssertContentLength(max)`. */
  function AssertContentLengthEffect(scope: RequestScope, m: Meter, max: int): (bool, Meter) {
    Perform(scope, m, ContentLengthVerdict(scope, max))
  }

  /** The request method, upper-cased, equals some allowed method,
      upper-cased. */
  predicate MethodAccepted(httpMethod: string, allowed: seq<string>) {
    exists i :: 0 <= i < |allowed| && ToUpper(httpMethod) == ToUpper(allowed[i])
  }

  function MethodVerdict(scope: RequestScope, allowed: seq<string>): Verdict {
    var httpMethod := scope.request.httpMethod;
    if MethodAccepted(httpMethod, allowed) then Pass
    else Reject(StatusMethodNotAllowed, MethodNotAllowed(scope.config, httpMethod, allowed))
  }

  /** `AssertMethod(allowed...)`. */
  function AssertMethodEffect(scope: RequestScope, m: Meter, allowed: seq<string>): (bool, Meter) {
    Perform(scope, m, MethodVerdict(scope, allowed))
  }

  function ResolveVerdict(scope: RequestScope, dependencies: seq<string>): Verdict {
    match scope.resolve(dependencies)
    case None => Pass
    case Some(e) => Reject(StatusInternalServerError, InternalServerError(scope.config, Some(e)))
  }

  /** `Resolve(dependencies...)`. */
  function ResolveEffect(scope: RequestScope, m: Meter, dependencies: seq<string>): (bool, Meter) {
    Perform(scope, m, ResolveVerdict(scope, dependencies))
  }

  /** The decode and purify stages of `FromJSON`. `decode` is the JSON
      decoder on the request body and `purify` the model's `Purify`: the
      invalid field and error text, or `None` when the model is acceptable. */
  function BodyVerdict<M>(scope: RequestScope, decode: seq<byte> -> Result<M>, purify: M -> Option<(string, string)>): (v: Verdict)
    ensures v.Reject? ==> v.code == StatusBadRequest || v.code == StatusUnprocessableEntity
  {
    match decode(scope.request.body)
    case Err(e) => Reject(StatusBadRequest, Deserialization(scope.config, e))
    case Ok(model) =>
      match purify(model)
      case Some((field, e)) => Reject(StatusUnprocessableEntity, UnprocessableEntity(scope.config, field, e))
      case None => Pass
  }

  // ---------------------------------------------------------------------------
  // What the assertions promise
  // ---------------------------------------------------------------------------

  /** The body stages reject a body the decoder refuses with 400 and the
      decoder's error, then a model `Purify` refuses with 422 and the field,
      and pass everything else. */
  lemma BodyOutcome<M>(scope: RequestScope, decode: seq<byte> -> Result<M>, purify: M -> Option<(string, string)>)
    ensures var v := BodyVerdict(scope, decode, purify);
      var decoded := decode(scope.request.body);
      && (decoded.Err? ==> v == Reject(StatusBadRequest, Deserialization(scope.config, decoded.error)))
      && (decoded.Ok? && purify(decoded.value).Some? ==>
            v == Reject(StatusUnprocessableEntity,
                        UnprocessableEntity(scope.config, purify(decoded.value).value.0, purify(decoded.value).value.1)))
      && (v.Pass? <==> decoded.Ok? && purify(decoded.value).None?)
  {
  }

  /** The length check accepts exactly the lengths in (0, max]; a length over
      the maximum is too large even when it is also not positive, so "length
      required" is reported only for lengths that are both <= 0 and <= max. */
  lemma CheckContentLengthVerdicts(contentLength: int, max: int)
    ensures CheckContentLength(contentLength, max) == LengthAccepted <==> 0 < contentLength <= max
    ensures CheckContentLength(contentLength, max) == EntityTooLarge <==> contentLength > max
    ensures CheckContentLength(contentLength, max) == LengthMissing <==> contentLength <= 0 && contentLength <= max
  {
  }

  /** With a negative maximum, a request without a body is reported as too
      large rather than as missing its length. */
  lemma NegativeMaximumReportsEmptyBodyAsTooLarge(max: int)
    requires max < 0
    ensures CheckContentLength(0, max) == EntityTooLarge
  {
  }

  /** `AssertContentType` passes iff the match holds; otherwise it answers
      415 with the envelope for the raw header and the allowed list. */
  lemma ContentTypeOutcome(scope: RequestScope, allowed: seq<string>)
    ensures var contentType := HeaderGet(scope.request.header, ContentTypeHeader);
      var v := ContentTypeVerdict(scope, allowed);
      && (v.Pass? <==> ContentTypeAccepted(contentType, allowed))
      && (v.Reject? ==> v == Reject(StatusUnsupportedMediaType, UnsupportedMediaType(scope.config, contentType, allowed)))
  {
  }

  /** `AssertContentLength` passes exactly the lengths in (0, max]; otherwise
      it answers 413 with the length and maximum when the length exceeds the
      maximum, and 411 in every other case. */
  lemma ContentLengthOutcome(scope: RequestScope, max: int)
    ensures var contentLength := scope.request.contentLength;
      var v := ContentLengthVerdict(scope, max);
      && (v.Pass? <==> 0 < contentLength <= max)
      && (contentLength > max ==>
            v == Reject(StatusRequestEntityTooLarge, RequestEntityTooLarge(scope.config, contentLength, max)))
      && (contentLength <= 0 && contentLength <= max ==>
            v == Reject(StatusLengthRequired, LengthRequired(scope.config)))
  {
    CheckContentLengthVerdicts(scope.request.contentLength, max);
  }

  /** `AssertMethod` passes iff the match holds; otherwise it answers 405
      with the envelope for the raw method and the allowed list. */
  lemma MethodOutcome(scope: RequestScope, allowed: seq<string>)
    ensures var v := MethodVerdict(scope, allowed);
      && (v.Pass? <==> MethodAccepted(scope.request.httpMethod, allowed))
      && (v.Reject? ==> v == Reject(StatusMethodNotAllowed, MethodNotAllowed(scope.config, scope.request.httpMethod, allowed)))
  {
  }

  /** Leading white space is dropped whatever follows it. */
  lemma {:induction false} TrimLeftSpacePadded(pad: string, s: string)
    requires forall i :: 0 <= i < |pad| ==> IsSpace(pad[i])
    ensures TrimLeftSpace(pad + s) == TrimLeftSpace(s)
    decreases |pad|
  {
    if pad != [] {
      assert (pad + s)[1..] == pad[1..] + s;
      TrimLeftSpacePadded(pad[1..], s);
    } else {
      assert pad + s == s;
    }
  }

  /** Trailing white space is dropped whatever precedes it. */
  lemma {:induction false} TrimRightSpacePadded(s: string, pad: string)
    requires forall i :: 0 <= i < |pad| ==> IsSpace(pad[i])
    ensures TrimRightSpace(s + pad) == TrimRightSpace(s)
    decreases |pad|
  {
    if pad != [] {
      var shorter := pad[..|pad| - 1];
      assert (s + pad)[..|s + pad| - 1] == s + shorter;
      TrimRightSpacePadded(s, shorter);
    } else {
      assert s + pad == s;
    }
  }

  /** Trimming the left of a string padded on the right: the padding stays
      behind whatever the left trim kept, or everything goes. */
  lemma {:induction false} TrimLeftThenPad(s: string, pad: string)
    requires forall i :: 0 <= i < |pad| ==> IsSpace(pad[i])
    ensures TrimLeftSpace(s) != [] ==> TrimLeftSpace(s + pad) == TrimLeftSpace(s) + pad
    ensures TrimLeftSpace(s) == [] ==> TrimLeftSpace(s + pad) == []
    decreases |s|
  {
    if s == [] {
      assert s + pad == pad;
      TrimLeftSpacePadded(pad, []);
      assert pad + [] == pad;
    } else if IsSpace(s[0]) {
      assert (s + pad)[1..] == s[1..] + pad;
      TrimLeftThenPad(s[1..], pad);
    }
  }

  /** `TrimSpace` ignores white space added on either side. */
  lemma TrimSpacePadded(left: string, s: string, right: string)
    requires forall i :: 0 <= i < |left| ==> IsSpace(left[i])
    requires forall i :: 0 <= i < |right| ==> IsSpace(right[i])
    ensures TrimSpace(left + s + right) == TrimSpace(s)
  {
    assert left + s + right == left + (s + right);
    TrimLeftSpacePadded(left, s + right);
    TrimLeftThenPad(s, right);
    if TrimLeftSpace(s) != [] {
      TrimRightSpacePadded(TrimLeftSpace(s), right);
    }
  }

  lemma ToUpperAppend(a: string, b: string)
    ensures ToUpper(a + b) == ToUpper(a) + ToUpper(b)
  {
  }

  /** White space is left alone by upper-casing. */
  lemma ToUpperKeepsSpace(pad: string)
    requires forall i :: 0 <= i < |pad| ==> IsSpace(pad[i])
    ensures ToUpper(pad) == pad
  {
  }

  /** The content-type match ignores the case of the request's header and
      any white space around it. */
  lemma ContentTypeMatchIgnoresCaseAndPadding(contentType: string, left: string, right: string, allowed: seq<string>)
    requires forall i :: 0 <= i < |left| ==> IsSpace(left[i])
    requires forall i :: 0 <= i < |right| ==> IsSpace(right[i])
    ensures ContentTypeAccepted(left + contentType + right, allowed) <==> ContentTypeAccepted(contentType, allowed)
    ensures ContentTypeAccepted(ToUpper(contentType), allowed) <==> ContentTypeAccepted(contentType, allowed)
  {
    ToUpperAppend(left, contentType);
    ToUpperAppend(left + contentType, right);
    ToUpperKeepsSpace(left);
    ToUpperKeepsSpace(right);
    TrimSpacePadded(left, ToUpper(contentType), right);
    ToUpperIdempotent(contentType);
  }

  /** An allowed entry is not trimmed: an entry that starts or ends with
      white space never matches, whatever the header says. */
  lemma AllowedContentTypesAreNotTrimmed(contentType: string, entry: string)
    requires |entry| > 0 && (IsSpace(entry[0]) || IsSpace(entry[|entry| - 1]))
    ensures !ContentTypeAccepted(contentType, [entry])
  {
    var upper := ToUpper(entry);
    assert upper[0] == UpperChar(entry[0]) && upper[|upper| - 1] == UpperChar(entry[|entry| - 1]);
    UpperCharKeepsSpace(entry[0]);
    UpperCharKeepsSpace(entry[|entry| - 1]);
  }

  /** Upper-casing a character keeps it white space or not. */
  lemma UpperCharKeepsSpace(c: char)
    ensures IsSpace(UpperChar(c)) <==> IsSpace(c)
  {
  }

  /** Matching a method ignores the case of the request's method, and every
      listed method is accepted as it is listed. */
  lemma MethodMatchIgnoresCase(httpMethod: string, allowed: seq<string>)
    ensures MethodAccepted(ToUpper(httpMethod), allowed) <==> MethodAccepted(httpMethod, allowed)
    ensures httpMethod in allowed ==> MethodAccepted(httpMethod, allowed)
  {
    ToUpperIdempotent(httpMethod);
    if httpMethod in allowed {
      var i :| 0 <= i < |allowed| && allowed[i] == httpMethod;
      assert ToUpper(httpMethod) == ToUpper(allowed[i]);
    }
  }

  /** The first rejection among the four stages of `FromJSON`, or `Pass`. */
  function FromJsonVerdict<M>(scope: RequestScope, decode: seq<byte> -> Result<M>, purify: M -> Option<(string, string)>): Verdict {
    var typeVerdict := ContentTypeVerdict(scope, JsonContentTypes);
    var lengthVerdict := ContentLengthVerdict(scope, scope.config.jsonContentLengthLimit);
    if typeVerdict.Reject? then typeVerdict
    else if lengthVerdict.Reject? then lengthVerdict
    else BodyVerdict(scope, decode, purify)
  }

  /** FromJSON accepts exactly the requests whose content type passes the
      JSON check, whose length is in (0, limit], whose body decodes and whose
      model purifies. */
  lemma FromJsonAcceptance<M>(scope: RequestScope, decode: seq<byte> -> Result<M>, purify: M -> Option<(string, string)>)
    ensures FromJsonVerdict(scope, decode, purify).Pass? <==>
      && ContentTypeVerdict(scope, JsonContentTypes).Pass?
      && 0 < scope.request.contentLength <= scope.config.jsonContentLengthLimit
      && decode(scope.request.body).Ok?
      && purify(decode(scope.request.body).value).None?
  {
    CheckContentLengthVerdicts(scope.request.contentLength, scope.config.jsonContentLengthLimit);
  }

  /** FromJSON checks the content type first and the length second, and
      stops at the first that fails: 415 with the raw header, then 413 with
      the length and limit or 411. */
  lemma FromJsonStopsAtHeaderFailure<M>(scope: RequestScope, decode: seq<byte> -> Result<M>, purify: M -> Option<(string, string)>)
    ensures var v := FromJsonVerdict(scope, decode, purify);
      var config := scope.config;
      var contentType := HeaderGet(scope.request.header, ContentTypeHeader);
      var typeOk := ContentTypeAccepted(contentType, JsonContentTypes);
      var length := scope.request.contentLength;
      var limit := config.jsonContentLengthLimit;
      && (!typeOk ==>
            v == Reject(StatusUnsupportedMediaType, UnsupportedMediaType(config, contentType, JsonContentTypes)))
      && (typeOk && length > limit ==>
            v == Reject(StatusRequestEntityTooLarge, RequestEntityTooLarge(config, length, limit)))
      && (typeOk && length <= 0 && length <= limit ==>
            v == Reject(StatusLengthRequired, LengthRequired(config)))
  {
    ContentTypeOutcome(scope, JsonContentTypes);
    ContentLengthOutcome(scope, scope.config.jsonContentLengthLimit);
  }

  /** Once the content type and length pass (`ContentTypeOutcome` and
      `ContentLengthOutcome` say when), FromJSON decodes the body and
      then purifies the model, stopping at the first failure: 400 with the
      decoder's error, or 422 with the invalid field and its error. */
  lemma FromJsonStopsAtBodyFailure<M>(scope: RequestScope, decode: seq<byte> -> Result<M>, purify: M -> Option<(string, string)>)
    ensures var v := FromJsonVerdict(scope, decode, purify);
      var headersOk := ContentTypeVerdict(scope, JsonContentTypes).Pass?
        && ContentLengthVerdict(scope, scope.config.jsonContentLengthLimit).Pass?;
      var decoded := decode(scope.request.body);
      && (headersOk && decoded.Err? ==> v == Reject(StatusBadRequest, Deserialization(scope.config, decoded.error)))
      && (headersOk && decoded.Ok? && purify(decoded.value).Some? ==>
            v == Reject(StatusUnprocessableEntity,
                        UnprocessableEntity(scope.config, purify(decoded.value).value.0, purify(decoded.value).value.1)))
  {
    BodyOutcome(scope, decode, purify);
  }

  // ---------------------------------------------------------------------------
  // Middleware artifacts
  // ---------------------------------------------------------------------------

  /** `GetMiddlewareArtifact(name)`: `None` is Go's nil. */
  function GetArtifact(artifacts: map<string, Value>, name: string): (v: Option<Value>)
    ensures v.Some? <==> name in artifacts
  {
    if name in artifacts then Some(artifacts[name]) else None
  }

  /** Setting an artifact makes it readable under its name and leaves every
      other name as it was; a fresh context has none. */
  lemma ArtifactSetThenGet(artifacts: map<string, Value>, name: string, value: Value, other: string)
    ensures GetArtifact(artifacts[name := value], name) == Some(value)
    ensures other != name ==> GetArtifact(artifacts[name := value], other) == GetArtifact(artifacts, other)
    ensures GetArtifact(map[], name) == None
  {
  }

  // ---------------------------------------------------------------------------
  // The context as the source has it
  // ---------------------------------------------------------------------------

  class Context {
    const w: MeasuredResponseWriter
    const r: Request
    const config: Config
    const correlationID: string
    const marshal: Marshal
    const resolve: Resolver
    var middlewareArtifacts: map<string, Value>

    function Scope(): RequestScope {
      RequestScope(r, config, correlationID, marshal, resolve)
    }

    /** `NewContext(w, r, c, config)`. The fresh correlation id and the forked
        container's resolver are supplied by the caller. */
    constructor (w: MeasuredResponseWriter, r: Request, resolve: Resolver, config: Config, marshal: Marshal, correlationID: string)
      ensures this.w == w && Scope() == RequestScope(r, config, correlationID, marshal, resolve)
      ensures middlewareArtifacts == map[]
    {
      this.w := w;
      this.r := r;
      this.resolve := resolve;
      this.config := config;
      this.marshal := marshal;
      this.correlationID := correlationID;
      middlewareArtifacts := map[];
    }

    function GetMiddlewareArtifact(name: string): (v: Option<Value>)
      reads this
      ensures v == GetArtifact(middlewareArtifacts, name)
    {
      if name in middlewareArtifacts then Some(middlewareArtifacts[name]) else None
    }

    method SetMiddlewareArtifact(name: string, value: Value)
      modifies this
      ensures middlewareArtifacts == old(middlewareArtifacts)[name := value]
    {
      middlewareArtifacts := middlewareArtifacts[name := value];
    }

    method Respond(code: int)
      modifies w, w.w
      ensures w.State() == RespondEffect(Scope(), old(w.State()), code)
    {
      w.SetHeader(CorrelationIdHeader, correlationID);
      w.WriteHeader(code);
    }

    method RespondWithJSON(code: int, payload: Payload)
      modifies w, w.w
      ensures w.State() == RespondWithJsonEffect(Scope(), old(w.State()), code, payload)
    {
      var status, raw := code, [];
      match marshal(payload) {
        case Ok(bytes) =>
          raw := bytes;
        case Err(e) =>
          raw := Utf8(SerializationErrorJson(config, Some(e)));
          status := StatusInternalServerError;
      }
      w.SetHeader(ContentTypeHeader, JsonContentType);
      w.SetHeader(ContentLengthHeader, NatToString(|raw|));
      Respond(status);
      var _ := w.Write(raw);
    }

    method NotFound(subjectType: string, subject: string)
      modifies w, w.w
      ensures w.State() == NotFoundEffect(Scope(), old(w.State()), subjectType, subject)
    {
      RespondWithJSON(StatusNotFound, ProblemBody(Problems.NotFound(config, subjectType, subject)));
    }

    method InternalServerError(err: Option<string>)
      modifies w, w.w
      ensures w.State() == InternalServerErrorEffect(Scope(), old(w.State()), err)
    {
      RespondWithJSON(StatusInternalServerError, ProblemBody(Problems.InternalServerError(config, err)));
    }

    method Resolve(dependencies: seq<string>) returns (ok: bool)
      modifies w, w.w
      ensures (ok, w.State()) == ResolveEffect(Scope(), old(w.State()), dependencies)
    {
      var err := resolve(dependencies);
      if err.Some? {
        InternalServerError(err);
        return false;
      }
      return true;
    }

    method AssertContentType(allowedContentTypes: seq<string>) returns (ok: bool)
      modifies w, w.w
      ensures (ok, w.State()) == AssertContentTypeEffect(Scope(), old(w.State()), allowedContentTypes)
    {
      var contentType := HeaderGet(r.header, ContentTypeHeader);
      ok := MatchContentType(contentType, allowedContentTypes);
      if !ok {
        RespondWithJSON(StatusUnsupportedMediaType, ProblemBody(UnsupportedMediaType(config, contentType, allowedContentTypes)));
      }
    }

    method AssertContentLength(max: int) returns (ok: bool)
      modifies w, w.w
      ensures (ok, w.State()) == AssertContentLengthEffect(Scope(), old(w.State()), max)
    {
      var contentLength := r.contentLength;
      if contentLength > max {
        RespondWithJSON(StatusRequestEntityTooLarge, ProblemBody(RequestEntityTooLarge(config, contentLength, max)));
        return false;
      }
      if contentLength <= 0 {
        RespondWithJSON(StatusLengthRequired, ProblemBody(LengthRequired(config)));
        return false;
      }
      return true;
    }

    method AssertMethod(allowedMethods: seq<string>) returns (ok: bool)
      modifies w, w.w
      ensures (ok, w.State()) == AssertMethodEffect(Scope(), old(w.State()), allowedMethods)
    {
      var methodUpperCase := ToUpper(r.httpMethod);
      for i := 0 to |allowedMethods|
        invariant forall j :: 0 <= j < i ==> methodUpperCase != ToUpper(allowedMethods[j])
      {
        if methodUpperCase == ToUpper(allowedMethods[i]) {
          return true;
        }
      }
      RespondWithJSON(StatusMethodNotAllowed, ProblemBody(MethodNotAllowed(config, r.httpMethod, allowedMethods)));
      return false;
    }

    /** `FromJSON(model)`; on success `model` is the decoded, purified value. */
    method FromJSON<M>(decode: seq<byte> -> Result<M>, purify: M -> Option<(string, string)>) returns (ok: bool, model: Option<M>)
      modifies w, w.w
      ensures (ok, w.State()) == Perform(Scope(), old(w.State()), FromJsonVerdict(Scope(), decode, purify))
      ensures ok ==> decode(r.body).Ok? && model == Some(decode(r.body).value)
    {
      model := None;
      ok := AssertContentType(JsonContentTypes);
      if !ok {
        assert FromJsonVerdict(Scope(), decode, purify) == ContentTypeVerdict(Scope(), JsonContentTypes);
        return;
      }
      ok := AssertContentLength(config.jsonContentLengthLimit);
      if !ok {
        assert FromJsonVerdict(Scope(), decode, purify) == ContentLengthVerdict(Scope(), config.jsonContentLengthLimit);
        return;
      }
      assert FromJsonVerdict(Scope(), decode, purify) == BodyVerdict(Scope(), decode, purify);
      ok, model := DecodeBody(decode, purify);
    }

    /** The decode and purify stages of `FromJSON`. */
    method DecodeBody<M>(decode: seq<byte> -> Result<M>, purify: M -> Option<(string, string)>) returns (ok: bool, model: Option<M>)
      modifies w, w.w
      ensures (ok, w.State()) == Perform(Scope(), old(w.State()), BodyVerdict(Scope(), decode, purify))
      ensures ok ==> decode(r.body).Ok? && model == Some(decode(r.body).value)
    {
      var decoded := decode(r.body);
      if decoded.Err? {
        RespondWithJSON(StatusBadRequest, ProblemBody(Deserialization(config, decoded.error)));
        return false, None;
      }
      var invalid := purify(decoded.value);
      if invalid.Some? {
        var (field, e) := invalid.value;
        RespondWithJSON(StatusUnprocessableEntity, ProblemBody(UnprocessableEntity(config, field, e)));
        return false, None;
      }
      return true, Some(decoded.value);
    }
  }
}
