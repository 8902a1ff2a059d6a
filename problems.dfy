/** The problem envelopes of Context.go: RFC 7807 problem details (section
    3.1 members `type`, `title`, `detail`) extended with the diagnostic
    `error` text and a `specifics` object. */
module Problems {
  import opened Wrappers
  import opened Text
  import opened Units

  /** Config.go. */
  datatype Config = Config(
    problemDetailsTypePrefix: string,
    debuggingEnabled: bool,
    jsonContentLengthLimit: int)

  /** A JSON-representable value: what the envelopes put in `specifics` and
      what handlers store as middleware artifacts. */
  datatype Value = Str(s: string) | Int(i: int) | Strs(items: seq<string>) | Bool(b: bool)

  /** `problem.Details`. An empty `specifics` map is the absent member. */
  datatype Problem = Problem(
    typeUri: string,
    title: string,
    detail: string,
    error: Option<string>,
    specifics: map<string, Value>)

  /** `error` is attached only in debugging mode (and only when there is an
      error to attach). */
  function Diagnostic(config: Config, err: Option<string>): (d: Option<string>)
    ensures d.Some? <==> config.debuggingEnabled && err.Some?
    ensures d.Some? ==> d == err
  {
    if config.debuggingEnabled then err else None
  }

  // The fixed texts of the envelopes, named so that the envelope functions
  // stay small terms for the verifier.
  const UnsupportedMediaTypePath := "/http/unsupported-media-type"
  const UnsupportedMediaTypeTitle := "Unsupported Media Type"
  const UnsupportedMediaTypeFront := "The Content-Type '"
  const UnsupportedMediaTypeBack := "' is not supported by this endpoint."
  const RequestEntityTooLargePath := "/http/request-entity-too-large"
  const RequestEntityTooLargeTitle := "Request Entity Too Large"
  const RequestEntityTooLargeFront := "The provided request entity of length "
  const RequestEntityTooLargeMiddle := " bytes) exceeds the maximum of "
  const RequestEntityTooLargeBack := " bytes) on this endpoint."
  const LengthRequiredPath := "/http/length-required"
  const LengthRequiredTitle := "Length Required"
  const LengthRequiredDetail := "This endpoint requires that the Content-Length header be set to a positive, non-zero value."
  const MethodNotAllowedPath := "/http/method-not-allowed"
  const MethodNotAllowedTitle := "Method Not Allowed"
  const MethodNotAllowedFront := "This endpoint does not allow use of the '"
  const MethodNotAllowedBack := "' method."
  const DeserializationPath := "/json/deserialization"
  const DeserializationTitle := "Deserialization Error"
  const DeserializationDetail := "The provided request body could not be meaningfully deserialized.  It appears to be invalid."
  const UnprocessableEntityPath := "/http/unprocessable-entity"
  const UnprocessableEntityTitle := "Unprocessable Entity"
  const UnprocessableEntityDetail := "The provided request body was understood but contained some invalid values."
  const NotFoundPath := "/http/not-found"
  const NotFoundTitle := "Not Found"
  const NotFoundBack := "' was not found."
  const InternalServerErrorPath := "/http/internal-server-error"
  const InternalServerErrorTitle := "Internal Server Error"
  const InternalServerErrorDetail := "An internal server error prevented the request from completing."
  const SerializationErrorDetail := "Serialization of the response model failed."

  function UnsupportedMediaType(config: Config, providedContentType: string, allowedContentTypes: seq<string>): Problem {
    Problem(
      config.problemDetailsTypePrefix + UnsupportedMediaTypePath,
      UnsupportedMediaTypeTitle,
      UnsupportedMediaTypeFront + providedContentType + UnsupportedMediaTypeBack,
      None,
      map["providedContentType" := Str(providedContentType), "allowedContentTypes" := Strs(allowedContentTypes)])
  }

  function RequestEntityTooLarge(config: Config, contentLength: int, max: int): Problem {
    Problem(
      config.problemDetailsTypePrefix + RequestEntityTooLargePath,
      RequestEntityTooLargeTitle,
      RequestEntityTooLargeFront + FriendlySize(contentLength) + " (" + IntToString(contentLength)
        + RequestEntityTooLargeMiddle + FriendlySize(max) + " (" + IntToString(max) + RequestEntityTooLargeBack,
      None,
      map["contentLength" := Int(contentLength), "maximumContentLength" := Int(max)])
  }

  function LengthRequired(config: Config): Problem {
    Problem(config.problemDetailsTypePrefix + LengthRequiredPath, LengthRequiredTitle, LengthRequiredDetail, None, map[])
  }

  function MethodNotAllowed(config: Config, httpMethod: string, allowedMethods: seq<string>): Problem {
    Problem(
      config.problemDetailsTypePrefix + MethodNotAllowedPath,
      MethodNotAllowedTitle,
      MethodNotAllowedFront + httpMethod + MethodNotAllowedBack,
      None,
      map["methodUsed" := Str(httpMethod), "allowedMethods" := Strs(allowedMethods)])
  }

  function Deserialization(config: Config, err: string): Problem {
    Problem(
      config.problemDetailsTypePrefix + DeserializationPath,
      DeserializationTitle,
      DeserializationDetail,
      Diagnostic(config, Some(err)),
      map[])
  }

  function UnprocessableEntity(config: Config, field: string, err: string): Problem {
    Problem(
      config.problemDetailsTypePrefix + UnprocessableEntityPath,
      UnprocessableEntityTitle,
      UnprocessableEntityDetail,
      None,
      map["field" := Str(field), "error" := Str(err)])
  }

  function NotFound(config: Config, subjectType: string, subject: string): Problem {
    Problem(
      config.problemDetailsTypePrefix + NotFoundPath,
      NotFoundTitle,
      "The " + subjectType + " '" + subject + NotFoundBack,
      None,
      map["subjectType" := Str(subjectType), "subject" := Str(subject)])
  }

  function InternalServerError(config: Config, err: Option<string>): Problem {
    Problem(
      config.problemDetailsTypePrefix + InternalServerErrorPath,
      InternalServerErrorTitle,
      InternalServerErrorDetail,
      Diagnostic(config, err),
      map[])
  }

  /** The part of the hand-written serialization-error envelope that comes
      before the optional `error` member. */
  function SerializationErrorHead(config: Config): string {
    "{\"type\":\"" + config.problemDetailsTypePrefix + InternalServerErrorPath + "\",\"title\":\"" + InternalServerErrorTitle
      + "\",\"detail\":\"" + SerializationErrorDetail + "\""
  }

  /** The envelope written by hand (not through the JSON encoder) when the
      response model itself cannot be serialized, as Context.go builds it:
      the error text goes between the quotes of the `error` member verbatim. */
  function SerializationErrorJsonAsWritten(config: Config, err: Option<string>): string {
    var errPart := if config.debuggingEnabled && err.Some? then ",\"error\":\"" + err.value + "\"" else "";
    SerializationErrorHead(config) + errPart + "}"
  }

  /** The same envelope with the error text escaped as a JSON string: the
      corrected envelope, which `RespondWithJSON` sends in this model (see
      README, Findings and Left out). */
  function SerializationErrorJson(config: Config, err: Option<string>): string {
    var errPart := if config.debuggingEnabled && err.Some? then ",\"error\":\"" + JsonEscape(err.value) + "\"" else "";
    SerializationErrorHead(config) + errPart + "}"
  }

  // ---------------------------------------------------------------------------
  // JSON string literals (RFC 8259 section 7)
  // ---------------------------------------------------------------------------

  predicate IsHexDigit(c: char) {
    '0' <= c <= '9' || 'a' <= c <= 'f' || 'A' <= c <= 'F'
  }

  function HexDigit(d: nat): (c: char)
    requires d < 16
    ensures IsHexDigit(c)
  {
    if d < 10 then (48 + d) as char else (87 + d) as char
  }

  predicate IsShortEscape(c: char) {
    c == '"' || c == '\\' || c == '/' || c == 'b' || c == 'f' || c == 'n' || c == 'r' || c == 't'
  }

  /** The length of the character or escape sequence `s` starts with, or 0
      when it starts with a bare quote, a raw control character or a bad
      escape. */
  function LeadLength(s: string): (k: nat)
    requires s != []
    ensures k <= |s|
  {
    if s[0] == '"' || s[0] < ' ' then 0
    else if s[0] != '\\' then 1
    else if |s| >= 2 && IsShortEscape(s[1]) then 2
    else if |s| >= 6 && s[1] == 'u' && IsHexDigit(s[2]) && IsHexDigit(s[3]) && IsHexDigit(s[4]) && IsHexDigit(s[5]) then 6
    else 0
  }

  /** `s` may stand between the two quotes of a JSON string: no bare quote,
      no raw control character, and every backslash starts a valid escape. */
  predicate JsonStringBody(s: string)
    decreases |s|
  {
    s == [] || (LeadLength(s) > 0 && JsonStringBody(s[LeadLength(s)..]))
  }

  /** What follows a complete lead sequence does not change it. */
  lemma LeadLengthOfAppend(a: string, b: string)
    requires a != [] && LeadLength(a) > 0
    ensures LeadLength(a + b) == LeadLength(a)
  {
    var k := LeadLength(a);
    assert forall i :: 0 <= i < k ==> (a + b)[i] == a[i];
  }

  predicate NeedsEscape(c: char) {
    c == '"' || c == '\\' || c < ' '
  }

  /** A JSON string escape of one character (RFC 8259 section 7): quote,
      backslash and control characters are escaped, everything else is kept.
      Go's encoder escapes more (`<`, `>`, `&`, U+2028, U+2029) and spells
      some control characters differently; any such escape would do here. */
  function JsonEscapeChar(c: char): string {
    if c == '"' then "\\\""
    else if c == '\\' then "\\\\"
    else if c == '\n' then "\\n"
    else if c == '\r' then "\\r"
    else if c == '\t' then "\\t"
    else if c < ' ' then "\\u00" + [HexDigit(c as int / 16), HexDigit(c as int % 16)]
    else [c]
  }

  function JsonEscape(s: string): string {
    if s == [] then [] else JsonEscapeChar(s[0]) + JsonEscape(s[1..])
  }

  /** Two valid string bodies side by side are one valid string body. */
  lemma {:induction false} JsonStringBodyAppend(a: string, b: string)
    requires JsonStringBody(a) && JsonStringBody(b)
    ensures JsonStringBody(a + b)
    decreases |a|
  {
    if a == [] {
      assert a + b == b;
    } else {
      var k := LeadLength(a);
      LeadLengthOfAppend(a, b);
      JsonStringBodyAppend(a[k..], b);
      assert (a + b)[k..] == a[k..] + b;
    }
  }

  lemma JsonEscapeCharValid(c: char)
    ensures JsonStringBody(JsonEscapeChar(c))
  {
    var e := JsonEscapeChar(c);
    if c == '"' || c == '\\' || c == '\n' || c == '\r' || c == '\t' {
      assert e[2..] == [];
    } else if c < ' ' {
      assert e[6..] == [];
    } else {
      assert e[1..] == [];
    }
  }

  /** Escaping always yields a valid JSON string body. */
  lemma {:induction false} JsonEscapeValid(s: string)
    ensures JsonStringBody(JsonEscape(s))
  {
    if s != [] {
      JsonEscapeCharValid(s[0]);
      JsonEscapeValid(s[1..]);
      JsonStringBodyAppend(JsonEscapeChar(s[0]), JsonEscape(s[1..]));
    }
  }

  /** Text with nothing to escape is left as it is. */
  lemma {:induction false} JsonEscapePlain(s: string)
    requires forall i :: 0 <= i < |s| ==> !NeedsEscape(s[i])
    ensures JsonEscape(s) == s
  {
    if s != [] {
      JsonEscapePlain(s[1..]);
    }
  }

  /** A quote with no backslash anywhere before it ends the string early. */
  lemma {:induction false} BareQuoteEndsString(s: string, i: nat)
    requires i < |s| && s[i] == '"'
    requires forall j :: 0 <= j < i ==> s[j] != '\\'
    ensures !JsonStringBody(s)
    decreases i
  {
    if i > 0 && s[0] >= ' ' && s[0] != '"' {
      BareQuoteEndsString(s[1..], i - 1);
    }
  }

  // ---------------------------------------------------------------------------
  // What the envelopes promise
  // ---------------------------------------------------------------------------

  /** Outside debugging mode the diagnostic text cannot leak: the three
      envelopes that may carry it do not depend on it at all. */
  lemma NoDiagnosticsWithoutDebugging(config: Config, e1: string, e2: string)
    requires !config.debuggingEnabled
    ensures Deserialization(config, e1) == Deserialization(config, e2)
    ensures Deserialization(config, e1).error == None
    ensures InternalServerError(config, Some(e1)) == InternalServerError(config, Some(e2))
    ensures InternalServerError(config, Some(e1)).error == None
    ensures SerializationErrorJson(config, Some(e1)) == SerializationErrorJson(config, Some(e2))
    ensures SerializationErrorJson(config, Some(e1)) == SerializationErrorHead(config) + "}"
    ensures SerializationErrorJsonAsWritten(config, Some(e1)) == SerializationErrorHead(config) + "}"
  {
  }

  /** In debugging mode the diagnostic text is attached verbatim to the
      encoded envelopes; the hand-written serialization envelope splices it
      raw as written and escaped once corrected. */
  lemma DiagnosticsWhenDebugging(config: Config, err: string)
    requires config.debuggingEnabled
    ensures Deserialization(config, err).error == Some(err)
    ensures InternalServerError(config, Some(err)).error == Some(err)
    ensures InternalServerError(config, None).error == None
    ensures SerializationErrorJsonAsWritten(config, Some(err)) == SerializationErrorHead(config) + ",\"error\":\"" + err + "\"}"
    ensures SerializationErrorJson(config, Some(err)) == SerializationErrorHead(config) + ",\"error\":\"" + JsonEscape(err) + "\"}"
  {
  }

  /** The specifics of the 413, 415 and 405 envelopes echo their inputs
      exactly: the raw (untrimmed, not upper-cased) header or method and the
      allowed list as given. */
  lemma SpecificsEchoInputs(config: Config, s: string, allowed: seq<string>, contentLength: int, max: int)
    ensures UnsupportedMediaType(config, s, allowed).specifics["providedContentType"] == Str(s)
    ensures UnsupportedMediaType(config, s, allowed).specifics["allowedContentTypes"] == Strs(allowed)
    ensures MethodNotAllowed(config, s, allowed).specifics["methodUsed"] == Str(s)
    ensures MethodNotAllowed(config, s, allowed).specifics["allowedMethods"] == Strs(allowed)
    ensures RequestEntityTooLarge(config, contentLength, max).specifics["contentLength"] == Int(contentLength)
    ensures RequestEntityTooLarge(config, contentLength, max).specifics["maximumContentLength"] == Int(max)
  {
  }

  /** A not-found envelope quotes its subject inside its detail. */
  lemma {:induction false} NotFoundDetailQuotesSubject(config: Config, subjectType: string, subject: string)
    ensures var d := NotFound(config, subjectType, subject).detail;
      var at := |"The "| + |subjectType| + |" '"|;
      && at + |subject| <= |d|
      && d[at..at + |subject|] == subject
      && d[at - 1] == '\'' && d[at + |subject|] == '\''
  {
    var d := NotFound(config, subjectType, subject).detail;
    var at := |"The "| + |subjectType| + |" '"|;
    var front := "The " + subjectType + " '";
    var back := NotFoundBack;
    assert d == front + subject + back;
    assert |front| == at;
    assert (front + subject + back)[at..at + |subject|] == subject;
  }

  // ---------------------------------------------------------------------------
  // The serialization-error envelope: as written and corrected
  // ---------------------------------------------------------------------------

  /** As written, in debugging mode an error text containing a quote (with
      no backslash before it) lands unescaped between the quotes of the
      `error` member, so that member's text is not a JSON string: the 500
      body is malformed, or carries members the error text injected. */
  lemma RawErrorTextBreaksEnvelope(config: Config, err: string, i: nat)
    requires config.debuggingEnabled
    requires i < |err| && err[i] == '"'
    requires forall j :: 0 <= j < i ==> err[j] != '\\'
    ensures SerializationErrorJsonAsWritten(config, Some(err)) == SerializationErrorHead(config) + ",\"error\":\"" + err + "\"}"
    ensures !JsonStringBody(err)
  {
    AsWrittenErrorMember(config, err);
    BareQuoteEndsString(err, i);
  }

  lemma AsWrittenErrorMember(config: Config, err: string)
    requires config.debuggingEnabled
    ensures SerializationErrorJsonAsWritten(config, Some(err)) == SerializationErrorHead(config) + ",\"error\":\"" + err + "\"}"
  {
  }

  /** A text that breaks the envelope, such as the message of a `MarshalJSON`
      method that quotes a name. */
  lemma RawErrorTextExample()
    ensures !JsonStringBody("bad \"name\"")
  {
    var err := "bad \"name\"";
    assert err[3] == ' ' && err[4] == '"';
    BareQuoteEndsString(err, 4);
  }

  /** Corrected, the `error` member is always a valid JSON string. */
  lemma SerializationErrorMemberIsJsonString(config: Config, err: string)
    requires config.debuggingEnabled
    ensures SerializationErrorJson(config, Some(err)) == SerializationErrorHead(config) + ",\"error\":\"" + JsonEscape(err) + "\"}"
    ensures JsonStringBody(JsonEscape(err))
  {
    JsonEscapeValid(err);
  }

  /** For a text with nothing to escape (and without an error text) the
      corrected envelope is byte for byte the one Context.go writes. */
  lemma SerializationErrorJsonAgreesOnPlainText(config: Config, err: Option<string>)
    requires err.Some? ==> forall i :: 0 <= i < |err.value| ==> !NeedsEscape(err.value[i])
    ensures SerializationErrorJson(config, err) == SerializationErrorJsonAsWritten(config, err)
  {
    if err.Some? {
      JsonEscapePlain(err.value);
    }
  }
}
