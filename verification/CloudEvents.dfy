/**
 CloudEvents 1.0 events as the Go SDK keeps them, and the SDK calls the router and the codec make.

 What the SDK and the Go library compute outside this repository is a parameter: a value of type
 Sdk, with the few laws the proofs need in the predicate Lawful.
 */
module CloudEvents {
  import opened Options

  // An instant, as time.Time carries it.
  type Time = int

  /** A canonical extension value: a string, or a value of another attribute type. */
  datatype Value = Text(text: string) | Typed(code: int)

  /**
   An event. Absent subject, schema and contentType are "", an absent time is None: what the
   SDK's accessors return. base64 is the SDK's DataBase64 flag, which is not an attribute.
   */
  datatype Event = Event(
    id: string,
    source: string,
    kind: string,
    subject: string,
    schema: string,
    contentType: string,
    time: Option<Time>,
    ext: map<string, Value>,
    data: string,
    base64: bool)

  /** The outside functions. */
  datatype Sdk = Sdk(
    lower: string -> string,               // strings.ToLower
    trim: string -> string,                // strings.TrimSpace
    parseUri: string -> Option<string>,    // url.Parse, printed back
    absolute: string -> bool,              // an absolute URI
    mediaType: string -> bool,             // mime.ParseMediaType accepts it
    dataMediaType: string -> string,       // Event.DataMediaType
    validJson: string -> bool,             // jsontext.Value.IsValid
    normalJson: string -> string,          // JSON without insignificant whitespace
    parseTime: string -> Option<Time>,     // RFC 3339
    formatTime: Time -> string,
    zeroTime: Time,
    format: Value -> Option<string>,       // types.Format
    marshal: Event -> Option<string>,      // the CloudEvents JSON format
    dataInline: string -> bool,            // such an envelope has its payload as data, not as data_base64
    unmarshal: string -> Option<Event>)

  const EXT_CORRELATION_ID := "correlationid"
  const EXT_CAUSATION_ID := "causationid"
  const EXT_DEAD_LETTER_REASON := "deadletterreason"
  const EXT_DEAD_LETTER_ERROR := "deadlettererror"
  const EXT_TRACEPARENT := "traceparent"
  const APPLICATION_JSON := "application/json"
  const STRUCTURED_JSON := "application/cloudevents+json"

  /** What an attribute name stands for: a context attribute, or the extension of that name. */
  datatype Attr = Id | SpecVersion | Kind | Source | Subject | DataSchema | DataContentType | When | Ext(name: string)

  function AttrOf(name: string): Attr {
    if name == "id" then Id
    else if name == "specversion" then SpecVersion
    else if name == "type" then Kind
    else if name == "source" then Source
    else if name == "subject" then Subject
    else if name == "dataschema" then DataSchema
    else if name == "datacontenttype" then DataContentType
    else if name == "time" then When
    else Ext(name)
  }

  function LowerChar(c: char): char {
    if 'A' <= c <= 'Z' then (c as int + 32) as char else c
  }

  /** Lower case over ASCII. */
  function LowerAscii(s: string): (r: string)
    ensures |r| == |s| && forall i :: 0 <= i < |s| ==> r[i] == LowerChar(s[i])
  {
    seq(|s|, i requires 0 <= i < |s| => LowerChar(s[i]))
  }

  predicate IsAscii(s: string) {
    forall i :: 0 <= i < |s| ==> s[i] as int < 0x80
  }

  predicate IsAlphanumeric(c: char) {
    'a' <= c <= 'z' || 'A' <= c <= 'Z' || '0' <= c <= '9'
  }

  /** A name SetExtension accepts. It stores the value under the name's lower-case form. */
  predicate IsExtensionName(name: string) {
    name != "" && (forall i :: 0 <= i < |name| ==> IsAlphanumeric(name[i])) && AttrOf(LowerAscii(name)).Ext?
  }

  /** A name as it is stored: accepted and in lower case. */
  predicate IsStoredName(name: string) {
    IsExtensionName(name) && LowerAscii(name) == name
  }

  /** Event.SetExtension: a name it refuses changes no extension. */
  function SetExtension(ext: map<string, Value>, name: string, v: Value): map<string, Value> {
    if IsExtensionName(name) then ext[LowerAscii(name) := v] else ext
  }

  /** event.CorrelationID: "" when the extension is absent or not a string. */
  function CorrelationId(e: Event): string {
    if EXT_CORRELATION_ID in e.ext && e.ext[EXT_CORRELATION_ID].Text? then e.ext[EXT_CORRELATION_ID].text else ""
  }

  lemma NamesDiffer()
    ensures EXT_TRACEPARENT !in {EXT_CORRELATION_ID, EXT_CAUSATION_ID, EXT_DEAD_LETTER_REASON, EXT_DEAD_LETTER_ERROR}
    ensures EXT_CORRELATION_ID !in {EXT_CAUSATION_ID, EXT_DEAD_LETTER_REASON, EXT_DEAD_LETTER_ERROR}
    ensures EXT_CAUSATION_ID !in {EXT_DEAD_LETTER_REASON, EXT_DEAD_LETTER_ERROR}
    ensures EXT_DEAD_LETTER_REASON != EXT_DEAD_LETTER_ERROR
  {
  }

  /** The router's own extension names are accepted and already in lower case. */
  lemma OwnNames()
    ensures IsStoredName(EXT_CORRELATION_ID) && IsStoredName(EXT_CAUSATION_ID) && IsStoredName(EXT_TRACEPARENT)
    ensures IsStoredName(EXT_DEAD_LETTER_REASON) && IsStoredName(EXT_DEAD_LETTER_ERROR)
  {
    CorrelationName();
    CausationName();
    TraceparentName();
    ReasonName();
    ErrorName();
  }

  lemma CorrelationName()
    ensures IsStoredName(EXT_CORRELATION_ID)
  {
    OwnName(EXT_CORRELATION_ID);
  }

  lemma CausationName()
    ensures IsStoredName(EXT_CAUSATION_ID)
  {
    OwnName(EXT_CAUSATION_ID);
  }

  lemma TraceparentName()
    ensures IsStoredName(EXT_TRACEPARENT)
  {
    OwnName(EXT_TRACEPARENT);
  }

  lemma ReasonName()
    ensures IsStoredName(EXT_DEAD_LETTER_REASON)
  {
    OwnName(EXT_DEAD_LETTER_REASON);
  }

  lemma ErrorName()
    ensures IsStoredName(EXT_DEAD_LETTER_ERROR)
  {
    OwnName(EXT_DEAD_LETTER_ERROR);
  }

  lemma OwnName(name: string)
    requires name != "" && AttrOf(name).Ext? && forall i :: 0 <= i < |name| ==> 'a' <= name[i] <= 'z'
    ensures IsStoredName(name)
  {
    LowerName(name);
  }

  /** A name without upper-case letters is its own lower-case form. */
  lemma LowerName(name: string)
    requires forall i :: 0 <= i < |name| ==> !('A' <= name[i] <= 'Z')
    ensures LowerAscii(name) == name
  {
    assert forall i :: 0 <= i < |name| ==> LowerAscii(name)[i] == name[i];
  }

  /** The lower-case form of an accepted name is a stored name. */
  lemma StoredForm(name: string)
    requires IsExtensionName(name)
    ensures IsStoredName(LowerAscii(name))
  {
    var low := LowerAscii(name);
    forall i | 0 <= i < |low| ensures IsAlphanumeric(low[i]) && !('A' <= low[i] <= 'Z') {
      assert IsAlphanumeric(name[i]);
    }
    LowerName(low);
  }

  predicate StoredNames(ext: map<string, Value>) {
    forall k :: k in ext ==> IsStoredName(k)
  }

  lemma SetExtensionKeepsNames(ext: map<string, Value>, name: string, v: Value)
    requires StoredNames(ext)
    ensures StoredNames(SetExtension(ext, name, v))
  {
    if IsExtensionName(name) {
      StoredForm(name);
    }
  }

  /** The laws of the outside functions. */
  ghost predicate Lawful(sdk: Sdk) {
    && (forall s: string :: IsAscii(s) ==> sdk.lower(s) == LowerAscii(s))
    && (forall s: string, i: nat :: i < |sdk.lower(s)| ==> !('A' <= sdk.lower(s)[i] <= 'Z'))
    && sdk.trim("") == "" && (forall s: string :: sdk.trim(sdk.trim(s)) == sdk.trim(s))
    && (forall s: string :: sdk.trim(s) == s ==> sdk.trim(s + ".result") == s + ".result")
    && (forall s: string :: sdk.parseUri(s).Some? ==>
          var uri := sdk.parseUri(s).value;
          sdk.parseUri(uri) == Some(uri) && (sdk.trim(s) == s ==> sdk.trim(uri) == uri))
    && (forall t: Time :: t != sdk.zeroTime ==> sdk.parseTime(sdk.formatTime(t)) == Some(t))
    && (forall s: string :: sdk.format(Text(s)) == Some(s))
    && sdk.trim(APPLICATION_JSON) == APPLICATION_JSON && sdk.mediaType(APPLICATION_JSON)
  }

  /** Event.Validate's checks on the attributes of a 1.0 event. */
  predicate ContextValid(sdk: Sdk, e: Event) {
    && sdk.trim(e.id) != "" && e.source != "" && sdk.trim(e.kind) != ""
    && (e.schema == "" || sdk.absolute(e.schema))
    && (e.contentType == "" || sdk.mediaType(e.contentType))
  }

  /** A valid event whose attributes have the form the SDK's setters leave. */
  ghost predicate WellFormed(sdk: Sdk, e: Event) {
    && ContextValid(sdk, e)
    && sdk.trim(e.id) == e.id && sdk.trim(e.kind) == e.kind && sdk.trim(e.subject) == e.subject
    && sdk.trim(e.schema) == e.schema && sdk.trim(e.contentType) == e.contentType
    && sdk.parseUri(e.source) == Some(e.source)
    && (e.schema != "" ==> sdk.parseUri(e.schema) == Some(e.schema))
    && (e.time.Some? ==> e.time.value != sdk.zeroTime)
    && StoredNames(e.ext)
    && forall k :: k in e.ext ==> sdk.format(e.ext[k]).Some?
  }
}
