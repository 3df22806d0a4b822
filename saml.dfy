/**
 * The values an entity of the SAML 2.0 protocol builds, sends and receives:
 * the wire constants, issuers, name identifiers, statuses, the common
 * envelope every protocol message carries, and the Python object behaviour
 * the entity relies on (truthiness of strings, `getattr`/`setattr` on a
 * message, `str.strip`).
 */
module Saml {

  datatype Option<+T> = None | Some(value: T)

  /** The exceptions the entity raises, as values. */
  datatype Error =
    | UnknownBinding(binding: string)  // "Unknown binding type: ..."
    | NoMatchingEndpoint               // "Unkown entity or unsupported bindings"
    | UnsupportedQuery                 // "No support for this type of query"
    | MissingSubject                   // "Missing subject identification"
    | MissingIssuer                    // AttributeError: the request has no issuer
    | NoUserStore                      // AttributeError: an idp whose users store is unset
    | UnexpectedKeyword                // TypeError from a message constructor
    | MalformedPayload                 // the transport decoder raised

  datatype Result<+T> = Ok(value: T) | Err(error: Error)

  type Url = string
  type Binding = string

  // Wire constants of SAML 2.0 (bindings, protocol version, name-id format, status).
  const BINDING_HTTP_POST: Binding := "urn:oasis:names:tc:SAML:2.0:bindings:HTTP-POST"
  const BINDING_HTTP_REDIRECT: Binding := "urn:oasis:names:tc:SAML:2.0:bindings:HTTP-Redirect"
  const BINDING_SOAP: Binding := "urn:oasis:names:tc:SAML:2.0:bindings:SOAP"
  const VERSION := "2.0"
  const NAMEID_FORMAT_ENTITY := "urn:oasis:names:tc:SAML:2.0:nameid-format:entity"
  const STATUS_SUCCESS := "urn:oasis:names:tc:SAML:2.0:status:Success"
  const SAMLP_NAMESPACE := "urn:oasis:names:tc:SAML:2.0:protocol"

  /** Python truthiness of a string: only the empty string is false. */
  predicate Truthy(s: string) {
    s != ""
  }

  datatype Issuer = Issuer(text: string, format: string)
  datatype NameId = NameId(text: string)
  datatype NameIdPolicy = NameIdPolicy(format: string, allowCreate: bool)
  datatype Status = Status(code: string)

  /** What `success_status_factory()` builds. */
  function SuccessStatus(): Status {
    Status(STATUS_SUCCESS)
  }

  /** The signature placeholder `pre_signature_part(id, ...)` attaches. */
  datatype SignaturePart = SignaturePart(refId: string)

  /** One `(class_name(msg), msg.id)` entry of a `to_sign` list. */
  datatype SignRef = SignRef(className: string, id: string)

  /** The concrete message class, with the fields only that class has. */
  datatype Body =
    | AuthnRequest(nameIdPolicy: Option<NameIdPolicy>)
    | LogoutRequest(nameId: NameId, reason: Option<string>, notOnOrAfter: Option<string>)
    | AttributeQuery(subject: Option<NameId>)
    | Response
    | LogoutResponse

  /**
   * A protocol message: the common envelope plus its class-specific body.
   * `extra` holds any other attribute set on the object by name.
   */
  datatype Message = Message(
    body: Body,
    id: string,
    version: string,
    issueInstant: string,
    issuer: Option<Issuer>,
    destination: Option<Url>,
    consent: Option<string>,
    extensions: Option<string>,
    signature: Option<SignaturePart>,
    inResponseTo: Option<string>,
    status: Option<Status>,
    extra: map<string, string>)

  function Tag(body: Body): string {
    match body
    case AuthnRequest(_) => "AuthnRequest"
    case LogoutRequest(_, _, _) => "LogoutRequest"
    case AttributeQuery(_) => "AttributeQuery"
    case Response => "Response"
    case LogoutResponse => "LogoutResponse"
  }

  /** `class_name(msg)`: the namespace and tag of the message's class. */
  function ClassName(m: Message): string {
    SAMLP_NAMESPACE + ":" + Tag(m.body)
  }

  /** A freshly constructed message: every optional attribute is unset. */
  function NewMessage(body: Body, id: string, issueInstant: string, issuer: Option<Issuer>): Message {
    Message(body, id, VERSION, issueInstant, issuer, None, None, None, None, None, None, map[])
  }

  /** The attributes `setattr` treats as envelope fields rather than extra ones. */
  const EnvelopeAttrs: set<string> :=
    {"id", "version", "issue_instant", "destination", "consent", "in_response_to", "extensions"}

  /**
   * `getattr(msg, key)` for the string-valued attributes; `None` when unset.
   * A helper: it is the reading side of the `setattr` contract below.
   */
  function Attr(m: Message, key: string): Option<string> {
    if key == "id" then Some(m.id)
    else if key == "version" then Some(m.version)
    else if key == "issue_instant" then Some(m.issueInstant)
    else if key == "destination" then m.destination
    else if key == "consent" then m.consent
    else if key == "in_response_to" then m.inResponseTo
    else if key == "extensions" then m.extensions
    else if key in m.extra then Some(m.extra[key])
    else None
  }

  /** `getattr` on each envelope attribute reads the envelope field of that name. */
  lemma AttrEnvelope(m: Message)
    ensures Attr(m, "id") == Some(m.id) && Attr(m, "version") == Some(m.version)
    ensures Attr(m, "issue_instant") == Some(m.issueInstant)
    ensures Attr(m, "destination") == m.destination && Attr(m, "consent") == m.consent
    ensures Attr(m, "in_response_to") == m.inResponseTo && Attr(m, "extensions") == m.extensions
  {
  }

  /** Any attribute outside the envelope is read from the extra attributes. */
  lemma AttrOutsideEnvelope(m: Message, key: string)
    requires key !in EnvelopeAttrs
    ensures Attr(m, key) == if key in m.extra then Some(m.extra[key]) else None
  {
  }

  /**
   * `setattr(msg, key, val)` for a string value. The object-valued `issuer`,
   * `status` and `signature` are recorded among the extra attributes by name.
   */
  function SetAttr(m: Message, key: string, val: string): (r: Message)
    ensures Attr(r, key) == Some(val)
    ensures forall k :: k != key ==> Attr(r, k) == Attr(m, k)
    ensures r.body == m.body && r.issuer == m.issuer
    ensures r.signature == m.signature && r.status == m.status
  {
    if key == "id" then m.(id := val)
    else if key == "version" then m.(version := val)
    else if key == "issue_instant" then m.(issueInstant := val)
    else if key == "destination" then m.(destination := Some(val))
    else if key == "consent" then m.(consent := Some(val))
    else if key == "in_response_to" then m.(inResponseTo := Some(val))
    else if key == "extensions" then m.(extensions := Some(val))
    else m.(extra := m.extra[key := val])
  }

  /** The characters Python's `str.strip()` removes: ASCII space and tab through carriage return. */
  predicate IsSpace(c: char) {
    c == ' ' || ('\t' <= c <= '\r')
  }

  /** The first index at or after `i` where `s` holds no white space, or `|s|`. */
  function SkipSpace(s: string, i: nat): (j: nat)
    requires i <= |s|
    ensures i <= j <= |s|
    ensures forall k :: i <= k < j ==> IsSpace(s[k])
    ensures j < |s| ==> !IsSpace(s[j])
    decreases |s| - i
  {
    if i < |s| && IsSpace(s[i]) then SkipSpace(s, i + 1) else i
  }

  /** The index just past the last character of `s[lo..j]` that is not white space, or `lo`. */
  function SkipSpaceBack(s: string, lo: nat, j: nat): (e: nat)
    requires lo <= j <= |s|
    ensures lo <= e <= j
    ensures forall k :: e <= k < j ==> IsSpace(s[k])
    ensures lo < e ==> !IsSpace(s[e - 1])
    decreases j
  {
    if lo < j && IsSpace(s[j - 1]) then SkipSpaceBack(s, lo, j - 1) else j
  }

  /**
   * `s.strip()`: the part of `s` left after dropping the white space it starts
   * and ends with. Only white space is dropped, and what is left neither starts
   * nor ends with white space.
   */
  function Strip(s: string): (r: string)
    ensures |r| <= |s|
    ensures r != [] ==> !IsSpace(r[0]) && !IsSpace(r[|r| - 1])
    ensures var i := SkipSpace(s, 0);
            && i + |r| <= |s|
            && r == s[i..i + |r|]
            && (forall k :: 0 <= k < i ==> IsSpace(s[k]))
            && (forall k :: i + |r| <= k < |s| ==> IsSpace(s[k]))
  {
    var i := SkipSpace(s, 0);
    s[i..SkipSpaceBack(s, i, |s|)]
  }

  /** Stripping twice changes nothing more. */
  lemma StripIdempotent(s: string)
    ensures Strip(Strip(s)) == Strip(s)
  {
  }

  /** A string without surrounding white space is its own strip. */
  lemma StripUnpadded(s: string)
    requires s == [] || (!IsSpace(s[0]) && !IsSpace(s[|s| - 1]))
    ensures Strip(s) == s
  {
  }
}
