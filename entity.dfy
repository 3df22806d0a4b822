/**
 * The SAML2 `Entity`: the part of a Service Provider or Identity Provider
 * that builds protocol messages, picks the binding and endpoint a message
 * travels over, hands it to the transport encoders, and runs the front end
 * of parsing an inbound request or response.
 *
 * Collaborators stay abstract: peer metadata is a `Metadata.Store`, the
 * HTTP encoders are functions the entity is constructed with, the decoders
 * and the message classes' `loads`/`verify` are parameters, fresh ids
 * (`sid`) and timestamps (`instant()`) are passed in, and signing is
 * recorded as a signature placeholder plus a `to_sign` list.
 */
module SamlEntity {
  import opened Saml
  import Metadata

  /** How `_issuer` is called: with nothing, with an entity id, or with an `Issuer`. */
  datatype IssuerSpec = Default | ByEntityId(entityId: string) | Explicit(issuer: Issuer)

  /** The arguments of `config.endpoint(service, binding, context)`; context "" is None. */
  datatype EndpointRef = EndpointRef(service: string, binding: Binding, context: string)

  /** The parts of the configuration the core reads. */
  datatype Config = Config(
    entityId: string,
    metadata: Metadata.Store,
    endpoints: map<EndpointRef, seq<Url>>,
    acceptedTimeDiff: Option<int>)

  /** `users.get_entityid(subject_id, issuer_entity_id, False)` of an idp. */
  type UserStore = (string, string) -> string

  /** The dictionary of HTTP arguments an encoder returns. */
  type HttpInfo = map<string, string>

  /** The two entries `response_args` adds for an `AuthnRequest`. */
  datatype AuthnInfo = AuthnInfo(spEntityId: string, nameIdPolicy: Option<NameIdPolicy>)

  /** The dictionary `response_args` returns. */
  datatype ResponseInfo = ResponseInfo(inResponseTo: string, destination: Url, authn: Option<AuthnInfo>)

  /** `decode_base64_and_inflate` and `base64.b64decode`; `None` when they raise. */
  datatype Decoders = Decoders(base64Inflate: string -> Option<string>, base64: string -> Option<string>)

  /**
   * The response class handed to `_parse_response`: whether its constructor
   * accepts the keyword arguments, and the `loads` and `verify` steps of the
   * object it builds; `None` is a falsy result.
   */
  datatype ResponseClass = ResponseClass(
    accepts: map<string, string> -> bool,
    loads: (map<string, string>, string) -> Option<Message>,
    verify: (map<string, string>, Message) -> Option<Message>)

  /** What the request class handed to `_parse_request` is constructed with. */
  datatype RequestContext = RequestContext(receiverAddresses: seq<Url>, timeslack: int)

  datatype RequestClass = RequestClass(
    loads: (RequestContext, string, Binding) -> Option<Message>,
    verify: (RequestContext, Message) -> Option<Message>)

  /** The service of the peer a response to a request of this kind goes to. */
  function ResponseService(body: Body): (r: Option<string>)
    ensures body.AuthnRequest? <==> r == Some("assertion_consumer_service")
    ensures body.LogoutRequest? <==> r == Some("single_logout_service")
    ensures body.AttributeQuery? <==> r == Some("attribute_consuming_service")
    ensures r.None? <==> body.Response? || body.LogoutResponse?
  {
    match body
    case AuthnRequest(_) => Some("assertion_consumer_service")
    case LogoutRequest(_, _, _) => Some("single_logout_service")
    case AttributeQuery(_) => Some("attribute_consuming_service")
    case _ => None
  }

  /** The clock skew a parsed request is judged with. */
  function TimeSlack(acceptedTimeDiff: Option<int>): (r: int)
    ensures acceptedTimeDiff.None? ==> r == 0
    ensures acceptedTimeDiff.Some? ==> r == acceptedTimeDiff.value
  {
    if acceptedTimeDiff.Some? && acceptedTimeDiff.value != 0 then acceptedTimeDiff.value else 0
  }

  /** The decode step each binding's payload goes through. */
  function Decode(binding: Binding, payload: string, dec: Decoders): (r: Option<string>)
    ensures binding == BINDING_HTTP_REDIRECT ==> r == dec.base64Inflate(payload)
    ensures binding == BINDING_HTTP_POST ==> r == dec.base64(payload)
    ensures binding != BINDING_HTTP_REDIRECT && binding != BINDING_HTTP_POST ==> r == Some(payload)
  {
    if binding == BINDING_HTTP_REDIRECT then dec.base64Inflate(payload)
    else if binding == BINDING_HTTP_POST then dec.base64(payload)
    else Some(payload)
  }

  /**
   * `info` is what an HTTP encoder returned with `url` set to the destination
   * and `method` set to "GET", every other entry kept.
   */
  predicate UrlAndMethodSet(encoded: HttpInfo, info: HttpInfo, url: Url) {
    && info.Keys == encoded.Keys + {"url", "method"}
    && info["url"] == url
    && info["method"] == "GET"
    && forall k :: k in encoded && k != "url" && k != "method" ==> info[k] == encoded[k]
  }

  /**
   * The signature placeholder of `m` refers to `m` itself, and the `to_sign`
   * list holds exactly the entry for `m` when it is signed and nothing otherwise.
   */
  predicate SignsItself(m: Message, toSign: seq<SignRef>) {
    if m.signature.Some? then
      m.signature.value.refId == m.id && toSign == [SignRef(ClassName(m), m.id)]
    else
      toSign == []
  }

  class Entity {
    const entityType: string
    const config: Config
    const users: Option<UserStore>
    // The encoders inherited from the HTTP base class.
    const useHttpFormPost: (string, Url, string, string) -> HttpInfo
    const useHttpGet: (string, Url, string, string) -> HttpInfo
    const useSoap: (string, Url) -> HttpInfo

    constructor (entityType: string, config: Config, users: Option<UserStore>,
                 useHttpFormPost: (string, Url, string, string) -> HttpInfo,
                 useHttpGet: (string, Url, string, string) -> HttpInfo,
                 useSoap: (string, Url) -> HttpInfo)
      ensures this.entityType == entityType && this.config == config && this.users == users
      ensures this.useHttpFormPost == useHttpFormPost && this.useHttpGet == useHttpGet
      ensures this.useSoap == useSoap
    {
      this.entityType := entityType;
      this.config := config;
      this.users := users;
      this.useHttpFormPost := useHttpFormPost;
      this.useHttpGet := useHttpGet;
      this.useSoap := useSoap;
    }

    /** `_issuer`: an `Issuer` is kept, an entity id becomes one, and otherwise the entity issues. */
    function ResolveIssuer(spec: IssuerSpec): (r: Issuer)
      ensures spec.Explicit? ==> r == spec.issuer
      ensures spec.ByEntityId? && Truthy(spec.entityId) ==> r == Issuer(spec.entityId, NAMEID_FORMAT_ENTITY)
      ensures spec.Default? || spec == ByEntityId("") ==> r == Issuer(config.entityId, NAMEID_FORMAT_ENTITY)
    {
      match spec
      case Explicit(issuer) => issuer
      case ByEntityId(entityId) =>
        if Truthy(entityId) then Issuer(entityId, NAMEID_FORMAT_ENTITY)
        else Issuer(config.entityId, NAMEID_FORMAT_ENTITY)
      case Default => Issuer(config.entityId, NAMEID_FORMAT_ENTITY)
    }

    /** `apply_binding`: hand the message to the encoder of its binding. */
    function ApplyBinding(binding: Binding, reqStr: string, destination: Url, relayState: string,
                          typ: string): (r: Result<HttpInfo>)
      ensures r.Err? <==> binding !in {BINDING_HTTP_POST, BINDING_HTTP_REDIRECT, BINDING_SOAP}
      ensures r.Err? ==> r.error == UnknownBinding(binding)
      ensures binding == BINDING_HTTP_POST ==>
                r.Ok? && UrlAndMethodSet(useHttpFormPost(reqStr, destination, relayState, typ), r.value, destination)
      ensures binding == BINDING_HTTP_REDIRECT ==>
                r.Ok? && UrlAndMethodSet(useHttpGet(reqStr, destination, relayState, typ), r.value, destination)
      ensures binding == BINDING_SOAP ==> r == Ok(useSoap(reqStr, destination))
    {
      if binding == BINDING_HTTP_POST then
        Ok(useHttpFormPost(reqStr, destination, relayState, typ)["url" := destination]["method" := "GET"])
      else if binding == BINDING_HTTP_REDIRECT then
        Ok(useHttpGet(reqStr, destination, relayState, typ)["url" := destination]["method" := "GET"])
      else if binding == BINDING_SOAP then
        Ok(useSoap(reqStr, destination))
      else
        Err(UnknownBinding(binding))
    }

    /** The peer `pick_binding` looks up: the request's issuer when no entity id is given. */
    function ResolveEntityId(request: Option<Message>, entityId: string): (r: Result<string>)
      ensures request.None? || Truthy(entityId) ==> r == Ok(entityId)
      ensures request.Some? && !Truthy(entityId) ==> (r.Err? <==> request.value.issuer.None?)
      ensures r.Err? ==> r.error == MissingIssuer
      ensures r.Ok? && request.Some? && !Truthy(entityId) ==> r.value == Strip(request.value.issuer.value.text)
    {
      if request.Some? && !Truthy(entityId) then
        if request.value.issuer.None? then Err(MissingIssuer)
        else Ok(Strip(request.value.issuer.value.text))
      else Ok(entityId)
    }

    /** What `pick_binding` returns or raises. */
    function SelectBinding(bindings: seq<Binding>, service: string, descrType: string,
                           request: Option<Message>, entityId: string): (r: Result<(Binding, Url)>)
      ensures r.Ok? ==> r.value.0 in bindings
      ensures r.Err? ==> r.error in {MissingIssuer, NoMatchingEndpoint}
    {
      match ResolveEntityId(request, entityId)
      case Err(e) => Err(e)
      case Ok(peer) =>
        match Metadata.FirstAdvertised(config.metadata, Metadata.Query(peer, service, descrType), bindings)
        case None => Err(NoMatchingEndpoint)
        case Some(picked) => Ok(picked)
    }

    /**
     * Once the peer is known, `pick_binding` selects the first binding in the
     * caller's order that the peer advertises for the service, with its first
     * location, and raises exactly when none is advertised.
     */
    lemma SelectBindingFirstMatch(bindings: seq<Binding>, service: string, descrType: string,
                                  request: Option<Message>, entityId: string)
      requires ResolveEntityId(request, entityId).Ok?
      ensures var q := Metadata.Query(ResolveEntityId(request, entityId).value, service, descrType);
              && (SelectBinding(bindings, service, descrType, request, entityId) == Err(NoMatchingEndpoint) <==>
                  forall i :: 0 <= i < |bindings| ==> !Metadata.Advertised(config.metadata, q, bindings[i]))
              && forall i :: Metadata.IsFirstAdvertised(config.metadata, q, bindings, i) ==>
                   SelectBinding(bindings, service, descrType, request, entityId) ==
                   Ok((bindings[i], Metadata.Lookup(config.metadata, q, bindings[i])[0]))
    {
      var q := Metadata.Query(ResolveEntityId(request, entityId).value, service, descrType);
      Metadata.FirstAdvertisedNone(config.metadata, q, bindings);
      forall i | Metadata.IsFirstAdvertised(config.metadata, q, bindings, i)
        ensures SelectBinding(bindings, service, descrType, request, entityId) ==
                Ok((bindings[i], Metadata.Lookup(config.metadata, q, bindings[i])[0]))
      {
        Metadata.FirstAdvertisedPicksFirst(config.metadata, q, bindings, i);
      }
    }

    /** `pick_binding`: try the caller's bindings in order; the first advertised one wins. */
    method PickBinding(bindings: seq<Binding>, service: string, descrType: string,
                       request: Option<Message>, entityId: string) returns (r: Result<(Binding, Url)>)
      ensures r == SelectBinding(bindings, service, descrType, request, entityId)
    {
      var peer := ResolveEntityId(request, entityId);
      if peer.Err? {
        return Err(peer.error);
      }
      var q := Metadata.Query(peer.value, service, descrType);
      var i := 0;
      while i < |bindings|
        invariant 0 <= i <= |bindings|
        invariant Metadata.FirstAdvertised(config.metadata, q, bindings) ==
                  Metadata.FirstAdvertised(config.metadata, q, bindings[i..])
      {
        var srvs := Metadata.Lookup(config.metadata, q, bindings[i]);
        if srvs != [] {
          return Ok((bindings[i], srvs[0]));
        }
        i := i + 1;
      }
      return Err(NoMatchingEndpoint);
    }

    /** `response_args`: where and in answer to what a response to `message` goes. */
    function ResponseArgs(message: Message, bindings: seq<Binding>, descrType: string): (r: Result<ResponseInfo>)
      ensures ResponseService(message.body).None? ==> r == Err(UnsupportedQuery)
      ensures ResponseService(message.body).Some? && message.issuer.None? ==> r == Err(MissingIssuer)
      ensures r.Ok? ==> r.value.inResponseTo == message.id
      ensures r.Ok? ==> (r.value.authn.Some? <==> message.body.AuthnRequest?)
      ensures r.Ok? && message.body.AuthnRequest? ==>
                r.value.authn == Some(AuthnInfo(message.issuer.value.text, message.body.nameIdPolicy))
      ensures ResponseService(message.body).Some? && message.issuer.Some? ==>
                var picked := SelectBinding(bindings, ResponseService(message.body).value, descrType, Some(message), "");
                && (r.Ok? <==> picked.Ok?)
                && (r.Ok? ==> r.value.destination == picked.value.1)
                && (picked.Err? ==> r == Err(picked.error))
    {
      match ResponseService(message.body)
      case None => Err(UnsupportedQuery)
      case Some(service) =>
        if message.issuer.None? then Err(MissingIssuer)
        else
          var authn :=
            if message.body.AuthnRequest? then Some(AuthnInfo(message.issuer.value.text, message.body.nameIdPolicy))
            else None;
          match SelectBinding(bindings, service, descrType, Some(message), "")
          case Err(e) => Err(e)
          case Ok((_, destination)) => Ok(ResponseInfo(message.id, destination, authn))
    }

    /**
     * A response goes to the first location the request's issuer advertises,
     * for the service its kind maps to, under the first advertised binding.
     */
    lemma ResponseArgsDestination(message: Message, bindings: seq<Binding>, descrType: string)
      requires ResponseArgs(message, bindings, descrType).Ok?
      ensures message.issuer.Some? && ResponseService(message.body).Some?
      ensures var q := Metadata.Query(Strip(message.issuer.value.text), ResponseService(message.body).value, descrType);
              exists i :: Metadata.IsFirstAdvertised(config.metadata, q, bindings, i) &&
                          ResponseArgs(message, bindings, descrType).value.destination ==
                          Metadata.Lookup(config.metadata, q, bindings[i])[0]
    {
      var service := ResponseService(message.body).value;
      var q := Metadata.Query(Strip(message.issuer.value.text), service, descrType);
      assert ResolveEntityId(Some(message), "") == Ok(q.entityId);
      var picked := Metadata.FirstAdvertised(config.metadata, q, bindings);
      assert SelectBinding(bindings, service, descrType, Some(message), "") == Ok(picked.value);
      Metadata.FirstAdvertisedSkipsEarlier(config.metadata, q, bindings);
      var i :| Metadata.IsFirstAdvertised(config.metadata, q, bindings, i) && picked.value.0 == bindings[i];
      Metadata.FirstAdvertisedPicksFirst(config.metadata, q, bindings, i);
      assert ResponseArgs(message, bindings, descrType).value.destination == picked.value.1;
    }

    /**
     * `_message`: the envelope every request shares. The id is the one given or
     * a fresh one; version, timestamp and the entity's own issuer are always set;
     * destination, consent and extensions only when given; signing attaches a
     * placeholder for the message and lists it in `to_sign`.
     */
    method BuildMessage(body: Body, destination: Url, id: string, consent: string, extensions: Option<string>,
                        sign: bool, freshId: string, now: string) returns (req: Message, toSign: seq<SignRef>)
      ensures req.body == body
      ensures req.id == if Truthy(id) then id else freshId
      ensures req.version == VERSION && req.issueInstant == now
      ensures req.issuer == Some(ResolveIssuer(Default))
      ensures req.destination == if Truthy(destination) then Some(destination) else None
      ensures req.consent == if Truthy(consent) then Some(consent) else None
      ensures req.extensions == extensions
      ensures req.inResponseTo == None && req.status == None && req.extra == map[]
      ensures req.signature.Some? <==> sign
      ensures SignsItself(req, toSign)
    {
      var mid := id;
      if !Truthy(mid) {
        mid := freshId;
      }
      req := NewMessage(body, mid, now, Some(ResolveIssuer(Default)));
      if Truthy(destination) {
        req := req.(destination := Some(destination));
      }
      if Truthy(consent) {
        req := req.(consent := Some(consent));
      }
      if extensions.Some? {
        req := req.(extensions := extensions);
      }
      if sign {
        req := req.(signature := Some(SignaturePart(req.id)));
        toSign := [SignRef(ClassName(req), req.id)];
      } else {
        toSign := [];
      }
    }

    /** What `response_factory(issuer=..., in_response_to=..., status=...)` returns. */
    function FactoryResponse(issuer: Issuer, inResponseTo: string, status: Status,
                             freshId: string, now: string): (m: Message)
      ensures m.body == Response && m.id == freshId && m.version == VERSION && m.issueInstant == now
      ensures m.issuer == Some(issuer) && m.inResponseTo == Some(inResponseTo) && m.status == Some(status)
      ensures m.destination == None && m.consent == None && m.signature == None && m.extensions == None
      ensures m.extra == map[]
      ensures forall k :: k !in EnvelopeAttrs ==> Attr(m, k) == None
    {
      NewMessage(Response, freshId, now, Some(issuer)).(inResponseTo := Some(inResponseTo), status := Some(status))
    }

    /**
     * The `setattr` loop over the extra keywords of `_response`: each keyword's
     * value becomes its attribute, in whatever order the keywords come, and
     * every other attribute and part of the message is left as it was.
     */
    method SetKeywords(m: Message, kwargs: map<string, string>) returns (r: Message)
      ensures forall k :: Attr(r, k) == if k in kwargs then Some(kwargs[k]) else Attr(m, k)
      ensures r.body == m.body && r.issuer == m.issuer && r.status == m.status
      ensures r.signature == m.signature
    {
      r := m;
      var remaining := kwargs.Keys;
      while remaining != {}
        invariant remaining <= kwargs.Keys
        invariant forall k :: Attr(r, k) == if k in kwargs && k !in remaining then Some(kwargs[k]) else Attr(m, k)
        invariant r.body == m.body && r.issuer == m.issuer && r.status == m.status
        invariant r.signature == m.signature
        decreases remaining
      {
        var key :| key in remaining;
        r := SetAttr(r, key, kwargs[key]);
        remaining := remaining - {key};
      }
    }

    /**
     * `_response`: a Response with the success status unless one is given, the
     * resolved issuer, the consumer URL as destination when given, every extra
     * keyword set on it, and, when signing, its own entry appended to `to_sign`.
     */
    method BuildResponse(inResponseTo: string, consumerUrl: Url, status: Option<Status>, issuer: IssuerSpec,
                         sign: bool, toSign: Option<seq<SignRef>>, kwargs: map<string, string>,
                         freshId: string, now: string) returns (response: Message, signRefs: Option<seq<SignRef>>)
      requires kwargs.Keys !! {"in_response_to", "consumer_url", "status", "issuer", "sign", "to_sign"}
      ensures response.body == Response
      ensures response.issuer == Some(ResolveIssuer(issuer))
      ensures response.status == Some(if status.Some? then status.value else SuccessStatus())
      ensures response.signature == None
      ensures "extensions" !in kwargs ==> response.extensions == None
      ensures forall k :: k in kwargs ==> Attr(response, k) == Some(kwargs[k])
      ensures "id" !in kwargs ==> response.id == freshId
      ensures "version" !in kwargs ==> response.version == VERSION
      ensures "issue_instant" !in kwargs ==> response.issueInstant == now
      ensures response.inResponseTo == Some(inResponseTo)
      ensures "destination" !in kwargs ==>
                response.destination == if Truthy(consumerUrl) then Some(consumerUrl) else None
      ensures "consent" !in kwargs ==> response.consent == None
      ensures forall k :: k !in kwargs && k !in EnvelopeAttrs ==> Attr(response, k) == None
      ensures sign ==> signRefs == Some((if toSign.Some? then toSign.value else []) +
                                        [SignRef(ClassName(response), response.id)])
      ensures !sign ==> signRefs == toSign
    {
      var st := if status.Some? then status.value else SuccessStatus();
      response := FactoryResponse(ResolveIssuer(issuer), inResponseTo, st, freshId, now);
      if Truthy(consumerUrl) {
        response := response.(destination := Some(consumerUrl));
      }
      ghost var before := response;
      response := SetKeywords(response, kwargs);
      AttrEnvelope(before);
      AttrEnvelope(response);
      forall k | k !in kwargs && k !in EnvelopeAttrs
        ensures Attr(response, k) == None
      {
        AttrOutsideEnvelope(before, k);
      }
      signRefs := toSign;
      if sign {
        var entry := SignRef(ClassName(response), response.id);
        signRefs := if toSign.Some? then Some(toSign.value + [entry]) else Some([entry]);
        assert [] + [entry] == [entry];
      }
    }

    /**
     * `_status_response`: a status response of the given class with a fresh id,
     * the issuer exactly as given, the success status unless one is given, and
     * the `response_args` entries as keywords; signing attaches a placeholder
     * and lists the response in `to_sign`. The class takes only
     * `in_response_to` and `destination` of those entries, so the
     * `AuthnRequest` ones make its constructor raise.
     */
    method BuildStatusResponse(kind: Body, issuer: Option<Issuer>, status: Option<Status>, sign: bool,
                               info: ResponseInfo, freshId: string, now: string)
      returns (r: Result<(Message, seq<SignRef>)>)
      requires kind.Response? || kind.LogoutResponse?
      ensures r.Err? <==> info.authn.Some?
      ensures r.Err? ==> r.error == UnexpectedKeyword
      ensures r.Ok? ==> r.value.0.body == kind && r.value.0.id == freshId
      ensures r.Ok? ==> r.value.0.version == VERSION && r.value.0.issueInstant == now
      ensures r.Ok? ==> r.value.0.issuer == issuer
      ensures r.Ok? ==> r.value.0.status == Some(if status.Some? then status.value else SuccessStatus())
      ensures r.Ok? ==> r.value.0.inResponseTo == Some(info.inResponseTo)
      ensures r.Ok? ==> r.value.0.destination == Some(info.destination)
      ensures r.Ok? ==> r.value.0.consent == None && r.value.0.extensions == None && r.value.0.extra == map[]
      ensures r.Ok? ==> (r.value.0.signature.Some? <==> sign) && SignsItself(r.value.0, r.value.1)
    {
      if info.authn.Some? {
        return Err(UnexpectedKeyword);
      }
      var st := if status.Some? then status.value else SuccessStatus();
      var response := NewMessage(kind, freshId, now, issuer).(status := Some(st));
      response := response.(inResponseTo := Some(info.inResponseTo), destination := Some(info.destination));
      var toSign := [];
      if sign {
        response := response.(signature := Some(SignaturePart(freshId)));
        toSign := [SignRef(ClassName(response), freshId)];
      }
      r := Ok((response, toSign));
    }

    /**
     * `create_logout_request`: the subject is named by the subject id when one
     * is given (through the users store for an idp) and otherwise by the name
     * id given; without either the call raises.
     */
    method CreateLogoutRequest(destination: Url, issuerEntityId: string, subjectId: string, nameId: Option<NameId>,
                               reason: Option<string>, expire: Option<string>, id: string, consent: string,
                               extensions: Option<string>, sign: bool, freshId: string, now: string)
      returns (r: Result<(Message, seq<SignRef>)>)
      ensures r.Err? <==> (!Truthy(subjectId) && nameId.None?) ||
                          (Truthy(subjectId) && entityType == "idp" && users.None?)
      ensures !Truthy(subjectId) && nameId.None? ==> r == Err(MissingSubject)
      ensures r.Err? && Truthy(subjectId) ==> r.error == NoUserStore
      ensures r.Ok? ==> r.value.0.body.LogoutRequest?
      ensures r.Ok? ==> r.value.0.body.reason == reason && r.value.0.body.notOnOrAfter == expire
      ensures r.Ok? && Truthy(subjectId) && entityType != "idp" ==> r.value.0.body.nameId == NameId(subjectId)
      ensures r.Ok? && Truthy(subjectId) && entityType == "idp" ==>
                r.value.0.body.nameId == NameId(users.value(subjectId, issuerEntityId))
      ensures r.Ok? && !Truthy(subjectId) ==> r.value.0.body.nameId == nameId.value
      ensures r.Ok? ==> r.value.0.issuer == Some(Issuer(config.entityId, NAMEID_FORMAT_ENTITY))
      ensures r.Ok? ==> r.value.0.id == if Truthy(id) then id else freshId
      ensures r.Ok? ==> r.value.0.destination == if Truthy(destination) then Some(destination) else None
      ensures r.Ok? ==> r.value.0.version == VERSION && r.value.0.issueInstant == now
      ensures r.Ok? ==> r.value.0.consent == (if Truthy(consent) then Some(consent) else None)
      ensures r.Ok? ==> r.value.0.extensions == extensions
      ensures r.Ok? ==> r.value.0.inResponseTo == None && r.value.0.status == None && r.value.0.extra == map[]
      ensures r.Ok? ==> (r.value.0.signature.Some? <==> sign) && SignsItself(r.value.0, r.value.1)
    {
      var subject := nameId;
      if Truthy(subjectId) {
        if entityType == "idp" {
          if users.None? {
            return Err(NoUserStore);
          }
          subject := Some(NameId(users.value(subjectId, issuerEntityId)));
        } else {
          subject := Some(NameId(subjectId));
        }
      }
      if subject.None? {
        return Err(MissingSubject);
      }
      var req, toSign := BuildMessage(LogoutRequest(subject.value, reason, expire), destination, id, consent,
                                      extensions, sign, freshId, now);
      r := Ok((req, toSign));
    }

    /**
     * `create_logout_response`: a LogoutResponse to `request`, sent where
     * `response_args` says; it is never signed, whatever `sign` asks.
     */
    method CreateLogoutResponse(request: Message, bindings: seq<Binding>, status: Option<Status>, sign: bool,
                                issuer: Option<Issuer>, freshId: string, now: string) returns (r: Result<Message>)
      ensures ResponseArgs(request, bindings, "spsso").Err? ==> r == Err(ResponseArgs(request, bindings, "spsso").error)
      ensures r.Ok? <==> ResponseArgs(request, bindings, "spsso").Ok? && !request.body.AuthnRequest?
      ensures ResponseArgs(request, bindings, "spsso").Ok? && request.body.AuthnRequest? ==> r == Err(UnexpectedKeyword)
      ensures r.Ok? ==> r.value.body == LogoutResponse && r.value.signature == None
      ensures r.Ok? ==> r.value.id == freshId && r.value.issuer == issuer
      ensures r.Ok? ==> r.value.version == VERSION && r.value.issueInstant == now
      ensures r.Ok? ==> r.value.consent == None && r.value.extensions == None && r.value.extra == map[]
      ensures r.Ok? ==> r.value.inResponseTo == Some(request.id)
      ensures r.Ok? ==> r.value.destination == Some(ResponseArgs(request, bindings, "spsso").value.destination)
      ensures r.Ok? ==> r.value.status == Some(if status.Some? then status.value else SuccessStatus())
    {
      var rinfo := ResponseArgs(request, bindings, "spsso");
      if rinfo.Err? {
        return Err(rinfo.error);
      }
      var built := BuildStatusResponse(LogoutResponse, issuer, status, false, rinfo.value, freshId, now);
      if built.Err? {
        return Err(built.error);
      }
      r := Ok(built.value.0);
    }

    /** `config.endpoint(service, binding, context)`: this entity's own locations. */
    function Endpoint(service: string, binding: Binding, context: string): seq<Url> {
      var key := EndpointRef(service, binding, context);
      if key in config.endpoints then config.endpoints[key] else []
    }

    /**
     * The keyword arguments `_parse_response` constructs the response with: a
     * missing `return_addr` becomes this entity's first endpoint for the service
     * and binding, for every binding; `None` when there is no such endpoint.
     */
    function ResponseKwargs(service: string, binding: Binding, kwargs: map<string, string>): (r: Option<map<string, string>>)
      ensures "return_addr" in kwargs ==> r == Some(kwargs)
      ensures "return_addr" !in kwargs ==> (r.None? <==> Endpoint(service, binding, "") == [])
      ensures r.Some? ==> r.value.Keys == kwargs.Keys + {"return_addr"}
      ensures r.Some? && "return_addr" !in kwargs ==> r.value["return_addr"] == Endpoint(service, binding, "")[0]
      ensures r.Some? ==> forall k :: k in kwargs ==> r.value[k] == kwargs[k]
    {
      if "return_addr" in kwargs then Some(kwargs)
      else if binding == BINDING_HTTP_REDIRECT || Truthy(BINDING_HTTP_POST) then
        var addrs := Endpoint(service, binding, "");
        if addrs == [] then None else Some(kwargs["return_addr" := addrs[0]])
      else Some(kwargs)
    }

    /**
     * `_parse_response`: nothing for an empty payload; otherwise construct the
     * response object, decode the payload for its binding, load and verify it.
     * A missing endpoint, a refused constructor and a falsy load or verify give
     * `None`; a decoder that raises propagates.
     */
    method ParseResponse(xmlstr: string, cls: ResponseClass, service: string, binding: Binding,
                         kwargs: map<string, string>, dec: Decoders) returns (r: Result<Option<Message>>)
      ensures !Truthy(xmlstr) ==> r == Ok(None)
      ensures Truthy(xmlstr) && ResponseKwargs(service, binding, kwargs).None? ==> r == Ok(None)
      ensures (Truthy(xmlstr) && ResponseKwargs(service, binding, kwargs).Some? &&
               !cls.accepts(ResponseKwargs(service, binding, kwargs).value)) ==> r == Ok(None)
      ensures r.Err? <==> Truthy(xmlstr) && ResponseKwargs(service, binding, kwargs).Some? &&
                          cls.accepts(ResponseKwargs(service, binding, kwargs).value) &&
                          Decode(binding, xmlstr, dec).None?
      ensures r.Err? ==> r.error == MalformedPayload
      ensures r.Ok? && r.value.Some? ==>
                && Truthy(xmlstr)
                && var args := ResponseKwargs(service, binding, kwargs).value;
                && var loaded := cls.loads(args, Decode(binding, xmlstr, dec).value);
                && loaded.Some? && r.value == cls.verify(args, loaded.value)
      ensures (Truthy(xmlstr) && ResponseKwargs(service, binding, kwargs).Some? &&
               cls.accepts(ResponseKwargs(service, binding, kwargs).value) &&
               Decode(binding, xmlstr, dec).Some?) ==>
                var args := ResponseKwargs(service, binding, kwargs).value;
                var loaded := cls.loads(args, Decode(binding, xmlstr, dec).value);
                r == Ok(if loaded.Some? then cls.verify(args, loaded.value) else None)
    {
      if !Truthy(xmlstr) {
        return Ok(None);
      }
      var args := kwargs;
      if "return_addr" !in args {
        if binding == BINDING_HTTP_REDIRECT || Truthy(BINDING_HTTP_POST) {
          var addrs := Endpoint(service, binding, "");
          if addrs == [] {
            return Ok(None);
          }
          args := args["return_addr" := addrs[0]];
        }
      }
      if !cls.accepts(args) {
        return Ok(None);
      }
      var xml := xmlstr;
      if binding == BINDING_HTTP_REDIRECT {
        var decoded := dec.base64Inflate(xml);
        if decoded.None? {
          return Err(MalformedPayload);
        }
        xml := decoded.value;
      } else if binding == BINDING_HTTP_POST {
        var decoded := dec.base64(xml);
        if decoded.None? {
          return Err(MalformedPayload);
        }
        xml := decoded.value;
      }
      var response := cls.loads(args, xml);
      if response.Some? {
        response := cls.verify(args, response.value);
      }
      r := Ok(response);
    }

    /**
     * `_parse_request`: construct the request object with this entity's
     * receiving addresses and the configured clock skew (0 when unset), strip
     * the SOAP envelope for the SOAP binding, then load and verify.
     */
    method ParseRequest(xmlstr: string, cls: RequestClass, service: string, binding: Binding,
                        request: string, soapParse: (string, string) -> string) returns (r: Option<Message>)
      ensures var ctx := RequestContext(Endpoint(service, binding, entityType), TimeSlack(config.acceptedTimeDiff));
              var xml := if binding == BINDING_SOAP then soapParse(request, xmlstr) else xmlstr;
              && (cls.loads(ctx, xml, binding).None? ==> r == None)
              && (cls.loads(ctx, xml, binding).Some? ==> r == cls.verify(ctx, cls.loads(ctx, xml, binding).value))
    {
      var receiverAddresses := Endpoint(service, binding, entityType);
      var timeslack := 0;
      if config.acceptedTimeDiff.Some? && config.acceptedTimeDiff.value != 0 {
        timeslack := config.acceptedTimeDiff.value;
      }
      var ctx := RequestContext(receiverAddresses, timeslack);
      var xml := xmlstr;
      if binding == BINDING_SOAP {
        xml := soapParse(request, xml);
      }
      r := cls.loads(ctx, xml, binding);
      if r.Some? {
        r := cls.verify(ctx, r.value);
      }
    }
  }
}
