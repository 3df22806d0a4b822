# SAML2 Entity message core

This project is a Dafny model of the message core of pysaml2's `Entity`, the base class of a SAML 2.0 Service Provider or Identity Provider. The model covers:

- resolving the issuer of a message;
- building the common envelope of requests, responses and status responses, together with the `to_sign` list;
- picking a binding and destination from peer metadata;
- routing a response back to the service that matches the request's kind;
- dispatching an outbound message to the encoder of its binding;
- the front end of parsing an inbound request or response.

The model has three modules:

- `Saml` (saml.dfy) holds the protocol values. These are the wire constants of SAML 2.0, `Issuer`, `NameId`, `Status`, and the `Message` envelope with its class-specific `Body`. It also holds the Python behaviour the entity relies on: string truthiness, `getattr`/`setattr` on a message, and `str.strip`.
- `Metadata` (metadata.dfy) models peer metadata as a map from (peer, service, binding, descriptor type) to the ordered locations the peer advertises. `FirstAdvertised` is the first-match rule, and lemmas about it are proved by induction.
- `SamlEntity` (entity.dfy) holds the `Entity` class. Its constant fields are the configuration (entity id, metadata, own endpoints, accepted clock skew), the users store of an idp, and the HTTP encoders it inherits. Its methods build messages step by step, the way the Python code assigns their fields.

Collaborators whose code lies outside this core are abstract:

- The HTTP encoders are functions the entity is constructed with.
- The base64 and inflate decoders and the `loads`/`verify` steps of the message classes are parameters.
- The fresh ids from `sid` and the timestamps from `instant()` are parameters.
- Signing is recorded as a signature placeholder on the message plus `(class name, id)` entries in `to_sign`.

Two behaviours are modelled as the code has them:

- The condition `binding == BINDING_HTTP_REDIRECT or BINDING_HTTP_POST` at src/saml2/entity.py:373 is always true. `ResponseKwargs` therefore looks up a default `return_addr` for every binding, SOAP included. A response that arrives without `return_addr` for a service and binding with no configured endpoint is dropped.
- The HTTP-POST branch of `apply_binding` sets `method` to "GET", just as the redirect branch does.

The model also follows the code in these places, where a reader might expect otherwise:

- An inbound message that fails is returned as `None`. There is no rejection reason.
- A decoder that raises propagates out of `_parse_response` as an exception (`Err(MalformedPayload)`). It is not turned into a soft rejection.
- `_status_response` does not run its issuer through `_issuer`. `create_logout_response` therefore gives the logout response the issuer it was passed, which is none by default.
- `create_logout_response` never signs, whatever `sign` says.
- The status-response class accepts only `in_response_to` and `destination` of the `response_args` entries. A logout response to an `AuthnRequest` therefore fails in the constructor (`UnexpectedKeyword`).

## Model

| member | source | states |
|---|---|---|
| `Saml.SetAttr` | src/saml2/entity.py:209-210 | `setattr` gives the named attribute the new value (an envelope field, `extensions` included, or an extra attribute) and leaves every other attribute and the body unchanged |
| `Saml.SkipSpace` | src/saml2/entity.py:106 | the scan from the left stops at the first character that is not white space, or at the end, and passes only white space |
| `Saml.SkipSpaceBack` | src/saml2/entity.py:106 | the scan from the right stops just after the last character that is not white space, or at the left bound, and passes only white space |
| `Saml.Strip` | src/saml2/entity.py:106 | `strip()` returns a contiguous middle part of the input that neither starts nor ends with white space; only white space is removed on either side |
| `Saml.StripIdempotent` | src/saml2/entity.py:106 | stripping an already stripped issuer text changes nothing |
| `Saml.StripUnpadded` | src/saml2/entity.py:106 | a text without surrounding white space is looked up unchanged |
| `Metadata.FirstAdvertised` | src/saml2/entity.py:109-112 | a selected binding is one of the caller's bindings that the peer advertises, paired with the first advertised location |
| `Metadata.FirstAdvertisedNone` | src/saml2/entity.py:109-120 | nothing is selected if and only if no binding in the list has a non-empty lookup |
| `Metadata.FirstAdvertisedPicksFirst` | src/saml2/entity.py:109-112 | when binding i is advertised and every earlier one is not, binding i and its first location are selected |
| `Metadata.FirstAdvertisedSkipsEarlier` | src/saml2/entity.py:109-112 | any selected binding is the first advertised one in the list: all earlier bindings were skipped because their lookups were empty |
| `Metadata.FirstAdvertisedAppend` | src/saml2/entity.py:109-112 | appending bindings never changes a selection already made; when nothing was selected, the appended bindings decide |
| `Metadata.PreferenceOrder` | src/saml2/entity.py:109-112 | with two bindings, the first listed wins when both are advertised, and the second is chosen when only it is advertised |
| `SamlEntity.ResponseService` | src/saml2/entity.py:124-133 | AuthnRequest maps to assertion_consumer_service, LogoutRequest to single_logout_service and AttributeQuery to attribute_consuming_service (each if and only if); the response kinds map to nothing |
| `SamlEntity.TimeSlack` | src/saml2/entity.py:271-276 | the clock skew is the configured `accepted_time_diff`, or 0 when it is unset or 0 |
| `SamlEntity.Decode` | src/saml2/entity.py:388-397 | REDIRECT payloads are base64-decoded and inflated, POST payloads only base64-decoded, and SOAP or any other binding passes through unchanged |
| `SamlEntity.Entity.constructor` | src/saml2/entity.py:36-59 | the entity keeps its type, configuration (with its metadata), users store and HTTP encoders |
| `SamlEntity.Entity.ResolveIssuer` | src/saml2/entity.py:71-80 | an `Issuer` argument is returned unchanged; a non-empty entity id becomes an entity-format issuer with that text; no argument or an empty one gives an entity-format issuer with the configured entity id |
| `SamlEntity.Entity.ApplyBinding` | src/saml2/entity.py:82-101 | the call fails with "unknown binding" if and only if the binding is not POST, REDIRECT or SOAP; POST and REDIRECT return their encoder's dictionary with `url` set to the destination and `method` set to "GET", other entries kept; SOAP returns the SOAP encoder's result unchanged |
| `SamlEntity.Entity.ResolveEntityId` | src/saml2/entity.py:103-106 | an explicit entity id, or a call without a request, is used as given; otherwise the peer is the request issuer's text stripped, and a request without an issuer raises |
| `SamlEntity.Entity.SelectBinding` | src/saml2/entity.py:103-120 | a selected binding is one of the caller's bindings; the only errors are a missing issuer and no matching endpoint |
| `SamlEntity.Entity.SelectBindingFirstMatch` | src/saml2/entity.py:103-120 | once the peer is known, the call raises if and only if no binding is advertised, and otherwise returns the first advertised binding in the caller's order with its first location |
| `SamlEntity.Entity.PickBinding` | src/saml2/entity.py:103-120 | the loop over the bindings, with its early return, returns exactly what `SelectBinding` specifies |
| `SamlEntity.Entity.ResponseArgs` | src/saml2/entity.py:122-140 | kinds other than the three requests raise "no support"; `in_response_to` is the request id; only for an AuthnRequest are `sp_entity_id` (the issuer's text) and `name_id_policy` added; the destination is the one `pick_binding` selects for the mapped service, and a failure there is the result |
| `SamlEntity.Entity.ResponseArgsDestination` | src/saml2/entity.py:122-140 | a response goes to the first location advertised by the request's issuer for the mapped service, under the first advertised binding in the caller's order |
| `SamlEntity.Entity.BuildMessage` | src/saml2/entity.py:143-180 | the id is the one given, or a fresh one when none is given; version, timestamp and the entity's own issuer are always set; destination, consent and extensions are set only when given; the message has a signature placeholder exactly when signing is asked, and `to_sign` then lists exactly that message and is empty otherwise |
| `SamlEntity.Entity.FactoryResponse` | src/saml2/entity.py:202-204 | the factory's Response carries a fresh id, the version, the timestamp, the issuer, the `in_response_to` and the status, and no other attribute |
| `SamlEntity.Entity.SetKeywords` | src/saml2/entity.py:209-210 | after the loop every keyword's attribute holds its value, whatever the order of the keywords, and every other attribute and the body are as before |
| `SamlEntity.Entity.BuildResponse` | src/saml2/entity.py:182-219 | extra keywords never name one of `_response`'s own parameters (Python refuses those); status defaults to success; the issuer goes through `_issuer`; the response answers `in_response_to`; destination is the consumer URL only when given; every extra keyword's value can be read back from its attribute; untouched attributes keep the factory's values; signing appends the response's own `(class, id)`, taken after the keywords, to the given `to_sign` list, or makes a one-entry list; without signing the list is passed on as given |
| `SamlEntity.Entity.BuildStatusResponse` | src/saml2/entity.py:221-248 | the response has the given class, a fresh id, the version, the timestamp, the issuer exactly as given and the success status unless another is given; it answers `in_response_to` at the given destination and has no consent, extensions or other attribute; it is signed, with its own `to_sign` entry, exactly when asked; the AuthnRequest-only entries make the constructor raise |
| `SamlEntity.Entity.CreateLogoutRequest` | src/saml2/entity.py:302-337 | the subject is `NameID(subject_id)` for a non-idp, the users-store lookup for an idp, or the given name id when no subject id is given; without either it raises "Missing subject identification"; reason and expiry become the request's fields; the envelope is the one `_message` builds: the given or a fresh id, version, timestamp, the entity's own issuer, destination and consent only when given, the given extensions, no `in_response_to` or status, and a signature exactly when asked |
| `SamlEntity.Entity.CreateLogoutResponse` | src/saml2/entity.py:339-356 | a `response_args` failure is the result; a request that is an `AuthnRequest` makes the LogoutResponse constructor refuse its extra keywords (`UnexpectedKeyword`); otherwise the LogoutResponse answers the request id at the chosen destination, with a fresh id, the version, the timestamp, the given issuer and the default or given status, no consent, extensions or other attribute, and is never signed |
| `SamlEntity.Entity.ResponseKwargs` | src/saml2/entity.py:371-380 | a given `return_addr` is kept; otherwise, for every binding (the line-373 test is always true), it becomes the entity's first endpoint for the service and binding, and the parse gives up when there is none |
| `SamlEntity.Entity.ParseResponse` | src/saml2/entity.py:360-411 | an empty payload gives `None`; a missing endpoint, a refused constructor, and a falsy load or verify give `None`; a decoder failure raises; otherwise the result is the verified load of the payload decoded for its binding |
| `SamlEntity.Entity.ParseRequest` | src/saml2/entity.py:252-298 | the request object is built with the entity's receiving addresses and the clock skew (0 when unset); SOAP payloads are unwrapped first; the result is `None` when loading fails, and otherwise the verified request |

## Left out

- Configuration loading and construction glue (src/saml2/entity.py:36-69) are not modelled: `config_factory`, the "Missing configuration" error, SSL/HTTP setup, logger setup, virtual organisations, `self.seed` and `security_context`. The constructor takes a loaded configuration.
- `SamlEntity.Entity.constructor`: `Entity.__init__` always sets `users` to None (src/saml2/entity.py:39). The constructor's `users` argument stands for the store a subclass assigns afterwards, so the idp branch of `CreateLogoutRequest` can succeed here, where on the base class alone it always fails with `NoUserStore`. The three encoder arguments stand for the methods inherited from `HTTPBase`.
- Id generation and time (`sid`, `rndstr`, `instant()`) are parameters. The model cannot prove that ids are unique, and concurrent id generation is not modelled.
- The HTTP encoders `use_http_form_post`, `use_http_get` and `use_soap` are opaque functions. Their dictionaries are string-to-string maps.
- The base64 and inflate decoders are opaque partial functions. Encode/decode round trips are not proved.
- Signing and verification are not modelled: `pre_signature_part` arguments other than the id, `signed_instance_factory`, `response_factory` beyond its defaults, and the internals of `loads`/`verify`. A signed message is returned as the message with its `to_sign` list, not as signed XML.
- `loads` and `verify` are modelled by their falsy outcome only. Exceptions raised inside them are not modelled.
- SOAP envelope parsing through `getattr(soap, ...)` is a function parameter.
- Logging is not modelled.
- `parse_logout_request_response` and `parse_logout_request` (src/saml2/entity.py:415-433) are not modelled separately. They only call `ParseResponse` and `ParseRequest` with the service `single_logout_service` and fixed classes.
- Python truthiness of objects is simplified. An `Issuer`, `NameID`, `Status` or extensions object counts as true, and only empty strings count as false.
- `SamlEntity.Entity.PickBinding`: a service name the metadata store has no method for raises `AttributeError` in the code. The model treats it as advertising nothing, so the error is "no matching endpoint".
- `SamlEntity.Entity.PickBinding`: the peer's endpoint entries are modelled directly as their locations. An endpoint entry without a location is not modelled.
- `Saml.SetAttr`: the object-valued attributes `issuer`, `status` and `signature` are recorded among the extra attributes by name, and the typed field keeps its old value. Python's `setattr` replaces the object itself. `_response` refuses `issuer` and `status` as keywords, so of these only a `signature=` keyword reaches it, and `BuildResponse` then still reports no signature.
- `SamlEntity.Entity.BuildResponse`: values of extra keywords are strings. An attribute outside the envelope's string fields is stored under its name, so an object such as an assertion is opaque.
- `SamlEntity.Entity.BuildResponse`: appending to a caller's `to_sign` list mutates that list in place. The model returns the extended list instead, so the aliasing is not captured.
- `Saml.Strip`: only ASCII white space is stripped. Unicode white space that a unicode issuer text could contain is not.
- `SamlEntity.Entity.Endpoint`: the lookup rules inside `config.endpoint` (binding filtering, unspecified entries) belong to the configuration and are a map here.
