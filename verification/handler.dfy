/**
 The `POST /api/create-damage` handler as a pure function: one request,
 the configured access token and Airtable's answer in; the response and
 the record-creation request (if one is made) out.
 */
module Handler {
  import opened Wrappers
  import opened JsValues
  import opened Cors
  import opened Fields
  import opened Airtable

  /** The parts of an incoming request the handler reads: the method, the
      `Origin` header and the body as the platform parsed it. */
  datatype Request = Request(verb: string, origin: Option<string>, body: JVal)

  /** Library functions the handler calls but this model does not define:
      `encodeURIComponent`, and the string conversion a template literal
      applies to a non-string value. */
  datatype Foreign = Foreign(encodeUriComponent: string -> string, toString: JVal -> string)

  /** One handler invocation: the response sent and the `fetch` made. */
  datatype Exchange = Exchange(response: Response, outbound: Option<OutboundRequest>)

  /** `${v}`: a string interpolates as itself. */
  function Interpolate(v: JVal, ffi: Foreign): string {
    if v.Str? then v.s else ffi.toString(v)
  }

  /** `!AIRTABLE_PAT` fails: the variable is set to a non-empty string. */
  predicate HasToken(token: Option<string>) {
    token.Some? && token.value != ""
  }

  /** The body the handler destructures: `req.body || {}`. */
  function Payload(req: Request): (p: JVal)
    ensures Truthy(req.body) ==> p == req.body
    ensures !Truthy(req.body) ==> p == Obj(map[])
  {
    Or(req.body, Obj(map[]))
  }

  /** All four checks pass, so the handler reaches Airtable. */
  predicate Forwards(req: Request, token: Option<string>) {
    && req.verb == "POST"
    && HasToken(token)
    && Truthy(Get(Payload(req), "baseId"))
    && Truthy(Get(Payload(req), "table"))
  }

  /** The whole handler. `upstream` is what Airtable answers if it is
      called; it is ignored on every path that returns before the call. */
  function Handle(req: Request, token: Option<string>, upstream: Upstream, ffi: Foreign): (x: Exchange)
    // CORS headers go on every response, whatever the outcome
    ensures x.response.headers == CorsHeaders(OriginOf(req.origin))
    ensures AllowOrigin in x.response.headers <==> OriginOf(req.origin) in AllowedOrigins
    // preflight
    ensures req.verb == "OPTIONS" ==> x.response.status == 204 && x.response.body == NoBody
    // method check
    ensures req.verb != "OPTIONS" && req.verb != "POST" ==>
      x.response.status == 405 && x.response.body == ErrorBody("POST only")
    // configuration check, before the body is looked at
    ensures req.verb == "POST" && !HasToken(token) ==>
      x.response.status == 500 && x.response.body == ErrorBody("Missing AIRTABLE_PAT")
    // required fields
    ensures (req.verb == "POST" && HasToken(token)
             && (!Truthy(Get(Payload(req), "baseId")) || !Truthy(Get(Payload(req), "table")))) ==>
      x.response.status == 400 && x.response.body == ErrorBody("Missing baseId or table")
    // Airtable is called exactly when every check passes
    ensures x.outbound.Some? <==> Forwards(req, token)
    ensures x.outbound.Some? ==> x.outbound.value.verb == "POST"
    ensures x.outbound.Some? ==> Get(x.outbound.value.body, "fields") == Obj(MapFields(Payload(req)))
    ensures x.outbound.Some? ==>
      x.outbound.value.headers == map["Authorization" := "Bearer " + token.value, "Content-Type" := "application/json"]
    ensures x.outbound.Some? && Get(Payload(req), "baseId").Str? && '/' !in Get(Payload(req), "baseId").s ==>
      ParseRecordUrl(x.outbound.value.url) ==
        Some((Get(Payload(req), "baseId").s, ffi.encodeUriComponent(Interpolate(Get(Payload(req), "table"), ffi))))
    ensures x.outbound.Some? ==>
      x.outbound.value == CreateRecord(token.value, Interpolate(Get(Payload(req), "baseId"), ffi),
        ffi.encodeUriComponent(Interpolate(Get(Payload(req), "table"), ffi)), MapFields(Payload(req)))
    // relay
    ensures x.outbound.Some? ==> x.response == Relay(upstream, x.response.headers)
  {
    var cors := CorsHeaders(OriginOf(req.origin));
    if req.verb == "OPTIONS" then
      Exchange(Response(204, cors, NoBody), None)
    else if req.verb != "POST" then
      Exchange(Response(405, cors, ErrorBody("POST only")), None)
    else if !HasToken(token) then
      Exchange(Response(500, cors, ErrorBody("Missing AIRTABLE_PAT")), None)
    else
      var payload := Payload(req);
      var baseId := Get(payload, "baseId");
      var table := Get(payload, "table");
      if !Truthy(baseId) || !Truthy(table) then
        Exchange(Response(400, cors, ErrorBody("Missing baseId or table")), None)
      else
        var fields := MapFields(payload);
        var outbound := CreateRecord(token.value, Interpolate(baseId, ffi),
          ffi.encodeUriComponent(Interpolate(table, ffi)), fields);
        Exchange(Relay(upstream, cors), Some(outbound))
  }

  /** A preflight is answered the same way whatever the body, the token or
      Airtable's state: only the origin matters. */
  lemma PreflightIgnoresEverythingButOrigin(
    req: Request, req': Request, token: Option<string>, token': Option<string>,
    upstream: Upstream, upstream': Upstream, ffi: Foreign, ffi': Foreign)
    requires req.verb == "OPTIONS" && req'.verb == "OPTIONS" && req.origin == req'.origin
    ensures Handle(req, token, upstream, ffi).response == Handle(req', token', upstream', ffi').response
    ensures Handle(req, token, upstream, ffi).outbound.None?
  {
  }

  /** A missing token is reported before the body is read: any body gives
      the same answer. */
  lemma TokenCheckedBeforeBody(
    req: Request, body': JVal, token: Option<string>, upstream: Upstream, ffi: Foreign)
    requires req.verb == "POST" && !HasToken(token)
    ensures Handle(req, token, upstream, ffi) == Handle(req.(body := body'), token, upstream, ffi)
  {
  }

  /** A falsy or absent body behaves as `{}`, which lacks both required
      fields. */
  lemma EmptyBodyIsMissingTarget(req: Request, token: Option<string>, upstream: Upstream, ffi: Foreign)
    requires req.verb == "POST" && HasToken(token) && !Truthy(req.body)
    ensures Handle(req, token, upstream, ffi).response.status == 400
    ensures Handle(req, token, upstream, ffi).outbound.None?
  {
  }
}
