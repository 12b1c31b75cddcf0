/**
 The outbound side of the handler: the record-creation request sent to
 Airtable's REST API, described as data, and the relay of Airtable's
 answer into the handler's own response.
 */
module Airtable {
  import opened Wrappers
  import opened JsValues
  import opened Cors
  import opened Fields

  const ApiRoot := "https://api.airtable.com/v0/"

  /** A `fetch` call the handler would make, as data. */
  datatype OutboundRequest = OutboundRequest(
    url: string,
    verb: string,
    headers: map<string, string>,
    body: JVal)

  /** What `fetch` resolved to: the status, the raw body text (what
      `r.text()` yields) and the parsed body (what `r.json()` yields). */
  datatype Upstream = Upstream(status: int, text: string, data: JVal) {
    /** `r.ok`: the status is in the range 200-299. */
    predicate Ok() {
      200 <= status <= 299
    }
  }

  /** A response body: none (`res.end()`) or a JSON value (`res.json(v)`). */
  datatype Body = NoBody | Json(value: JVal)

  datatype Response = Response(status: int, headers: Headers, body: Body)

  /** `{ error: message }`. */
  function ErrorBody(message: string): Body {
    Json(Single("error", Str(message)))
  }

  /** The record-creation URL for a base and an already-encoded table name. */
  function RecordUrl(baseId: string, encodedTable: string): string {
    ApiRoot + baseId + "/" + encodedTable
  }

  /** Index of the first `c` in `s`, if any. */
  function IndexOf(s: string, c: char): (r: Option<nat>)
    ensures r.Some? ==> r.value < |s| && s[r.value] == c && c !in s[..r.value]
    ensures r.None? ==> c !in s
  {
    if |s| == 0 then None
    else if s[0] == c then Some(0)
    else match IndexOf(s[1..], c)
      case None => None
      case Some(i) =>
        assert s[..i + 1] == [s[0]] + s[1..][..i];
        Some(i + 1)
  }

  /** Splits a record-creation URL back into its base and encoded-table
      segments, at the first `/` after the API root. */
  function ParseRecordUrl(url: string): Option<(string, string)> {
    if |url| < |ApiRoot| || url[..|ApiRoot|] != ApiRoot then None
    else
      var rest := url[|ApiRoot|..];
      match IndexOf(rest, '/')
      case None => None
      case Some(i) => Some((rest[..i], rest[i + 1..]))
  }

  /** When the base id holds no `/`, the URL string determines both
      segments: `ParseRecordUrl` undoes `RecordUrl`. The base id is
      interpolated without escaping, so with a `/` in it the split is
      ambiguous (and characters such as `?` or `#` change the path `fetch`
      requests, which this string split does not model). */
  lemma RecordUrlRoundTrip(baseId: string, encodedTable: string)
    ensures '/' !in baseId ==> ParseRecordUrl(RecordUrl(baseId, encodedTable)) == Some((baseId, encodedTable))
  {
    if '/' !in baseId {
      var url := RecordUrl(baseId, encodedTable);
      assert url[..|ApiRoot|] == ApiRoot;
      var rest := url[|ApiRoot|..];
      assert rest == baseId + "/" + encodedTable;
      assert rest[|baseId|] == '/';
      assert rest[..|baseId|] == baseId;
      assert IndexOf(rest, '/') == Some(|baseId|);
      assert rest[|baseId| + 1..] == encodedTable;
    }
  }

  /** The `fetch` that creates one record with `fields` in table
      `encodedTable` of base `baseId`, authorised by the access token. */
  function CreateRecord(token: string, baseId: string, encodedTable: string, fields: RecordFields): (r: OutboundRequest)
    ensures r.verb == "POST"
    ensures r.url == RecordUrl(baseId, encodedTable)
    ensures '/' !in baseId ==> ParseRecordUrl(r.url) == Some((baseId, encodedTable))
    ensures r.headers == map["Authorization" := "Bearer " + token, "Content-Type" := "application/json"]
    ensures r.body.Obj? && r.body.props.Keys == {"fields"}
    ensures Get(r.body, "fields") == Obj(fields)
  {
    RecordUrlRoundTrip(baseId, encodedTable);
    OutboundRequest(
      RecordUrl(baseId, encodedTable),
      "POST",
      map["Authorization" := "Bearer " + token, "Content-Type" := "application/json"],
      Single("fields", Obj(fields)))
  }

  /** The handler's response once Airtable has answered: a non-ok status is
      passed through with the raw body as `detail`; an ok answer yields 200
      with the record's `id` and `fields`. */
  function Relay(upstream: Upstream, headers: Headers): (r: Response)
    ensures r.headers == headers
    ensures !upstream.Ok() ==> r.status == upstream.status
    ensures !upstream.Ok() ==> r.body.Json? && r.body.value.Obj? && r.body.value.props.Keys == {"error", "detail"}
    ensures !upstream.Ok() ==> r.body.Json? && Get(r.body.value, "error") == Str("Airtable error")
    ensures !upstream.Ok() ==> r.body.Json? && Get(r.body.value, "detail") == Str(upstream.text)
    ensures upstream.Ok() ==> r.status == 200
    ensures upstream.Ok() ==> r.body.Json? && r.body.value.Obj? && r.body.value.props.Keys == {"id", "fields"}
    ensures upstream.Ok() ==> r.body.Json? && Get(r.body.value, "id") == Get(upstream.data, "id")
    ensures upstream.Ok() ==> r.body.Json? && Get(r.body.value, "fields") == Get(upstream.data, "fields")
  {
    if !upstream.Ok() then
      Response(upstream.status, headers,
        Json(Obj(map["error" := Str("Airtable error"), "detail" := Str(upstream.text)])))
    else
      Response(200, headers,
        Json(Obj(map["id" := Get(upstream.data, "id"), "fields" := Get(upstream.data, "fields")])))
  }

  /** A created record `{ id, fields }` comes back to the caller unchanged. */
  lemma RelayRoundTrip(upstream: Upstream, headers: Headers)
    requires upstream.Ok()
    requires upstream.data.Obj? && upstream.data.props.Keys == {"id", "fields"}
    ensures Relay(upstream, headers).body == Json(upstream.data)
  {
  }
}
