/**
 The CORS policy applied to every response of the handler: a fixed
 allow-list of browser origins and the four headers written before any
 other processing.
 */
module Cors {
  import opened Wrappers

  /** Response headers as the handler leaves them: name to value. */
  type Headers = map<string, string>

  /** One `res.setHeader(name, value)` call. */
  datatype HeaderWrite = HeaderWrite(name: string, value: string)

  /** The origins whose browser pages may read the handler's responses. */
  const AllowedOrigins: seq<string> := ["https://trailmed.app", "https://trailed.co.uk"]

  const AllowOrigin := "Access-Control-Allow-Origin"
  const Vary := "Vary"
  const AllowMethods := "Access-Control-Allow-Methods"
  const AllowHeaders := "Access-Control-Allow-Headers"

  /** The only header names the policy ever writes. */
  const CorsHeaderNames: set<string> := {AllowOrigin, Vary, AllowMethods, AllowHeaders}

  /** `list.includes(x)`: a front-to-back scan that stops at the first
      element equal to `x` (for strings, SameValueZero is value equality). */
  function Includes(list: seq<string>, x: string): (r: bool)
    ensures r <==> x in list
  {
    if |list| == 0 then false
    else list[0] == x || Includes(list[1..], x)
  }

  function Lookup(h: Headers, name: string): Option<string> {
    if name in h then Some(h[name]) else None
  }

  /** The value the last write to `name` in `writes` stores, if any. */
  function LastWrite(writes: seq<HeaderWrite>, name: string): Option<string> {
    if |writes| == 0 then None
    else if writes[|writes| - 1].name == name then Some(writes[|writes| - 1].value)
    else LastWrite(writes[..|writes| - 1], name)
  }

  /** Performs the `setHeader` calls of `writes` in order on headers `h`;
      each call replaces any earlier value of the same name. */
  function SetHeaders(h: Headers, writes: seq<HeaderWrite>): (r: Headers)
    ensures forall name :: (Lookup(r, name) ==
      if LastWrite(writes, name).Some? then LastWrite(writes, name) else Lookup(h, name))
  {
    if |writes| == 0 then h
    else
      var last := writes[|writes| - 1];
      SetHeaders(h, writes[..|writes| - 1])[last.name := last.value]
  }

  /** The `Origin` request header as the handler reads it: `origin || ""`. */
  function OriginOf(header: Option<string>): (r: string)
    ensures header.Some? && header.value != "" ==> r == header.value
    ensures header.None? || header.value == "" ==> r == ""
  {
    match header
    case Some(o) => if o != "" then o else ""
    case None => ""
  }

  /** The conditional first write of `setCors`: the origin is echoed only
      when it is allowed. */
  function AllowOriginWrites(origin: string): seq<HeaderWrite> {
    if Includes(AllowedOrigins, origin) then [HeaderWrite(AllowOrigin, origin)] else []
  }

  /** The writes `setCors` makes whatever the origin. */
  const FixedCorsWrites: seq<HeaderWrite> :=
    [ HeaderWrite(Vary, "Origin"),
      HeaderWrite(AllowMethods, "POST, OPTIONS"),
      HeaderWrite(AllowHeaders, "Content-Type, Authorization") ]

  /** The `setHeader` calls of `setCors`, in program order. */
  function CorsWrites(origin: string): seq<HeaderWrite> {
    AllowOriginWrites(origin) + FixedCorsWrites
  }

  /** The headers `setCors` leaves on a fresh response for `origin`. */
  function CorsHeaders(origin: string): (r: Headers)
    ensures AllowOrigin in r <==> origin in AllowedOrigins
    ensures AllowOrigin in r ==> r[AllowOrigin] == origin
    ensures Vary in r && r[Vary] == "Origin"
    ensures AllowMethods in r && r[AllowMethods] == "POST, OPTIONS"
    ensures AllowHeaders in r && r[AllowHeaders] == "Content-Type, Authorization"
    ensures r.Keys <= CorsHeaderNames
  {
    var allow := AllowOriginWrites(origin);
    var always := FixedCorsWrites;
    var writes := CorsWrites(origin);
    var r := SetHeaders(map[], writes);
    forall name | name !in CorsHeaderNames
      ensures name !in r
    {
      LastWriteAbsent(writes, name);
      assert Lookup(r, name).None?;
    }
    forall name
      ensures LastWrite(writes, name) ==
        if LastWrite(always, name).Some? then LastWrite(always, name) else LastWrite(allow, name)
    {
      LastWriteAppend(allow, always, name);
    }
    assert LastWrite(always, AllowOrigin).None? by {
      LastWriteAbsent(always, AllowOrigin);
    }
    assert Lookup(r, AllowOrigin) == LastWrite(allow, AllowOrigin);
    assert always[..2][..1] == [HeaderWrite(Vary, "Origin")];
    assert LastWrite(always[..2][..1], Vary) == Some("Origin");
    assert LastWrite(always[..2], Vary) == Some("Origin");
    assert LastWrite(always, Vary) == Some("Origin");
    assert LastWrite(always, AllowMethods) == Some("POST, OPTIONS");
    r
  }

  /** A name that no write mentions has no last write. */
  lemma {:induction false} LastWriteAbsent(writes: seq<HeaderWrite>, name: string)
    requires forall i :: 0 <= i < |writes| ==> writes[i].name != name
    ensures LastWrite(writes, name).None?
  {
    if |writes| > 0 {
      LastWriteAbsent(writes[..|writes| - 1], name);
    }
  }

  /** The last write in a concatenation comes from its second part when
      that part writes the name at all. */
  lemma {:induction false} LastWriteAppend(a: seq<HeaderWrite>, b: seq<HeaderWrite>, name: string)
    ensures LastWrite(a + b, name) ==
      if LastWrite(b, name).Some? then LastWrite(b, name) else LastWrite(a, name)
  {
    if |b| > 0 {
      assert (a + b)[..|a + b| - 1] == a + b[..|b| - 1];
      LastWriteAppend(a, b[..|b| - 1], name);
    } else {
      assert a + b == a;
    }
  }

  /** A request without an `Origin` header never gets one echoed back. */
  lemma AbsentOriginNeverAllowed()
    ensures AllowOrigin !in CorsHeaders(OriginOf(None))
  {
  }
}
