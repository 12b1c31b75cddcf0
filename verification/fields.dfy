/**
 The mapping from the loose request body to the `fields` object of the
 Airtable record the handler creates.
 */
module Fields {
  import opened JsValues

  /** An Airtable record's `fields`: field name to JSON value. */
  type RecordFields = map<string, JVal>

  /** Every field name the mapping can produce. */
  const FieldNames: set<string> := {"Vehicle", "Status", "Note", "Photo", "View", "XPct", "YPct"}

  /** An attachment-field value `[{ url }]` with one URL entry. */
  function Attachment(url: JVal): JVal {
    Arr([Single("url", url)])
  }

  /** Builds the record fields from the request body `payload`
      (already defaulted to `{}` when the body is falsy). */
  function MapFields(payload: JVal): (r: RecordFields)
    ensures r.Keys <= FieldNames
    ensures "Vehicle" in r && "Status" in r && "Note" in r
    ensures r["Status"] == Str("Open")
    ensures Truthy(Get(payload, "vehicle")) ==> r["Vehicle"] == Get(payload, "vehicle")
    ensures !Truthy(Get(payload, "vehicle")) ==> r["Vehicle"] == Str("UNKNOWN")
    ensures Truthy(Get(payload, "note")) ==> r["Note"] == Get(payload, "note")
    ensures !Truthy(Get(payload, "note")) ==> r["Note"] == Str("")
    ensures "Photo" in r <==> Truthy(Get(payload, "photoUrl"))
    ensures "Photo" in r ==> r["Photo"] == Attachment(Get(payload, "photoUrl"))
    ensures "View" in r <==> Truthy(Get(payload, "view"))
    ensures "View" in r ==> r["View"] == Get(payload, "view")
    ensures "XPct" in r <==> IsNumber(Get(payload, "xPct"))
    ensures "XPct" in r ==> r["XPct"] == Get(payload, "xPct")
    ensures "YPct" in r <==> IsNumber(Get(payload, "yPct"))
    ensures "YPct" in r ==> r["YPct"] == Get(payload, "yPct")
  {
    var vehicle := Get(payload, "vehicle");
    var note := Get(payload, "note");
    var photoUrl := Get(payload, "photoUrl");
    var view := Get(payload, "view");
    var xPct := Get(payload, "xPct");
    var yPct := Get(payload, "yPct");
    var base := map["Vehicle" := Or(vehicle, Str("UNKNOWN")), "Status" := Str("Open"), "Note" := Or(note, Str(""))];
    var withPhoto := if Truthy(photoUrl) then base["Photo" := Attachment(photoUrl)] else base;
    var withView := if Truthy(view) then withPhoto["View" := view] else withPhoto;
    var withX := if IsNumber(xPct) then withView["XPct" := xPct] else withView;
    if IsNumber(yPct) then withX["YPct" := yPct] else withX
  }

  /** The shape every `fields` object the handler sends has: the three
      fixed fields, a truthy vehicle, the constant status, a truthy or empty
      note, and optional fields only in their gated forms. */
  ghost predicate IsRecordFields(f: RecordFields) {
    && f.Keys <= FieldNames
    && "Vehicle" in f && Truthy(f["Vehicle"])
    && "Status" in f && f["Status"] == Str("Open")
    && "Note" in f && (Truthy(f["Note"]) || f["Note"] == Str(""))
    && ("Photo" in f ==> IsAttachment(f["Photo"]))
    && ("View" in f ==> Truthy(f["View"]))
    && ("XPct" in f ==> IsNumber(f["XPct"]))
    && ("YPct" in f ==> IsNumber(f["YPct"]))
  }

  ghost predicate IsAttachment(v: JVal) {
    && v.Arr? && |v.items| == 1
    && v.items[0] == Single("url", Get(v.items[0], "url"))
    && Truthy(Get(v.items[0], "url"))
  }

  /** A request body whose mapping is `f`: the inverse direction of
      `MapFields` on record-shaped fields. */
  function BodyFor(f: RecordFields): (payload: JVal)
    requires IsRecordFields(f)
    ensures payload.Obj?
  {
    var required := map["vehicle" := f["Vehicle"], "note" := f["Note"]];
    var withPhoto := if "Photo" in f then required["photoUrl" := Get(f["Photo"].items[0], "url")] else required;
    var withView := if "View" in f then withPhoto["view" := f["View"]] else withPhoto;
    var withX := if "XPct" in f then withView["xPct" := f["XPct"]] else withView;
    Obj(if "YPct" in f then withX["yPct" := f["YPct"]] else withX)
  }

  /** Every mapping result is record-shaped. */
  lemma MapFieldsIsRecordShaped(payload: JVal)
    ensures IsRecordFields(MapFields(payload))
  {
  }

  /** What the mapping reads back from `BodyFor(f)`. */
  lemma BodyForReads(f: RecordFields)
    requires IsRecordFields(f)
    ensures Get(BodyFor(f), "vehicle") == f["Vehicle"]
    ensures Get(BodyFor(f), "note") == f["Note"]
    ensures "Photo" in f ==> Attachment(Get(BodyFor(f), "photoUrl")) == f["Photo"]
    ensures Truthy(Get(BodyFor(f), "photoUrl")) <==> "Photo" in f
    ensures "View" in f ==> Get(BodyFor(f), "view") == f["View"]
    ensures "View" !in f ==> Get(BodyFor(f), "view") == Undefined
    ensures "XPct" in f ==> Get(BodyFor(f), "xPct") == f["XPct"]
    ensures "XPct" !in f ==> Get(BodyFor(f), "xPct") == Undefined
    ensures "YPct" in f ==> Get(BodyFor(f), "yPct") == f["YPct"]
    ensures "YPct" !in f ==> Get(BodyFor(f), "yPct") == Undefined
  {
  }

  /** Every record-shaped `fields` object is the mapping of some body:
      together with `MapFieldsIsRecordShaped`, the record shape is exactly
      the set of values the mapping can produce. */
  lemma MapFieldsOnto(f: RecordFields)
    requires IsRecordFields(f)
    ensures MapFields(BodyFor(f)) == f
  {
    BodyForReads(f);
    var r := MapFields(BodyFor(f));
    assert r.Keys == f.Keys;
    forall k | k in f
      ensures r[k] == f[k]
    {
    }
  }
}
