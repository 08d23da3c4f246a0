/**
 * The record rules of the Express server: the PORT fallback, the three POST handlers
 * that validate a JSON payload and append one defaulted record to a JSON file, and the
 * parse endpoint that runs the proposal extraction on `responseText`.
 *
 * A JSON file is a `FileState`: missing, present but empty, or holding a list. Ids
 * (`Date.now()`) and timestamps (`new Date().toISOString()`) are parameters.
 */
module Server {

  import opened Wrappers
  import opened JsNumber
  import opened Extraction

  // ---------------------------------------------------------------- PORT

  /** `parseInt(process.env.PORT, 10) || 5000`: NaN and 0 are falsy, so both fall back. */
  function Port(env: Option<string>): (port: int)
    ensures port != 0
    ensures env.None? ==> port == 5000
    ensures env.Some? && ParseInt(env.value, Ten).Some? && ParseInt(env.value, Ten).value != 0
            ==> port == ParseInt(env.value, Ten).value
    ensures env.Some? && (ParseInt(env.value, Ten).None? || ParseInt(env.value, Ten).value == 0)
            ==> port == 5000
  {
    match env
    case None => 5000
    case Some(text) =>
      match ParseInt(text, Ten)
      case None => 5000
      case Some(n) => if n == 0 then 5000 else n
  }

  /** PORT=8080 listens on 8080. */
  lemma PortFromEnvironment()
    ensures Port(Some("8080")) == 8080
  {
    assert Text.Value("8", Text.Decimal) == 8 by { assert "8"[..0] == []; }
    assert Text.Value("80", Text.Decimal) == 80 by { assert "80"[..1] == "8"; }
    assert Text.Value("808", Text.Decimal) == 808 by { assert "808"[..2] == "80"; }
    assert Text.Value("8080", Text.Decimal) == 8080 by { assert "8080"[..3] == "808"; }
    assert "8080" + [] == "8080";
    ParseIntOfLeadingDigits("8080", [], Ten);
  }

  /** With radix 10 a "0x" prefix is not hexadecimal: PORT=0x50 reads as 0 and falls back. */
  lemma HexPortFallsBack()
    ensures Port(Some("0x50")) == 5000
  {
    assert Text.Value("0", Text.Decimal) == 0 by { assert "0"[..0] == []; }
    assert "0" + "x50" == "0x50";
    ParseIntOfLeadingDigits("0", "x50", Ten);
  }

  // ---------------------------------------------------------------- JSON payloads

  /** A parsed JSON value, as `bodyParser.json()` hands it to a handler. */
  datatype Json =
    | JNull
    | JBool(b: bool)
    | JNum(n: real)
    | JStr(s: string)
    | JArr(items: seq<Json>)
    | JObj(fields: map<string, Json>)

  /** JavaScript truthiness; `undefined` is a missing field, which `Field` reports as None. */
  predicate Truthy(v: Json) {
    match v
    case JNull => false
    case JBool(b) => b
    case JNum(n) => n != 0.0
    case JStr(s) => s != ""
    case JArr(_) => true
    case JObj(_) => true
  }

  /** `payload.key`, or None for undefined: only an object has own fields. */
  function Field(v: Json, key: string): (r: Option<Json>)
    ensures r.Some? <==> v.JObj? && key in v.fields
  {
    if v.JObj? && key in v.fields then Some(v.fields[key]) else None
  }

  /** Whether `payload.key` is truthy. */
  predicate Given(v: Json, key: string) {
    Field(v, key).Some? && Truthy(Field(v, key).value)
  }

  /** `payload.key || fallback` */
  function OrElse(v: Json, key: string, fallback: Json): (r: Json)
    ensures Given(v, key) ==> r == v.fields[key]
    ensures !Given(v, key) ==> r == fallback
  {
    if Given(v, key) then v.fields[key] else fallback
  }

  // ---------------------------------------------------------------- records

  datatype Vendor = Vendor(id: int, name: Json, contact: Json, email: Json, createdAt: string)

  datatype RfpRequest = RfpRequest(
    id: int, vendorId: Json, vendorName: Json, vendorEmail: Json, subject: Json,
    body: Json, sentDate: Json, rfpDetails: Json, createdAt: string)

  datatype VendorResponse = VendorResponse(
    id: int, vendorId: Json, vendorName: Json, vendorEmail: Json, response: Json,
    attachments: Json, receivedAt: string, rfpRequestId: Json)

  /** The record POST /api/vendors builds from an accepted payload. */
  function NewVendor(payload: Json, id: int, now: string): (v: Vendor)
    requires Given(payload, "name")
    ensures v.id == id && v.createdAt == now && v.name == payload.fields["name"]
    ensures Truthy(v.name)
    ensures v.contact == (if Given(payload, "contact") then payload.fields["contact"] else JStr(""))
    ensures v.email == (if Given(payload, "email") then payload.fields["email"] else JStr(""))
  {
    Vendor(id, payload.fields["name"], OrElse(payload, "contact", JStr("")),
           OrElse(payload, "email", JStr("")), now)
  }

  /** The record POST /api/rfp-requests builds; `sentDate` falls back to the current time. */
  function NewRfpRequest(payload: Json, id: int, now: string): (r: RfpRequest)
    requires Given(payload, "vendorId")
    ensures r.id == id && r.createdAt == now && r.vendorId == payload.fields["vendorId"]
    ensures Truthy(r.vendorId)
    ensures r.vendorName == (if Given(payload, "vendorName") then payload.fields["vendorName"] else JStr(""))
    ensures r.vendorEmail == (if Given(payload, "vendorEmail") then payload.fields["vendorEmail"] else JStr(""))
    ensures r.subject == (if Given(payload, "subject") then payload.fields["subject"] else JStr(""))
    ensures r.body == (if Given(payload, "body") then payload.fields["body"] else JStr(""))
    ensures r.sentDate == (if Given(payload, "sentDate") then payload.fields["sentDate"] else JStr(now))
    ensures r.rfpDetails == (if Given(payload, "rfpDetails") then payload.fields["rfpDetails"] else JStr(""))
  {
    RfpRequest(id, payload.fields["vendorId"], OrElse(payload, "vendorName", JStr("")),
               OrElse(payload, "vendorEmail", JStr("")), OrElse(payload, "subject", JStr("")),
               OrElse(payload, "body", JStr("")), OrElse(payload, "sentDate", JStr(now)),
               OrElse(payload, "rfpDetails", JStr("")), now)
  }

  /** The record POST /api/vendor-responses builds; `attachments` falls back to [] and
      `rfpRequestId` to null. */
  function NewVendorResponse(payload: Json, id: int, now: string): (r: VendorResponse)
    requires Given(payload, "vendorId") && Given(payload, "response")
    ensures r.id == id && r.receivedAt == now
    ensures r.vendorId == payload.fields["vendorId"] && Truthy(r.vendorId)
    ensures r.response == payload.fields["response"] && Truthy(r.response)
    ensures r.vendorName == (if Given(payload, "vendorName") then payload.fields["vendorName"] else JStr(""))
    ensures r.vendorEmail == (if Given(payload, "vendorEmail") then payload.fields["vendorEmail"] else JStr(""))
    ensures r.attachments == (if Given(payload, "attachments") then payload.fields["attachments"] else JArr([]))
    ensures r.rfpRequestId == (if Given(payload, "rfpRequestId") then payload.fields["rfpRequestId"] else JNull)
  {
    VendorResponse(id, payload.fields["vendorId"], OrElse(payload, "vendorName", JStr("")),
                   OrElse(payload, "vendorEmail", JStr("")), payload.fields["response"],
                   OrElse(payload, "attachments", JArr([])), now,
                   OrElse(payload, "rfpRequestId", JNull))
  }

  // ---------------------------------------------------------------- the JSON files

  /** A JSON file: not there (ENOENT), there but empty, or holding a list of records. */
  datatype FileState<T> = Missing | Blank | Holds(records: seq<T>)

  /** What a read returns: `JSON.parse(raw || '[]')`, and [] for a missing file. */
  function Loaded<T>(f: FileState<T>): (list: seq<T>)
    ensures f.Missing? || f.Blank? ==> list == []
    ensures f.Holds? ==> list == f.records
  {
    match f
    case Missing => []
    case Blank => []
    case Holds(records) => records
  }

  /** The file after a read: a missing file is created holding "[]". */
  function AfterRead<T>(f: FileState<T>): (g: FileState<T>)
    ensures Loaded(g) == Loaded(f)
    ensures f.Missing? ==> g == Holds([])
    ensures !f.Missing? ==> g == f
  {
    if f.Missing? then Holds([]) else f
  }

  /** A handler's reply: 201 with the new record, or 400 with an error message. */
  datatype Reply<T> = Created(record: T) | BadRequest(error: string)

  /** The three files the server keeps. */
  class Store {
    var vendors: FileState<Vendor>
    var rfpRequests: FileState<RfpRequest>
    var responses: FileState<VendorResponse>

    /** A fresh data directory: none of the files exists yet. */
    constructor ()
      ensures vendors == Missing && rfpRequests == Missing && responses == Missing
    {
      vendors, rfpRequests, responses := Missing, Missing, Missing;
    }

    /** readVendors() */
    method ReadVendors() returns (list: seq<Vendor>)
      modifies this
      ensures list == Loaded(old(vendors))
      ensures vendors == AfterRead(old(vendors))
      ensures rfpRequests == old(rfpRequests) && responses == old(responses)
    {
      list := Loaded(vendors);
      if vendors.Missing? {
        vendors := Holds([]);
      }
    }

    /** readRfpRequests() */
    method ReadRfpRequests() returns (list: seq<RfpRequest>)
      modifies this
      ensures list == Loaded(old(rfpRequests))
      ensures rfpRequests == AfterRead(old(rfpRequests))
      ensures vendors == old(vendors) && responses == old(responses)
    {
      list := Loaded(rfpRequests);
      if rfpRequests.Missing? {
        rfpRequests := Holds([]);
      }
    }

    /** readVendorResponses() */
    method ReadVendorResponses() returns (list: seq<VendorResponse>)
      modifies this
      ensures list == Loaded(old(responses))
      ensures responses == AfterRead(old(responses))
      ensures vendors == old(vendors) && rfpRequests == old(rfpRequests)
    {
      list := Loaded(responses);
      if responses.Missing? {
        responses := Holds([]);
      }
    }

    /** POST /api/vendors: a payload without a truthy `name` is refused and nothing is
        read or written; otherwise one record is appended after the existing ones. */
    method PostVendor(payload: Json, id: int, now: string) returns (reply: Reply<Vendor>)
      modifies this
      ensures !Truthy(payload) || !Given(payload, "name") ==>
        reply == BadRequest("Missing vendor name") &&
        vendors == old(vendors) && rfpRequests == old(rfpRequests) && responses == old(responses)
      ensures Truthy(payload) && Given(payload, "name") ==>
        reply == Created(NewVendor(payload, id, now)) &&
        vendors == Holds(Loaded(old(vendors)) + [NewVendor(payload, id, now)]) &&
        rfpRequests == old(rfpRequests) && responses == old(responses)
    {
      if !Truthy(payload) || !Given(payload, "name") {
        return BadRequest("Missing vendor name");
      }
      var list := ReadVendors();
      var newVendor := NewVendor(payload, id, now);
      list := list + [newVendor];
      vendors := Holds(list);
      reply := Created(newVendor);
    }

    /** POST /api/rfp-requests: a payload without a truthy `vendorId` is refused; otherwise
        one record is appended. */
    method PostRfpRequest(payload: Json, id: int, now: string) returns (reply: Reply<RfpRequest>)
      modifies this
      ensures !Truthy(payload) || !Given(payload, "vendorId") ==>
        reply == BadRequest("Missing vendorId in request") &&
        vendors == old(vendors) && rfpRequests == old(rfpRequests) && responses == old(responses)
      ensures Truthy(payload) && Given(payload, "vendorId") ==>
        reply == Created(NewRfpRequest(payload, id, now)) &&
        rfpRequests == Holds(Loaded(old(rfpRequests)) + [NewRfpRequest(payload, id, now)]) &&
        vendors == old(vendors) && responses == old(responses)
    {
      if !Truthy(payload) || !Given(payload, "vendorId") {
        return BadRequest("Missing vendorId in request");
      }
      var list := ReadRfpRequests();
      var newRequest := NewRfpRequest(payload, id, now);
      list := list + [newRequest];
      rfpRequests := Holds(list);
      reply := Created(newRequest);
    }

    /** POST /api/vendor-responses: `vendorId` is checked first, then `response`, each with
        its own message; otherwise one record is appended. */
    method PostVendorResponse(payload: Json, id: int, now: string) returns (reply: Reply<VendorResponse>)
      modifies this
      ensures !Truthy(payload) || !Given(payload, "vendorId") ==>
        reply == BadRequest("Missing vendorId in request") &&
        vendors == old(vendors) && rfpRequests == old(rfpRequests) && responses == old(responses)
      ensures Truthy(payload) && Given(payload, "vendorId") && !Given(payload, "response") ==>
        reply == BadRequest("Missing response content") &&
        vendors == old(vendors) && rfpRequests == old(rfpRequests) && responses == old(responses)
      ensures Truthy(payload) && Given(payload, "vendorId") && Given(payload, "response") ==>
        reply == Created(NewVendorResponse(payload, id, now)) &&
        responses == Holds(Loaded(old(responses)) + [NewVendorResponse(payload, id, now)]) &&
        vendors == old(vendors) && rfpRequests == old(rfpRequests)
    {
      if !Truthy(payload) || !Given(payload, "vendorId") {
        return BadRequest("Missing vendorId in request");
      }
      if !Given(payload, "response") {
        return BadRequest("Missing response content");
      }
      var list := ReadVendorResponses();
      var newResponse := NewVendorResponse(payload, id, now);
      list := list + [newResponse];
      responses := Holds(list);
      reply := Created(newResponse);
    }
  }

  // ---------------------------------------------------------------- the parse endpoint

  /** What POST /api/parse-vendor-response answers: 200 with the parsed terms, 400, or 500. */
  datatype ParseReply = Parsed(terms: ParsedProposal) | ParseRefused(status: nat, error: string)

  /** POST /api/parse-vendor-response. Destructuring a null body throws (500); a falsy
      `responseText` is refused (400); a truthy value that is not a string has no
      `matchAll` and throws (500); a string is parsed as the client parses it. */
  method ParseVendorResponse(body: Json) returns (reply: ParseReply)
    ensures body.JNull? ==> reply == ParseRefused(500, "Failed to parse response")
    ensures !body.JNull? && !Given(body, "responseText") ==>
      reply == ParseRefused(400, "Missing responseText")
    ensures Given(body, "responseText") && !body.fields["responseText"].JStr? ==>
      reply == ParseRefused(500, "Failed to parse response")
    ensures Given(body, "responseText") && body.fields["responseText"].JStr? ==>
      reply == Parsed(Terms(body.fields["responseText"].s))
    ensures reply.Parsed? ==> reply.terms.totalPrice == Sum(reply.terms.pricing)
  {
    if body.JNull? {
      return ParseRefused(500, "Failed to parse response");
    }
    var responseText := Field(body, "responseText");
    if responseText.None? || !Truthy(responseText.value) {
      return ParseRefused(400, "Missing responseText");
    }
    if !responseText.value.JStr? {
      return ParseRefused(500, "Failed to parse response");
    }
    var parsed := ParseProposal(responseText.value.s);
    reply := Parsed(parsed);
  }

  /** The client parses the empty text to the defaults, while the server counts an empty
      responseText as missing, so ParseVendorResponse refuses it with 400. */
  lemma EmptyTextParsesToDefaults()
    ensures Terms("") == Defaults
    ensures !Given(JObj(map["responseText" := JStr("")]), "responseText")
  {
    NoDigitsGivesDefaults("");
  }
}
