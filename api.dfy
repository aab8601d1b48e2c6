/** The requests the page sends to the locations API, and how it reacts to
    their completion. Transport is not modelled: a request is a value, and
    a response is one of three outcomes. */
module Api {
  import opened Locations

  const ApiUrl := "https://peta-backend.vercel.app/api/locations"

  datatype Verb = GET | POST | PUT | DELETE

  /** A JavaScript number as `parseFloat` produces it: NaN for empty input.
      `JSON.stringify` writes NaN as `null`, so on the wire a NaN coordinate
      is sent as `null`. */
  datatype Number = NaN | Num(value: real)

  /** The JSON body of a save: name, category, desc, lat and lng, no id. */
  datatype Payload = Payload(name: string, category: string, desc: string, lat: Number, lng: Number)

  datatype Request = Request(verb: Verb, url: string, body: Option<Payload>)

  /** How a request settles: a response with an ok status, a response with
      any other status, or a rejected fetch (no response at all). */
  datatype Response = Ok | NotOk | Failed

  /** `parseFloat` of a coordinate input. */
  function ParseCoord(c: CoordInput): (n: Number)
    ensures n.NaN? <==> c.Empty?
    ensures c.Value? ==> n == Num(c.v)
  {
    match c
    case Empty => NaN
    case Value(v) => Num(v)
  }

  /** The URL of one stored location. */
  function ResourceUrl(id: string): string
  {
    ApiUrl + "/" + id
  }

  /** Reads the location id back out of a URL: the inverse of ResourceUrl,
      and None for the collection URL itself. */
  function TargetOf(url: string): Option<string>
  {
    if |url| > |ApiUrl| && url[..|ApiUrl| + 1] == ApiUrl + "/" then Some(url[|ApiUrl| + 1..])
    else None
  }

  lemma ResourceUrlRoundTrip(id: string)
    ensures TargetOf(ResourceUrl(id)) == Some(id)
    ensures TargetOf(ApiUrl) == None
  {
    var u := ApiUrl + "/" + id;
    assert u[..|ApiUrl| + 1] == ApiUrl + "/";
    assert u[|ApiUrl| + 1..] == id;
  }

  /** The reload that follows every successful mutation and the page load. */
  function LoadRequest(): (r: Request)
    ensures r.verb == GET && r.body == None
    ensures r.url == ApiUrl && TargetOf(r.url) == None
  {
    ResourceUrlRoundTrip("");
    Request(GET, ApiUrl, None)
  }

  /** The request a save sends for the form's current contents: create
      (POST to the collection) when the id is empty, update (PUT to that
      location's URL) otherwise. */
  function SaveRequest(f: Form): (r: Request)
    ensures r.verb == (if f.id == "" then POST else PUT)
    ensures r.url == (if f.id == "" then ApiUrl else ResourceUrl(f.id))
    ensures r.body == Some(Payload(f.name, f.category, f.desc, ParseCoord(f.lat), ParseCoord(f.lng)))
  {
    var payload := Payload(f.name, f.category, f.desc, ParseCoord(f.lat), ParseCoord(f.lng));
    if f.id != "" then Request(PUT, ResourceUrl(f.id), Some(payload))
    else Request(POST, ApiUrl, Some(payload))
  }

  /** A save addresses exactly the location whose id the form holds, and
      updates (PUT) exactly when it addresses one. */
  lemma SaveTargetsFormId(f: Form)
    ensures TargetOf(SaveRequest(f).url) == if f.id == "" then None else Some(f.id)
    ensures SaveRequest(f).verb == PUT <==> TargetOf(SaveRequest(f).url).Some?
  {
    ResourceUrlRoundTrip(f.id);
  }

  /** The body never depends on the id: two forms that differ only in their
      id send the same payload. */
  lemma PayloadIgnoresId(f: Form, id: string)
    ensures SaveRequest(f.(id := id)).body == SaveRequest(f).body
  {
  }

  /** The request a delete sends: none unless the user confirms, otherwise
      DELETE to that location's URL. */
  function DeleteRequest(id: string, confirmed: bool): (r: Option<Request>)
    ensures r.Some? <==> confirmed
    ensures r.Some? ==> r.value.verb == DELETE && r.value.body == None
    ensures r.Some? ==> TargetOf(r.value.url) == Some(id)
  {
    ResourceUrlRoundTrip(id);
    if confirmed then Some(Request(DELETE, ResourceUrl(id), None)) else None
  }

  /** Whether a settled save is followed by a reload: only an ok response. */
  function SaveReloads(r: Response): (reload: bool)
    ensures reload <==> r.Ok?
  {
    r == Ok
  }

  /** Whether a settled delete is followed by a reload: whenever a response
      arrives, whatever its status; not when the fetch itself rejects. */
  function DeleteReloads(r: Response): (reload: bool)
    ensures reload <==> (r.Ok? || r.NotOk?)
  {
    r != Failed
  }

  /** An example, evaluated on all three outcomes: a save reloads only on
      an ok response; a delete reloads on any response, ok or not, and
      only a rejected fetch leaves it without a reload. */
  lemma FollowUpReloads()
    ensures SaveReloads(Ok) && !SaveReloads(NotOk) && !SaveReloads(Failed)
    ensures DeleteReloads(Ok) && DeleteReloads(NotOk) && !DeleteReloads(Failed)
  {
  }

  /** Deleting location "1" after confirmation sends DELETE to its URL. */
  lemma DeleteScenario()
    ensures DeleteRequest("1", true)
         == Some(Request(DELETE, "https://peta-backend.vercel.app/api/locations/1", None))
    ensures DeleteRequest("1", false) == None
  {
    assert ResourceUrl("1") == "https://peta-backend.vercel.app/api/locations/1";
  }
}
