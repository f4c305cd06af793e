/** The four calls the plugin makes to the reporting API, the relative
    path and JSON body each is sent with, and the parts of a response
    the plugin looks at. Joining the path onto the base URL is left to
    the HTTP layer; a request records both halves. */
module Api {
  import opened Common

  datatype ApiCall =
    | BeginRun
    | BeginTest(name: string)
    | FinishTest(testId: string, status: string)
    | FinishRun(runId: string)

  /** A request body: none, or a flat JSON object of strings. */
  datatype Body = NoBody | Json(fields: map<string, string>)

  function Path(c: ApiCall): string {
    match c
    case BeginRun => "runs/"
    case BeginTest(_) => "tests/"
    case FinishTest(id, _) => "tests/" + id + "/finish"
    case FinishRun(id) => "runs/" + id + "/finish/"
  }

  function BodyOf(c: ApiCall): Body {
    match c
    case BeginTest(name) => Json(map["name" := name])
    case FinishTest(_, status) => Json(map["status" := status])
    case _ => NoBody
  }

  /** The call a server reads from a path and a body, if any. */
  function Decode(path: string, body: Body): Option<ApiCall> {
    if path == "runs/" && body == NoBody then
      Some(BeginRun)
    else if path == "tests/" && body.Json? && body.fields.Keys == {"name"} then
      Some(BeginTest(body.fields["name"]))
    else if |path| >= 13 && StartsWith(path, "tests/") && EndsWith(path, "/finish")
            && body.Json? && body.fields.Keys == {"status"} then
      Some(FinishTest(path[6..|path| - 7], body.fields["status"]))
    else if |path| >= 13 && StartsWith(path, "runs/") && EndsWith(path, "/finish/") && body == NoBody then
      Some(FinishRun(path[5..|path| - 8]))
    else
      None
  }

  /** Every call's path and body name it and its identifiers exactly,
      whatever characters the identifiers hold. */
  lemma DecodeOfCall(c: ApiCall)
    ensures Decode(Path(c), BodyOf(c)) == Some(c)
  {
    match c
    case BeginRun =>
    case BeginTest(name) =>
    case FinishTest(id, status) =>
      var p := Path(c);
      assert p[..6] == "tests/";
      assert p[|p| - 7..] == "/finish";
      assert p[6..|p| - 7] == id;
    case FinishRun(id) =>
      var p := Path(c);
      assert p[..5] == "runs/";
      assert p[|p| - 8..] == "/finish/";
      assert p[5..|p| - 8] == id;
  }

  /** Conversely, whatever decodes was sent as exactly that call. */
  lemma DecodeIsExact(path: string, body: Body)
    requires Decode(path, body).Some?
    ensures Path(Decode(path, body).value) == path
    ensures BodyOf(Decode(path, body).value) == body
  {
    var c := Decode(path, body).value;
    match c
    case BeginRun =>
    case BeginTest(name) =>
      assert body.fields == map["name" := name];
    case FinishTest(id, status) =>
      assert path == path[..6] + path[6..|path| - 7] + path[|path| - 7..];
      assert body.fields == map["status" := status];
    case FinishRun(id) =>
      assert path == path[..5] + path[5..|path| - 8] + path[|path| - 8..];
  }

  /** A request as the plugin issues it: the configured base URL, the call
      (which fixes path and body) and the headers sent along. */
  datatype Request = Request(base: string, call: ApiCall, headers: map<string, string>)

  /** A field of a decoded JSON response: `null`, or any other value as
      `str()` would render it. */
  datatype JsonValue = Null | Scalar(text: string)

  datatype Response = Response(status: int, fields: map<string, JsonValue>)

  /** The statuses `raise_for_status()` raises on. */
  predicate RaisesForStatus(status: int) {
    400 <= status < 600
  }

  /** `response.json().get(key)`: absent and `null` both give `None`. */
  function Get(resp: Response, key: string): (r: Option<string>)
    ensures r.Some? <==> key in resp.fields && resp.fields[key].Scalar?
    ensures r.Some? ==> resp.fields[key] == Scalar(r.value)
  {
    if key in resp.fields && resp.fields[key].Scalar? then Some(resp.fields[key].text) else None
  }
}
