/**
 * The inter-service client (shared/utils/http_client.py): how `call_service`
 * builds the target URL, when it sends a JSON body, and how it turns the
 * transport outcome into a return value or a ServiceHTTPError.
 */
module HttpClient {
  import opened Wrappers
  import opened Text

  /** `s.rstrip('/')`: every trailing slash removed. */
  function StripTrailingSlashes(s: string): (r: string)
    ensures r <= s
    ensures r == [] || r[|r| - 1] != '/'
    ensures forall i :: |r| <= i < |s| ==> s[i] == '/'
  {
    if s != [] && s[|s| - 1] == '/' then StripTrailingSlashes(s[..|s| - 1]) else s
  }

  /** `s.lstrip('/')`: every leading slash removed. */
  function StripLeadingSlashes(s: string): (r: string)
    ensures |r| <= |s| && r == s[|s| - |r|..]
    ensures r == [] || r[0] != '/'
    ensures forall i :: 0 <= i < |s| - |r| ==> s[i] == '/'
  {
    if s != [] && s[0] == '/' then StripLeadingSlashes(s[1..]) else s
  }

  /** `f"{base.rstrip('/')}/{endpoint.lstrip('/')}"`, the join both the client and the gateway use. */
  function JoinUrl(base: string, endpoint: string): string
  {
    StripTrailingSlashes(base) + "/" + StripLeadingSlashes(endpoint)
  }

  /** The join has exactly one slash: the base keeps no trailing slash and the endpoint no leading one. */
  lemma JoinHasOneSlash(base: string, endpoint: string)
    ensures var b := StripTrailingSlashes(base);
      var url := JoinUrl(base, endpoint);
      && url[|b|] == '/'
      && (|b| == 0 || url[|b| - 1] != '/')
      && (|b| + 1 == |url| || url[|b| + 1] != '/')
      && url[..|b|] <= base
      && url[|b| + 1..] == endpoint[|endpoint| - (|url| - |b| - 1)..]
  {
  }

  lemma {:induction false} StripTrailingIdempotent(s: string)
    ensures StripTrailingSlashes(s + "/") == StripTrailingSlashes(s)
  {
    assert (s + "/")[..|s|] == s;
  }

  lemma {:induction false} StripLeadingIdempotent(s: string)
    ensures StripLeadingSlashes("/" + s) == StripLeadingSlashes(s)
  {
    assert ("/" + s)[1..] == s;
  }

  /** Extra slashes on either side of the join make no difference, and clean parts are joined as they are. */
  lemma JoinIgnoresExtraSlashes(base: string, endpoint: string)
    ensures JoinUrl(base + "/", endpoint) == JoinUrl(base, endpoint)
    ensures JoinUrl(base, "/" + endpoint) == JoinUrl(base, endpoint)
    ensures (base == [] || base[|base| - 1] != '/') && (endpoint == [] || endpoint[0] != '/') ==>
      JoinUrl(base, endpoint) == base + "/" + endpoint
  {
    StripTrailingIdempotent(base);
    StripLeadingIdempotent(endpoint);
  }

  /** `method.upper() in ["POST", "PUT", "PATCH"]`: whether `data` is sent as the JSON body. */
  predicate SendsJsonBody(verb: string)
  {
    Upper(verb) in ["POST", "PUT", "PATCH"]
  }

  lemma UpperLower(s: string)
    ensures Upper(Lower(s)) == Upper(s)
  {
    assert forall i :: 0 <= i < |s| ==> UpperChar(LowerChar(s[i])) == UpperChar(s[i]);
  }

  /** The body decision is case-insensitive: "post", "Post" and "POST" all send the body, "GET" never does. */
  lemma SendsJsonBodyCaseInsensitive(verb: string)
    ensures SendsJsonBody(Lower(verb)) == SendsJsonBody(verb)
    ensures SendsJsonBody("post") && SendsJsonBody("Patch") && !SendsJsonBody("GET")
  {
    UpperLower(verb);
    assert Upper("post") == "POST";
    assert Upper("Patch") == "PATCH";
    assert Upper("GET") == "GET";
  }

  /**
   * What the transport produced: a response (status, raw text, and the parsed
   * JSON when the body parses), or an httpx.RequestError. A timeout is one
   * kind of RequestError; `timedOut` only records which kind it was.
   */
  datatype Transport =
    | Responded(status: int, text: string, json: Option<Json>)
    | RequestFailed(reason: string, timedOut: bool)

  /** A body as call_service hands it back: parsed JSON, or the raw text when it does not parse. */
  datatype Body = JsonBody(value: Json) | TextBody(text: string)

  datatype CallOutcome =
    | Returned(body: Body)
    | ServiceHTTPError(statusCode: int, message: Body)

  /**
   * The message of an error response: the "detail" entry of a JSON object, the
   * whole object when it has none, and the raw text when the body is not JSON
   * or is JSON without a `.get` (a list, a string, a number).
   */
  function ErrorDetail(text: string, json: Option<Json>): (d: Body)
    ensures json.Some? && json.value.JObject? && "detail" in json.value.fields ==>
      d == JsonBody(json.value.fields["detail"])
    ensures json.Some? && json.value.JObject? && "detail" !in json.value.fields ==> d == JsonBody(json.value)
    ensures !(json.Some? && json.value.JObject?) ==> d == TextBody(text)
  {
    match json
    case Some(JObject(fields)) =>
      if "detail" in fields then JsonBody(fields["detail"]) else JsonBody(JObject(fields))
    case _ => TextBody(text)
  }

  /** call_service's classification of one transport outcome. */
  function Classify(t: Transport): (r: CallOutcome)
    ensures t.RequestFailed? ==> r == ServiceHTTPError(0, TextBody("RequestError: " + t.reason))
    ensures t.Responded? && t.status == 204 ==> r == Returned(JsonBody(JObject(map[])))
    ensures t.Responded? && t.status != 204 && !(200 <= t.status < 300) ==>
      r == ServiceHTTPError(t.status, ErrorDetail(t.text, t.json))
    ensures t.Responded? && t.status != 204 && 200 <= t.status < 300 ==>
      r == Returned(if t.json.Some? then JsonBody(t.json.value) else TextBody(t.text))
  {
    match t
    case RequestFailed(reason, _) => ServiceHTTPError(0, TextBody("RequestError: " + reason))
    case Responded(status, text, json) =>
      if status == 204 then Returned(JsonBody(JObject(map[])))
      else if status < 200 || status >= 300 then ServiceHTTPError(status, ErrorDetail(text, json))
      else match json
        case Some(j) => Returned(JsonBody(j))
        case None => Returned(TextBody(text))
  }

  /** 204 is checked before the error branch: it never raises, whatever the body holds. */
  lemma NoContentNeverRaises(text: string, json: Option<Json>)
    ensures Classify(Responded(204, text, json)).Returned?
  {
  }

  /**
   * For real HTTP statuses (>= 100) the error code is 0 exactly when the
   * request never got a response, and a timeout is indistinguishable from a
   * connection failure.
   */
  lemma StatusZeroMeansNoResponse(t: Transport)
    requires t.Responded? ==> t.status >= 100
    ensures (Classify(t).ServiceHTTPError? && Classify(t).statusCode == 0) <==> t.RequestFailed?
    ensures t.RequestFailed? ==> Classify(t) == Classify(RequestFailed(t.reason, !t.timedOut))
  {
  }

  /** The call raises exactly for responses outside [200, 300) other than 204, carrying that status. */
  lemma RaisesExactlyOutside2xx(status: int, text: string, json: Option<Json>)
    ensures Classify(Responded(status, text, json)).ServiceHTTPError? <==>
      status != 204 && !(200 <= status < 300)
    ensures Classify(Responded(status, text, json)).ServiceHTTPError? ==>
      Classify(Responded(status, text, json)).statusCode == status
  {
  }
}
