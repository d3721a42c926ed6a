/**
 * The API gateway (services/api-gateway/main.py): the ordered route table,
 * first-match prefix routing, and the proxy that forwards a request to the
 * chosen service and relays or maps what comes back.
 */
module Gateway {
  import opened Wrappers
  import HttpClient

  datatype Route = Route(prefix: string, serviceUrl: string)

  // The default service URLs (the environment variables are not set).
  const AUTH_SERVICE_URL: string := "http://auth-service:8000"
  const CUSTOMER_SERVICE_URL: string := "http://customer-service:8000"
  const ROOM_SERVICE_URL: string := "http://room-service:8000"
  const BOOKING_SERVICE_URL: string := "http://booking-service:8000"
  const PAYMENT_SERVICE_URL: string := "http://payment-service:8000"
  const REPORT_SERVICE_URL: string := "http://report-service:8000"

  /** SERVICE_ROUTES, in declaration order (the order the routing loop visits them). */
  const SERVICE_ROUTES: seq<Route> := [
    Route("/auth", AUTH_SERVICE_URL),
    Route("/customers", CUSTOMER_SERVICE_URL),
    Route("/rooms", ROOM_SERVICE_URL),
    Route("/bookings", BOOKING_SERVICE_URL),
    Route("/payments", PAYMENT_SERVICE_URL),
    Route("/reports", REPORT_SERVICE_URL)
  ]

  /**
   * The routing rule: the service URL of the first route, in table order,
   * whose prefix starts the path (a raw string prefix, no segment boundary);
   * None when no prefix does.
   */
  function ServiceUrlFor(routes: seq<Route>, path: string): (r: Option<string>)
    ensures r.None? <==> forall i :: 0 <= i < |routes| ==> !(routes[i].prefix <= path)
    ensures r.Some? ==> exists i :: (0 <= i < |routes| && routes[i].prefix <= path
      && r.value == routes[i].serviceUrl
      && forall j :: 0 <= j < i ==> !(routes[j].prefix <= path))
  {
    if routes == [] then None
    else if routes[0].prefix <= path then Some(routes[0].serviceUrl)
    else
      var r := ServiceUrlFor(routes[1..], path);
      assert forall i :: 1 <= i < |routes| ==> routes[i] == routes[1..][i - 1];
      r
  }

  /** get_service_url: the loop over SERVICE_ROUTES that returns at the first matching prefix. */
  method GetServiceUrl(path: string) returns (r: Option<string>)
    ensures r == ServiceUrlFor(SERVICE_ROUTES, path)
    ensures r.None? <==> forall i :: 0 <= i < |SERVICE_ROUTES| ==> !(SERVICE_ROUTES[i].prefix <= path)
  {
    var routes := SERVICE_ROUTES;
    for i := 0 to |routes|
      invariant forall j :: 0 <= j < i ==> !(routes[j].prefix <= path)
    {
      if routes[i].prefix <= path {
        return Some(routes[i].serviceUrl);
      }
    }
    return None;
  }

  /** Two prefixes of the same path are comparable: the shorter is a prefix of the longer. */
  lemma PrefixesOfSamePath(a: string, b: string, path: string)
    requires a <= path && b <= path && |a| <= |b|
    ensures a <= b
  {
    assert forall k :: 0 <= k < |a| ==> a[k] == path[k] == b[k];
  }

  /** No prefix in SERVICE_ROUTES is a prefix of another. */
  lemma RoutePrefixesIndependent()
    ensures forall i, j :: 0 <= i < |SERVICE_ROUTES| && 0 <= j < |SERVICE_ROUTES| && i != j ==>
      !(SERVICE_ROUTES[i].prefix <= SERVICE_ROUTES[j].prefix)
  {
    var p := seq(|SERVICE_ROUTES|, i requires 0 <= i < |SERVICE_ROUTES| => SERVICE_ROUTES[i].prefix);
    assert p == ["/auth", "/customers", "/rooms", "/bookings", "/payments", "/reports"];
    // Every prefix is told apart from every other one by its second or third character.
    assert p[0][1] == 'a' && p[1][1] == 'c' && p[2][1] == 'r' && p[3][1] == 'b' && p[4][1] == 'p' && p[5][1] == 'r';
    assert p[2][2] == 'o' && p[5][2] == 'e';
    forall i, j | 0 <= i < |p| && 0 <= j < |p| && i != j
      ensures !(p[i] <= p[j])
    {
      if p[i][1] != p[j][1] {
        assert p[i][1] != p[j][1];
      } else {
        assert p[i][2] != p[j][2];
      }
    }
  }

  /**
   * At most one route matches any path, so the first match is the only match:
   * the routing result does not depend on the order of the table.
   */
  lemma RoutingIsOrderIndependent(path: string, i: int)
    requires 0 <= i < |SERVICE_ROUTES| && SERVICE_ROUTES[i].prefix <= path
    ensures forall j :: 0 <= j < |SERVICE_ROUTES| && j != i ==> !(SERVICE_ROUTES[j].prefix <= path)
    ensures ServiceUrlFor(SERVICE_ROUTES, path) == Some(SERVICE_ROUTES[i].serviceUrl)
  {
    RoutePrefixesIndependent();
    forall j | 0 <= j < |SERVICE_ROUTES| && j != i
      ensures !(SERVICE_ROUTES[j].prefix <= path)
    {
      if SERVICE_ROUTES[j].prefix <= path {
        var a, b := SERVICE_ROUTES[i].prefix, SERVICE_ROUTES[j].prefix;
        if |a| <= |b| { PrefixesOfSamePath(a, b, path); } else { PrefixesOfSamePath(b, a, path); }
      }
    }
  }

  /** Matching is on the raw string: "/roomsX" goes to the room service; "/api/rooms" matches nothing. */
  lemma RawPrefixExamples()
    ensures ServiceUrlFor(SERVICE_ROUTES, "/roomsX") == Some(ROOM_SERVICE_URL)
    ensures ServiceUrlFor(SERVICE_ROUTES, "/bookings/available-rooms") == Some(BOOKING_SERVICE_URL)
  {
    assert SERVICE_ROUTES[2].prefix <= "/roomsX";
    RoutingIsOrderIndependent("/roomsX", 2);
    assert SERVICE_ROUTES[3].prefix <= "/bookings/available-rooms";
    RoutingIsOrderIndependent("/bookings/available-rooms", 3);
  }

  /** The bundled frontend calls "/api/...": no route prefix matches any such path. */
  lemma ApiPathsAreUnrouted(rest: string)
    ensures ServiceUrlFor(SERVICE_ROUTES, "/api/" + rest).None?
  {
    var path := "/api/" + rest;
    assert path[1] == 'a' && path[2] == 'p';
    forall i | 0 <= i < |SERVICE_ROUTES|
      ensures !(SERVICE_ROUTES[i].prefix <= path)
    {
      var p := SERVICE_ROUTES[i].prefix;
      assert i == 0 ==> p[2] == 'u';
      assert i != 0 ==> p[1] != 'a';
    }
  }

  // ----- The proxy -----

  /**
   * An incoming request. Header names are the lower-cased keys Starlette's
   * case-insensitive `request.headers.get` looks up; `jsonBody` is what
   * `request.json()` parses, None when the body is not JSON.
   */
  datatype Request = Request(verb: string, headers: map<string, string>, query: string,
                             rawBody: string, jsonBody: Option<Json>)

  datatype ForwardBody = NoBody | JsonPayload(value: Json) | RawPayload(raw: string)

  /** The request the gateway sends downstream. */
  datatype Outbound = Outbound(verb: string, url: string, headers: map<string, string>,
                               query: string, body: ForwardBody)

  /** What the downstream call produced (an oracle for the httpx client). */
  datatype Downstream =
    | Replied(status: int, headers: map<string, string>, text: string, json: Option<Json>)
    | TimedOut
    | ConnectFailed
    | OtherFailure(reason: string)

  datatype GatewayReply =
    | Relay(status: int, content: Json, headers: map<string, string>)
    | Raised(status: int, detail: string)

  /** The outbound request (None when none was sent) and the reply the client gets. */
  datatype Proxied = Proxied(sent: Option<Outbound>, reply: GatewayReply)

  predicate HasBodyVerb(verb: string)
  {
    verb == "POST" || verb == "PUT" || verb == "PATCH"
  }

  /**
   * The body read before forwarding: only for POST/PUT/PATCH; JSON if it
   * parses, raw otherwise. A body that is the JSON literal `null` parses to
   * None, and `json=None` sends no body at all.
   */
  function ReadBody(req: Request): (b: ForwardBody)
    ensures b.NoBody? <==> !HasBodyVerb(req.verb) || req.jsonBody == Some(JNull)
    ensures b.JsonPayload? <==> HasBodyVerb(req.verb) && req.jsonBody.Some? && req.jsonBody.value != JNull
    ensures b.JsonPayload? ==> b.value == req.jsonBody.value
    ensures b.RawPayload? <==> HasBodyVerb(req.verb) && req.jsonBody.None?
    ensures b.RawPayload? ==> b.raw == req.rawBody
  {
    if !HasBodyVerb(req.verb) then NoBody
    else if req.jsonBody == Some(JNull) then NoBody
    else if req.jsonBody.Some? then JsonPayload(req.jsonBody.value)
    else RawPayload(req.rawBody)
  }

  /** (name sent downstream, lower-cased name looked up in the incoming request) */
  const FORWARDED_HEADERS: seq<(string, string)> := [("Content-Type", "content-type"), ("Accept", "accept")]

  /** The incoming request carries a non-empty value for this header. */
  predicate Carries(incoming: map<string, string>, key: string)
  {
    key in incoming && incoming[key] != ""
  }

  function CopyIfPresent(h: map<string, string>, incoming: map<string, string>, name: string, key: string): map<string, string>
  {
    if Carries(incoming, key) then h[name := incoming[key]] else h
  }

  function CopyEach(h: map<string, string>, incoming: map<string, string>, names: seq<(string, string)>): map<string, string>
    decreases |names|
  {
    if names == [] then h
    else CopyEach(CopyIfPresent(h, incoming, names[0].0, names[0].1), incoming, names[1..])
  }

  predicate IsForwardedName(k: string)
  {
    k == "Authorization" || k == "Content-Type" || k == "Accept"
  }

  /**
   * The headers sent downstream: the explicit `headers` argument, then
   * Authorization, Content-Type and Accept copied from the request when they
   * carry a non-empty value. Nothing else of the request is forwarded.
   */
  function ForwardedHeaders(extra: Option<map<string, string>>, incoming: map<string, string>): (h: map<string, string>)
    ensures forall k :: k in h ==> IsForwardedName(k) || (extra.Some? && k in extra.value)
    ensures forall k :: extra.Some? && k in extra.value && !IsForwardedName(k) ==> k in h && h[k] == extra.value[k]
    ensures Carries(incoming, "authorization") ==> "Authorization" in h && h["Authorization"] == incoming["authorization"]
    ensures Carries(incoming, "content-type") ==> "Content-Type" in h && h["Content-Type"] == incoming["content-type"]
    ensures Carries(incoming, "accept") ==> "Accept" in h && h["Accept"] == incoming["accept"]
    ensures extra.None? && !Carries(incoming, "authorization") ==> "Authorization" !in h
    ensures extra.None? && !Carries(incoming, "content-type") ==> "Content-Type" !in h
    ensures extra.None? && !Carries(incoming, "accept") ==> "Accept" !in h
  {
    var base := if extra.Some? then extra.value else map[];
    var h1 := CopyIfPresent(base, incoming, "Authorization", "authorization");
    var h2 := CopyIfPresent(h1, incoming, "Content-Type", "content-type");
    var h3 := CopyIfPresent(h2, incoming, "Accept", "accept");
    assert CopyEach(h1, incoming, FORWARDED_HEADERS) == h3 by {
      var fh := FORWARDED_HEADERS;
      assert fh[0] == ("Content-Type", "content-type") && fh[1..][0] == ("Accept", "accept");
      assert fh[1..][1..] == [];
      assert CopyEach(h1, incoming, fh) == CopyEach(h2, incoming, fh[1..]);
      assert CopyEach(h2, incoming, fh[1..]) == CopyEach(h3, incoming, fh[1..][1..]);
    }
    CopyEach(h1, incoming, FORWARDED_HEADERS)
  }

  /** proxy_request's header loop: Authorization first, then the two whitelisted names in order. */
  method BuildForwardHeaders(extra: Option<map<string, string>>, incoming: map<string, string>)
    returns (h: map<string, string>)
    ensures h == ForwardedHeaders(extra, incoming)
  {
    h := map[];
    if extra.Some? {
      h := extra.value;
    }
    if "authorization" in incoming && incoming["authorization"] != "" {
      h := h["Authorization" := incoming["authorization"]];
    }
    var names := FORWARDED_HEADERS;
    for i := 0 to |names|
      invariant CopyEach(h, incoming, names[i..]) == ForwardedHeaders(extra, incoming)
    {
      assert names[i..][1..] == names[i + 1..];
      var (name, key) := names[i];
      if key in incoming && incoming[key] != "" {
        h := h[name := incoming[key]];
      }
    }
  }

  predicate IsProxiedVerb(verb: string)
  {
    verb == "GET" || verb == "POST" || verb == "PUT" || verb == "PATCH" || verb == "DELETE"
  }

  /** How the reply is built from what the downstream call produced. */
  function ReplyFor(d: Downstream): (reply: GatewayReply)
    ensures d.TimedOut? ==> reply == Raised(504, "Gateway timeout - Service did not respond in time")
    ensures d.ConnectFailed? ==> reply == Raised(503, "Service unavailable - Cannot connect to backend service")
    ensures d.OtherFailure? ==> reply.Raised? && reply.status == 500
    ensures d.Replied? ==> reply.Relay? && reply.status == d.status
    ensures d.Replied? && d.json.Some? ==> reply.content == d.json.value && reply.headers == d.headers
    ensures d.Replied? && d.json.None? ==> reply.content == JObject(map["detail" := JString(d.text)])
  {
    match d
    case TimedOut => Raised(504, "Gateway timeout - Service did not respond in time")
    case ConnectFailed => Raised(503, "Service unavailable - Cannot connect to backend service")
    case OtherFailure(reason) => Raised(500, "Gateway error: " + reason)
    case Replied(status, headers, text, json) =>
      if json.Some? then Relay(status, json.value, headers)
      else Relay(status, JObject(map["detail" := JString(text)]), map[])
  }

  /**
   * What httpx raises for `json=<bytes>`: the raw-body fallback cannot be
   * encoded as JSON, so the request is never sent.
   */
  const BYTES_NOT_JSON: string := "Object of type bytes is not JSON serializable"

  /**
   * proxy_request. A verb outside GET/POST/PUT/PATCH/DELETE raises 405 inside
   * the `try`, where the final `except Exception` turns it into a 500 and no
   * request is sent. A POST/PUT/PATCH whose body is not JSON (an empty body
   * included) falls back to the raw bytes, which are passed as `json=`; the
   * encoder raises before sending, and that too ends in the final 500.
   * Otherwise the request goes to the single-slash join of the service URL
   * and the path, and `downstream` is its outcome.
   */
  function ProxyRequest(serviceUrl: string, path: string, req: Request,
                        extra: Option<map<string, string>>, downstream: Downstream): (p: Proxied)
    ensures !IsProxiedVerb(req.verb) ==> p.sent.None? && p.reply.Raised? && p.reply.status == 500
    ensures HasBodyVerb(req.verb) && req.jsonBody.None? ==>
      p == Proxied(None, Raised(500, "Gateway error: " + BYTES_NOT_JSON))
    ensures p.sent.Some? <==> IsProxiedVerb(req.verb) && !(HasBodyVerb(req.verb) && req.jsonBody.None?)
    ensures p.sent.Some? ==> p.reply == ReplyFor(downstream)
    ensures p.sent.Some? ==>
      && p.sent.value.url == HttpClient.JoinUrl(serviceUrl, path)
      && p.sent.value.verb == req.verb
      && p.sent.value.query == req.query
      && p.sent.value.headers == ForwardedHeaders(extra, req.headers)
      && p.sent.value.body == ReadBody(req)
      && !p.sent.value.body.RawPayload?
  {
    if !IsProxiedVerb(req.verb) then
      Proxied(None, Raised(500, "Gateway error: 405: Method " + req.verb + " not allowed"))
    else
      var body := ReadBody(req);
      if body.RawPayload? then
        Proxied(None, Raised(500, "Gateway error: " + BYTES_NOT_JSON))
      else
        var out := Outbound(req.verb, HttpClient.JoinUrl(serviceUrl, path), ForwardedHeaders(extra, req.headers),
                            req.query, body);
        Proxied(Some(out), ReplyFor(downstream))
  }

  /** A PUT with an empty body is answered 500 by the gateway and never reaches the service. */
  lemma EmptyPutIsGatewayError(serviceUrl: string, path: string, req: Request,
                               extra: Option<map<string, string>>, downstream: Downstream)
    requires req.verb == "PUT" && req.rawBody == "" && req.jsonBody.None?
    ensures ProxyRequest(serviceUrl, path, req, extra, downstream).sent.None?
    ensures ProxyRequest(serviceUrl, path, req, extra, downstream).reply.Raised?
    ensures ProxyRequest(serviceUrl, path, req, extra, downstream).reply.status == 500
  {
    assert HasBodyVerb(req.verb);
  }

  /**
   * gateway_proxy: `path` is the catch-all path parameter (no leading slash).
   * The route accepts only GET/POST/PUT/PATCH/DELETE: any other verb is
   * refused with 405 before the handler runs. The route is chosen on
   * "/" + path; no match is 404 with no downstream call; a match forwards
   * the whole path, prefix included.
   */
  function GatewayProxy(path: string, req: Request, downstream: Downstream): (p: Proxied)
    ensures !IsProxiedVerb(req.verb) ==> p == Proxied(None, Raised(405, "Method Not Allowed"))
    ensures IsProxiedVerb(req.verb) && ServiceUrlFor(SERVICE_ROUTES, "/" + path).None? ==>
      p == Proxied(None, Raised(404, "No service found for path: /" + path))
    ensures IsProxiedVerb(req.verb) && ServiceUrlFor(SERVICE_ROUTES, "/" + path).Some? ==>
      p == ProxyRequest(ServiceUrlFor(SERVICE_ROUTES, "/" + path).value, path, req, None, downstream)
    ensures p.sent.Some? ==>
      && ServiceUrlFor(SERVICE_ROUTES, "/" + path).Some?
      && p.sent.value.url == HttpClient.JoinUrl(ServiceUrlFor(SERVICE_ROUTES, "/" + path).value, path)
  {
    if !IsProxiedVerb(req.verb) then Proxied(None, Raised(405, "Method Not Allowed"))
    else
      match ServiceUrlFor(SERVICE_ROUTES, "/" + path)
      case None => Proxied(None, Raised(404, "No service found for path: /" + path))
      case Some(url) => ProxyRequest(url, path, req, None, downstream)
  }

  /** The path is forwarded unstripped: "rooms/5" goes to the room service as ".../rooms/5". */
  lemma ForwardsWholePath(req: Request, downstream: Downstream)
    requires req.verb == "GET"
    ensures var p := GatewayProxy("rooms/5", req, downstream);
      p.sent.Some? && p.sent.value.url == "http://room-service:8000/rooms/5"
  {
    var path := "rooms/5";
    var full := "/" + path;
    assert full == "/rooms/5";
    assert SERVICE_ROUTES[2].prefix == "/rooms";
    assert SERVICE_ROUTES[2].prefix <= full;
    RoutingIsOrderIndependent(full, 2);
    RoomJoin();
  }

  lemma RoomJoin()
    ensures HttpClient.JoinUrl(ROOM_SERVICE_URL, "rooms/5") == "http://room-service:8000/rooms/5"
  {
    var path := "rooms/5";
    assert ROOM_SERVICE_URL[|ROOM_SERVICE_URL| - 1] == '0' && path[0] == 'r';
    HttpClient.JoinIgnoresExtraSlashes(ROOM_SERVICE_URL, path);
  }
}
