/** The CORS middleware of the n8n HTTP server: the response headers it
    sets from the request's `Origin` and preflight headers, and whether it
    ends a preflight with 204 or passes the request on. */
module Cors {
  import opened Wrappers

  /** The parts of the incoming request the middleware reads: its method
      and the `origin`, `access-control-request-headers` and
      `access-control-request-method` headers, when present. */
  datatype Incoming = Incoming(
    verb: string,
    origin: Option<string>,
    requestHeaders: Option<string>,
    requestMethod: Option<string>)

  /** What the middleware does to the exchange, in order: a header write,
      a status, ending the response, or calling `next`. */
  datatype Event = SetHeader(name: HeaderName, value: string) | SetStatus(code: nat) | End | Next

  /** The response headers the middleware writes. */
  datatype HeaderName =
    | AllowOrigin | Vary | AllowCredentials | AllowMethods | AllowHeaders | MaxAge | ExposeHeaders

  /** The name each header is sent under. */
  function WireName(h: HeaderName): string {
    match h
    case AllowOrigin => "Access-Control-Allow-Origin"
    case Vary => "Vary"
    case AllowCredentials => "Access-Control-Allow-Credentials"
    case AllowMethods => "Access-Control-Allow-Methods"
    case AllowHeaders => "Access-Control-Allow-Headers"
    case MaxAge => "Access-Control-Max-Age"
    case ExposeHeaders => "Access-Control-Expose-Headers"
  }

  /** Distinct headers go out under distinct names, so a map keyed by
      HeaderName holds what the response's header table holds. */
  lemma WireNamesDistinct(h1: HeaderName, h2: HeaderName)
    ensures WireName(h1) == WireName(h2) <==> h1 == h2
  {
  }

  const DefaultMethods: string := "GET, POST, OPTIONS, PUT, PATCH, DELETE"
  const DefaultHeaders: string :=
    "Origin, X-Requested-With, Content-Type, Accept, Authorization, push-ref, browser-id, anonymousid"
  const ExposedList: string := "Content-Length, Content-Type, Date, ETag"
  const OneDay: string := "86400"

  /** `v ?? fallback`: only an absent value falls back; "" is kept. */
  function Coalesce(v: Option<string>, fallback: string): (r: string)
    ensures v.Some? ==> r == v.value
    ensures v.None? ==> r == fallback
  {
    match v
    case Some(s) => s
    case None => fallback
  }

  /** `if (origin)`: present and non-empty. */
  predicate HasOrigin(req: Incoming) {
    req.origin.Some? && req.origin.value != ""
  }

  predicate IsPreflight(req: Incoming) {
    req.verb == "OPTIONS"
  }

  /** The writes that depend on the origin, in order. */
  function OriginWrites(req: Incoming): seq<Event> {
    if HasOrigin(req) then
      [SetHeader(AllowOrigin, req.origin.value), SetHeader(Vary, "Origin"), SetHeader(AllowCredentials, "true")]
    else [SetHeader(AllowOrigin, "*")]
  }

  /** The writes made on every request, in order. */
  function PolicyWrites(req: Incoming): seq<Event> {
    [ SetHeader(AllowMethods, Coalesce(req.requestMethod, DefaultMethods)),
      SetHeader(AllowHeaders, Coalesce(req.requestHeaders, DefaultHeaders)),
      SetHeader(MaxAge, OneDay),
      SetHeader(ExposeHeaders, ExposedList) ]
  }

  /** The header writes, in the order the middleware makes them. */
  function HeaderWrites(req: Incoming): seq<Event> {
    OriginWrites(req) + PolicyWrites(req)
  }

  /** How the middleware finishes: a preflight is answered with 204 and
      ended; anything else is passed on. */
  function Finish(req: Incoming): seq<Event> {
    if IsPreflight(req) then [SetStatus(204), End] else [Next]
  }

  /** Everything the middleware does, in order. */
  function CorsEvents(req: Incoming): seq<Event> {
    HeaderWrites(req) + Finish(req)
  }

  function OriginHeaders(req: Incoming): map<HeaderName, string> {
    if HasOrigin(req) then map[AllowOrigin := req.origin.value, Vary := "Origin", AllowCredentials := "true"]
    else map[AllowOrigin := "*"]
  }

  function PolicyHeaders(req: Incoming): map<HeaderName, string> {
    map[AllowMethods := Coalesce(req.requestMethod, DefaultMethods),
        AllowHeaders := Coalesce(req.requestHeaders, DefaultHeaders),
        MaxAge := OneDay,
        ExposeHeaders := ExposedList]
  }

  /** The headers the middleware leaves set, as a map. */
  function CorsHeaders(req: Incoming): map<HeaderName, string> {
    OriginHeaders(req) + PolicyHeaders(req)
  }

  /** Every header written is in the map, with the value written last
      (each header is written once, so that is the value written). */
  lemma WrittenHeadersInMap(req: Incoming)
    ensures forall e :: e in HeaderWrites(req) ==>
              e.SetHeader? && e.name in CorsHeaders(req) && CorsHeaders(req)[e.name] == e.value
  {
    var o, p := OriginWrites(req), PolicyWrites(req);
    forall e | e in HeaderWrites(req)
      ensures e.SetHeader? && e.name in CorsHeaders(req) && CorsHeaders(req)[e.name] == e.value
    {
      if e in p {
        assert e.name in PolicyHeaders(req);
      } else {
        assert e in o;
        assert e.name !in PolicyHeaders(req);
      }
    }
  }

  /** Every header in the map was written. */
  lemma MapHeadersWritten(req: Incoming)
    ensures forall n :: n in CorsHeaders(req) ==> SetHeader(n, CorsHeaders(req)[n]) in HeaderWrites(req)
  {
    var w := HeaderWrites(req);
    forall n | n in CorsHeaders(req) ensures SetHeader(n, CorsHeaders(req)[n]) in w {
      if n in PolicyHeaders(req) {
        assert SetHeader(n, CorsHeaders(req)[n]) in PolicyWrites(req);
      } else {
        assert SetHeader(n, CorsHeaders(req)[n]) in OriginWrites(req);
      }
    }
  }

  /** No header is written twice. */
  lemma NoHeaderWrittenTwice(req: Incoming)
    ensures forall i, j :: 0 <= i < j < |HeaderWrites(req)| ==> HeaderWrites(req)[i].name != HeaderWrites(req)[j].name
  {
  }

  /** A request with an origin gets that origin reflected, `Vary: Origin`
      and credentials allowed; one without an origin (absent or empty) gets
      `*` and neither `Vary` nor the credentials header. */
  lemma OriginPolicy(req: Incoming)
    ensures HasOrigin(req) ==>
              && CorsHeaders(req)[AllowOrigin] == req.origin.value
              && CorsHeaders(req)[Vary] == "Origin"
              && CorsHeaders(req)[AllowCredentials] == "true"
    ensures !HasOrigin(req) ==>
              && CorsHeaders(req)[AllowOrigin] == "*"
              && Vary !in CorsHeaders(req)
              && AllowCredentials !in CorsHeaders(req)
  {
  }

  /** The preflight headers are echoed whenever present, even when empty;
      only absent ones fall back to the default lists. Max-Age and the
      exposed headers are set on every request. */
  lemma EchoedPreflightHeaders(req: Incoming)
    ensures req.requestMethod.Some? ==> CorsHeaders(req)[AllowMethods] == req.requestMethod.value
    ensures req.requestMethod.None? ==> CorsHeaders(req)[AllowMethods] == DefaultMethods
    ensures req.requestHeaders.Some? ==> CorsHeaders(req)[AllowHeaders] == req.requestHeaders.value
    ensures req.requestHeaders.None? ==> CorsHeaders(req)[AllowHeaders] == DefaultHeaders
    ensures CorsHeaders(req)[MaxAge] == "86400"
    ensures CorsHeaders(req)[ExposeHeaders] == "Content-Length, Content-Type, Date, ETag"
  {
  }

  /** A preflight is answered with 204 and ended, and `next` is never
      called; any other request calls `next` exactly once, as the last
      thing, after every header is set. */
  lemma PreflightOrNext(req: Incoming)
    ensures var ev := CorsEvents(req);
            && (IsPreflight(req) ==> Next !in ev && ev[|ev| - 2..] == [SetStatus(204), End])
            && (!IsPreflight(req) ==>
                  && ev[|ev| - 1] == Next
                  && (forall i :: 0 <= i < |ev| - 1 ==> ev[i].SetHeader?)
                  && SetStatus(204) !in ev && End !in ev)
  {
    var w := HeaderWrites(req);
    assert forall e :: e in w ==> e.SetHeader?;
    var ev := CorsEvents(req);
    if IsPreflight(req) {
      assert ev[|ev| - 2..] == [SetStatus(204), End];
    } else {
      forall i | 0 <= i < |ev| - 1 ensures ev[i].SetHeader? {
        assert ev[i] == w[i];
      }
    }
  }

  /** The response as the middleware sees it: its headers, status, whether
      it was ended, and the trace of what was done to it (calling `next`
      included). */
  class Exchange {
    var headers: map<HeaderName, string>
    var status: nat
    var ended: bool
    var events: seq<Event>

    constructor ()
      ensures headers == map[] && status == 200 && !ended && events == []
    {
      headers := map[];
      status := 200;
      ended := false;
      events := [];
    }

    /** `res.header(name, value)` */
    method Header(name: HeaderName, value: string)
      modifies this
      ensures headers == old(headers)[name := value]
      ensures events == old(events) + [SetHeader(name, value)]
      ensures status == old(status) && ended == old(ended)
    {
      headers := headers[name := value];
      events := events + [SetHeader(name, value)];
    }

    /** `res.status(code)` */
    method Status(code: nat)
      modifies this
      ensures status == code
      ensures events == old(events) + [SetStatus(code)]
      ensures headers == old(headers) && ended == old(ended)
    {
      status := code;
      events := events + [SetStatus(code)];
    }

    /** `res.end()` */
    method End()
      modifies this
      ensures ended
      ensures events == old(events) + [Event.End]
      ensures headers == old(headers) && status == old(status)
    {
      ended := true;
      events := events + [Event.End];
    }

    /** `next()`: the request goes on to the next handler. */
    method Next()
      modifies this
      ensures events == old(events) + [Event.Next]
      ensures headers == old(headers) && status == old(status) && ended == old(ended)
    {
      events := events + [Event.Next];
    }
  }

  /** corsMiddleware: the header writes, then 204 and end for a preflight
      or `next` for anything else. */
  method CorsMiddleware(req: Incoming, res: Exchange)
    modifies res
    ensures res.events == old(res.events) + CorsEvents(req)
    ensures res.headers == old(res.headers) + CorsHeaders(req)
    ensures res.status == (if IsPreflight(req) then 204 else old(res.status))
    ensures res.ended == (old(res.ended) || IsPreflight(req))
  {
    WriteOriginHeaders(req, res);
    WritePolicyHeaders(req, res);
    if req.verb == "OPTIONS" {
      res.Status(204);
      res.End();
      return;
    }
    res.Next();
  }

  /** The writes that depend on `origin`. */
  method WriteOriginHeaders(req: Incoming, res: Exchange)
    modifies res
    ensures res.events == old(res.events) + OriginWrites(req)
    ensures res.headers == old(res.headers) + OriginHeaders(req)
    ensures res.status == old(res.status) && res.ended == old(res.ended)
  {
    var origin := req.origin;
    if origin.Some? && origin.value != "" {
      res.Header(AllowOrigin, origin.value);
      res.Header(Vary, "Origin");
      res.Header(AllowCredentials, "true");
    } else {
      res.Header(AllowOrigin, "*");
    }
  }

  /** The methods, headers, max-age and exposed-headers writes. */
  method WritePolicyHeaders(req: Incoming, res: Exchange)
    modifies res
    ensures res.events == old(res.events) + PolicyWrites(req)
    ensures res.headers == old(res.headers) + PolicyHeaders(req)
    ensures res.status == old(res.status) && res.ended == old(res.ended)
  {
    res.Header(AllowMethods, Coalesce(req.requestMethod, DefaultMethods));
    res.Header(AllowHeaders, Coalesce(req.requestHeaders, DefaultHeaders));
    res.Header(MaxAge, OneDay);
    res.Header(ExposeHeaders, ExposedList);
  }
}
