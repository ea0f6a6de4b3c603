/** The request pipeline of `handle_request` (src/main.rs lines 145-220):
    classify the path, read the body, rewrite the path-and-query, forward
    through the outbound client, read the upstream body, build the reply,
    and only then record a timing sample and an access log line.

    The route matcher (`Path::try_from`) and the outbound client
    (`Client::raw`) are passed in as functions; body streams are values
    that either complete or break off. What the handler does that can be
    observed besides its result is returned as a trace of effects. */
module Proxy {
  import opened Http
  import opened Routing
  import opened Rewrite

  /** A valid HTTP status code, as `http::StatusCode` guarantees. */
  type StatusCode = x: int | 100 <= x < 1000 witness 200

  /** The error kinds `handle_request` returns. */
  datatype RequestError =
    | InvalidPath          // the route matcher rejected the method and path
    | ChunkingRequest      // the request body could not be read
    | NoPath(uri: Uri)     // the URI has no path-and-query
    | RequestIssue         // the outbound client failed
    | ChunkingResponse     // the upstream body could not be read
    | MakingResponseBody   // the response builder refused the response

  /** The raw request handed to the outbound client. The form part is
      always absent in this handler and is not modelled. */
  datatype OutboundRequest = OutboundRequest(
    body: Option<Bytes>,
    headers: Option<HeaderMap>,
    verb: Method,
    path: Path,
    pathStr: string)

  /** What the outbound client returns when the upstream answered. */
  datatype UpstreamResponse = UpstreamResponse(status: StatusCode, headers: HeaderMap, body: BodyStream)

  /** The response relayed to the caller. */
  datatype Response = Response(status: StatusCode, headers: HeaderMap, body: Bytes)

  /** A timing sample's dimensions: method, route label and status. */
  datatype MetricSample = MetricSample(verb: string, route: string, status: StatusCode)

  /** What the handler does besides returning, in order. */
  datatype Effect =
    | LogPathError(path: string)                              // error! at line 167
    | ReadBody                                                 // to_bytes at line 172
    | LogNoPath(uri: Uri)                                      // debug! at line 179
    | Send(request: OutboundRequest)                           // client.raw at line 196
    | ReadUpstreamBody                                         // resp.bytes at line 201
    | Timing(sample: MetricSample)                             // timing! at line 216
    | LogServed(verb: string, route: string, status: StatusCode) // info! at line 217

  /** The metric samples among the effects, in order. */
  function Samples(effects: seq<Effect>): seq<MetricSample>
  {
    if effects == [] then []
    else (if effects[0].Timing? then [effects[0].sample] else []) + Samples(effects[1..])
  }

  /** The outbound requests among the effects, in order. */
  function Sends(effects: seq<Effect>): seq<OutboundRequest>
  {
    if effects == [] then []
    else (if effects[0].Send? then [effects[0].request] else []) + Sends(effects[1..])
  }

  lemma {:induction false} SamplesAppend(a: seq<Effect>, b: seq<Effect>)
    ensures Samples(a + b) == Samples(a) + Samples(b)
  {
    if a == [] {
      assert a + b == b;
    } else {
      assert (a + b)[0] == a[0];
      assert (a + b)[1..] == a[1..] + b;
      SamplesAppend(a[1..], b);
    }
  }

  lemma {:induction false} SendsAppend(a: seq<Effect>, b: seq<Effect>)
    ensures Sends(a + b) == Sends(a) + Sends(b)
  {
    if a == [] {
      assert a + b == b;
    } else {
      assert (a + b)[0] == a[0];
      assert (a + b)[1..] == a[1..] + b;
      SendsAppend(a[1..], b);
    }
  }

  /** `Response::builder()`: a response under construction. A builder
      call that fails leaves the builder in an error state, after which
      `headers_mut` yields nothing and `body` fails. */
  class ResponseBuilder {
    var status: StatusCode
    var headers: HeaderMap
    var failed: bool

    constructor ()
      ensures status == 200 && headers == map[] && !failed
    {
      status := 200;
      headers := map[];
      failed := false;
    }

    /** `status(code)`: a number outside the valid range puts the builder
        in the error state. */
    method SetStatus(code: int)
      modifies this
      ensures failed == (old(failed) || !(100 <= code < 1000))
      ensures status == if old(failed) || !(100 <= code < 1000) then old(status) else code
      ensures headers == old(headers)
    {
      if failed {
      } else if 100 <= code < 1000 {
        status := code;
      } else {
        failed := true;
      }
    }

    /** When the builder holds no error, its header map is extended with
        `extra` in place; in the error state nothing changes. */
    method ExtendHeadersWith(extra: HeaderMap)
      modifies this
      ensures status == old(status) && failed == old(failed)
      ensures headers == if failed then old(headers) else ExtendHeaders(old(headers), extra)
    {
      if !failed {
        headers := ExtendHeaders(headers, extra);
      }
    }

    /** `body(bytes)`: the finished response, unless a builder call failed. */
    method Body(bytes: Bytes) returns (r: Result<Response, ()>)
      ensures r.Ok? <==> !failed
      ensures r.Ok? ==> r.value == Response(status, headers, bytes)
    {
      if failed {
        r := Err(());
      } else {
        r := Ok(Response(status, headers, bytes));
      }
    }
  }

  /** The route the matcher assigns to the request's classification path. */
  function Route(matcher: (Method, string) -> Option<Path>, request: Request): Option<Path>
  {
    matcher(request.verb, ClassificationPath(request.uri.path))
  }

  /** The request reaches the outbound client: its path is routable, its
      body was read in full and its URI has a path-and-query. */
  predicate ReachesClient(matcher: (Method, string) -> Option<Path>, request: Request)
  {
    Route(matcher, request).Some? && request.body.Complete? && request.uri.pathAndQuery.Some?
  }

  /** The raw request sent upstream: the inbound method, headers and body
      unchanged, the route, and the rewritten path-and-query. */
  function Outbound(matcher: (Method, string) -> Option<Path>, request: Request): (o: OutboundRequest)
    requires ReachesClient(matcher, request)
    ensures o.verb == request.verb && o.headers == Some(request.headers)
    ensures o.body == Some(request.body.bytes)
    ensures o.path == Route(matcher, request).value
    ensures |o.pathStr| <= |request.uri.pathAndQuery.value|
    ensures o.pathStr == request.uri.pathAndQuery.value <==> !Contains(request.uri.pathAndQuery.value, ForwardPattern)
  {
    OutboundRequest(
      Some(request.body.bytes),
      Some(request.headers),
      request.verb,
      Route(matcher, request).value,
      ForwardedPath(request.uri.pathAndQuery.value))
  }

  /** The outcome of `handle_request` and what it does on the way, stage
      by stage: each stage that fails ends the request with its own error,
      and the timing sample and access log line come last. */
  function Handle(
    matcher: (Method, string) -> Option<Path>,
    client: OutboundRequest -> Result<UpstreamResponse, ()>,
    request: Request): (Result<Response, RequestError>, seq<Effect>)
  {
    var trimmed := ClassificationPath(request.uri.path);
    match matcher(request.verb, trimmed)
    case None => (Err(InvalidPath), [LogPathError(trimmed)])
    case Some(path) =>
      match Collect(request.body)
      case Err(_) => (Err(ChunkingRequest), [ReadBody])
      case Ok(bytes) =>
        match request.uri.pathAndQuery
        case None => (Err(NoPath(request.uri)), [ReadBody, LogNoPath(request.uri)])
        case Some(pathAndQuery) =>
          var raw := Outbound(matcher, request);
          match client(raw)
          case Err(_) => (Err(RequestIssue), [ReadBody, Send(raw)])
          case Ok(resp) =>
            match Collect(resp.body)
            case Err(_) => (Err(ChunkingResponse), [ReadBody, Send(raw), ReadUpstreamBody])
            case Ok(body) =>
              var m, p := MethodName(request.verb), PathName(path);
              (Ok(Response(resp.status, ExtendHeaders(map[], resp.headers), body)),
               [ReadBody, Send(raw), ReadUpstreamBody, Timing(MetricSample(m, p, resp.status)), LogServed(m, p, resp.status)])
  }

  /** `handle_request`, step by step, with the reply assembled in a
      response builder whose header map is extended in place. */
  method HandleRequest(
    matcher: (Method, string) -> Option<Path>,
    client: OutboundRequest -> Result<UpstreamResponse, ()>,
    request: Request)
    returns (result: Result<Response, RequestError>, effects: seq<Effect>)
    ensures (result, effects) == Handle(matcher, client, request)
  {
    var trimmed := ClassificationPath(request.uri.path);
    var parsed := matcher(request.verb, trimmed);
    if parsed.None? {
      return Err(InvalidPath), [LogPathError(trimmed)];
    }
    var path := parsed.value;

    effects := [ReadBody];
    var bytes := Collect(request.body);
    if bytes.Err? {
      return Err(ChunkingRequest), effects;
    }

    if request.uri.pathAndQuery.None? {
      effects := effects + [LogNoPath(request.uri)];
      assert effects == [ReadBody, LogNoPath(request.uri)];
      return Err(NoPath(request.uri)), effects;
    }
    var p := PathName(path);
    var m := MethodName(request.verb);
    var raw := Outbound(matcher, request);

    effects := effects + [Send(raw)];
    assert effects == [ReadBody, Send(raw)];
    var resp := client(raw);
    if resp.Err? {
      return Err(RequestIssue), effects;
    }
    var status := resp.value.status;
    var respHeaders := resp.value.headers;

    effects := effects + [ReadUpstreamBody];
    assert effects == [ReadBody, Send(raw), ReadUpstreamBody];
    var upstreamBytes := Collect(resp.value.body);
    if upstreamBytes.Err? {
      return Err(ChunkingResponse), effects;
    }

    var builder := new ResponseBuilder();
    builder.SetStatus(status);
    builder.ExtendHeadersWith(respHeaders);
    var built := builder.Body(upstreamBytes.value);
    // a status taken from a response is always valid, so the builder holds no error
    assert built.Ok?;
    var response := built.value;

    effects := effects + [Timing(MetricSample(m, p, response.status)), LogServed(m, p, response.status)];
    assert effects == [ReadBody, Send(raw), ReadUpstreamBody, Timing(MetricSample(m, p, status)), LogServed(m, p, status)];
    result := Ok(response);
  }

  /** What the filters pick out of each trace the handler can produce:
      the one outbound request once stages 1-3 pass, and the one sample
      once every stage has. */
  lemma {:induction false} HandleFilters(
    matcher: (Method, string) -> Option<Path>,
    client: OutboundRequest -> Result<UpstreamResponse, ()>,
    request: Request)
    ensures var (result, effects) := Handle(matcher, client, request);
      && Sends(effects) == (if ReachesClient(matcher, request) then [Outbound(matcher, request)] else [])
      && Samples(effects) ==
           if result.Ok?
           then [MetricSample(MethodName(request.verb), PathName(Route(matcher, request).value), result.value.status)]
           else []
  {
    var trimmed := ClassificationPath(request.uri.path);
    var raw := if ReachesClient(matcher, request) then Outbound(matcher, request)
               else OutboundRequest(None, None, request.verb, Path(Kind.Gateway, []), []);
    var status := if client(raw).Ok? then client(raw).value.status else 200;
    var m := MethodName(request.verb);
    var p := if Route(matcher, request).Some? then PathName(Route(matcher, request).value) else [];
    FiltersOfTraces(trimmed, request.uri, raw, MetricSample(m, p, status), LogServed(m, p, status));
  }

  /** The filters applied to the six traces the handler can produce. */
  lemma FiltersOfTraces(trimmed: string, uri: Uri, raw: OutboundRequest, sample: MetricSample, served: Effect)
    requires served.LogServed?
    ensures Sends([LogPathError(trimmed)]) == [] && Samples([LogPathError(trimmed)]) == []
    ensures Sends([ReadBody]) == [] && Samples([ReadBody]) == []
    ensures Sends([ReadBody, LogNoPath(uri)]) == [] && Samples([ReadBody, LogNoPath(uri)]) == []
    ensures Sends([ReadBody, Send(raw)]) == [raw] && Samples([ReadBody, Send(raw)]) == []
    ensures Sends([ReadBody, Send(raw), ReadUpstreamBody]) == [raw]
    ensures Samples([ReadBody, Send(raw), ReadUpstreamBody]) == []
    ensures Sends([ReadBody, Send(raw), ReadUpstreamBody, Timing(sample), served]) == [raw]
    ensures Samples([ReadBody, Send(raw), ReadUpstreamBody, Timing(sample), served]) == [sample]
  {
    var last: seq<Effect> := [Timing(sample), served];
    assert last[1..] == [served] && [served][1..] == [];
    assert Sends([served]) == [] && Samples([served]) == [];
    assert Sends(last) == [] && Samples(last) == [sample];
    var upstream: seq<Effect> := [ReadUpstreamBody];
    assert upstream[1..] == [];
    SamplesAppend(upstream, last);
    SendsAppend(upstream, last);
    assert [ReadUpstreamBody, Timing(sample), served] == upstream + last;
    var sent: seq<Effect> := [ReadBody, Send(raw)];
    assert sent[1..] == [Send(raw)] && [Send(raw)][1..] == [];
    SamplesAppend(sent, upstream);
    SendsAppend(sent, upstream);
    assert [ReadBody, Send(raw), ReadUpstreamBody] == sent + upstream;
    SamplesAppend(sent, upstream + last);
    SendsAppend(sent, upstream + last);
    assert [ReadBody, Send(raw), ReadUpstreamBody, Timing(sample), served] == sent + (upstream + last);
    assert [LogPathError(trimmed)][1..] == [];
    assert [ReadBody][1..] == [];
    assert [ReadBody, LogNoPath(uri)][1..] == [LogNoPath(uri)] && [LogNoPath(uri)][1..] == [];
  }

  /** Stage 1: a request whose path the matcher rejects fails with
      `InvalidPath` after logging its classification path; its body is
      never read and nothing is sent. */
  lemma UnroutableStopsBeforeBody(
    matcher: (Method, string) -> Option<Path>,
    client: OutboundRequest -> Result<UpstreamResponse, ()>,
    request: Request)
    ensures Handle(matcher, client, request).0 == Err(InvalidPath) <==> Route(matcher, request).None?
    ensures Route(matcher, request).None? ==>
      Handle(matcher, client, request).1 == [LogPathError(ClassificationPath(request.uri.path))]
    ensures ReadBody in Handle(matcher, client, request).1 <==> Route(matcher, request).Some?
  {
  }

  /** The error a request fails with names the first stage that failed,
      in the handler's order; the builder stage never fails. */
  lemma ErrorNamesFirstFailingStage(
    matcher: (Method, string) -> Option<Path>,
    client: OutboundRequest -> Result<UpstreamResponse, ()>,
    request: Request)
    ensures var result := Handle(matcher, client, request).0;
      && (result == Err(ChunkingRequest) <==>
            Route(matcher, request).Some? && request.body.Broken?)
      && (result == Err(NoPath(request.uri)) <==>
            Route(matcher, request).Some? && request.body.Complete? && request.uri.pathAndQuery.None?)
      && (result == Err(RequestIssue) <==>
            ReachesClient(matcher, request) && client(Outbound(matcher, request)).Err?)
      && (result == Err(ChunkingResponse) <==>
            ReachesClient(matcher, request) && client(Outbound(matcher, request)).Ok?
            && client(Outbound(matcher, request)).value.body.Broken?)
      && (result.Ok? <==>
            ReachesClient(matcher, request) && client(Outbound(matcher, request)).Ok?
            && client(Outbound(matcher, request)).value.body.Complete?)
      && (result.Err? ==> result.error != MakingResponseBody)
  {
  }

  /** Stage 4: the request is sent upstream once when stages 1-3 pass and
      never otherwise. */
  lemma ForwardedOnceWhenStagesPass(
    matcher: (Method, string) -> Option<Path>,
    client: OutboundRequest -> Result<UpstreamResponse, ()>,
    request: Request)
    ensures Sends(Handle(matcher, client, request).1) ==
      if ReachesClient(matcher, request) then [Outbound(matcher, request)] else []
  {
    HandleFilters(matcher, client, request);
  }

  /** On success the reply carries the upstream status, headers and body
      unchanged. */
  lemma RelaysUpstreamUnchanged(
    matcher: (Method, string) -> Option<Path>,
    client: OutboundRequest -> Result<UpstreamResponse, ()>,
    request: Request)
    requires Handle(matcher, client, request).0.Ok?
    ensures var upstream := client(Outbound(matcher, request)).value;
      Handle(matcher, client, request).0.value == Response(upstream.status, upstream.headers, upstream.body.bytes)
  {
    var upstream := client(Outbound(matcher, request)).value;
    assert ExtendHeaders(map[], upstream.headers) == upstream.headers;
  }

  /** The trace of a failed request holds neither a sample nor an access
      log line. */
  lemma FailureLeavesNoRecord(
    matcher: (Method, string) -> Option<Path>,
    client: OutboundRequest -> Result<UpstreamResponse, ()>,
    request: Request)
    ensures var (result, effects) := Handle(matcher, client, request);
      result.Err? ==> forall e :: e in effects ==> !e.LogServed? && !e.Timing?
  {
  }

  /** One timing sample is recorded exactly when every stage succeeded; it
      carries the method, the route's label and the relayed status, and is
      followed by the access log line with the same fields. A request that
      fails leaves neither a sample nor an access log line. */
  lemma SampleOnlyOnSuccess(
    matcher: (Method, string) -> Option<Path>,
    client: OutboundRequest -> Result<UpstreamResponse, ()>,
    request: Request)
    ensures var (result, effects) := Handle(matcher, client, request);
      && |Samples(effects)| == (if result.Ok? then 1 else 0)
      && (result.Ok? ==>
            var m, p := MethodName(request.verb), PathName(Route(matcher, request).value);
            && Samples(effects) == [MetricSample(m, p, result.value.status)]
            && effects[|effects| - 1] == LogServed(m, p, result.value.status))
      && (result.Err? ==> forall e :: e in effects ==> !e.LogServed? && !e.Timing?)
      && (forall s :: s in Samples(effects) ==> s.route in Labels)
  {
    HandleFilters(matcher, client, request);
    FailureLeavesNoRecord(matcher, client, request);
  }

  /** A route the label match does not name is forwarded all the same, and
      its sample carries the unknown label. */
  lemma UnknownRouteStillForwarded(
    matcher: (Method, string) -> Option<Path>,
    client: OutboundRequest -> Result<UpstreamResponse, ()>,
    request: Request)
    requires ReachesClient(matcher, request) && !Named(Route(matcher, request).value.kind)
    ensures Sends(Handle(matcher, client, request).1) == [Outbound(matcher, request)]
    ensures forall s :: s in Samples(Handle(matcher, client, request).1) ==> s.route == UnknownLabel
  {
    HandleFilters(matcher, client, request);
    UnknownExactlyWhenUnnamed(Route(matcher, request).value);
  }

  /** Requests whose routes differ only in their ids record samples with
      the same dimensions, so ids never reach the metric. */
  lemma SamplesIgnoreIds(
    matcher: (Method, string) -> Option<Path>,
    client: OutboundRequest -> Result<UpstreamResponse, ()>,
    r1: Request, r2: Request)
    requires Route(matcher, r1).Some? && Route(matcher, r2).Some?
    requires Route(matcher, r1).value.kind == Route(matcher, r2).value.kind
    requires r1.verb == r2.verb
    ensures forall s1, s2 ::
      s1 in Samples(Handle(matcher, client, r1).1) && s2 in Samples(Handle(matcher, client, r2).1) ==>
      s1.verb == s2.verb && s1.route == s2.route
  {
    SampleOnlyOnSuccess(matcher, client, r1);
    SampleOnlyOnSuccess(matcher, client, r2);
    LabelIgnoresIds(Route(matcher, r1).value, Route(matcher, r2).value);
  }

  /** A path that never mentions the version prefix is routed the same
      with and without the prefix in front of it. */
  lemma PrefixDoesNotChangeRoute(matcher: (Method, string) -> Option<Path>, request: Request, p: string)
    requires !Contains(p, VersionPrefix)
    ensures Route(matcher, request.(uri := request.uri.(path := VersionPrefix + p)))
         == Route(matcher, request.(uri := request.uri.(path := p)))
  {
    PrefixedAndBareClassifyAlike(p);
  }
}
