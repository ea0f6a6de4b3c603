/** Value types of the HTTP layer the proxy sees: methods, header maps,
    bodies and request URIs, plus the Result type used for every fallible
    step of the request pipeline. */
module Http {

  datatype Result<T, E> = Ok(value: T) | Err(error: E)

  newtype Byte = x: int | 0 <= x < 256

  type Bytes = seq<Byte>

  /** An HTTP method; `Extension` holds any method outside the standard nine. */
  datatype Method =
    | Options | Get | Post | Put | Delete | Head | Trace | Connect | Patch
    | Extension(name: string)

  /** The text a method prints as (`method.to_string()`). */
  function MethodName(m: Method): string
  {
    match m
    case Options => "OPTIONS"
    case Get => "GET"
    case Post => "POST"
    case Put => "PUT"
    case Delete => "DELETE"
    case Head => "HEAD"
    case Trace => "TRACE"
    case Connect => "CONNECT"
    case Patch => "PATCH"
    case Extension(name) => name
  }

  /** A header multimap: each header name maps to all of its values, in order. */
  type HeaderMap = map<string, seq<string>>

  /** `HeaderMap::extend` with another map: every name present in `extra`
      has all of its old values replaced by the values in `extra`; names
      absent from `extra` keep theirs. */
  function ExtendHeaders(base: HeaderMap, extra: HeaderMap): (r: HeaderMap)
    ensures r.Keys == base.Keys + extra.Keys
    ensures forall name :: name in extra ==> r[name] == extra[name]
    ensures forall name :: name in base && name !in extra ==> r[name] == base[name]
  {
    base + extra
  }

  /** A body stream: it either yields all of its bytes or breaks off. */
  datatype BodyStream = Complete(bytes: Bytes) | Broken

  /** `hyper::body::to_bytes` / `Response::bytes`: collect the whole stream. */
  function Collect(body: BodyStream): (r: Result<Bytes, ()>)
    ensures r.Ok? <==> body.Complete?
    ensures r.Ok? ==> r.value == body.bytes
  {
    match body
    case Complete(bytes) => Ok(bytes)
    case Broken => Err(())
  }

  /** What the request URI reports: its path (`uri.path()`) and, when the
      URI has one, its path-and-query text (`uri.path_and_query()`). */
  datatype Uri = Uri(path: string, pathAndQuery: Option<string>)

  datatype Option<T> = None | Some(value: T)

  /** An inbound request, split into the parts the handler destructures. */
  datatype Request = Request(verb: Method, uri: Uri, headers: HeaderMap, body: BodyStream)
}
