/**
 * The HTTP session the pools share, reduced to what the pools can observe:
 * a mutable map of persistent headers and the sequence of requests issued
 * so far. Responses are opaque and are not modelled.
 */
module Transport {
  import opened Wrappers

  /** A URL as its path segments, left to right; `urljoin` is concatenation. */
  type Url = seq<string>

  /** A field value of a request item; a JSON null reads as Python's None. */
  datatype Value = Null | Str(s: string)

  /** A request item: the dict that is serialised as the request body. */
  type Item = map<string, Value>

  /** A query parameter; a sequence value expands to a repeated parameter. */
  datatype ParamValue = One(v: string) | Many(vs: seq<string>)

  type Params = map<string, ParamValue>

  /** Multipart file parts, by form field name. */
  type Files = map<string, string>

  type Headers = map<string, string>

  datatype Verb = GET | POST | PUT | DELETE

  datatype Body = NoBody | JsonBody(item: Item) | MultipartBody(data: Item, files: Files)

  /** One request as it leaves the session, with the persistent headers it carries. */
  datatype Request = Request(verb: Verb, url: Url, params: Option<Params>, body: Body, headers: Headers)

  /** The one exception the core raises itself: `dict.pop` of a missing key. */
  datatype Error = KeyError(key: string)

  class Session {
    var headers: Headers
    var log: seq<Request>

    /** A new session starts with the transport library's own default headers. */
    constructor (defaults: Headers)
      ensures headers == defaults && log == []
    {
      headers := defaults;
      log := [];
    }

    /** Issue one request: it carries the current persistent headers, which it leaves alone. */
    method Send(verb: Verb, url: Url, params: Option<Params>, body: Body)
      modifies this
      ensures headers == old(headers)
      ensures log == old(log) + [Request(verb, url, params, body, old(headers))]
    {
      log := log + [Request(verb, url, params, body, headers)];
    }
  }
}
