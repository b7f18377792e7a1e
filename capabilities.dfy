/**
 * The six capability mixins. Each operation issues exactly one request on
 * the pool's shared session; only `create_item` with files also changes the
 * session's persistent headers, and it does not put them back.
 */
module Capabilities {
  import opened Wrappers
  import opened Transport
  import opened Pools

  /** Python's `if files:` — files given and not empty. */
  predicate HasFiles(files: Option<Files>)
  {
    files.Some? && |files.value| > 0
  }

  /** The headers left after the two `pop` calls, and the KeyError if one of them raised. */
  datatype Popped = Popped(headers: Headers, error: Option<Error>)

  /**
   * `headers.pop('Content-Type')` then `headers.pop('Accept')`, each without a
   * default; the first pop that finds no key raises and stops the sequence.
   */
  function PopJsonHeaders(h: Headers): (r: Popped)
    ensures r.error.None? <==> "Content-Type" in h && "Accept" in h
    ensures r.error == Some(KeyError("Content-Type")) <==> "Content-Type" !in h
    ensures r.error == Some(KeyError("Accept")) <==> "Content-Type" in h && "Accept" !in h
    ensures "Content-Type" !in r.headers
    ensures "Accept" in r.headers <==> "Content-Type" !in h && "Accept" in h
    ensures forall k :: k in r.headers ==> k in h && r.headers[k] == h[k]
    ensures forall k :: k in h && k != "Content-Type" && k != "Accept" ==> k in r.headers
  {
    if "Content-Type" !in h then Popped(h, Some(KeyError("Content-Type")))
    else if "Accept" !in h then Popped(h - {"Content-Type"}, Some(KeyError("Accept")))
    else Popped(h - {"Content-Type", "Accept"}, None)
  }

  /**
   * The id `update_create_item` uses: an explicit code when it is not None,
   * and otherwise `item.get('id')` (absent or JSON null give None).
   */
  function TargetCode(item: Item, code: Option<string>): Option<string>
  {
    if code.Some? then code
    else if "id" in item && item["id"].Str? then Some(item["id"].s)
    else None
  }

  /** The URL `update_create_item` PUTs to: the endpoint, joined with the code when it is truthy. */
  function UpdateUrl(endpoint: Url, item: Item, code: Option<string>): (u: Url)
    ensures code.Some? && code.value != "" ==> u == endpoint + [code.value]
    ensures code == Some("") ==> u == endpoint
    ensures code.None? && "id" in item && item["id"].Str? && item["id"].s != "" ==> u == endpoint + [item["id"].s]
    ensures code.None? && ("id" !in item || item["id"] == Null || item["id"] == Str("")) ==> u == endpoint
  {
    match TargetCode(item, code)
    case Some(c) => if c != "" then endpoint + [c] else endpoint
    case None => endpoint
  }

  /** `create_item(item, files)`. */
  method CreateItem(p: Pool, item: Item, files: Option<Files>) returns (error: Option<Error>)
    requires Creatable in Caps(p.kind)
    modifies p.session
    ensures !HasFiles(files) ==>
      && error.None?
      && p.session.headers == old(p.session.headers)
      && p.session.log == old(p.session.log) + [Request(POST, p.endpoint, None, JsonBody(item), old(p.session.headers))]
    ensures HasFiles(files) ==>
      var popped := PopJsonHeaders(old(p.session.headers));
      && error == popped.error
      && p.session.headers == popped.headers
      && p.session.log == old(p.session.log) +
           if popped.error.None? then [Request(POST, p.endpoint, None, MultipartBody(item, files.value), popped.headers)] else []
  {
    var session := p.session;
    if HasFiles(files) {
      if "Content-Type" !in session.headers {
        return Some(KeyError("Content-Type"));
      }
      session.headers := session.headers - {"Content-Type"};
      if "Accept" !in session.headers {
        return Some(KeyError("Accept"));
      }
      session.headers := session.headers - {"Accept"};
      session.Send(POST, p.endpoint, None, MultipartBody(item, files.value));
    } else {
      session.Send(POST, p.endpoint, None, JsonBody(item));
    }
    error := None;
  }

  /** `fetch_item(code)`. */
  method FetchItem(p: Pool, code: string)
    requires Gettable in Caps(p.kind)
    modifies p.session
    ensures p.session.headers == old(p.session.headers)
    ensures p.session.log == old(p.session.log) + [Request(GET, p.endpoint + [code], None, NoBody, old(p.session.headers))]
  {
    p.session.Send(GET, p.endpoint + [code], None, NoBody);
  }

  /** `fetch_list(args)`. */
  method FetchList(p: Pool, args: Option<Params>)
    requires Listable in Caps(p.kind)
    modifies p.session
    ensures p.session.headers == old(p.session.headers)
    ensures p.session.log == old(p.session.log) + [Request(GET, p.endpoint, args, NoBody, old(p.session.headers))]
  {
    p.session.Send(GET, p.endpoint, args, NoBody);
  }

  /**
   * `search(query)`. No pool class composes SearchableResource (see the
   * ensures of Caps), so this stands for the mixin's own method on a pool.
   */
  method Search(p: Pool, query: string)
    modifies p.session
    ensures p.session.headers == old(p.session.headers)
    ensures p.session.log == old(p.session.log) + [Request(GET, p.endpoint, Some(map["query" := One(query)]), NoBody, old(p.session.headers))]
  {
    p.session.Send(GET, p.endpoint, Some(map["query" := One(query)]), NoBody);
  }

  /**
   * `update_create_item(item, code)`, step by step as the source does it:
   * the same choice TargetCode and UpdateUrl state as functions, which the
   * ensures ties this body to.
   */
  method UpdateCreateItem(p: Pool, item: Item, code: Option<string>)
    requires Updatable in Caps(p.kind)
    modifies p.session
    ensures p.session.headers == old(p.session.headers)
    ensures p.session.log == old(p.session.log) + [Request(PUT, UpdateUrl(p.endpoint, item, code), None, JsonBody(item), old(p.session.headers))]
  {
    var c := code;
    if c.None? {
      c := if "id" in item && item["id"].Str? then Some(item["id"].s) else None;
    }
    var url := if c.Some? && c.value != "" then p.endpoint + [c.value] else p.endpoint;
    p.session.Send(PUT, url, None, JsonBody(item));
  }

  /** `delete_item(code)`. */
  method DeleteItem(p: Pool, code: string)
    requires Deletable in Caps(p.kind)
    modifies p.session
    ensures p.session.headers == old(p.session.headers)
    ensures p.session.log == old(p.session.log) + [Request(DELETE, p.endpoint + [code], None, NoBody, old(p.session.headers))]
  {
    p.session.Send(DELETE, p.endpoint + [code], None, NoBody);
  }

  // ---- Consequences of the unrestored headers

  /**
   * After an upload with files, a later request on any pool of the same
   * session goes out without the JSON headers, and keeps every other one.
   */
  method FetchAfterUpload(docs: Pool, other: Pool, item: Item, files: Files, code: string)
    requires Creatable in Caps(docs.kind) && Gettable in Caps(other.kind)
    requires docs.session == other.session && |files| > 0
    requires "Content-Type" in docs.session.headers && "Accept" in docs.session.headers
    modifies docs.session
    ensures |docs.session.log| == |old(docs.session.log)| + 2
    ensures var last := docs.session.log[|docs.session.log| - 1];
      && last.url == other.endpoint + [code]
      && "Content-Type" !in last.headers && "Accept" !in last.headers
      && (forall k :: k in old(docs.session.headers) && k != "Content-Type" && k != "Accept" ==>
            k in last.headers && last.headers[k] == old(docs.session.headers)[k])
  {
    var error := CreateItem(docs, item, Some(files));
    FetchItem(other, code);
  }

  /** A second upload with files on the same session raises KeyError('Content-Type') and sends nothing. */
  method UploadTwice(p: Pool, item: Item, files: Files) returns (first: Option<Error>, second: Option<Error>)
    requires Creatable in Caps(p.kind) && |files| > 0
    requires "Content-Type" in p.session.headers && "Accept" in p.session.headers
    modifies p.session
    ensures first.None? && second == Some(KeyError("Content-Type"))
    ensures |p.session.log| == |old(p.session.log)| + 1
  {
    first := CreateItem(p, item, Some(files));
    second := CreateItem(p, item, Some(files));
  }
}
