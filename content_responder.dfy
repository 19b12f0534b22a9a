/** The development-machine content responder
    (src/server/content-responder.js): it turns a request into a
    `ResponseInfo`, keeps a per-id response cache, and serves project
    resources, passing the app's entry module through the app.js converter.
    File reads are parameters (`None` is a failed read), and so are the
    resource loader's result and the converter. */
module Responder {
  import opened Wrappers

  newtype byte = x: int | 0 <= x < 0x100

  /** What a response carries: text, or the raw bytes of a file. */
  datatype Content = Text(text: string) | Bytes(bytes: seq<byte>)

  /** `new ResponseInfo(content, contentType, statusCode)`; `None` is an
      argument left `undefined`, whose default ResponseInfo chooses. */
  datatype ResponseInfo = ResponseInfo(content: Content, contentType: Option<string>, statusCode: Option<int>)

  const APP_JS := "/app.js"
  const WEB_JS := "webJS"

  /** respond(content, contentType, statusCode), without the promise. */
  function Respond(content: Content, contentType: Option<string>, statusCode: Option<int>): (r: ResponseInfo)
    ensures r.content == content && r.contentType == contentType && r.statusCode == statusCode
  {
    ResponseInfo(content, contentType, statusCode)
  }

  /** respondJSON(obj, contentType, statusCode): `json` is JSON.stringify(obj). */
  function RespondJSON(json: string, contentType: Option<string>, statusCode: Option<int>): (r: ResponseInfo)
    ensures r.content == Text(json) && r.statusCode == statusCode
    ensures contentType.None? ==> r.contentType == Some("application/json")
    ensures contentType.Some? ==> r.contentType == contentType
  {
    Respond(Text(json), Some(contentType.GetOr("application/json")), statusCode)
  }

  /** respondFile(path, ...): `read` is the file's text, `None` when reading
      fails, in which case the promise rejects and there is no response. */
  function RespondFile(read: Option<string>, contentType: Option<string>, statusCode: Option<int>): (r: Option<ResponseInfo>)
    ensures r.Some? <==> read.Some?
    ensures r.Some? ==> r.value == ResponseInfo(Text(read.value), contentType, statusCode)
  {
    match read
    case None => None
    case Some(text) => Some(Respond(Text(text), contentType, statusCode))
  }

  /** notFound(url). */
  function NotFound(url: string): (r: ResponseInfo)
    ensures r.statusCode == Some(404) && r.contentType == Some("text/plain")
    ensures r.content == Text("404 not found: " + url)
  {
    Respond(Text("404 not found: " + url), Some("text/plain"), Some(404))
  }

  /** webUI(): index.html, read anew on every request. */
  function WebUI(read: Option<string>): (r: Option<ResponseInfo>)
    ensures r.Some? <==> read.Some?
    ensures r.Some? ==> r.value.content == Text(read.value)
    ensures r.Some? ==> r.value.contentType == Some("text/html") && r.value.statusCode.None?
  {
    RespondFile(read, Some("text/html"), None)
  }

  /** resource(url, projDir, platform): `loaded` is the resource loader's
      content (`None` for null) and `convertAppJs` stands for
      `new AppJsConverter(content.toString()).convert()`. */
  function Resource(url: string, loaded: Option<seq<byte>>, convertAppJs: seq<byte> -> string): (r: ResponseInfo)
    ensures loaded.None? ==> r == NotFound(url)
    ensures loaded.Some? ==> r.contentType.None? && r.statusCode.None?
    ensures loaded.Some? && url == APP_JS ==> r.content == Text(convertAppJs(loaded.value))
    ensures loaded.Some? && url != APP_JS ==> r.content == Bytes(loaded.value)
  {
    match loaded
    case None => NotFound(url)
    case Some(bytes) =>
      if url == APP_JS then Respond(Text(convertAppJs(bytes)), None, None)
      else Respond(Bytes(bytes), None, None)
  }

  /** A missing resource, and only a missing one, gets the 404 response, and
      the converter plays no part in it. */
  lemma ResourceNotFound(url: string, loaded: Option<seq<byte>>, convertAppJs: seq<byte> -> string, other: seq<byte> -> string)
    ensures Resource(url, loaded, convertAppJs) == NotFound(url) <==> loaded.None?
    ensures loaded.None? ==> Resource(url, loaded, convertAppJs) == Resource(url, loaded, other)
  {
  }

  // ---------------------------------------------------------------------
  // The response cache
  // ---------------------------------------------------------------------

  /** `!!caches[id]`: the id holds a value and the value is not undefined. */
  predicate HasCacheIn(caches: map<string, Option<ResponseInfo>>, id: string) {
    id in caches && caches[id].Some?
  }

  /** `caches[id]`, which is undefined for an id never stored. */
  function Lookup(caches: map<string, Option<ResponseInfo>>, id: string): (r: Option<ResponseInfo>)
    ensures r.Some? <==> HasCacheIn(caches, id)
  {
    if id in caches then caches[id] else None
  }

  class ContentResponder {
    /** `this.caches`: a JavaScript object, so a key may hold undefined. */
    var caches: map<string, Option<ResponseInfo>>

    constructor ()
      ensures caches == map[]
      ensures forall id :: !HasCache(id)
    {
      caches := map[];
    }

    function ResponseCache(id: string): (r: Option<ResponseInfo>)
      reads this
      ensures id !in caches ==> r.None?
      ensures id in caches ==> r == caches[id]
    {
      Lookup(caches, id)
    }

    /** hasCache(id): whether responseCache(id) would give a response. */
    predicate HasCache(id: string)
      reads this
      ensures HasCache(id) <==> ResponseCache(id).Some?
    {
      HasCacheIn(caches, id)
    }

    /** cache(id, responseInfo): store and return it. */
    method Cache(id: string, info: Option<ResponseInfo>) returns (r: Option<ResponseInfo>)
      modifies this
      ensures r == info && caches == old(caches)[id := info]
      ensures ResponseCache(id) == info && (HasCache(id) <==> info.Some?)
      ensures forall other :: other != id ==> ResponseCache(other) == old(ResponseCache(other))
    {
      caches := caches[id := info];
      r := info;
    }

    /** webJS(): the bundle is read on every call (the cache check is
        commented out in content-responder.js); a successful read overwrites the
        "webJS" entry, a failed one leaves the cache alone. */
    method WebJS(read: Option<string>) returns (r: Option<ResponseInfo>)
      modifies this
      ensures r == RespondFile(read, Some("text/javascript"), None)
      ensures read.Some? ==> caches == old(caches)[WEB_JS := r]
      ensures read.None? ==> caches == old(caches)
    {
      r := RespondFile(read, Some("text/javascript"), None);
      if r.Some? {
        r := Cache(WEB_JS, r);
      }
    }
  }
}
