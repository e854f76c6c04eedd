/**
 * libcurl-based REST client (Hardware/src/RestClient.cpp, RestClient.hpp).
 *
 * libcurl itself is not modelled: a `CurlLib` object stands for it and records the requests
 * performed and the handles cleaned up, and what `curl_easy_perform` produces for one request
 * (the body chunks handed to the write callback, then completion or a curl error) is passed in
 * as a `Transfer`.
 */
module Rest {
  import opened Wrappers

  const DefaultTimeoutSeconds: int := 5
  const DefaultConnectTimeoutSeconds: int := 3

  /** RestClient::Response: `success` means the exchange completed, whatever the status. */
  datatype Response = Response(success: bool, httpCode: int, body: string, error: string)

  /** One call of the write callback: `size * nmemb` bytes available at `data`. */
  datatype Chunk = Chunk(data: string, size: nat, nmemb: nat)

  datatype TransferEnd = CurlFailed(reason: string) | CurlCompleted(httpCode: int)

  /** What curl_easy_perform does for one request: the chunks it delivers, then how it ends. */
  datatype Transfer = Transfer(chunks: seq<Chunk>, end: TransferEnd)

  /** libcurl's promise to the write callback: every chunk really holds size * nmemb bytes. */
  predicate WellFormed(t: Transfer) {
    forall i :: 0 <= i < |t.chunks| ==> t.chunks[i].size * t.chunks[i].nmemb <= |t.chunks[i].data|
  }

  /** One performed request, as the options set on the easy handle describe it. */
  datatype Request = Request(handle: nat, url: string, body: string, timeout: int, connectTimeout: int)

  class CurlLib {
    var globalInit: bool
    var performed: seq<Request>
    var cleanedUp: seq<nat>

    constructor ()
      ensures !globalInit && performed == [] && cleanedUp == []
    {
      globalInit := false;
      performed := [];
      cleanedUp := [];
    }
  }

  /** The base URL the constructor keeps: one trailing '/' removed, if there is one. */
  function StripTrailingSlash(url: string): (kept: string)
    ensures kept <= url && |url| - 1 <= |kept|
    ensures kept != url <==> url != [] && url[|url| - 1] == '/'
  {
    if url != [] && url[|url| - 1] == '/' then url[..|url| - 1] else url
  }

  lemma StripRemovesAtMostOneSlash(url: string)
    ensures var kept := StripTrailingSlash(url);
      url == kept || url == kept + "/"
    ensures StripTrailingSlash("a//") == "a/"
  {
  }

  /** The request URL: base + endpoint, with a '/' between them unless the endpoint is empty or brings its own. */
  function JoinUrl(base: string, endpoint: string): (url: string)
    ensures base <= url
    ensures endpoint == [] ==> url == base
    ensures |url| == |base| + |endpoint| + (if endpoint != [] && endpoint[0] != '/' then 1 else 0)
    ensures url[|url| - |endpoint|..] == endpoint
  {
    if endpoint == [] then base
    else if endpoint[0] != '/' then base + "/" + endpoint
    else base + endpoint
  }

  lemma JoinUrlShape(base: string, endpoint: string)
    ensures var url := JoinUrl(base, endpoint);
      && base <= url
      && (endpoint == [] ==> url == base)
      && (url == base + endpoint || url == base + "/" + endpoint)
      && (url == base + "/" + endpoint && url != base + endpoint <==> endpoint != [] && endpoint[0] != '/')
  {
    var url := JoinUrl(base, endpoint);
    if endpoint != [] && endpoint[0] != '/' {
      assert url[|base|] == '/';
      assert (base + endpoint)[|base|] == endpoint[0];
    }
  }

  /** writeCallback: appends exactly size * nmemb bytes to the body and returns that count. */
  function WriteCallback(body: string, data: string, size: nat, nmemb: nat): (r: (string, nat))
    requires size * nmemb <= |data|
    ensures r.1 == size * nmemb
    ensures |r.0| == |body| + r.1 && r.0[..|body|] == body && r.0[|body|..] == data[..r.1]
  {
    (body + data[..size * nmemb], size * nmemb)
  }

  /** The body that a sequence of chunks leaves behind in the response. */
  function ChunksBody(chunks: seq<Chunk>): string
    requires forall i :: 0 <= i < |chunks| ==> chunks[i].size * chunks[i].nmemb <= |chunks[i].data|
  {
    if chunks == [] then ""
    else
      var last := chunks[|chunks| - 1];
      ChunksBody(chunks[..|chunks| - 1]) + last.data[..last.size * last.nmemb]
  }

  function TotalBytes(chunks: seq<Chunk>): nat {
    if chunks == [] then 0 else TotalBytes(chunks[..|chunks| - 1]) + chunks[|chunks| - 1].size * chunks[|chunks| - 1].nmemb
  }

  lemma {:induction false} ChunksBodyLength(chunks: seq<Chunk>)
    requires forall i :: 0 <= i < |chunks| ==> chunks[i].size * chunks[i].nmemb <= |chunks[i].data|
    ensures |ChunksBody(chunks)| == TotalBytes(chunks)
  {
    if chunks != [] {
      ChunksBodyLength(chunks[..|chunks| - 1]);
    }
  }

  /** What `post` returns on an initialised handle, given what the transfer did. */
  function PostResponse(t: Transfer): (r: Response)
    requires WellFormed(t)
    ensures r.body == ChunksBody(t.chunks)
    ensures r.success <==> t.end.CurlCompleted?
    ensures !r.success ==> r.httpCode == 0 && r.error == "HTTP request failed: " + t.end.reason
    ensures r.success ==> r.httpCode == t.end.httpCode && r.error == ""
  {
    match t.end
    case CurlFailed(reason) => Response(false, 0, ChunksBody(t.chunks), "HTTP request failed: " + reason)
    case CurlCompleted(code) => Response(true, code, ChunksBody(t.chunks), "")
  }

  const NotInitializedResponse := Response(false, 0, "", "RestClient not initialized")

  class RestClient {
    var handle: Option<nat>
    var baseUrl: string
    var timeout: int
    var connectTimeout: int
    const lib: CurlLib

    constructor Init(lib: CurlLib, handle: nat, baseUrl: string)
      ensures this.lib == lib && this.handle == Some(handle) && this.baseUrl == baseUrl
      ensures timeout == DefaultTimeoutSeconds && connectTimeout == DefaultConnectTimeoutSeconds
    {
      this.lib := lib;
      this.handle := Some(handle);
      this.baseUrl := baseUrl;
      timeout := DefaultTimeoutSeconds;
      connectTimeout := DefaultConnectTimeoutSeconds;
    }

    /**
     * The constructor. curl_global_init runs once per process (answering `globalInitOk`), then
     * curl_easy_init answers `newHandle`; either failure throws. The trailing '/' goes last.
     */
    static method Create(lib: CurlLib, baseUrl: string, globalInitOk: bool, globalInitError: string, newHandle: Option<nat>)
      returns (r: Result<RestClient, string>)
      modifies lib
      ensures lib.performed == old(lib.performed) && lib.cleanedUp == old(lib.cleanedUp)
      ensures !old(lib.globalInit) && !globalInitOk ==> r == Err("Failed to initialize libcurl: " + globalInitError) && !lib.globalInit
      ensures (old(lib.globalInit) || globalInitOk) ==> lib.globalInit
      ensures (old(lib.globalInit) || globalInitOk) && newHandle.None? ==> r == Err("Failed to create libcurl handle")
      ensures (old(lib.globalInit) || globalInitOk) && newHandle.Some? ==>
        && r.Ok? && fresh(r.value) && r.value.lib == lib
        && r.value.handle == newHandle && r.value.baseUrl == StripTrailingSlash(baseUrl)
        && r.value.timeout == DefaultTimeoutSeconds && r.value.connectTimeout == DefaultConnectTimeoutSeconds
    {
      if !lib.globalInit {
        if !globalInitOk {
          return Err("Failed to initialize libcurl: " + globalInitError);
        }
        lib.globalInit := true;
      }
      if newHandle.None? {
        return Err("Failed to create libcurl handle");
      }
      var client := new RestClient.Init(lib, newHandle.value, baseUrl);
      if client.baseUrl != [] && client.baseUrl[|client.baseUrl| - 1] == '/' {
        client.baseUrl := client.baseUrl[..|client.baseUrl| - 1];
      }
      return Ok(client);
    }

    /** The destructor: cleans up the handle only when one is held. */
    method Destroy()
      modifies this, lib
      ensures handle.None?
      ensures lib.cleanedUp == old(lib.cleanedUp) + (if old(handle).Some? then [old(handle).value] else [])
      ensures lib.performed == old(lib.performed) && lib.globalInit == old(lib.globalInit)
      ensures baseUrl == old(baseUrl) && timeout == old(timeout) && connectTimeout == old(connectTimeout)
    {
      if handle.Some? {
        lib.cleanedUp := lib.cleanedUp + [handle.value];
        handle := None;
      }
    }

    /** The move constructor: takes over handle, base URL and timeouts, and nulls the source's handle. */
    constructor MoveFrom(other: RestClient)
      modifies other
      ensures lib == other.lib && handle == old(other.handle) && baseUrl == old(other.baseUrl)
      ensures timeout == old(other.timeout) && connectTimeout == old(other.connectTimeout)
      ensures other.handle.None?
      ensures other.timeout == old(other.timeout) && other.connectTimeout == old(other.connectTimeout)
    {
      lib := other.lib;
      handle := other.handle;
      baseUrl := other.baseUrl;
      timeout := other.timeout;
      connectTimeout := other.connectTimeout;
      other.handle := None;
    }

    /** Move assignment: cleans up its own handle first; self-assignment changes nothing. */
    method MoveAssign(other: RestClient)
      requires other.lib == lib
      modifies this, other, lib
      ensures other == this ==> handle == old(handle) && baseUrl == old(baseUrl) && timeout == old(timeout) && connectTimeout == old(connectTimeout) && lib.cleanedUp == old(lib.cleanedUp)
      ensures other != this ==>
        && handle == old(other.handle) && baseUrl == old(other.baseUrl)
        && timeout == old(other.timeout) && connectTimeout == old(other.connectTimeout)
        && other.handle.None? && other.timeout == old(other.timeout) && other.connectTimeout == old(other.connectTimeout)
        && lib.cleanedUp == old(lib.cleanedUp) + (if old(handle).Some? then [old(handle).value] else [])
      ensures lib.performed == old(lib.performed) && lib.globalInit == old(lib.globalInit)
    {
      if other != this {
        if handle.Some? {
          lib.cleanedUp := lib.cleanedUp + [handle.value];
        }
        handle := other.handle;
        baseUrl := other.baseUrl;
        timeout := other.timeout;
        connectTimeout := other.connectTimeout;
        other.handle := None;
      }
    }

    method SetTimeout(seconds: int)
      modifies this
      ensures timeout == seconds
      ensures handle == old(handle) && baseUrl == old(baseUrl) && connectTimeout == old(connectTimeout)
    {
      timeout := seconds;
    }

    method SetConnectTimeout(seconds: int)
      modifies this
      ensures connectTimeout == seconds
      ensures handle == old(handle) && baseUrl == old(baseUrl) && timeout == old(timeout)
    {
      connectTimeout := seconds;
    }

    /** The base URL as kept by the constructor, without its trailing '/'. */
    function GetBaseUrl(): (url: string)
      reads this
      ensures url == baseUrl
    {
      baseUrl
    }

    /**
     * post: on a null handle, answers "not initialised" and sends nothing; otherwise performs one
     * request to JoinUrl(baseUrl, endpoint), collecting the body through the write callback.
     */
    method Post(endpoint: string, payload: string, t: Transfer) returns (resp: Response)
      requires WellFormed(t)
      modifies lib
      ensures handle.None? ==> resp == NotInitializedResponse && lib.performed == old(lib.performed)
      ensures handle.Some? ==> resp == PostResponse(t)
      ensures handle.Some? ==> lib.performed == old(lib.performed) + [Request(handle.value, JoinUrl(baseUrl, endpoint), payload, timeout, connectTimeout)]
      ensures lib.cleanedUp == old(lib.cleanedUp) && lib.globalInit == old(lib.globalInit)
    {
      resp := Response(false, 0, "", "");
      if handle.None? {
        resp := resp.(error := "RestClient not initialized");
        return;
      }
      var url := baseUrl;
      if endpoint != [] {
        if endpoint[0] != '/' {
          url := url + "/";
        }
        url := url + endpoint;
      }
      lib.performed := lib.performed + [Request(handle.value, url, payload, timeout, connectTimeout)];
      var i := 0;
      while i < |t.chunks|
        invariant 0 <= i <= |t.chunks|
        invariant resp == Response(false, 0, ChunksBody(t.chunks[..i]), "")
      {
        var c := t.chunks[i];
        var appended := WriteCallback(resp.body, c.data, c.size, c.nmemb);
        resp := resp.(body := appended.0);
        assert t.chunks[..i + 1][..i] == t.chunks[..i];
        i := i + 1;
      }
      assert t.chunks[..i] == t.chunks;
      match t.end {
        case CurlFailed(reason) =>
          resp := resp.(success := false, error := "HTTP request failed: " + reason);
        case CurlCompleted(code) =>
          resp := resp.(httpCode := code, success := true);
      }
    }
  }
}
