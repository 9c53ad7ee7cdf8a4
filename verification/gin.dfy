/**
 * The slice of a gin.Context that the handlers touch: the request's method,
 * path, host, TLS flag, headers and path parameters, and the response state
 * gin keeps — status, whether the header was written, the abort flag,
 * response headers, the per-request key store, the bodies rendered, and
 * whether the next handler was invoked.
 *
 * gin's responseWriter changes its status only while nothing has been
 * written and only for a positive code; every render (JSON, HTML, Data)
 * sets the status and then writes, and c.Status only sets the status.
 */
module Gin {
  import opened Text

  /** A JSON value as gin.H and the x402 structures serialise. */
  datatype Json =
    | JNull
    | JBool(b: bool)
    | JInt(n: int)
    | JString(s: string)
    | JArray(items: seq<Json>)
    | JObject(fields: seq<(string, Json)>)

  /** A body the handler asked gin to render. */
  datatype Render =
    | JsonRender(json: Json)
    | HtmlRender(template: string, data: Json)
    | DataRender(contentType: string, bytes: string)

  /** The response side of a gin.Context. */
  datatype Response = Response(
    status: int,
    written: bool,
    aborted: bool,
    headers: map<string, string>,
    keys: map<string, Json>,
    renders: seq<Render>,
    nextCalled: bool)

  const StatusOK: int := 200
  const StatusUnauthorized: int := 401
  const StatusPaymentRequired: int := 402
  const StatusNotFound: int := 404
  const StatusMethodNotAllowed: int := 405
  const StatusInternalServerError: int := 500
  const StatusBadGateway: int := 502

  /** A fresh context: status 200, nothing written, nothing stored. */
  const Initial: Response := Response(StatusOK, false, false, map[], map[], [], false)

  /** responseWriter.WriteHeader: the status sticks once the header is written. */
  function WriteHeader(r: Response, code: int): (r': Response)
    ensures r'.status == (if code > 0 && !r.written then code else r.status)
    ensures r' == r.(status := r'.status)
  {
    if code > 0 && !r.written then r.(status := code) else r
  }

  /** c.Render: set the status, then write the body. */
  function Rendered(r: Response, code: int, body: Render): (r': Response)
    ensures r'.written && r'.renders == r.renders + [body]
    ensures r.written ==> r'.status == r.status
    ensures !r.written && code > 0 ==> r'.status == code
    ensures r'.aborted == r.aborted && r'.headers == r.headers && r'.keys == r.keys
    ensures r'.nextCalled == r.nextCalled
  {
    WriteHeader(r, code).(written := true, renders := r.renders + [body])
  }

  /** c.Header: set a response header, or delete it when the value is empty. */
  function WithHeader(r: Response, key: string, value: string): (r': Response)
    ensures var k := CanonicalHeaderKey(key);
            (value == "" ==> k !in r'.headers)
            && (value != "" ==> k in r'.headers && r'.headers[k] == value)
            && (forall other :: other != k ==> (other in r'.headers <==> other in r.headers))
            && (forall other :: other != k && other in r.headers ==> r'.headers[other] == r.headers[other])
    ensures r' == r.(headers := r'.headers)
  {
    var k := CanonicalHeaderKey(key);
    if value == "" then r.(headers := r.headers - {k}) else r.(headers := r.headers[k := value])
  }

  class Context {
    const requestMethod: string
    const path: string
    const host: string
    const tls: bool
    /** Request headers, keyed by their canonical names. */
    const requestHeaders: map<string, string>
    const params: map<string, string>

    var status: int
    var written: bool
    var aborted: bool
    var headers: map<string, string>
    var keys: map<string, Json>
    var renders: seq<Render>
    var nextCalled: bool

    function Snapshot(): Response
      reads this
    {
      Response(status, written, aborted, headers, keys, renders, nextCalled)
    }

    constructor(requestMethod: string, path: string, host: string, tls: bool,
                requestHeaders: map<string, string>, params: map<string, string>)
      ensures Snapshot() == Initial
      ensures this.requestMethod == requestMethod && this.path == path && this.host == host && this.tls == tls
      ensures this.requestHeaders == requestHeaders && this.params == params
    {
      this.requestMethod := requestMethod;
      this.path := path;
      this.host := host;
      this.tls := tls;
      this.requestHeaders := requestHeaders;
      this.params := params;
      status := StatusOK;
      written := false;
      aborted := false;
      headers := map[];
      keys := map[];
      renders := [];
      nextCalled := false;
    }

    /** c.GetHeader: the request header under its canonical name, or "". */
    function GetHeader(name: string): string
    {
      var k := CanonicalHeaderKey(name);
      if k in requestHeaders then requestHeaders[k] else ""
    }

    /** c.Param. */
    function Param(name: string): string
    {
      if name in params then params[name] else ""
    }

    /** c.GetString: a string stored under the key, or "". */
    function GetString(key: string): string
      reads this
    {
      if key in keys && keys[key].JString? then keys[key].s else ""
    }

    method Header(key: string, value: string)
      modifies this
      ensures Snapshot() == WithHeader(old(Snapshot()), key, value)
    {
      var k := CanonicalHeaderKey(key);
      if value == "" {
        headers := headers - {k};
      } else {
        headers := headers[k := value];
      }
    }

    method Set(key: string, value: Json)
      modifies this
      ensures Snapshot() == old(Snapshot()).(keys := old(keys)[key := value])
    {
      keys := keys[key := value];
    }

    method WriteStatus(code: int)
      modifies this
      ensures Snapshot() == WriteHeader(old(Snapshot()), code)
    {
      if code > 0 && !written {
        status := code;
      }
    }

    method RenderBody(code: int, body: Render)
      modifies this
      ensures Snapshot() == Rendered(old(Snapshot()), code, body)
    {
      WriteStatus(code);
      written := true;
      renders := renders + [body];
    }

    /** c.JSON. */
    method JSON(code: int, body: Json)
      modifies this
      ensures Snapshot() == Rendered(old(Snapshot()), code, JsonRender(body))
    {
      RenderBody(code, JsonRender(body));
    }

    /** c.HTML. */
    method HTML(code: int, template: string, data: Json)
      modifies this
      ensures Snapshot() == Rendered(old(Snapshot()), code, HtmlRender(template, data))
    {
      RenderBody(code, HtmlRender(template, data));
    }

    /** c.Data. */
    method Data(code: int, contentType: string, data: string)
      modifies this
      ensures Snapshot() == Rendered(old(Snapshot()), code, DataRender(contentType, data))
    {
      RenderBody(code, DataRender(contentType, data));
    }

    /** c.Status: the status alone, nothing written. */
    method Status(code: int)
      modifies this
      ensures Snapshot() == WriteHeader(old(Snapshot()), code)
    {
      WriteStatus(code);
    }

    method Abort()
      modifies this
      ensures Snapshot() == old(Snapshot()).(aborted := true)
    {
      aborted := true;
    }

    /** c.AbortWithStatusJSON: abort, then render the JSON body. */
    method AbortWithStatusJSON(code: int, body: Json)
      modifies this
      ensures Snapshot() == Rendered(old(Snapshot()).(aborted := true), code, JsonRender(body))
    {
      Abort();
      JSON(code, body);
    }

    /** c.Next: hands over to the next handler, which is outside this model. */
    method Next()
      modifies this
      ensures Snapshot() == old(Snapshot()).(nextCalled := true)
    {
      nextCalled := true;
    }
  }

  /** gin.H{"error": message}. */
  function ErrorBody(message: string): Json
  {
    JObject([("error", JString(message))])
  }
}
