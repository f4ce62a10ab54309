/**
 * Building the HTTP request for one API call.
 *
 * The client takes an endpoint path and a method name, and builds a request
 * step by step: it sets the method when the name is one it recognises, sets
 * the request URI to the endpoint, and adds three fixed headers. The request
 * object is a class whose fields those steps update in place; `RequestFor`
 * is the value the finished request holds.
 */
module Requests {
  import opened Wrappers

  /** The HTTP methods the client can set. */
  datatype Method = Get | Post | Put | Del

  /** The name under which the client recognises each method. */
  function MethodName(m: Method): string {
    match m
    case Get => "GET"
    case Post => "POST"
    case Put => "PUT"
    case Del => "DEL"
  }

  /** The method a name selects, if the client recognises it. */
  function MethodNamed(name: string): (m: Option<Method>)
    ensures m.Some? ==> MethodName(m.value) == name
  {
    if name == "GET" then Some(Get)
    else if name == "POST" then Some(Post)
    else if name == "PUT" then Some(Put)
    else if name == "DEL" then Some(Del)
    else None
  }

  /** One request header. */
  datatype Header = Header(name: string, value: string)

  const JsonMediaType: string := "application/json"
  const BrowserUserAgent: string :=
    "Mozilla/5.0 (X11; Linux x86_64; rv:109.0) Gecko/20100101 Firefox/115.0"

  /** The headers every request carries, in the order they are added. */
  const FixedHeaders: seq<Header> := [
    Header("Accept", JsonMediaType),
    Header("Content-Type", JsonMediaType),
    Header("User-Agent", BrowserUserAgent)
  ]

  /** What a finished request holds: its method (unset if never set), URI and headers. */
  datatype Request = Request(verb: Option<Method>, uri: string, headers: seq<Header>)

  /** The request the client builds for an endpoint and a method name. */
  function RequestFor(endpoint: string, name: string): (r: Request)
    ensures r.uri == endpoint && r.headers == FixedHeaders
    ensures r.verb.Some? <==> name in {"GET", "POST", "PUT", "DEL"}
  {
    Request(MethodNamed(name), endpoint, FixedHeaders)
  }

  /** An HTTP request under construction, updated in place. */
  class HttpRequest {
    var verb: Option<Method>
    var uri: string
    var headers: seq<Header>

    /** A fresh request: no method set, an empty URI and no headers. */
    constructor ()
      ensures verb == None && uri == "" && headers == []
    {
      verb := None;
      uri := "";
      headers := [];
    }

    /** The request's current contents as a value. */
    function Snapshot(): Request
      reads this
    {
      Request(verb, uri, headers)
    }

    method SetMethod(m: Method)
      modifies this
      ensures verb == Some(m)
      ensures uri == old(uri) && headers == old(headers)
    {
      verb := Some(m);
    }

    method SetRequestUri(u: string)
      modifies this
      ensures uri == u
      ensures verb == old(verb) && headers == old(headers)
    {
      uri := u;
    }

    /** Adds a header after the ones already present. */
    method AddHeader(name: string, value: string)
      modifies this
      ensures headers == old(headers) + [Header(name, value)]
      ensures verb == old(verb) && uri == old(uri)
    {
      headers := headers + [Header(name, value)];
    }
  }

  /**
   * Builds the request for `endpoint` with the method called `name`: the
   * method is set only for the four names the client recognises, the URI is
   * the endpoint, and the three fixed headers are added in order.
   */
  method CreateRequest(endpoint: string, name: string) returns (req: HttpRequest)
    ensures fresh(req)
    ensures req.Snapshot() == RequestFor(endpoint, name)
  {
    req := new HttpRequest();
    if name == "GET" {
      req.SetMethod(Get);
    } else if name == "POST" {
      req.SetMethod(Post);
    } else if name == "PUT" {
      req.SetMethod(Put);
    } else if name == "DEL" {
      req.SetMethod(Del);
    }
    req.SetRequestUri(endpoint);
    req.AddHeader("Accept", JsonMediaType);
    req.AddHeader("Content-Type", JsonMediaType);
    req.AddHeader("User-Agent", BrowserUserAgent);
  }

  /** A name selects a method exactly when it is that method's name. */
  lemma MethodNamedInverse(name: string, m: Method)
    ensures MethodNamed(name) == Some(m) <==> name == MethodName(m)
  {
  }

  /** Names are matched exactly: "DELETE" and lower-case names leave the method unset. */
  lemma OnlyExactNamesSelect()
    ensures MethodNamed("DELETE") == None
    ensures MethodNamed("get") == None
  {
  }

  /** The three fixed headers have distinct names, so none of them merges with another. */
  lemma FixedHeaderNamesDistinct()
    ensures forall i, j :: 0 <= i < j < |FixedHeaders| ==> FixedHeaders[i].name != FixedHeaders[j].name
  {
  }
}
