/**
 * Requests as the relay handles them, and the rewrite a worker applies to a
 * captured request before forwarding it to the host named by its routing
 * header.
 */
module Requests {
  import opened Headers

  /** The header that names the destination host of a deferred request. */
  const RouteHeader: string := "X-Delay-Host"

  /** The scheme used when the captured request's URL carries none. */
  const DefaultScheme: string := "https"

  type Byte = x: int | 0 <= x < 256

  /**
   * The parts of a parsed request URL in the model: scheme and host, which the
   * rewrite reads or writes, and path and query, which it carries over unchanged.
   */
  datatype Url = Url(scheme: string, host: string, path: string, rawQuery: string)

  /** A parsed HTTP request: the captured job, and after rewriting the outbound request. */
  datatype Request = Request(
    verb: string,
    url: Url,
    proto: string,
    host: string,
    requestURI: string,
    header: Header,
    body: seq<Byte>)

  /** The routing directive: the first X-Delay-Host value, "" when the header is absent or empty. */
  function Route(r: Request): string
  {
    Get(r.header, RouteHeader)
  }

  /** A request the intake accepts: its routing directive is non-empty. */
  predicate HasRoute(r: Request)
  {
    Route(r) != ""
  }

  /**
   * The outbound request a worker forwards for a captured request: the routing
   * header is gone and every other header is kept, the request-target string is
   * cleared, the URL host and the Host field both name the routing directive, an
   * empty scheme becomes "https", and the method (verb), body, path, query and protocol are
   * those of the capture.
   */
  function Rewritten(req: Request): (out: Request)
    ensures RouteHeader !in out.header && !HasRoute(out)
    ensures forall k :: k != RouteHeader ==> (k in out.header <==> k in req.header)
    ensures forall k :: k in out.header ==> out.header[k] == req.header[k]
    ensures out.url.host == Route(req) && out.host == Route(req)
    ensures HasRoute(req) ==> out.host != ""
    ensures out.requestURI == ""
    ensures req.url.scheme == "" ==> out.url.scheme == DefaultScheme
    ensures req.url.scheme != "" ==> out.url.scheme == req.url.scheme
    ensures out.verb == req.verb && out.body == req.body && out.proto == req.proto
    ensures out.url.path == req.url.path && out.url.rawQuery == req.url.rawQuery
  {
    var newHost := Route(req);
    var scheme := if req.url.scheme == "" then DefaultScheme else req.url.scheme;
    req.(header := Del(req.header, RouteHeader),
         requestURI := "",
         host := newHost,
         url := req.url.(host := newHost, scheme := scheme))
  }

  /**
   * The worker's in-place rewrite, one field assignment at a time as the worker
   * performs it on the parsed request.
   */
  method Rewrite(req: Request) returns (out: Request)
    ensures out == Rewritten(req)
  {
    out := req;
    var newHost := Get(out.header, RouteHeader);
    out := out.(header := Del(out.header, RouteHeader));
    out := out.(requestURI := "");
    out := out.(url := out.url.(host := newHost));
    out := out.(host := newHost);
    if out.url.scheme == "" {
      out := out.(url := out.url.(scheme := DefaultScheme));
    }
  }
}
