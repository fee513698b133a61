// The request as the filters see it, and `clientIP`: which address a request is judged by.

module ClientAddress {
  import opened JsSemantics

  const ForwardedForHeader: string := "x-forwarded-for"

  /** What a filter reads from an incoming request: the transport peer address (`req.ip`)
      and the request headers (`req.get(name)`), looked up by exact name. */
  datatype Request = Request(ip: string, headers: map<string, string>)

  /** `req.get(name)`: the header's value, or `undefined` when it was not sent. */
  function Header(req: Request, name: string): (value: Option<string>)
  {
    if name in req.headers then Some(req.headers[name]) else None
  }

  /** `clientIP(req, useProxy)`: with a truthy `x-forwarded-for` header and `useProxy`,
      the header is split on ',' (pieces are not trimmed) and the sole piece or the LAST
      piece is taken; otherwise the peer address. */
  function ClientIP(req: Request, useProxy: bool): (ip: string)
    ensures !useProxy || !Truthy(Header(req, ForwardedForHeader)) ==> ip == req.ip
    ensures useProxy && Truthy(Header(req, ForwardedForHeader)) ==>
              IsLastSegment(Header(req, ForwardedForHeader).value, ',', ip)
  {
    var forwarded := Header(req, ForwardedForHeader);
    if Truthy(forwarded) then
      var ips := Split(forwarded.value, ',');
      SplitLast(forwarded.value, ',');
      if |ips| > 0 && useProxy then
        if |ips| == 1 then ips[0] else ips[|ips| - 1]
      else req.ip
    else req.ip
  }

  /** With a forwarded-for header, the client address is exactly what follows its last
      comma, so a header without a comma is taken whole. */
  lemma {:induction false} ClientIPIsLastHop(req: Request, r: string)
    requires Truthy(Header(req, ForwardedForHeader))
    requires IsLastSegment(Header(req, ForwardedForHeader).value, ',', r)
    ensures ClientIP(req, true) == r
  {
    LastSegmentUnique(Header(req, ForwardedForHeader).value, ',', ClientIP(req, true), r);
  }

  /** A header without a comma names the client directly. */
  lemma SingleHopIsClient(req: Request)
    requires Truthy(Header(req, ForwardedForHeader))
    requires ',' !in Header(req, ForwardedForHeader).value
    ensures ClientIP(req, true) == Header(req, ForwardedForHeader).value
  {
    ClientIPIsLastHop(req, Header(req, ForwardedForHeader).value);
  }

  /** The two-hop header of the proxy tests: the last address, not the first, is used. */
  lemma TwoHopsUseLast(peer: string)
    ensures ClientIP(Request(peer, map[ForwardedForHeader := "10.2.2.20,107.23.255.128"]), true)
            == "107.23.255.128"
  {
    var req := Request(peer, map[ForwardedForHeader := "10.2.2.20,107.23.255.128"]);
    var h := "10.2.2.20,107.23.255.128";
    assert h == "10.2.2.20," + "107.23.255.128";
    assert h[|h| - 14..] == "107.23.255.128";
    ClientIPIsLastHop(req, "107.23.255.128");
  }

  /** The request as `clientIP` should see it when only the peers in `trusted` may speak for
      a client: a forwarded-for header sent by any other peer is discarded. */
  function FromTrustedProxy(req: Request, trusted: set<string>): (r: Request)
    ensures r.ip == req.ip
    ensures req.ip in trusted ==> r == req
    ensures req.ip !in trusted ==> Header(r, ForwardedForHeader) == None
    ensures forall n :: n != ForwardedForHeader ==> Header(r, n) == Header(req, n)
  {
    if req.ip in trusted then req else Request(req.ip, req.headers - {ForwardedForHeader})
  }

  /** The address a filter evidently means to judge: the forwarded one behind a trusted
      proxy, and the peer itself otherwise. */
  function TrustedClientIP(req: Request, trusted: set<string>): (ip: string)
    ensures req.ip !in trusted ==> ip == req.ip
    ensures req.ip in trusted ==> ip == ClientIP(req, true)
  {
    ClientIP(FromTrustedProxy(req, trusted), true)
  }
}
