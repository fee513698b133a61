// The middleware closures returned by `ipFilter(config)` and `headerFilter(config)`: each
// holds its merged configuration and, per request, either calls `next` or ends the response.

module Middleware {
  import opened JsSemantics
  import opened MashapeConfig
  import opened ClientAddress
  import opened AccessPolicy

  /** The part of the HTTP response a filter touches: the status code and what
      `res.end(body)` sent (`None` while the response is still open). */
  class Response {
    var statusCode: int
    var sent: Option<string>

    constructor ()
      ensures statusCode == 200 && sent == None
    {
      statusCode := 200;
      sent := None;
    }

    /** `res.end(body)` */
    method End(body: string)
      modifies this
      ensures sent == Some(body) && statusCode == old(statusCode)
    {
      sent := Some(body);
    }
  }

  /** Whether and how the filter called `next`. */
  datatype NextCall = NotCalled | Called(error: Option<FilterError>)

  /** The `next` call that goes with a verdict: `next()`, `next(err)`, or none when the
      filter answered the request itself. */
  function NextFor(o: Outcome): (next: NextCall)
  {
    match o
    case Next => Called(None)
    case NextErr(e) => Called(Some(e))
    case Respond(_, _) => NotCalled
  }

  /** The closure returned by `ipFilter(config)`. */
  class IpFilter {
    const config: Config

    constructor (user: Option<Overrides>)
      ensures config == Extend(user)
    {
      config := Extend(user);
    }

    method Handle(req: Request, res: Response) returns (next: NextCall)
      modifies res
      ensures next == NextFor(IpDecision(config, req))
      ensures next.NotCalled? ==> res.statusCode == config.errorCode && res.sent == Some(config.errorMessage)
      ensures !next.NotCalled? ==> unchanged(res)
    {
      var ip := ClientIP(req, true);
      var iplist := config.iplist;
      if !NonEmpty(iplist) && !NonEmpty(config.whitelist) {
        if config.strict {
          return Called(Some(Misconfigured(NoIpListMessage)));
        }
        return Called(None);
      }
      if config.whitelist.Some? && IndexOf(config.whitelist.value, ip) != -1 {
        return Called(None);
      }
      if iplist.None? {
        // `iplist.indexOf(ip)` on null throws; the catch block decides
        return NextFor(Fail(config, TypeError));
      }
      if IndexOf(iplist.value, ip) != -1 {
        return Called(None);
      }
      res.statusCode := config.errorCode;
      res.End(config.errorMessage);
      return NotCalled;
    }
  }

  /** The closure returned by `headerFilter(config)`. */
  class HeaderFilter {
    const config: Config

    constructor (user: Option<Overrides>)
      ensures config == Extend(user)
    {
      config := Extend(user);
    }

    method Handle(req: Request, res: Response) returns (next: NextCall)
      modifies res
      ensures next == NextFor(HeaderDecision(config, req))
      ensures next.NotCalled? ==> res.statusCode == config.errorCode && res.sent == Some(config.errorMessage)
      ensures !next.NotCalled? ==> unchanged(res)
    {
      var ip := ClientIP(req, true);
      if !Truthy(config.proxySecret) && !NonEmpty(config.additionalHeaderChecks) {
        if config.strict {
          return Called(Some(Misconfigured(NoHeaderChecksMessage)));
        }
        return Called(None);
      }
      if config.whitelist.Some? && IndexOf(config.whitelist.value, ip) != -1 {
        return Called(None);
      }
      if Truthy(config.proxySecret) {
        var secret := Header(req, ProxySecretHeader);
        if !Truthy(secret) || secret.value != config.proxySecret.value {
          res.statusCode := config.errorCode;
          res.End(config.errorMessage);
          return NotCalled;
        }
      }
      if NonEmpty(config.additionalHeaderChecks) {
        var failed := RunHeaderChecks(config.additionalHeaderChecks.value, req);
        if failed.Some? {
          res.statusCode := config.errorCode;
          res.End(config.errorMessage);
          return NotCalled;
        }
      }
      return Called(None);
    }
  }
}
