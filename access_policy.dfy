// The verdicts of the `ipFilter` and `headerFilter` closures as pure functions of the
// merged configuration and the request, and the properties those verdicts have.

module AccessPolicy {
  import opened JsSemantics
  import opened MashapeConfig
  import opened ClientAddress

  const ProxySecretHeader: string := "x-mashape-proxy-secret"
  const UserHeader: string := "x-mashape-user"

  const NoIpListMessage: string := "No IP-list or whitelist defined, skipping ipFilter()"
  const NoHeaderChecksMessage: string :=
    "No Proxy-Secret or additional header checks defined, skipping headerFilter()"

  /** What a filter hands to `next(err)`: the error it builds for a misconfiguration, or the
      TypeError raised by `iplist.indexOf` on a null iplist and caught by its `catch`. */
  datatype FilterError = Misconfigured(message: string) | TypeError

  /** The three ways a request leaves a filter: `next()`, `next(err)`, or
      `res.statusCode = code; res.end(body)`. */
  datatype Outcome = Next | NextErr(error: FilterError) | Respond(code: int, body: string)

  /** The strict/lenient branch shared by the misconfiguration checks and the catch blocks. */
  function Fail(cfg: Config, e: FilterError): (o: Outcome)
  {
    if cfg.strict then NextErr(e) else Next
  }

  function Deny(cfg: Config): (o: Outcome)
  {
    Respond(cfg.errorCode, cfg.errorMessage)
  }

  /** `config.whitelist && config.whitelist.indexOf(ip) !== -1` */
  predicate Whitelisted(cfg: Config, ip: string)
    ensures Whitelisted(cfg, ip) <==> cfg.whitelist.Some? && ip in cfg.whitelist.value
  {
    cfg.whitelist.Some? && IndexOf(cfg.whitelist.value, ip) != -1
  }

  /** The verdict of the `ipFilter` closure for one request. A response is written exactly
      for a non-whitelisted address missing from a present iplist, and it always carries the
      configured code and message; an error is propagated only in strict mode, for a filter
      without any list or for the null iplist `indexOf` throws on. */
  function IpDecision(cfg: Config, req: Request): (o: Outcome)
    ensures o.Respond? <==>
              && cfg.iplist.Some?
              && (NonEmpty(cfg.iplist) || NonEmpty(cfg.whitelist))
              && !(cfg.whitelist.Some? && ClientIP(req, true) in cfg.whitelist.value)
              && ClientIP(req, true) !in cfg.iplist.value
    ensures o.Respond? ==> o == Respond(cfg.errorCode, cfg.errorMessage)
    ensures o.NextErr? <==>
              && cfg.strict
              && ((!NonEmpty(cfg.iplist) && !NonEmpty(cfg.whitelist))
                  || (cfg.iplist.None? && ClientIP(req, true) !in cfg.whitelist.value))
  {
    var ip := ClientIP(req, true);
    if !NonEmpty(cfg.iplist) && !NonEmpty(cfg.whitelist) then Fail(cfg, Misconfigured(NoIpListMessage))
    else if Whitelisted(cfg, ip) then Next
    else if cfg.iplist.None? then Fail(cfg, TypeError)
    else if IndexOf(cfg.iplist.value, ip) != -1 then Next
    else Deny(cfg)
  }

  /** The condition under which one additional header check rejects a request:
      `!header || !check.value || header !== check.value`. */
  predicate CheckFails(check: HeaderCheck, req: Request)
    ensures !CheckFails(check, req) <==>
              && check.name in req.headers
              && check.value.Some? && check.value.value != ""
              && req.headers[check.name] == check.value.value
  {
    var header := Header(req, check.name);
    !Truthy(header) || !Truthy(check.value) || header.value != check.value.value
  }

  /** The position of the first check that rejects the request, if any. */
  function FirstFailing(checks: seq<HeaderCheck>, req: Request): (r: Option<nat>)
    ensures r.None? <==> forall i :: 0 <= i < |checks| ==> !CheckFails(checks[i], req)
    ensures r.Some? ==> r.value < |checks| && CheckFails(checks[r.value], req)
    ensures r.Some? ==> forall i :: 0 <= i < r.value ==> !CheckFails(checks[i], req)
  {
    if |checks| == 0 then None
    else if CheckFails(checks[0], req) then Some(0)
    else
      match FirstFailing(checks[1..], req)
      case None => None
      case Some(k) => Some(k + 1)
  }

  /** `!secret || (secret && secret !== config.proxySecret)` */
  predicate SecretRejected(cfg: Config, req: Request)
    requires cfg.proxySecret.Some?
    ensures Truthy(cfg.proxySecret) ==>
              (SecretRejected(cfg, req) <==> Header(req, ProxySecretHeader) != cfg.proxySecret)
  {
    var secret := Header(req, ProxySecretHeader);
    !Truthy(secret) || (Truthy(secret) && secret.value != cfg.proxySecret.value)
  }

  /** The verdict of the `headerFilter` closure for one request. A response is written
      exactly for a configured filter and a non-whitelisted address whose secret header
      differs from the secret or for which some additional check fails, and it always carries
      the configured code and message; the only error is the misconfiguration, in strict mode. */
  function HeaderDecision(cfg: Config, req: Request): (o: Outcome)
    ensures o.Respond? <==>
              && (Truthy(cfg.proxySecret) || NonEmpty(cfg.additionalHeaderChecks))
              && !(cfg.whitelist.Some? && ClientIP(req, true) in cfg.whitelist.value)
              && ((Truthy(cfg.proxySecret) && Header(req, ProxySecretHeader) != cfg.proxySecret)
                  || (cfg.additionalHeaderChecks.Some?
                      && exists i :: 0 <= i < |cfg.additionalHeaderChecks.value|
                                     && CheckFails(cfg.additionalHeaderChecks.value[i], req)))
    ensures o.Respond? ==> o == Respond(cfg.errorCode, cfg.errorMessage)
    ensures o.NextErr? <==>
              cfg.strict && !Truthy(cfg.proxySecret) && !NonEmpty(cfg.additionalHeaderChecks)
    ensures o.NextErr? ==> o.error == Misconfigured(NoHeaderChecksMessage)
  {
    var ip := ClientIP(req, true);
    if !Truthy(cfg.proxySecret) && !NonEmpty(cfg.additionalHeaderChecks) then
      Fail(cfg, Misconfigured(NoHeaderChecksMessage))
    else if Whitelisted(cfg, ip) then Next
    else if Truthy(cfg.proxySecret) && SecretRejected(cfg, req) then Deny(cfg)
    else if NonEmpty(cfg.additionalHeaderChecks)
         && FirstFailing(cfg.additionalHeaderChecks.value, req).Some? then Deny(cfg)
    else Next
  }

  /** The loop of `headerFilter` over `additionalHeaderChecks`, stopping at the first check
      that rejects the request. */
  method RunHeaderChecks(checks: seq<HeaderCheck>, req: Request) returns (failed: Option<nat>)
    ensures failed == FirstFailing(checks, req)
  {
    var i := 0;
    while i < |checks|
      invariant 0 <= i <= |checks|
      invariant forall j :: 0 <= j < i ==> !CheckFails(checks[j], req)
    {
      var check := checks[i];
      var header := Header(req, check.name);
      if !Truthy(header) || !Truthy(check.value) || header.value != check.value.value {
        return Some(i);
      }
      i := i + 1;
    }
    return None;
  }

  // ----- ipFilter -----

  /** With neither an iplist nor a whitelist, strict mode propagates the configuration
      error and lenient mode admits; the response is never written. */
  lemma IpMisconfigured(cfg: Config, req: Request)
    requires !NonEmpty(cfg.iplist) && !NonEmpty(cfg.whitelist)
    ensures cfg.strict ==> IpDecision(cfg, req) == NextErr(Misconfigured(NoIpListMessage))
    ensures !cfg.strict ==> IpDecision(cfg, req) == Next
  {
  }

  /** A whitelisted client address is admitted whatever the iplist. */
  lemma {:induction false} IpWhitelistAdmits(cfg: Config, req: Request)
    requires cfg.whitelist.Some? && ClientIP(req, true) in cfg.whitelist.value
    ensures IpDecision(cfg, req) == Next
  {
  }

  /** With an iplist present, a non-whitelisted address is admitted exactly when it is on
      the iplist and is otherwise answered with the configured code and message. */
  lemma IpListDecides(cfg: Config, req: Request)
    requires cfg.iplist.Some? && (NonEmpty(cfg.iplist) || NonEmpty(cfg.whitelist))
    requires !(cfg.whitelist.Some? && ClientIP(req, true) in cfg.whitelist.value)
    ensures ClientIP(req, true) in cfg.iplist.value ==> IpDecision(cfg, req) == Next
    ensures ClientIP(req, true) !in cfg.iplist.value ==>
              IpDecision(cfg, req) == Respond(cfg.errorCode, cfg.errorMessage)
  {
  }

  /** A null iplist beside a non-empty whitelist makes `iplist.indexOf` throw for every
      non-whitelisted address: strict mode propagates the TypeError, lenient mode admits. */
  lemma IpNullListThrows(cfg: Config, req: Request)
    requires cfg.iplist.None? && NonEmpty(cfg.whitelist)
    requires ClientIP(req, true) !in cfg.whitelist.value
    ensures cfg.strict ==> IpDecision(cfg, req) == NextErr(TypeError)
    ensures !cfg.strict ==> IpDecision(cfg, req) == Next
  {
  }

  /** The ipFilter looks at nothing of the request but its client address. */
  lemma IpDecisionDependsOnClientIP(cfg: Config, r1: Request, r2: Request)
    requires ClientIP(r1, true) == ClientIP(r2, true)
    ensures IpDecision(cfg, r1) == IpDecision(cfg, r2)
  {
  }

  // ----- headerFilter -----

  /** With neither a proxy secret nor additional checks, strict mode propagates the
      configuration error and lenient mode admits, even for a whitelisted address. */
  lemma HeaderMisconfigured(cfg: Config, req: Request)
    requires !Truthy(cfg.proxySecret) && !NonEmpty(cfg.additionalHeaderChecks)
    ensures cfg.strict ==> HeaderDecision(cfg, req) == NextErr(Misconfigured(NoHeaderChecksMessage))
    ensures !cfg.strict ==> HeaderDecision(cfg, req) == Next
  {
  }

  /** Once the filter is configured, a whitelisted address is admitted whatever the
      secret and header values. */
  lemma {:induction false} HeaderWhitelistAdmits(cfg: Config, req: Request)
    requires Truthy(cfg.proxySecret) || NonEmpty(cfg.additionalHeaderChecks)
    requires cfg.whitelist.Some? && ClientIP(req, true) in cfg.whitelist.value
    ensures HeaderDecision(cfg, req) == Next
  {
  }

  /** With a proxy secret configured, a non-whitelisted request whose secret header is
      missing, empty or different is denied, whatever the additional checks say. */
  lemma HeaderSecretRequired(cfg: Config, req: Request)
    requires Truthy(cfg.proxySecret)
    requires !Whitelisted(cfg, ClientIP(req, true))
    requires Header(req, ProxySecretHeader) != cfg.proxySecret
    ensures HeaderDecision(cfg, req) == Respond(cfg.errorCode, cfg.errorMessage)
  {
  }

  /** With only a proxy secret configured, a non-whitelisted request is admitted if and
      only if its secret header equals the configured secret exactly. */
  lemma HeaderSecretOnly(cfg: Config, req: Request)
    requires Truthy(cfg.proxySecret) && !NonEmpty(cfg.additionalHeaderChecks)
    requires !Whitelisted(cfg, ClientIP(req, true))
    ensures HeaderDecision(cfg, req) == Next <==> Header(req, ProxySecretHeader) == cfg.proxySecret
    ensures HeaderDecision(cfg, req) != Next ==> HeaderDecision(cfg, req) == Deny(cfg)
  {
  }

  /** Past the whitelist and a matching (or absent) secret, the request is denied exactly
      when some additional check fails, and admitted when all of them pass. */
  lemma {:induction false} HeaderChecksDecide(cfg: Config, req: Request)
    requires NonEmpty(cfg.additionalHeaderChecks)
    requires !Whitelisted(cfg, ClientIP(req, true))
    requires Truthy(cfg.proxySecret) ==> Header(req, ProxySecretHeader) == cfg.proxySecret
    ensures HeaderDecision(cfg, req) == Next <==>
              forall i :: 0 <= i < |cfg.additionalHeaderChecks.value| ==>
                !CheckFails(cfg.additionalHeaderChecks.value[i], req)
    ensures HeaderDecision(cfg, req) != Next ==> HeaderDecision(cfg, req) == Deny(cfg)
  {
  }

  /** The first failing check decides: the checks after it can be anything. */
  lemma {:induction false} FirstFailureShortCircuits(checks: seq<HeaderCheck>, rest: seq<HeaderCheck>, req: Request, k: nat)
    requires FirstFailing(checks, req) == Some(k)
    ensures FirstFailing(checks[..k + 1] + rest, req) == Some(k)
  {
    var longer := checks[..k + 1] + rest;
    assert forall i :: 0 <= i <= k ==> longer[i] == checks[i];
  }

  /** A failing check denies even when every later check would pass. */
  lemma FailingCheckDenies(cfg: Config, req: Request, k: nat)
    requires !Whitelisted(cfg, ClientIP(req, true))
    requires Truthy(cfg.proxySecret) ==> Header(req, ProxySecretHeader) == cfg.proxySecret
    requires cfg.additionalHeaderChecks.Some? && k < |cfg.additionalHeaderChecks.value|
    requires CheckFails(cfg.additionalHeaderChecks.value[k], req)
    ensures HeaderDecision(cfg, req) == Respond(cfg.errorCode, cfg.errorMessage)
  {
  }

  /** The user header only feeds the log lines: changing it never changes the ipFilter's
      verdict. */
  lemma IpFilterIgnoresUserHeader(cfg: Config, req: Request, user: string)
    ensures IpDecision(cfg, Request(req.ip, req.headers[UserHeader := user])) == IpDecision(cfg, req)
  {
    var other := Request(req.ip, req.headers[UserHeader := user]);
    assert Header(other, ForwardedForHeader) == Header(req, ForwardedForHeader);
  }

  /** ...and changes the headerFilter's verdict only through an additional check that
      reads it. */
  lemma {:induction false} UserHeaderIgnored(cfg: Config, req: Request, user: string)
    requires cfg.additionalHeaderChecks.Some? ==>
               forall i :: 0 <= i < |cfg.additionalHeaderChecks.value| ==>
                 cfg.additionalHeaderChecks.value[i].name != UserHeader
    ensures HeaderDecision(cfg, Request(req.ip, req.headers[UserHeader := user])) == HeaderDecision(cfg, req)
  {
    var other := Request(req.ip, req.headers[UserHeader := user]);
    assert Header(other, ForwardedForHeader) == Header(req, ForwardedForHeader);
    assert Header(other, ProxySecretHeader) == Header(req, ProxySecretHeader);
    if cfg.additionalHeaderChecks.Some? {
      var checks := cfg.additionalHeaderChecks.value;
      forall i | 0 <= i < |checks|
        ensures CheckFails(checks[i], other) == CheckFails(checks[i], req)
      {
        assert Header(other, checks[i].name) == Header(req, checks[i].name);
      }
      SameChecksSameFirst(checks, other, req);
    }
  }

  lemma {:induction false} SameChecksSameFirst(checks: seq<HeaderCheck>, r1: Request, r2: Request)
    requires forall i :: 0 <= i < |checks| ==> CheckFails(checks[i], r1) == CheckFails(checks[i], r2)
    ensures FirstFailing(checks, r1) == FirstFailing(checks, r2)
  {
    var a, b := FirstFailing(checks, r1), FirstFailing(checks, r2);
    if a.Some? && b.Some? {
      assert !(a.value < b.value) && !(b.value < a.value);
    }
  }

  // ----- forwarded addresses -----

  /** As written, every client picks the address it is judged by: a forwarded-for header
      naming a whitelisted address admits the request through the ipFilter, and through a
      configured headerFilter without its secret or checks, whatever the peer is. */
  lemma ForgedForwardedForAdmitted(cfg: Config, peer: string, headers: map<string, string>, forged: string)
    requires cfg.whitelist.Some? && forged in cfg.whitelist.value
    requires forged != "" && ',' !in forged
    ensures IpDecision(cfg, Request(peer, headers[ForwardedForHeader := forged])) == Next
    ensures Truthy(cfg.proxySecret) || NonEmpty(cfg.additionalHeaderChecks) ==>
              HeaderDecision(cfg, Request(peer, headers[ForwardedForHeader := forged])) == Next
  {
    SingleHopIsClient(Request(peer, headers[ForwardedForHeader := forged]));
  }

  /** Judged by the trusted address instead, a peer that is not a trusted proxy gets the
      ipFilter verdict of its own address whatever forwarded-for header it sends, and passes
      the whitelist only when it is itself whitelisted. */
  lemma {:induction false} UntrustedPeerJudgedByOwnAddress(cfg: Config, req: Request, trusted: set<string>)
    requires req.ip !in trusted
    ensures IpDecision(cfg, FromTrustedProxy(req, trusted)) == IpDecision(cfg, Request(req.ip, map[]))
    ensures Whitelisted(cfg, TrustedClientIP(req, trusted)) <==> Whitelisted(cfg, req.ip)
  {
    IpDecisionDependsOnClientIP(cfg, FromTrustedProxy(req, trusted), Request(req.ip, map[]));
  }

  // ----- the filters' own test configurations -----

  /** `{strict: false, log: false}` plus the keys a test sets. */
  const Lenient: Overrides := NoOverrides.(strict := Some(false), log := Some(false))

  /** iplist ['10.2.2.2'] and a trusted proxy forwarding for '10.2.2.1': denied with 403. */
  lemma ForwardedAddressNotListed(peer: string)
    ensures IpDecision(Extend(Some(Lenient.(iplist := Some(Some(["10.2.2.2"]))))),
                       Request(peer, map[ForwardedForHeader := "10.2.2.1"]))
            == Respond(403, "Forbidden")
  {
    var req := Request(peer, map[ForwardedForHeader := "10.2.2.1"]);
    SingleHopIsClient(req);
  }

  /** The same address whitelisted beside iplist ['107.23.255.128']: admitted. */
  lemma ForwardedAddressWhitelisted(peer: string)
    ensures IpDecision(Extend(Some(Lenient.(iplist := Some(Some(["107.23.255.128"])),
                                            whitelist := Some(Some(["10.2.2.1"]))))),
                       Request(peer, map[ForwardedForHeader := "10.2.2.1"]))
            == Next
  {
    var req := Request(peer, map[ForwardedForHeader := "10.2.2.1"]);
    SingleHopIsClient(req);
  }

  /** Proxy secret 'test-secret': the exact value is admitted, 'test-secret-invalid' is denied. */
  lemma ProxySecretScenarios(peer: string)
    ensures HeaderDecision(Extend(Some(Lenient.(proxySecret := Some(Some("test-secret"))))),
                           Request(peer, map[ProxySecretHeader := "test-secret"]))
            == Next
    ensures HeaderDecision(Extend(Some(Lenient.(proxySecret := Some(Some("test-secret"))))),
                           Request(peer, map[ProxySecretHeader := "test-secret-invalid"]))
            == Respond(403, "Forbidden")
  {
  }
}
